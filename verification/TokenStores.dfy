/** The callback token stores (pkg/webhook/store.go): the in-memory map, and Redis with prefixed keys
    that expire after 24 hours. */
module TokenStores {
  import opened AgentTasks

  const DAY := 24 * 60 * 60

  datatype Op =
    | Store(task: string, token: string)
    | Verify(task: string, token: string)
    | Delete(task: string)
    | Tick(seconds: nat)

  // ----- the in-memory store -----

  function MemStep(tokens: map<string, string>, op: Op): map<string, string> {
    match op
    case Store(task, token) => tokens[task := token]
    case Verify(_, _) => tokens
    case Delete(task) => tokens - {task}
    case Tick(_) => tokens
  }

  predicate MemAccepts(tokens: map<string, string>, task: string, token: string) {
    task in tokens && tokens[task] == token
  }

  class InMemoryTokenStore {
    var tokens: map<string, string>

    constructor ()
      ensures tokens == map[]
    {
      tokens := map[];
    }

    method StoreToken(taskID: string, token: string)
      modifies this
      ensures tokens == MemStep(old(tokens), Store(taskID, token))
      ensures MemAccepts(tokens, taskID, token)
    {
      tokens := tokens[taskID := token];
    }

    method VerifyToken(taskID: string, token: string) returns (valid: bool)
      ensures valid <==> MemAccepts(tokens, taskID, token)
    {
      var present := taskID in tokens;
      if !present {
        return false;
      }
      var stored := tokens[taskID];
      valid := stored == token;
    }

    method DeleteToken(taskID: string)
      modifies this
      ensures tokens == MemStep(old(tokens), Delete(taskID))
      ensures forall token :: !MemAccepts(tokens, taskID, token)
    {
      tokens := tokens - {taskID};
    }
  }

  // ----- the Redis store -----

  /** A value and the second at which it expires. */
  datatype Entry = Entry(value: string, expires: nat)

  datatype Redis = Redis(data: map<string, Entry>, now: nat)
  {
    function Get(key: string): Option<string> {
      if key in data && now < data[key].expires then Some(data[key].value) else None
    }
  }

  const PREFIX := "callback_token:"

  function Key(task: string): string { PREFIX + task }

  function RedisStep(s: Redis, op: Op): Redis {
    match op
    case Store(task, token) => s.(data := s.data[Key(task) := Entry(token, s.now + DAY)])
    case Verify(_, _) => s
    case Delete(task) => s.(data := s.data - {Key(task)})
    case Tick(seconds) => s.(now := s.now + seconds)
  }

  predicate RedisAccepts(s: Redis, task: string, token: string) {
    s.Get(Key(task)) == Some(token)
  }

  /** The server, seen through the client: any command may report an error, before or after its effect. */
  datatype Fault = NoFault | LostRequest | LostReply

  class RedisTokenStore {
    var server: Redis
    const faults: nat -> Fault
    var sent: nat

    constructor (faults: nat -> Fault)
      ensures server == Redis(map[], 0) && this.faults == faults
    {
      server := Redis(map[], 0);
      this.faults := faults;
      sent := 0;
    }

    method StoreToken(taskID: string, token: string) returns (ok: bool)
      modifies this
      ensures server == RedisStep(old(server), Store(taskID, token)) || (!ok && server == old(server))
      ensures ok ==> RedisAccepts(server, taskID, token)
      ensures ok ==> server.data == old(server).data["callback_token:" + taskID := Entry(token, old(server).now + 86400)]
    {
      var fault := faults(sent);
      sent := sent + 1;
      if fault != LostRequest {
        server := server.(data := server.data[Key(taskID) := Entry(token, server.now + DAY)]);
      }
      ok := fault == NoFault;
    }

    method VerifyToken(taskID: string, token: string) returns (valid: bool, ok: bool)
      modifies this`sent
      ensures ok ==> (valid <==> RedisAccepts(server, taskID, token))
      ensures !ok ==> !valid
    {
      var fault := faults(sent);
      sent := sent + 1;
      if fault != NoFault {
        return false, false;
      }
      var stored := server.Get(Key(taskID));
      if stored.None? {
        return false, true;
      }
      return stored.value == token, true;
    }

    method DeleteToken(taskID: string) returns (ok: bool)
      modifies this
      ensures server == RedisStep(old(server), Delete(taskID)) || (!ok && server == old(server))
      ensures ok ==> forall token :: !RedisAccepts(server, taskID, token)
      ensures ok ==> server.data == old(server).data - {"callback_token:" + taskID}
    {
      var fault := faults(sent);
      sent := sent + 1;
      if fault != LostRequest {
        server := server.(data := server.data - {Key(taskID)});
      }
      ok := fault == NoFault;
    }
  }

  // ----- the Redis store refines the map -----

  function MemRun(ops: seq<Op>): map<string, string> {
    if ops == [] then map[] else MemStep(MemRun(ops[..|ops| - 1]), ops[|ops| - 1])
  }

  function RedisRun(ops: seq<Op>): Redis {
    if ops == [] then Redis(map[], 0) else RedisStep(RedisRun(ops[..|ops| - 1]), ops[|ops| - 1])
  }

  /** How long ago the task's token was last stored; 0 if never. */
  function Age(ops: seq<Op>, task: string): nat {
    if ops == [] then 0
    else
      match ops[|ops| - 1]
      case Store(t, _) => if t == task then 0 else Age(ops[..|ops| - 1], task)
      case Tick(seconds) => Age(ops[..|ops| - 1], task) + seconds
      case _ => Age(ops[..|ops| - 1], task)
  }

  lemma KeysAreDistinct(a: string, b: string)
    ensures Key(a) == Key(b) ==> a == b
  {
    assert Key(a)[|PREFIX|..] == a && Key(b)[|PREFIX|..] == b;
  }

  lemma {:induction false} StoresAgree(ops: seq<Op>, task: string)
    ensures var m, s := MemRun(ops), RedisRun(ops);
            && (Key(task) in s.data <==> task in m)
            && (task in m ==> s.data[Key(task)].value == m[task] && s.data[Key(task)].expires + Age(ops, task) == s.now + DAY)
  {
    if ops != [] {
      StoresAgree(ops[..|ops| - 1], task);
      match ops[|ops| - 1]
      case Store(t, _) => KeysAreDistinct(t, task);
      case Delete(t) => KeysAreDistinct(t, task);
      case _ =>
    }
  }

  /** After any operations, Redis accepts a token exactly if the map does and the token is younger than 24 hours. */
  lemma RedisRefinesMap(ops: seq<Op>, task: string, token: string)
    ensures RedisAccepts(RedisRun(ops), task, token)
            <==> MemAccepts(MemRun(ops), task, token) && Age(ops, task) < 24 * 60 * 60
  {
    StoresAgree(ops, task);
  }
}
