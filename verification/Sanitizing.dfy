/** Removing a token from error messages (sanitizeError in pkg/sandbox/server.go). */
module Sanitizing {
  import opened AgentTasks

  predicate OccursAt(s: string, t: string, i: int) {
    0 <= i && i + |t| <= |s| && s[i..i + |t|] == t
  }

  ghost predicate Contains(s: string, t: string) {
    exists i :: OccursAt(s, t, i)
  }

  /** The leftmost occurrence, from position `from` on. */
  function IndexFrom(s: string, t: string, from: nat): (k: Option<nat>)
    ensures k.Some? ==> from <= k.value && OccursAt(s, t, k.value) && forall i :: from <= i < k.value ==> !OccursAt(s, t, i)
    ensures k.None? ==> forall i :: from <= i ==> !OccursAt(s, t, i)
    decreases |s| - from
  {
    if from + |t| > |s| then None
    else if OccursAt(s, t, from) then Some(from)
    else IndexFrom(s, t, from + 1)
  }

  const MASK := "***"

  /** Replaces non-overlapping occurrences, leftmost first. */
  function ReplaceAll(s: string, t: string, sep: string): string
    requires t != ""
    decreases |s|
  {
    match IndexFrom(s, t, 0)
    case None => s
    case Some(k) => s[..k] + sep + ReplaceAll(s[k + |t|..], t, sep)
  }

  function SanitizeError(err: Option<string>, token: string): Option<string> {
    if err.None? then None
    else if token == "" then err
    else Some(ReplaceAll(err.value, token, MASK))
  }

  // ----- reference: split by the token, join by the mask -----

  function Split(s: string, t: string): (pieces: seq<string>)
    requires t != ""
    ensures |pieces| > 0
    decreases |s|
  {
    match IndexFrom(s, t, 0)
    case None => [s]
    case Some(k) => [s[..k]] + Split(s[k + |t|..], t)
  }

  function Join(pieces: seq<string>, sep: string): string
    requires |pieces| > 0
  {
    if |pieces| == 1 then pieces[0] else pieces[0] + sep + Join(pieces[1..], sep)
  }

  /** Replacing is splitting and joining, and joining by the token gives back the message: the text
      between the occurrences is kept, in order. */
  lemma {:induction false} ReplaceIsSplitJoin(s: string, t: string, sep: string)
    requires t != ""
    ensures ReplaceAll(s, t, sep) == Join(Split(s, t), sep)
    ensures Join(Split(s, t), t) == s
    decreases |s|
  {
    match IndexFrom(s, t, 0)
    case None =>
    case Some(k) =>
      ReplaceIsSplitJoin(s[k + |t|..], t, sep);
      assert s == s[..k] + t + s[k + |t|..];
      assert Split(s, t)[1..] == Split(s[k + |t|..], t);
  }

  /** What becomes of an error's message: its pieces between the tokens, joined by three stars. */
  lemma SanitizedMessage(msg: string, token: string)
    ensures SanitizeError(None, token) == None
    ensures token == "" ==> SanitizeError(Some(msg), token) == Some(msg)
    ensures token != "" ==> SanitizeError(Some(msg), token) == Some(Join(Split(msg, token), "***"))
  {
    if token != "" { ReplaceIsSplitJoin(msg, token, "***"); }
  }

  lemma {:induction false} PiecesAreFree(s: string, t: string)
    requires t != ""
    ensures forall p :: p in Split(s, t) ==> !Contains(p, t)
    decreases |s|
  {
    match IndexFrom(s, t, 0)
    case None =>
    case Some(k) =>
      PiecesAreFree(s[k + |t|..], t);
      forall i ensures !OccursAt(s[..k], t, i) {
        if OccursAt(s[..k], t, i) { assert s[..k][i..i + |t|] == s[i..i + |t|]; assert OccursAt(s, t, i); }
      }
  }

  /** A message without the token is left alone, and only such a message is one piece. */
  lemma TokenFreeIsUnchanged(s: string, t: string, sep: string)
    requires t != ""
    ensures !Contains(s, t) <==> |Split(s, t)| == 1
    ensures !Contains(s, t) ==> ReplaceAll(s, t, sep) == s
  {
    if k: nat :| IndexFrom(s, t, 0) == Some(k) {
      assert OccursAt(s, t, k);
      assert |Split(s[k + |t|..], t)| > 0;
    }
  }

  // ----- when the token is really gone -----

  /** Tokens that cannot come back together with the mask: no star at either end and no mask inside. */
  ghost predicate Safe(token: string)
    requires token != ""
  {
    token[0] != '*' && token[|token| - 1] != '*' && !Contains(token, MASK)
  }

  lemma {:induction false} JoinIsFree(pieces: seq<string>, t: string)
    requires |pieces| > 0 && t != "" && Safe(t)
    requires forall p :: p in pieces ==> !Contains(p, t)
    ensures !Contains(Join(pieces, MASK), t)
  {
    if |pieces| > 1 {
      var p, rest := pieces[0], Join(pieces[1..], MASK);
      JoinIsFree(pieces[1..], t);
      assert p in pieces;
      var all := p + MASK + rest;
      forall i ensures !OccursAt(all, t, i) {
        if OccursAt(all, t, i) { NoOverlap(p, rest, t, i); }
      }
      assert Join(pieces, MASK) == all;
    } else {
      assert pieces[0] in pieces;
    }
  }

  lemma CharAt(s: string, t: string, i: int, j: int)
    requires OccursAt(s, t, i) && 0 <= j < |t|
    ensures s[i + j] == t[j]
  {
    assert s[i..i + |t|][j] == t[j];
  }

  /** An occurrence of a safe token lies wholly on one side of a mask. */
  lemma NoOverlap(p: string, rest: string, t: string, i: int)
    requires t != "" && Safe(t) && OccursAt(p + MASK + rest, t, i)
    ensures Contains(p, t) || Contains(rest, t)
  {
    var all := p + MASK + rest;
    var n := |p|;
    CharAt(all, t, i, 0);
    CharAt(all, t, i, |t| - 1);
    assert all[n] == '*' && all[n + 1] == '*' && all[n + 2] == '*';
    if i + |t| <= n {
      assert p[i..i + |t|] == t;
      assert OccursAt(p, t, i);
    } else if i >= n + 3 {
      assert rest[i - n - 3..i - n - 3 + |t|] == t;
      assert OccursAt(rest, t, i - n - 3);
    } else {
      assert i < n && n + 3 < i + |t|;
      CoversMask(all, t, i, n);
    }
  }

  lemma CoversMask(s: string, t: string, i: int, n: int)
    requires OccursAt(s, t, i) && i < n && n + 3 < i + |t| && OccursAt(s, MASK, n)
    ensures Contains(t, MASK)
  {
    CharAt(s, t, i, n - i);
    CharAt(s, t, i, n - i + 1);
    CharAt(s, t, i, n - i + 2);
    CharAt(s, MASK, n, 0);
    CharAt(s, MASK, n, 1);
    CharAt(s, MASK, n, 2);
    assert t[n - i..n - i + 3] == MASK;
    assert OccursAt(t, MASK, n - i);
  }

  /** A safe token is gone from every message. */
  lemma SanitizedIsFree(msg: string, token: string)
    requires token != "" && Safe(token)
    ensures !Contains(SanitizeError(Some(msg), token).value, token)
  {
    ReplaceIsSplitJoin(msg, token, MASK);
    PiecesAreFree(msg, token);
    JoinIsFree(Split(msg, token), token);
  }

  /** In particular a token without stars. */
  lemma StarFreeIsSafe(token: string)
    requires token != "" && '*' !in token
    ensures Safe(token)
  {
    forall i ensures !OccursAt(token, MASK, i) {
      if OccursAt(token, MASK, i) { CharAt(token, MASK, i, 0); }
    }
  }

  /** If the token's first occurrence in a + token + b is the one in the middle, and b is short, only it is replaced. */
  lemma ReplaceMiddle(s: string, a: string, t: string, b: string)
    requires t != "" && |b| < |t| && s == a + t + b
    requires forall k :: 0 <= k < |a| ==> !OccursAt(s, t, k)
    ensures ReplaceAll(s, t, MASK) == a + MASK + b
  {
    assert s[|a|..|a| + |t|] == t;
    assert OccursAt(s, t, |a|);
    assert IndexFrom(s, t, 0) == Some(|a|);
    assert s[|a| + |t|..] == b && s[..|a|] == a;
    assert IndexFrom(b, t, 0).None?;
  }

  lemma LeadingStarSurvives(token: string) returns (msg: string)
    requires token != "" && token[0] == '*'
    ensures Contains(SanitizeError(Some(msg), token).value, token)
  {
    var n := |token|;
    msg := token + token[1..];
    assert [] + token + token[1..] == msg;
    ReplaceMiddle(msg, [], token, token[1..]);
    var out := SanitizeError(Some(msg), token).value;
    assert out == MASK + token[1..];
    assert out[2..2 + n] == token;
    assert OccursAt(out, token, 2);
  }

  lemma TrailingStarSurvives(token: string) returns (msg: string)
    requires token != "" && token[0] != '*' && token[|token| - 1] == '*'
    ensures Contains(SanitizeError(Some(msg), token).value, token)
  {
    var n := |token|;
    var u := token[..n - 1];
    msg := u + token;
    assert u + token + [] == msg;
    forall k | 0 <= k < |u| ensures !OccursAt(msg, token, k) {
      if OccursAt(msg, token, k) {
        CharAt(msg, token, k, 0);
        CharAt(msg, token, k, n - 1);
      }
    }
    ReplaceMiddle(msg, u, token, []);
    var out := SanitizeError(Some(msg), token).value;
    assert out == u + MASK;
    assert out[0..n] == token;
    assert OccursAt(out, token, 0);
  }

  lemma InnerMaskSurvives(token: string) returns (msg: string)
    requires Contains(token, MASK)
    ensures token != "" && Contains(SanitizeError(Some(msg), token).value, token)
  {
    var k :| IndexFrom(token, MASK, 0) == Some(k);
    var a, b := token[..k], token[k + 3..];
    msg := a + token + b;
    assert token == a + MASK + b;
    forall m | 0 <= m < |a| ensures !OccursAt(msg, token, m) {
      if OccursAt(msg, token, m) { EarlierMask(msg, token, a, b, m); }
    }
    ReplaceMiddle(msg, a, token, b);
    ContainsItself(token);
  }

  lemma ContainsItself(s: string)
    ensures Contains(s, s)
  {
    assert s[0..|s|] == s;
    assert OccursAt(s, s, 0);
  }

  /** An occurrence that starts inside the first copy of a would put a mask before the first one. */
  lemma EarlierMask(msg: string, token: string, a: string, b: string, m: nat)
    requires token == a + MASK + b && msg == a + token + b && m < |a|
    requires OccursAt(msg, token, m)
    ensures OccursAt(token, MASK, m)
  {
    var k := |a|;
    CharAt(msg, token, m, k);
    CharAt(msg, token, m, k + 1);
    CharAt(msg, token, m, k + 2);
    assert token[m..m + 3] == [msg[k + m], msg[k + m + 1], msg[k + m + 2]];
  }

  /** For every token that is not safe there is a message in which the token survives sanitizing. */
  lemma UnsafeSurvives(token: string) returns (msg: string)
    requires token != "" && !Safe(token)
    ensures Contains(SanitizeError(Some(msg), token).value, token)
  {
    if token[0] == '*' {
      msg := LeadingStarSurvives(token);
    } else if token[|token| - 1] == '*' {
      msg := TrailingStarSurvives(token);
    } else {
      msg := InnerMaskSurvives(token);
    }
  }

  /** Sanitizing removes the token from all messages if and only if the token is safe. */
  lemma SanitizingIsExact(token: string)
    requires token != ""
    ensures (forall msg :: !Contains(SanitizeError(Some(msg), token).value, token)) <==> Safe(token)
  {
    if Safe(token) {
      forall msg ensures !Contains(SanitizeError(Some(msg), token).value, token) { SanitizedIsFree(msg, token); }
    } else {
      var msg := UnsafeSurvives(token);
    }
  }
}
