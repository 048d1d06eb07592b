/** The names stored in a task are those of one sandbox that took it. */
module Naming {
  import opened AgentTasks
  import opened Protocol
  import opened World
  import opened Invariant
  import opened Preservation

  /** The names are those of the sandbox that took the task under this claim. */
  ghost predicate Named(s: Status, accepted: map<string, Handle>) {
    s.claimName != "" ==>
      && s.claimName in accepted
      && accepted[s.claimName] == Handle(s.claimName, s.sandboxName, s.podName, accepted[s.claimName].ip)
  }

  ghost predicate NamesOk(w: World) {
    && (w.obj.Some? ==> Named(w.obj.value.status, w.accepted))
    && (w.sub.SWrite? ==> Named(w.sub.task.status, w.accepted))
  }

  /** The loop keeps the names or clears them. */
  lemma LoopWritesNoNames(cfg: Config, w: World, r: Response, hit: bool)
    requires Inv(cfg, w) && LoopPossible(cfg, w, r, hit) && w.loop.LWrite?
    ensures var v := LoopEffect(w, r, hit);
            && v == w.(obj := v.obj, changes := v.changes, runs := v.runs)
            && (v.obj.Some? ==>
                  && w.obj.Some?
                  && (v.obj.value.status.SameNames(w.obj.value.status) || v.obj.value.status.claimName == ""))
  {
    LoopWriteMoves(cfg, w, r, hit);
    CommitShape(cfg, w, w.loop.task, w.loop.second, hit);
  }

  lemma LoopKeepsNames(cfg: Config, w: World, r: Response, hit: bool)
    requires Inv(cfg, w) && NamesOk(w) && LoopPossible(cfg, w, r, hit)
    ensures NamesOk(Apply(cfg, w, Loop(r, hit)))
  {
    if w.loop.LWrite? { LoopWritesNoNames(cfg, w, r, hit); }
  }

  lemma WriteKeepsNames(cfg: Config, w: World, r: Response, hit: bool, lost: string)
    requires Inv(cfg, w) && NamesOk(w) && SubPossible(w, r, hit, lost) && w.sub.SWrite?
    ensures NamesOk(Apply(cfg, w, Sub(r, hit, lost)))
  {
    RunningWrite(cfg, w, r, hit, lost);
    CommitShape(cfg, w, w.sub.task, w.sub.second, hit);
  }

  lemma SubmitKeepsNames(cfg: Config, w: World, r: Response, hit: bool, lost: string)
    requires Inv(cfg, w) && NamesOk(w) && SubPossible(w, r, hit, lost) && w.sub.SSubmit?
    ensures NamesOk(Apply(cfg, w, Sub(r, hit, lost)))
  {
    assert w.sub.handle.claim !in Recorded(w.obj);
  }

  lemma OtherSubTouches(cfg: Config, w: World, r: Response, hit: bool, lost: string)
    requires SubPossible(w, r, hit, lost) && !w.sub.SWrite? && !w.sub.SSubmit?
    ensures var v := SubEffect(w, r, hit, lost); v.obj == w.obj && v.accepted == w.accepted
    ensures !SubNext(cfg, w.sub, r).SWrite?
  {
  }

  lemma SubKeepsNames(cfg: Config, w: World, r: Response, hit: bool, lost: string)
    requires Inv(cfg, w) && NamesOk(w) && SubPossible(w, r, hit, lost)
    ensures NamesOk(Apply(cfg, w, Sub(r, hit, lost)))
  {
    if w.sub.SWrite? {
      WriteKeepsNames(cfg, w, r, hit, lost);
    } else if w.sub.SSubmit? {
      SubmitKeepsNames(cfg, w, r, hit, lost);
    } else {
      OtherSubTouches(cfg, w, r, hit, lost);
    }
  }

  lemma CallbackKeepsNames(cfg: Config, w: World, i: nat, r: Response, hit: bool)
    requires Inv(cfg, w) && NamesOk(w) && CbPossible(w, i, r, hit)
    ensures NamesOk(Apply(cfg, w, Callback(i, r, hit)))
  {
    assert CbOk(w.obj, w.cbs[i]);
    if w.cbs[i].CWrite? {
      CommitShape(cfg, w, w.cbs[i].task, w.cbs[i].second, hit);
    }
  }

  lemma StepKeepsNames(cfg: Config, w: World, step: Step)
    requires Inv(cfg, w) && NamesOk(w) && Enabled(cfg, w, step)
    ensures NamesOk(Apply(cfg, w, step))
  {
    match step
    case Loop(r, hit) => LoopKeepsNames(cfg, w, r, hit);
    case Sub(r, hit, lost) => SubKeepsNames(cfg, w, r, hit, lost);
    case Callback(i, r, hit) => CallbackKeepsNames(cfg, w, i, r, hit);
    case _ =>
  }
}
