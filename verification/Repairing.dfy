/** The repaired error path of the submission: a claim whose task was refused goes to its cleanup and nowhere else. */
module Repairing {
  import opened AgentTasks
  import opened Protocol
  import opened World
  import opened Invariant
  import opened Preservation

  ghost predicate RepairOk(cfg: Config, sub: SubPc, L: Ledger) {
    cfg.repaired ==>
      && L.submitErrors !! L.recorded
      && L.submitErrors !! L.lostWrites
      && (ClaimOf(sub) in L.submitErrors ==> sub.SClose?)
  }

  /** A goroutine's step brings in no claim but its own and a new one. */
  lemma SubKeepsClaim(cfg: Config, w: World, r: Response, hit: bool, lost: string)
    requires Inv(cfg, w) && SubPossible(w, r, hit, lost) && !w.sub.SWrite? && !w.sub.SSubmit?
    ensures var L, c := SubEffect(w, r, hit, lost).ledger, ClaimOf(SubNext(cfg, w.sub, r));
            && L == w.ledger.(live := L.live, created := L.created, lostCreates := L.lostCreates,
                              failedCleanups := L.failedCleanups)
            && (c == "" || (c == ClaimOf(w.sub) && !w.sub.SClose?) || c !in w.ledger.created)
  {
  }

  lemma WriteKeepsRepair(cfg: Config, w: World, r: Response, hit: bool, lost: string)
    requires Inv(cfg, w) && RepairOk(cfg, w.sub, w.ledger) && SubPossible(w, r, hit, lost) && w.sub.SWrite?
    ensures RepairOk(cfg, SubNext(cfg, w.sub, r), SubEffect(w, r, hit, lost).ledger)
  {
    RunningWrite(cfg, w, r, hit, lost);
  }

  lemma SubKeepsRepair(cfg: Config, w: World, r: Response, hit: bool, lost: string)
    requires Inv(cfg, w) && RepairOk(cfg, w.sub, w.ledger) && SubPossible(w, r, hit, lost)
    ensures RepairOk(cfg, SubNext(cfg, w.sub, r), SubEffect(w, r, hit, lost).ledger)
  {
    if w.sub.SWrite? {
      WriteKeepsRepair(cfg, w, r, hit, lost);
    } else if !w.sub.SSubmit? {
      SubKeepsClaim(cfg, w, r, hit, lost);
    }
  }

  lemma StepKeepsRepair(cfg: Config, w: World, step: Step)
    requires Inv(cfg, w) && RepairOk(cfg, w.sub, w.ledger) && Enabled(cfg, w, step)
    ensures var v := Apply(cfg, w, step); RepairOk(cfg, v.sub, v.ledger)
  {
    match step
    case Loop(r, hit) =>
      LoopMoves(cfg, w, r, hit);
      LoopKeepsRegistry(cfg, w, r, hit);
    case Sub(r, hit, lost) => SubKeepsRepair(cfg, w, r, hit, lost);
    case Callback(i, r, hit) => CallbackMoves(cfg, w, i, r, hit);
    case _ =>
  }
}
