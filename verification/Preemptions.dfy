/** Preemption by recompute costs at most one restart per token generated. */
module Preemptions {
  import opened Prelude
  import opened Hashing
  import opened PoolModel
  import opened Sequences
  import opened SchedulerModel
  import opened Invariants
  import opened CoreSteps
  import opened CoreStart
  import opened Rounds
  import opened Scheduling
  import opened Committing
  import opened Transparency
  import opened Forking
  import opened ForkSeeding
  import opened Runs

  // --------------------------------------------------------------- one launch

  /** From `was` to `now` on the list of the preempted: whoever joined it has a strictly longer known prefix to
      recompute, nobody's shrank. */
  ghost predicate Raised(seqs: map<SeqId, Sequence>, after: map<SeqId, Sequence>, was: seq<SeqId>, now: seq<SeqId>) {
    after.Keys == seqs.Keys
    && (forall id :: id in seqs ==> after[id].promptLen == seqs[id].promptLen)
    && (forall id :: id in seqs ==> after[id].target >= seqs[id].target + if id in now && id !in was then 1 else 0)
    && (forall id :: id in now ==> id in was || id in seqs)
  }

  lemma RaisedTwice(a: map<SeqId, Sequence>, b: map<SeqId, Sequence>, c: map<SeqId, Sequence>, p: seq<SeqId>, q: seq<SeqId>, r: seq<SeqId>)
    requires Raised(a, b, p, q) && Raised(b, c, q, r)
    ensures Raised(a, c, p, r)
  {}

  lemma RaisedRefl(a: map<SeqId, Sequence>, p: seq<SeqId>)
    ensures Raised(a, a, p, p)
  {}

  lemma DecodedRaises(cfg: Config, w: Work, id: SeqId, v: Work, keep: bool)
    requires cfg.blockSize > 0 && Decoded(cfg, w, id, v, keep) && Steady(cfg, w.st.seqs[id]) && IsActive(w.st.seqs[id])
    ensures Raised(w.st.seqs, v.st.seqs, w.plan.preempted, v.plan.preempted)
  {}

  /** The preempted are back in the queue, once each. */
  ghost predicate PreemptedWait(seqs: map<SeqId, Sequence>, preempted: seq<SeqId>) {
    NoDup(preempted) && forall id :: id in preempted ==> id in seqs && IsWaiting(seqs[id])
  }

  lemma DecodedWait(cfg: Config, w: Work, id: SeqId, v: Work, keep: bool)
    requires cfg.blockSize > 0 && Decoded(cfg, w, id, v, keep) && IsActive(w.st.seqs[id]) && PreemptedWait(w.st.seqs, w.plan.preempted)
    ensures PreemptedWait(v.st.seqs, v.plan.preempted)
  {
    if !keep {
      NoDupAppend(w.plan.preempted, id);
    }
  }

  lemma TurnActive(cfg: Config, w: Work, ids: seq<SeqId>, survivors: seq<SeqId>)
    requires ids != [] && WorkOk(cfg, WithRunning(w, survivors + ids)) && cfg.blockSize > 0
    ensures ids[0] in w.st.seqs && IsActive(w.st.seqs[ids[0]]) && Steady(cfg, w.st.seqs[ids[0]])
  {
    assert ids[0] in survivors + ids;
    hide *;
    WithRunningIs(w, survivors + ids);
    WorkParts(cfg, WithRunning(w, survivors + ids));
    ActiveFacts(cfg, WithRunning(w, survivors + ids).st, ids[0]);
  }

  lemma {:induction false} DecodeLoopRaises(cfg: Config, w: Work, ids: seq<SeqId>, survivors: seq<SeqId>)
    requires w.st.running == [] && WorkOk(cfg, WithRunning(w, survivors + ids)) && cfg.blockSize > 0
    requires (forall id :: id in w.plan.batchSeqs ==> id in survivors) && PreemptedWait(w.st.seqs, w.plan.preempted)
    ensures var v := DecodeLoop(cfg, w, ids, survivors).0;
      Raised(w.st.seqs, v.st.seqs, w.plan.preempted, v.plan.preempted) && PreemptedWait(v.st.seqs, v.plan.preempted)
    decreases |ids|
  {
    hide *;
    DecodeLoopUnfold(cfg, w, ids, survivors);
    RaisedRefl(w.st.seqs, w.plan.preempted);
    if ids != [] {
      DecodeTurn(cfg, w, ids, survivors);
      TurnActive(cfg, w, ids, survivors);
      var (v, keep) := DecodeOne(cfg, w, ids[0]);
      var next := if keep then survivors + [ids[0]] else survivors;
      WithRunningIs(w, survivors + ids);
      WithRunningIs(v, next + ids[1..]);
      DecodedRaises(cfg, WithRunning(w, survivors + ids), ids[0], WithRunning(v, next + ids[1..]), keep);
      DecodedWait(cfg, WithRunning(w, survivors + ids), ids[0], WithRunning(v, next + ids[1..]), keep);
      DecodeLoopRaises(cfg, v, ids[1..], next);
      var u := DecodeLoop(cfg, w, ids, survivors).0;
      RaisedTwice(w.st.seqs, v.st.seqs, u.st.seqs, w.plan.preempted, v.plan.preempted, u.plan.preempted);
    }
  }

  lemma StartTurnRaises(cfg: Config, w: Work, v: Work, more: bool)
    requires cfg.blockSize > 0 && StartTurn(cfg, w, v, more)
    ensures Raised(w.st.seqs, v.st.seqs, w.plan.preempted, v.plan.preempted) && v.plan.preempted == w.plan.preempted
  {
    if more {
      var id := w.st.waiting[0];
      assert StartOutcome(cfg, w.st, id, v.st.(waiting := w.st.waiting, running := w.st.running), true);
    }
  }

  lemma {:induction false} StartLoopRaises(cfg: Config, w: Work)
    requires WorkOk(cfg, w) && cfg.blockSize > 0
    ensures Raised(w.st.seqs, StartLoop(cfg, w).st.seqs, w.plan.preempted, StartLoop(cfg, w).plan.preempted)
    ensures StartLoop(cfg, w).plan.preempted == w.plan.preempted
    decreases |w.st.waiting|
  {
    hide *;
    StartLoopUnfold(cfg, w);
    RaisedRefl(w.st.seqs, w.plan.preempted);
    if CanTryStart(cfg, w) {
      CanTryStartIs(cfg, w);
      StartOneOk(cfg, w);
      var (v, more) := StartOne(cfg, w);
      StartTurnRaises(cfg, w, v, more);
      if more && |v.st.waiting| < |w.st.waiting| {
        StartLoopRaises(cfg, v);
        RaisedTwice(w.st.seqs, v.st.seqs, StartLoop(cfg, v).st.seqs, w.plan.preempted, w.plan.preempted, w.plan.preempted);
      }
    }
  }

  lemma DecodesRaise(cfg: Config, st: Sched)
    requires Round(cfg, st) && cfg.blockSize > 0
    ensures Raised(st.seqs, AfterDecodes(cfg, st).st.seqs, [], AfterDecodes(cfg, st).plan.preempted) && NoDup(AfterDecodes(cfg, st).plan.preempted)
  {
    var w0 := Work(st, EmptyPlan, cfg.maxBatched);
    var taken := WithRunning(w0, []);
    assert WithRunning(taken, [] + st.running) == w0;
    assert taken.plan.batchSeqs == [] && taken.plan.preempted == [] && taken.st.running == [] && taken.st.seqs == st.seqs && PreemptedWait(st.seqs, []);
    var (v, out) := DecodeLoop(cfg, taken, st.running, []);
    assert AfterDecodes(cfg, st) == WithRunning(v, out) && AfterDecodes(cfg, st).st.seqs == v.st.seqs;
    hide Round, WorkOk, DecodeLoop, AfterDecodes, Raised, WithRunning;
    StartWork(cfg, st);
    DecodeLoopRaises(cfg, taken, st.running, []);
    WithRunningIs(v, out);
  }

  /** A launch preempts a sequence at most once, and only one that has generated since it last began. */
  lemma ScheduleRaises(cfg: Config, st: Sched)
    requires Round(cfg, st) && cfg.blockSize > 0
    ensures var (t, plan) := Schedule(cfg, st);
      Raised(st.seqs, t.seqs, [], plan.preempted) && NoDup(plan.preempted)
  {
    hide *;
    ScheduleUnfold(cfg, st);
    StartWork(cfg, st);
    ScheduleDecodesOk(cfg, Work(st, EmptyPlan, cfg.maxBatched));
    var w := AfterDecodes(cfg, st);
    AfterDecodesFresh(cfg, st);
    OnlyDecodesIs(w.st.seqs, w.plan);
    WorkParts(cfg, w);
    WaitingNoDup(cfg, w.st);
    ContinueLoopOk(cfg, w, w.st.running);
    var v := ContinueLoop(cfg, w, w.st.running);
    DecodesRaise(cfg, st);
    StartLoopRaises(cfg, v);
    RaisedTwice(st.seqs, w.st.seqs, StartLoop(cfg, v).st.seqs, [], w.plan.preempted, w.plan.preempted);
  }

  // ----------------------------------------------------------------- whole runs

  function Hit(cfg: Config, w: World, step: Step, id: SeqId): nat
    requires cfg.blockSize > 0
  {
    if step.Launch? && id in Schedule(cfg, w.st).1.preempted then 1 else 0
  }

  /** How often `id` is preempted in a run. */
  function Preempted(cfg: Config, w: World, steps: seq<Step>, id: SeqId): nat
    requires cfg.blockSize > 0
    decreases |steps|
  {
    if steps == [] then 0 else Hit(cfg, w, steps[0], id) + Preempted(cfg, Take(cfg, w, steps[0]), steps[1..], id)
  }

  /** How the known prefixes move in one event. */
  ghost predicate Moved(a: Sched, b: Sched, hit: SeqId -> nat) {
    b.nextId >= a.nextId
    && forall id :: id in b.seqs ==>
         (id in a.seqs && b.seqs[id].promptLen == a.seqs[id].promptLen && b.seqs[id].target >= a.seqs[id].target + hit(id))
         || (id !in a.seqs && id >= a.nextId && hit(id) == 0)
  }

  lemma RaisedMoves(a: Sched, b: Sched, preempted: seq<SeqId>, hit: SeqId -> nat)
    requires Raised(a.seqs, b.seqs, [], preempted) && b.nextId == a.nextId
    requires forall id :: hit(id) == if id in preempted then 1 else 0
    ensures Moved(a, b, hit)
  {}

  lemma BesideMoves(a: Sched, b: Sched, hit: SeqId -> nat)
    requires Beside(a, b) && forall id :: hit(id) == 0
    requires forall id :: id in a.seqs ==> id < a.nextId
    ensures Moved(a, b, hit)
  {}

  lemma CommittedTarget(cfg: Config, s: Sequence, q: nat, token: Option<u32>, t: Sequence)
    requires cfg.blockSize > 0 && Committed(cfg, s, q, token, t)
    ensures t.target == s.target && t.promptLen == s.promptLen
  {}

  lemma CommittedMoves(cfg: Config, a: Sched, plan: Plan, sampled: seq<u32>, b: Sched, hit: SeqId -> nat)
    requires cfg.blockSize > 0 && |sampled| == |plan.sampledSeqs| && CommittedAll(cfg, a.seqs, plan, sampled, b.seqs) && b.nextId == a.nextId
    requires forall id :: hit(id) == 0
    ensures Moved(a, b, hit)
  {
    hide Committed, RowLen;
    forall id | id in b.seqs ensures id in a.seqs && b.seqs[id].promptLen == a.seqs[id].promptLen && b.seqs[id].target == a.seqs[id].target {
      if id in plan.batchSeqs {
        var i :| 0 <= i < |plan.batchSeqs| && plan.batchSeqs[i] == id;
        if id in plan.sampledSeqs {
          var k :| 0 <= k < |plan.sampledSeqs| && plan.sampledSeqs[k] == id;
          CommittedTarget(cfg, a.seqs[id], RowLen(plan.batch, i), Some(sampled[k]), b.seqs[id]);
        } else {
          CommittedTarget(cfg, a.seqs[id], RowLen(plan.batch, i), None, b.seqs[id]);
        }
      }
    }
  }

  lemma ChoicesMove(cfg: Config, a: Sched, s: Sequence, tokens: seq<u32>, b: Sched, hit: SeqId -> nat)
    requires Choices(cfg, a, s, tokens, b) && (forall id :: hit(id) == 0) && forall id :: id in a.seqs ==> id < a.nextId
    ensures Moved(a, b, hit)
  {
    hide Choice;
  }

  lemma TakeMoves(cfg: Config, w: World, step: Step, hit: SeqId -> nat)
    requires WorldOk(cfg, w) && cfg.blockSize > 0 && Enabled(cfg, w, step)
    requires forall id :: hit(id) == Hit(cfg, w, step, id)
    ensures Moved(w.st, Take(cfg, w, step).st, hit)
  {
    HitIs(cfg, w, step, hit);
    hide *;
    WorldParts(cfg, w);
    RoundParts(cfg, w.st);
    CoreParts(cfg, w.st);
    IdsBelow(w.st);
    TakeIs(cfg, w, step);
    EnabledIs(cfg, w, step);
    match step
    case AdmitRequest(r, prompt, params, tenant) =>
      AdmitBeside(cfg, w.st, r, prompt, params, tenant);
      BesideMoves(w.st, Admit(cfg, w.st, r, prompt, params, tenant).0, hit);
    case CancelRequest(r) =>
      FinishAllBeside(w.st, Listed(w.st.byRequest, r), Cancelled);
      BesideMoves(w.st, FinishAll(w.st, Listed(w.st.byRequest, r), Cancelled), hit);
    case FinishWith(id, reason) =>
      FinishBeside(w.st, id, reason);
      BesideMoves(w.st, Finish(w.st, id, reason), hit);
    case DrainFinished =>
      DrainBeside(w.st);
      BesideMoves(w.st, Drain(w.st), hit);
    case Launch =>
      LaunchIs(cfg, w);
      ScheduleRaises(cfg, w.st);
      SchedulePasses(cfg, w.st);
      PassedParts(cfg, w.st, Schedule(cfg, w.st).0);
      RaisedMoves(w.st, Schedule(cfg, w.st).0, Schedule(cfg, w.st).1.preempted, hit);
    case Land(sampled) =>
      var plan := w.flight.value.plan;
      FlightParts(cfg, w.st, w.kv, w.flight.value);
      InFlightParts(cfg, w.st, plan);
      CommitIs(cfg, w.st, plan, sampled);
      CommittedMoves(cfg, w.st, plan, sampled, Commit(cfg, w.st, plan, sampled), hit);
    case ForkAt(parent, tokens) =>
      ForkStepOk(cfg, w.st, w.kv, parent, tokens);
      ChoicesMove(cfg, w.st, w.st.seqs[parent], tokens, ForkStep(cfg, w.st, w.kv, parent, tokens).0, hit);
  }

  lemma HitIs(cfg: Config, w: World, step: Step, hit: SeqId -> nat)
    requires cfg.blockSize > 0 && forall id :: hit(id) == Hit(cfg, w, step, id)
    ensures step.Launch? ==> forall id :: hit(id) == if id in Schedule(cfg, w.st).1.preempted then 1 else 0
    ensures !step.Launch? ==> forall id :: hit(id) == 0
  {
    hide Schedule;
  }

  lemma PreemptedUnfold(cfg: Config, w: World, steps: seq<Step>, id: SeqId)
    requires cfg.blockSize > 0
    ensures steps == [] ==> Preempted(cfg, w, steps, id) == 0
    ensures steps != [] ==> Preempted(cfg, w, steps, id) == Hit(cfg, w, steps[0], id) + Preempted(cfg, Take(cfg, w, steps[0]), steps[1..], id)
  {}

  /** Where the count starts: at the known prefix, or, for one not admitted yet, at its prompt. */
  function Origin(w: World, id: SeqId, end: Sequence): nat {
    if id in w.st.seqs then w.st.seqs[id].target else end.promptLen
  }

  lemma {:induction false} CountBounded(cfg: Config, w: World, steps: seq<Step>, id: SeqId)
    requires WorldOk(cfg, w) && cfg.blockSize > 0 && Legal(cfg, w, steps) && id in Play(cfg, w, steps).st.seqs
    ensures var end := Play(cfg, w, steps).st.seqs[id];
      Preempted(cfg, w, steps, id) + Origin(w, id, end) <= end.target
      && (id in w.st.seqs ==> w.st.seqs[id].promptLen == end.promptLen) && (id !in w.st.seqs ==> id >= w.st.nextId)
    decreases |steps|
  {
    hide *;
    LegalParts(cfg, w, steps);
    PreemptedUnfold(cfg, w, steps, id);
    var end := Play(cfg, w, steps).st.seqs[id];
    OriginIs(w, id, end);
    if steps == [] {
      PlayedTarget(cfg, w, id);
    } else {
      var v := Take(cfg, w, steps[0]);
      TakeOk(cfg, w, steps[0]);
      CountBounded(cfg, v, steps[1..], id);
      OriginIs(v, id, end);
      NewTarget(cfg, v, id);
      NewTarget(cfg, w, id);
      TakeMovesAt(cfg, w, steps[0], id);
    }
  }

  lemma OriginIs(w: World, id: SeqId, end: Sequence)
    ensures id in w.st.seqs ==> Origin(w, id, end) == w.st.seqs[id].target
    ensures id !in w.st.seqs ==> Origin(w, id, end) == end.promptLen
  {}

  lemma TakeMovesAt(cfg: Config, w: World, step: Step, id: SeqId)
    requires WorldOk(cfg, w) && cfg.blockSize > 0 && Enabled(cfg, w, step)
    ensures var a, b := w.st, Take(cfg, w, step).st;
      b.nextId >= a.nextId
      && (id in a.seqs && id in b.seqs ==> b.seqs[id].promptLen == a.seqs[id].promptLen && b.seqs[id].target >= a.seqs[id].target + Hit(cfg, w, step, id))
      && (id !in a.seqs && id in b.seqs ==> id >= a.nextId && Hit(cfg, w, step, id) == 0)
      && (id !in a.seqs && id < a.nextId ==> id !in b.seqs)
      && (step.Launch? || Hit(cfg, w, step, id) == 0)
      && (id !in a.seqs ==> Hit(cfg, w, step, id) == 0)
  {
    var hit: SeqId -> nat := o => Hit(cfg, w, step, o);
    TakeMoves(cfg, w, step, hit);
    MovedAt(w.st, Take(cfg, w, step).st, hit, id);
    hide Moved, Take, Enabled, Schedule;
    if step.Launch? {
      HitsKnown(cfg, w, id);
    }
  }

  lemma HitsKnown(cfg: Config, w: World, id: SeqId)
    requires WorldOk(cfg, w) && cfg.blockSize > 0
    ensures id in Schedule(cfg, w.st).1.preempted ==> id in w.st.seqs
  {
    hide *;
    WorldParts(cfg, w);
    ScheduleRaises(cfg, w.st);
    RaisedIds(w.st.seqs, Schedule(cfg, w.st).0.seqs, Schedule(cfg, w.st).1.preempted);
  }

  lemma RaisedIds(a: map<SeqId, Sequence>, b: map<SeqId, Sequence>, preempted: seq<SeqId>)
    requires Raised(a, b, [], preempted)
    ensures forall id :: id in preempted ==> id in a
  {}

  lemma MovedAt(a: Sched, b: Sched, hit: SeqId -> nat, id: SeqId)
    requires Moved(a, b, hit)
    ensures b.nextId >= a.nextId
    ensures id in b.seqs ==>
      (id in a.seqs && b.seqs[id].promptLen == a.seqs[id].promptLen && b.seqs[id].target >= a.seqs[id].target + hit(id))
      || (id !in a.seqs && id >= a.nextId && hit(id) == 0)
  {}

  lemma PlayedTarget(cfg: Config, w: World, id: SeqId)
    requires WorldOk(cfg, w) && id in w.st.seqs
    ensures w.st.seqs[id].promptLen <= w.st.seqs[id].target
  {
    hide KvOk, FlightOk, AllSteady, PoolOk, BlocksOk, QueuesOk, RequestsOk, CollisionFree;
  }

  lemma NewTarget(cfg: Config, w: World, id: SeqId)
    requires WorldOk(cfg, w)
    ensures id in w.st.seqs ==> w.st.seqs[id].promptLen <= w.st.seqs[id].target && id < w.st.nextId
  {
    if id in w.st.seqs {
      PlayedTarget(cfg, w, id);
      WorldParts(cfg, w);
      RoundParts(cfg, w.st);
      hide WorldOk;
      CoreParts(cfg, w.st);
      IdsBelow(w.st);
    }
  }

  /** In any run of a fresh engine, a sequence is preempted at most once per token it has generated. */
  lemma PreemptedAtMostOncePerToken(cfg: Config, w0: World, steps: seq<Step>, id: SeqId)
    requires Boot(cfg, w0) && cfg.blockSize > 0 && Legal(cfg, w0, steps) && id in Play(cfg, w0, steps).st.seqs
    ensures Preempted(cfg, w0, steps, id) <= Generated(Play(cfg, w0, steps).st.seqs[id])
  {
    assert id !in w0.st.seqs;
    hide Boot, Legal, Play, Preempted;
    BootOk(cfg, w0);
    PlayOk(cfg, w0, steps);
    CountBounded(cfg, w0, steps, id);
    TargetWithin(cfg, Play(cfg, w0, steps), id);
  }

  lemma TargetWithin(cfg: Config, w: World, id: SeqId)
    requires WorldOk(cfg, w) && id in w.st.seqs
    ensures w.st.seqs[id].promptLen <= w.st.seqs[id].target <= |w.st.seqs[id].tokens|
  {
    hide KvOk, FlightOk, AllSteady, PoolOk, BlocksOk, QueuesOk, RequestsOk, CollisionFree;
  }
}
