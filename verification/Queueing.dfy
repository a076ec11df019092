/** First come, first started. */
module Queueing {
  import opened Prelude
  import opened PoolModel
  import opened Sequences
  import opened SchedulerModel
  import opened Invariants
  import opened CoreSteps
  import opened CoreStart
  import opened Rounds
  import opened Scheduling
  import opened Committing
  import opened Kv
  import opened Transparency
  import opened ForwardPass
  import opened Forking
  import opened ForkSeeding
  import opened Runs

  // ------------------------------------------------------------ one schedule

  function Reversed(s: seq<SeqId>): seq<SeqId> {
    if s == [] then [] else Reversed(s[1..]) + [s[0]]
  }

  lemma {:induction false} ReversedPush(s: seq<SeqId>, x: SeqId)
    ensures Reversed(s + [x]) == [x] + Reversed(s)
  {
    if s != [] {
      ReversedPush(s[1..], x);
      assert (s + [x])[1..] == s[1..] + [x];
      assert ([x] + Reversed(s[1..])) + [s[0]] == [x] + (Reversed(s[1..]) + [s[0]]);
    } else {
      assert s + [x] == [x];
    }
  }

  lemma {:induction false} ReversedMembers(s: seq<SeqId>)
    ensures |Reversed(s)| == |s| && forall x :: x in Reversed(s) <==> x in s
  {
    if s != [] {
      ReversedMembers(s[1..]);
      assert forall x :: x in s <==> x == s[0] || x in s[1..];
    }
  }

  /** The queue once the preempted are back at its front, last preempted first. */
  function Requeued(st: Sched, preempted: seq<SeqId>): seq<SeqId> {
    Reversed(preempted) + st.waiting
  }

  lemma DecodedQueue(cfg: Config, queue: seq<SeqId>, w: Work, id: SeqId, v: Work, keep: bool)
    requires cfg.blockSize > 0 && Decoded(cfg, w, id, v, keep) && w.st.waiting == Reversed(w.plan.preempted) + queue
    ensures v.st.waiting == Reversed(v.plan.preempted) + queue && v.plan.started == w.plan.started
  {
    hide *;
    DecodedQueueParts(cfg, w, id, v, keep);
    if !keep {
      ReversedPush(w.plan.preempted, id);
      var front := Reversed(w.plan.preempted);
      assert [id] + (front + queue) == ([id] + front) + queue;
    }
  }

  lemma DecodedQueueParts(cfg: Config, w: Work, id: SeqId, v: Work, keep: bool)
    requires cfg.blockSize > 0 && Decoded(cfg, w, id, v, keep)
    ensures v.plan.started == w.plan.started
    ensures v.st.waiting == (if keep then w.st.waiting else [id] + w.st.waiting)
    ensures v.plan.preempted == (if keep then w.plan.preempted else w.plan.preempted + [id])
  {}

  lemma {:induction false} DecodeLoopQueue(cfg: Config, queue: seq<SeqId>, w: Work, ids: seq<SeqId>, survivors: seq<SeqId>)
    requires w.st.running == [] && WorkOk(cfg, WithRunning(w, survivors + ids)) && cfg.blockSize > 0
    requires (forall id :: id in w.plan.batchSeqs ==> id in survivors) && w.st.waiting == Reversed(w.plan.preempted) + queue
    ensures var v := DecodeLoop(cfg, w, ids, survivors).0;
      v.st.waiting == Reversed(v.plan.preempted) + queue && v.plan.started == w.plan.started
    decreases |ids|
  {
    hide *;
    DecodeLoopUnfold(cfg, w, ids, survivors);
    if ids != [] {
      DecodeTurn(cfg, w, ids, survivors);
      var (v, keep) := DecodeOne(cfg, w, ids[0]);
      var next := if keep then survivors + [ids[0]] else survivors;
      WithRunningIs(w, survivors + ids);
      WithRunningIs(v, next + ids[1..]);
      DecodedQueue(cfg, queue, WithRunning(w, survivors + ids), ids[0], WithRunning(v, next + ids[1..]), keep);
      DecodeLoopQueue(cfg, queue, v, ids[1..], next);
    }
  }

  /** The start loop has taken exactly the ids in `started` off the front of `queue`. */
  ghost predicate TakenOff(queue: seq<SeqId>, started: seq<(SeqId, nat)>, waiting: seq<SeqId>) {
    |started| <= |queue| && waiting == queue[|started|..] && forall i :: 0 <= i < |started| ==> started[i].0 == queue[i]
  }

  lemma StartTurnTakes(cfg: Config, queue: seq<SeqId>, w: Work, v: Work, more: bool)
    requires cfg.blockSize > 0 && StartTurn(cfg, w, v, more) && TakenOff(queue, w.plan.started, w.st.waiting)
    ensures TakenOff(queue, v.plan.started, v.st.waiting)
  {
    hide StartOutcome, Chunked;
    if more {
      assert w.st.waiting[1..] == queue[|w.plan.started| + 1..];
    }
  }

  lemma {:induction false} StartLoopTakes(cfg: Config, queue: seq<SeqId>, w: Work)
    requires WorkOk(cfg, w) && cfg.blockSize > 0 && TakenOff(queue, w.plan.started, w.st.waiting)
    ensures TakenOff(queue, StartLoop(cfg, w).plan.started, StartLoop(cfg, w).st.waiting)
    ensures StartLoop(cfg, w).plan.preempted == w.plan.preempted
    decreases |w.st.waiting|
  {
    hide *;
    StartLoopUnfold(cfg, w);
    if CanTryStart(cfg, w) {
      CanTryStartIs(cfg, w);
      StartOneOk(cfg, w);
      var (v, more) := StartOne(cfg, w);
      StartTurnTakes(cfg, queue, w, v, more);
      StartTurnPreempts(cfg, w, v, more);
      if more && |v.st.waiting| < |w.st.waiting| {
        StartLoopTakes(cfg, queue, v);
      }
    }
  }

  lemma StartTurnPreempts(cfg: Config, w: Work, v: Work, more: bool)
    requires cfg.blockSize > 0 && StartTurn(cfg, w, v, more)
    ensures v.plan.preempted == w.plan.preempted
  {
    hide StartOutcome, Chunked;
  }

  lemma DecodesQueue(cfg: Config, st: Sched)
    requires Round(cfg, st) && cfg.blockSize > 0
    ensures var w := AfterDecodes(cfg, st);
      w.st.waiting == Requeued(st, w.plan.preempted) && w.plan.started == []
  {
    var w0 := Work(st, EmptyPlan, cfg.maxBatched);
    var taken := WithRunning(w0, []);
    assert WithRunning(taken, [] + st.running) == w0;
    assert taken.plan.batchSeqs == [] && taken.plan.preempted == [] && taken.st.running == [] && taken.plan.started == [];
    assert taken.st.waiting == Reversed([]) + st.waiting;
    var (v, out) := DecodeLoop(cfg, taken, st.running, []);
    assert AfterDecodes(cfg, st) == WithRunning(v, out);
    hide Round, WorkOk, DecodeLoop, AfterDecodes, WithRunning, Reversed;
    StartWork(cfg, st);
    DecodeLoopQueue(cfg, st.waiting, taken, st.running, []);
    WithRunningIs(v, out);
  }

  /** `schedule` starts exactly a prefix of the queue, in its order, the preempted having gone back to its front. */
  lemma StartsInOrder(cfg: Config, st: Sched)
    requires Round(cfg, st) && cfg.blockSize > 0
    ensures var (t, plan) := Schedule(cfg, st);
      TakenOff(Requeued(st, plan.preempted), plan.started, t.waiting)
  {
    hide *;
    ScheduleUnfold(cfg, st);
    StartWork(cfg, st);
    ScheduleDecodesOk(cfg, Work(st, EmptyPlan, cfg.maxBatched));
    var w := AfterDecodes(cfg, st);
    AfterDecodesFresh(cfg, st);
    OnlyDecodesIs(w.st.seqs, w.plan);
    WorkParts(cfg, w);
    WaitingNoDup(cfg, w.st);
    ContinueLoopOk(cfg, w, w.st.running);
    var v := ContinueLoop(cfg, w, w.st.running);
    DecodesQueue(cfg, st);
    NothingTaken(w.st.waiting);
    StartLoopTakes(cfg, Requeued(st, w.plan.preempted), v);
  }

  lemma NothingTaken(queue: seq<SeqId>)
    ensures TakenOff(queue, [], queue)
  {}

  /** Every successful start leaves at least the watermark free. */
  lemma StartKeepsReserve(cfg: Config, st: Sched, id: SeqId)
    requires Core(cfg, st) && id in st.seqs && IsWaiting(st.seqs[id])
    ensures var (t, ok) := TryStart(cfg, st, id);
      ok ==> |t.pool.free| >= t.pool.watermark && id in t.seqs && t.seqs[id].computed < t.seqs[id].target
  {
    TryStartCore(cfg, st, id);
    hide TryStart, Core;
  }

  // ------------------------------------------------------------- the queue

  predicate NeverStarted(seqs: map<SeqId, Sequence>, id: SeqId) {
    id in seqs && seqs[id].status.Waiting?
  }

  /** Preempted ids first, then those never started, in order of admission. */
  ghost predicate Ordered(seqs: map<SeqId, Sequence>, queue: seq<SeqId>) {
    forall i, j :: 0 <= i < j < |queue| && NeverStarted(seqs, queue[i]) ==> NeverStarted(seqs, queue[j]) && queue[i] < queue[j]
  }

  lemma OrderedFrame(a: map<SeqId, Sequence>, b: map<SeqId, Sequence>, queue: seq<SeqId>)
    requires Ordered(a, queue) && forall id :: id in queue ==> NeverStarted(a, id) == NeverStarted(b, id)
    ensures Ordered(b, queue)
  {
    hide NeverStarted;
    assert forall i :: 0 <= i < |queue| ==> queue[i] in queue;
  }

  lemma OrderedSuffix(seqs: map<SeqId, Sequence>, queue: seq<SeqId>, k: nat)
    requires Ordered(seqs, queue) && k <= |queue|
    ensures Ordered(seqs, queue[k..])
  {
    hide NeverStarted;
    assert forall i :: 0 <= i < |queue| - k ==> queue[k..][i] == queue[k + i];
  }

  lemma OrderedPush(seqs: map<SeqId, Sequence>, queue: seq<SeqId>, id: SeqId)
    requires Ordered(seqs, queue) && NeverStarted(seqs, id) && forall x :: x in queue ==> x < id
    ensures Ordered(seqs, queue + [id])
  {
    hide NeverStarted;
    assert forall i :: 0 <= i < |queue| ==> queue[i] in queue;
  }

  lemma OrderedFront(seqs: map<SeqId, Sequence>, front: seq<SeqId>, queue: seq<SeqId>)
    requires Ordered(seqs, queue) && forall x :: x in front ==> !NeverStarted(seqs, x)
    ensures Ordered(seqs, front + queue)
  {
    hide NeverStarted;
    var all := front + queue;
    assert forall i :: 0 <= i < |front| ==> all[i] in front;
    assert forall i :: |front| <= i < |all| ==> all[i] == queue[i - |front|];
  }

  lemma OrderedWithout(seqs: map<SeqId, Sequence>, queue: seq<SeqId>, x: SeqId)
    requires Ordered(seqs, queue)
    ensures Ordered(seqs, Without(queue, x))
  {
    hide NeverStarted;
    var out := Without(queue, x);
    forall i, j | 0 <= i < j < |out| && NeverStarted(seqs, out[i]) ensures NeverStarted(seqs, out[j]) && out[i] < out[j] {
      var k, l := WithoutSublist(queue, x, i, j);
    }
  }

  // ------------------------------------------------- the steps keep the order

  lemma AdmitOrdered(cfg: Config, st: Sched, r: RequestId, prompt: seq<u32>, params: Params, tenant: Text)
    requires QueuesOk(st) && Ordered(st.seqs, st.waiting)
    ensures var t := Admit(cfg, st, r, prompt, params, tenant).0;
      Ordered(t.seqs, t.waiting)
  {
    var t := Admit(cfg, st, r, prompt, params, tenant).0;
    if t != st {
      forall x | x in st.waiting ensures x in st.seqs && x < st.nextId {
        assert x in WaitingIds(st.seqs);
      }
      OrderedFrame(st.seqs, t.seqs, st.waiting);
      OrderedPush(t.seqs, st.waiting, st.nextId);
    }
  }

  lemma FinishOrdered(st: Sched, id: SeqId, reason: Reason)
    requires Ordered(st.seqs, st.waiting)
    ensures Ordered(Finish(st, id, reason).seqs, Finish(st, id, reason).waiting)
  {
    if id in st.seqs && !IsFinished(st.seqs[id]) {
      var t := Finish(st, id, reason);
      OrderedWithout(st.seqs, st.waiting, id);
      WithoutMembers(st.waiting, id);
      OrderedFrame(st.seqs, t.seqs, t.waiting);
    }
  }

  lemma {:induction false} FinishAllOrdered(st: Sched, ids: seq<SeqId>, reason: Reason)
    requires Ordered(st.seqs, st.waiting)
    ensures Ordered(FinishAll(st, ids, reason).seqs, FinishAll(st, ids, reason).waiting)
    decreases |ids|
  {
    hide Ordered, Finish;
    if ids != [] {
      FinishOrdered(st, ids[0], reason);
      FinishAllOrdered(Finish(st, ids[0], reason), ids[1..], reason);
    }
  }

  lemma DrainOrdered(st: Sched)
    requires QueuesOk(st) && Ordered(st.seqs, st.waiting)
    ensures Ordered(Drain(st).seqs, Drain(st).waiting)
  {
    DrainListFinished(st.(finished := []), st.finished);
    hide DrainList, Ordered;
    var t := Drain(st);
    forall x | x in st.waiting ensures NeverStarted(st.seqs, x) == NeverStarted(t.seqs, x) {
      assert x in WaitingIds(st.seqs);
      assert x !in FinishedIds(st.seqs);
    }
    OrderedFrame(st.seqs, t.seqs, st.waiting);
  }

  /** What scheduling may do to a sequence's claim of never having started: end it, by starting it. */
  lemma ScheduleOrdered(cfg: Config, st: Sched)
    requires Round(cfg, st) && cfg.blockSize > 0 && Ordered(st.seqs, st.waiting)
    ensures var (t, plan) := Schedule(cfg, st);
      Ordered(t.seqs, t.waiting)
  {
    hide *;
    ScheduleUnfold(cfg, st);
    StartWork(cfg, st);
    ScheduleDecodesOk(cfg, Work(st, EmptyPlan, cfg.maxBatched));
    var w := AfterDecodes(cfg, st);
    AfterDecodesFresh(cfg, st);
    OnlyDecodesIs(w.st.seqs, w.plan);
    WorkParts(cfg, w);
    WaitingNoDup(cfg, w.st);
    ContinueLoopOk(cfg, w, w.st.running);
    DecodesOrdered(cfg, st);
    StartLoopOrdered(cfg, ContinueLoop(cfg, w, w.st.running));
  }

  lemma DecodedOrdered(cfg: Config, w: Work, id: SeqId, v: Work, keep: bool)
    requires cfg.blockSize > 0 && Decoded(cfg, w, id, v, keep) && Ordered(w.st.seqs, w.st.waiting) && id !in w.st.waiting
    ensures Ordered(v.st.seqs, v.st.waiting)
  {
    OrderedFrame(w.st.seqs, v.st.seqs, w.st.waiting);
    if !keep {
      OrderedFront(v.st.seqs, [id], w.st.waiting);
    }
  }

  lemma TurnNotWaiting(cfg: Config, w: Work, ids: seq<SeqId>, survivors: seq<SeqId>)
    requires ids != [] && WorkOk(cfg, WithRunning(w, survivors + ids))
    ensures ids[0] !in w.st.waiting
  {
    assert ids[0] in survivors + ids;
    hide *;
    WithRunningIs(w, survivors + ids);
    WorkParts(cfg, WithRunning(w, survivors + ids));
    RunningIs(cfg, WithRunning(w, survivors + ids).st, ids[0]);
    NotBoth(w.st.seqs[ids[0]]);
  }

  lemma {:induction false} DecodeLoopOrdered(cfg: Config, w: Work, ids: seq<SeqId>, survivors: seq<SeqId>)
    requires w.st.running == [] && WorkOk(cfg, WithRunning(w, survivors + ids)) && cfg.blockSize > 0
    requires (forall id :: id in w.plan.batchSeqs ==> id in survivors) && Ordered(w.st.seqs, w.st.waiting)
    ensures var v := DecodeLoop(cfg, w, ids, survivors).0;
      Ordered(v.st.seqs, v.st.waiting)
    decreases |ids|
  {
    hide *;
    DecodeLoopUnfold(cfg, w, ids, survivors);
    if ids != [] {
      DecodeTurn(cfg, w, ids, survivors);
      TurnNotWaiting(cfg, w, ids, survivors);
      var (v, keep) := DecodeOne(cfg, w, ids[0]);
      var next := if keep then survivors + [ids[0]] else survivors;
      WithRunningIs(w, survivors + ids);
      WithRunningIs(v, next + ids[1..]);
      DecodedOrdered(cfg, WithRunning(w, survivors + ids), ids[0], WithRunning(v, next + ids[1..]), keep);
      DecodeLoopOrdered(cfg, v, ids[1..], next);
    }
  }

  lemma DecodesOrdered(cfg: Config, st: Sched)
    requires Round(cfg, st) && cfg.blockSize > 0 && Ordered(st.seqs, st.waiting)
    ensures var w := AfterDecodes(cfg, st);
      Ordered(w.st.seqs, w.st.waiting)
  {
    var w0 := Work(st, EmptyPlan, cfg.maxBatched);
    var taken := WithRunning(w0, []);
    assert WithRunning(taken, [] + st.running) == w0;
    assert taken.plan.batchSeqs == [] && taken.st.running == [] && taken.st.seqs == st.seqs && taken.st.waiting == st.waiting;
    var (v, out) := DecodeLoop(cfg, taken, st.running, []);
    assert AfterDecodes(cfg, st) == WithRunning(v, out);
    hide Round, WorkOk, DecodeLoop, AfterDecodes, WithRunning, Ordered;
    StartWork(cfg, st);
    DecodeLoopOrdered(cfg, taken, st.running, []);
    WithRunningIs(v, out);
  }

  lemma StartTurnOrdered(cfg: Config, w: Work, v: Work, more: bool)
    requires cfg.blockSize > 0 && StartTurn(cfg, w, v, more) && Ordered(w.st.seqs, w.st.waiting) && NoDup(w.st.waiting)
    ensures Ordered(v.st.seqs, v.st.waiting)
  {
    if more {
      var id := w.st.waiting[0];
      assert StartOutcome(cfg, w.st, id, v.st.(waiting := w.st.waiting, running := w.st.running), true);
      assert v.st.seqs == w.st.seqs[id := v.st.seqs[id]];
      hide StartOutcome, Chunked;
      NoDupTail(w.st.waiting);
      OrderedSuffix(w.st.seqs, w.st.waiting, 1);
      OrderedFrame(w.st.seqs, v.st.seqs, v.st.waiting);
    }
  }

  lemma {:induction false} StartLoopOrdered(cfg: Config, w: Work)
    requires WorkOk(cfg, w) && cfg.blockSize > 0 && Ordered(w.st.seqs, w.st.waiting)
    ensures Ordered(StartLoop(cfg, w).st.seqs, StartLoop(cfg, w).st.waiting)
    decreases |w.st.waiting|
  {
    hide *;
    StartLoopUnfold(cfg, w);
    if CanTryStart(cfg, w) {
      CanTryStartIs(cfg, w);
      StartOneOk(cfg, w);
      WorkParts(cfg, w);
      WaitingNoDup(cfg, w.st);
      var (v, more) := StartOne(cfg, w);
      StartTurnOrdered(cfg, w, v, more);
      if more && |v.st.waiting| < |w.st.waiting| {
        StartLoopOrdered(cfg, v);
      }
    }
  }

  // ----------------------------------------------------------------- landing

  lemma {:induction false} AdvanceLoopQueue(st: Sched, plan: Plan, i: nat)
    ensures AdvanceLoop(st, plan, i).waiting == st.waiting
    decreases |plan.batchSeqs| - i
  {
    if i < |plan.batchSeqs| {
      var id := plan.batchSeqs[i];
      AdvanceLoopQueue(if id in st.seqs then st.(seqs := st.seqs[id := Advanced(st.seqs[id], RowLen(plan.batch, i))]) else st, plan, i + 1);
    }
  }

  /** Finishing sequences that are not queued leaves the queue alone. */
  lemma {:induction false} AppendLoopQueue(cfg: Config, st: Sched, ids: seq<SeqId>, sampled: seq<u32>)
    requires forall id :: id in ids ==> id !in st.waiting
    ensures AppendLoop(cfg, st, ids, sampled).waiting == st.waiting
    decreases |ids|
  {
    if ids != [] && sampled != [] {
      assert ids[0] in ids && forall id :: id in ids[1..] ==> id in ids;
      WithoutAbsent(st.waiting, ids[0]);
      hide CheckFinished, Without, ReleaseAll;
      AppendLoopQueue(cfg, AppendOne(cfg, st, ids[0], sampled[0]), ids[1..], sampled[1..]);
    }
  }

  lemma {:induction false} PublishLoopQueue(cfg: Config, st: Sched, ids: seq<SeqId>)
    requires cfg.blockSize > 0
    ensures PublishLoop(cfg, st, ids).waiting == st.waiting
    decreases |ids|
  {
    hide PublishRange, ApplySwaps;
    if ids != [] {
      PublishLoopQueue(cfg, PublishOne(cfg, st, ids[0]), ids[1..]);
    }
  }

  lemma CommitQueue(cfg: Config, st: Sched, plan: Plan, sampled: seq<u32>)
    requires cfg.blockSize > 0 && forall id :: id in plan.sampledSeqs ==> id !in st.waiting
    ensures Commit(cfg, st, plan, sampled).waiting == st.waiting
  {
    hide *;
    CommitUnfold(cfg, st, plan, sampled);
    AdvanceLoopQueue(st, plan, 0);
    var m := AdvanceLoop(st, plan, 0);
    AppendLoopQueue(cfg, m, plan.sampledSeqs, sampled);
    PublishLoopQueue(cfg, AppendLoop(cfg, m, plan.sampledSeqs, sampled), plan.batchSeqs);
  }

  lemma FlyingNotWaiting(cfg: Config, st: Sched, plan: Plan)
    requires cfg.blockSize > 0 && Core(cfg, st) && InFlight(cfg, st, plan)
    ensures forall id :: id in plan.batchSeqs ==> id !in st.waiting
    ensures forall id :: id in plan.sampledSeqs ==> id !in st.waiting
  {
    hide Core, Shape;
    forall id | id in plan.batchSeqs ensures id !in st.waiting {
      var i :| 0 <= i < |plan.batchSeqs| && plan.batchSeqs[i] == id;
      RunningIs(cfg, st, id);
      if id in st.seqs {
        assert Flying(cfg, st.seqs[id], plan, i);
        assert IsFinished(st.seqs[id]) || IsActive(st.seqs[id]);
      }
    }
  }

  lemma CommitOrdered(cfg: Config, st: Sched, plan: Plan, sampled: seq<u32>)
    requires cfg.blockSize > 0 && Core(cfg, st) && InFlight(cfg, st, plan) && |sampled| == |plan.sampledSeqs| && Ordered(st.seqs, st.waiting)
    ensures var t := Commit(cfg, st, plan, sampled);
      Ordered(t.seqs, t.waiting)
  {
    hide *;
    InFlightParts(cfg, st, plan);
    FlyingNotWaiting(cfg, st, plan);
    CommitIs(cfg, st, plan, sampled);
    CommitQueue(cfg, st, plan, sampled);
    CommittedOthers(cfg, st.seqs, plan, sampled, Commit(cfg, st, plan, sampled).seqs, st.waiting);
    OrderedFrame(st.seqs, Commit(cfg, st, plan, sampled).seqs, st.waiting);
  }

  lemma CommittedOthers(cfg: Config, seqs: map<SeqId, Sequence>, plan: Plan, sampled: seq<u32>, after: map<SeqId, Sequence>, queue: seq<SeqId>)
    requires cfg.blockSize > 0 && CommittedAll(cfg, seqs, plan, sampled, after) && forall id :: id in plan.batchSeqs ==> id !in queue
    ensures forall id :: id in queue ==> NeverStarted(seqs, id) == NeverStarted(after, id)
  {
    hide Committed;
  }

  lemma ChoicesOrdered(cfg: Config, st: Sched, s: Sequence, tokens: seq<u32>, u: Sched)
    requires QueuesOk(st) && Choices(cfg, st, s, tokens, u) && u.waiting == st.waiting && Ordered(st.seqs, st.waiting)
    ensures Ordered(u.seqs, u.waiting)
  {
    hide Choice, Ordered;
    forall x | x in st.waiting ensures NeverStarted(st.seqs, x) == NeverStarted(u.seqs, x) {
      assert x in WaitingIds(st.seqs);
    }
    OrderedFrame(st.seqs, u.seqs, st.waiting);
  }

  lemma ForkQueue(cfg: Config, st: Sched, kv: Cache, parent: SeqId, tokens: seq<u32>)
    requires Round(cfg, st) && cfg.blockSize > 0 && KvOk(cfg, st, kv) && parent in st.seqs && ForkParent(cfg, st.seqs[parent])
    requires tokens == [] || |st.pool.free| >= |tokens| + st.pool.watermark
    ensures ForkStep(cfg, st, kv, parent, tokens).0.waiting == st.waiting
  {
    hide *;
    RoundParts(cfg, st);
    CoreParts(cfg, st);
    IdsBelow(st);
    AllSteadyAt(cfg, st.seqs, parent);
    OpenExists(cfg, st.seqs[parent]);
    ForkSucceedsIff(cfg, st, parent, |tokens|);
    ForkStepIs(cfg, st, kv, parent, tokens);
    var (t, fork, err) := ForkSeq(cfg, st, parent, |tokens|);
    MidwayParts(cfg, st, parent, t, fork);
    FamilyIds(cfg, st, st.seqs[parent], t, fork);
    CoreParts(cfg, t);
    SizesOk(t.pool);
    ForkableMade(cfg, st, parent, t, fork, kv);
    ForkedKvOk(cfg, st, parent, t, fork, kv);
    FamilySeeding(cfg, st, parent, t, fork);
    SeedAllOk(cfg, t, fork.ids, tokens, CopyBlocks(kv, fork.copies));
  }

  // ---------------------------------------------------------------- whole runs

  lemma TakeOrdered(cfg: Config, w: World, step: Step)
    requires WorldOk(cfg, w) && cfg.blockSize > 0 && Enabled(cfg, w, step) && Ordered(w.st.seqs, w.st.waiting)
    ensures Ordered(Take(cfg, w, step).st.seqs, Take(cfg, w, step).st.waiting)
  {
    hide *;
    WorldParts(cfg, w);
    RoundParts(cfg, w.st);
    CoreParts(cfg, w.st);
    TakeIs(cfg, w, step);
    EnabledIs(cfg, w, step);
    match step
    case AdmitRequest(r, prompt, params, tenant) =>
      AdmitOrdered(cfg, w.st, r, prompt, params, tenant);
    case CancelRequest(r) =>
      FinishAllOrdered(w.st, Listed(w.st.byRequest, r), Cancelled);
    case FinishWith(id, reason) =>
      FinishOrdered(w.st, id, reason);
    case DrainFinished =>
      DrainOrdered(w.st);
    case Launch =>
      LaunchIs(cfg, w);
      ScheduleOrdered(cfg, w.st);
    case Land(sampled) =>
      FlightParts(cfg, w.st, w.kv, w.flight.value);
      CommitOrdered(cfg, w.st, w.flight.value.plan, sampled);
    case ForkAt(parent, tokens) =>
      ForkStepOk(cfg, w.st, w.kv, parent, tokens);
      ForkQueue(cfg, w.st, w.kv, parent, tokens);
      ChoicesOrdered(cfg, w.st, w.st.seqs[parent], tokens, ForkStep(cfg, w.st, w.kv, parent, tokens).0);
  }

  lemma {:induction false} PlayOrdered(cfg: Config, w: World, steps: seq<Step>)
    requires WorldOk(cfg, w) && cfg.blockSize > 0 && Legal(cfg, w, steps) && Ordered(w.st.seqs, w.st.waiting)
    ensures Ordered(Play(cfg, w, steps).st.seqs, Play(cfg, w, steps).st.waiting)
    decreases |steps|
  {
    hide *;
    LegalParts(cfg, w, steps);
    if steps != [] {
      TakeOk(cfg, w, steps[0]);
      TakeOrdered(cfg, w, steps[0]);
      PlayOrdered(cfg, Take(cfg, w, steps[0]), steps[1..]);
    }
  }

  /** In every reachable state the queue is the preempted followed by the never started, in order of admission. */
  lemma QueueOrdered(cfg: Config, w: World)
    requires Reachable(cfg, w)
    ensures Ordered(w.st.seqs, w.st.waiting)
  {
    var w0, steps :| Boot(cfg, w0) && cfg.blockSize > 0 && Legal(cfg, w0, steps) && w == Play(cfg, w0, steps);
    assert Ordered(w0.st.seqs, w0.st.waiting);
    hide Boot, Legal, Play, Ordered;
    BootOk(cfg, w0);
    PlayOrdered(cfg, w0, steps);
  }

  lemma PrefixOfOrdered(seqs: map<SeqId, Sequence>, front: seq<SeqId>, queue: seq<SeqId>, k: nat, x: SeqId, y: SeqId)
    requires Ordered(seqs, queue) && k <= |front + queue| && y in queue && NeverStarted(seqs, x) && NeverStarted(seqs, y) && y < x
    requires x in (front + queue)[..k] && x in queue && NoDup(front + queue)
    ensures y in (front + queue)[..k]
  {
    hide NeverStarted;
    var all := front + queue;
    var i :| 0 <= i < |queue| && queue[i] == x;
    var j :| 0 <= j < |queue| && queue[j] == y;
    assert j < i by {
      assert forall a, b :: 0 <= a < b < |queue| && NeverStarted(seqs, queue[a]) ==> queue[a] < queue[b];
    }
    var m :| 0 <= m < k && all[m] == x;
    assert all[|front| + i] == x;
    assert m == |front| + i;
    assert all[|front| + j] == y;
  }

  /** No never-started request overtakes an earlier one: if a launch starts `x`, it starts every request that was
      admitted before `x` and was still waiting for its first start. */
  lemma NoOvertaking(cfg: Config, w: World, x: SeqId, y: SeqId, k: nat)
    requires Reachable(cfg, w) && cfg.blockSize > 0 && NeverStarted(w.st.seqs, x) && NeverStarted(w.st.seqs, y) && y < x
    requires k < |Schedule(cfg, w.st).1.started| && Schedule(cfg, w.st).1.started[k].0 == x
    ensures exists l :: 0 <= l < |Schedule(cfg, w.st).1.started| && Schedule(cfg, w.st).1.started[l].0 == y
  {
    var (t, plan) := Schedule(cfg, w.st);
    hide *;
    ReachableOk(cfg, w);
    WorldParts(cfg, w);
    QueueOrdered(cfg, w);
    RoundParts(cfg, w.st);
    StartsInOrder(cfg, w.st);
    DecodesQueue(cfg, w.st);
    QueueDistinct(cfg, w.st, plan);
    NeverQueued(cfg, w.st, x);
    NeverQueued(cfg, w.st, y);
    var queue, n := Requeued(w.st, plan.preempted), |plan.started|;
    TakenOffIs(queue, plan.started, t.waiting);
    RequeuedIs(w.st, plan.preempted);
    assert queue[..n][k] == x;
    PrefixOfOrdered(w.st.seqs, Reversed(plan.preempted), w.st.waiting, n, x, y);
    var l :| 0 <= l < n && queue[..n][l] == y;
    assert plan.started[l].0 == y;
  }

  lemma TakenOffIs(queue: seq<SeqId>, started: seq<(SeqId, nat)>, waiting: seq<SeqId>)
    requires TakenOff(queue, started, waiting)
    ensures |started| <= |queue| && forall i :: 0 <= i < |started| ==> started[i].0 == queue[i]
  {}

  lemma RequeuedIs(st: Sched, preempted: seq<SeqId>)
    ensures Requeued(st, preempted) == Reversed(preempted) + st.waiting
  {}

  lemma NeverQueued(cfg: Config, st: Sched, id: SeqId)
    requires Core(cfg, st) && NeverStarted(st.seqs, id)
    ensures id in st.waiting
  {
    RunningIs(cfg, st, id);
    hide Core;
  }

  lemma QueueDistinct(cfg: Config, st: Sched, plan: Plan)
    requires Round(cfg, st) && cfg.blockSize > 0 && plan == Schedule(cfg, st).1
    ensures NoDup(Requeued(st, plan.preempted))
  {
    hide *;
    ScheduleUnfold(cfg, st);
    StartWork(cfg, st);
    ScheduleDecodesOk(cfg, Work(st, EmptyPlan, cfg.maxBatched));
    var w := AfterDecodes(cfg, st);
    AfterDecodesFresh(cfg, st);
    OnlyDecodesIs(w.st.seqs, w.plan);
    WorkParts(cfg, w);
    WaitingNoDup(cfg, w.st);
    ContinueLoopOk(cfg, w, w.st.running);
    var v := ContinueLoop(cfg, w, w.st.running);
    DecodesQueue(cfg, st);
    NothingTaken(w.st.waiting);
    StartLoopTakes(cfg, Requeued(st, w.plan.preempted), v);
  }
}
