/** Every round does something while there is something to do. */
module Progress {
  import opened Prelude
  import opened Hashing
  import opened PoolModel
  import opened Sequences
  import opened SchedulerModel
  import opened Invariants
  import opened CoreSteps
  import opened CoreStart
  import opened Rounds
  import opened Scheduling
  import opened Transparency
  import opened Forking
  import opened Sizes

  // ------------------------------------------------------------ the premises

  function Max(a: nat, b: nat): nat { if a >= b then a else b }

  /** The longest a sequence can get. */
  function Limit(cfg: Config, s: Sequence): nat {
    Min(s.promptLen + Max(1, s.params.maxTokens), cfg.maxContext)
  }

  /** The sequence fits the pool when alone in it, with the reserve kept. */
  predicate FitsAlone(cfg: Config, p: Pool, s: Sequence)
    requires cfg.blockSize > 0
  {
    BlocksFor(cfg.blockSize, Limit(cfg, s)) + p.watermark <= |p.refs|
  }

  ghost predicate AllFit(cfg: Config, st: Sched)
    requires cfg.blockSize > 0
  {
    forall id :: id in st.seqs && !IsFinished(st.seqs[id]) ==> FitsAlone(cfg, st.pool, st.seqs[id])
  }

  ghost predicate Budgeted(cfg: Config) {
    cfg.maxBatched > 0 && cfg.chunk > 0 && cfg.maxSeqs > 0
  }

  lemma LimitCovers(cfg: Config, s: Sequence)
    requires cfg.blockSize > 0 && BasicOk(cfg, s) && Unfinished(cfg, s)
    ensures |s.tokens| + 1 <= Limit(cfg, s)
  {}

  // ---------------------------------------------------------- the decode pass

  /** What the decode pass leaves of the sequences it kept: prefilling ones, sampled ones, and, once the
      budget is spent, others. */
  ghost predicate Kept(w: Work, ids: seq<SeqId>) {
    w.plan.batchSeqs == w.plan.sampledSeqs
    && forall id :: id in ids ==> id in w.st.seqs && (NeedsPrefill(w.st.seqs[id]) || id in w.plan.sampledSeqs || w.budget == 0)
  }

  lemma KeptStep(cfg: Config, w: Work, id: SeqId, v: Work, keep: bool, survivors: seq<SeqId>)
    requires cfg.blockSize > 0 && Decoded(cfg, w, id, v, keep) && Kept(w, survivors) && id !in survivors
    ensures Kept(v, if keep then survivors + [id] else survivors)
  {}

  lemma KeptFrame(w: Work, v: Work, ids: seq<SeqId>)
    requires Kept(w, ids) && v.plan == w.plan && v.st.seqs == w.st.seqs && v.budget == w.budget
    ensures Kept(v, ids)
  {}

  lemma TurnNoDup(cfg: Config, w: Work, ids: seq<SeqId>, survivors: seq<SeqId>)
    requires ids != [] && WorkOk(cfg, WithRunning(w, survivors + ids))
    ensures ids[0] !in survivors
  {
    WorkParts(cfg, WithRunning(w, survivors + ids));
    RunningIs(cfg, WithRunning(w, survivors + ids).st, 0);
    assert WithRunning(w, survivors + ids).st.running == survivors + ids;
    hide WorkOk, Core, PlanOk, AllSteady;
    NoDupSplit(survivors, ids);
    assert ids[0] in ids;
  }

  lemma {:induction false} DecodeLoopKeeps(cfg: Config, w: Work, ids: seq<SeqId>, survivors: seq<SeqId>)
    requires w.st.running == [] && WorkOk(cfg, WithRunning(w, survivors + ids)) && cfg.blockSize > 0
    requires (forall id :: id in w.plan.batchSeqs ==> id in survivors) && Kept(w, survivors)
    ensures var (v, out) := DecodeLoop(cfg, w, ids, survivors);
      Kept(v, out)
    decreases |ids|
  {
    hide *;
    DecodeLoopUnfold(cfg, w, ids, survivors);
    if ids != [] {
      DecodeTurn(cfg, w, ids, survivors);
      TurnNoDup(cfg, w, ids, survivors);
      var (v, keep) := DecodeOne(cfg, w, ids[0]);
      var next := if keep then survivors + [ids[0]] else survivors;
      var a, b := WithRunning(w, survivors + ids), WithRunning(v, next + ids[1..]);
      WithRunningIs(w, survivors + ids);
      WithRunningIs(v, next + ids[1..]);
      KeptFrame(w, a, survivors);
      KeptStep(cfg, a, ids[0], b, keep, survivors);
      KeptFrame(b, v, next);
      DecodeLoopKeeps(cfg, v, ids[1..], next);
    }
  }

  lemma AfterDecodesKept(cfg: Config, st: Sched)
    requires Round(cfg, st) && cfg.blockSize > 0
    ensures Kept(AfterDecodes(cfg, st), AfterDecodes(cfg, st).st.running)
  {
    var w0 := Work(st, EmptyPlan, cfg.maxBatched);
    var taken := WithRunning(w0, []);
    assert WithRunning(taken, [] + st.running) == w0;
    assert Kept(taken, []) && taken.plan.batchSeqs == [] && taken.st.running == [];
    var (v, out) := DecodeLoop(cfg, taken, st.running, []);
    assert AfterDecodes(cfg, st) == WithRunning(v, out);
    hide *;
    StartWork(cfg, st);
    DecodeLoopKeeps(cfg, taken, st.running, []);
    WithRunningIs(v, out);
    KeptFrame(v, WithRunning(v, out), out);
  }

  /** Sequences still prefilling pass through the decode pass untouched. */
  lemma {:induction false} DecodeLoopIdle(cfg: Config, w: Work, ids: seq<SeqId>, survivors: seq<SeqId>)
    requires cfg.blockSize > 0 && forall id :: id in ids ==> id in w.st.seqs && !IsFinished(w.st.seqs[id]) && NeedsPrefill(w.st.seqs[id])
    ensures DecodeLoop(cfg, w, ids, survivors) == (w, survivors + ids)
    decreases |ids|
  {
    if ids == [] {
      assert survivors + ids == survivors;
    } else {
      assert ids[0] in ids && forall id :: id in ids[1..] ==> id in ids;
      DecodeLoopIdle(cfg, w, ids[1..], survivors + [ids[0]]);
      assert survivors + [ids[0]] + ids[1..] == survivors + ids;
    }
  }

  lemma DecodesIdle(cfg: Config, st: Sched)
    requires cfg.blockSize > 0 && forall id :: id in st.running ==> id in st.seqs && !IsFinished(st.seqs[id]) && NeedsPrefill(st.seqs[id])
    ensures AfterDecodes(cfg, st) == Work(st, EmptyPlan, cfg.maxBatched)
  {
    var taken := Work(st.(running := []), EmptyPlan, cfg.maxBatched);
    DecodeLoopIdle(cfg, taken, st.running, []);
    hide DecodeLoop;
    assert [] + st.running == st.running;
  }

  // --------------------------------------------------------- the prefill pass

  /** The plan only grows. */
  ghost predicate Grew(p: Plan, q: Plan) {
    p.batchSeqs <= q.batchSeqs && p.sampledSeqs <= q.sampledSeqs
  }

  lemma ChunkedGrew(cfg: Config, w: Work, id: SeqId, v: Work)
    requires Chunked(cfg, w, id, v)
    ensures Grew(w.plan, v.plan)
    ensures NeedsPrefill(w.st.seqs[id]) && cfg.chunk > 0 && w.budget > 0 ==> v.plan.batchSeqs != []
  {}

  lemma GrewTwice(a: Plan, b: Plan, c: Plan)
    requires Grew(a, b) && Grew(b, c)
    ensures Grew(a, c) && (b.batchSeqs != [] ==> c.batchSeqs != [])
  {}

  lemma ContinueLoopUnfold(cfg: Config, w: Work, ids: seq<SeqId>)
    requires cfg.blockSize > 0
    ensures ids == [] || w.budget == 0 ==> ContinueLoop(cfg, w, ids) == w
    ensures ids != [] && w.budget > 0 ==>
      var id := ids[0];
      ContinueLoop(cfg, w, ids) ==
        if id !in w.st.seqs || !NeedsPrefill(w.st.seqs[id]) || IsFinished(w.st.seqs[id]) then ContinueLoop(cfg, w, ids[1..])
        else ContinueLoop(cfg, PrefillChunk(cfg, w, id), ids[1..])
  {}

  lemma ListParts(ids: seq<SeqId>)
    requires ids != [] && NoDup(ids)
    ensures ids[0] in ids && NoDup(ids[1..]) && ids[0] !in ids[1..]
    ensures forall o :: o in ids <==> o == ids[0] || o in ids[1..]
  {
    NoDupTail(ids);
  }

  /** The continuing prefills: the plan grows, and holds something if any of them has something left. */
  lemma {:induction false} ContinueLoopGrew(cfg: Config, w: Work, ids: seq<SeqId>)
    requires WorkOk(cfg, w) && cfg.blockSize > 0 && NoDup(ids)
    requires forall id :: id in ids ==> id in w.st.running
    requires forall id :: id in ids && id in w.st.seqs && NeedsPrefill(w.st.seqs[id]) ==> id !in w.plan.batchSeqs
    ensures Grew(w.plan, ContinueLoop(cfg, w, ids).plan)
    ensures cfg.chunk > 0 && w.budget > 0 && (exists id :: id in ids && id in w.st.seqs && NeedsPrefill(w.st.seqs[id])) ==>
      ContinueLoop(cfg, w, ids).plan.batchSeqs != []
    decreases |ids|
  {
    hide *;
    ContinueLoopUnfold(cfg, w, ids);
    GrewRefl(w.plan);
    if ids != [] && w.budget > 0 {
      var id := ids[0];
      ListParts(ids);
      WorkParts(cfg, w);
      ActiveFacts(cfg, w.st, id);
      if !NeedsPrefill(w.st.seqs[id]) {
        ContinueLoopGrew(cfg, w, ids[1..]);
      } else {
        StartedChunkFits(cfg, w, id);
        var v := PrefillChunk(cfg, w, id);
        ChunkedGrew(cfg, w, id, v);
        ChunkedRest(cfg, w, id, v, ids[1..]);
        ContinueLoopGrew(cfg, v, ids[1..]);
        GrewTwice(w.plan, v.plan, ContinueLoop(cfg, v, ids[1..]).plan);
      }
    }
  }

  lemma GrewRefl(p: Plan)
    ensures Grew(p, p)
  {}

  lemma ChunkedRest(cfg: Config, w: Work, id: SeqId, v: Work, rest: seq<SeqId>)
    requires Chunked(cfg, w, id, v) && id !in rest
    requires forall o :: o in rest ==> o in w.st.running
    requires forall o :: o in rest && o in w.st.seqs && NeedsPrefill(w.st.seqs[o]) ==> o !in w.plan.batchSeqs
    ensures forall o :: o in rest ==> o in v.st.running
    ensures forall o :: o in rest && o in v.st.seqs && NeedsPrefill(v.st.seqs[o]) ==> o !in v.plan.batchSeqs
  {}

  lemma StartTurnGrew(cfg: Config, w: Work, v: Work, more: bool)
    requires cfg.blockSize > 0 && StartTurn(cfg, w, v, more)
    ensures Grew(w.plan, v.plan)
    ensures more && cfg.chunk > 0 && w.budget > 0 ==> v.plan.batchSeqs != []
  {
    var id := w.st.waiting[0];
    if more {
      var u := Work(v.st, w.plan.(started := v.plan.started), w.budget);
      assert StartOutcome(cfg, w.st, id, v.st.(waiting := w.st.waiting, running := w.st.running), true);
      assert NeedsPrefill(v.st.seqs[id]);
      hide StartOutcome;
      ChunkedGrew(cfg, u, id, v);
    }
  }

  lemma {:induction false} StartLoopGrew(cfg: Config, w: Work)
    requires WorkOk(cfg, w) && cfg.blockSize > 0
    ensures Grew(w.plan, StartLoop(cfg, w).plan)
    decreases |w.st.waiting|
  {
    hide *;
    StartLoopUnfold(cfg, w);
    GrewRefl(w.plan);
    if CanTryStart(cfg, w) {
      CanTryStartIs(cfg, w);
      StartOneOk(cfg, w);
      var (v, more) := StartOne(cfg, w);
      StartTurnGrew(cfg, w, v, more);
      if more && |v.st.waiting| < |w.st.waiting| {
        StartLoopGrew(cfg, v);
        GrewTwice(w.plan, v.plan, StartLoop(cfg, v).plan);
      }
    }
  }

  // ---------------------------------------------------- starting when all is free

  ghost function Elements(s: seq<BlockId>): set<BlockId> { set x | x in s }

  /** A pool whose only references are one each to `held` has every other block free. */
  lemma FreeComplement(p: Pool, held: seq<BlockId>)
    requires FreeListOk(p) && NoDup(held) && forall j :: 0 <= j < |held| ==> held[j] < |p.refs|
    requires forall b: nat :: b < |p.refs| ==> p.refs[b] == Once(held, b)
    ensures |p.free| == |p.refs| - |held|
  {
    var all := Range(|p.refs|);
    SeqCard(p.free, Elements(p.free));
    SeqCard(held, Elements(held));
    SeqCard(all, Elements(all));
    forall b: nat ensures b in all <==> b < |p.refs| {
      assert b < |p.refs| ==> all[b] == b;
    }
    assert Elements(all) == Elements(p.free) + Elements(held);
    assert Elements(p.free) !! Elements(held);
  }

  lemma NobodyHolds(cfg: Config, st: Sched)
    requires Core(cfg, st) && st.running == []
    ensures forall b: nat :: b < |st.pool.refs| ==> st.pool.refs[b] == 0
  {
    forall id | id in st.seqs ensures st.seqs[id].blocks == [] {
      RunningIs(cfg, st, id);
    }
    CoreParts(cfg, st);
    BlocksRefs(cfg, st.pool, st.seqs);
    hide Core, PoolOk, BlocksOk, QueuesOk, RequestsOk, BasicOk, CollisionFree;
    forall b: nat | b < |st.pool.refs| ensures st.pool.refs[b] == 0 {
      assert Owners(st.seqs, b) == {};
    }
  }

  lemma MatchedInside(cfg: Config, hashOf: seq<Option<BlockHash>>, s: Sequence, matched: seq<BlockId>)
    requires cfg.blockSize > 0 && Matches(cfg, hashOf, s, matched)
    ensures NoDup(matched) && forall j :: 0 <= j < |matched| ==> matched[j] < |hashOf|
  {}

  lemma TookFromNothing(p: Pool, m: Pool, matched: seq<BlockId>)
    requires Took(p, m, matched) && forall b: nat :: b < |p.refs| ==> p.refs[b] == 0
    ensures |m.refs| == |p.refs| && forall b: nat :: b < |m.refs| ==> m.refs[b] == Once(matched, b)
  {}

  lemma PoolLists(p: Pool)
    requires PoolOk(p)
    ensures FreeListOk(p)
  {}

  lemma WaitingFacts(cfg: Config, s: Sequence)
    requires cfg.blockSize > 0 && BasicOk(cfg, s) && IsWaiting(s)
    ensures s.blocks == [] && 1 <= s.target <= |s.tokens|
  {}

  lemma WaitingFits(cfg: Config, p: Pool, s: Sequence)
    requires cfg.blockSize > 0 && BasicOk(cfg, s) && Steady(cfg, s) && IsWaiting(s) && FitsAlone(cfg, p, s)
    ensures BlocksFor(cfg.blockSize, s.target + 1) + p.watermark <= |p.refs|
  {
    LimitCovers(cfg, s);
    BlocksForMono(cfg.blockSize, s.target + 1, Limit(cfg, s));
  }

  /** With nothing running, a sequence that fits alone starts. */
  lemma StartsAlone(cfg: Config, st: Sched, id: SeqId)
    requires Core(cfg, st) && cfg.blockSize > 0 && st.running == [] && id in st.seqs && IsWaiting(st.seqs[id]) && Steady(cfg, st.seqs[id])
    requires FitsAlone(cfg, st.pool, st.seqs[id])
    ensures TryStart(cfg, st, id).1
  {
    hide *;
    var s := st.seqs[id];
    CoreParts(cfg, st);
    WaitingFacts(cfg, s);
    WaitingFits(cfg, st.pool, s);
    TryStartPhases(cfg, st, id);
    MatchPhaseOk(cfg, st.pool, s);
    var (m, matched) := MatchPhase(cfg, st.pool, s);
    AllocPhaseOk(cfg, st, id, m, matched);
    NobodyHolds(cfg, st);
    TookFromNothing(st.pool, m, matched);
    TookSizes(st.pool, m, matched);
    MatchedInside(cfg, st.pool.hashOf, s, matched);
    SizesOk(st.pool);
    PoolLists(m);
    FreeComplement(m, matched);
  }

  lemma HeadStarts(cfg: Config, w: Work)
    requires WorkOk(cfg, w) && CanTryStart(cfg, w) && cfg.blockSize > 0 && w.st.waiting != [] && w.st.running == []
    requires AllFit(cfg, w.st)
    ensures StartOne(cfg, w).1
  {
    hide *;
    WorkParts(cfg, w);
    var id := w.st.waiting[0];
    RunningIs(cfg, w.st, id);
    NotBoth(w.st.seqs[id]);
    AllSteadyAt(cfg, w.st.seqs, id);
    AllFitAt(cfg, w.st, id);
    StartsAlone(cfg, w.st, id);
    WithoutHead(w.st.waiting);
    var (t, ok) := TryStart(cfg, w.st, id);
    TryStartCore(cfg, w.st, id);
    OutcomeShape(cfg, w.st, id, t, ok);
    StartOneUnfold(cfg, w);
    JustStartedOk(cfg, w);
    JustStartedIs(cfg, w, t);
    var u := JustStarted(cfg, w);
    assert id in u.st.running;
    StartedChunkFits(cfg, u, id);
    ChunkedKeeps(cfg, u, id, PrefillChunk(cfg, u, id));
  }

  lemma AllFitAt(cfg: Config, st: Sched, id: SeqId)
    requires cfg.blockSize > 0 && AllFit(cfg, st) && id in st.seqs && !IsFinished(st.seqs[id])
    ensures FitsAlone(cfg, st.pool, st.seqs[id])
  {
    hide FitsAlone;
  }

  // -------------------------------------------------------- the whole schedule

  lemma EvolvedFits(cfg: Config, st: Sched, t: Sched)
    requires cfg.blockSize > 0 && AllFit(cfg, st) && AllEvolved(cfg, st.seqs, t.seqs) && |t.pool.refs| == |st.pool.refs| && t.pool.watermark == st.pool.watermark
    ensures AllFit(cfg, t)
  {
    forall id | id in t.seqs && !IsFinished(t.seqs[id]) ensures FitsAlone(cfg, t.pool, t.seqs[id]) {
      assert Evolved(cfg, st.seqs[id], t.seqs[id]);
    }
  }

  ghost predicate SomeLive(st: Sched) {
    exists id :: id in st.seqs && !IsFinished(st.seqs[id])
  }

  lemma EvolvedLive(cfg: Config, st: Sched, t: Sched)
    requires cfg.blockSize > 0 && SomeLive(st) && AllEvolved(cfg, st.seqs, t.seqs)
    ensures SomeLive(t)
  {
    var id :| id in st.seqs && !IsFinished(st.seqs[id]);
    assert Evolved(cfg, st.seqs[id], t.seqs[id]);
  }

  /** No batch yet means a whole budget left. */
  lemma NothingSpent(cfg: Config, w: Work)
    requires WorkOk(cfg, w) && w.plan.batchSeqs == []
    ensures w.budget == cfg.maxBatched
  {
    hide Round, RowsOk, SampledOk;
  }

  lemma KeptPrefilling(w: Work, ids: seq<SeqId>)
    requires Kept(w, ids) && w.plan.batchSeqs == [] && w.budget > 0
    ensures forall id :: id in ids ==> id in w.st.seqs && NeedsPrefill(w.st.seqs[id])
  {}

  lemma LiveWaits(cfg: Config, st: Sched)
    requires Core(cfg, st) && SomeLive(st) && st.running == []
    ensures st.waiting != []
  {
    var id :| id in st.seqs && !IsFinished(st.seqs[id]);
    RunningIs(cfg, st, id);
    hide Core;
    assert id in st.waiting;
  }

  /** After the decode pass, whatever it left: the batch ends up holding something. */
  lemma PrefillsPush(cfg: Config, w: Work)
    requires WorkOk(cfg, w) && cfg.blockSize > 0 && Budgeted(cfg) && AllFit(cfg, w.st) && SomeLive(w.st) && Kept(w, w.st.running) && OnlyDecodes(w.st.seqs, w.plan)
    ensures StartLoop(cfg, ContinueLoop(cfg, w, w.st.running)).plan.batchSeqs != []
  {
    hide *;
    BudgetedIs(cfg);
    OnlyDecodesIs(w.st.seqs, w.plan);
    WorkParts(cfg, w);
    WaitingNoDup(cfg, w.st);
    ContinueLoopOk(cfg, w, w.st.running);
    ContinueLoopGrew(cfg, w, w.st.running);
    var v := ContinueLoop(cfg, w, w.st.running);
    if w.plan.batchSeqs == [] && w.st.running == [] {
      ContinueLoopUnfold(cfg, w, w.st.running);
      NothingSpent(cfg, w);
      LiveWaits(cfg, w.st);
      StartPushes(cfg, w);
    } else {
      if w.plan.batchSeqs == [] {
        NothingSpent(cfg, w);
        KeptPrefilling(w, w.st.running);
        assert w.st.running[0] in w.st.running;
      }
      StartLoopGrew(cfg, v);
      GrewNonempty(w.plan, v.plan, StartLoop(cfg, v).plan);
    }
  }

  lemma BudgetedIs(cfg: Config)
    requires Budgeted(cfg)
    ensures cfg.maxBatched > 0 && cfg.chunk > 0 && cfg.maxSeqs > 0
  {}

  lemma GrewNonempty(a: Plan, b: Plan, c: Plan)
    requires Grew(a, b) && Grew(b, c) && (a.batchSeqs != [] || b.batchSeqs != [])
    ensures c.batchSeqs != []
  {}

  /** Nothing running, something waiting: the head of the queue starts and gets a chunk. */
  lemma StartPushes(cfg: Config, w: Work)
    requires WorkOk(cfg, w) && cfg.blockSize > 0 && cfg.maxSeqs > 0 && cfg.chunk > 0 && w.budget > 0 && AllFit(cfg, w.st) && w.st.running == [] && w.st.waiting != []
    ensures StartLoop(cfg, w).plan.batchSeqs != []
  {
    hide *;
    CanTryStartIs(cfg, w);
    HeadStarts(cfg, w);
    StartOneOk(cfg, w);
    var (u, more) := StartOne(cfg, w);
    StartTurnGrew(cfg, w, u, more);
    StartLoopUnfold(cfg, w);
    if |u.st.waiting| < |w.st.waiting| {
      StartLoopGrew(cfg, u);
      GrewNonempty(w.plan, u.plan, StartLoop(cfg, u).plan);
    }
  }

  lemma DecodesEvolve(cfg: Config, st: Sched)
    requires Round(cfg, st) && cfg.blockSize > 0 && AllFit(cfg, st) && SomeLive(st)
    ensures WorkOk(cfg, AfterDecodes(cfg, st)) && AllFit(cfg, AfterDecodes(cfg, st).st) && SomeLive(AfterDecodes(cfg, st).st)
  {
    hide *;
    var w0 := Work(st, EmptyPlan, cfg.maxBatched);
    ScheduleUnfold(cfg, st);
    StartWork(cfg, st);
    ScheduleDecodesOk(cfg, w0);
    ScheduleDecodesPasses(cfg, st);
    var t := AfterDecodes(cfg, st).st;
    PassedParts(cfg, st, t);
    WatermarkKept(cfg, st);
    EvolvedFits(cfg, st, t);
    EvolvedLive(cfg, st, t);
  }

  lemma WatermarkKept(cfg: Config, st: Sched)
    requires cfg.blockSize > 0
    ensures AfterDecodes(cfg, st).st.pool.watermark == st.pool.watermark
  {
    hide DecodeLoop;
    DecodeLoopSized(cfg, Work(st.(running := []), EmptyPlan, cfg.maxBatched), st.running, []);
  }

  /** `schedule` never returns an empty plan while a sequence is unfinished, given positive budgets and sequences
      that each fit the pool alone. */
  lemma PlanNeverEmpty(cfg: Config, st: Sched)
    requires Round(cfg, st) && cfg.blockSize > 0 && Budgeted(cfg) && AllFit(cfg, st) && SomeLive(st)
    ensures Schedule(cfg, st).1.batchSeqs != []
  {
    hide *;
    ScheduleUnfold(cfg, st);
    DecodesEvolve(cfg, st);
    AfterDecodesKept(cfg, st);
    AfterDecodesFresh(cfg, st);
    PrefillsPush(cfg, AfterDecodes(cfg, st));
  }
}
