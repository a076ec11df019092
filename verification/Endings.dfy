/** Every run of the engine without new arrivals ends, whatever is forked, cancelled, stopped or reported meanwhile. */
module Endings {
  import opened Prelude
  import opened PoolModel
  import opened Sequences
  import opened SchedulerModel
  import opened CoreSteps
  import opened Rounds
  import opened Scheduling
  import opened Committing
  import opened Kv
  import opened Transparency
  import opened Forking
  import opened ForkSeeding
  import opened Runs
  import opened Sizes
  import opened Progress
  import opened Termination

  // ----------------------------------------- what falls beside the main loop

  /** Sequences may have finished or gone, and nothing else has happened to them. */
  ghost predicate Lessened(st: Sched, t: Sched) {
    t.nextId == st.nextId && Sized(st.pool, t.pool)
    && forall id :: id in t.seqs ==> id in st.seqs && (t.seqs[id] == st.seqs[id] || IsFinished(t.seqs[id]))
  }

  lemma LessenedTwice(a: Sched, b: Sched, c: Sched)
    requires Lessened(a, b) && Lessened(b, c)
    ensures Lessened(a, c)
  {}

  lemma LessenedRefl(st: Sched)
    ensures Lessened(st, st)
  {}

  lemma BesideLessens(st: Sched, t: Sched)
    requires Beside(st, t) && t.nextId == st.nextId && Sized(st.pool, t.pool) && forall id :: id in t.seqs ==> id < t.nextId
    ensures Lessened(st, t)
  {}

  lemma LessenedFits(cfg: Config, st: Sched, t: Sched)
    requires cfg.blockSize > 0 && AllFit(cfg, st) && Lessened(st, t)
    ensures AllFit(cfg, t)
  {}

  lemma LessenedDead(st: Sched, t: Sched)
    requires !SomeLive(st) && Lessened(st, t)
    ensures !SomeLive(t)
  {}

  /** No part of the measure grows. */
  ghost predicate Lighter(cfg: Config, a: Sched, b: Sched) {
    b.nextId == a.nextId
    && NoneHeavier(cfg, Generation, a.seqs, b.seqs) && NoneHeavier(cfg, Decodes, a.seqs, b.seqs) && NoneHeavier(cfg, Prefill, a.seqs, b.seqs)
  }

  lemma LessenedLighter(cfg: Config, st: Sched, t: Sched)
    requires Lessened(st, t)
    ensures Lighter(cfg, st, t)
  {
    forall id, m | id in t.seqs ensures id in st.seqs && Weight(cfg, m, t.seqs[id]) <= Weight(cfg, m, st.seqs[id]) {
      assert IsFinished(t.seqs[id]) || t.seqs[id] == st.seqs[id];
    }
    hide Weight;
  }

  lemma LighterTotals(cfg: Config, a: Sched, b: Sched, m: Measure, n: nat)
    requires Lighter(cfg, a, b)
    ensures Total(cfg, m, b.seqs, n) <= Total(cfg, m, a.seqs, n)
  {
    hide Total, Weight;
    TotalFalls(cfg, m, a.seqs, b.seqs, n);
  }

  lemma LighterRank(cfg: Config, a: Sched, b: Sched, n: nat)
    requires Lighter(cfg, a, b)
    ensures Rank(cfg, b, n) <= Rank(cfg, a, n)
  {
    LighterTotals(cfg, a, b, Generation, n);
    LighterTotals(cfg, a, b, Decodes, n);
    LighterTotals(cfg, a, b, Prefill, n);
    hide Total, Lighter;
    var w := n * cfg.maxContext + 1;
    MulMono(Total(cfg, Generation, b.seqs, n), Total(cfg, Generation, a.seqs, n), n * w + w);
    MulMono(Total(cfg, Decodes, b.seqs, n), Total(cfg, Decodes, a.seqs, n), w);
  }

  lemma LighterLess(cfg: Config, a: Sched, b: Sched, c: Sched)
    requires Less(cfg, b, a) && Lighter(cfg, b, c)
    ensures Less(cfg, c, a)
  {
    LighterTotals(cfg, b, c, Generation, a.nextId);
    LighterTotals(cfg, b, c, Decodes, a.nextId);
    LighterTotals(cfg, b, c, Prefill, a.nextId);
    hide Total, Lighter;
  }

  // ------------------------------------- a landing after some have finished

  /** What weighs in a sequence does not depend on how far it is published. */
  lemma CommittedAlike(cfg: Config, m: Measure, s: Sequence, q: nat, token: Option<u32>, t: Sequence, u: Sequence)
    requires cfg.blockSize > 0 && Committed(cfg, s, q, token, t) && Committed(cfg, s, q, token, u)
    ensures Weight(cfg, m, t) == Weight(cfg, m, u)
  {
    assert u == t.(cachedBlocks := u.cachedBlocks, blocks := u.blocks);
    hide Committed;
  }

  lemma FinishedWeighs(cfg: Config, m: Measure, s: Sequence)
    requires IsFinished(s)
    ensures Weight(cfg, m, s) == 0
  {}

  lemma CommitLighter(cfg: Config, m: Measure, t: Sched, st: Sched, plan: Plan, sampled: seq<u32>, full: map<SeqId, Sequence>, less: map<SeqId, Sequence>, id: SeqId)
    requires cfg.blockSize > 0 && Lessened(t, st) && |sampled| == |plan.sampledSeqs| && id in less
    requires CommittedAll(cfg, t.seqs, plan, sampled, full) && CommittedAll(cfg, st.seqs, plan, sampled, less)
    ensures id in full && Weight(cfg, m, less[id]) <= Weight(cfg, m, full[id])
  {
    hide Committed, Weight;
    if IsFinished(st.seqs[id]) {
      CommittedOne(cfg, st.pool, st.seqs, plan, sampled, less, id);
      FinishedWeighs(cfg, m, less[id]);
    } else if id in plan.batchSeqs {
      var i :| 0 <= i < |plan.batchSeqs| && plan.batchSeqs[i] == id;
      var q := RowLen(plan.batch, i);
      if id in plan.sampledSeqs {
        var k :| 0 <= k < |plan.sampledSeqs| && plan.sampledSeqs[k] == id;
        CommittedAlike(cfg, m, t.seqs[id], q, Some(sampled[k]), less[id], full[id]);
      } else {
        CommittedAlike(cfg, m, t.seqs[id], q, None, less[id], full[id]);
      }
    }
  }

  lemma CommitNoneHeavier(cfg: Config, m: Measure, t: Sched, st: Sched, plan: Plan, sampled: seq<u32>, full: map<SeqId, Sequence>, less: map<SeqId, Sequence>)
    requires cfg.blockSize > 0 && Lessened(t, st) && |sampled| == |plan.sampledSeqs|
    requires CommittedAll(cfg, t.seqs, plan, sampled, full) && CommittedAll(cfg, st.seqs, plan, sampled, less)
    ensures NoneHeavier(cfg, m, full, less)
  {
    hide Lessened, CommittedAll, Weight;
    forall id | id in less ensures id in full && Weight(cfg, m, less[id]) <= Weight(cfg, m, full[id]) {
      CommitLighter(cfg, m, t, st, plan, sampled, full, less, id);
    }
  }

  lemma CommitsLighter(cfg: Config, t: Sched, st: Sched, plan: Plan, sampled: seq<u32>, u: Sched, v: Sched)
    requires cfg.blockSize > 0 && Lessened(t, st) && |sampled| == |plan.sampledSeqs| && u.nextId == v.nextId
    requires CommittedAll(cfg, t.seqs, plan, sampled, u.seqs) && CommittedAll(cfg, st.seqs, plan, sampled, v.seqs)
    ensures Lighter(cfg, u, v)
  {
    hide Lessened, CommittedAll, NoneHeavier;
    CommitNoneHeavier(cfg, Generation, t, st, plan, sampled, u.seqs, v.seqs);
    CommitNoneHeavier(cfg, Decodes, t, st, plan, sampled, u.seqs, v.seqs);
    CommitNoneHeavier(cfg, Prefill, t, st, plan, sampled, u.seqs, v.seqs);
  }

  lemma LessenedNext(st: Sched, t: Sched)
    requires Lessened(st, t)
    ensures t.nextId == st.nextId && Sized(st.pool, t.pool)
  {}

  /** A step in flight: scheduled from `a`, then some of it finished, drained or cancelled. */
  ghost predicate Launched(cfg: Config, a: Sched, st: Sched, plan: Plan)
    requires cfg.blockSize > 0
  {
    Round(cfg, a) && AllFit(cfg, a) && plan == Schedule(cfg, a).1 && Lessened(Schedule(cfg, a).0, st)
  }

  lemma LaunchedParts(cfg: Config, a: Sched, st: Sched, plan: Plan)
    requires cfg.blockSize > 0 && Launched(cfg, a, st, plan)
    ensures Round(cfg, a) && AllFit(cfg, a) && plan == Schedule(cfg, a).1 && Lessened(Schedule(cfg, a).0, st)
  {
    hide Round, AllFit, Schedule, Lessened;
  }

  /** The measure falls over a whole step, whatever finished while it was in flight. */
  lemma LandingFalls(cfg: Config, a: Sched, st: Sched, plan: Plan, sampled: seq<u32>)
    requires cfg.blockSize > 0 && Budgeted(cfg) && Launched(cfg, a, st, plan) && SomeLive(a) && |sampled| == |plan.sampledSeqs|
    ensures Less(cfg, Commit(cfg, st, plan, sampled), a)
  {
    hide *;
    LaunchedParts(cfg, a, st, plan);
    var t := Schedule(cfg, a).0;
    ScheduleOk(cfg, a);
    PlannedMembers(cfg, t.seqs, plan);
    RoundFalls(cfg, a, sampled);
    OneRoundIs(cfg, a, sampled);
    LessenedNext(t, st);
    CommitIs(cfg, t, plan, sampled);
    CommitIs(cfg, st, plan, sampled);
    CommitsLighter(cfg, t, st, plan, sampled, Commit(cfg, t, plan, sampled), Commit(cfg, st, plan, sampled));
    LighterLess(cfg, a, Commit(cfg, t, plan, sampled), Commit(cfg, st, plan, sampled));
  }

  lemma LandingDead(cfg: Config, a: Sched, st: Sched, plan: Plan)
    requires cfg.blockSize > 0 && Launched(cfg, a, st, plan) && !SomeLive(a)
    ensures !SomeLive(st)
  {
    hide *;
    LaunchedParts(cfg, a, st, plan);
    SchedulePasses(cfg, a);
    PassedParts(cfg, a, Schedule(cfg, a).0);
    EvolvedDead(cfg, a, Schedule(cfg, a).0);
    LessenedDead(Schedule(cfg, a).0, st);
  }

  lemma LandingKeeps(cfg: Config, st: Sched, plan: Plan, sampled: seq<u32>)
    requires cfg.blockSize > 0 && AllFit(cfg, st) && InFlight(cfg, st, plan) && |sampled| == |plan.sampledSeqs|
    ensures AllFit(cfg, Commit(cfg, st, plan, sampled))
    ensures !SomeLive(st) ==> !SomeLive(Commit(cfg, st, plan, sampled))
  {
    hide *;
    FlightShape(cfg, st, plan);
    CommitIs(cfg, st, plan, sampled);
    CommitSized(cfg, st, plan, sampled);
    SizedIs(st.pool, Commit(cfg, st, plan, sampled).pool);
    CommittedFits(cfg, st, plan, sampled, Commit(cfg, st, plan, sampled));
    if !SomeLive(st) {
      CommittedDead(cfg, st, plan, sampled, Commit(cfg, st, plan, sampled));
    }
  }

  lemma LandingNext(cfg: Config, st: Sched, plan: Plan, sampled: seq<u32>)
    requires cfg.blockSize > 0 && InFlight(cfg, st, plan) && |sampled| == |plan.sampledSeqs|
    ensures Commit(cfg, st, plan, sampled).nextId == st.nextId
  {
    hide *;
    FlightShape(cfg, st, plan);
    CommitIs(cfg, st, plan, sampled);
  }

  lemma FlightShape(cfg: Config, st: Sched, plan: Plan)
    requires cfg.blockSize > 0 && InFlight(cfg, st, plan)
    ensures NoDup(plan.batchSeqs) && SampledAt(plan)
  {
    hide Shape, SampledAt, Flying;
  }

  lemma LaunchingKeeps(cfg: Config, st: Sched)
    requires cfg.blockSize > 0 && Round(cfg, st) && AllFit(cfg, st)
    ensures AllFit(cfg, Schedule(cfg, st).0) && Launched(cfg, st, Schedule(cfg, st).0, Schedule(cfg, st).1)
  {
    hide *;
    var t := Schedule(cfg, st).0;
    SchedulePasses(cfg, st);
    PassedParts(cfg, st, t);
    ScheduleSized(cfg, st);
    SizedIs(st.pool, t.pool);
    EvolvedFits(cfg, st, t);
    LessenedRefl(t);
    LaunchedMade(cfg, st, t, Schedule(cfg, st).1);
  }

  lemma LaunchedMade(cfg: Config, a: Sched, st: Sched, plan: Plan)
    requires cfg.blockSize > 0 && Round(cfg, a) && AllFit(cfg, a) && plan == Schedule(cfg, a).1 && Lessened(Schedule(cfg, a).0, st)
    ensures Launched(cfg, a, st, plan)
  {
    hide Round, AllFit, Schedule, Lessened;
  }

  // -------------------------------------------------- events beside the loop

  lemma {:induction false} FinishAllSized(st: Sched, ids: seq<SeqId>, reason: Reason)
    ensures Sized(st.pool, FinishAll(st, ids, reason).pool)
    decreases |ids|
  {
    if ids != [] {
      FinishSized(st, ids[0], reason);
      hide Finish;
      FinishAllSized(Finish(st, ids[0], reason), ids[1..], reason);
    }
  }

  lemma DrainNext(st: Sched)
    ensures Drain(st).nextId == st.nextId && Sized(st.pool, Drain(st).pool)
  {
    DrainKeeps(st.(finished := []), st.finished);
    DrainListFinished(st.(finished := []), st.finished);
    hide DrainList;
  }

  predicate Beyond(step: Step) {
    step.CancelRequest? || step.FinishWith? || step.DrainFinished?
  }

  lemma BeyondLessens(cfg: Config, w: World, step: Step)
    requires cfg.blockSize > 0 && WorldOk(cfg, w) && Beyond(step) && WorldOk(cfg, Take(cfg, w, step))
    ensures Lessened(w.st, Take(cfg, w, step).st) && Take(cfg, w, step).flight == w.flight
  {
    hide *;
    TakeIs(cfg, w, step);
    BeyondIs(step);
    var t := Take(cfg, w, step).st;
    WorldParts(cfg, Take(cfg, w, step));
    RoundParts(cfg, t);
    CoreParts(cfg, t);
    IdsBelow(t);
    match step
    case CancelRequest(r) =>
      FinishAllBeside(w.st, Listed(w.st.byRequest, r), Cancelled);
      FinishAllSized(w.st, Listed(w.st.byRequest, r), Cancelled);
      BesideLessens(w.st, t);
    case FinishWith(id, reason) =>
      FinishBeside(w.st, id, reason);
      FinishNext(w.st, id, reason);
      FinishSized(w.st, id, reason);
      BesideLessens(w.st, t);
    case DrainFinished =>
      DrainBeside(w.st);
      DrainNext(w.st);
      BesideLessens(w.st, t);
    case _ =>
  }

  lemma BeyondIs(step: Step)
    ensures Beyond(step) <==> step.CancelRequest? || step.FinishWith? || step.DrainFinished?
  {}

  // -------------------------------------------------------------------- forks

  /** What one choice may add to the rank: all of a context to generate, one more to decode, nothing to prefill. */
  function ForkCost(cfg: Config, n: nat): nat {
    var a := Times(n, cfg.maxContext) + 1;
    Times(cfg.maxContext, Times(n, a) + a) + a
  }

  function Clamp(n: nat, from: nat, k: nat): nat {
    if n <= from then 0 else if n - from <= k then n - from else k
  }

  /** `b` is `a` with ids `from..from + k` added, each of weight `each` at most. */
  ghost predicate Added(cfg: Config, m: Measure, a: map<SeqId, Sequence>, b: map<SeqId, Sequence>, from: nat, k: nat, each: nat) {
    (forall id :: id in a ==> id < from)
    && forall id :: id in b ==> (id in a && b[id] == a[id]) || (from <= id < from + k && Weight(cfg, m, b[id]) <= each)
  }

  lemma {:induction false} TotalAdds(cfg: Config, m: Measure, a: map<SeqId, Sequence>, b: map<SeqId, Sequence>, from: nat, k: nat, each: nat, n: nat)
    requires Added(cfg, m, a, b, from, k, each)
    ensures Total(cfg, m, b, n) <= Total(cfg, m, a, n) + Times(Clamp(n, from, k), each)
    decreases n
  {
    hide Weight;
    if n > 0 {
      TotalAdds(cfg, m, a, b, from, k, each, n - 1);
      var c := Clamp(n - 1, from, k);
      assert (c + 1) * each == c * each + each;
      if n - 1 < from || n - 1 >= from + k {
        assert Clamp(n, from, k) == c;
        assert WeightOf(cfg, m, b, n - 1) <= WeightOf(cfg, m, a, n - 1);
      } else {
        assert Clamp(n, from, k) == c + 1;
        assert WeightOf(cfg, m, b, n - 1) <= each;
      }
    } else {
      assert Clamp(0, from, k) == 0;
    }
  }

  lemma ChoiceWeighs(cfg: Config, s: Sequence, token: u32, c: Sequence)
    requires Choice(s, token, c)
    ensures Weight(cfg, Generation, c) <= cfg.maxContext && Weight(cfg, Decodes, c) <= 1 && Weight(cfg, Prefill, c) == 0
  {}

  lemma ChoicesAdd(cfg: Config, st: Sched, s: Sequence, tokens: seq<u32>, u: Sched)
    requires Choices(cfg, st, s, tokens, u) && forall id :: id in st.seqs ==> id < st.nextId
    ensures Added(cfg, Generation, st.seqs, u.seqs, st.nextId, |tokens|, cfg.maxContext)
    ensures Added(cfg, Decodes, st.seqs, u.seqs, st.nextId, |tokens|, 1)
    ensures Added(cfg, Prefill, st.seqs, u.seqs, st.nextId, |tokens|, 0)
  {
    hide Weight, Choice;
    forall id | id in u.seqs && id !in st.seqs
      ensures st.nextId <= id < st.nextId + |tokens| && Weight(cfg, Generation, u.seqs[id]) <= cfg.maxContext
      ensures Weight(cfg, Decodes, u.seqs[id]) <= 1 && Weight(cfg, Prefill, u.seqs[id]) == 0
    {
      ChoiceWeighs(cfg, s, tokens[id - st.nextId], u.seqs[id]);
    }
  }

  lemma Expand(g: nat, d: nat, p: nat, g': nat, d': nat, p': nat, k: nat, c: nat, b: nat, a: nat)
    requires g' <= g + Times(k, c) && d' <= d + k && p' <= p
    ensures Times(g', b) + Times(d', a) + p' <= Times(g, b) + Times(d, a) + p + Times(k, Times(c, b) + a)
  {
    MulMono(g', g + k * c, b);
    MulMono(d', d + k, a);
    assert (g + k * c) * b == g * b + (k * c) * b;
    assert (k * c) * b == k * (c * b);
    assert (d + k) * a == d * a + k * a;
    assert k * (c * b + a) == k * (c * b) + k * a;
  }

  lemma Whole(k: nat, each: nat, n: nat, from: nat)
    requires n >= from + k
    ensures Clamp(n, from, k) == k && Times(k, 1) == k && Times(k, 0) == 0
  {}

  /** A fork adds to the rank what its choices may cost. */
  lemma ForkRank(cfg: Config, st: Sched, s: Sequence, tokens: seq<u32>, u: Sched, n: nat)
    requires Choices(cfg, st, s, tokens, u) && (forall id :: id in st.seqs ==> id < st.nextId) && st.nextId + |tokens| <= n
    ensures Rank(cfg, u, n) <= Rank(cfg, st, n) + Times(|tokens|, ForkCost(cfg, n))
  {
    hide *;
    var k, from, a := |tokens|, st.nextId, Times(n, cfg.maxContext) + 1;
    ChoicesAdd(cfg, st, s, tokens, u);
    TotalAdds(cfg, Generation, st.seqs, u.seqs, from, k, cfg.maxContext, n);
    TotalAdds(cfg, Decodes, st.seqs, u.seqs, from, k, 1, n);
    TotalAdds(cfg, Prefill, st.seqs, u.seqs, from, k, 0, n);
    Whole(k, 1, n, from);
    RankIs(cfg, st, n);
    RankIs(cfg, u, n);
    ForkCostIs(cfg, n);
    Expand(Total(cfg, Generation, st.seqs, n), Total(cfg, Decodes, st.seqs, n), Total(cfg, Prefill, st.seqs, n),
           Total(cfg, Generation, u.seqs, n), Total(cfg, Decodes, u.seqs, n), Total(cfg, Prefill, u.seqs, n), k, cfg.maxContext, Times(n, a) + a, a);
  }

  lemma ForkCostIs(cfg: Config, n: nat)
    ensures var a := Times(n, cfg.maxContext) + 1; ForkCost(cfg, n) == Times(cfg.maxContext, Times(n, a) + a) + a
  {
    hide Times;
  }

  /** A choice is as large as its leader may grow. */
  lemma ForkFits(cfg: Config, st: Sched, parent: SeqId, tokens: seq<u32>, u: Sched)
    requires cfg.blockSize > 0 && AllFit(cfg, st) && parent in st.seqs && ForkParent(cfg, st.seqs[parent]) && Choices(cfg, st, st.seqs[parent], tokens, u)
    requires Sized(st.pool, u.pool)
    ensures AllFit(cfg, u)
  {
    var s := st.seqs[parent];
    assert FitsAlone(cfg, st.pool, s);
    forall id | id in u.seqs && !IsFinished(u.seqs[id]) ensures FitsAlone(cfg, u.pool, u.seqs[id]) {
      if id !in st.seqs {
        assert Choice(s, tokens[id - st.nextId], u.seqs[id]);
      }
    }
  }

  // -------------------------------------------------- what a fork leaves of the pool

  lemma {:induction false} IncRefAllSized(p: Pool, blocks: seq<BlockId>)
    ensures Sized(p, IncRefAll(p, blocks))
    decreases |blocks|
  {
    if blocks != [] {
      IncRefAllSized(IncRef(p, blocks[0]), blocks[1..]);
    }
  }

  lemma {:induction false} ForkLoopSized(cfg: Config, st: Sched, s: Sequence, extra: nat, out: Fork)
    requires cfg.blockSize > 0
    ensures Sized(st.pool, ForkLoop(cfg, st, s, extra, out).0.pool)
    decreases extra
  {
    if extra > 0 {
      var full := s.computed / cfg.blockSize;
      var shared := Upto(s.blocks, full);
      IncRefAllSized(st.pool, shared);
      var p1 := IncRefAll(st.pool, shared);
      AllocateSized(p1);
      hide IncRefAll, Allocate;
      var (p2, got) := if |s.blocks| > full then AllocateGuarded(p1) else (p1, None);
      assert Sized(st.pool, p2);
      if !(|s.blocks| > full && got.None?) {
        var copies := if got.Some? && full < |s.blocks| && s.computed % cfg.blockSize != 0 then out.copies + [(s.blocks[full], got.value)] else out.copies;
        var blocks := if got.Some? then shared + [got.value] else shared;
        var id := st.nextId;
        var child := AdoptPrefilled(NewSequence(s.request, Upto(s.tokens, s.promptLen), s.params, s.tenant), blocks, s.computed, s.cachedBlocks);
        var next := st.(
          pool := p2,
          nextId := id + 1,
          seqs := st.seqs[id := child],
          byRequest := st.byRequest[s.request := Listed(st.byRequest, s.request) + [id]],
          running := st.running + [id]);
        ForkLoopSized(cfg, next, s, extra - 1, Fork(out.ids + [id], copies));
      }
    }
  }

  lemma {:induction false} ExtendGuardedSized(st: Sched, id: SeqId, k: nat)
    ensures Sized(st.pool, ExtendGuarded(st, id, k).0.pool)
    decreases k
  {
    hide Allocate;
    if k > 0 && id in st.seqs && AllocateGuarded(st.pool).1.Some? {
      AllocateSized(st.pool);
      var (p, got) := AllocateGuarded(st.pool);
      var s := st.seqs[id];
      ExtendGuardedSized(st.(pool := p, seqs := st.seqs[id := s.(blocks := s.blocks + [got.value])]), id, k - 1);
    }
  }

  lemma SeedForkSized(cfg: Config, st: Sched, id: SeqId, token: u32)
    requires cfg.blockSize > 0
    ensures Sized(st.pool, SeedFork(cfg, st, id, token).0.pool)
  {
    hide ExtendGuarded;
    if id in st.seqs {
      var s := PushToken(st.seqs[id], token);
      var need, have := BlocksFor(cfg.blockSize, s.computed + 1), |s.blocks|;
      ExtendGuardedSized(st.(seqs := st.seqs[id := s]), id, if need > have then need - have else 0);
    }
  }

  lemma {:induction false} SeedAllSized(cfg: Config, st: Sched, ids: seq<SeqId>, tokens: seq<u32>)
    requires cfg.blockSize > 0
    ensures Sized(st.pool, SeedAll(cfg, st, ids, tokens).0.pool)
    decreases |ids|
  {
    hide SeedFork;
    if ids != [] && tokens != [] {
      SeedForkSized(cfg, st, ids[0], tokens[0]);
      SeedAllSized(cfg, SeedFork(cfg, st, ids[0], tokens[0]).0, ids[1..], tokens[1..]);
    }
  }

  lemma ForkStepSized(cfg: Config, st: Sched, kv: Cache, parent: SeqId, tokens: seq<u32>)
    requires cfg.blockSize > 0
    ensures Sized(st.pool, ForkStep(cfg, st, kv, parent, tokens).0.pool)
  {
    hide ForkLoop, SeedAll, CopyBlocks;
    var (t, fork, err) := ForkSeq(cfg, st, parent, |tokens|);
    if parent in st.seqs {
      ForkLoopSized(cfg, st, st.seqs[parent], |tokens|, Fork([], []));
    }
    SeedAllSized(cfg, t, fork.ids, tokens);
  }

  // ------------------------------------------------------------------ all runs

  /** A run in which nobody new arrives. */
  predicate NoArrivals(steps: seq<Step>) {
    forall i :: 0 <= i < |steps| ==> !steps[i].AdmitRequest?
  }

  /** How many choices its forks make. */
  function Forks(steps: seq<Step>): nat {
    if steps == [] then 0 else Forks(steps[1..]) + if steps[0].ForkAt? then |steps[0].tokens| else 0
  }

  /** How many steps of the engine are completed. */
  function Landings(steps: seq<Step>): nat {
    if steps == [] then 0 else Landings(steps[1..]) + if steps[0].Land? then 1 else 0
  }

  /** At most `r` more steps of the engine find anything to do. */
  ghost predicate Within(cfg: Config, w: World, n: nat, r: nat)
    requires cfg.blockSize > 0
  {
    WorldOk(cfg, w) && AllFit(cfg, w.st) && w.st.nextId <= n
    && (w.flight.None? ==> Rank(cfg, w.st, n) <= r)
    && (w.flight.Some? ==> exists a :: Launched(cfg, a, w.st, w.flight.value.plan) && Rank(cfg, a, n) <= r)
  }

  lemma WithinParts(cfg: Config, w: World, n: nat, r: nat) returns (a: Sched)
    requires cfg.blockSize > 0 && Within(cfg, w, n, r)
    ensures WorldOk(cfg, w) && AllFit(cfg, w.st) && w.st.nextId <= n
    ensures w.flight.None? ==> Rank(cfg, w.st, n) <= r
    ensures w.flight.Some? ==> Launched(cfg, a, w.st, w.flight.value.plan) && Rank(cfg, a, n) <= r
  {
    hide WorldOk, AllFit, Rank, Launched;
    a := w.st;
    if w.flight.Some? {
      a :| Launched(cfg, a, w.st, w.flight.value.plan) && Rank(cfg, a, n) <= r;
    }
  }

  lemma WithinMade(cfg: Config, w: World, n: nat, r: nat, a: Sched)
    requires cfg.blockSize > 0 && WorldOk(cfg, w) && AllFit(cfg, w.st) && w.st.nextId <= n
    requires w.flight.None? ==> Rank(cfg, w.st, n) <= r
    requires w.flight.Some? ==> Launched(cfg, a, w.st, w.flight.value.plan) && Rank(cfg, a, n) <= r
    ensures Within(cfg, w, n, r)
  {
    hide WorldOk, AllFit, Rank, Launched;
  }

  lemma LaunchedLess(cfg: Config, a: Sched, st: Sched, plan: Plan, t: Sched)
    requires cfg.blockSize > 0 && Launched(cfg, a, st, plan) && Lessened(st, t)
    ensures Launched(cfg, a, t, plan)
  {
    hide *;
    LaunchedParts(cfg, a, st, plan);
    LessenedTwice(Schedule(cfg, a).0, st, t);
    LaunchedMade(cfg, a, t, plan);
  }

  lemma BeyondWithin(cfg: Config, w: World, step: Step, n: nat, r: nat)
    requires cfg.blockSize > 0 && Within(cfg, w, n, r) && Beyond(step) && Enabled(cfg, w, step)
    ensures Within(cfg, Take(cfg, w, step), n, r)
    ensures !SomeLive(w.st) ==> !SomeLive(Take(cfg, w, step).st)
  {
    hide *;
    var a := WithinParts(cfg, w, n, r);
    TakeOk(cfg, w, step);
    BeyondLessens(cfg, w, step);
    var v := Take(cfg, w, step);
    LessenedFits(cfg, w.st, v.st);
    LessenedLighter(cfg, w.st, v.st);
    LighterRank(cfg, w.st, v.st, n);
    LessenedNext(w.st, v.st);
    if w.flight.Some? {
      LaunchedLess(cfg, a, w.st, w.flight.value.plan, v.st);
    }
    if !SomeLive(w.st) {
      LessenedDead(w.st, v.st);
    }
    WithinMade(cfg, v, n, r, a);
  }

  lemma LaunchWithin(cfg: Config, w: World, n: nat, r: nat)
    requires cfg.blockSize > 0 && Within(cfg, w, n, r) && Enabled(cfg, w, Launch)
    ensures Within(cfg, Take(cfg, w, Launch), n, r)
    ensures !SomeLive(w.st) ==> !SomeLive(Take(cfg, w, Launch).st)
  {
    hide *;
    var a := WithinParts(cfg, w, n, r);
    EnabledIs(cfg, w, Launch);
    TakeOk(cfg, w, Launch);
    LaunchIs(cfg, w);
    WorldParts(cfg, w);
    LaunchingKeeps(cfg, w.st);
    LaunchedNext(cfg, w.st, Schedule(cfg, w.st).0, Schedule(cfg, w.st).1);
    if !SomeLive(w.st) {
      LandingDead(cfg, w.st, Schedule(cfg, w.st).0, Schedule(cfg, w.st).1);
    }
    WithinMade(cfg, Take(cfg, w, Launch), n, r, w.st);
  }

  lemma LaunchedNext(cfg: Config, a: Sched, st: Sched, plan: Plan)
    requires cfg.blockSize > 0 && Launched(cfg, a, st, plan)
    ensures a.nextId == st.nextId
  {
    hide *;
    LaunchedParts(cfg, a, st, plan);
    SchedulePasses(cfg, a);
    PassedParts(cfg, a, Schedule(cfg, a).0);
    LessenedNext(Schedule(cfg, a).0, st);
  }

  /** A fork of a live leader costs what its choices may cost. */
  lemma ForkWithin(cfg: Config, w: World, parent: SeqId, tokens: seq<u32>, n: nat, r: nat)
    requires cfg.blockSize > 0 && Within(cfg, w, n, r) && Enabled(cfg, w, ForkAt(parent, tokens)) && w.st.nextId + |tokens| <= n
    ensures Within(cfg, Take(cfg, w, ForkAt(parent, tokens)), n, r + Times(|tokens|, ForkCost(cfg, n)))
    ensures SomeLive(w.st) && Take(cfg, w, ForkAt(parent, tokens)).st.nextId == w.st.nextId + |tokens|
  {
    hide *;
    var step := ForkAt(parent, tokens);
    var a := WithinParts(cfg, w, n, r);
    EnabledIs(cfg, w, step);
    TakeOk(cfg, w, step);
    TakeIs(cfg, w, step);
    WorldParts(cfg, w);
    RoundParts(cfg, w.st);
    CoreParts(cfg, w.st);
    IdsBelow(w.st);
    ForkStepOk(cfg, w.st, w.kv, parent, tokens);
    ForkStepSized(cfg, w.st, w.kv, parent, tokens);
    var (u, kv, _) := ForkStep(cfg, w.st, w.kv, parent, tokens);
    ForkFits(cfg, w.st, parent, tokens, u);
    ForkRank(cfg, w.st, w.st.seqs[parent], tokens, u, n);
    ForkedNext(cfg, w.st, w.st.seqs[parent], tokens, u);
    ParentLives(cfg, w.st, parent);
    WithinMade(cfg, Take(cfg, w, step), n, r + Times(|tokens|, ForkCost(cfg, n)), a);
  }

  lemma ForkedNext(cfg: Config, st: Sched, s: Sequence, tokens: seq<u32>, u: Sched)
    requires Choices(cfg, st, s, tokens, u)
    ensures u.nextId == st.nextId + |tokens|
  {
    hide Choice;
  }

  lemma ParentLives(cfg: Config, st: Sched, parent: SeqId)
    requires parent in st.seqs && ForkParent(cfg, st.seqs[parent])
    ensures SomeLive(st)
  {}

  /** A landing uses up one of the steps left, or nothing was left to do. */
  lemma LandWithin(cfg: Config, w: World, sampled: seq<u32>, n: nat, r: nat)
    requires cfg.blockSize > 0 && Budgeted(cfg) && Within(cfg, w, n, r) && Enabled(cfg, w, Land(sampled))
    ensures WorldOk(cfg, Take(cfg, w, Land(sampled)))
    ensures !SomeLive(Take(cfg, w, Land(sampled)).st) || (r > 0 && Within(cfg, Take(cfg, w, Land(sampled)), n, r - 1))
    ensures !SomeLive(w.st) ==> !SomeLive(Take(cfg, w, Land(sampled)).st)
  {
    hide *;
    var a := WithinParts(cfg, w, n, r);
    EnabledIs(cfg, w, Land(sampled));
    TakeOk(cfg, w, Land(sampled));
    TakeIs(cfg, w, Land(sampled));
    WorldParts(cfg, w);
    var plan, v := w.flight.value.plan, Take(cfg, w, Land(sampled));
    FlightParts(cfg, w.st, w.kv, w.flight.value);
    LandingKeeps(cfg, w.st, plan, sampled);
    LandingNext(cfg, w.st, plan, sampled);
    if SomeLive(a) {
      LandingFalls(cfg, a, w.st, plan, sampled);
      LaunchedParts(cfg, a, w.st, plan);
      LaunchedNext(cfg, a, w.st, plan);
      WorldParts(cfg, v);
      RankFalls(cfg, v.st, a, n);
      WithinMade(cfg, v, n, r - 1, a);
    } else {
      LandingDead(cfg, a, w.st, plan);
    }
  }

  lemma ArrivalsRest(cfg: Config, w: World, steps: seq<Step>)
    requires steps != [] && NoArrivals(steps)
    ensures NoArrivals(steps[1..]) && (steps[0].Launch? || steps[0].Land? || steps[0].ForkAt? || Beyond(steps[0]))
    ensures steps[0].Launch? ==> steps[0] == Launch
    ensures steps[0].Land? ==> steps[0] == Land(steps[0].sampled)
    ensures steps[0].ForkAt? ==> steps[0] == ForkAt(steps[0].parent, steps[0].tokens)
    ensures Landings(steps) == Landings(steps[1..]) + if steps[0].Land? then 1 else 0
    ensures Forks(steps) == Forks(steps[1..]) + if steps[0].ForkAt? then |steps[0].tokens| else 0
    ensures Beyond(steps[0]) ==> !steps[0].ForkAt? && !steps[0].Land?
  {}

  lemma BeyondNext(cfg: Config, w: World, step: Step)
    requires cfg.blockSize > 0 && WorldOk(cfg, w) && Beyond(step) && Enabled(cfg, w, step)
    ensures Take(cfg, w, step).st.nextId == w.st.nextId
  {
    hide *;
    TakeOk(cfg, w, step);
    BeyondLessens(cfg, w, step);
    LessenedNext(w.st, Take(cfg, w, step).st);
  }

  lemma LaunchNext(cfg: Config, w: World)
    requires cfg.blockSize > 0 && WorldOk(cfg, w)
    ensures Take(cfg, w, Launch).st.nextId == w.st.nextId
  {
    hide *;
    WorldParts(cfg, w);
    LaunchIs(cfg, w);
    SchedulePasses(cfg, w.st);
    PassedParts(cfg, w.st, Schedule(cfg, w.st).0);
  }

  lemma LandNext(cfg: Config, w: World, sampled: seq<u32>)
    requires cfg.blockSize > 0 && WorldOk(cfg, w) && Enabled(cfg, w, Land(sampled))
    ensures Take(cfg, w, Land(sampled)).st.nextId == w.st.nextId
  {
    hide *;
    EnabledIs(cfg, w, Land(sampled));
    TakeIs(cfg, w, Land(sampled));
    WorldParts(cfg, w);
    FlightParts(cfg, w.st, w.kv, w.flight.value);
    LandingNext(cfg, w.st, w.flight.value.plan, sampled);
  }

  lemma SpentIsDead(cfg: Config, w: World, n: nat)
    requires cfg.blockSize > 0 && Within(cfg, w, n, 0)
    ensures !SomeLive(w.st)
  {
    hide *;
    var a := WithinParts(cfg, w, n, 0);
    WorldParts(cfg, w);
    if w.flight.None? {
      if SomeLive(w.st) {
        LiveRanks(cfg, w.st, n);
      }
    } else {
      LaunchedParts(cfg, a, w.st, w.flight.value.plan);
      LaunchedNext(cfg, a, w.st, w.flight.value.plan);
      if SomeLive(a) {
        LiveRanks(cfg, a, n);
      }
      LandingDead(cfg, a, w.st, w.flight.value.plan);
    }
  }

  /** Work left in a run of `steps`: `r` now, and what its forks may add. */
  function Due(cfg: Config, n: nat, r: nat, forks: nat): nat {
    r + Times(forks, ForkCost(cfg, n))
  }

  lemma DueSplit(cfg: Config, n: nat, r: nat, k: nat, forks: nat)
    ensures Due(cfg, n, r, forks + k) == Due(cfg, n, r + Times(k, ForkCost(cfg, n)), forks)
  {
    var c := ForkCost(cfg, n);
    assert (forks + k) * c == forks * c + k * c;
    hide ForkCost;
  }

  lemma DueOne(cfg: Config, n: nat, r: nat, forks: nat)
    ensures r > 0 ==> Due(cfg, n, r, forks) == Due(cfg, n, r - 1, forks) + 1
    ensures Due(cfg, n, r, 0) == r && Due(cfg, n, r, forks) >= r
  {
    hide ForkCost;
  }

  lemma {:induction false} EndsWithin(cfg: Config, w: World, steps: seq<Step>, n: nat, r: nat)
    requires cfg.blockSize > 0 && Budgeted(cfg) && NoArrivals(steps) && Legal(cfg, w, steps)
    requires Within(cfg, w, n, r) && w.st.nextId + Forks(steps) <= n
    requires SomeLive(w.st) ==> Landings(steps) >= Due(cfg, n, r, Forks(steps))
    ensures !SomeLive(Play(cfg, w, steps).st)
    decreases |steps|
  {
    hide *;
    LegalParts(cfg, w, steps);
    var a := WithinParts(cfg, w, n, r);
    if steps == [] {
      LandingsNone(steps);
      DueOne(cfg, n, r, 0);
      if SomeLive(w.st) {
        SpentIsDead(cfg, w, n);
      }
    } else {
      ArrivalsRest(cfg, w, steps);
      var v, rest := Take(cfg, w, steps[0]), steps[1..];
      if steps[0].Land? {
        LandWithin(cfg, w, steps[0].sampled, n, r);
        LandNext(cfg, w, steps[0].sampled);
        DueOne(cfg, n, r, Forks(steps));
        if SomeLive(v.st) {
          EndsWithin(cfg, v, rest, n, r - 1);
        } else {
          LandedAnyway(cfg, w, steps[0].sampled, n, r);
          EndsWithin(cfg, v, rest, n, Rank(cfg, v.st, n));
        }
      } else if steps[0].Launch? {
        LaunchWithin(cfg, w, n, r);
        LaunchNext(cfg, w);
        EndsWithin(cfg, v, rest, n, r);
      } else if steps[0].ForkAt? {
        var k := |steps[0].tokens|;
        ForkWithin(cfg, w, steps[0].parent, steps[0].tokens, n, r);
        DueSplit(cfg, n, r, k, Forks(rest));
        EndsWithin(cfg, v, rest, n, r + Times(k, ForkCost(cfg, n)));
      } else {
        BeyondWithin(cfg, w, steps[0], n, r);
        BeyondNext(cfg, w, steps[0]);
        EndsWithin(cfg, v, rest, n, r);
      }
    }
  }

  lemma LandedAnyway(cfg: Config, w: World, sampled: seq<u32>, n: nat, r: nat)
    requires cfg.blockSize > 0 && Within(cfg, w, n, r) && Enabled(cfg, w, Land(sampled))
    ensures Within(cfg, Take(cfg, w, Land(sampled)), n, Rank(cfg, Take(cfg, w, Land(sampled)).st, n))
  {
    hide *;
    var a := WithinParts(cfg, w, n, r);
    EnabledIs(cfg, w, Land(sampled));
    TakeOk(cfg, w, Land(sampled));
    TakeIs(cfg, w, Land(sampled));
    WorldParts(cfg, w);
    FlightParts(cfg, w.st, w.kv, w.flight.value);
    LandingKeeps(cfg, w.st, w.flight.value.plan, sampled);
    LandingNext(cfg, w.st, w.flight.value.plan, sampled);
    var v := Take(cfg, w, Land(sampled));
    WithinMade(cfg, v, n, Rank(cfg, v.st, n), a);
  }

  lemma LandingsNone(steps: seq<Step>)
    requires steps == []
    ensures Landings(steps) == 0 && Forks(steps) == 0
  {}

  /** Every run without new arrivals ends. In an engine of `n` ids, those given out and those its forks will take, after
      `Rank` completed steps and `ForkCost` more for each choice, whatever was sampled and whoever was cancelled, stopped
      or drained before, between or during them, every sequence has finished. */
  lemma EveryRunEnds(cfg: Config, w: World, steps: seq<Step>)
    requires cfg.blockSize > 0 && Budgeted(cfg) && WorldOk(cfg, w) && AllFit(cfg, w.st) && w.flight.None?
    requires Legal(cfg, w, steps) && NoArrivals(steps)
    requires var n := w.st.nextId + Forks(steps);
      Landings(steps) >= Rank(cfg, w.st, n) + Times(Forks(steps), ForkCost(cfg, n))
    ensures var end := Play(cfg, w, steps).st;
      forall id :: id in end.seqs ==> IsFinished(end.seqs[id])
  {
    hide *;
    var n := w.st.nextId + Forks(steps);
    WithinMade(cfg, w, n, Rank(cfg, w.st, n), w.st);
    DueIs(cfg, n, Rank(cfg, w.st, n), Forks(steps));
    EndsWithin(cfg, w, steps, n, Rank(cfg, w.st, n));
    DeadIs(Play(cfg, w, steps).st);
  }

  lemma DueIs(cfg: Config, n: nat, r: nat, forks: nat)
    ensures Due(cfg, n, r, forks) == r + Times(forks, ForkCost(cfg, n))
  {}
}
