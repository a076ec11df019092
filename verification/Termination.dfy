/** Without new arrivals, every run ends: a measure falls each round. */
module Termination {
  import opened Prelude
  import opened PoolModel
  import opened Sequences
  import opened SchedulerModel
  import opened Invariants
  import opened CoreSteps
  import opened CoreStart
  import opened Rounds
  import opened Scheduling
  import opened Committing
  import opened Transparency
  import opened ForwardPass
  import opened Forking
  import opened Sizes
  import opened Progress

  // --------------------------------------------------------------- the measure

  datatype Measure = Generation | Decodes | Prefill

  /** What one sequence contributes: tokens it may still generate, whether it is decoding, tokens it still has
      to prefill. */
  function Weight(cfg: Config, m: Measure, s: Sequence): nat {
    if IsFinished(s) then 0
    else match m
      case Generation => if Limit(cfg, s) >= |s.tokens| then Limit(cfg, s) - |s.tokens| else 0
      case Decodes => if IsActive(s) && !NeedsPrefill(s) then 1 else 0
      case Prefill => RemainingPrefill(s)
  }

  function WeightOf(cfg: Config, m: Measure, seqs: map<SeqId, Sequence>, id: SeqId): nat {
    if id in seqs then Weight(cfg, m, seqs[id]) else 0
  }

  /** The sum over ids below `n`. */
  function Total(cfg: Config, m: Measure, seqs: map<SeqId, Sequence>, n: nat): nat {
    if n == 0 then 0 else Total(cfg, m, seqs, n - 1) + WeightOf(cfg, m, seqs, n - 1)
  }

  ghost predicate NoneHeavier(cfg: Config, m: Measure, a: map<SeqId, Sequence>, b: map<SeqId, Sequence>) {
    forall id :: id in b ==> id in a && Weight(cfg, m, b[id]) <= Weight(cfg, m, a[id])
  }

  lemma {:induction false} TotalFalls(cfg: Config, m: Measure, a: map<SeqId, Sequence>, b: map<SeqId, Sequence>, n: nat)
    requires NoneHeavier(cfg, m, a, b)
    ensures Total(cfg, m, b, n) <= Total(cfg, m, a, n)
    ensures (exists id: SeqId :: id < n && id in a && WeightOf(cfg, m, b, id) < Weight(cfg, m, a[id])) ==> Total(cfg, m, b, n) < Total(cfg, m, a, n)
    decreases n
  {
    hide Weight;
    if n > 0 {
      TotalFalls(cfg, m, a, b, n - 1);
      assert WeightOf(cfg, m, b, n - 1) <= WeightOf(cfg, m, a, n - 1);
    }
  }

  lemma {:induction false} TotalZero(cfg: Config, m: Measure, a: map<SeqId, Sequence>, n: nat)
    requires forall id :: id in a ==> Weight(cfg, m, a[id]) == 0
    ensures Total(cfg, m, a, n) == 0
    decreases n
  {
    hide Weight;
    if n > 0 {
      TotalZero(cfg, m, a, n - 1);
    }
  }

  lemma {:induction false} TotalPositive(cfg: Config, m: Measure, a: map<SeqId, Sequence>, n: nat, id: SeqId)
    requires id in a && id < n && Weight(cfg, m, a[id]) > 0
    ensures Total(cfg, m, a, n) > 0
    decreases n
  {
    hide Weight;
    if id < n - 1 {
      TotalPositive(cfg, m, a, n - 1, id);
    }
  }

  lemma {:induction false} TotalBound(cfg: Config, m: Measure, a: map<SeqId, Sequence>, n: nat, each: nat)
    requires forall id :: id in a ==> Weight(cfg, m, a[id]) <= each
    ensures Total(cfg, m, a, n) <= n * each
    decreases n
  {
    hide Weight;
    if n > 0 {
      TotalBound(cfg, m, a, n - 1, each);
      assert (n - 1) * each + each == n * each;
    }
  }

  // --------------------------------------------------- weights, step by step

  lemma GenerationAfterSchedule(cfg: Config, s: Sequence, t: Sequence)
    requires cfg.blockSize > 0 && Evolved(cfg, s, t)
    ensures Weight(cfg, Generation, t) == Weight(cfg, Generation, s) && IsFinished(t) == IsFinished(s)
  {}

  lemma SampledWeighs(cfg: Config, s: Sequence, q: nat, token: u32, t: Sequence)
    requires cfg.blockSize > 0 && Committed(cfg, s, q, Some(token), t) && Unfinished(cfg, s) && !IsFinished(s) && BasicOk(cfg, s)
    ensures Weight(cfg, Generation, t) < Weight(cfg, Generation, s)
  {
    LimitCovers(cfg, s);
    assert t.tokens == s.tokens + [token] && t.promptLen == s.promptLen && t.params == s.params;
  }

  lemma UnsampledWeighs(cfg: Config, s: Sequence, q: nat, t: Sequence)
    requires cfg.blockSize > 0 && Committed(cfg, s, q, None, t)
    ensures Weight(cfg, Generation, t) == Weight(cfg, Generation, s) && IsFinished(t) == IsFinished(s)
    ensures Weight(cfg, Prefill, t) <= Weight(cfg, Prefill, s)
    ensures !IsFinished(s) && NeedsPrefill(s) && q > 0 ==> Weight(cfg, Prefill, t) < Weight(cfg, Prefill, s)
    ensures !IsFinished(s) && NeedsPrefill(s) && s.target == |s.tokens| && s.computed + q < |s.tokens| ==> NeedsPrefill(t)
  {}

  // ------------------------------------------------------ somebody was sampled

  lemma GenerationEvolves(cfg: Config, a: map<SeqId, Sequence>, b: map<SeqId, Sequence>)
    requires cfg.blockSize > 0 && AllEvolved(cfg, a, b)
    ensures NoneHeavier(cfg, Generation, a, b) && NoneHeavier(cfg, Generation, b, a)
  {
    hide Weight, Evolved;
    forall id | id in a ensures Weight(cfg, Generation, b[id]) == Weight(cfg, Generation, a[id]) {
      GenerationAfterSchedule(cfg, a[id], b[id]);
    }
  }

  /** A planned member, as the commit finds it. */
  ghost predicate Member(cfg: Config, seqs: map<SeqId, Sequence>, plan: Plan, i: nat)
    requires cfg.blockSize > 0
  {
    i < |plan.batchSeqs| && plan.batchSeqs[i] in seqs
    && var s := seqs[plan.batchSeqs[i]];
       IsActive(s) && !IsFinished(s) && RowLen(plan.batch, i) > 0 && s.computed + RowLen(plan.batch, i) <= |s.tokens|
       && (plan.batchSeqs[i] in plan.sampledSeqs <==> s.computed + RowLen(plan.batch, i) == |s.tokens|)
  }

  lemma PlannedMember(cfg: Config, seqs: map<SeqId, Sequence>, plan: Plan, i: nat)
    requires cfg.blockSize > 0 && PlanOk(cfg, seqs, plan) && i < |plan.batchSeqs|
    ensures Member(cfg, seqs, plan, i)
  {
    assert RowOk(cfg, seqs[plan.batchSeqs[i]], plan.batch, i);
    RowBounds(cfg, seqs[plan.batchSeqs[i]], plan.batch, i);
  }

  ghost predicate AllMembers(cfg: Config, seqs: map<SeqId, Sequence>, plan: Plan)
    requires cfg.blockSize > 0
  {
    (forall i :: 0 <= i < |plan.batchSeqs| ==> Member(cfg, seqs, plan, i))
    && forall id :: id in plan.sampledSeqs ==> id in plan.batchSeqs
  }

  lemma PlannedMembers(cfg: Config, seqs: map<SeqId, Sequence>, plan: Plan)
    requires cfg.blockSize > 0 && PlanOk(cfg, seqs, plan)
    ensures AllMembers(cfg, seqs, plan) && NoDup(plan.batchSeqs) && SampledAt(plan)
  {
    hide Member, Shape, RowsOk, SampledIff;
    forall i | 0 <= i < |plan.batchSeqs| ensures Member(cfg, seqs, plan, i) {
      PlannedMember(cfg, seqs, plan, i);
    }
  }

  /** Generation left per sequence, through a commit. */
  lemma CommitGeneration(cfg: Config, seqs: map<SeqId, Sequence>, plan: Plan, sampled: seq<u32>, after: map<SeqId, Sequence>, id: SeqId)
    requires cfg.blockSize > 0 && AllMembers(cfg, seqs, plan) && |sampled| == |plan.sampledSeqs| && CommittedAll(cfg, seqs, plan, sampled, after)
    requires AllSteady(cfg, seqs) && (forall o :: o in seqs ==> BasicOk(cfg, seqs[o])) && id in seqs
    ensures id in after && Weight(cfg, Generation, after[id]) <= Weight(cfg, Generation, seqs[id])
    ensures id in plan.sampledSeqs ==> Weight(cfg, Generation, after[id]) < Weight(cfg, Generation, seqs[id])
    ensures id !in plan.sampledSeqs ==> Weight(cfg, Generation, after[id]) == Weight(cfg, Generation, seqs[id]) && IsFinished(after[id]) == IsFinished(seqs[id])
  {
    hide Weight, Committed, BasicOk;
    if id in plan.batchSeqs {
      var i :| 0 <= i < |plan.batchSeqs| && plan.batchSeqs[i] == id;
      assert Member(cfg, seqs, plan, i);
      var q := RowLen(plan.batch, i);
      if id in plan.sampledSeqs {
        var k :| 0 <= k < |plan.sampledSeqs| && plan.sampledSeqs[k] == id;
        assert Committed(cfg, seqs[id], q, Some(sampled[k]), after[id]);
        assert Steady(cfg, seqs[id]);
        SampledWeighs(cfg, seqs[id], q, sampled[k], after[id]);
      } else {
        UnsampledWeighs(cfg, seqs[id], q, after[id]);
      }
    }
  }

  /** When some sequence is sampled, less is left to generate. */
  lemma SampledFalls(cfg: Config, a: map<SeqId, Sequence>, seqs: map<SeqId, Sequence>, plan: Plan, sampled: seq<u32>, after: map<SeqId, Sequence>, n: nat)
    requires cfg.blockSize > 0 && AllEvolved(cfg, a, seqs) && AllMembers(cfg, seqs, plan) && |sampled| == |plan.sampledSeqs|
    requires CommittedAll(cfg, seqs, plan, sampled, after) && AllSteady(cfg, seqs) && (forall o :: o in seqs ==> BasicOk(cfg, seqs[o]))
    requires plan.sampledSeqs != [] && forall id :: id in seqs ==> id < n
    ensures Total(cfg, Generation, after, n) < Total(cfg, Generation, a, n)
  {
    GenerationEvolves(cfg, a, seqs);
    TotalFalls(cfg, Generation, a, seqs, n);
    var id := plan.sampledSeqs[0];
    assert id in plan.batchSeqs;
    var i :| 0 <= i < |plan.batchSeqs| && plan.batchSeqs[i] == id;
    assert Member(cfg, seqs, plan, i);
    assert after.Keys == seqs.Keys;
    hide AllEvolved, AllMembers, CommittedAll, AllSteady, BasicOk, Weight, Total;
    forall o | o in after ensures o in seqs && Weight(cfg, Generation, after[o]) <= Weight(cfg, Generation, seqs[o]) {
      CommitGeneration(cfg, seqs, plan, sampled, after, o);
    }
    CommitGeneration(cfg, seqs, plan, sampled, after, id);
    assert WeightOf(cfg, Generation, after, id) < Weight(cfg, Generation, seqs[id]);
    TotalFalls(cfg, Generation, seqs, after, n);
  }

  // -------------------------------------------------------- nobody was sampled

  ghost predicate AllPrefilling(seqs: map<SeqId, Sequence>) {
    forall id :: id in seqs && IsActive(seqs[id]) ==> NeedsPrefill(seqs[id])
  }

  lemma StartedPrefilling(cfg: Config, a: map<SeqId, Sequence>, id: SeqId, st: Sched, t: Sched)
    requires cfg.blockSize > 0 && st.seqs == a && StartOutcome(cfg, st, id, t, true) && AllPrefilling(a)
    ensures AllPrefilling(t.seqs)
  {}

  lemma StartTurnPrefilling(cfg: Config, w: Work, v: Work, more: bool)
    requires cfg.blockSize > 0 && StartTurn(cfg, w, v, more) && AllPrefilling(w.st.seqs)
    ensures AllPrefilling(v.st.seqs)
  {
    if more {
      var id := w.st.waiting[0];
      var t := v.st.(waiting := w.st.waiting, running := w.st.running);
      assert StartOutcome(cfg, w.st, id, t, true);
      hide StartTurn, StartOutcome;
      StartedPrefilling(cfg, w.st.seqs, id, w.st, t);
    }
  }

  lemma StartTurnLighter(cfg: Config, w: Work, v: Work, more: bool)
    requires cfg.blockSize > 0 && StartTurn(cfg, w, v, more) && IsWaiting(w.st.seqs[w.st.waiting[0]]) && BasicOk(cfg, w.st.seqs[w.st.waiting[0]])
    ensures NoneHeavier(cfg, Prefill, w.st.seqs, v.st.seqs)
  {
    if more {
      var id := w.st.waiting[0];
      var t := v.st.(waiting := w.st.waiting, running := w.st.running);
      assert StartOutcome(cfg, w.st, id, t, true);
      hide StartTurn;
      assert t.seqs == w.st.seqs[id := t.seqs[id]];
      assert Weight(cfg, Prefill, t.seqs[id]) <= Weight(cfg, Prefill, w.st.seqs[id]);
      hide StartOutcome, Weight;
    }
  }

  lemma LighterTwice(cfg: Config, m: Measure, a: map<SeqId, Sequence>, b: map<SeqId, Sequence>, c: map<SeqId, Sequence>)
    requires NoneHeavier(cfg, m, a, b) && NoneHeavier(cfg, m, b, c)
    ensures NoneHeavier(cfg, m, a, c)
  {
    hide Weight;
  }

  lemma LighterRefl(cfg: Config, m: Measure, a: map<SeqId, Sequence>)
    ensures NoneHeavier(cfg, m, a, a)
  {}

  lemma HeadFacts(cfg: Config, w: Work)
    requires WorkOk(cfg, w) && cfg.blockSize > 0 && w.st.waiting != []
    ensures w.st.waiting[0] in w.st.seqs && IsWaiting(w.st.seqs[w.st.waiting[0]]) && BasicOk(cfg, w.st.seqs[w.st.waiting[0]])
  {
    hide *;
    WorkParts(cfg, w);
    RunningIs(cfg, w.st, w.st.waiting[0]);
    CoreParts(cfg, w.st);
  }

  lemma {:induction false} StartLoopLighter(cfg: Config, w: Work)
    requires WorkOk(cfg, w) && cfg.blockSize > 0
    ensures NoneHeavier(cfg, Prefill, w.st.seqs, StartLoop(cfg, w).st.seqs)
    ensures AllPrefilling(w.st.seqs) ==> AllPrefilling(StartLoop(cfg, w).st.seqs)
    decreases |w.st.waiting|
  {
    hide *;
    StartLoopUnfold(cfg, w);
    LighterRefl(cfg, Prefill, w.st.seqs);
    if CanTryStart(cfg, w) {
      CanTryStartIs(cfg, w);
      StartOneOk(cfg, w);
      HeadFacts(cfg, w);
      var (v, more) := StartOne(cfg, w);
      StartTurnLighter(cfg, w, v, more);
      if AllPrefilling(w.st.seqs) {
        StartTurnPrefilling(cfg, w, v, more);
      }
      if more && |v.st.waiting| < |w.st.waiting| {
        StartLoopLighter(cfg, v);
        LighterTwice(cfg, Prefill, w.st.seqs, v.st.seqs, StartLoop(cfg, v).st.seqs);
      }
    }
  }

  /** A round that samples nobody leaves only prefilling sequences running, and, if that is all there was before,
      nobody has more to prefill than before. */
  lemma UnsampledSchedule(cfg: Config, st: Sched)
    requires Round(cfg, st) && cfg.blockSize > 0 && Budgeted(cfg) && Schedule(cfg, st).1.sampledSeqs == []
    ensures AllPrefilling(Schedule(cfg, st).0.seqs)
    ensures AllPrefilling(st.seqs) ==> NoneHeavier(cfg, Prefill, st.seqs, Schedule(cfg, st).0.seqs)
  {
    hide *;
    BudgetedIs(cfg);
    ScheduleUnfold(cfg, st);
    StartWork(cfg, st);
    ScheduleDecodesOk(cfg, Work(st, EmptyPlan, cfg.maxBatched));
    var w := AfterDecodes(cfg, st);
    AfterDecodesKept(cfg, st);
    AfterDecodesFresh(cfg, st);
    OnlyDecodesIs(w.st.seqs, w.plan);
    WorkParts(cfg, w);
    WaitingNoDup(cfg, w.st);
    ContinueLoopOk(cfg, w, w.st.running);
    ContinueLoopGrew(cfg, w, w.st.running);
    var v := ContinueLoop(cfg, w, w.st.running);
    StartLoopGrew(cfg, v);
    NobodySampled(w, v.plan, StartLoop(cfg, v).plan);
    NothingSpent(cfg, w);
    KeptPrefilling(w, w.st.running);
    RunningPrefill(cfg, w.st);
    StartLoopLighter(cfg, v);
    if AllPrefilling(st.seqs) {
      RoundParts(cfg, st);
      PrefillRunning(cfg, st);
      DecodesIdle(cfg, st);
    }
  }

  lemma NobodySampled(w: Work, b: Plan, c: Plan)
    requires Grew(w.plan, b) && Grew(b, c) && c.sampledSeqs == [] && Kept(w, w.st.running)
    ensures w.plan.batchSeqs == []
  {}

  lemma RunningPrefill(cfg: Config, st: Sched)
    requires Core(cfg, st) && forall id :: id in st.running ==> id in st.seqs && NeedsPrefill(st.seqs[id])
    ensures AllPrefilling(st.seqs)
  {
    hide Core;
    forall id | id in st.seqs && IsActive(st.seqs[id]) ensures NeedsPrefill(st.seqs[id]) {
      RunningIs(cfg, st, id);
    }
  }

  lemma PrefillRunning(cfg: Config, st: Sched)
    requires Core(cfg, st) && AllPrefilling(st.seqs)
    ensures forall id :: id in st.running ==> id in st.seqs && !IsFinished(st.seqs[id]) && NeedsPrefill(st.seqs[id])
  {
    hide Core;
    forall id | id in st.running ensures id in st.seqs && !IsFinished(st.seqs[id]) && NeedsPrefill(st.seqs[id]) {
      RunningIs(cfg, st, id);
    }
  }

  /** One sequence through a commit that samples nobody. */
  lemma CommitPrefill(cfg: Config, seqs: map<SeqId, Sequence>, plan: Plan, sampled: seq<u32>, after: map<SeqId, Sequence>, id: SeqId)
    requires cfg.blockSize > 0 && AllMembers(cfg, seqs, plan) && plan.sampledSeqs == [] && CommittedAll(cfg, seqs, plan, sampled, after)
    requires AllPrefilling(seqs) && AllSteady(cfg, seqs) && id in seqs
    ensures id in after && Weight(cfg, Prefill, after[id]) <= Weight(cfg, Prefill, seqs[id]) && Weight(cfg, Decodes, after[id]) == 0
    ensures id in plan.batchSeqs ==> Weight(cfg, Prefill, after[id]) < Weight(cfg, Prefill, seqs[id])
  {
    hide Committed;
    if id in plan.batchSeqs {
      var i :| 0 <= i < |plan.batchSeqs| && plan.batchSeqs[i] == id;
      assert Member(cfg, seqs, plan, i);
      assert Steady(cfg, seqs[id]) && NeedsPrefill(seqs[id]);
      UnsampledWeighs(cfg, seqs[id], RowLen(plan.batch, i), after[id]);
    }
  }

  lemma UnsampledCommit(cfg: Config, a: map<SeqId, Sequence>, seqs: map<SeqId, Sequence>, plan: Plan, sampled: seq<u32>, after: map<SeqId, Sequence>, n: nat)
    requires cfg.blockSize > 0 && AllMembers(cfg, seqs, plan) && plan.sampledSeqs == [] && CommittedAll(cfg, seqs, plan, sampled, after)
    requires AllPrefilling(seqs) && AllSteady(cfg, seqs) && plan.batchSeqs != [] && forall id :: id in seqs ==> id < n
    ensures Total(cfg, Decodes, after, n) == 0
    ensures NoneHeavier(cfg, Prefill, a, seqs) ==> Total(cfg, Prefill, after, n) < Total(cfg, Prefill, a, n)
  {
    var id := plan.batchSeqs[0];
    assert Member(cfg, seqs, plan, 0);
    assert after.Keys == seqs.Keys;
    hide AllMembers, Member, CommittedAll, AllSteady, AllPrefilling, Weight, Total;
    forall o | o in after ensures o in seqs && Weight(cfg, Prefill, after[o]) <= Weight(cfg, Prefill, seqs[o]) && Weight(cfg, Decodes, after[o]) == 0 {
      CommitPrefill(cfg, seqs, plan, sampled, after, o);
    }
    TotalZero(cfg, Decodes, after, n);
    CommitPrefill(cfg, seqs, plan, sampled, after, id);
    assert WeightOf(cfg, Prefill, after, id) < Weight(cfg, Prefill, seqs[id]);
    TotalFalls(cfg, Prefill, seqs, after, n);
    if NoneHeavier(cfg, Prefill, a, seqs) {
      TotalFalls(cfg, Prefill, a, seqs, n);
    }
  }

  lemma UnsampledGeneration(cfg: Config, a: map<SeqId, Sequence>, seqs: map<SeqId, Sequence>, plan: Plan, sampled: seq<u32>, after: map<SeqId, Sequence>, n: nat)
    requires cfg.blockSize > 0 && AllEvolved(cfg, a, seqs) && AllMembers(cfg, seqs, plan) && plan.sampledSeqs == [] && sampled == []
    requires CommittedAll(cfg, seqs, plan, sampled, after) && AllSteady(cfg, seqs) && (forall o :: o in seqs ==> BasicOk(cfg, seqs[o]))
    ensures Total(cfg, Generation, after, n) <= Total(cfg, Generation, a, n)
  {
    GenerationEvolves(cfg, a, seqs);
    TotalFalls(cfg, Generation, a, seqs, n);
    assert after.Keys == seqs.Keys;
    hide AllEvolved, AllMembers, CommittedAll, AllSteady, BasicOk, Weight, Total;
    forall o | o in after ensures o in seqs && Weight(cfg, Generation, after[o]) <= Weight(cfg, Generation, seqs[o]) {
      CommitGeneration(cfg, seqs, plan, sampled, after, o);
    }
    TotalFalls(cfg, Generation, seqs, after, n);
  }

  lemma DecodingCounts(cfg: Config, seqs: map<SeqId, Sequence>, n: nat)
    requires forall id :: id in seqs ==> id < n
    ensures AllPrefilling(seqs) || Total(cfg, Decodes, seqs, n) > 0
  {
    if !AllPrefilling(seqs) {
      var id :| id in seqs && IsActive(seqs[id]) && !NeedsPrefill(seqs[id]);
      TotalPositive(cfg, Decodes, seqs, n, id);
    }
  }

  // ----------------------------------------------------------------- one round

  /** The lexicographic order on (generation left, decoding sequences, prefill left). */
  ghost predicate Less(cfg: Config, b: Sched, a: Sched) {
    var n := a.nextId;
    var g, g' := Total(cfg, Generation, a.seqs, n), Total(cfg, Generation, b.seqs, n);
    var d, d' := Total(cfg, Decodes, a.seqs, n), Total(cfg, Decodes, b.seqs, n);
    var p, p' := Total(cfg, Prefill, a.seqs, n), Total(cfg, Prefill, b.seqs, n);
    b.nextId == a.nextId && (g' < g || (g' == g && (d' < d || (d' == d && p' < p))))
  }

  function OneRound(cfg: Config, st: Sched, sampled: seq<u32>): Sched
    requires cfg.blockSize > 0
  {
    var (t, plan) := Schedule(cfg, st);
    Commit(cfg, t, plan, sampled)
  }

  lemma LessMade(cfg: Config, b: Sched, a: Sched)
    requires b.nextId == a.nextId
    requires var n := a.nextId;
      Total(cfg, Generation, b.seqs, n) < Total(cfg, Generation, a.seqs, n)
      || (Total(cfg, Generation, b.seqs, n) <= Total(cfg, Generation, a.seqs, n)
          && (Total(cfg, Decodes, b.seqs, n) < Total(cfg, Decodes, a.seqs, n)
              || (Total(cfg, Decodes, b.seqs, n) == Total(cfg, Decodes, a.seqs, n) && Total(cfg, Prefill, b.seqs, n) < Total(cfg, Prefill, a.seqs, n))))
    ensures Less(cfg, b, a)
  {
    hide Total;
  }

  /** Each round with work left makes the measure fall. */
  lemma RoundFalls(cfg: Config, st: Sched, sampled: seq<u32>)
    requires Round(cfg, st) && cfg.blockSize > 0 && Budgeted(cfg) && AllFit(cfg, st) && SomeLive(st)
    requires |sampled| == |Schedule(cfg, st).1.sampledSeqs|
    ensures Less(cfg, OneRound(cfg, st, sampled), st)
  {
    hide *;
    var (t, plan) := Schedule(cfg, st);
    OneRoundIs(cfg, st, sampled);
    ScheduleOk(cfg, st);
    SchedulePasses(cfg, st);
    PassedParts(cfg, st, t);
    PlanNeverEmpty(cfg, st);
    RoundParts(cfg, st);
    CoreParts(cfg, st);
    RoundParts(cfg, t);
    CoreParts(cfg, t);
    IdsBelow(st);
    IdsBelow(t);
    PlannedMembers(cfg, t.seqs, plan);
    CommitIs(cfg, t, plan, sampled);
    var u := Commit(cfg, t, plan, sampled);
    if plan.sampledSeqs != [] {
      SampledFalls(cfg, st.seqs, t.seqs, plan, sampled, u.seqs, st.nextId);
    } else {
      UnsampledSchedule(cfg, st);
      UnsampledGeneration(cfg, st.seqs, t.seqs, plan, sampled, u.seqs, st.nextId);
      UnsampledCommit(cfg, st.seqs, t.seqs, plan, sampled, u.seqs, st.nextId);
      DecodingCounts(cfg, st.seqs, st.nextId);
    }
    LessMade(cfg, u, st);
  }

  lemma OneRoundIs(cfg: Config, st: Sched, sampled: seq<u32>)
    requires cfg.blockSize > 0
    ensures OneRound(cfg, st, sampled) == Commit(cfg, Schedule(cfg, st).0, Schedule(cfg, st).1, sampled)
  {}

  // ---------------------------------------------------------------- whole runs

  /** The measure as one number, in an engine of at most `n` ids. */
  function Rank(cfg: Config, st: Sched, n: nat): nat {
    var a := Times(n, cfg.maxContext) + 1;
    Times(Total(cfg, Generation, st.seqs, n), Times(n, a) + a) + Times(Total(cfg, Decodes, st.seqs, n), a) + Total(cfg, Prefill, st.seqs, n)
  }

  function Times(a: nat, b: nat): nat {
    MulMono(0, a, b);
    a * b
  }

  lemma LexDown(g: nat, d: nat, p: nat, g': nat, d': nat, p': nat, n: nat, a: nat)
    requires p < a && p' < a && d <= n && d' <= n
    requires g' < g || (g' == g && (d' < d || (d' == d && p' < p)))
    ensures Times(g', Times(n, a) + a) + Times(d', a) + p' < Times(g, Times(n, a) + a) + Times(d, a) + p
  {
    var b := n * a + a;
    MulMono(d', n, a);
    if g' < g {
      MulMono(g' + 1, g, b);
      assert (g' + 1) * b == g' * b + b;
    } else if d' < d {
      MulMono(d' + 1, d, a);
      assert (d' + 1) * a == d' * a + a;
    }
  }

  lemma Bounds(cfg: Config, st: Sched, n: nat)
    requires cfg.blockSize > 0 && AllSteady(cfg, st.seqs) && forall id :: id in st.seqs ==> BasicOk(cfg, st.seqs[id])
    ensures Total(cfg, Decodes, st.seqs, n) <= n
    ensures Total(cfg, Prefill, st.seqs, n) <= Times(n, cfg.maxContext)
  {
    forall id | id in st.seqs ensures Weight(cfg, Decodes, st.seqs[id]) <= 1 && Weight(cfg, Prefill, st.seqs[id]) <= cfg.maxContext {
      assert Steady(cfg, st.seqs[id]) && BasicOk(cfg, st.seqs[id]);
    }
    hide AllSteady, BasicOk, Weight, Total;
    TotalBound(cfg, Decodes, st.seqs, n, 1);
    TotalBound(cfg, Prefill, st.seqs, n, cfg.maxContext);
  }

  /** Ids not given out yet weigh nothing. */
  lemma {:induction false} TotalBeyond(cfg: Config, m: Measure, seqs: map<SeqId, Sequence>, from: nat, n: nat)
    requires from <= n && forall id :: id in seqs ==> id < from
    ensures Total(cfg, m, seqs, n) == Total(cfg, m, seqs, from)
    decreases n
  {
    hide Weight;
    if from < n {
      TotalBeyond(cfg, m, seqs, from, n - 1);
    }
  }

  lemma RankFalls(cfg: Config, b: Sched, a: Sched, n: nat)
    requires cfg.blockSize > 0 && Round(cfg, a) && Round(cfg, b) && Less(cfg, b, a) && a.nextId <= n
    ensures Rank(cfg, b, n) < Rank(cfg, a, n)
  {
    hide *;
    RoundParts(cfg, a);
    RoundParts(cfg, b);
    CoreParts(cfg, a);
    CoreParts(cfg, b);
    Bounds(cfg, a, n);
    Bounds(cfg, b, n);
    LessIs(cfg, b, a);
    IdsBelow(a);
    IdsBelow(b);
    forall m: Measure ensures Total(cfg, m, a.seqs, n) == Total(cfg, m, a.seqs, a.nextId) && Total(cfg, m, b.seqs, n) == Total(cfg, m, b.seqs, a.nextId) {
      TotalBeyond(cfg, m, a.seqs, a.nextId, n);
      TotalBeyond(cfg, m, b.seqs, a.nextId, n);
    }
    RankIs(cfg, a, n);
    RankIs(cfg, b, n);
    LexDown(Total(cfg, Generation, a.seqs, n), Total(cfg, Decodes, a.seqs, n), Total(cfg, Prefill, a.seqs, n),
            Total(cfg, Generation, b.seqs, n), Total(cfg, Decodes, b.seqs, n), Total(cfg, Prefill, b.seqs, n), n, Times(n, cfg.maxContext) + 1);
  }

  lemma LessIs(cfg: Config, b: Sched, a: Sched)
    requires Less(cfg, b, a)
    ensures var n := a.nextId;
      var g, g' := Total(cfg, Generation, a.seqs, n), Total(cfg, Generation, b.seqs, n);
      var d, d' := Total(cfg, Decodes, a.seqs, n), Total(cfg, Decodes, b.seqs, n);
      var p, p' := Total(cfg, Prefill, a.seqs, n), Total(cfg, Prefill, b.seqs, n);
      b.nextId == a.nextId && (g' < g || (g' == g && (d' < d || (d' == d && p' < p))))
  {
    hide Total;
  }

  lemma RankIs(cfg: Config, st: Sched, n: nat)
    ensures var a := Times(n, cfg.maxContext) + 1;
      Rank(cfg, st, n) ==
        Times(Total(cfg, Generation, st.seqs, n), Times(n, a) + a) + Times(Total(cfg, Decodes, st.seqs, n), a) + Total(cfg, Prefill, st.seqs, n)
  {
    hide Total, Times;
  }

  lemma SizedIs(p: Pool, q: Pool)
    requires Sized(p, q)
    ensures q.watermark == p.watermark && |q.refs| == |p.refs|
  {}

  lemma EvolvedDead(cfg: Config, st: Sched, t: Sched)
    requires cfg.blockSize > 0 && !SomeLive(st) && AllEvolved(cfg, st.seqs, t.seqs)
    ensures !SomeLive(t)
  {}

  lemma CommittedLimit(cfg: Config, p: Pool, s: Sequence, q: nat, token: Option<u32>, t: Sequence)
    requires cfg.blockSize > 0 && Committed(cfg, s, q, token, t)
    ensures FitsAlone(cfg, p, t) == FitsAlone(cfg, p, s) && (IsFinished(s) ==> IsFinished(t))
  {
    assert t.promptLen == s.promptLen && t.params == s.params;
  }

  lemma CommittedOne(cfg: Config, p: Pool, seqs: map<SeqId, Sequence>, plan: Plan, sampled: seq<u32>, after: map<SeqId, Sequence>, id: SeqId)
    requires cfg.blockSize > 0 && |sampled| == |plan.sampledSeqs| && CommittedAll(cfg, seqs, plan, sampled, after) && id in after
    ensures id in seqs && FitsAlone(cfg, p, after[id]) == FitsAlone(cfg, p, seqs[id]) && (IsFinished(seqs[id]) ==> IsFinished(after[id]))
  {
    hide Committed, FitsAlone, RowLen;
    if id in plan.batchSeqs {
      var i :| 0 <= i < |plan.batchSeqs| && plan.batchSeqs[i] == id;
      if id in plan.sampledSeqs {
        var k :| 0 <= k < |plan.sampledSeqs| && plan.sampledSeqs[k] == id;
        CommittedLimit(cfg, p, seqs[id], RowLen(plan.batch, i), Some(sampled[k]), after[id]);
      } else {
        CommittedLimit(cfg, p, seqs[id], RowLen(plan.batch, i), None, after[id]);
      }
    }
  }

  lemma CommittedFits(cfg: Config, t: Sched, plan: Plan, sampled: seq<u32>, u: Sched)
    requires cfg.blockSize > 0 && AllFit(cfg, t) && |sampled| == |plan.sampledSeqs| && CommittedAll(cfg, t.seqs, plan, sampled, u.seqs)
    requires |u.pool.refs| == |t.pool.refs| && u.pool.watermark == t.pool.watermark
    ensures AllFit(cfg, u)
  {
    hide CommittedAll;
    forall id | id in u.seqs && !IsFinished(u.seqs[id]) ensures FitsAlone(cfg, u.pool, u.seqs[id]) {
      CommittedOne(cfg, t.pool, t.seqs, plan, sampled, u.seqs, id);
    }
  }

  lemma CommittedDead(cfg: Config, t: Sched, plan: Plan, sampled: seq<u32>, u: Sched)
    requires cfg.blockSize > 0 && !SomeLive(t) && |sampled| == |plan.sampledSeqs| && CommittedAll(cfg, t.seqs, plan, sampled, u.seqs)
    ensures !SomeLive(u)
  {
    hide CommittedAll;
    forall id | id in u.seqs ensures IsFinished(u.seqs[id]) {
      CommittedOne(cfg, t.pool, t.seqs, plan, sampled, u.seqs, id);
    }
  }

  lemma LiveWeighs(cfg: Config, s: Sequence)
    requires cfg.blockSize > 0 && BasicOk(cfg, s) && Steady(cfg, s) && !IsFinished(s)
    ensures Weight(cfg, Generation, s) > 0
  {
    LimitCovers(cfg, s);
  }

  lemma RankPositive(cfg: Config, st: Sched, n: nat)
    requires Total(cfg, Generation, st.seqs, n) > 0
    ensures Rank(cfg, st, n) > 0
  {
    hide Total;
    var g, a := Total(cfg, Generation, st.seqs, n), n * cfg.maxContext + 1;
    MulMono(1, g, n * a + a);
  }

  lemma LiveRanks(cfg: Config, st: Sched, n: nat)
    requires Round(cfg, st) && SomeLive(st) && st.nextId <= n
    ensures Rank(cfg, st, n) > 0
  {
    var id :| id in st.seqs && !IsFinished(st.seqs[id]);
    hide *;
    RoundParts(cfg, st);
    CoreParts(cfg, st);
    IdsBelow(st);
    AllSteadyAt(cfg, st.seqs, id);
    LiveWeighs(cfg, st.seqs[id]);
    TotalPositive(cfg, Generation, st.seqs, n, id);
    RankPositive(cfg, st, n);
  }

  lemma DeadIs(st: Sched)
    requires !SomeLive(st)
    ensures forall id :: id in st.seqs ==> IsFinished(st.seqs[id])
  {}
}
