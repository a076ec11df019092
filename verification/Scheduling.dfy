/** The two passes of `schedule`, step by step. */
module Scheduling {
  import opened Prelude
  import opened Hashing
  import opened PoolModel
  import opened Sequences
  import opened SchedulerModel
  import opened Invariants
  import opened CoreSteps
  import opened CoreStart
  import opened Rounds

  /** The invariant of both passes: the round invariant, a well-formed plan over running
      sequences, and a budget that accounts for every token in it. */
  ghost predicate WorkOk(cfg: Config, w: Work) {
    Round(cfg, w.st) && PlanOk(cfg, w.st.seqs, w.plan)
    && (forall id :: id in w.plan.batchSeqs ==> id in w.st.running)
    && |w.plan.batch.tokens| + w.budget == cfg.maxBatched
  }

  lemma WorkParts(cfg: Config, w: Work)
    requires WorkOk(cfg, w)
    ensures cfg.blockSize > 0 && Core(cfg, w.st) && AllSteady(cfg, w.st.seqs) && PlanOk(cfg, w.st.seqs, w.plan)
    ensures (forall id :: id in w.plan.batchSeqs ==> id in w.st.running) && |w.plan.batch.tokens| + w.budget == cfg.maxBatched
  {
    hide PlanOk, AllSteady, PoolOk, BlocksOk, QueuesOk, RequestsOk, BasicOk, CollisionFree;
  }

  lemma WorkMade(cfg: Config, w: Work)
    requires cfg.blockSize > 0 && Core(cfg, w.st) && AllSteady(cfg, w.st.seqs) && PlanOk(cfg, w.st.seqs, w.plan)
    requires (forall id :: id in w.plan.batchSeqs ==> id in w.st.running) && |w.plan.batch.tokens| + w.budget == cfg.maxBatched
    ensures WorkOk(cfg, w)
  {
    hide PlanOk, AllSteady, Core;
  }

  lemma RunningIs(cfg: Config, st: Sched, id: SeqId)
    requires Core(cfg, st)
    ensures id in st.running <==> id in st.seqs && IsActive(st.seqs[id])
    ensures id in st.waiting <==> id in st.seqs && IsWaiting(st.seqs[id])
    ensures NoDup(st.running) && NoDup(st.waiting)
  {
    hide PoolOk, BlocksOk, RequestsOk, BasicOk, CollisionFree;
    assert QueuesOk(st);
    assert id in ActiveIds(st.seqs) <==> id in st.seqs && IsActive(st.seqs[id]);
    assert id in WaitingIds(st.seqs) <==> id in st.seqs && IsWaiting(st.seqs[id]);
  }

  lemma SteadyKept(cfg: Config, seqs: map<SeqId, Sequence>, id: SeqId, s: Sequence, after: map<SeqId, Sequence>)
    requires cfg.blockSize > 0 && AllSteady(cfg, seqs) && Steady(cfg, s) && after == seqs[id := s]
    ensures AllSteady(cfg, after)
  {
    hide Steady;
  }

  // ------------------------------------------------------------ try_extend

  ghost predicate Extended(cfg: Config, st: Sched, id: SeqId, extra: nat, t: Sched, ok: bool)
    requires cfg.blockSize > 0
  {
    id in st.seqs && id in t.seqs && t == WithBlocks(st, id, t.pool, t.seqs[id].blocks)
    && st.seqs[id].blocks <= t.seqs[id].blocks
    && (ok ==> BlocksFor(cfg.blockSize, st.seqs[id].computed + extra) <= |t.seqs[id].blocks|)
    && (!ok ==> t.pool.free == [])
    && (BlocksFor(cfg.blockSize, st.seqs[id].computed + extra) <= |st.seqs[id].blocks| ==> ok && t == st)
  }

  lemma ExtendedFrom(cfg: Config, st: Sched, id: SeqId, extra: nat)
    requires cfg.blockSize > 0 && id in st.seqs
    ensures var need, have := BlocksFor(cfg.blockSize, st.seqs[id].computed + extra), |st.seqs[id].blocks|;
      var k := if need > have then need - have else 0;
      var (t, ok) := ExtendBy(st, id, k);
      TryExtend(cfg, st, id, extra) == (t, ok) && (Grown(st, id, k, t, ok) ==> Extended(cfg, st, id, extra, t, ok))
  {}

  lemma SteadyGrown(cfg: Config, s: Sequence, blocks: seq<BlockId>)
    requires cfg.blockSize > 0 && Steady(cfg, s) && s.blocks <= blocks && !IsFinished(s)
    ensures Steady(cfg, s.(blocks := blocks))
  {}

  lemma ExtendedParts(cfg: Config, st: Sched, id: SeqId, extra: nat, t: Sched, ok: bool)
    requires cfg.blockSize > 0 && Extended(cfg, st, id, extra, t, ok)
    ensures id in st.seqs && id in t.seqs && st.seqs[id].blocks <= t.seqs[id].blocks
    ensures t.seqs[id] == st.seqs[id].(blocks := t.seqs[id].blocks) && t.seqs == st.seqs[id := t.seqs[id]]
    ensures t == st.(pool := t.pool, seqs := t.seqs)
    ensures ok ==> BlocksFor(cfg.blockSize, st.seqs[id].computed + extra) <= |t.seqs[id].blocks|
    ensures !ok ==> t.pool.free == []
    ensures BlocksFor(cfg.blockSize, st.seqs[id].computed + extra) <= |st.seqs[id].blocks| ==> ok && t == st
  {}

  lemma AllSteadyAt(cfg: Config, seqs: map<SeqId, Sequence>, id: SeqId)
    requires cfg.blockSize > 0 && AllSteady(cfg, seqs) && id in seqs
    ensures Steady(cfg, seqs[id])
  {
    hide Steady;
  }

  lemma TryExtendOk(cfg: Config, st: Sched, id: SeqId, extra: nat)
    requires Core(cfg, st) && cfg.blockSize > 0 && AllSteady(cfg, st.seqs) && id in st.seqs && IsActive(st.seqs[id]) && !IsFinished(st.seqs[id])
    ensures var (t, ok) := TryExtend(cfg, st, id, extra);
      Core(cfg, t) && AllSteady(cfg, t.seqs) && Extended(cfg, st, id, extra, t, ok)
  {
    hide *;
    var need, have := BlocksFor(cfg.blockSize, st.seqs[id].computed + extra), |st.seqs[id].blocks|;
    ExtendedFrom(cfg, st, id, extra);
    ExtendByCore(cfg, st, id, if need > have then need - have else 0);
    var (t, ok) := TryExtend(cfg, st, id, extra);
    ExtendedParts(cfg, st, id, extra, t, ok);
    AllSteadyAt(cfg, st.seqs, id);
    SteadyGrown(cfg, st.seqs[id], t.seqs[id].blocks);
    SteadyKept(cfg, st.seqs, id, t.seqs[id], t.seqs);
  }

  // --------------------------------------------------------------- decodes

  /** What one turn of the decode pass does. */
  ghost predicate Decoded(cfg: Config, w: Work, id: SeqId, v: Work, keep: bool)
    requires cfg.blockSize > 0
  {
    id in w.st.seqs && id in v.st.seqs
    && v.st == w.st.(pool := v.st.pool, seqs := w.st.seqs[id := v.st.seqs[id]], running := v.st.running, waiting := v.st.waiting)
    && v.st.running == (if keep then w.st.running else Without(w.st.running, id))
    && v.st.waiting == (if keep then w.st.waiting else [id] + w.st.waiting)
    && v.plan.started == w.plan.started
    && v.plan.preempted == (if keep then w.plan.preempted else w.plan.preempted + [id])
    && (keep <== NeedsPrefill(w.st.seqs[id]) || w.budget == 0)
    && (keep && (NeedsPrefill(w.st.seqs[id]) || w.budget == 0) ==> v == w)
    && (keep && !NeedsPrefill(w.st.seqs[id]) && w.budget > 0 ==>
          v.st.seqs[id] == w.st.seqs[id].(blocks := v.st.seqs[id].blocks)
          && v.plan.batchSeqs == w.plan.batchSeqs + [id] && v.budget == w.budget - 1
          && v.plan.sampledSeqs == w.plan.sampledSeqs + [id])
    && (!keep ==>
          v.st.seqs[id] == ResetForRecompute(w.st.seqs[id])
          && v.plan.batchSeqs == w.plan.batchSeqs && v.plan.sampledSeqs == w.plan.sampledSeqs && v.budget == w.budget)
  }

  lemma DecodeUnfold(cfg: Config, w: Work, id: SeqId)
    requires cfg.blockSize > 0 && id in w.st.seqs && !IsFinished(w.st.seqs[id])
    ensures NeedsPrefill(w.st.seqs[id]) || w.budget == 0 ==> DecodeOne(cfg, w, id) == (w, true)
    ensures !(NeedsPrefill(w.st.seqs[id]) || w.budget == 0) ==>
      var (t, ok) := TryExtend(cfg, w.st, id, 1);
      DecodeOne(cfg, w, id) ==
        if ok then (Work(t, PushSeq(cfg, t, id, 1, w.plan), w.budget - 1), true)
        else (Work(Preempt(t, id), w.plan.(preempted := w.plan.preempted + [id]), w.budget), false)
  {}

  lemma DecodedSkip(cfg: Config, w: Work, id: SeqId)
    requires cfg.blockSize > 0 && id in w.st.seqs && (NeedsPrefill(w.st.seqs[id]) || w.budget == 0)
    ensures Decoded(cfg, w, id, w, true)
  {
    assert w.st.seqs == w.st.seqs[id := w.st.seqs[id]];
  }

  lemma DecodedPush(cfg: Config, w: Work, id: SeqId, t: Sched)
    requires cfg.blockSize > 0 && Extended(cfg, w.st, id, 1, t, true) && !NeedsPrefill(w.st.seqs[id]) && w.budget > 0
    requires w.st.seqs[id].computed + 1 == |w.st.seqs[id].tokens|
    ensures Decoded(cfg, w, id, Work(t, PushSeq(cfg, t, id, 1, w.plan), w.budget - 1), true)
  {
    ExtendedParts(cfg, w.st, id, 1, t, true);
    hide Extended, WithBlocks, BlocksFor;
    PushData(cfg, t, id, 1, w.plan);
    PushIds(cfg, t, id, 1, w.plan);
    hide PushSeq;
  }

  lemma PushIds(cfg: Config, st: Sched, id: SeqId, q: nat, plan: Plan)
    requires cfg.blockSize > 0 && id in st.seqs && st.seqs[id].computed + q <= |st.seqs[id].tokens|
    ensures PushSeq(cfg, st, id, q, plan).batchSeqs == plan.batchSeqs + [id]
  {}

  lemma DecodedPreempt(cfg: Config, w: Work, id: SeqId, t: Sched)
    requires cfg.blockSize > 0 && Extended(cfg, w.st, id, 1, t, false) && !NeedsPrefill(w.st.seqs[id]) && w.budget > 0
    ensures Decoded(cfg, w, id, Work(Preempt(t, id), w.plan.(preempted := w.plan.preempted + [id]), w.budget), false)
  {
    ExtendedParts(cfg, w.st, id, 1, t, false);
    hide Extended, WithBlocks, BlocksFor;
    assert w.st.seqs[id := t.seqs[id]][id := ResetForRecompute(t.seqs[id])] == w.st.seqs[id := ResetForRecompute(t.seqs[id])];
    assert ResetForRecompute(t.seqs[id]) == ResetForRecompute(w.st.seqs[id]);
  }

  lemma PreemptSteady(cfg: Config, s: Sequence)
    requires cfg.blockSize > 0 && Steady(cfg, s) && !IsFinished(s)
    ensures Steady(cfg, ResetForRecompute(s))
  {}

  /** A plan over other sequences survives a change to `id`. */
  lemma OthersPlanned(cfg: Config, w: Work, id: SeqId, after: map<SeqId, Sequence>, s: Sequence, plan: Plan)
    requires cfg.blockSize > 0 && PlanOk(cfg, w.st.seqs, w.plan) && id !in w.plan.batchSeqs && after == w.st.seqs[id := s]
    requires plan.batch == w.plan.batch && plan.batchSeqs == w.plan.batchSeqs && plan.sampledSeqs == w.plan.sampledSeqs
    ensures PlanOk(cfg, after, plan)
  {
    hide PlanOk;
    PlanFrame(cfg, w.st.seqs, after, w.plan, plan);
  }

  lemma ActiveFacts(cfg: Config, st: Sched, id: SeqId)
    requires Core(cfg, st) && cfg.blockSize > 0 && AllSteady(cfg, st.seqs) && id in st.running
    ensures id in st.seqs && IsActive(st.seqs[id]) && !IsFinished(st.seqs[id]) && Steady(cfg, st.seqs[id])
    ensures !NeedsPrefill(st.seqs[id]) ==> st.seqs[id].computed + 1 == |st.seqs[id].tokens|
  {
    RunningIs(cfg, st, id);
    hide Core;
  }

  lemma DecodeOneOk(cfg: Config, w: Work, id: SeqId)
    requires WorkOk(cfg, w) && id in w.st.running && id !in w.plan.batchSeqs
    ensures cfg.blockSize > 0
    ensures var (v, keep) := DecodeOne(cfg, w, id);
      WorkOk(cfg, v) && Decoded(cfg, w, id, v, keep)
  {
    hide *;
    WorkParts(cfg, w);
    ActiveFacts(cfg, w.st, id);
    DecodeUnfold(cfg, w, id);
    if NeedsPrefill(w.st.seqs[id]) || w.budget == 0 {
      DecodedSkip(cfg, w, id);
    } else {
      TryExtendOk(cfg, w.st, id, 1);
      var (t, ok) := TryExtend(cfg, w.st, id, 1);
      ExtendedParts(cfg, w.st, id, 1, t, ok);
      OthersPlanned(cfg, w, id, t.seqs, t.seqs[id], w.plan);
      BlocksOnly(w.st.seqs[id], t.seqs[id]);
      if ok {
        DecodedPush(cfg, w, id, t);
        PushSeqOk(cfg, t, id, 1, w.plan);
        PushIds(cfg, t, id, 1, w.plan);
        WorkMade(cfg, Work(t, PushSeq(cfg, t, id, 1, w.plan), w.budget - 1));
      } else {
        DecodedPreempt(cfg, w, id, t);
        PreemptCore(cfg, t, id);
        PreemptIs(t, id);
        AllSteadyAt(cfg, t.seqs, id);
        PreemptSteady(cfg, t.seqs[id]);
        SteadyKept(cfg, t.seqs, id, ResetForRecompute(t.seqs[id]), Preempt(t, id).seqs);
        var plan := w.plan.(preempted := w.plan.preempted + [id]);
        OthersPlanned(cfg, Work(t, w.plan, w.budget), id, Preempt(t, id).seqs, ResetForRecompute(t.seqs[id]), plan);
        PreemptRunning(t, id, w.plan.batchSeqs);
        WorkMade(cfg, Work(Preempt(t, id), plan, w.budget));
      }
    }
  }

  lemma BlocksOnly(s: Sequence, t: Sequence)
    requires t == s.(blocks := t.blocks)
    ensures IsActive(t) == IsActive(s) && IsFinished(t) == IsFinished(s) && t.computed == s.computed && t.tokens == s.tokens
  {}

  lemma PreemptRunning(st: Sched, id: SeqId, ids: seq<SeqId>)
    requires id in st.seqs && id !in ids && forall o :: o in ids ==> o in st.running
    ensures forall o :: o in ids ==> o in Preempt(st, id).running
  {
    WithoutMembers(st.running, id);
  }

  // ------------------------------------------- the pass over taken-out ids

  function WithRunning(w: Work, ids: seq<SeqId>): Work {
    w.(st := w.st.(running := ids))
  }

  lemma {:induction false} ExtendByRunning(st: Sched, id: SeqId, k: nat, ids: seq<SeqId>)
    ensures ExtendBy(st.(running := ids), id, k) == (ExtendBy(st, id, k).0.(running := ids), ExtendBy(st, id, k).1)
    decreases k
  {
    if k > 0 && id in st.seqs && Allocate(st.pool).1.Some? {
      var (p, got) := Allocate(st.pool);
      var s := st.seqs[id];
      ExtendByRunning(st.(pool := p, seqs := st.seqs[id := s.(blocks := s.blocks + [got.value])]), id, k - 1, ids);
    }
  }

  lemma TryExtendRunning(cfg: Config, st: Sched, id: SeqId, extra: nat, ids: seq<SeqId>)
    requires cfg.blockSize > 0
    ensures TryExtend(cfg, st.(running := ids), id, extra) == (TryExtend(cfg, st, id, extra).0.(running := ids), TryExtend(cfg, st, id, extra).1)
    ensures TryExtend(cfg, st, id, extra).0.running == st.running
  {
    if id in st.seqs {
      var need, have := BlocksFor(cfg.blockSize, st.seqs[id].computed + extra), |st.seqs[id].blocks|;
      var k := if need > have then need - have else 0;
      ExtendByRunning(st, id, k, ids);
      ExtendKeepsRunning(st, id, k);
      hide ExtendBy;
    }
  }

  lemma PushSeqRunning(cfg: Config, st: Sched, id: SeqId, q: nat, plan: Plan, ids: seq<SeqId>)
    requires cfg.blockSize > 0
    ensures PushSeq(cfg, st.(running := ids), id, q, plan) == PushSeq(cfg, st, id, q, plan)
  {}

  lemma PreemptIgnoresRunning(st: Sched, id: SeqId, ids: seq<SeqId>)
    requires st.running == []
    ensures Preempt(st, id) == Preempt(st.(running := ids), id).(running := [])
  {}

  /** The decode pass never reads `running`, which the program has taken out of the scheduler. */
  lemma DecodeOneRunning(cfg: Config, w: Work, id: SeqId, ids: seq<SeqId>)
    requires cfg.blockSize > 0 && w.st.running == []
    ensures var (v, keep) := DecodeOne(cfg, WithRunning(w, ids), id);
      DecodeOne(cfg, w, id) == (WithRunning(v, []), keep)
  {
    TryExtendRunning(cfg, w.st, id, 1, ids);
    var t := TryExtend(cfg, w.st, id, 1).0;
    PushSeqRunning(cfg, t, id, 1, w.plan, ids);
    PreemptIgnoresRunning(t, id, ids);
    hide TryExtend, PushSeq, Preempt;
  }

  lemma {:induction false} ExtendKeepsRunning(st: Sched, id: SeqId, k: nat)
    ensures ExtendBy(st, id, k).0.running == st.running
    decreases k
  {
    if k > 0 && id in st.seqs && Allocate(st.pool).1.Some? {
      var (p, got) := Allocate(st.pool);
      var s := st.seqs[id];
      ExtendKeepsRunning(st.(pool := p, seqs := st.seqs[id := s.(blocks := s.blocks + [got.value])]), id, k - 1);
    }
  }

  lemma WithoutMiddle(a: seq<SeqId>, id: SeqId, b: seq<SeqId>)
    requires NoDup(a + [id] + b)
    ensures Without(a + [id] + b, id) == a + b && id !in a && id !in b
  {
    assert a + [id] + b == a + ([id] + b);
    NoDupSplit(a, [id] + b);
    assert id in [id] + b;
    NoDupSplit([id], b);
    assert id in [id];
    WithoutConcat(a, [id] + b, id);
    WithoutConcat([id], b, id);
    WithoutAbsent(a, id);
    WithoutAbsent(b, id);
    assert Without([id], id) == [];
  }

  /** One turn seen through the list the program iterates over. */
  lemma DecodeTurn(cfg: Config, w: Work, ids: seq<SeqId>, survivors: seq<SeqId>)
    requires ids != [] && w.st.running == [] && WorkOk(cfg, WithRunning(w, survivors + ids))
    requires forall id :: id in w.plan.batchSeqs ==> id in survivors
    ensures cfg.blockSize > 0
    ensures var (v, keep) := DecodeOne(cfg, w, ids[0]);
      var next := if keep then survivors + [ids[0]] else survivors;
      v.st.running == [] && WorkOk(cfg, WithRunning(v, next + ids[1..]))
      && (forall id :: id in v.plan.batchSeqs ==> id in next)
      && Decoded(cfg, WithRunning(w, survivors + ids), ids[0], WithRunning(v, next + ids[1..]), keep)
  {
    var id, rest, full := ids[0], ids[1..], WithRunning(w, survivors + ids);
    assert survivors + ids == survivors + [id] + rest;
    assert full.st.running == survivors + ids && full.plan == w.plan;
    hide *;
    WorkParts(cfg, full);
    RunningIs(cfg, full.st, id);
    WithoutMiddle(survivors, id, rest);
    assert id in survivors + ids;
    DecodeOneOk(cfg, full, id);
    DecodeOneRunning(cfg, w, id, survivors + ids);
    var (v, keep) := DecodeOne(cfg, full, id);
    TurnOutcome(cfg, full, id, v, keep, survivors, rest);
  }

  lemma TurnOutcome(cfg: Config, full: Work, id: SeqId, v: Work, keep: bool, survivors: seq<SeqId>, rest: seq<SeqId>)
    requires cfg.blockSize > 0 && Decoded(cfg, full, id, v, keep) && full.st.running == survivors + [id] + rest
    requires Without(survivors + [id] + rest, id) == survivors + rest
    requires forall o :: o in full.plan.batchSeqs ==> o in survivors
    ensures var next := if keep then survivors + [id] else survivors;
      WithRunning(WithRunning(v, []), next + rest) == v && WithRunning(v, []).st.running == []
      && WithRunning(v, []).plan == v.plan
      && forall o :: o in v.plan.batchSeqs ==> o in next
  {}

  lemma {:induction false} DecodeLoopOk(cfg: Config, w: Work, ids: seq<SeqId>, survivors: seq<SeqId>)
    requires w.st.running == [] && WorkOk(cfg, WithRunning(w, survivors + ids)) && cfg.blockSize > 0
    requires forall id :: id in w.plan.batchSeqs ==> id in survivors
    ensures var (v, out) := DecodeLoop(cfg, w, ids, survivors);
      WorkOk(cfg, WithRunning(v, out))
    decreases |ids|
  {
    hide WorkOk, DecodeOne, Decoded;
    if ids == [] {
      assert survivors + ids == survivors;
    } else {
      DecodeTurn(cfg, w, ids, survivors);
      var (v, keep) := DecodeOne(cfg, w, ids[0]);
      DecodeLoopOk(cfg, v, ids[1..], if keep then survivors + [ids[0]] else survivors);
    }
  }

  lemma ScheduleDecodesOk(cfg: Config, w: Work)
    requires WorkOk(cfg, w) && w.plan.batchSeqs == [] && cfg.blockSize > 0
    ensures WorkOk(cfg, ScheduleDecodes(cfg, w))
  {
    hide WorkOk, DecodeLoop;
    var taken := WithRunning(w, []);
    assert WithRunning(taken, [] + w.st.running) == w;
    DecodeLoopOk(cfg, taken, w.st.running, []);
  }

  // -------------------------------------------------------------- prefills

  /** What one prefill chunk does: it never needs a block it does not have, so it never preempts. */
  ghost predicate Chunked(cfg: Config, w: Work, id: SeqId, v: Work)
  {
    id in w.st.seqs && v.st == w.st && v.plan.started == w.plan.started && v.plan.preempted == w.plan.preempted
    && var q := Min(Min(RemainingPrefill(w.st.seqs[id]), cfg.chunk), w.budget);
       v.budget == w.budget - q
       && v.plan.batchSeqs == (if q == 0 then w.plan.batchSeqs else w.plan.batchSeqs + [id])
       && v.plan.sampledSeqs == (if q > 0 && w.st.seqs[id].computed + q == |w.st.seqs[id].tokens| then w.plan.sampledSeqs + [id] else w.plan.sampledSeqs)
  }

  lemma ChunkUnfold(cfg: Config, w: Work, id: SeqId)
    requires cfg.blockSize > 0 && id in w.st.seqs
    ensures var q := Min(Min(RemainingPrefill(w.st.seqs[id]), cfg.chunk), w.budget);
      (q == 0 ==> PrefillChunk(cfg, w, id) == w)
      && (q > 0 && TryExtend(cfg, w.st, id, q) == (w.st, true) ==>
            PrefillChunk(cfg, w, id) == Work(w.st, PushSeq(cfg, w.st, id, q, w.plan), w.budget - q))
  {}

  lemma ChunkFits(cfg: Config, s: Sequence, q: nat)
    requires cfg.blockSize > 0 && Steady(cfg, s) && IsActive(s) && q <= RemainingPrefill(s) && q > 0
    ensures BlocksFor(cfg.blockSize, s.computed + q) <= |s.blocks| && s.computed + q <= |s.tokens|
  {
    BlocksForMono(cfg.blockSize, s.computed + q, s.target + 1);
  }

  lemma StartedChunkFits(cfg: Config, w: Work, id: SeqId)
    requires WorkOk(cfg, w) && id in w.st.running && id !in w.plan.batchSeqs && cfg.blockSize > 0
    ensures WorkOk(cfg, PrefillChunk(cfg, w, id)) && Chunked(cfg, w, id, PrefillChunk(cfg, w, id))
  {
    hide *;
    WorkParts(cfg, w);
    ActiveFacts(cfg, w.st, id);
    ChunkUnfold(cfg, w, id);
    var s := w.st.seqs[id];
    var q := Min(Min(RemainingPrefill(s), cfg.chunk), w.budget);
    MinIs(RemainingPrefill(s), cfg.chunk, w.budget);
    if q > 0 {
      ChunkFits(cfg, s, q);
      TryExtendOk(cfg, w.st, id, q);
      ExtendedParts(cfg, w.st, id, q, TryExtend(cfg, w.st, id, q).0, TryExtend(cfg, w.st, id, q).1);
      var v := Work(w.st, PushSeq(cfg, w.st, id, q, w.plan), w.budget - q);
      PushSeqOk(cfg, w.st, id, q, w.plan);
      PushIds(cfg, w.st, id, q, w.plan);
      WorkMade(cfg, v);
      ChunkedPush(cfg, w, id, q);
    } else {
      ChunkedNothing(cfg, w, id);
    }
  }

  lemma MinIs(a: nat, b: nat, c: nat)
    ensures Min(Min(a, b), c) <= a && Min(Min(a, b), c) <= b && Min(Min(a, b), c) <= c
    ensures a > 0 && b > 0 && c > 0 ==> Min(Min(a, b), c) > 0
  {}

  lemma ChunkedNothing(cfg: Config, w: Work, id: SeqId)
    requires id in w.st.seqs && Min(Min(RemainingPrefill(w.st.seqs[id]), cfg.chunk), w.budget) == 0
    ensures Chunked(cfg, w, id, w)
  {}

  lemma ChunkedPush(cfg: Config, w: Work, id: SeqId, q: nat)
    requires cfg.blockSize > 0 && id in w.st.seqs && q == Min(Min(RemainingPrefill(w.st.seqs[id]), cfg.chunk), w.budget) && q > 0
    requires w.st.seqs[id].computed + q <= |w.st.seqs[id].tokens|
    ensures Chunked(cfg, w, id, Work(w.st, PushSeq(cfg, w.st, id, q, w.plan), w.budget - q))
  {
    PushData(cfg, w.st, id, q, w.plan);
    PushIds(cfg, w.st, id, q, w.plan);
    hide PushSeq;
  }

  /** The pass over running sequences still prefilling, given the ids left to look at. */
  lemma {:induction false} ContinueLoopOk(cfg: Config, w: Work, ids: seq<SeqId>)
    requires WorkOk(cfg, w) && cfg.blockSize > 0 && NoDup(ids)
    requires forall id :: id in ids ==> id in w.st.running
    requires forall id :: id in ids && id in w.st.seqs && NeedsPrefill(w.st.seqs[id]) ==> id !in w.plan.batchSeqs
    ensures WorkOk(cfg, ContinueLoop(cfg, w, ids)) && ContinueLoop(cfg, w, ids).st == w.st
    ensures ContinueLoop(cfg, w, ids).plan.preempted == w.plan.preempted && ContinueLoop(cfg, w, ids).plan.started == w.plan.started
    decreases |ids|
  {
    hide WorkOk, PrefillChunk;
    if ids != [] && w.budget > 0 {
      var id, rest := ids[0], ids[1..];
      assert id in ids && forall o :: o in rest ==> o in ids;
      NoDupTail(ids);
      if id !in w.st.seqs || !NeedsPrefill(w.st.seqs[id]) || IsFinished(w.st.seqs[id]) {
        ContinueLoopOk(cfg, w, rest);
      } else {
        StartedChunkFits(cfg, w, id);
        ContinueLoopOk(cfg, PrefillChunk(cfg, w, id), rest);
      }
    }
  }

  // ---------------------------------------------------------------- starts

  predicate CanTryStart(cfg: Config, w: Work) {
    w.budget > 0 && |w.st.running| < cfg.maxSeqs && w.st.waiting != []
  }

  /** One turn of the start loop; the flag says whether it goes on. */
  function StartOne(cfg: Config, w: Work): (Work, bool)
    requires cfg.blockSize > 0 && w.st.waiting != []
  {
    var id := w.st.waiting[0];
    var popped := w.st.(waiting := w.st.waiting[1..]);
    if id !in popped.seqs || IsFinished(popped.seqs[id]) then (w.(st := popped), true)
    else
      var (t, ok) := TryStart(cfg, popped, id);
      if !ok then (w.(st := t.(waiting := [id] + t.waiting)), false)
      else
        var cached := if id in t.seqs then t.seqs[id].cachedTokens else 0;
        var v := PrefillChunk(cfg, Work(t.(running := t.running + [id]), w.plan.(started := w.plan.started + [(id, cached)]), w.budget), id);
        (v, |v.st.waiting| < |w.st.waiting|)
  }

  lemma StartLoopUnfold(cfg: Config, w: Work)
    requires cfg.blockSize > 0
    ensures !CanTryStart(cfg, w) ==> StartLoop(cfg, w) == w
    ensures CanTryStart(cfg, w) ==>
      var (v, more) := StartOne(cfg, w);
      StartLoop(cfg, w) == (if more && |v.st.waiting| < |w.st.waiting| then StartLoop(cfg, v) else v)
  {}

  /** `try_start` does not look at the queues. */
  lemma TryStartWaiting(cfg: Config, st: Sched, id: SeqId, ids: seq<SeqId>)
    requires cfg.blockSize > 0
    ensures TryStart(cfg, st.(waiting := ids), id) == (TryStart(cfg, st, id).0.(waiting := ids), TryStart(cfg, st, id).1)
  {}

  /** What one turn of the start loop does, `id` being the head of the queue. */
  ghost predicate StartTurn(cfg: Config, w: Work, v: Work, more: bool)
    requires cfg.blockSize > 0
  {
    w.st.waiting != []
    && var id := w.st.waiting[0];
       id in w.st.seqs && id in v.st.seqs
       && v.plan.preempted == w.plan.preempted
       && (!more ==> v.st == w.st.(pool := v.st.pool) && v.plan == w.plan && v.budget == w.budget)
       && (more ==>
             StartOutcome(cfg, w.st, id, v.st.(waiting := w.st.waiting, running := w.st.running), true)
             && v.st.waiting == w.st.waiting[1..] && v.st.running == w.st.running + [id]
             && v.plan.started == w.plan.started + [(id, v.st.seqs[id].computed)]
             && Chunked(cfg, Work(v.st, w.plan.(started := v.plan.started), w.budget), id, v))
  }

  lemma StartedSteady(cfg: Config, s: Sequence, n: Sequence)
    requires cfg.blockSize > 0 && Steady(cfg, s) && IsWaiting(s)
    requires n == s.(blocks := n.blocks, cachedBlocks := n.cachedBlocks, cachedTokens := n.computed, computed := n.computed, status := Prefilling)
    requires n.computed == n.cachedBlocks * cfg.blockSize < n.target && |n.blocks| == BlocksFor(cfg.blockSize, n.target + 1)
    ensures Steady(cfg, n)
  {
    MatchedWithin(cfg.blockSize, n.cachedBlocks, n.target);
  }

  lemma WithoutHead(s: seq<SeqId>)
    requires NoDup(s) && s != []
    ensures Without(s, s[0]) == s[1..]
  {
    NoDupTail(s);
    WithoutAbsent(s[1..], s[0]);
  }

  /** The sequence started, before its first chunk. */
  function JustStarted(cfg: Config, w: Work): Work
    requires cfg.blockSize > 0 && w.st.waiting != []
  {
    var id := w.st.waiting[0];
    var t := TryStart(cfg, w.st, id).0;
    var u := AfterStart(w.st, id, t, true);
    Work(u, w.plan.(started := w.plan.started + [(id, if id in u.seqs then u.seqs[id].cachedTokens else 0)]), w.budget)
  }

  lemma StartOneUnfold(cfg: Config, w: Work)
    requires cfg.blockSize > 0 && w.st.waiting != [] && Without(w.st.waiting, w.st.waiting[0]) == w.st.waiting[1..]
    requires w.st.waiting[0] in w.st.seqs && !IsFinished(w.st.seqs[w.st.waiting[0]])
    requires var t := TryStart(cfg, w.st, w.st.waiting[0]).0;
      t == w.st.(pool := t.pool, seqs := t.seqs)
    ensures var (t, ok) := TryStart(cfg, w.st, w.st.waiting[0]);
      (!ok ==> StartOne(cfg, w) == (w.(st := t), false))
      && (ok ==> var v := PrefillChunk(cfg, JustStarted(cfg, w), w.st.waiting[0]);
            StartOne(cfg, w) == (v, |v.st.waiting| < |w.st.waiting|))
  {
    var id := w.st.waiting[0];
    TryStartWaiting(cfg, w.st, id, w.st.waiting[1..]);
    hide TryStart, PrefillChunk;
    assert [id] + w.st.waiting[1..] == w.st.waiting;
  }

  lemma OutcomeShape(cfg: Config, st: Sched, id: SeqId, t: Sched, ok: bool)
    requires cfg.blockSize > 0 && StartOutcome(cfg, st, id, t, ok)
    ensures t == st.(pool := t.pool, seqs := t.seqs) && (!ok ==> t.seqs == st.seqs)
    ensures id in st.seqs && id in t.seqs && t.seqs == st.seqs[id := t.seqs[id]]
  {}

  lemma JustStartedIs(cfg: Config, w: Work, t: Sched)
    requires cfg.blockSize > 0 && w.st.waiting != [] && TryStart(cfg, w.st, w.st.waiting[0]) == (t, true)
    requires Without(w.st.waiting, w.st.waiting[0]) == w.st.waiting[1..]
    requires StartOutcome(cfg, w.st, w.st.waiting[0], t, true)
    ensures var id, u := w.st.waiting[0], JustStarted(cfg, w);
      u.st == AfterStart(w.st, id, t, true) && u.st.seqs == t.seqs && id in u.st.seqs && u.budget == w.budget
      && u.plan == w.plan.(started := w.plan.started + [(id, t.seqs[id].computed)])
      && u.st.waiting == w.st.waiting[1..] && u.st.running == w.st.running + [id]
      && u.st.(waiting := w.st.waiting, running := w.st.running) == t
  {
    hide TryStart;
  }

  lemma JustStartedOk(cfg: Config, w: Work)
    requires WorkOk(cfg, w) && cfg.blockSize > 0 && w.st.waiting != []
    requires TryStart(cfg, w.st, w.st.waiting[0]).1 && Without(w.st.waiting, w.st.waiting[0]) == w.st.waiting[1..]
    requires w.st.waiting[0] in w.st.seqs && IsWaiting(w.st.seqs[w.st.waiting[0]])
    ensures WorkOk(cfg, JustStarted(cfg, w)) && w.st.waiting[0] !in w.plan.batchSeqs
  {
    hide *;
    WorkParts(cfg, w);
    var id := w.st.waiting[0];
    var (t, ok) := TryStart(cfg, w.st, id);
    TryStartCore(cfg, w.st, id);
    OutcomeParts(cfg, w.st, id, t);
    OutcomeShape(cfg, w.st, id, t, true);
    JustStartedIs(cfg, w, t);
    var u := JustStarted(cfg, w);
    AllSteadyAt(cfg, w.st.seqs, id);
    StartedSteady(cfg, w.st.seqs[id], t.seqs[id]);
    SteadyKept(cfg, w.st.seqs, id, t.seqs[id], u.st.seqs);
    RunningIs(cfg, w.st, id);
    NotBoth(w.st.seqs[id]);
    OthersPlanned(cfg, w, id, u.st.seqs, t.seqs[id], u.plan);
    WorkMade(cfg, u);
  }

  lemma NotBoth(s: Sequence)
    ensures IsWaiting(s) ==> !IsActive(s) && !IsFinished(s)
  {}

  lemma StartOneOk(cfg: Config, w: Work)
    requires WorkOk(cfg, w) && CanTryStart(cfg, w) && cfg.blockSize > 0 && w.st.waiting != []
    ensures var (v, more) := StartOne(cfg, w);
      WorkOk(cfg, v) && StartTurn(cfg, w, v, more)
  {
    hide *;
    WorkParts(cfg, w);
    var id := w.st.waiting[0];
    RunningIs(cfg, w.st, id);
    NotBoth(w.st.seqs[id]);
    WithoutHead(w.st.waiting);
    var (t, ok) := TryStart(cfg, w.st, id);
    TryStartCore(cfg, w.st, id);
    OutcomeShape(cfg, w.st, id, t, ok);
    StartOneUnfold(cfg, w);
    if ok {
      JustStartedOk(cfg, w);
      JustStartedIs(cfg, w, t);
      var u := JustStarted(cfg, w);
      assert id in u.st.running;
      StartedChunkFits(cfg, u, id);
      ChunkedKeeps(cfg, u, id, PrefillChunk(cfg, u, id));
      StartTurnMade(cfg, w, u, PrefillChunk(cfg, u, id));
    } else {
      AfterFailed(w.st, id, t);
      WorkMade(cfg, w.(st := t));
      StartTurnFailed(cfg, w, t);
    }
  }

  lemma ChunkedKeeps(cfg: Config, w: Work, id: SeqId, v: Work)
    requires Chunked(cfg, w, id, v)
    ensures v.st == w.st
  {}

  lemma AfterFailed(st: Sched, id: SeqId, t: Sched)
    requires t == st.(pool := t.pool, seqs := t.seqs)
    ensures AfterStart(st, id, t, false) == t
  {}

  lemma StartTurnFailed(cfg: Config, w: Work, t: Sched)
    requires cfg.blockSize > 0 && w.st.waiting != [] && w.st.waiting[0] in w.st.seqs && t == w.st.(pool := t.pool, seqs := t.seqs) && t.seqs == w.st.seqs
    ensures StartTurn(cfg, w, w.(st := t), false)
  {}

  lemma StartTurnMade(cfg: Config, w: Work, u: Work, v: Work)
    requires cfg.blockSize > 0 && w.st.waiting != [] && w.st.waiting[0] in w.st.seqs && w.st.waiting[0] in u.st.seqs && v.st == u.st && u.budget == w.budget
    requires var id := w.st.waiting[0];
      StartOutcome(cfg, w.st, id, u.st.(waiting := w.st.waiting, running := w.st.running), true)
      && u.st.waiting == w.st.waiting[1..] && u.st.running == w.st.running + [id]
      && u.plan == w.plan.(started := w.plan.started + [(id, u.st.seqs[id].computed)])
      && Chunked(cfg, u, id, v)
    ensures StartTurn(cfg, w, v, true)
  {
    hide StartOutcome;
    assert Work(v.st, w.plan.(started := v.plan.started), w.budget) == u;
  }

  lemma {:induction false} StartLoopOk(cfg: Config, w: Work)
    requires WorkOk(cfg, w) && cfg.blockSize > 0
    ensures WorkOk(cfg, StartLoop(cfg, w))
    decreases |w.st.waiting|
  {
    hide *;
    StartLoopUnfold(cfg, w);
    if CanTryStart(cfg, w) {
      CanTryStartIs(cfg, w);
      StartOneOk(cfg, w);
      var (v, more) := StartOne(cfg, w);
      if more && |v.st.waiting| < |w.st.waiting| {
        StartLoopOk(cfg, v);
      }
    }
  }

  lemma CanTryStartIs(cfg: Config, w: Work)
    ensures CanTryStart(cfg, w) <==> w.budget > 0 && |w.st.running| < cfg.maxSeqs && w.st.waiting != []
  {}

  // ------------------------------------------------------------- schedule

  function AfterDecodes(cfg: Config, st: Sched): Work
    requires cfg.blockSize > 0
  {
    ScheduleDecodes(cfg, Work(st, EmptyPlan, cfg.maxBatched))
  }

  /** Every sequence in the batch is past its prefill. */
  ghost predicate OnlyDecodes(seqs: map<SeqId, Sequence>, plan: Plan) {
    forall id :: id in plan.batchSeqs && id in seqs ==> !NeedsPrefill(seqs[id])
  }

  lemma DecodeLoopUnfold(cfg: Config, w: Work, ids: seq<SeqId>, survivors: seq<SeqId>)
    requires cfg.blockSize > 0
    ensures ids == [] ==> DecodeLoop(cfg, w, ids, survivors) == (w, survivors)
    ensures ids != [] ==>
      var (v, keep) := DecodeOne(cfg, w, ids[0]);
      DecodeLoop(cfg, w, ids, survivors) == DecodeLoop(cfg, v, ids[1..], if keep then survivors + [ids[0]] else survivors)
  {}

  lemma WithRunningIs(w: Work, ids: seq<SeqId>)
    ensures WithRunning(w, ids).st.seqs == w.st.seqs && WithRunning(w, ids).plan == w.plan && WithRunning(w, ids).st.running == ids
    ensures WithRunning(w, ids).st.waiting == w.st.waiting && WithRunning(w, ids).budget == w.budget
  {}

  /** Only decoding sequences are in the batch when the prefill pass begins. */
  lemma {:induction false} DecodesOnly(cfg: Config, w: Work, ids: seq<SeqId>, survivors: seq<SeqId>)
    requires w.st.running == [] && WorkOk(cfg, WithRunning(w, survivors + ids)) && cfg.blockSize > 0
    requires (forall id :: id in w.plan.batchSeqs ==> id in survivors) && OnlyDecodes(w.st.seqs, w.plan)
    ensures var v := DecodeLoop(cfg, w, ids, survivors).0;
      OnlyDecodes(v.st.seqs, v.plan)
    decreases |ids|
  {
    hide *;
    DecodeLoopUnfold(cfg, w, ids, survivors);
    if ids != [] {
      DecodeTurn(cfg, w, ids, survivors);
      var (v, keep) := DecodeOne(cfg, w, ids[0]);
      var next := if keep then survivors + [ids[0]] else survivors;
      WithRunningIs(w, survivors + ids);
      WithRunningIs(v, next + ids[1..]);
      DecodeTurnFresh(cfg, WithRunning(w, survivors + ids), ids[0], WithRunning(v, next + ids[1..]), keep);
      DecodesOnly(cfg, v, ids[1..], next);
    }
  }

  lemma DecodeTurnFresh(cfg: Config, w: Work, id: SeqId, v: Work, keep: bool)
    requires cfg.blockSize > 0 && Decoded(cfg, w, id, v, keep) && OnlyDecodes(w.st.seqs, w.plan)
    requires WorkOk(cfg, w) && WorkOk(cfg, v)
    ensures OnlyDecodes(v.st.seqs, v.plan)
  {
    WorkParts(cfg, v);
    WithoutMembers(w.st.running, id);
    hide *;
    forall o | o in v.plan.batchSeqs && o in v.st.seqs ensures !NeedsPrefill(v.st.seqs[o]) {
      RunningIs(cfg, v.st, o);
      DecodedStays(cfg, w, id, v, keep, o);
    }
    OnlyDecodesMade(v.st.seqs, v.plan);
  }

  lemma DecodedStays(cfg: Config, w: Work, id: SeqId, v: Work, keep: bool, o: SeqId)
    requires cfg.blockSize > 0 && Decoded(cfg, w, id, v, keep) && OnlyDecodes(w.st.seqs, w.plan)
    requires o in v.plan.batchSeqs && o in v.st.seqs && o in v.st.running && forall x :: x in Without(w.st.running, id) <==> x in w.st.running && x != id
    ensures !NeedsPrefill(v.st.seqs[o])
  {
    hide Without;
  }

  lemma OnlyDecodesMade(seqs: map<SeqId, Sequence>, plan: Plan)
    requires forall id :: id in plan.batchSeqs && id in seqs ==> !NeedsPrefill(seqs[id])
    ensures OnlyDecodes(seqs, plan)
  {}

  lemma ScheduleOk(cfg: Config, st: Sched)
    requires Round(cfg, st) && cfg.blockSize > 0
    ensures var (t, plan) := Schedule(cfg, st);
      Round(cfg, t) && PlanOk(cfg, t.seqs, plan)
      && (forall id :: id in plan.batchSeqs ==> id in t.running)
      && |plan.batch.tokens| <= cfg.maxBatched
  {
    var w0 := Work(st, EmptyPlan, cfg.maxBatched);
    ScheduleUnfold(cfg, st);
    hide *;
    StartWork(cfg, st);
    ScheduleDecodesOk(cfg, w0);
    var w1 := AfterDecodes(cfg, st);
    AfterDecodesFresh(cfg, st);
    OnlyDecodesIs(w1.st.seqs, w1.plan);
    WorkParts(cfg, w1);
    WaitingNoDup(cfg, w1.st);
    ContinueLoopOk(cfg, w1, w1.st.running);
    StartLoopOk(cfg, ContinueLoop(cfg, w1, w1.st.running));
    WorkIs(cfg, StartLoop(cfg, ContinueLoop(cfg, w1, w1.st.running)));
  }

  lemma WaitingNoDup(cfg: Config, st: Sched)
    requires Core(cfg, st)
    ensures NoDup(st.running) && NoDup(st.waiting)
  {
    RunningIs(cfg, st, 0);
  }

  lemma WorkIs(cfg: Config, w: Work)
    requires WorkOk(cfg, w)
    ensures Round(cfg, w.st) && PlanOk(cfg, w.st.seqs, w.plan) && (forall id :: id in w.plan.batchSeqs ==> id in w.st.running)
    ensures |w.plan.batch.tokens| <= cfg.maxBatched
  {
    hide Round, PlanOk;
  }

  lemma ScheduleUnfold(cfg: Config, st: Sched)
    requires cfg.blockSize > 0
    ensures AfterDecodes(cfg, st) == ScheduleDecodes(cfg, Work(st, EmptyPlan, cfg.maxBatched))
    ensures var w1 := AfterDecodes(cfg, st);
      var w := StartLoop(cfg, ContinueLoop(cfg, w1, w1.st.running));
      Schedule(cfg, st) == (w.st, w.plan)
    ensures EmptyPlan.batchSeqs == []
  {}

  lemma StartWork(cfg: Config, st: Sched)
    requires Round(cfg, st) && cfg.blockSize > 0
    ensures WorkOk(cfg, Work(st, EmptyPlan, cfg.maxBatched))
  {
    EmptyPlanOk(cfg, st.seqs);
    hide Round, PlanOk;
  }

  lemma AfterDecodesFresh(cfg: Config, st: Sched)
    requires Round(cfg, st) && cfg.blockSize > 0
    ensures OnlyDecodes(AfterDecodes(cfg, st).st.seqs, AfterDecodes(cfg, st).plan)
  {
    var w0 := Work(st, EmptyPlan, cfg.maxBatched);
    var taken := WithRunning(w0, []);
    assert WithRunning(taken, [] + st.running) == w0;
    assert OnlyDecodes(taken.st.seqs, taken.plan) && taken.plan.batchSeqs == [] && taken.st.running == [];
    assert AfterDecodes(cfg, st).plan == DecodeLoop(cfg, taken, st.running, []).0.plan && AfterDecodes(cfg, st).st.seqs == DecodeLoop(cfg, taken, st.running, []).0.st.seqs;
    hide *;
    StartWork(cfg, st);
    DecodesOnly(cfg, taken, st.running, []);
  }

  lemma OnlyDecodesIs(seqs: map<SeqId, Sequence>, plan: Plan)
    requires OnlyDecodes(seqs, plan)
    ensures forall id :: id in plan.batchSeqs && id in seqs ==> !NeedsPrefill(seqs[id])
  {}
}
