/** The scheduler leaves nothing undone that it could do: exact outcomes of the steps of a schedule, and that a whole one
    is maximal. */
module Conserving {
  import opened Prelude
  import opened PoolModel
  import opened Sequences
  import opened SchedulerModel
  import opened Invariants
  import opened CoreSteps
  import opened CoreStart
  import opened Starting
  import opened Rounds
  import opened Scheduling
  import opened Progress

  // ------------------------------------------------------------------- blocks

  /** `div_ceil`: the least number of blocks that hold so many tokens. */
  lemma BlocksForLeast(blockSize: nat, tokens: nat, n: nat)
    requires blockSize > 0
    ensures n * blockSize >= tokens <==> n >= BlocksFor(blockSize, tokens)
  {
    var k := BlocksFor(blockSize, tokens);
    var r := (tokens + blockSize - 1) % blockSize;
    assert tokens + blockSize - 1 == k * blockSize + r;
    if n >= k {
      MoreTimes(k, n, blockSize);
    } else {
      MoreTimes(n + 1, k, blockSize);
      assert (n + 1) * blockSize == n * blockSize + blockSize;
    }
  }

  lemma MoreTimes(a: nat, b: nat, c: nat)
    requires a <= b
    ensures a * c <= b * c
  {}

  /** How many blocks `id` lacks for `extra` more tokens. */
  function Missing(cfg: Config, st: Sched, id: SeqId, extra: nat): nat
    requires cfg.blockSize > 0 && id in st.seqs
  {
    var need := BlocksFor(cfg.blockSize, st.seqs[id].computed + extra);
    if need > |st.seqs[id].blocks| then need - |st.seqs[id].blocks| else 0
  }

  ghost predicate TookFree(st: Sched, id: SeqId, k: nat, t: Sched, ok: bool) {
    id in st.seqs && id in t.seqs && (ok <==> |st.pool.free| >= k)
    && |t.pool.free| == |st.pool.free| - (if ok then k else |st.pool.free|)
    && |t.seqs[id].blocks| == |st.seqs[id].blocks| + (if ok then k else |st.pool.free|)
  }

  lemma TookFreeStep(st: Sched, id: SeqId, k: nat, q: Pool, b: BlockId, t: Sched, ok: bool)
    requires id in st.seqs && k > 0 && |q.free| + 1 == |st.pool.free|
    requires TookFree(WithBlocks(st, id, q, st.seqs[id].blocks + [b]), id, k - 1, t, ok)
    ensures TookFree(st, id, k, t, ok)
  {}

  lemma {:induction false} ExtendByTakes(cfg: Config, st: Sched, id: SeqId, k: nat)
    requires Core(cfg, st) && id in st.seqs && IsActive(st.seqs[id])
    ensures TookFree(st, id, k, ExtendBy(st, id, k).0, ExtendBy(st, id, k).1)
    decreases k
  {
    hide *;
    CoreParts(cfg, st);
    AllocateOk(st.pool);
    if k == 0 || st.pool.free == [] {
      GrownNone(st, id, k);
      TookNone(st, id, k);
    } else {
      GiveBlock(cfg, st, id);
      var (q, got) := Allocate(st.pool);
      GrownStep(st, id, k, q, got.value);
      var next := WithBlocks(st, id, q, st.seqs[id].blocks + [got.value]);
      ExtendByTakes(cfg, next, id, k - 1);
      TookFreeStep(st, id, k, q, got.value, ExtendBy(next, id, k - 1).0, ExtendBy(next, id, k - 1).1);
    }
  }

  lemma TookNone(st: Sched, id: SeqId, k: nat)
    requires id in st.seqs && (k == 0 || st.pool.free == [])
    ensures TookFree(st, id, k, st, k == 0)
  {}

  /** `try_extend` takes exactly the blocks that are missing, and fails exactly when the pool has fewer, having taken
      them all. */
  lemma TryExtendTakes(cfg: Config, st: Sched, id: SeqId, extra: nat)
    requires Core(cfg, st) && cfg.blockSize > 0 && id in st.seqs && IsActive(st.seqs[id])
    ensures TookFree(st, id, Missing(cfg, st, id, extra), TryExtend(cfg, st, id, extra).0, TryExtend(cfg, st, id, extra).1)
  {
    hide *;
    ExtendByTakes(cfg, st, id, Missing(cfg, st, id, extra));
    ExtendsMissing(cfg, st, id, extra);
  }

  lemma ExtendsMissing(cfg: Config, st: Sched, id: SeqId, extra: nat)
    requires cfg.blockSize > 0 && id in st.seqs
    ensures TryExtend(cfg, st, id, extra) == ExtendBy(st, id, Missing(cfg, st, id, extra))
  {}

  /** A decoding sequence is preempted exactly when its next token needs a block and none is free. */
  lemma PreemptedIff(cfg: Config, w: Work, id: SeqId)
    requires WorkOk(cfg, w) && cfg.blockSize > 0 && id in w.st.running && id in w.st.seqs && w.budget > 0 && !NeedsPrefill(w.st.seqs[id])
    ensures !DecodeOne(cfg, w, id).1 <==> BlocksFor(cfg.blockSize, w.st.seqs[id].computed + 1) > |w.st.seqs[id].blocks| && w.st.pool.free == []
  {
    hide *;
    WorkParts(cfg, w);
    ActiveFacts(cfg, w.st, id);
    DecodeUnfold(cfg, w, id);
    TryExtendTakes(cfg, w.st, id, 1);
    CoreParts(cfg, w.st);
    OneBlock(cfg, w.st.seqs[id], w.st, id);
  }

  lemma OneMoreToken(blockSize: nat, n: nat)
    requires blockSize > 0
    ensures BlocksFor(blockSize, n + 1) <= BlocksFor(blockSize, n) + 1
  {
    var k := BlocksFor(blockSize, n);
    BlocksForLeast(blockSize, n, k);
    assert (k + 1) * blockSize == k * blockSize + blockSize;
    BlocksForLeast(blockSize, n + 1, k + 1);
  }

  lemma OneBlock(cfg: Config, s: Sequence, st: Sched, id: SeqId)
    requires cfg.blockSize > 0 && IsActive(s) && id in st.seqs && st.seqs[id] == s && BasicOk(cfg, s)
    requires TookFree(st, id, Missing(cfg, st, id, 1), TryExtend(cfg, st, id, 1).0, TryExtend(cfg, st, id, 1).1)
    ensures TryExtend(cfg, st, id, 1).1 <==> BlocksFor(cfg.blockSize, s.computed + 1) <= |s.blocks| || st.pool.free != []
  {
    OneMoreToken(cfg.blockSize, s.computed);
    assert BlocksFor(cfg.blockSize, s.computed) <= |s.blocks|;
    hide BlocksFor, TryExtend, BasicOk;
  }

  // ------------------------------------------------------------ a second try

  lemma FailedPool(cfg: Config, st: Sched, id: SeqId)
    requires Core(cfg, st) && cfg.blockSize > 0 && id in st.seqs && IsWaiting(st.seqs[id]) && !TryStart(cfg, st, id).1
    ensures var t := TryStart(cfg, st, id).0;
      PoolOk(t.pool) && Took(st.pool, t.pool, []) && t.pool.hashOf == st.pool.hashOf && t == st.(pool := t.pool)
  {
    hide *;
    CoreParts(cfg, st);
    var s := st.seqs[id];
    Starting.WaitingIs(cfg, s);
    MatchPhaseOk(cfg, st.pool, s);
    var (m, matched) := MatchPhase(cfg, st.pool, s);
    AllocPhaseOk(cfg, st, id, m, matched);
    TryStartPhases(cfg, st, id);
    var t := TryStart(cfg, st, id).0;
    OutcomeShape(cfg, st, id, t, false);
    MatchedWithin(cfg.blockSize, |matched|, s.target);
    var missing := BlocksFor(cfg.blockSize, s.target + 1) - |matched|;
    MatchesParts(cfg, st.pool.hashOf, s, matched);
    AllocPhaseIs(cfg, st, id, m, matched, missing);
    CanAllocateIs(m, missing);
    SizesOk(st.pool);
    MatchedHeld(cfg, st.pool, m, s, matched);
    ReleaseAllOk(m, matched);
    SizesOk(m);
    SizesOk(ReleaseAll(m, matched));
    UndoTook(st.pool, m, ReleaseAll(m, matched), matched);
    SameShape(st, t);
  }

  lemma SameShape(st: Sched, t: Sched)
    requires t == st.(pool := t.pool, seqs := t.seqs) && t.seqs == st.seqs
    ensures t == st.(pool := t.pool)
  {}

  /** The same free blocks and the same index. */
  lemma SameFree(p: Pool, q: Pool)
    requires PoolOk(p) && PoolOk(q) && Took(p, q, []) && q.hashOf == p.hashOf
    ensures (forall b :: b in q.free <==> b in p.free) && |q.free| == |p.free| && q.byHash == p.byHash
  {
    FreeAfterMatch(p, q, []);
    assert Idle(p, []) == {};
    assert forall b :: b in q.free <==> b in p.free;
    assert q.byHash.Keys == p.byHash.Keys;
  }

  lemma SameFound(cfg: Config, p: Pool, q: Pool, s: Sequence, found: seq<BlockId>)
    requires cfg.blockSize > 0 && Found(cfg, p, s, found) && q.byHash == p.byHash
    ensures Found(cfg, q, s, found)
  {}

  lemma SameIdle(p: Pool, q: Pool, blocks: seq<BlockId>)
    requires forall b :: b in q.free <==> b in p.free
    ensures Idle(q, blocks) == Idle(p, blocks)
  {}

  /** A start that failed fails again. */
  lemma StillFails(cfg: Config, st: Sched, id: SeqId)
    requires Core(cfg, st) && cfg.blockSize > 0 && id in st.seqs && IsWaiting(st.seqs[id]) && !TryStart(cfg, st, id).1
    requires Core(cfg, TryStart(cfg, st, id).0)
    ensures !TryStart(cfg, TryStart(cfg, st, id).0, id).1
  {
    hide *;
    var t, s := TryStart(cfg, st, id).0, st.seqs[id];
    CoreParts(cfg, st);
    CoreParts(cfg, t);
    Starting.WaitingIs(cfg, s);
    FailedPool(cfg, st, id);
    SameFree(st.pool, t.pool);
    var found := FoundExists(cfg, st.pool, s);
    SameFound(cfg, st.pool, t.pool, s, found);
    SameIdle(st.pool, t.pool, found);
    TookSizes(st.pool, t.pool, []);
    TryStartAdopts(cfg, st, id, found);
    TryStartAdopts(cfg, t, id, found);
  }

  // ------------------------------------------------- what a decode pass leaves

  /** Every sequence looked at is kept or preempted. */
  lemma {:induction false} DecodeLoopAccounts(cfg: Config, w: Work, ids: seq<SeqId>, survivors: seq<SeqId>)
    requires w.st.running == [] && WorkOk(cfg, WithRunning(w, survivors + ids)) && cfg.blockSize > 0
    requires forall id :: id in w.plan.batchSeqs ==> id in survivors
    ensures var (v, out) := DecodeLoop(cfg, w, ids, survivors);
      w.plan.preempted <= v.plan.preempted && survivors <= out && forall id :: id in ids ==> id in out || id in v.plan.preempted
    decreases |ids|
  {
    hide *;
    DecodeLoopUnfold(cfg, w, ids, survivors);
    if ids != [] {
      DecodeTurn(cfg, w, ids, survivors);
      var (v, keep) := DecodeOne(cfg, w, ids[0]);
      var next := if keep then survivors + [ids[0]] else survivors;
      TurnAccounts(cfg, WithRunning(w, survivors + ids), ids[0], WithRunning(v, next + ids[1..]), keep);
      WithRunningIs(w, survivors + ids);
      WithRunningIs(v, next + ids[1..]);
      DecodeLoopAccounts(cfg, v, ids[1..], next);
      assert forall id :: id in ids <==> id == ids[0] || id in ids[1..];
      InNext(survivors, ids[0], next, keep);
    }
  }

  lemma InNext(survivors: seq<SeqId>, id: SeqId, next: seq<SeqId>, keep: bool)
    requires next == if keep then survivors + [id] else survivors
    ensures survivors <= next && (keep ==> id in next)
  {}

  lemma TurnAccounts(cfg: Config, w: Work, id: SeqId, v: Work, keep: bool)
    requires cfg.blockSize > 0 && Decoded(cfg, w, id, v, keep)
    ensures w.plan.preempted <= v.plan.preempted && (!keep ==> id in v.plan.preempted)
  {}

  lemma AfterDecodesAccounts(cfg: Config, st: Sched)
    requires Round(cfg, st) && cfg.blockSize > 0
    ensures var w := AfterDecodes(cfg, st);
      forall id :: id in st.running ==> id in w.st.running || id in w.plan.preempted
  {
    var w0 := Work(st, EmptyPlan, cfg.maxBatched);
    var taken := WithRunning(w0, []);
    assert WithRunning(taken, [] + st.running) == w0;
    assert taken.plan.batchSeqs == [] && taken.st.running == [];
    var (v, out) := DecodeLoop(cfg, taken, st.running, []);
    assert AfterDecodes(cfg, st) == WithRunning(v, out);
    hide *;
    StartWork(cfg, st);
    DecodeLoopAccounts(cfg, taken, st.running, []);
    WithRunningIs(v, out);
  }

  // ----------------------------------------------------------- rows of a plan

  /** The rows of the plan stay where and as long as they are. */
  ghost predicate RowsStay(p: Plan, q: Plan) {
    p.batchSeqs <= q.batchSeqs && p.sampledSeqs <= q.sampledSeqs
    && forall i :: 0 <= i < |p.batchSeqs| ==> RowLen(q.batch, i) == RowLen(p.batch, i)
  }

  /** The sequence has a row of that many tokens; none needs no row. */
  ghost predicate HasRow(plan: Plan, id: SeqId, n: nat) {
    n == 0 || exists i :: 0 <= i < |plan.batchSeqs| && plan.batchSeqs[i] == id && RowLen(plan.batch, i) == n
  }

  lemma RowKept(p: Plan, q: Plan, id: SeqId, n: nat)
    requires RowsStay(p, q) && HasRow(p, id, n)
    ensures HasRow(q, id, n)
  {
    hide RowLen;
    if n > 0 {
      var i :| 0 <= i < |p.batchSeqs| && p.batchSeqs[i] == id && RowLen(p.batch, i) == n;
      assert q.batchSeqs[i] == id && RowLen(q.batch, i) == n;
    }
  }

  lemma RowsStayTwice(p: Plan, q: Plan, r: Plan)
    requires RowsStay(p, q) && RowsStay(q, r)
    ensures RowsStay(p, r)
  {
    hide RowLen;
  }

  lemma RowsStayHere(p: Plan)
    ensures RowsStay(p, p)
  {}

  lemma PushedRow(cfg: Config, st: Sched, id: SeqId, q: nat, plan: Plan)
    requires cfg.blockSize > 0 && Shape(plan.batch, |plan.batchSeqs|) && id in st.seqs && st.seqs[id].computed + q <= |st.seqs[id].tokens|
    ensures RowsStay(plan, PushSeq(cfg, st, id, q, plan)) && HasRow(PushSeq(cfg, st, id, q, plan), id, q)
  {
    PushShape(cfg, st, id, q, plan);
    PushData(cfg, st, id, q, plan);
    var out, n := PushSeq(cfg, st, id, q, plan), |plan.batchSeqs|;
    hide PushSeq;
    assert out.batchSeqs[n] == id && RowLen(out.batch, n) == q;
  }

  /** What a prefilling sequence may get at most in one step. */
  function Turn(cfg: Config, s: Sequence): nat { Min(RemainingPrefill(s), cfg.chunk) }

  lemma ChunkRow(cfg: Config, w: Work, id: SeqId)
    requires WorkOk(cfg, w) && id in w.st.running && id !in w.plan.batchSeqs && cfg.blockSize > 0
    ensures var v := PrefillChunk(cfg, w, id);
      RowsStay(w.plan, v.plan) && v.st == w.st && id in w.st.seqs && (v.budget == 0 || HasRow(v.plan, id, Turn(cfg, w.st.seqs[id])))
  {
    hide *;
    WorkParts(cfg, w);
    ActiveFacts(cfg, w.st, id);
    ChunkUnfold(cfg, w, id);
    RowsStayHere(w.plan);
    var s := w.st.seqs[id];
    var q := Min(Turn(cfg, s), w.budget);
    TurnIs(cfg, s, w.budget);
    if q > 0 {
      ChunkFits(cfg, s, q);
      TryExtendOk(cfg, w.st, id, q);
      ExtendedParts(cfg, w.st, id, q, TryExtend(cfg, w.st, id, q).0, TryExtend(cfg, w.st, id, q).1);
      PlanParts(cfg, w.st.seqs, w.plan);
      PushedRow(cfg, w.st, id, q, w.plan);
    } else {
      NoRow(w.plan, id);
    }
  }

  lemma TurnIs(cfg: Config, s: Sequence, budget: nat)
    ensures var q := Min(Turn(cfg, s), budget);
      q == Min(Min(RemainingPrefill(s), cfg.chunk), budget) && q <= RemainingPrefill(s) && q <= budget
      && (q == Turn(cfg, s) || q == budget)
  {}

  lemma NoRow(plan: Plan, id: SeqId)
    ensures HasRow(plan, id, 0)
  {}

  // --------------------------------------------------------- prefills in full

  /** Every prefilling sequence of the list has its full turn, unless the budget is spent. */
  ghost predicate Filled(cfg: Config, w: Work, ids: seq<SeqId>) {
    w.budget == 0 || forall id :: id in ids ==> id in w.st.seqs && (NeedsPrefill(w.st.seqs[id]) ==> HasRow(w.plan, id, Turn(cfg, w.st.seqs[id])))
  }

  lemma FilledMore(cfg: Config, w: Work, v: Work, id: SeqId, ids: seq<SeqId>)
    requires ids != [] && ids[0] == id && v.st == w.st && id in w.st.seqs
    requires Filled(cfg, v, ids[1..]) && (v.budget == 0 || !NeedsPrefill(w.st.seqs[id]) || HasRow(v.plan, id, Turn(cfg, w.st.seqs[id])))
    ensures Filled(cfg, v, ids)
  {
    hide HasRow;
    assert forall o :: o in ids <==> o == id || o in ids[1..];
  }

  lemma {:induction false} ContinueFilled(cfg: Config, w: Work, ids: seq<SeqId>)
    requires WorkOk(cfg, w) && cfg.blockSize > 0 && NoDup(ids)
    requires forall id :: id in ids ==> id in w.st.running
    requires forall id :: id in ids && id in w.st.seqs && NeedsPrefill(w.st.seqs[id]) ==> id !in w.plan.batchSeqs
    ensures var v := ContinueLoop(cfg, w, ids);
      RowsStay(w.plan, v.plan) && v.st == w.st && v.budget <= w.budget && Filled(cfg, v, ids)
    decreases |ids|
  {
    hide *;
    ContinueLoopUnfold(cfg, w, ids);
    RowsStayHere(w.plan);
    if ids == [] || w.budget == 0 {
      FilledNothing(cfg, w, ids);
    } else {
      var id, rest := ids[0], ids[1..];
      ListParts(ids);
      WorkParts(cfg, w);
      ActiveFacts(cfg, w.st, id);
      if !NeedsPrefill(w.st.seqs[id]) {
        ContinueFilled(cfg, w, rest);
        FilledMore(cfg, w, ContinueLoop(cfg, w, rest), id, ids);
      } else {
        StartedChunkFits(cfg, w, id);
        ChunkRow(cfg, w, id);
        var u := PrefillChunk(cfg, w, id);
        ChunkedRest(cfg, w, id, u, rest);
        ChunkSpends(cfg, w, id, u);
        ContinueFilled(cfg, u, rest);
        var v := ContinueLoop(cfg, u, rest);
        RowsStayTwice(w.plan, u.plan, v.plan);
        if u.budget > 0 {
          RowKept(u.plan, v.plan, id, Turn(cfg, w.st.seqs[id]));
        }
        FilledMore(cfg, w, v, id, ids);
      }
    }
  }

  lemma FilledNothing(cfg: Config, w: Work, ids: seq<SeqId>)
    requires ids == [] || w.budget == 0
    ensures Filled(cfg, w, ids)
  {}

  lemma ChunkSpends(cfg: Config, w: Work, id: SeqId, v: Work)
    requires Chunked(cfg, w, id, v)
    ensures v.budget <= w.budget
  {}

  lemma StartFilled(cfg: Config, w: Work)
    requires WorkOk(cfg, w) && CanTryStart(cfg, w) && cfg.blockSize > 0 && w.st.waiting != [] && Filled(cfg, w, w.st.running)
    ensures var (v, more) := StartOne(cfg, w);
      RowsStay(w.plan, v.plan) && v.budget <= w.budget && Filled(cfg, v, v.st.running)
  {
    hide *;
    WorkParts(cfg, w);
    var id := w.st.waiting[0];
    RunningIs(cfg, w.st, id);
    NotBoth(w.st.seqs[id]);
    WithoutHead(w.st.waiting);
    var (t, ok) := TryStart(cfg, w.st, id);
    TryStartCore(cfg, w.st, id);
    OutcomeShape(cfg, w.st, id, t, ok);
    StartOneUnfold(cfg, w);
    if ok {
      JustStartedOk(cfg, w);
      JustStartedIs(cfg, w, t);
      var u := JustStarted(cfg, w);
      assert id in u.st.running;
      StartedChunkFits(cfg, u, id);
      ChunkRow(cfg, u, id);
      var v := PrefillChunk(cfg, u, id);
      ChunkSpends(cfg, u, id, v);
      SamePlanRows(w.plan, u.plan, v.plan);
      FilledOneMore(cfg, w, u, v, id);
    } else {
      RowsStayHere(w.plan);
      FilledFrame(cfg, w, w.(st := t), w.st.running);
    }
  }

  lemma SamePlanRows(p: Plan, q: Plan, r: Plan)
    requires q.batch == p.batch && q.batchSeqs == p.batchSeqs && q.sampledSeqs == p.sampledSeqs && RowsStay(q, r)
    ensures RowsStay(p, r)
  {
    hide RowLen;
  }

  lemma FilledFrame(cfg: Config, w: Work, v: Work, ids: seq<SeqId>)
    requires Filled(cfg, w, ids) && v.plan == w.plan && v.st.seqs == w.st.seqs && v.budget == w.budget
    ensures Filled(cfg, v, ids)
  {
    hide HasRow;
  }

  lemma FilledOneMore(cfg: Config, w: Work, u: Work, v: Work, id: SeqId)
    requires Filled(cfg, w, w.st.running) && v.st == u.st && u.st.running == w.st.running + [id] && id in u.st.seqs && id !in w.st.running
    requires u.st.seqs == w.st.seqs[id := u.st.seqs[id]] && v.budget <= w.budget && RowsStay(w.plan, v.plan)
    requires v.budget == 0 || HasRow(v.plan, id, Turn(cfg, u.st.seqs[id]))
    ensures Filled(cfg, v, v.st.running)
  {
    hide HasRow, RowsStay, Turn;
    forall o | o in v.st.running && v.budget > 0 ensures o in v.st.seqs && (NeedsPrefill(v.st.seqs[o]) ==> HasRow(v.plan, o, Turn(cfg, v.st.seqs[o]))) {
      if o != id {
        assert o in w.st.running;
        if NeedsPrefill(v.st.seqs[o]) {
          RowKept(w.plan, v.plan, o, Turn(cfg, w.st.seqs[o]));
        }
      }
    }
  }

  // ------------------------------------------------------------ as far as it goes

  /** Nothing more can start. */
  ghost predicate Exhausted(cfg: Config, w: Work)
    requires cfg.blockSize > 0
  {
    w.budget == 0 || |w.st.running| >= cfg.maxSeqs || w.st.waiting == [] || !TryStart(cfg, w.st, w.st.waiting[0]).1
  }

  lemma FailedExhausts(cfg: Config, w: Work)
    requires WorkOk(cfg, w) && CanTryStart(cfg, w) && cfg.blockSize > 0 && w.st.waiting != [] && !StartOne(cfg, w).1
    ensures Exhausted(cfg, StartOne(cfg, w).0)
  {
    hide *;
    WorkParts(cfg, w);
    var id := w.st.waiting[0];
    RunningIs(cfg, w.st, id);
    NotBoth(w.st.seqs[id]);
    WithoutHead(w.st.waiting);
    var (t, ok) := TryStart(cfg, w.st, id);
    TryStartCore(cfg, w.st, id);
    OutcomeShape(cfg, w.st, id, t, ok);
    StartOneUnfold(cfg, w);
    if ok {
      StartSucceeds(cfg, w);
      assert false;
    }
    AfterFailed(w.st, id, t);
    StillFails(cfg, w.st, id);
    ExhaustedMade(cfg, w.(st := t), id);
  }

  lemma StartSucceeds(cfg: Config, w: Work)
    requires WorkOk(cfg, w) && CanTryStart(cfg, w) && cfg.blockSize > 0 && w.st.waiting != [] && TryStart(cfg, w.st, w.st.waiting[0]).1
    ensures StartOne(cfg, w).1
  {
    hide *;
    WorkParts(cfg, w);
    var id := w.st.waiting[0];
    RunningIs(cfg, w.st, id);
    NotBoth(w.st.seqs[id]);
    WithoutHead(w.st.waiting);
    var t := TryStart(cfg, w.st, id).0;
    TryStartCore(cfg, w.st, id);
    OutcomeShape(cfg, w.st, id, t, true);
    StartOneUnfold(cfg, w);
    JustStartedOk(cfg, w);
    JustStartedIs(cfg, w, t);
    var u := JustStarted(cfg, w);
    assert id in u.st.running;
    StartedChunkFits(cfg, u, id);
    ChunkedKeeps(cfg, u, id, PrefillChunk(cfg, u, id));
  }

  lemma ExhaustedMade(cfg: Config, w: Work, id: SeqId)
    requires cfg.blockSize > 0 && w.st.waiting != [] && w.st.waiting[0] == id && !TryStart(cfg, w.st, id).1
    ensures Exhausted(cfg, w)
  {
    hide TryStart;
  }

  lemma NotTrying(cfg: Config, w: Work)
    requires cfg.blockSize > 0 && !CanTryStart(cfg, w)
    ensures Exhausted(cfg, w)
  {
    hide TryStart;
  }

  lemma {:induction false} StartLoopExhausts(cfg: Config, w: Work)
    requires WorkOk(cfg, w) && cfg.blockSize > 0 && Filled(cfg, w, w.st.running)
    ensures var v := StartLoop(cfg, w);
      Exhausted(cfg, v) && Filled(cfg, v, v.st.running) && RowsStay(w.plan, v.plan) && v.budget <= w.budget
    decreases |w.st.waiting|
  {
    hide *;
    StartLoopUnfold(cfg, w);
    RowsStayHere(w.plan);
    if !CanTryStart(cfg, w) {
      NotTrying(cfg, w);
    } else {
      CanTryStartIs(cfg, w);
      StartOneOk(cfg, w);
      StartFilled(cfg, w);
      var (v, more) := StartOne(cfg, w);
      if more {
        TurnShrinks(cfg, w, v);
        StartLoopExhausts(cfg, v);
        RowsStayTwice(w.plan, v.plan, StartLoop(cfg, v).plan);
      } else {
        FailedExhausts(cfg, w);
      }
    }
  }

  lemma TurnShrinks(cfg: Config, w: Work, v: Work)
    requires cfg.blockSize > 0 && StartTurn(cfg, w, v, true)
    ensures |v.st.waiting| < |w.st.waiting|
  {
    hide StartOutcome, Chunked;
  }

  // ----------------------------------------------------------- the whole schedule

  /** Every running sequence had its turn, and nothing more could start; or the token budget is spent. */
  ghost predicate Maximal(cfg: Config, st: Sched, t: Sched, plan: Plan)
    requires cfg.blockSize > 0
  {
    |plan.batch.tokens| == cfg.maxBatched
    || ((forall id :: id in st.running ==>
           id in plan.preempted || (id in t.running && id in t.seqs && (NeedsPrefill(t.seqs[id]) || id in plan.sampledSeqs)))
        && (forall id :: id in t.running ==> id in t.seqs && (NeedsPrefill(t.seqs[id]) ==> HasRow(plan, id, Turn(cfg, t.seqs[id]))))
        && (|t.running| >= cfg.maxSeqs || t.waiting == [] || !TryStart(cfg, t, t.waiting[0]).1))
  }

  lemma KeptOn(cfg: Config, st: Sched, w: Work, v: Work)
    requires Kept(w, w.st.running) && (forall id :: id in st.running ==> id in w.st.running || id in w.plan.preempted)
    requires RowsStay(w.plan, v.plan) && v.budget <= w.budget && v.plan.preempted == w.plan.preempted
    requires forall id :: id in w.st.running ==> id in v.st.running && id in v.st.seqs && v.st.seqs[id] == w.st.seqs[id]
    ensures v.budget == 0 || forall id :: id in st.running ==>
      id in v.plan.preempted || (id in v.st.running && id in v.st.seqs && (NeedsPrefill(v.st.seqs[id]) || id in v.plan.sampledSeqs))
  {
    hide RowLen;
  }

  lemma MaximalMade(cfg: Config, st: Sched, v: Work)
    requires cfg.blockSize > 0 && |v.plan.batch.tokens| + v.budget == cfg.maxBatched && Exhausted(cfg, v) && Filled(cfg, v, v.st.running)
    requires v.budget == 0 || forall id :: id in st.running ==>
      id in v.plan.preempted || (id in v.st.running && id in v.st.seqs && (NeedsPrefill(v.st.seqs[id]) || id in v.plan.sampledSeqs))
    ensures Maximal(cfg, st, v.st, v.plan)
  {
    hide TryStart, HasRow;
  }

  /** The starts leave what was running as it was. */
  lemma {:induction false} StartLoopKeeps(cfg: Config, w: Work)
    requires WorkOk(cfg, w) && cfg.blockSize > 0
    ensures var v := StartLoop(cfg, w);
      v.plan.preempted == w.plan.preempted
      && forall id :: id in w.st.running ==> id in w.st.seqs && id in v.st.running && id in v.st.seqs && v.st.seqs[id] == w.st.seqs[id]
    decreases |w.st.waiting|
  {
    hide *;
    StartLoopUnfold(cfg, w);
    WorkParts(cfg, w);
    forall id | id in w.st.running ensures id in w.st.seqs && !IsWaiting(w.st.seqs[id]) {
      RunningIs(cfg, w.st, id);
      NotBoth(w.st.seqs[id]);
    }
    if CanTryStart(cfg, w) {
      CanTryStartIs(cfg, w);
      RunningIs(cfg, w.st, w.st.waiting[0]);
      StartOneOk(cfg, w);
      var (v, more) := StartOne(cfg, w);
      TurnKeeps(cfg, w, v, more);
      if more && |v.st.waiting| < |w.st.waiting| {
        StartLoopKeeps(cfg, v);
      }
    }
  }

  lemma TurnKeeps(cfg: Config, w: Work, v: Work, more: bool)
    requires cfg.blockSize > 0 && StartTurn(cfg, w, v, more) && w.st.waiting != [] && w.st.waiting[0] in w.st.seqs && IsWaiting(w.st.seqs[w.st.waiting[0]])
    requires forall id :: id in w.st.running ==> id in w.st.seqs && !IsWaiting(w.st.seqs[id])
    ensures v.plan.preempted == w.plan.preempted
    ensures forall id :: id in w.st.running ==> id in v.st.running && id in v.st.seqs && v.st.seqs[id] == w.st.seqs[id]
  {
    hide Chunked, IsWaiting;
    if more {
      var t := v.st.(waiting := w.st.waiting, running := w.st.running);
      OutcomeShape(cfg, w.st, w.st.waiting[0], t, true);
    }
  }

  /** A schedule is maximal. Unless the token budget is spent, every sequence that was running is preempted, still
      prefilling or sampled; every one still prefilling has a row as long as its remaining text and the chunk allow; and
      the queue is empty, the limit of running sequences reached, or its head would not start. */
  lemma ScheduleMaximal(cfg: Config, st: Sched)
    requires Round(cfg, st) && cfg.blockSize > 0
    ensures Maximal(cfg, st, Schedule(cfg, st).0, Schedule(cfg, st).1)
  {
    hide *;
    ScheduleUnfold(cfg, st);
    StartWork(cfg, st);
    ScheduleDecodesOk(cfg, Work(st, EmptyPlan, cfg.maxBatched));
    var w := AfterDecodes(cfg, st);
    AfterDecodesFresh(cfg, st);
    OnlyDecodesIs(w.st.seqs, w.plan);
    AfterDecodesKept(cfg, st);
    AfterDecodesAccounts(cfg, st);
    WorkParts(cfg, w);
    WaitingNoDup(cfg, w.st);
    ContinueLoopOk(cfg, w, w.st.running);
    ContinueFilled(cfg, w, w.st.running);
    var u := ContinueLoop(cfg, w, w.st.running);
    StartLoopExhausts(cfg, u);
    StartLoopOk(cfg, u);
    StartLoopKeeps(cfg, u);
    var v := StartLoop(cfg, u);
    RowsStayTwice(w.plan, u.plan, v.plan);
    KeptOn(cfg, st, w, v);
    WorkParts(cfg, v);
    MaximalMade(cfg, st, v);
  }
}
