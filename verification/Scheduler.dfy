/** The scheduler as the program runs it: queues, sequences and pool updated in place, loop by loop, proved against the
    functions of SchedulerModel (crates/vapi-engine/src/scheduler.rs). */
module Schedulers {
  import opened Prelude
  import opened Hashing
  import opened PoolModel
  import opened Sequences
  import opened SchedulerModel
  import opened Invariants
  import opened CoreSteps
  import opened CoreStart
  import opened CoreCommit
  import opened CorePublish
  import opened Rounds
  import opened Scheduling
  import opened Committing
  import opened ForwardPass
  import opened Forking
  import opened Progress
  import opened BlockPools
  import M = SchedulerModel

  /** The sequence's blocks are its to give back. */
  ghost predicate Owned(p: Pool, blocks: seq<BlockId>) {
    NoDup(blocks) && AllHeld(p, blocks)
  }

  lemma CoreOwned(cfg: Config, st: Sched, id: SeqId)
    requires Core(cfg, st) && id in st.seqs
    ensures Owned(st.pool, st.seqs[id].blocks)
  {
    hide *;
    CoreParts(cfg, st);
    BlocksParts(cfg, st.pool, st.seqs, id);
    LocalNoDup(cfg, st.pool.hashOf, st.seqs[id]);
    LocalInside(cfg, st.pool.hashOf, st.seqs[id]);
    BlocksRefs(cfg, st.pool, st.seqs);
    SizesOk(st.pool);
    ListedHeld(st.pool, st.seqs, id);
    OwnedMade(st.pool, st.seqs[id].blocks);
  }

  lemma OwnedMade(p: Pool, blocks: seq<BlockId>)
    requires NoDup(blocks) && AllHeld(p, blocks)
    ensures Owned(p, blocks)
  {}

  lemma OwnedParts(p: Pool, blocks: seq<BlockId>)
    requires Owned(p, blocks)
    ensures NoDup(blocks) && AllHeld(p, blocks)
  {}

  /** A block just handed out joins those already held. */
  lemma OwnedMore(p: Pool, blocks: seq<BlockId>)
    requires PoolOk(p) && Owned(p, blocks) && Allocate(p).1.Some?
    ensures Owned(Allocate(p).0, blocks + [Allocate(p).1.value])
  {
    AllocateOk(p);
    var b := Allocate(p).1.value;
    hide Allocate, PoolOk;
    assert b !in blocks;
    NoDupAppend(blocks, b);
  }

  /** The sequences a list of ids names, each once, as they are when reported. */
  function Drained(seqs: map<SeqId, Sequence>, ids: seq<SeqId>): seq<(SeqId, Sequence)>
    decreases |ids|
  {
    if ids == [] then []
    else if ids[0] in seqs then [(ids[0], seqs[ids[0]])] + Drained(seqs - {ids[0]}, ids[1..])
    else Drained(seqs, ids[1..])
  }

  /** Everything finished is reported, as it was, and nothing else. */
  lemma {:induction false} DrainedIs(seqs: map<SeqId, Sequence>, ids: seq<SeqId>)
    ensures forall k :: 0 <= k < |Drained(seqs, ids)| ==> Drained(seqs, ids)[k].0 in seqs && Drained(seqs, ids)[k].1 == seqs[Drained(seqs, ids)[k].0]
    ensures forall id :: id in seqs && id in ids ==> (id, seqs[id]) in Drained(seqs, ids)
    ensures forall k, l :: 0 <= k < l < |Drained(seqs, ids)| ==> Drained(seqs, ids)[k].0 != Drained(seqs, ids)[l].0
    decreases |ids|
  {
    if ids != [] {
      assert forall id :: id in ids <==> id == ids[0] || id in ids[1..];
      if ids[0] in seqs {
        DrainedIs(seqs - {ids[0]}, ids[1..]);
      } else {
        DrainedIs(seqs, ids[1..]);
      }
    }
  }

  class Scheduler {
    const cfg: Config
    const pool: BlockPool
    var seqs: map<SeqId, Sequence>
    var byRequest: map<RequestId, seq<SeqId>>
    var waiting: seq<SeqId>
    var running: seq<SeqId>
    var finished: seq<SeqId>
    var nextId: nat

    ghost function View(): Sched
      reads this, pool
    {
      Sched(pool.View(), seqs, byRequest, waiting, running, finished, nextId)
    }

    ghost predicate Valid()
      reads this, pool
    {
      pool.Valid() && cfg.blockSize > 0 && pool.blockSize == cfg.blockSize
    }

    /** The invariant between two calls of the engine's loop. */
    ghost predicate Ready()
      reads this, pool
    {
      Valid() && Round(cfg, View())
    }

    constructor (cfg: Config, numBlocks: nat, watermark: nat)
      requires cfg.blockSize > 0 && numBlocks <= 0xFFFF_FFFF
      ensures Valid() && this.cfg == cfg && fresh(pool)
      ensures View() == NewScheduler(NewPool(numBlocks, cfg.blockSize, watermark))
    {
      this.cfg := cfg;
      pool := new BlockPool(numBlocks, cfg.blockSize, watermark);
      seqs := map[];
      byRequest := map[];
      waiting := [];
      running := [];
      finished := [];
      nextId := 0;
    }

    // ------------------------------------------------------------- admission

    method AdmitRequest(r: RequestId, prompt: seq<u32>, params: Params, tenant: Text) returns (error: Option<AdmitError>)
      requires Valid()
      modifies this
      ensures Valid() && (View(), error) == Admit(cfg, old(View()), r, prompt, params, tenant)
    {
      if prompt == [] {
        return Some(EmptyPrompt);
      }
      if |prompt| >= cfg.maxContext {
        return Some(ContextLengthExceeded);
      }
      var id := nextId;
      nextId := nextId + 1;
      byRequest := byRequest[r := (if r in byRequest then byRequest[r] else []) + [id]];
      seqs := seqs[id := NewSequence(r, prompt, params, tenant)];
      waiting := waiting + [id];
      error := None;
    }

    // -------------------------------------------------------------- finishing

    method FinishSequence(id: SeqId, reason: Reason)
      requires Valid() && (id in seqs ==> Owned(pool.View(), seqs[id].blocks))
      modifies this, pool
      ensures Valid() && View() == Finish(old(View()), id, reason)
    {
      hide Owned, ReleaseAll, Without, NoDup, AllHeld, PoolOk, BlockPool.Threaded;
      if id !in seqs || IsFinished(seqs[id]) {
        return;
      }
      var s := seqs[id];
      OwnedParts(pool.View(), s.blocks);
      seqs := seqs[id := s.(status := Finished(reason), blocks := [])];
      pool.FreeAll(s.blocks);
      running := Without(running, id);
      waiting := Without(waiting, id);
      finished := finished + [id];
    }

    /** `cancel`: every sequence of the request. */
    method CancelRequest(r: RequestId) returns (first: Option<SeqId>)
      requires Valid() && Core(cfg, View())
      modifies this, pool
      ensures Valid() && Core(cfg, View()) && View() == Cancel(old(View()), r)
      ensures first == if r in old(byRequest) && old(byRequest)[r] != [] then Some(old(byRequest)[r][0]) else None
    {
      if r !in byRequest {
        return None;
      }
      var ids := byRequest[r];
      first := if ids == [] then None else Some(ids[0]);
      ghost var before := View();
      hide Core, Owned, Finish;
      assert ids[0..] == ids;
      for i := 0 to |ids|
        invariant Valid() && Core(cfg, View()) && FinishAll(View(), ids[i..], Cancelled) == FinishAll(before, ids, Cancelled)
      {
        ghost var here := View();
        assert ids[i..][0] == ids[i] && ids[i..][1..] == ids[i + 1..];
        FinishCore(cfg, here, ids[i], Cancelled);
        if ids[i] in seqs {
          CoreOwned(cfg, here, ids[i]);
        }
        FinishSequence(ids[i], Cancelled);
      }
      assert ids[|ids|..] == [];
    }

    /** `drain_finished`: everything that completed since the last call, in order. */
    method DrainFinished() returns (out: seq<(SeqId, Sequence)>)
      requires Valid()
      modifies this
      ensures Valid() && View() == Drain(old(View())) && out == Drained(old(seqs), old(finished))
    {
      hide PoolOk, BlockPool.Threaded, DropFromRequest;
      var ids := finished;
      finished := [];
      out := [];
      ghost var before := View();
      assert ids[0..] == ids && [] + Drained(seqs, ids) == Drained(seqs, ids);
      for i := 0 to |ids|
        invariant Valid() && DrainList(View(), ids[i..]) == DrainList(before, ids)
        invariant out + Drained(seqs, ids[i..]) == Drained(before.seqs, ids)
      {
        var id := ids[i];
        assert ids[i..][0] == id && ids[i..][1..] == ids[i + 1..];
        if id in seqs {
          var s := seqs[id];
          assert out + ([(id, s)] + Drained(seqs - {id}, ids[i + 1..])) == (out + [(id, s)]) + Drained(seqs - {id}, ids[i + 1..]);
          seqs := seqs - {id};
          byRequest := DropFromRequest(byRequest, s.request, id);
          out := out + [(id, s)];
        }
      }
      assert ids[|ids|..] == [] && out + [] == out;
    }

    // ---------------------------------------------------------------- blocks

    /** `try_extend`: cover `extra` more positions, block by block. */
    method TryExtendSequence(id: SeqId, extra: nat) returns (ok: bool)
      requires Valid() && id in seqs && Owned(pool.View(), seqs[id].blocks)
      modifies this`seqs, pool
      ensures Valid() && (View(), ok) == TryExtend(cfg, old(View()), id, extra)
      ensures id in seqs && Owned(pool.View(), seqs[id].blocks) && seqs[id] == old(seqs)[id].(blocks := seqs[id].blocks)
      ensures ok ==> BlocksFor(cfg.blockSize, seqs[id].computed + extra) <= |seqs[id].blocks|
    {
      hide PoolOk, BlockPool.Threaded, Owned, Allocate, BlocksFor;
      var need := BlocksFor(cfg.blockSize, seqs[id].computed + extra);
      var have := |seqs[id].blocks|;
      ghost var k := if need > have then need - have else 0;
      ghost var before := View();
      while have < need
        invariant Valid() && id in seqs && Owned(pool.View(), seqs[id].blocks) && have == |seqs[id].blocks|
        invariant seqs[id] == before.seqs[id].(blocks := seqs[id].blocks)
        invariant k == if need > have then need - have else 0
        invariant ExtendBy(View(), id, k) == ExtendBy(before, id, if need > |before.seqs[id].blocks| then need - |before.seqs[id].blocks| else 0)
        decreases need - have
      {
        AllocateOwned(pool.View(), seqs[id].blocks);
        var got := pool.AllocateBlock();
        if got.Refused? {
          return false;
        }
        seqs := seqs[id := seqs[id].(blocks := seqs[id].blocks + [got.block])];
        have := have + 1;
        k := k - 1;
      }
      ok := true;
    }

    method PreemptSequence(id: SeqId)
      requires Valid() && id in seqs && Owned(pool.View(), seqs[id].blocks)
      modifies this`seqs, this`running, this`waiting, pool
      ensures Valid() && View() == Preempt(old(View()), id)
    {
      hide Owned, ReleaseAll, Without, NoDup, AllHeld, PoolOk, BlockPool.Threaded;
      OwnedParts(pool.View(), seqs[id].blocks);
      pool.FreeAll(seqs[id].blocks);
      seqs := seqs[id := ResetForRecompute(seqs[id])];
      running := Without(running, id);
      waiting := [id] + waiting;
    }

    // ---------------------------------------------------------- batch building

    /** The tokens, positions and slots of one row, pushed one by one. */
    method AppendRow(b: Batch, s: Sequence, q: nat) returns (c: Batch)
      requires cfg.blockSize > 0 && s.computed + q <= |s.tokens| && BlocksFor(cfg.blockSize, s.computed + q) <= |s.blocks|
      ensures c == b.(tokens := b.tokens + s.tokens[s.computed..s.computed + q],
                      positions := b.positions + Positions(s.computed, q),
                      slots := b.slots + Slots(cfg.blockSize, s.blocks, s.computed, q))
    {
      var start, bs := s.computed, cfg.blockSize;
      var tokens, positions, slots := b.tokens, b.positions, b.slots;
      hide Slots, Slot, BlocksFor;
      for i := start to start + q
        invariant tokens == b.tokens + s.tokens[start..i]
        invariant positions == b.positions + Positions(start, i - start)
        invariant slots == b.slots + Slots(bs, s.blocks, start, i - start)
      {
        BlocksForCovers(bs, start + q, i);
        SlotSpelled(bs, s.blocks, i);
        assert s.tokens[start..i + 1] == s.tokens[start..i] + [s.tokens[i]];
        assert Positions(start, i + 1 - start) == Positions(start, i - start) + [i];
        SlotsGrow(bs, s.blocks, start, i - start);
        var block := s.blocks[i / bs];
        tokens := tokens + [s.tokens[i]];
        positions := positions + [i];
        slots := slots + [block * bs + i % bs];
      }
      c := b.(tokens := tokens, positions := positions, slots := slots);
    }

    /** `push_seq_into_batch`. */
    method PushSequence(id: SeqId, q: nat, plan: Plan) returns (out: Plan)
      requires cfg.blockSize > 0 && id in seqs && q > 0 && seqs[id].computed + q <= |seqs[id].tokens|
      requires BlocksFor(cfg.blockSize, seqs[id].computed + q) <= |seqs[id].blocks|
      ensures out == PushSeq(cfg, View(), id, q, plan)
    {
      hide Slots, BlocksFor;
      var s := seqs[id];
      var start := s.computed;
      var b := plan.batch;
      if b.cuQ == [] {
        b := b.(cuQ := b.cuQ + [0], cuK := b.cuK + [0]);
      }
      b := AppendRow(b, s, q);
      var completes := start + q >= |s.tokens|;
      out := plan.(
        batch := b.(
          cuQ := b.cuQ + [LastOr0(b.cuQ) + q],
          cuK := b.cuK + [LastOr0(b.cuK) + start + q],
          tables := b.tables + [s.blocks],
          logits := if completes then b.logits + [|b.tokens| - 1] else b.logits),
        batchSeqs := plan.batchSeqs + [id],
        sampledSeqs := if completes then plan.sampledSeqs + [id] else plan.sampledSeqs);
    }

    // --------------------------------------------------------------- schedule

    /** `schedule_decodes`: one token for every running sequence past its prefill, while budget and blocks last. */
    method ScheduleDecodePass(plan0: Plan, budget0: nat) returns (plan: Plan, budget: nat)
      requires Valid() && WorkOk(cfg, Work(View(), plan0, budget0)) && plan0.batchSeqs == []
      modifies this`seqs, this`running, this`waiting, pool
      ensures Valid() && Work(View(), plan, budget) == ScheduleDecodes(cfg, Work(old(View()), plan0, budget0))
    {
      hide WorkOk, DecodeLoop, PoolOk, BlockPool.Threaded, Decoded, DecodeOne;
      plan, budget := plan0, budget0;
      var ids := running;
      running := [];
      var survivors: seq<SeqId> := [];
      ghost var first := Work(View(), plan, budget);
      assert WithRunning(first, [] + ids) == Work(old(View()), plan0, budget0);
      assert ids[0..] == ids;
      for i := 0 to |ids|
        invariant Valid() && running == []
        invariant WorkOk(cfg, WithRunning(Work(View(), plan, budget), survivors + ids[i..]))
        invariant forall id :: id in plan.batchSeqs ==> id in survivors
        invariant DecodeLoop(cfg, Work(View(), plan, budget), ids[i..], survivors) == DecodeLoop(cfg, first, ids, [])
      {
        ghost var here := Work(View(), plan, budget);
        ghost var rest := ids[i..];
        assert rest[0] == ids[i] && rest[1..] == ids[i + 1..];
        DecodeTurn(cfg, here, rest, survivors);
        DecodeLoopUnfold(cfg, here, rest, survivors);
        var keep: bool;
        plan, budget, keep := DecodeTurnOf(ids[i], plan, budget, survivors, rest);
        if keep {
          survivors := survivors + [ids[i]];
        }
      }
      assert ids[|ids|..] == [];
      DecodeLoopUnfold(cfg, Work(View(), plan, budget), [], survivors);
      running := survivors;
    }

    method DecodeTurnOf(id: SeqId, plan0: Plan, budget0: nat, ghost survivors: seq<SeqId>, ghost rest: seq<SeqId>)
        returns (plan: Plan, budget: nat, keep: bool)
      requires Valid() && running == [] && rest != [] && rest[0] == id
      requires WorkOk(cfg, WithRunning(Work(View(), plan0, budget0), survivors + rest))
      modifies this`seqs, this`running, this`waiting, pool
      ensures Valid() && running == [] && (Work(View(), plan, budget), keep) == DecodeOne(cfg, Work(old(View()), plan0, budget0), id)
    {
      hide WorkOk, Owned, TryExtend, Preempt, PushSeq, DecodeOne, PoolOk, BlockPool.Threaded, BlocksFor, RemainingPrefill, WithRunning;
      plan, budget := plan0, budget0;
      ghost var here := Work(View(), plan0, budget0);
      TurnFacts(cfg, here, survivors, rest);
      DecodeUnfold(cfg, here, id);
      var s := seqs[id];
      if NeedsPrefill(s) || budget == 0 {
        return plan, budget, true;
      }
      var ok := TryExtendSequence(id, 1);
      if ok {
        plan := PushSequence(id, 1, plan);
        budget := budget - 1;
        keep := true;
      } else {
        NoneRunning(View(), id);
        PreemptSequence(id);
        plan := plan.(preempted := plan.preempted + [id]);
        keep := false;
      }
    }

    /** `prefill_chunk`. */
    method PrefillChunkOf(id: SeqId, plan0: Plan, budget0: nat) returns (plan: Plan, budget: nat)
      requires Valid() && id in seqs && Owned(pool.View(), seqs[id].blocks) && seqs[id].target <= |seqs[id].tokens|
      modifies this`seqs, this`running, this`waiting, pool
      ensures Valid() && Work(View(), plan, budget) == PrefillChunk(cfg, Work(old(View()), plan0, budget0), id)
    {
      plan, budget := plan0, budget0;
      var q := Min(Min(RemainingPrefill(seqs[id]), cfg.chunk), budget);
      hide Owned, TryExtend, Preempt, PushSeq, ExtendBy;
      if q == 0 {
        return;
      }
      var ok := TryExtendSequence(id, q);
      if !ok {
        PreemptSequence(id);
        plan := plan.(preempted := plan.preempted + [id]);
        return;
      }
      plan := PushSequence(id, q, plan);
      budget := budget - q;
    }

    /** Running sequences still prefilling go on first. */
    method ContinuePrefills(plan0: Plan, budget0: nat) returns (plan: Plan, budget: nat)
      requires Valid() && WorkOk(cfg, Work(View(), plan0, budget0)) && OnlyDecodes(seqs, plan0)
      modifies this`seqs, this`running, this`waiting, pool
      ensures Valid() && Work(View(), plan, budget) == ContinueLoop(cfg, Work(old(View()), plan0, budget0), old(running))
      ensures WorkOk(cfg, Work(View(), plan, budget)) && View() == old(View())
    {
      plan, budget := plan0, budget0;
      var ids := running;
      ghost var first := Work(View(), plan, budget);
      OnlyDecodesIs(seqs, plan);
      WorkNoDup(cfg, first);
      assert ids[0..] == ids;
      hide WorkOk, PrefillChunk, NoDup, OnlyDecodes, ContinueLoop, Owned;
      var i := 0;
      while i < |ids|
        invariant 0 <= i <= |ids| && Valid() && WorkOk(cfg, Work(View(), plan, budget)) && View() == old(View())
        invariant forall id :: id in ids[i..] && id in seqs && NeedsPrefill(seqs[id]) ==> id !in plan.batchSeqs
        invariant ContinueLoop(cfg, Work(View(), plan, budget), ids[i..]) == ContinueLoop(cfg, first, ids)
      {
        ghost var here := Work(View(), plan, budget);
        ghost var rest := ids[i..];
        assert rest[0] == ids[i] && rest[1..] == ids[i + 1..];
        ContinueLoopUnfold(cfg, here, rest);
        if budget == 0 {
          return;
        }
        var id := ids[i];
        RestOf(ids, i);
        RunningFacts(cfg, here, id);
        if NeedsPrefill(seqs[id]) {
          StartedChunkFits(cfg, here, id);
          ChunkedRest(cfg, here, id, PrefillChunk(cfg, here, id), ids[i + 1..]);
          ChunkedKeeps(cfg, here, id, PrefillChunk(cfg, here, id));
          plan, budget := PrefillChunkOf(id, plan, budget);
        }
        i := i + 1;
      }
      assert ids[i..] == [];
      ContinueLoopUnfold(cfg, Work(View(), plan, budget), []);
    }

    // ------------------------------------------------------------- starting

    /** The cached prefix, less what has to be recomputed to have something to sample from. */
    method MatchCachedPrefix(s: Sequence) returns (matched: seq<BlockId>)
      requires Valid() && NoDup(Addresses(cfg, s.tenant, s.tokens, s.target))
      modifies pool
      ensures Valid() && (pool.View(), matched) == MatchPhase(cfg, old(pool.View()), s) && Owned(pool.View(), matched)
    {
      hide PoolOk, BlockPool.Threaded, MatchPrefix, NoDup, AllHeld, Addresses, Release;
      if !cfg.prefixCache {
        NothingOwned(pool.View());
        return [];
      }
      var hashes := Addresses(cfg, s.tenant, s.tokens, s.target);
      MatchOwned(pool.View(), hashes);
      matched := pool.MatchCached(hashes);
      ghost var p, got := pool.View(), matched;
      while |matched| * cfg.blockSize >= s.target && matched != []
        invariant Valid() && Owned(pool.View(), matched) && GiveBack(pool.View(), matched, s.target) == GiveBack(p, got, s.target)
        decreases |matched|
      {
        var last := matched[|matched| - 1];
        OwnedLast(pool.View(), matched);
        matched := matched[..|matched| - 1];
        pool.Free(last);
      }
    }

    /** Blocks for the rest of the text and one token more; the reserve is not touched. */
    method AllocateRest(matched: seq<BlockId>, missing: nat) returns (blocks: seq<BlockId>, ok: bool)
      requires Valid() && Owned(pool.View(), matched)
      modifies pool
      ensures Valid() && (pool.View(), blocks, ok) == AllocateMany(old(pool.View()), matched, missing) && Owned(pool.View(), blocks)
    {
      hide PoolOk, BlockPool.Threaded, Owned, Allocate;
      ghost var p := pool.View();
      blocks := matched;
      var left := missing;
      while left > 0
        invariant Valid() && Owned(pool.View(), blocks) && AllocateMany(pool.View(), blocks, left) == AllocateMany(p, matched, missing)
      {
        AllocateOwned(pool.View(), blocks);
        var got := pool.AllocateBlock();
        if got.Refused? {
          return blocks, false;
        }
        blocks := blocks + [got.block];
        left := left - 1;
      }
      ok := true;
    }

    /** `try_start`. */
    method TryStartSequence(id: SeqId) returns (ok: bool)
      requires Valid() && id in seqs && NoDup(Addresses(cfg, seqs[id].tenant, seqs[id].tokens, seqs[id].target))
      modifies this`seqs, pool
      ensures Valid() && (View(), ok) == TryStart(cfg, old(View()), id)
    {
      hide PoolOk, BlockPool.Threaded, Owned, MatchPhase, AllocateMany, ReleaseAll, NoDup, AllHeld, TryStart, BlocksFor, Addresses;
      ghost var before := View();
      TryStartPhases(cfg, before, id);
      var s := seqs[id];
      var matched := MatchCachedPrefix(s);
      ghost var m := pool.View();
      OwnedParts(m, matched);
      var total := BlocksFor(cfg.blockSize, s.target + 1);
      var missing := if total > |matched| then total - |matched| else 0;
      var room := pool.CanAllocateBlocks(missing);
      if !room {
        pool.FreeAll(matched);
        return false;
      }
      var blocks, enough := AllocateRest(matched, missing);
      if !enough {
        OwnedParts(pool.View(), blocks);
        pool.FreeAll(blocks);
        return false;
      }
      seqs := seqs[id := AdoptCachedPrefix(s, matched, |matched| * cfg.blockSize).(blocks := blocks, status := Prefilling)];
      ok := true;
    }

    /** One turn of the start loop. The queue holds neither finished nor unknown ids, so its head can be tried. */
    method StartHead(plan0: Plan, budget0: nat) returns (plan: Plan, budget: nat, more: bool)
      requires Valid() && WorkOk(cfg, Work(View(), plan0, budget0)) && CanTryStart(cfg, Work(View(), plan0, budget0)) && waiting != []
      modifies this`seqs, this`running, this`waiting, pool
      ensures Valid() && (Work(View(), plan, budget), more) == StartOne(cfg, Work(old(View()), plan0, budget0))
    {
      hide PoolOk, BlockPool.Threaded, WorkOk, CanTryStart, TryStart, PrefillChunk, Owned, NoDup, Addresses, JustStarted, StartOne;
      ghost var here := Work(View(), plan0, budget0);
      HeadToStart(cfg, here);
      plan, budget := plan0, budget0;
      var id := waiting[0];
      var ok := TryStartSequence(id);
      if !ok {
        more := false;
        return;
      }
      ghost var t := View();
      waiting := waiting[1..];
      running := running + [id];
      plan := plan.(started := plan.started + [(id, seqs[id].cachedTokens)]);
      HeadStarted(cfg, here, t, Work(View(), plan, budget));
      plan, budget := PrefillChunkOf(id, plan, budget);
      more := true;
    }

    /** Admit from the queue, in order, while budget, places and blocks last. */
    method StartWaiting(plan0: Plan, budget0: nat) returns (plan: Plan, budget: nat)
      requires Valid() && WorkOk(cfg, Work(View(), plan0, budget0))
      modifies this`seqs, this`running, this`waiting, pool
      ensures Valid() && Work(View(), plan, budget) == StartLoop(cfg, Work(old(View()), plan0, budget0)) && WorkOk(cfg, Work(View(), plan, budget))
    {
      hide PoolOk, BlockPool.Threaded, WorkOk, StartLoop, StartOne, StartTurn, CanTryStart;
      plan, budget := plan0, budget0;
      ghost var first := Work(View(), plan, budget);
      while budget > 0 && |running| < cfg.maxSeqs && waiting != []
        invariant Valid() && WorkOk(cfg, Work(View(), plan, budget)) && StartLoop(cfg, Work(View(), plan, budget)) == StartLoop(cfg, first)
        decreases |waiting|
      {
        ghost var here := Work(View(), plan, budget);
        CanTryStartIs(cfg, here);
        StartLoopUnfold(cfg, here);
        StartOneOk(cfg, here);
        var more: bool;
        plan, budget, more := StartHead(plan, budget);
        TurnPops(cfg, here, Work(View(), plan, budget), more);
        if !more {
          return;
        }
      }
      CanTryStartIs(cfg, Work(View(), plan, budget));
      StartLoopUnfold(cfg, Work(View(), plan, budget));
    }

    /** `schedule`. */
    method ScheduleStep() returns (plan: Plan)
      requires Ready()
      modifies this`seqs, this`running, this`waiting, pool
      ensures Ready() && (View(), plan) == Schedule(cfg, old(View()))
    {
      hide PoolOk, BlockPool.Threaded, WorkOk, StartLoop, ContinueLoop, M.ScheduleDecodes, Round, OnlyDecodes, AfterDecodes, M.Schedule;
      ghost var st := View();
      StartWork(cfg, st);
      ScheduleUnfold(cfg, st);
      ScheduleDecodesOk(cfg, Work(st, EmptyPlan, cfg.maxBatched));
      AfterDecodesFresh(cfg, st);
      ScheduleOk(cfg, st);
      var budget: nat;
      plan, budget := ScheduleDecodePass(EmptyPlan, cfg.maxBatched);
      plan, budget := ContinuePrefills(plan, budget);
      plan, budget := StartWaiting(plan, budget);
    }

    // ----------------------------------------------------------------- commit

    /** Every sequence in the batch advances by what it contributed. */
    method AdvanceAll(plan: Plan)
      requires Valid()
      modifies this`seqs
      ensures Valid() && View() == AdvanceLoop(old(View()), plan, 0)
    {
      hide PoolOk, BlockPool.Threaded, Advanced, RowLen;
      ghost var before := View();
      for i := 0 to |plan.batchSeqs|
        invariant Valid() && AdvanceLoop(View(), plan, i) == AdvanceLoop(before, plan, 0)
      {
        var id := plan.batchSeqs[i];
        if id in seqs {
          seqs := seqs[id := Advanced(seqs[id], RowLen(plan.batch, i))];
        }
      }
    }

    method AppendToken(id: SeqId, token: u32)
      requires Valid() && Core(cfg, View())
      modifies this, pool
      ensures Valid() && View() == AppendOne(cfg, old(View()), id, token)
    {
      hide PoolOk, BlockPool.Threaded, Core, Finish, CheckFinished, Owned;
      if id !in seqs {
        return;
      }
      CoreOwned(cfg, View(), id);
      var s := PushToken(seqs[id], token);
      seqs := seqs[id := s];
      var done := CheckFinished(s, cfg.eos, cfg.maxContext);
      if done.Some? {
        FinishSequence(id, done.value);
      }
    }

    /** Append the sampled tokens and retire what finished. */
    method AppendAll(ids: seq<SeqId>, sampled: seq<u32>)
      requires Valid() && Core(cfg, View())
      modifies this, pool
      ensures Valid() && Core(cfg, View()) && View() == AppendLoop(cfg, old(View()), ids, sampled)
    {
      hide PoolOk, BlockPool.Threaded, Core, AppendOne;
      ghost var before := View();
      assert ids[0..] == ids && sampled[0..] == sampled;
      var i := 0;
      while i < |ids| && i < |sampled|
        invariant 0 <= i <= |ids| && i <= |sampled| && Valid() && Core(cfg, View())
        invariant AppendLoop(cfg, View(), ids[i..], sampled[i..]) == AppendLoop(cfg, before, ids, sampled)
      {
        assert ids[i..][0] == ids[i] && ids[i..][1..] == ids[i + 1..] && sampled[i..][0] == sampled[i] && sampled[i..][1..] == sampled[i + 1..];
        AppendOneCore(cfg, View(), ids[i], sampled[i]);
        AppendToken(ids[i], sampled[i]);
        i := i + 1;
      }
    }

    /** Publish the newly filled blocks of one sequence, remembering which have a canonical twin. */
    method PublishBlocks(s: Sequence, full: nat) returns (swaps: seq<(nat, BlockId, BlockId)>)
      requires Valid() && Owned(pool.View(), s.blocks)
      modifies pool
      ensures Valid() && (pool.View(), swaps) == PublishRange(cfg, old(pool.View()), s, s.cachedBlocks, full, [])
      ensures Owned(pool.View(), s.blocks) && SwapsOf(s.blocks, swaps)
    {
      hide PoolOk, BlockPool.Threaded, Owned, Publish;
      ghost var p := pool.View();
      swaps := [];
      var i := s.cachedBlocks;
      while i < full
        invariant Valid() && Owned(pool.View(), s.blocks) && SwapsOf(s.blocks, swaps) && (forall k :: 0 <= k < |swaps| ==> swaps[k].0 < i)
        invariant PublishRange(cfg, pool.View(), s, i, full, swaps) == PublishRange(cfg, p, s, s.cachedBlocks, full, [])
        decreases full - i
      {
        if i < |s.blocks| {
          var block := s.blocks[i];
          var hash := cfg.hash(s.tenant, Upto(s.tokens, BlockEnd(i, cfg.blockSize)));
          OwnedPublish(pool.View(), s.blocks, i, hash);
          var canonical := pool.PublishBlock(block, hash);
          if canonical != block {
            swaps := swaps + [(i, block, canonical)];
          }
        }
        i := i + 1;
      }
    }

    /** Adopt the canonical blocks and give ours back. */
    method ApplyAll(blocks0: seq<BlockId>, swaps: seq<(nat, BlockId, BlockId)>) returns (blocks: seq<BlockId>)
      requires Valid() && Owned(pool.View(), blocks0) && SwapsOf(blocks0, swaps)
      modifies pool
      ensures Valid() && (pool.View(), blocks) == ApplySwaps(old(pool.View()), blocks0, swaps)
    {
      hide PoolOk, BlockPool.Threaded, Release;
      ghost var p := pool.View();
      blocks := blocks0;
      SwapsOwned(pool.View(), blocks0, swaps);
      assert swaps[0..] == swaps;
      hide Owned, SwapsOf;
      for j := 0 to |swaps|
        invariant Valid() && |blocks| == |blocks0| && OursHeld(pool.View(), swaps[j..], |blocks0|)
        invariant ApplySwaps(pool.View(), blocks, swaps[j..]) == ApplySwaps(p, blocks0, swaps)
      {
        assert swaps[j..][0] == swaps[j] && swaps[j..][1..] == swaps[j + 1..];
        var (i, ours, canonical) := swaps[j];
        OursStep(pool.View(), swaps[j..], |blocks0|);
        blocks := blocks[i := canonical];
        pool.Free(ours);
      }
      assert swaps[|swaps|..] == [];
    }

    method PublishSequence(id: SeqId)
      requires Valid() && Core(cfg, View())
      modifies this`seqs, pool
      ensures Valid() && View() == PublishOne(cfg, old(View()), id)
    {
      hide PoolOk, BlockPool.Threaded, Core, Owned, SwapsOf, PublishRange, ApplySwaps;
      if id !in seqs {
        return;
      }
      var s := seqs[id];
      var full := s.computed / cfg.blockSize;
      if full <= s.cachedBlocks {
        return;
      }
      CoreOwned(cfg, View(), id);
      var swaps := PublishBlocks(s, full);
      var blocks := ApplyAll(s.blocks, swaps);
      seqs := seqs[id := s.(cachedBlocks := full, blocks := blocks)];
    }

    /** `publish_full_blocks`. */
    method PublishAll(ids: seq<SeqId>)
      requires Valid() && Core(cfg, View()) && cfg.prefixCache
      modifies this`seqs, pool
      ensures Valid() && View() == PublishLoop(cfg, old(View()), ids)
    {
      hide PoolOk, BlockPool.Threaded, Core, PublishOne;
      ghost var before := View();
      assert ids[0..] == ids;
      for i := 0 to |ids|
        invariant Valid() && Core(cfg, View()) && PublishLoop(cfg, View(), ids[i..]) == PublishLoop(cfg, before, ids)
      {
        assert ids[i..][0] == ids[i] && ids[i..][1..] == ids[i + 1..];
        PublishOneCore(cfg, View(), ids[i]);
        PublishSequence(ids[i]);
      }
      assert ids[|ids|..] == [];
    }

    /** `commit`: progress, sampled tokens, publication; back between two rounds. */
    method CommitStep(plan: Plan, sampled: seq<u32>)
      requires Ready() && InFlight(cfg, View(), plan) && |sampled| == |plan.sampledSeqs|
      modifies this, pool
      ensures Ready() && View() == Commit(cfg, old(View()), plan, sampled)
    {
      hide PoolOk, BlockPool.Threaded, Round, Core, InFlight, AdvanceLoop, AppendLoop, PublishLoop, AllCanAdvance, M.Commit;
      ghost var st := View();
      RoundParts(cfg, st);
      CommitOk(cfg, st, plan, sampled);
      CommitUnfold(cfg, st, plan, sampled);
      FlyingAdvances(cfg, st, plan);
      AdvanceLoopCore(cfg, st, plan, 0);
      AdvanceAll(plan);
      AppendAll(plan.sampledSeqs, sampled);
      if cfg.prefixCache {
        PublishAll(plan.batchSeqs);
      }
    }

    // ------------------------------------------------------------------- fork

    method ShareAll(blocks: seq<BlockId>)
      requires Valid() && AllHeld(pool.View(), blocks)
      modifies pool
      ensures Valid() && pool.View() == IncRefAll(old(pool.View()), blocks)
    {
      hide PoolOk, BlockPool.Threaded;
      ghost var p := pool.View();
      assert blocks[0..] == blocks;
      for i := 0 to |blocks|
        invariant Valid() && AllHeld(pool.View(), blocks) && IncRefAll(pool.View(), blocks[i..]) == IncRefAll(p, blocks)
      {
        assert blocks[i..][0] == blocks[i] && blocks[i..][1..] == blocks[i + 1..] && blocks[i] in blocks;
        pool.Share(blocks[i]);
      }
      assert blocks[|blocks|..] == [];
    }

    /** One more sequence sharing the parent's full blocks, with a private block after them. */
    method ForkOne(s: Sequence, out: Fork) returns (fork: Fork, error: Option<ForkError>)
      requires Valid() && AllHeld(pool.View(), Shared(cfg, s))
      modifies this, pool
      ensures Valid()
      ensures (View(), fork, error) == ForkLoop(cfg, old(View()), s, 1, out)
      ensures error.None? ==> AllHeld(pool.View(), Shared(cfg, s))
    {
      hide PoolOk, BlockPool.Threaded, AllHeld, IncRefAll, AllocateGuarded;
      var full := s.computed / cfg.blockSize;
      var shared := Upto(s.blocks, full);
      fork := out;
      ForkHeld(pool.View(), shared);
      ForkOnceIs(cfg, View(), s, out);
      hide ForkLoop;
      ShareAll(shared);
      var blocks, copies := shared, out.copies;
      if |s.blocks| > full {
        var got := pool.AllocateGuardedBlock();
        if got.Refused? {
          return fork, Some(NoBlocks);
        }
        if s.computed % cfg.blockSize != 0 {
          copies := copies + [(s.blocks[full], got.block)];
        }
        blocks := blocks + [got.block];
      }
      var id := nextId;
      nextId := nextId + 1;
      seqs := seqs[id := AdoptPrefilled(NewSequence(s.request, Upto(s.tokens, s.promptLen), s.params, s.tenant), blocks, s.computed, s.cachedBlocks)];
      byRequest := byRequest[s.request := Listed(byRequest, s.request) + [id]];
      running := running + [id];
      fork := Fork(out.ids + [id], copies);
      error := None;
    }

    /** `fork`. An error leaves the references already taken for the failed child behind, as the program does. */
    method ForkSequence(parent: SeqId, extra: nat) returns (fork: Fork, error: Option<ForkError>)
      requires Valid() && (parent in seqs ==> Owned(pool.View(), seqs[parent].blocks))
      modifies this, pool
      ensures Valid() && (View(), fork, error) == ForkSeq(cfg, old(View()), parent, extra)
    {
      hide PoolOk, BlockPool.Threaded, AllHeld, IncRefAll, AllocateGuarded, ForkLoop;
      fork := Fork([], []);
      if parent !in seqs {
        return fork, Some(NoSuchSequence);
      }
      var s := seqs[parent];
      if NeedsPrefill(s) {
        return fork, Some(NotPrefilled);
      }
      ghost var before := View();
      SharedOwned(cfg, pool.View(), s);
      var left := extra;
      while left > 0
        invariant Valid() && AllHeld(pool.View(), Shared(cfg, s))
        invariant ForkLoop(cfg, View(), s, left, fork) == ForkLoop(cfg, before, s, extra, Fork([], []))
      {
        ForkSplits(cfg, View(), s, left, fork);
        fork, error := ForkOne(s, fork);
        if error.Some? {
          return;
        }
        left := left - 1;
      }
      ForkDone(cfg, View(), s, fork);
      error := None;
    }

    /** `seed_fork`. */
    method SeedForked(id: SeqId, token: u32) returns (error: Option<ForkError>)
      requires Valid()
      modifies this`seqs, pool
      ensures Valid() && (View(), error) == SeedFork(cfg, old(View()), id, token)
    {
      hide PoolOk, BlockPool.Threaded, AllocateGuarded, BlocksFor;
      if id !in seqs {
        return Some(NoSuchSequence);
      }
      seqs := seqs[id := PushToken(seqs[id], token)];
      var need := BlocksFor(cfg.blockSize, seqs[id].computed + 1);
      var have := |seqs[id].blocks|;
      ghost var before := View();
      ghost var k := if need > have then need - have else 0;
      while have < need
        invariant Valid() && id in seqs && k == if need > have then need - have else 0
        invariant ExtendGuarded(View(), id, k) == ExtendGuarded(before, id, if need > |before.seqs[id].blocks| then need - |before.seqs[id].blocks| else 0)
        decreases need - have
      {
        GuardedMiss(pool.View());
        var got := pool.AllocateGuardedBlock();
        if got.Refused? {
          return Some(NoBlocks);
        }
        seqs := seqs[id := seqs[id].(blocks := seqs[id].blocks + [got.block])];
        have := have + 1;
        k := k - 1;
      }
      error := None;
    }
  }

  // ------------------------------------------------------------------- lemmas

  lemma SlotSpelled(blockSize: nat, blocks: seq<BlockId>, p: nat)
    requires blockSize > 0 && p / blockSize < |blocks|
    ensures Slot(blockSize, blocks, p) == blocks[p / blockSize] * blockSize + p % blockSize
  {}

  lemma SlotsGrow(blockSize: nat, blocks: seq<BlockId>, start: nat, q: nat)
    requires blockSize > 0
    ensures Slots(blockSize, blocks, start, q + 1) == Slots(blockSize, blocks, start, q) + [Slot(blockSize, blocks, start + q)]
  {}

  lemma TurnFacts(cfg: Config, w: Work, survivors: seq<SeqId>, rest: seq<SeqId>)
    requires cfg.blockSize > 0 && rest != [] && WorkOk(cfg, WithRunning(w, survivors + rest))
    ensures rest[0] in w.st.seqs && !IsFinished(w.st.seqs[rest[0]]) && Owned(w.st.pool, w.st.seqs[rest[0]].blocks)
    ensures !NeedsPrefill(w.st.seqs[rest[0]]) ==> w.st.seqs[rest[0]].computed + 1 == |w.st.seqs[rest[0]].tokens|
  {
    var full := WithRunning(w, survivors + rest);
    assert rest[0] in survivors + rest;
    assert full.st.pool == w.st.pool && full.st.seqs == w.st.seqs && full.st.running == survivors + rest;
    hide *;
    WorkParts(cfg, full);
    ActiveFacts(cfg, full.st, rest[0]);
    CoreOwned(cfg, full.st, rest[0]);
  }

  /** Nothing is taken out of an empty queue. */
  lemma NoneRunning(st: Sched, id: SeqId)
    requires st.running == [] && id in st.seqs
    ensures Preempt(st, id).running == []
  {}

  lemma WorkNoDup(cfg: Config, w: Work)
    requires WorkOk(cfg, w)
    ensures NoDup(w.st.running)
  {
    WorkParts(cfg, w);
    WaitingNoDup(cfg, w.st);
  }

  lemma RestOf(ids: seq<SeqId>, i: nat)
    requires NoDup(ids) && i < |ids|
    ensures ids[i] in ids && ids[i] in ids[i..] && ids[i] !in ids[i + 1..] && forall id :: id in ids[i + 1..] ==> id in ids[i..] && id in ids
  {
    assert ids[i..] == [ids[i]] + ids[i + 1..];
  }

  lemma RunningFacts(cfg: Config, w: Work, id: SeqId)
    requires WorkOk(cfg, w) && cfg.blockSize > 0 && id in w.st.running
    ensures id in w.st.seqs && IsActive(w.st.seqs[id]) && !IsFinished(w.st.seqs[id]) && Owned(w.st.pool, w.st.seqs[id].blocks) && w.st.seqs[id].target <= |w.st.seqs[id].tokens|
  {
    hide *;
    WorkParts(cfg, w);
    ActiveFacts(cfg, w.st, id);
    CoreOwned(cfg, w.st, id);
    CoreParts(cfg, w.st);
    TargetWithin(cfg, w.st.seqs[id]);
  }

  lemma TargetWithin(cfg: Config, s: Sequence)
    requires cfg.blockSize > 0 && BasicOk(cfg, s)
    ensures s.target <= |s.tokens|
  {}

  lemma NothingOwned(p: Pool)
    ensures Owned(p, [])
  {}

  lemma MatchOwned(p: Pool, hashes: seq<BlockHash>)
    requires PoolOk(p) && NoDup(hashes)
    ensures Owned(MatchPrefix(p, hashes).0, MatchPrefix(p, hashes).1)
  {
    MatchPrefixRefs(p, hashes);
    MatchPrefixOk(p, hashes);
    var (q, got) := MatchPrefix(p, hashes);
    SizesOk(q);
    hide MatchPrefix, PoolOk;
    forall b | b in got ensures Held(q, b) {
      var i :| 0 <= i < |got| && got[i] == b;
      assert got[i] < |p.hashOf|;
    }
  }

  lemma OwnedLast(p: Pool, blocks: seq<BlockId>)
    requires Owned(p, blocks) && blocks != []
    ensures var last := blocks[|blocks| - 1];
      Held(p, last) && Owned(Release(p, last), blocks[..|blocks| - 1])
  {
    var last, rest := blocks[|blocks| - 1], blocks[..|blocks| - 1];
    assert last in blocks;
    forall b | b in rest ensures Held(Release(p, last), b) {
      assert b in blocks && b != last;
    }
  }

  /** The head of the queue: known, waiting, without blocks, its addresses distinct. */
  lemma HeadToStart(cfg: Config, w: Work)
    requires WorkOk(cfg, w) && CanTryStart(cfg, w) && cfg.blockSize > 0 && w.st.waiting != []
    ensures var id := w.st.waiting[0];
      id in w.st.seqs && NoDup(Addresses(cfg, w.st.seqs[id].tenant, w.st.seqs[id].tokens, w.st.seqs[id].target))
      && (TryStart(cfg, w.st, id).1 ==> id in TryStart(cfg, w.st, id).0.seqs)
      && (!TryStart(cfg, w.st, id).1 ==> StartOne(cfg, w) == (w.(st := TryStart(cfg, w.st, id).0), false))
  {
    hide *;
    WorkParts(cfg, w);
    var id := w.st.waiting[0];
    RunningIs(cfg, w.st, id);
    NotBoth(w.st.seqs[id]);
    CoreParts(cfg, w.st);
    WaitingFacts(cfg, w.st.seqs[id]);
    AddressesDistinct(cfg, w.st.seqs[id].tenant, w.st.seqs[id].tokens, w.st.seqs[id].target);
    WithoutHead(w.st.waiting);
    TryStartCore(cfg, w.st, id);
    OutcomeShape(cfg, w.st, id, TryStart(cfg, w.st, id).0, TryStart(cfg, w.st, id).1);
    StartOneUnfold(cfg, w);
  }

  /** The head, started: what its first chunk needs, and that the turn goes on. */
  lemma HeadStarted(cfg: Config, w: Work, t: Sched, u: Work)
    requires WorkOk(cfg, w) && CanTryStart(cfg, w) && cfg.blockSize > 0 && w.st.waiting != []
    requires TryStart(cfg, w.st, w.st.waiting[0]) == (t, true) && w.st.waiting[0] in t.seqs
    requires u.st == t.(waiting := t.waiting[1..], running := t.running + [w.st.waiting[0]]) && u.budget == w.budget
    requires t.waiting != [] && u.plan == w.plan.(started := w.plan.started + [(w.st.waiting[0], t.seqs[w.st.waiting[0]].cachedTokens)])
    ensures var id := w.st.waiting[0];
      id in u.st.seqs && Owned(u.st.pool, u.st.seqs[id].blocks) && u.st.seqs[id].target <= |u.st.seqs[id].tokens|
      && StartOne(cfg, w) == (PrefillChunk(cfg, u, id), true)
  {
    hide *;
    WorkParts(cfg, w);
    var id := w.st.waiting[0];
    RunningIs(cfg, w.st, id);
    NotBoth(w.st.seqs[id]);
    WithoutHead(w.st.waiting);
    TryStartCore(cfg, w.st, id);
    OutcomeShape(cfg, w.st, id, t, true);
    OutcomeParts(cfg, w.st, id, t);
    StartOneUnfold(cfg, w);
    JustStartedOk(cfg, w);
    JustStartedIs(cfg, w, t);
    var v := JustStarted(cfg, w);
    AfterStartFull(w.st, id, t);
    assert v == u;
    assert id in u.st.running;
    StartedChunkFits(cfg, u, id);
    ChunkedKeeps(cfg, u, id, PrefillChunk(cfg, u, id));
    RunningFacts(cfg, u, id);
  }

  lemma AfterStartFull(st: Sched, id: SeqId, t: Sched)
    requires t == st.(pool := t.pool, seqs := t.seqs)
    ensures AfterStart(st, id, t, true) == t.(waiting := Without(st.waiting, id), running := t.running + [id])
  {}

  /** A turn that goes on has taken the head off the queue. */
  lemma TurnPops(cfg: Config, w: Work, v: Work, more: bool)
    requires cfg.blockSize > 0 && StartTurn(cfg, w, v, more)
    ensures more ==> |v.st.waiting| < |w.st.waiting|
  {}

  // -------------------------------------------------------------------- swaps

  /** Swaps of distinct positions of one list, each naming the block that was there. */
  ghost predicate SwapsOf(blocks: seq<BlockId>, swaps: seq<(nat, BlockId, BlockId)>) {
    (forall k :: 0 <= k < |swaps| ==> swaps[k].0 < |blocks| && swaps[k].1 == blocks[swaps[k].0])
    && forall k, l :: 0 <= k < l < |swaps| ==> swaps[k].0 < swaps[l].0
  }

  /** The blocks still to be given back are held, and distinct. */
  ghost predicate OursHeld(p: Pool, swaps: seq<(nat, BlockId, BlockId)>, n: nat) {
    (forall k :: 0 <= k < |swaps| ==> swaps[k].0 < n && Held(p, swaps[k].1))
    && forall k, l :: 0 <= k < l < |swaps| ==> swaps[k].1 != swaps[l].1
  }

  lemma SwapsOwned(p: Pool, blocks: seq<BlockId>, swaps: seq<(nat, BlockId, BlockId)>)
    requires Owned(p, blocks) && SwapsOf(blocks, swaps)
    ensures OursHeld(p, swaps, |blocks|)
  {
    forall k | 0 <= k < |swaps| ensures Held(p, swaps[k].1) {
      assert swaps[k].1 in blocks;
    }
  }

  lemma OursStep(p: Pool, swaps: seq<(nat, BlockId, BlockId)>, n: nat)
    requires OursHeld(p, swaps, n) && swaps != []
    ensures swaps[0].0 < n && Held(p, swaps[0].1) && OursHeld(Release(p, swaps[0].1), swaps[1..], n)
  {
    var b, rest := swaps[0].1, swaps[1..];
    assert forall k :: 0 <= k < |rest| ==> rest[k] == swaps[k + 1];
    forall k | 0 <= k < |rest| ensures Held(Release(p, b), rest[k].1) {
      assert swaps[0].1 != swaps[k + 1].1;
    }
  }

  /** Publishing takes no reference away. */
  lemma OwnedPublish(p: Pool, blocks: seq<BlockId>, i: nat, h: BlockHash)
    requires PoolOk(p) && Owned(p, blocks) && i < |blocks|
    ensures Held(p, blocks[i]) && Owned(Publish(p, blocks[i], h).0, blocks)
  {
    assert blocks[i] in blocks;
    PublishOk(p, blocks[i], h);
    SizesOk(p);
    SizesOk(Publish(p, blocks[i], h).0);
    hide Publish, PoolOk;
  }

  // ------------------------------------------------------------------- forking

  lemma ForkHeld(p: Pool, shared: seq<BlockId>)
    requires PoolOk(p) && AllHeld(p, shared)
    ensures AllHeld(IncRefAll(p, shared), shared)
    ensures AllocateGuarded(IncRefAll(p, shared)).1.Some? ==> AllHeld(AllocateGuarded(IncRefAll(p, shared)).0, shared)
    ensures AllocateGuarded(IncRefAll(p, shared)).1.None? ==> AllocateGuarded(IncRefAll(p, shared)).0 == IncRefAll(p, shared)
  {
    SharedStaysHeld(p, shared, shared);
    var q := IncRefAll(p, shared);
    hide IncRefAll;
    AllocateOk(q);
    hide PoolOk;
    if AllocateGuarded(q).1.Some? {
      forall b | b in shared ensures Held(AllocateGuarded(q).0, b) {
        assert Held(q, b);
      }
    }
  }

  lemma {:induction false} SharedStaysHeld(p: Pool, blocks: seq<BlockId>, all: seq<BlockId>)
    requires PoolOk(p) && AllHeld(p, all) && forall b :: b in blocks ==> b in all
    ensures AllHeld(IncRefAll(p, blocks), all) && PoolOk(IncRefAll(p, blocks))
    decreases |blocks|
  {
    if blocks != [] {
      assert blocks[0] in blocks;
      IncRefOk(p, blocks[0]);
      hide PoolOk;
      SharedStaysHeld(IncRef(p, blocks[0]), blocks[1..], all);
    }
  }

  /** One turn of `fork`, spelled out. */
  lemma ForkOnceIs(cfg: Config, st: Sched, s: Sequence, out: Fork)
    requires cfg.blockSize > 0
    ensures var full := s.computed / cfg.blockSize;
      var shared := Upto(s.blocks, full);
      var p1 := IncRefAll(st.pool, shared);
      var (p2, got) := if |s.blocks| > full then AllocateGuarded(p1) else (p1, None);
      var id := st.nextId;
      var blocks := if got.Some? then shared + [got.value] else shared;
      var copies := if got.Some? && full < |s.blocks| && s.computed % cfg.blockSize != 0 then out.copies + [(s.blocks[full], got.value)] else out.copies;
      ForkLoop(cfg, st, s, 1, out) ==
        if |s.blocks| > full && got.None? then (st.(pool := p2), out, Some(NoBlocks))
        else (st.(pool := p2, nextId := id + 1,
                  seqs := st.seqs[id := AdoptPrefilled(NewSequence(s.request, Upto(s.tokens, s.promptLen), s.params, s.tenant), blocks, s.computed, s.cachedBlocks)],
                  byRequest := st.byRequest[s.request := Listed(st.byRequest, s.request) + [id]],
                  running := st.running + [id]), Fork(out.ids + [id], copies), None)
  {
    hide IncRefAll, AllocateGuarded;
  }

  /** `extra` turns are one, and then the others if it succeeds. */
  lemma ForkSplits(cfg: Config, st: Sched, s: Sequence, extra: nat, out: Fork)
    requires cfg.blockSize > 0 && extra > 0
    ensures var (t, fork, error) := ForkLoop(cfg, st, s, 1, out);
      ForkLoop(cfg, st, s, extra, out) == if error.Some? then (t, fork, error) else ForkLoop(cfg, t, s, extra - 1, fork)
  {
    hide IncRefAll, AllocateGuarded;
  }

  lemma ForkDone(cfg: Config, st: Sched, s: Sequence, out: Fork)
    requires cfg.blockSize > 0
    ensures ForkLoop(cfg, st, s, 0, out) == (st, out, None)
  {}

  lemma SharedOwned(cfg: Config, p: Pool, s: Sequence)
    requires cfg.blockSize > 0 && Owned(p, s.blocks)
    ensures AllHeld(p, Shared(cfg, s))
  {}

  lemma GuardedMiss(p: Pool)
    requires PoolOk(p)
    ensures AllocateGuarded(p).1.None? ==> AllocateGuarded(p).0 == p
  {
    AllocateOk(p);
  }

  lemma AllocateOwned(p: Pool, blocks: seq<BlockId>)
    requires PoolOk(p) && Owned(p, blocks)
    ensures Allocate(p).1.Some? ==> Owned(Allocate(p).0, blocks + [Allocate(p).1.value])
    ensures Allocate(p).1.None? ==> Allocate(p).0 == p
  {
    AllocateOk(p);
    if Allocate(p).1.Some? {
      OwnedMore(p, blocks);
    }
  }
}
