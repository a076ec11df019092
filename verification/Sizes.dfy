/** No step changes how many blocks there are or how many are held in reserve. */
module Sizes {
  import opened Prelude
  import opened Hashing
  import opened PoolModel
  import opened Sequences
  import opened SchedulerModel
  import opened Scheduling
  import opened ForwardPass

  ghost predicate Sized(p: Pool, q: Pool) {
    q.watermark == p.watermark && |q.refs| == |p.refs|
  }

  lemma AllocateSized(p: Pool)
    ensures Sized(p, Allocate(p).0)
  {}

  lemma {:induction false} ReleaseAllSized(p: Pool, blocks: seq<BlockId>)
    ensures Sized(p, ReleaseAll(p, blocks))
    decreases |blocks|
  {
    if blocks != [] {
      ReleaseAllSized(Release(p, blocks[0]), blocks[1..]);
    }
  }

  lemma {:induction false} MatchPrefixSized(p: Pool, hashes: seq<BlockHash>)
    ensures Sized(p, MatchPrefix(p, hashes).0)
    decreases |hashes|
  {
    if hashes != [] {
      MatchPrefixSized(Lookup(p, hashes[0]).0, hashes[1..]);
    }
  }

  lemma {:induction false} GiveBackSized(p: Pool, matched: seq<BlockId>, target: nat)
    ensures Sized(p, GiveBack(p, matched, target).0)
    decreases |matched|
  {
    if matched != [] {
      GiveBackSized(Release(p, matched[|matched| - 1]), matched[..|matched| - 1], target);
    }
  }

  lemma {:induction false} AllocateManySized(p: Pool, blocks: seq<BlockId>, n: nat)
    ensures Sized(p, AllocateMany(p, blocks, n).0)
    decreases n
  {
    hide Allocate;
    if n > 0 && Allocate(p).1.Some? {
      AllocateSized(p);
      AllocateManySized(Allocate(p).0, blocks + [Allocate(p).1.value], n - 1);
    }
  }

  lemma {:induction false} ExtendBySized(st: Sched, id: SeqId, k: nat)
    ensures Sized(st.pool, ExtendBy(st, id, k).0.pool)
    decreases k
  {
    hide Allocate;
    if k > 0 && id in st.seqs && Allocate(st.pool).1.Some? {
      AllocateSized(st.pool);
      var (p, got) := Allocate(st.pool);
      var s := st.seqs[id];
      ExtendBySized(st.(pool := p, seqs := st.seqs[id := s.(blocks := s.blocks + [got.value])]), id, k - 1);
    }
  }

  lemma TryExtendSized(cfg: Config, st: Sched, id: SeqId, extra: nat)
    requires cfg.blockSize > 0
    ensures Sized(st.pool, TryExtend(cfg, st, id, extra).0.pool)
  {
    hide ExtendBy;
    if id in st.seqs {
      var need, have := BlocksFor(cfg.blockSize, st.seqs[id].computed + extra), |st.seqs[id].blocks|;
      ExtendBySized(st, id, if need > have then need - have else 0);
    }
  }

  lemma PreemptSized(st: Sched, id: SeqId)
    ensures Sized(st.pool, Preempt(st, id).pool)
  {
    hide ReleaseAll;
    if id in st.seqs {
      ReleaseAllSized(st.pool, st.seqs[id].blocks);
    }
  }

  lemma TryStartSized(cfg: Config, st: Sched, id: SeqId)
    requires cfg.blockSize > 0
    ensures Sized(st.pool, TryStart(cfg, st, id).0.pool)
  {
    hide MatchPrefix, GiveBack, AllocateMany, ReleaseAll, Addresses;
    if id in st.seqs {
      var s := st.seqs[id];
      var hashes := Addresses(cfg, s.tenant, s.tokens, s.target);
      MatchPrefixSized(st.pool, hashes);
      var (p1, got) := if cfg.prefixCache then MatchPrefix(st.pool, hashes) else (st.pool, []);
      GiveBackSized(p1, got, s.target);
      var (p2, matched) := if cfg.prefixCache then GiveBack(p1, got, s.target) else (p1, got);
      var total := BlocksFor(cfg.blockSize, s.target + 1);
      var missing := if total > |matched| then total - |matched| else 0;
      ReleaseAllSized(p2, matched);
      AllocateManySized(p2, matched, missing);
      var (p3, blocks, _) := AllocateMany(p2, matched, missing);
      ReleaseAllSized(p3, blocks);
    }
  }

  lemma DecodeOneSized(cfg: Config, w: Work, id: SeqId)
    requires cfg.blockSize > 0
    ensures Sized(w.st.pool, DecodeOne(cfg, w, id).0.st.pool)
  {
    hide TryExtend, Preempt, PushSeq;
    TryExtendSized(cfg, w.st, id, 1);
    PreemptSized(TryExtend(cfg, w.st, id, 1).0, id);
  }

  lemma {:induction false} DecodeLoopSized(cfg: Config, w: Work, ids: seq<SeqId>, survivors: seq<SeqId>)
    requires cfg.blockSize > 0
    ensures Sized(w.st.pool, DecodeLoop(cfg, w, ids, survivors).0.st.pool)
    decreases |ids|
  {
    hide DecodeOne;
    if ids != [] {
      DecodeOneSized(cfg, w, ids[0]);
      var (v, keep) := DecodeOne(cfg, w, ids[0]);
      DecodeLoopSized(cfg, v, ids[1..], if keep then survivors + [ids[0]] else survivors);
    }
  }

  lemma PrefillChunkSized(cfg: Config, w: Work, id: SeqId)
    requires cfg.blockSize > 0
    ensures Sized(w.st.pool, PrefillChunk(cfg, w, id).st.pool)
  {
    hide TryExtend, Preempt, PushSeq;
    if id in w.st.seqs {
      var q := Min(Min(RemainingPrefill(w.st.seqs[id]), cfg.chunk), w.budget);
      TryExtendSized(cfg, w.st, id, q);
      PreemptSized(TryExtend(cfg, w.st, id, q).0, id);
    }
  }

  lemma {:induction false} ContinueLoopSized(cfg: Config, w: Work, ids: seq<SeqId>)
    requires cfg.blockSize > 0
    ensures Sized(w.st.pool, ContinueLoop(cfg, w, ids).st.pool)
    decreases |ids|
  {
    hide PrefillChunk;
    if ids != [] && w.budget > 0 {
      PrefillChunkSized(cfg, w, ids[0]);
      ContinueLoopSized(cfg, w, ids[1..]);
      ContinueLoopSized(cfg, PrefillChunk(cfg, w, ids[0]), ids[1..]);
    }
  }

  lemma StartOneSized(cfg: Config, w: Work)
    requires cfg.blockSize > 0 && w.st.waiting != []
    ensures Sized(w.st.pool, StartOne(cfg, w).0.st.pool)
  {
    hide TryStart, PrefillChunk;
    var id := w.st.waiting[0];
    var popped := w.st.(waiting := w.st.waiting[1..]);
    TryStartSized(cfg, popped, id);
    var t := TryStart(cfg, popped, id).0;
    var cached := if id in t.seqs then t.seqs[id].cachedTokens else 0;
    PrefillChunkSized(cfg, Work(t.(running := t.running + [id]), w.plan.(started := w.plan.started + [(id, cached)]), w.budget), id);
  }

  lemma {:induction false} StartLoopSized(cfg: Config, w: Work)
    requires cfg.blockSize > 0
    ensures Sized(w.st.pool, StartLoop(cfg, w).st.pool)
    decreases |w.st.waiting|
  {
    hide *;
    StartLoopUnfold(cfg, w);
    SizedRefl(w.st.pool);
    if CanTryStart(cfg, w) {
      CanTryStartIs(cfg, w);
      StartOneSized(cfg, w);
      var (v, more) := StartOne(cfg, w);
      if more && |v.st.waiting| < |w.st.waiting| {
        StartLoopSized(cfg, v);
        SizedTwice(w.st.pool, v.st.pool, StartLoop(cfg, v).st.pool);
      }
    }
  }

  lemma SizedRefl(p: Pool)
    ensures Sized(p, p)
  {}

  lemma SizedTwice(p: Pool, q: Pool, r: Pool)
    requires Sized(p, q) && Sized(q, r)
    ensures Sized(p, r)
  {}

  lemma ScheduleSized(cfg: Config, st: Sched)
    requires cfg.blockSize > 0
    ensures Sized(st.pool, Schedule(cfg, st).0.pool)
  {
    hide DecodeLoop, ContinueLoop, StartLoop;
    DecodeLoopSized(cfg, Work(st.(running := []), EmptyPlan, cfg.maxBatched), st.running, []);
    var w1 := ScheduleDecodes(cfg, Work(st, EmptyPlan, cfg.maxBatched));
    ContinueLoopSized(cfg, w1, w1.st.running);
    StartLoopSized(cfg, ContinueLoop(cfg, w1, w1.st.running));
  }

  lemma FinishSized(st: Sched, id: SeqId, reason: Reason)
    ensures Sized(st.pool, Finish(st, id, reason).pool)
  {
    hide ReleaseAll;
    if id in st.seqs {
      ReleaseAllSized(st.pool, st.seqs[id].blocks);
    }
  }

  lemma {:induction false} AdvanceLoopSized(st: Sched, plan: Plan, i: nat)
    ensures AdvanceLoop(st, plan, i).pool == st.pool
    decreases |plan.batchSeqs| - i
  {
    if i < |plan.batchSeqs| {
      var id := plan.batchSeqs[i];
      AdvanceLoopSized(if id in st.seqs then st.(seqs := st.seqs[id := Advanced(st.seqs[id], RowLen(plan.batch, i))]) else st, plan, i + 1);
    }
  }

  lemma {:induction false} AppendLoopSized(cfg: Config, st: Sched, ids: seq<SeqId>, sampled: seq<u32>)
    ensures Sized(st.pool, AppendLoop(cfg, st, ids, sampled).pool)
    decreases |ids|
  {
    if ids != [] && sampled != [] {
      hide Finish, CheckFinished;
      if ids[0] in st.seqs {
        var s := PushToken(st.seqs[ids[0]], sampled[0]);
        if CheckFinished(s, cfg.eos, cfg.maxContext).Some? {
          FinishSized(st.(seqs := st.seqs[ids[0] := s]), ids[0], CheckFinished(s, cfg.eos, cfg.maxContext).value);
        }
      }
      AppendLoopSized(cfg, AppendOne(cfg, st, ids[0], sampled[0]), ids[1..], sampled[1..]);
    }
  }

  lemma PublishSized(p: Pool, b: BlockId, h: BlockHash)
    ensures Sized(p, Publish(p, b, h).0)
  {}

  lemma {:induction false} PublishRangeSized(cfg: Config, p: Pool, s: Sequence, i: nat, full: nat, swaps: seq<(nat, BlockId, BlockId)>)
    requires cfg.blockSize > 0
    ensures Sized(p, PublishRange(cfg, p, s, i, full, swaps).0)
    decreases full - i
  {
    hide Publish;
    if i < full {
      if i >= |s.blocks| {
        PublishRangeSized(cfg, p, s, i + 1, full, swaps);
      } else {
        var b, h := s.blocks[i], cfg.hash(s.tenant, Upto(s.tokens, BlockEnd(i, cfg.blockSize)));
        PublishSized(p, b, h);
        var (q, canonical) := Publish(p, b, h);
        PublishRangeSized(cfg, q, s, i + 1, full, if canonical != b then swaps + [(i, b, canonical)] else swaps);
      }
    }
  }

  lemma {:induction false} ApplySwapsSized(p: Pool, blocks: seq<BlockId>, swaps: seq<(nat, BlockId, BlockId)>)
    ensures Sized(p, ApplySwaps(p, blocks, swaps).0)
    decreases |swaps|
  {
    if swaps != [] {
      if swaps[0].0 >= |blocks| {
        ApplySwapsSized(p, blocks, swaps[1..]);
      } else {
        ApplySwapsSized(Release(p, swaps[0].1), blocks[swaps[0].0 := swaps[0].2], swaps[1..]);
      }
    }
  }

  lemma {:induction false} PublishLoopSized(cfg: Config, st: Sched, ids: seq<SeqId>)
    requires cfg.blockSize > 0
    ensures Sized(st.pool, PublishLoop(cfg, st, ids).pool)
    decreases |ids|
  {
    if ids != [] {
      hide PublishRange, ApplySwaps;
      if ids[0] in st.seqs {
        var s := st.seqs[ids[0]];
        var full := s.computed / cfg.blockSize;
        PublishRangeSized(cfg, st.pool, s, s.cachedBlocks, full, []);
        var (p1, swaps) := PublishRange(cfg, st.pool, s, s.cachedBlocks, full, []);
        ApplySwapsSized(p1, s.blocks, swaps);
      }
      PublishLoopSized(cfg, PublishOne(cfg, st, ids[0]), ids[1..]);
    }
  }

  lemma CommitSized(cfg: Config, st: Sched, plan: Plan, sampled: seq<u32>)
    requires cfg.blockSize > 0
    ensures Sized(st.pool, Commit(cfg, st, plan, sampled).pool)
  {
    hide *;
    CommitUnfold(cfg, st, plan, sampled);
    AdvanceLoopSized(st, plan, 0);
    var s2 := AppendLoop(cfg, AdvanceLoop(st, plan, 0), plan.sampledSeqs, sampled);
    AppendLoopSized(cfg, AdvanceLoop(st, plan, 0), plan.sampledSeqs, sampled);
    PublishLoopSized(cfg, s2, plan.batchSeqs);
    SizedTwice(st.pool, s2.pool, PublishLoop(cfg, s2, plan.batchSeqs).pool);
  }
}
