/** What holds in every state an engine can reach. */
module Guarantees {
  import opened Prelude
  import opened Hashing
  import opened PoolModel
  import opened Sequences
  import opened SchedulerModel
  import opened Invariants
  import opened CoreSteps
  import opened CorePublish
  import opened Rounds
  import opened Committing
  import opened Kv
  import opened Transparency
  import opened ForwardPass
  import opened Forking
  import opened Batches
  import opened Runs

  // ----------------------------------------------------------- transparency

  /** Prefix caching is transparent: in every reachable state, whatever was hit, evicted, swapped, preempted or
      forked on the way, position `p` of a live sequence reads the row of exactly its own first `p + 1` tokens. */
  lemma CachingIsTransparent(cfg: Config, w: World, id: SeqId, p: nat)
    requires Reachable(cfg, w) && id in w.st.seqs && IsActive(w.st.seqs[id]) && p < w.st.seqs[id].computed
    ensures cfg.blockSize > 0 && p < |w.st.seqs[id].tokens|
    ensures var s := w.st.seqs[id];
      p / cfg.blockSize < |s.blocks| && s.blocks[p / cfg.blockSize] < |w.kv| && p % cfg.blockSize < |w.kv[s.blocks[p / cfg.blockSize]]|
      && w.kv[s.blocks[p / cfg.blockSize]][p % cfg.blockSize] == Row(s.tokens[p], p, Ideal(s.tokens[..p]))
  {
    hide *;
    var s := w.st.seqs[id];
    ReachableOk(cfg, w);
    WorldParts(cfg, w);
    RoundParts(cfg, w.st);
    CoreParts(cfg, w.st);
    KvParts(cfg, w.st, w.kv);
    SeqHolds(cfg, w.st.seqs, w.kv, id);
    BlocksParts(cfg, w.st.pool, w.st.seqs, id);
    SizesOk(w.st.pool);
    LocalInside(cfg, w.st.pool.hashOf, s);
    ActiveCovered(cfg, s);
    BlocksForCovers(cfg.blockSize, s.computed, p);
    CacheBlock(w.kv, |w.st.pool.refs|, cfg.blockSize, s.blocks[p / cfg.blockSize]);
    RowsHoldAt(cfg.blockSize, w.kv, s, s.computed, p);
    IdealAt(s.tokens, p);
  }

  lemma CacheBlock(kv: Cache, n: nat, blockSize: nat, b: BlockId)
    requires CacheShape(kv, n, blockSize) && b < n
    ensures b < |kv| && |kv[b]| == blockSize
  {}

  lemma RowsHoldAt(blockSize: nat, kv: Cache, s: Sequence, n: nat, p: nat)
    requires blockSize > 0 && RowsHold(blockSize, kv, s, n) && p < n
    requires p / blockSize < |s.blocks| && s.blocks[p / blockSize] < |kv| && |kv[s.blocks[p / blockSize]]| == blockSize
    ensures p < |s.tokens| && kv[s.blocks[p / blockSize]][p % blockSize] == Ideal(s.tokens)[p]
  {}

  /** Every token is sampled from the rows of the sequence's own text, all of it and nothing else. */
  lemma SampledFromOwnText(cfg: Config, w: World, k: nat)
    requires Reachable(cfg, w) && w.flight.Some? && k < |w.flight.value.plan.sampledSeqs| && w.flight.value.plan.sampledSeqs[k] in w.st.seqs
    ensures k < |w.flight.value.contexts|
    ensures w.flight.value.contexts[k] == Ideal(w.st.seqs[w.flight.value.plan.sampledSeqs[k]].tokens)
  {
    ReachableOk(cfg, w);
    hide Reachable, Round, KvOk, InFlight, DoneUpto;
  }

  /** Every batch handed to the backend is valid. */
  lemma EveryBatchValid(cfg: Config, w: World)
    requires Reachable(cfg, w)
    ensures cfg.blockSize > 0
    ensures var (t, plan) := Schedule(cfg, w.st);
      ValidBatch(plan.batch, |t.pool.refs|, cfg.blockSize) && NoDup(plan.batchSeqs) && |plan.batch.tokens| <= cfg.maxBatched
      && SampledIff(t.seqs, plan) && SampledAt(plan)
  {
    hide *;
    ReachableOk(cfg, w);
    WorldParts(cfg, w);
    ScheduledBatchValid(cfg, w.st);
  }

  // ----------------------------------------------------------- conservation

  ghost function Elements(s: seq<BlockId>): set<BlockId> { set b | b in s }

  lemma {:induction false} NoDupSize(s: seq<BlockId>)
    requires NoDup(s)
    ensures |Elements(s)| == |s|
  {
    if s != [] {
      NoDupTail(s);
      NoDupSize(s[1..]);
      assert forall b :: b in s <==> b == s[0] || b in s[1..];
      assert Elements(s) == Elements(s[1..]) + {s[0]};
    }
  }

  lemma AllFree(p: Pool)
    requires FreeListOk(p) && forall b: nat :: b < |p.refs| ==> p.refs[b] == 0
    ensures |p.free| == |p.refs|
  {
    var all := Range(|p.refs|);
    NoDupSize(p.free);
    NoDupSize(all);
    forall b: nat ensures b in p.free <==> b in all {
      assert b < |p.refs| ==> all[b] == b;
    }
    assert Elements(p.free) == Elements(all);
  }

  ghost predicate Live(s: Sequence) { !IsFinished(s) }

  /** In exactly one of the three queues, exactly once, by status. */
  ghost predicate OneQueue(st: Sched, id: SeqId)
    requires id in st.seqs
  {
    (id in st.waiting <==> IsWaiting(st.seqs[id])) && (id in st.running <==> IsActive(st.seqs[id])) && (id in st.finished <==> IsFinished(st.seqs[id]))
    && NoDup(st.waiting) && NoDup(st.running) && NoDup(st.finished)
  }

  lemma QueueOf(st: Sched, id: SeqId)
    requires QueuesOk(st) && id in st.seqs
    ensures OneQueue(st, id)
  {
    assert id in WaitingIds(st.seqs) <==> IsWaiting(st.seqs[id]);
    assert id in ActiveIds(st.seqs) <==> IsActive(st.seqs[id]);
    assert id in FinishedIds(st.seqs) <==> IsFinished(st.seqs[id]);
  }

  /** Reference conservation, in every reachable state: a block is counted once per sequence that lists it, no
      sequence lists a block twice, waiting and finished sequences list none, and every sequence is in the one
      queue its status calls for. */
  lemma ReferencesConserved(cfg: Config, w: World)
    requires Reachable(cfg, w)
    ensures forall b: nat :: b < |w.st.pool.refs| ==> w.st.pool.refs[b] == |Owners(w.st.seqs, b)|
    ensures forall id :: id in w.st.seqs ==> NoDup(w.st.seqs[id].blocks) && OneQueue(w.st, id)
    ensures forall id :: id in w.st.seqs && !IsActive(w.st.seqs[id]) ==> w.st.seqs[id].blocks == []
  {
    ReachableOk(cfg, w);
    WorldParts(cfg, w);
    hide WorldOk, KvOk, FlightOk, AllSteady, PoolOk, CollisionFree, RequestsOk, OneQueue;
    forall id | id in w.st.seqs ensures NoDup(w.st.seqs[id].blocks) && OneQueue(w.st, id) {
      QueueOf(w.st, id);
      assert LocalOk(cfg, w.st.pool.hashOf, w.st.seqs[id]);
    }
  }

  /** When everything has finished, every block is free again. */
  lemma AllBlocksComeBack(cfg: Config, w: World)
    requires Reachable(cfg, w) && forall id :: id in w.st.seqs ==> !Live(w.st.seqs[id])
    ensures |w.st.pool.free| == |w.st.pool.refs|
  {
    ReferencesConserved(cfg, w);
    ReachableOk(cfg, w);
    WorldParts(cfg, w);
    RoundParts(cfg, w.st);
    assert FreeListOk(w.st.pool) by {
      hide BlocksOk, QueuesOk, RequestsOk, BasicOk, CollisionFree, IndexOk, EmptiesFirst;
    }
    hide Reachable, WorldOk, Round, Core, KvOk, FlightOk, FreeListOk;
    forall b: nat | b < |w.st.pool.refs| ensures w.st.pool.refs[b] == 0 {
      assert Owners(w.st.seqs, b) == {};
    }
    AllFree(w.st.pool);
  }

  // ---------------------------------------------------------------- sharing

  /** A listed block that another sequence lists too lies below the settled boundary. */
  lemma SharedSettled(cfg: Config, s: Sequence, t: Sequence, j: nat)
    requires cfg.blockSize > 0 && Apart(cfg, s, t) && j < |s.blocks| && s.blocks[j] in t.blocks
    ensures j < Settled(cfg, s)
  {}

  lemma SettledText(cfg: Config, s: Sequence, j: nat)
    requires cfg.blockSize > 0 && BasicOk(cfg, s) && j < Settled(cfg, s)
    ensures BlockEnd(j, cfg.blockSize) <= s.computed <= |s.tokens| && BlockEnd(j, cfg.blockSize) > 0
  {
    BlockEnds(s.computed, cfg.blockSize);
    MulMono(1, j + 1, cfg.blockSize);
  }

  /** The last row of a settled block. */
  lemma LastRow(cfg: Config, kv: Cache, s: Sequence, j: nat)
    requires cfg.blockSize > 0 && RowsHold(cfg.blockSize, kv, s, s.computed) && j < |s.blocks| && BlockEnd(j, cfg.blockSize) <= s.computed && s.computed <= |s.tokens|
    requires s.blocks[j] < |kv| && |kv[s.blocks[j]]| == cfg.blockSize
    ensures var end := BlockEnd(j, cfg.blockSize);
      end > 0 && kv[s.blocks[j]][cfg.blockSize - 1] == Ideal(s.tokens[..end])[end - 1]
  {
    var bs, end := cfg.blockSize, BlockEnd(j, cfg.blockSize);
    assert end - 1 == j * bs + (bs - 1);
    DivUnique(j, bs - 1, bs);
    assert RowAt(kv, bs, s.blocks, end - 1) == Ideal(s.tokens)[end - 1];
    IdealPrefix(s.tokens, end);
    assert Ideal(s.tokens)[..end][end - 1] == Ideal(s.tokens)[end - 1];
  }

  lemma SameText(cfg: Config, kv: Cache, s: Sequence, t: Sequence, j: nat, k: nat)
    requires cfg.blockSize > 0 && RowsHold(cfg.blockSize, kv, s, s.computed) && RowsHold(cfg.blockSize, kv, t, t.computed)
    requires j < |s.blocks| && k < |t.blocks| && s.blocks[j] == t.blocks[k] && s.blocks[j] < |kv| && |kv[s.blocks[j]]| == cfg.blockSize
    requires BlockEnd(j, cfg.blockSize) <= s.computed && BlockEnd(k, cfg.blockSize) <= t.computed && s.computed <= |s.tokens| && t.computed <= |t.tokens|
    ensures j == k && Upto(s.tokens, BlockEnd(j, cfg.blockSize)) == Upto(t.tokens, BlockEnd(j, cfg.blockSize))
  {
    hide RowsHold;
    LastRow(cfg, kv, s, j);
    LastRow(cfg, kv, t, k);
    IdealInjective(s.tokens[..BlockEnd(j, cfg.blockSize)], t.tokens[..BlockEnd(k, cfg.blockSize)]);
    assert BlockEnd(j, cfg.blockSize) == BlockEnd(k, cfg.blockSize);
    QuotientLe(j + 1, k + 1, cfg.blockSize);
    QuotientLe(k + 1, j + 1, cfg.blockSize);
  }

  lemma SameTenant(cfg: Config, hashOf: seq<Option<BlockHash>>, s: Sequence, t: Sequence, j: nat, k: nat)
    requires cfg.blockSize > 0 && CollisionFree(cfg.hash, cfg.blockSize) && LocalOk(cfg, hashOf, s) && LocalOk(cfg, hashOf, t) && cfg.prefixCache
    requires j < |s.blocks| && k < |t.blocks| && s.blocks[j] == t.blocks[k] && j < Settled(cfg, s) && k < Settled(cfg, t)
    requires BlockEnd(j, cfg.blockSize) <= |s.tokens| && BlockEnd(k, cfg.blockSize) <= |t.tokens|
    ensures s.tenant == t.tenant
  {
    DivUnique(j + 1, 0, cfg.blockSize);
    DivUnique(k + 1, 0, cfg.blockSize);
    BlockOf(cfg.blockSize, j * cfg.blockSize);
    BlockOf(cfg.blockSize, k * cfg.blockSize);
    assert Address(cfg, s, j) == Address(cfg, t, k);
  }

  lemma OtherParts(cfg: Config, p: Pool, seqs: map<SeqId, Sequence>, id: SeqId, o: SeqId)
    requires cfg.blockSize > 0 && BlocksOk(cfg, p, seqs) && id in seqs && o in seqs && id != o
    ensures Apart(cfg, seqs[id], seqs[o]) && Apart(cfg, seqs[o], seqs[id]) && LocalOk(cfg, p.hashOf, seqs[id]) && LocalOk(cfg, p.hashOf, seqs[o])
  {
    hide Apart, LocalOk, RefsOk;
  }

  lemma ListsActive(cfg: Config, s: Sequence, j: nat)
    requires cfg.blockSize > 0 && BasicOk(cfg, s) && j < |s.blocks|
    ensures IsActive(s)
  {}

  /** Blocks are shared only between sequences with the same text up to the end of the block, at the same place
      in both, and, when the prefix cache is on, only within one tenant. */
  lemma SharingIsSound(cfg: Config, w: World, id: SeqId, o: SeqId, j: nat, k: nat)
    requires Reachable(cfg, w) && id in w.st.seqs && o in w.st.seqs && id != o
    requires j < |w.st.seqs[id].blocks| && k < |w.st.seqs[o].blocks| && w.st.seqs[id].blocks[j] == w.st.seqs[o].blocks[k]
    ensures cfg.blockSize > 0 && j == k
    ensures var s, t := w.st.seqs[id], w.st.seqs[o];
      BlockEnd(j, cfg.blockSize) <= s.computed && BlockEnd(j, cfg.blockSize) <= t.computed
      && Upto(s.tokens, BlockEnd(j, cfg.blockSize)) == Upto(t.tokens, BlockEnd(j, cfg.blockSize))
      && (cfg.prefixCache ==> s.tenant == t.tenant)
  {
    var s, t := w.st.seqs[id], w.st.seqs[o];
    assert s.blocks[j] in t.blocks && t.blocks[k] in s.blocks;
    hide *;
    ReachableOk(cfg, w);
    WorldParts(cfg, w);
    RoundParts(cfg, w.st);
    CoreParts(cfg, w.st);
    KvParts(cfg, w.st, w.kv);
    OtherParts(cfg, w.st.pool, w.st.seqs, id, o);
    ListsActive(cfg, s, j);
    ListsActive(cfg, t, k);
    SharedSettled(cfg, s, t, j);
    SharedSettled(cfg, t, s, k);
    SettledText(cfg, s, j);
    SettledText(cfg, t, k);
    SeqHolds(cfg, w.st.seqs, w.kv, id);
    SeqHolds(cfg, w.st.seqs, w.kv, o);
    SizesOk(w.st.pool);
    LocalInside(cfg, w.st.pool.hashOf, s);
    CacheBlock(w.kv, |w.st.pool.refs|, cfg.blockSize, s.blocks[j]);
    SameText(cfg, w.kv, s, t, j, k);
    if cfg.prefixCache {
      SameTenant(cfg, w.st.pool.hashOf, s, t, j, k);
    }
  }
}
