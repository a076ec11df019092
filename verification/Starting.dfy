/** What a start adopts from the cache, and when it succeeds, said of the index and the free list alone. */
module Starting {
  import opened Prelude
  import opened Hashing
  import opened PoolModel
  import opened Sequences
  import opened SchedulerModel
  import opened Invariants
  import opened CoreSteps
  import opened CoreStart

  /** The first `k` blocks of the text are cached, and something would still be left to compute. */
  ghost predicate Adoptable(cfg: Config, byHash: map<BlockHash, BlockId>, s: Sequence, k: nat)
    requires cfg.blockSize > 0
  {
    k * cfg.blockSize < s.target && forall j :: 0 <= j < k ==> Address(cfg, s, j) in byHash
  }

  /** No more blocks than `k` could be adopted. */
  ghost predicate Most(cfg: Config, byHash: map<BlockHash, BlockId>, s: Sequence, k: nat)
    requires cfg.blockSize > 0
  {
    forall n: nat :: Adoptable(cfg, byHash, s, n) ==> n <= k
  }

  /** The adopted blocks that nobody held. */
  ghost function Idle(p: Pool, blocks: seq<BlockId>): set<BlockId> {
    set b | b in blocks && b in p.free
  }

  lemma BlocksWithin(blockSize: nat, n: nat, target: nat)
    requires blockSize > 0
    ensures n * blockSize < target ==> n <= target / blockSize
    ensures n < target / blockSize ==> (n + 1) * blockSize <= target
  {
    DivUnique(target / blockSize, target % blockSize, blockSize);
    assert target == (target / blockSize) * blockSize + target % blockSize;
    if n > target / blockSize {
      assert n * blockSize >= (target / blockSize + 1) * blockSize;
    }
    if n < target / blockSize {
      assert (n + 1) * blockSize <= (target / blockSize) * blockSize;
    }
  }

  /** The carve-out returns no block more than it must. */
  lemma {:induction false} GiveBackKeeps(p: Pool, matched: seq<BlockId>, target: nat)
    requires target > 0
    ensures var kept := GiveBack(p, matched, target).1;
      kept <= matched && |kept| * p.blockSize < target && (|kept| < |matched| ==> (|kept| + 1) * p.blockSize >= target)
    decreases |matched|
  {
    if |matched| * p.blockSize >= target && matched != [] {
      var m := |matched| - 1;
      var q := Release(p, matched[m]);
      assert q.blockSize == p.blockSize;
      GiveBackKeeps(q, matched[..m], target);
    }
  }

  /** What `match_prefix` finds, in the terms of the text. */
  lemma MatchFinds(cfg: Config, p: Pool, s: Sequence)
    requires cfg.blockSize > 0 && PoolOk(p)
    ensures var got := MatchPrefix(p, Addresses(cfg, s.tenant, s.tokens, s.target)).1;
      |got| <= s.target / cfg.blockSize && (|got| < s.target / cfg.blockSize ==> Address(cfg, s, |got|) !in p.byHash)
      && forall j :: 0 <= j < |got| ==> Address(cfg, s, j) in p.byHash && got[j] == p.byHash[Address(cfg, s, j)]
    ensures MatchPrefix(p, Addresses(cfg, s.tenant, s.tokens, s.target)).0.blockSize == p.blockSize
  {
    var hashes := Addresses(cfg, s.tenant, s.tokens, s.target);
    MatchPrefixOk(p, hashes);
    var got := MatchPrefix(p, hashes).1;
    assert forall k :: 0 <= k < |hashes| ==> hashes[k] == Address(cfg, s, k);
    forall j | 0 <= j < |got| ensures Address(cfg, s, j) in p.byHash && got[j] == p.byHash[Address(cfg, s, j)] {
      assert p.hashOf[got[j]] == Some(hashes[j]);
    }
  }

  lemma AdoptedMost(cfg: Config, byHash: map<BlockHash, BlockId>, s: Sequence, m: nat, k: nat)
    requires cfg.blockSize > 0 && k <= m <= s.target / cfg.blockSize && k * cfg.blockSize < s.target
    requires m < s.target / cfg.blockSize ==> Address(cfg, s, m) !in byHash
    requires k < m ==> (k + 1) * cfg.blockSize >= s.target
    requires forall j :: 0 <= j < m ==> Address(cfg, s, j) in byHash
    ensures Adoptable(cfg, byHash, s, k) && Most(cfg, byHash, s, k)
  {
    forall n: nat | Adoptable(cfg, byHash, s, n) ensures n <= k {
      BlocksWithin(cfg.blockSize, n, s.target);
      if n > k {
        MoreBlocks(cfg.blockSize, n, k);
        assert false;
      }
    }
  }

  lemma MoreBlocks(blockSize: nat, n: nat, k: nat)
    requires n > k
    ensures n * blockSize >= (k + 1) * blockSize
  {}

  lemma MatchPhaseAdopts(cfg: Config, p: Pool, s: Sequence)
    requires cfg.blockSize > 0 && cfg.prefixCache && PoolOk(p) && p.blockSize == cfg.blockSize && s.target > 0
    ensures var matched := MatchPhase(cfg, p, s).1;
      Adoptable(cfg, p.byHash, s, |matched|) && Most(cfg, p.byHash, s, |matched|)
      && forall j :: 0 <= j < |matched| ==> Address(cfg, s, j) in p.byHash && matched[j] == p.byHash[Address(cfg, s, j)]
  {
    hide *;
    MatchPhaseIs(cfg, p, s);
    MatchFinds(cfg, p, s);
    var (p1, got) := MatchPrefix(p, Addresses(cfg, s.tenant, s.tokens, s.target));
    GiveBackKeeps(p1, got, s.target);
    var matched := MatchPhase(cfg, p, s).1;
    AdoptedMost(cfg, p.byHash, s, |got|, |matched|);
    assert forall j :: 0 <= j < |matched| ==> matched[j] == got[j];
  }

  /** Adopting takes the idle blocks off the free list. */
  lemma FreeAfterMatch(p: Pool, m: Pool, matched: seq<BlockId>)
    requires PoolOk(p) && PoolOk(m) && Took(p, m, matched)
    ensures |m.free| == |p.free| - |Idle(p, matched)|
  {
    var a, b, idle := (set x | x in p.free), (set x | x in m.free), Idle(p, matched);
    SeqCard(p.free, a);
    SeqCard(m.free, b);
    assert b == a - idle;
    assert idle <= a;
  }

  lemma StartedTail(cfg: Config, st: Sched, id: SeqId, m: Pool, matched: seq<BlockId>)
    requires cfg.blockSize > 0 && id in st.seqs && PoolOk(m) && |matched| * cfg.blockSize < st.seqs[id].target && AllocPhase(cfg, st, id, m, matched).1
    ensures var n := AllocPhase(cfg, st, id, m, matched).0.seqs[id];
      n.cachedBlocks == |matched| && n.computed == |matched| * cfg.blockSize && matched <= n.blocks
  {
    var s := st.seqs[id];
    var total := BlocksFor(cfg.blockSize, s.target + 1);
    var missing := if total > |matched| then total - |matched| else 0;
    hide PoolOk, ReleaseAll;
    AllocateManyExtends(m, matched, missing);
  }

  lemma {:induction false} AllocateManyExtends(p: Pool, blocks: seq<BlockId>, n: nat)
    ensures blocks <= AllocateMany(p, blocks, n).1
    decreases n
  {
    hide Allocate;
    if n > 0 && Allocate(p).1.Some? {
      AllocateManyExtends(Allocate(p).0, blocks + [Allocate(p).1.value], n - 1);
    }
  }

  /** The blocks a start finds cached: the first ones of the text, as many as could be adopted. */
  ghost predicate Found(cfg: Config, p: Pool, s: Sequence, found: seq<BlockId>)
    requires cfg.blockSize > 0
  {
    if cfg.prefixCache then
      Adoptable(cfg, p.byHash, s, |found|) && Most(cfg, p.byHash, s, |found|)
      && forall j :: 0 <= j < |found| ==> Address(cfg, s, j) in p.byHash && found[j] == p.byHash[Address(cfg, s, j)]
    else found == []
  }

  lemma FoundMade(cfg: Config, p: Pool, s: Sequence)
    requires cfg.blockSize > 0 && PoolOk(p) && p.blockSize == cfg.blockSize && s.target > 0
    ensures Found(cfg, p, s, MatchPhase(cfg, p, s).1)
  {
    hide MatchPhase, Adoptable, Most, PoolOk;
    if cfg.prefixCache {
      MatchPhaseAdopts(cfg, p, s);
    } else {
      MatchPhaseIs(cfg, p, s);
    }
  }

  lemma FoundOne(cfg: Config, p: Pool, s: Sequence, a: seq<BlockId>, b: seq<BlockId>)
    requires cfg.blockSize > 0 && Found(cfg, p, s, a) && Found(cfg, p, s, b)
    ensures a == b
  {
    hide Adoptable;
  }

  /** A start adopts exactly the largest number of leading blocks that are in the index and leave something to compute;
      it succeeds if and only if the blocks it lacks then, the adopted ones nobody held among them, leave the watermark
      free. */
  lemma TryStartAdopts(cfg: Config, st: Sched, id: SeqId, found: seq<BlockId>)
    requires Core(cfg, st) && id in st.seqs && IsWaiting(st.seqs[id]) && cfg.blockSize > 0 && Found(cfg, st.pool, st.seqs[id], found)
    ensures var (t, ok) := TryStart(cfg, st, id);
      var s := st.seqs[id];
      (ok <==> |st.pool.free| >= |Idle(st.pool, found)| + BlocksFor(cfg.blockSize, s.target + 1) - |found| + st.pool.watermark)
      && (ok ==>
            id in t.seqs && t.seqs[id].cachedBlocks == |found| && t.seqs[id].computed == |found| * cfg.blockSize
            && found <= t.seqs[id].blocks && |t.seqs[id].blocks| == BlocksFor(cfg.blockSize, s.target + 1))
      && (!ok ==> t.seqs == st.seqs)
  {
    hide *;
    var s := st.seqs[id];
    CoreParts(cfg, st);
    WaitingIs(cfg, s);
    FoundMade(cfg, st.pool, s);
    MatchPhaseOk(cfg, st.pool, s);
    var (m, matched) := MatchPhase(cfg, st.pool, s);
    FoundOne(cfg, st.pool, s, found, matched);
    AllocPhaseOk(cfg, st, id, m, matched);
    TryStartPhases(cfg, st, id);
    FreeAfterMatch(st.pool, m, matched);
    TookSizes(st.pool, m, matched);
    if TryStart(cfg, st, id).1 {
      StartedTail(cfg, st, id, m, matched);
      OutcomeParts(cfg, st, id, TryStart(cfg, st, id).0);
    } else {
      FailedKeeps(cfg, st, id, TryStart(cfg, st, id).0);
    }
  }

  lemma WaitingIs(cfg: Config, s: Sequence)
    requires cfg.blockSize > 0 && BasicOk(cfg, s) && IsWaiting(s)
    ensures s.blocks == [] && 1 <= s.target <= |s.tokens|
  {}

  lemma FailedKeeps(cfg: Config, st: Sched, id: SeqId, t: Sched)
    requires cfg.blockSize > 0 && StartOutcome(cfg, st, id, t, false)
    ensures t.seqs == st.seqs
  {}

  /** There is exactly one such run of blocks. */
  lemma FoundExists(cfg: Config, p: Pool, s: Sequence) returns (found: seq<BlockId>)
    requires cfg.blockSize > 0 && PoolOk(p) && p.blockSize == cfg.blockSize && s.target > 0
    ensures Found(cfg, p, s, found) && forall other :: Found(cfg, p, s, other) ==> other == found
  {
    hide *;
    FoundMade(cfg, p, s);
    found := MatchPhase(cfg, p, s).1;
    forall other | Found(cfg, p, s, other) ensures other == found {
      FoundOne(cfg, p, s, other, found);
    }
  }
}
