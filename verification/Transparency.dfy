/** Prefix caching is transparent: every row a sequence relies on is the row of its own
    text computed alone, whoever computed it and wherever it has been since. */
module Transparency {
  import opened Prelude
  import opened Hashing
  import opened PoolModel
  import opened Sequences
  import opened SchedulerModel
  import opened Invariants
  import opened CoreSteps
  import opened CoreStart
  import opened Rounds
  import opened Scheduling
  import opened Committing
  import opened Kv

  // ---------------------------------------------------------- the invariant

  /** The first `n` rows of `s`, read through its block list, are those of its own text. */
  ghost predicate RowsHold(blockSize: nat, kv: Cache, s: Sequence, n: nat)
    requires blockSize > 0
  {
    n <= |s.tokens| && forall p: nat :: p < n ==> RowAt(kv, blockSize, s.blocks, p) == Ideal(s.tokens)[p]
  }

  /** Block `b` holds the last block of the text `prefix`. */
  ghost predicate BlockHolds(blockSize: nat, kv: Cache, b: BlockId, prefix: seq<u32>) {
    b < |kv| && |kv[b]| == blockSize && blockSize <= |prefix|
    && forall o: nat :: o < blockSize ==> kv[b][o] == Ideal(prefix)[|prefix| - blockSize + o]
  }

  /** A published block, referenced or not, holds what its address says. */
  ghost predicate PublishedHold(cfg: Config, hashOf: seq<Option<BlockHash>>, kv: Cache)
    requires cfg.blockSize > 0
  {
    forall b: nat, tenant: Text, prefix: seq<u32> ::
      b < |hashOf| && |prefix| > 0 && |prefix| % cfg.blockSize == 0 && hashOf[b] == Some(cfg.hash(tenant, prefix)) ==>
        BlockHolds(cfg.blockSize, kv, b, prefix)
  }

  ghost predicate SeqsHold(cfg: Config, seqs: map<SeqId, Sequence>, kv: Cache)
    requires cfg.blockSize > 0
  {
    forall id :: id in seqs && IsActive(seqs[id]) ==> RowsHold(cfg.blockSize, kv, seqs[id], seqs[id].computed)
  }

  ghost predicate KvOk(cfg: Config, st: Sched, kv: Cache)
    requires cfg.blockSize > 0
  {
    CacheShape(kv, |st.pool.refs|, cfg.blockSize) && SeqsHold(cfg, st.seqs, kv) && PublishedHold(cfg, st.pool.hashOf, kv)
  }

  lemma KvParts(cfg: Config, st: Sched, kv: Cache)
    requires cfg.blockSize > 0 && KvOk(cfg, st, kv)
    ensures CacheShape(kv, |st.pool.refs|, cfg.blockSize) && SeqsHold(cfg, st.seqs, kv) && PublishedHold(cfg, st.pool.hashOf, kv)
  {
    hide CacheShape, SeqsHold, PublishedHold;
  }

  lemma KvMade(cfg: Config, st: Sched, kv: Cache)
    requires cfg.blockSize > 0 && CacheShape(kv, |st.pool.refs|, cfg.blockSize) && SeqsHold(cfg, st.seqs, kv) && PublishedHold(cfg, st.pool.hashOf, kv)
    ensures KvOk(cfg, st, kv)
  {
    hide CacheShape, SeqsHold, PublishedHold;
  }

  // ------------------------------------------- rows that come from the cache

  lemma BlockOf(blockSize: nat, p: nat)
    requires blockSize > 0
    ensures var j := p / blockSize;
      BlockEnd(j, blockSize) % blockSize == 0 && BlockEnd(j, blockSize) > 0
      && BlockEnd(j, blockSize) - blockSize + p % blockSize == p && p % blockSize < blockSize && p < BlockEnd(j, blockSize)
  {
    var j := p / blockSize;
    DivUnique(j + 1, 0, blockSize);
    assert p == j * blockSize + p % blockSize;
    assert (j + 1) * blockSize == j * blockSize + blockSize;
  }

  /** A settled block of `s` serves its positions. */
  lemma CachedRow(cfg: Config, hashOf: seq<Option<BlockHash>>, kv: Cache, s: Sequence, p: nat)
    requires cfg.blockSize > 0 && PublishedHold(cfg, hashOf, kv) && p / cfg.blockSize < |s.blocks|
    requires s.blocks[p / cfg.blockSize] < |hashOf| && hashOf[s.blocks[p / cfg.blockSize]] == Some(Address(cfg, s, p / cfg.blockSize))
    requires BlockEnd(p / cfg.blockSize, cfg.blockSize) <= |s.tokens|
    ensures RowAt(kv, cfg.blockSize, s.blocks, p) == Ideal(s.tokens)[p]
  {
    var j := p / cfg.blockSize;
    var end := BlockEnd(j, cfg.blockSize);
    BlockOf(cfg.blockSize, p);
    var prefix := Upto(s.tokens, end);
    assert |prefix| == end;
    assert BlockHolds(cfg.blockSize, kv, s.blocks[j], prefix);
    IdealPrefix(s.tokens, end);
    assert Ideal(s.tokens)[..end][p] == Ideal(s.tokens)[p];
  }

  /** Everything below the settled boundary follows from the addresses. */
  lemma CachedRows(cfg: Config, hashOf: seq<Option<BlockHash>>, kv: Cache, s: Sequence, n: nat)
    requires cfg.blockSize > 0 && PublishedHold(cfg, hashOf, kv) && LocalOk(cfg, hashOf, s)
    requires n <= s.cachedBlocks * cfg.blockSize && n <= |s.tokens| && s.cachedBlocks <= |s.blocks| && s.cachedBlocks <= |s.tokens| / cfg.blockSize
    ensures RowsHold(cfg.blockSize, kv, s, n)
  {
    BlockEnds(|s.tokens|, cfg.blockSize);
    hide PublishedHold;
    forall p: nat | p < n ensures RowAt(kv, cfg.blockSize, s.blocks, p) == Ideal(s.tokens)[p] {
      DivLess(p, s.cachedBlocks, cfg.blockSize);
      CachedRow(cfg, hashOf, kv, s, p);
    }
  }

  // ----------------------------------------------- steps that move no rows

  /** Addresses were only dropped, never added. */
  ghost predicate Cleared(a: seq<Option<BlockHash>>, b: seq<Option<BlockHash>>) {
    |b| == |a| && forall i :: 0 <= i < |a| ==> b[i] == a[i] || b[i] == None
  }

  lemma ClearedHold(cfg: Config, a: seq<Option<BlockHash>>, b: seq<Option<BlockHash>>, kv: Cache)
    requires cfg.blockSize > 0 && PublishedHold(cfg, a, kv) && Cleared(a, b)
    ensures PublishedHold(cfg, b, kv)
  {
    hide BlockHolds;
  }

  /** How a sequence may look after a scheduling pass: grown, waiting, or started from the cache. */
  ghost predicate Evolved(cfg: Config, s: Sequence, t: Sequence)
    requires cfg.blockSize > 0
  {
    t.tokens == s.tokens && t.promptLen == s.promptLen && t.params == s.params && t.request == s.request && t.tenant == s.tenant
    && (IsFinished(s) ==> t == s)
    && (t == s
        || (IsActive(s) && t == s.(blocks := t.blocks) && s.blocks <= t.blocks)
        || IsWaiting(t)
        || (t.status == Prefilling && t.computed == t.cachedBlocks * cfg.blockSize))
  }

  lemma EvolvedTwice(cfg: Config, s: Sequence, m: Sequence, t: Sequence)
    requires cfg.blockSize > 0 && Evolved(cfg, s, m) && Evolved(cfg, m, t)
    ensures Evolved(cfg, s, t)
  {}

  ghost predicate AllEvolved(cfg: Config, seqs: map<SeqId, Sequence>, after: map<SeqId, Sequence>)
    requires cfg.blockSize > 0
  {
    after.Keys == seqs.Keys && forall id :: id in seqs ==> Evolved(cfg, seqs[id], after[id])
  }

  lemma AllEvolvedTwice(cfg: Config, a: map<SeqId, Sequence>, b: map<SeqId, Sequence>, c: map<SeqId, Sequence>)
    requires cfg.blockSize > 0 && AllEvolved(cfg, a, b) && AllEvolved(cfg, b, c)
    ensures AllEvolved(cfg, a, c)
  {
    hide Evolved;
    forall id | id in a ensures Evolved(cfg, a[id], c[id]) {
      EvolvedTwice(cfg, a[id], b[id], c[id]);
    }
  }

  lemma OneEvolved(cfg: Config, seqs: map<SeqId, Sequence>, id: SeqId, t: Sequence, after: map<SeqId, Sequence>)
    requires cfg.blockSize > 0 && id in seqs && Evolved(cfg, seqs[id], t) && after == seqs[id := t]
    ensures AllEvolved(cfg, seqs, after)
  {}

  lemma GrownRows(blockSize: nat, kv: Cache, s: Sequence, t: Sequence, n: nat)
    requires blockSize > 0 && RowsHold(blockSize, kv, s, n) && BlocksFor(blockSize, n) <= |s.blocks| && s.blocks <= t.blocks && s.tokens <= t.tokens
    ensures RowsHold(blockSize, kv, t, n)
  {
    IdealPrefix(t.tokens, |s.tokens|);
    assert t.tokens[..|s.tokens|] == s.tokens;
    forall p: nat | p < n ensures RowAt(kv, blockSize, t.blocks, p) == Ideal(t.tokens)[p] {
      BlocksForCovers(blockSize, n, p);
      assert Ideal(t.tokens)[..|s.tokens|][p] == Ideal(t.tokens)[p];
    }
  }

  lemma EvolvedHolds(cfg: Config, hashOf: seq<Option<BlockHash>>, kv: Cache, s: Sequence, t: Sequence)
    requires cfg.blockSize > 0 && Evolved(cfg, s, t) && IsActive(t) && BasicOk(cfg, s) && BasicOk(cfg, t)
    requires IsActive(s) ==> RowsHold(cfg.blockSize, kv, s, s.computed)
    requires PublishedHold(cfg, hashOf, kv) && LocalOk(cfg, hashOf, t)
    ensures RowsHold(cfg.blockSize, kv, t, t.computed)
  {
    hide PublishedHold, RowsHold, LocalOk;
    if IsActive(s) && t == s.(blocks := t.blocks) && s.blocks <= t.blocks {
      GrownRows(cfg.blockSize, kv, s, t, s.computed);
    } else if t == s {
    } else {
      FullWithin(cfg.blockSize, t.computed);
      DivMono(t.computed, |t.tokens|, cfg.blockSize);
      CachedRows(cfg, hashOf, kv, t, t.computed);
    }
  }

  /** A scheduling pass leaves every sequence reading its own text. */
  lemma EvolvedKvOk(cfg: Config, st: Sched, t: Sched, kv: Cache)
    requires cfg.blockSize > 0 && KvOk(cfg, st, kv) && |t.pool.refs| == |st.pool.refs|
    requires Cleared(st.pool.hashOf, t.pool.hashOf) && AllEvolved(cfg, st.seqs, t.seqs)
    requires forall id :: id in st.seqs ==> BasicOk(cfg, st.seqs[id])
    requires forall id :: id in t.seqs ==> BasicOk(cfg, t.seqs[id])
    requires BlocksOk(cfg, t.pool, t.seqs)
    ensures KvOk(cfg, t, kv)
  {
    hide BasicOk, PublishedHold, RowsHold, Evolved, LocalOk, PrivateOk, RefsOk, Cleared, CacheShape;
    ClearedHold(cfg, st.pool.hashOf, t.pool.hashOf, kv);
    forall id | id in t.seqs && IsActive(t.seqs[id]) ensures RowsHold(cfg.blockSize, kv, t.seqs[id], t.seqs[id].computed) {
      EvolvedHolds(cfg, t.pool.hashOf, kv, st.seqs[id], t.seqs[id]);
    }
  }

  // ----------------------------------- the addresses through a scheduling pass

  lemma ClearedTwice(a: seq<Option<BlockHash>>, b: seq<Option<BlockHash>>, c: seq<Option<BlockHash>>)
    requires Cleared(a, b) && Cleared(b, c)
    ensures Cleared(a, c)
  {}

  lemma AllocateClears(p: Pool)
    ensures Cleared(p.hashOf, Allocate(p).0.hashOf) && |Allocate(p).0.refs| == |p.refs|
  {}

  lemma {:induction false} ReleaseAllHashes(p: Pool, blocks: seq<BlockId>)
    ensures ReleaseAll(p, blocks).hashOf == p.hashOf && |ReleaseAll(p, blocks).refs| == |p.refs|
    decreases |blocks|
  {
    if blocks != [] {
      ReleaseAllHashes(Release(p, blocks[0]), blocks[1..]);
    }
  }

  lemma {:induction false} MatchPrefixHashes(p: Pool, hashes: seq<BlockHash>)
    ensures MatchPrefix(p, hashes).0.hashOf == p.hashOf && |MatchPrefix(p, hashes).0.refs| == |p.refs|
    decreases |hashes|
  {
    if hashes != [] {
      MatchPrefixHashes(Lookup(p, hashes[0]).0, hashes[1..]);
    }
  }

  lemma {:induction false} GiveBackHashes(p: Pool, matched: seq<BlockId>, target: nat)
    ensures GiveBack(p, matched, target).0.hashOf == p.hashOf && |GiveBack(p, matched, target).0.refs| == |p.refs|
    decreases |matched|
  {
    if matched != [] {
      GiveBackHashes(Release(p, matched[|matched| - 1]), matched[..|matched| - 1], target);
    }
  }

  lemma {:induction false} AllocateManyClears(p: Pool, blocks: seq<BlockId>, n: nat)
    ensures Cleared(p.hashOf, AllocateMany(p, blocks, n).0.hashOf) && |AllocateMany(p, blocks, n).0.refs| == |p.refs|
    decreases n
  {
    if n > 0 && Allocate(p).1.Some? {
      var (q, got) := Allocate(p);
      AllocateClears(p);
      AllocateManyIs(p, blocks, n);
      hide Allocate, AllocateMany;
      AllocateManyClears(q, blocks + [got.value], n - 1);
      ClearedTwice(p.hashOf, q.hashOf, AllocateMany(q, blocks + [got.value], n - 1).0.hashOf);
    }
  }

  lemma TryStartClears(cfg: Config, st: Sched, id: SeqId)
    requires cfg.blockSize > 0
    ensures Cleared(st.pool.hashOf, TryStart(cfg, st, id).0.pool.hashOf) && |TryStart(cfg, st, id).0.pool.refs| == |st.pool.refs|
  {
    if id in st.seqs {
      var s := st.seqs[id];
      TryStartPhases(cfg, st, id);
      hide TryStart;
      var (m, matched) := MatchPhase(cfg, st.pool, s);
      MatchPrefixHashes(st.pool, Addresses(cfg, s.tenant, s.tokens, s.target));
      var (p1, got) := MatchPrefix(st.pool, Addresses(cfg, s.tenant, s.tokens, s.target));
      GiveBackHashes(p1, got, s.target);
      ReleaseAllHashes(m, matched);
      hide MatchPrefix, GiveBack, ReleaseAll, AllocateMany;
      assert m.hashOf == st.pool.hashOf && |m.refs| == |st.pool.refs|;
      AllocPhaseClears(cfg, st, id, m, matched);
    }
  }

  lemma AllocPhaseClears(cfg: Config, st: Sched, id: SeqId, m: Pool, matched: seq<BlockId>)
    requires cfg.blockSize > 0 && id in st.seqs
    ensures var t := AllocPhase(cfg, st, id, m, matched).0;
      Cleared(m.hashOf, t.pool.hashOf) && |t.pool.refs| == |m.refs|
  {
    var total := BlocksFor(cfg.blockSize, st.seqs[id].target + 1);
    var missing := if total > |matched| then total - |matched| else 0;
    ReleaseAllHashes(m, matched);
    AllocateManyClears(m, matched, missing);
    var (q, blocks, ok) := AllocateMany(m, matched, missing);
    ReleaseAllHashes(q, blocks);
    hide AllocateMany, ReleaseAll;
  }

  lemma {:induction false} ExtendByClears(st: Sched, id: SeqId, k: nat)
    ensures Cleared(st.pool.hashOf, ExtendBy(st, id, k).0.pool.hashOf) && |ExtendBy(st, id, k).0.pool.refs| == |st.pool.refs|
    decreases k
  {
    if k > 0 && id in st.seqs && Allocate(st.pool).1.Some? {
      var (p, got) := Allocate(st.pool);
      AllocateClears(st.pool);
      var s := st.seqs[id];
      var m := st.(pool := p, seqs := st.seqs[id := s.(blocks := s.blocks + [got.value])]);
      assert ExtendBy(st, id, k) == ExtendBy(m, id, k - 1);
      hide Allocate, ExtendBy;
      ExtendByClears(m, id, k - 1);
      ClearedTwice(st.pool.hashOf, p.hashOf, ExtendBy(m, id, k - 1).0.pool.hashOf);
    }
  }

  lemma TryExtendClears(cfg: Config, st: Sched, id: SeqId, extra: nat)
    requires cfg.blockSize > 0
    ensures Cleared(st.pool.hashOf, TryExtend(cfg, st, id, extra).0.pool.hashOf) && |TryExtend(cfg, st, id, extra).0.pool.refs| == |st.pool.refs|
  {
    if id in st.seqs {
      var need, have := BlocksFor(cfg.blockSize, st.seqs[id].computed + extra), |st.seqs[id].blocks|;
      ExtendByClears(st, id, if need > have then need - have else 0);
      hide ExtendBy;
    }
  }

  ghost predicate Passed(cfg: Config, st: Sched, t: Sched)
    requires cfg.blockSize > 0
  {
    Cleared(st.pool.hashOf, t.pool.hashOf) && |t.pool.refs| == |st.pool.refs| && AllEvolved(cfg, st.seqs, t.seqs) && t.nextId == st.nextId
  }

  lemma PassedTwice(cfg: Config, a: Sched, b: Sched, c: Sched)
    requires cfg.blockSize > 0 && Passed(cfg, a, b) && Passed(cfg, b, c)
    ensures Passed(cfg, a, c)
  {
    hide Cleared, AllEvolved;
    ClearedTwice(a.pool.hashOf, b.pool.hashOf, c.pool.hashOf);
    AllEvolvedTwice(cfg, a.seqs, b.seqs, c.seqs);
  }

  lemma PassedSame(cfg: Config, st: Sched, t: Sched)
    requires cfg.blockSize > 0 && t.pool.hashOf == st.pool.hashOf && |t.pool.refs| == |st.pool.refs| && t.seqs == st.seqs && t.nextId == st.nextId
    ensures Passed(cfg, st, t)
  {}

  lemma DecodeOneClears(cfg: Config, w: Work, id: SeqId)
    requires cfg.blockSize > 0
    ensures var v := DecodeOne(cfg, w, id).0;
      Cleared(w.st.pool.hashOf, v.st.pool.hashOf) && |v.st.pool.refs| == |w.st.pool.refs|
  {
    TryExtendClears(cfg, w.st, id, 1);
    var t := TryExtend(cfg, w.st, id, 1).0;
    if id in t.seqs {
      ReleaseAllHashes(t.pool, t.seqs[id].blocks);
    }
    hide TryExtend, ReleaseAll, PushSeq;
  }

  lemma DecodedEvolves(cfg: Config, w: Work, id: SeqId, v: Work, keep: bool)
    requires cfg.blockSize > 0 && Decoded(cfg, w, id, v, keep) && !IsFinished(w.st.seqs[id])
    requires keep && !NeedsPrefill(w.st.seqs[id]) && w.budget > 0 ==> IsActive(w.st.seqs[id]) && w.st.seqs[id].blocks <= v.st.seqs[id].blocks
    ensures AllEvolved(cfg, w.st.seqs, v.st.seqs) && v.st.nextId == w.st.nextId
  {
    if keep && (NeedsPrefill(w.st.seqs[id]) || w.budget == 0) {
      assert AllEvolved(cfg, w.st.seqs, w.st.seqs);
    } else {
      OneEvolved(cfg, w.st.seqs, id, v.st.seqs[id], v.st.seqs);
    }
  }

  lemma DecodeOneGrows(cfg: Config, w: Work, id: SeqId)
    requires WorkOk(cfg, w) && id in w.st.running && cfg.blockSize > 0
    ensures var (v, keep) := DecodeOne(cfg, w, id);
      id in w.st.seqs && IsActive(w.st.seqs[id]) && !IsFinished(w.st.seqs[id])
      && (keep && !NeedsPrefill(w.st.seqs[id]) && w.budget > 0 ==> id in v.st.seqs && w.st.seqs[id].blocks <= v.st.seqs[id].blocks)
  {
    hide *;
    WorkParts(cfg, w);
    ActiveFacts(cfg, w.st, id);
    DecodeUnfold(cfg, w, id);
    if !(NeedsPrefill(w.st.seqs[id]) || w.budget == 0) {
      TryExtendOk(cfg, w.st, id, 1);
      var (t, ok) := TryExtend(cfg, w.st, id, 1);
      ExtendedParts(cfg, w.st, id, 1, t, ok);
    }
  }

  lemma DecodeOnePasses(cfg: Config, w: Work, id: SeqId)
    requires WorkOk(cfg, w) && id in w.st.running && id !in w.plan.batchSeqs && cfg.blockSize > 0
    ensures Passed(cfg, w.st, DecodeOne(cfg, w, id).0.st)
  {
    hide Cleared, AllEvolved, WorkOk, DecodeOne, Decoded;
    DecodeOneOk(cfg, w, id);
    DecodeOneClears(cfg, w, id);
    DecodeOneGrows(cfg, w, id);
    DecodedHas(cfg, w, id, DecodeOne(cfg, w, id).0, DecodeOne(cfg, w, id).1);
    DecodedEvolves(cfg, w, id, DecodeOne(cfg, w, id).0, DecodeOne(cfg, w, id).1);
  }

  lemma DecodedHas(cfg: Config, w: Work, id: SeqId, v: Work, keep: bool)
    requires cfg.blockSize > 0 && Decoded(cfg, w, id, v, keep)
    ensures id in w.st.seqs && id in v.st.seqs
  {}

  lemma {:induction false} DecodeLoopPasses(cfg: Config, w: Work, ids: seq<SeqId>, survivors: seq<SeqId>)
    requires w.st.running == [] && WorkOk(cfg, WithRunning(w, survivors + ids)) && cfg.blockSize > 0
    requires forall id :: id in w.plan.batchSeqs ==> id in survivors
    ensures Passed(cfg, w.st, DecodeLoop(cfg, w, ids, survivors).0.st)
    decreases |ids|
  {
    hide *;
    DecodeLoopUnfold(cfg, w, ids, survivors);
    if ids == [] {
      PassedSame(cfg, w.st, w.st);
    } else {
      DecodeTurn(cfg, w, ids, survivors);
      var (v, keep) := DecodeOne(cfg, w, ids[0]);
      TurnPasses(cfg, w, ids, survivors);
      DecodeLoopPasses(cfg, v, ids[1..], if keep then survivors + [ids[0]] else survivors);
      PassedTwice(cfg, w.st, v.st, DecodeLoop(cfg, w, ids, survivors).0.st);
    }
  }

  lemma TurnPasses(cfg: Config, w: Work, ids: seq<SeqId>, survivors: seq<SeqId>)
    requires ids != [] && w.st.running == [] && WorkOk(cfg, WithRunning(w, survivors + ids)) && cfg.blockSize > 0
    requires forall id :: id in w.plan.batchSeqs ==> id in survivors
    ensures Passed(cfg, w.st, DecodeOne(cfg, w, ids[0]).0.st)
  {
    var full, id := WithRunning(w, survivors + ids), ids[0];
    assert id in survivors + ids;
    var (v, keep) := DecodeOne(cfg, full, id);
    assert WithRunning(v, []).st == v.st.(running := []);
    DecodeOneRunning(cfg, w, id, survivors + ids);
    assert full.st == w.st.(running := survivors + ids) && full.plan == w.plan && full.st.running == survivors + ids;
    hide DecodeOne, WorkOk, Passed, WithRunning;
    assert survivors + ids == survivors + [id] + ids[1..];
    WorkParts(cfg, full);
    RunningIs(cfg, full.st, id);
    WithoutMiddle(survivors, id, ids[1..]);
    DecodeOnePasses(cfg, full, id);
    PassedRunning(cfg, full.st, w.st, v.st, v.st.(running := []));
  }

  lemma PassedRunning(cfg: Config, a: Sched, a': Sched, b: Sched, b': Sched)
    requires cfg.blockSize > 0 && Passed(cfg, a, b) && a'.pool == a.pool && a'.seqs == a.seqs && b'.pool == b.pool && b'.seqs == b.seqs
    requires a'.nextId == a.nextId && b'.nextId == b.nextId
    ensures Passed(cfg, a', b')
  {}

  lemma StartTurnPasses(cfg: Config, w: Work)
    requires WorkOk(cfg, w) && CanTryStart(cfg, w) && cfg.blockSize > 0 && w.st.waiting != []
    ensures Passed(cfg, w.st, StartOne(cfg, w).0.st)
  {
    hide *;
    WorkParts(cfg, w);
    var id := w.st.waiting[0];
    RunningIs(cfg, w.st, id);
    NotBoth(w.st.seqs[id]);
    WithoutHead(w.st.waiting);
    var (t, ok) := TryStart(cfg, w.st, id);
    TryStartCore(cfg, w.st, id);
    OutcomeShape(cfg, w.st, id, t, ok);
    StartOneUnfold(cfg, w);
    TryStartClears(cfg, w.st, id);
    if ok {
      JustStartedOk(cfg, w);
      JustStartedIs(cfg, w, t);
      var u := JustStarted(cfg, w);
      assert id in u.st.running;
      StartedChunkFits(cfg, u, id);
      ChunkedKeeps(cfg, u, id, PrefillChunk(cfg, u, id));
      AfterStartIs(w.st, id, t, true);
      OutcomeParts(cfg, w.st, id, t);
      StartEvolves(cfg, w.st, id, t);
      PassedMade(cfg, w.st, u.st);
      AfterStartNext(w.st, id, t, true);
    } else {
      EvolvedRefl(cfg, w.st.seqs);
      PassedMade(cfg, w.st, t);
    }
  }

  lemma AfterStartNext(st: Sched, id: SeqId, t: Sched, ok: bool)
    ensures AfterStart(st, id, t, ok).nextId == t.nextId
  {}

  lemma EvolvedRefl(cfg: Config, seqs: map<SeqId, Sequence>)
    requires cfg.blockSize > 0
    ensures AllEvolved(cfg, seqs, seqs)
  {}

  lemma PassedMade(cfg: Config, st: Sched, t: Sched)
    requires cfg.blockSize > 0
    requires Cleared(st.pool.hashOf, t.pool.hashOf) && |t.pool.refs| == |st.pool.refs| && AllEvolved(cfg, st.seqs, t.seqs)
    ensures t.nextId == st.nextId ==> Passed(cfg, st, t)
  {
    hide Cleared, AllEvolved;
  }

  lemma StartEvolves(cfg: Config, st: Sched, id: SeqId, t: Sched)
    requires cfg.blockSize > 0 && StartOutcome(cfg, st, id, t, true) && id in st.seqs && !IsFinished(st.seqs[id])
    ensures AllEvolved(cfg, st.seqs, t.seqs)
  {
    OneEvolved(cfg, st.seqs, id, t.seqs[id], t.seqs);
  }

  lemma {:induction false} StartLoopPasses(cfg: Config, w: Work)
    requires WorkOk(cfg, w) && cfg.blockSize > 0
    ensures Passed(cfg, w.st, StartLoop(cfg, w).st)
    decreases |w.st.waiting|
  {
    hide *;
    StartLoopUnfold(cfg, w);
    if CanTryStart(cfg, w) {
      CanTryStartIs(cfg, w);
      StartOneOk(cfg, w);
      StartTurnPasses(cfg, w);
      var (v, more) := StartOne(cfg, w);
      if more && |v.st.waiting| < |w.st.waiting| {
        StartLoopPasses(cfg, v);
        PassedTwice(cfg, w.st, v.st, StartLoop(cfg, v).st);
      }
    } else {
      PassedSame(cfg, w.st, w.st);
    }
  }

  lemma SchedulePasses(cfg: Config, st: Sched)
    requires Round(cfg, st) && cfg.blockSize > 0
    ensures Passed(cfg, st, Schedule(cfg, st).0)
  {
    hide *;
    var w0 := Work(st, EmptyPlan, cfg.maxBatched);
    ScheduleUnfold(cfg, st);
    StartWork(cfg, st);
    ScheduleDecodesOk(cfg, w0);
    ScheduleDecodesPasses(cfg, st);
    var w1 := AfterDecodes(cfg, st);
    AfterDecodesFresh(cfg, st);
    OnlyDecodesIs(w1.st.seqs, w1.plan);
    WorkParts(cfg, w1);
    WaitingNoDup(cfg, w1.st);
    ContinueLoopOk(cfg, w1, w1.st.running);
    var w2 := ContinueLoop(cfg, w1, w1.st.running);
    StartLoopPasses(cfg, w2);
    PassedTwice(cfg, st, w1.st, StartLoop(cfg, w2).st);
  }

  lemma ScheduleDecodesPasses(cfg: Config, st: Sched)
    requires Round(cfg, st) && cfg.blockSize > 0
    ensures Passed(cfg, st, AfterDecodes(cfg, st).st)
  {
    var w0 := Work(st, EmptyPlan, cfg.maxBatched);
    var taken := WithRunning(w0, []);
    assert WithRunning(taken, [] + st.running) == w0;
    assert taken.st == st.(running := []) && taken.plan.batchSeqs == [];
    var (v, out) := DecodeLoop(cfg, taken, st.running, []);
    assert AfterDecodes(cfg, st).st == v.st.(running := out);
    hide *;
    StartWork(cfg, st);
    DecodeLoopPasses(cfg, taken, st.running, []);
    PassedRunning(cfg, taken.st, st, v.st, v.st.(running := out));
  }

  lemma PassedParts(cfg: Config, st: Sched, t: Sched)
    requires cfg.blockSize > 0 && Passed(cfg, st, t)
    ensures Cleared(st.pool.hashOf, t.pool.hashOf) && |t.pool.refs| == |st.pool.refs| && AllEvolved(cfg, st.seqs, t.seqs) && t.nextId == st.nextId
  {
    hide Cleared, AllEvolved;
  }

  lemma ScheduleKvOk(cfg: Config, st: Sched, kv: Cache)
    requires Round(cfg, st) && cfg.blockSize > 0 && KvOk(cfg, st, kv)
    ensures KvOk(cfg, Schedule(cfg, st).0, kv)
  {
    hide *;
    var t := Schedule(cfg, st).0;
    ScheduleOk(cfg, st);
    SchedulePasses(cfg, st);
    PassedParts(cfg, st, t);
    RoundParts(cfg, st);
    RoundParts(cfg, t);
    CoreParts(cfg, st);
    CoreParts(cfg, t);
    EvolvedKvOk(cfg, st, t, kv);
  }
}
