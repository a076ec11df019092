/** Starting a sequence: match the cached prefix, keep the last token to compute,
    take the missing blocks. Either way the core invariant holds afterwards. */
module CoreStart {
  import opened Prelude
  import opened Hashing
  import opened PoolModel
  import opened Sequences
  import opened SchedulerModel
  import opened Invariants
  import opened CoreSteps

  // ------------------------------------------------------ the cached prefix

  lemma AddressesDistinct(cfg: Config, tenant: Text, tokens: seq<u32>, len: nat)
    requires cfg.blockSize > 0 && CollisionFree(cfg.hash, cfg.blockSize) && len <= |tokens|
    ensures NoDup(Addresses(cfg, tenant, tokens, len))
  {
    var r := Addresses(cfg, tenant, tokens, len);
    BlockEnds(len, cfg.blockSize);
    forall i, j | 0 <= i < j < |r| ensures r[i] != r[j] {
      AddressesDiffer(cfg, tenant, tokens, i, tenant, tokens, j);
    }
  }

  lemma AddressesDiffer(cfg: Config, t: Text, s: seq<u32>, i: nat, t': Text, s': seq<u32>, j: nat)
    requires cfg.blockSize > 0 && CollisionFree(cfg.hash, cfg.blockSize)
    requires BlockEnd(i, cfg.blockSize) <= |s| && BlockEnd(j, cfg.blockSize) <= |s'|
    ensures cfg.hash(t, Upto(s, BlockEnd(i, cfg.blockSize))) == cfg.hash(t', Upto(s', BlockEnd(j, cfg.blockSize)))
      ==> t == t' && i == j && Upto(s, BlockEnd(i, cfg.blockSize)) == Upto(s', BlockEnd(i, cfg.blockSize))
  {
    var a, b := Upto(s, BlockEnd(i, cfg.blockSize)), Upto(s', BlockEnd(j, cfg.blockSize));
    DivUnique(i + 1, 0, cfg.blockSize);
    DivUnique(j + 1, 0, cfg.blockSize);
    assert |a| == (i + 1) * cfg.blockSize + 0 && |b| == (j + 1) * cfg.blockSize + 0;
    assert |a| % cfg.blockSize == 0 && |b| % cfg.blockSize == 0;
    assert |a| / cfg.blockSize == i + 1 && |b| / cfg.blockSize == j + 1;
  }

  /** What is left after the carve-out: a prefix of the match, short of the whole text. */
  lemma {:induction false} GiveBackOk(p0: Pool, p: Pool, matched: seq<BlockId>, target: nat)
    requires PoolOk(p0) && PoolOk(p) && Took(p0, p, matched) && p.hashOf == p0.hashOf && NoDup(matched)
    requires forall j :: 0 <= j < |matched| ==> matched[j] < |p0.refs|
    ensures var (q, kept) := GiveBack(p, matched, target);
      PoolOk(q) && Took(p0, q, kept) && q.hashOf == p0.hashOf
      && kept <= matched && (kept == [] || |kept| * p0.blockSize < target)
      && (|matched| * p0.blockSize < target ==> kept == matched)
    decreases |matched|
  {
    if |matched| * p.blockSize >= target && matched != [] {
      var m := |matched| - 1;
      var b, rest := matched[m], matched[..m];
      assert matched == rest + [b];
      assert b in matched;
      NoDupSplit(rest, [b]);
      assert b in [b];
      assert p.refs[b] == p0.refs[b] + 1;
      ReleaseOk(p, b);
      var q := Release(p, b);
      assert forall c :: c in matched <==> c in rest || c == b;
      assert Took(p0, q, rest);
      hide PoolOk, Took, Release;
      GiveBackOk(p0, q, rest, target);
    }
  }

  // --------------------------------------------------------- fresh blocks

  /** `q` is `p` with the free blocks `got` handed out, empty. */
  ghost predicate HandedOut(p: Pool, q: Pool, got: seq<BlockId>) {
    Took(p, q, got) && NoDup(got) && |p.hashOf| == |p.refs|
    && (forall j :: 0 <= j < |got| ==> got[j] < |p.refs| && p.refs[got[j]] == 0 && q.hashOf[got[j]] == None)
    && (forall b: nat :: b < |p.hashOf| && b !in got ==> q.hashOf[b] == p.hashOf[b])
  }

  lemma HandedOutFirst(p: Pool, m: Pool, b: BlockId, q: Pool, rest: seq<BlockId>)
    requires |p.hashOf| == |p.refs| && |m.hashOf| == |m.refs| && b < |p.refs| && p.refs[b] == 0
    requires m.refs == p.refs[b := 1] && m.hashOf == p.hashOf[b := None] && m.watermark == p.watermark && m.blockSize == p.blockSize
    requires HandedOut(m, q, rest)
    ensures HandedOut(p, q, [b] + rest)
  {
    assert b !in rest;
    NoDupJoin([b], rest);
    assert forall c :: c in [b] + rest <==> c == b || c in rest;
    var got := [b] + rest;
    assert forall j :: 0 < j < |got| ==> got[j] == rest[j - 1];
  }

  lemma AllocateManyIs(p: Pool, blocks: seq<BlockId>, n: nat)
    ensures n == 0 ==> AllocateMany(p, blocks, n) == (p, blocks, true)
    ensures n > 0 && Allocate(p).1.Some? ==> AllocateMany(p, blocks, n) == AllocateMany(Allocate(p).0, blocks + [Allocate(p).1.value], n - 1)
  {}

  lemma HandedOutNothing(p: Pool)
    requires |p.hashOf| == |p.refs|
    ensures HandedOut(p, p, [])
  {}

  lemma {:induction false} AllocateManyOk(p: Pool, blocks: seq<BlockId>, n: nat) returns (got: seq<BlockId>)
    requires PoolOk(p) && n <= |p.free|
    ensures var (q, out, ok) := AllocateMany(p, blocks, n);
      ok && PoolOk(q) && out == blocks + got && |got| == n && HandedOut(p, q, got) && |q.free| == |p.free| - n
    decreases n
  {
    hide *;
    AllocateOk(p);
    AllocateManyIs(p, blocks, n);
    SizesOk(p);
    if n == 0 {
      got := [];
      HandedOutNothing(p);
    } else {
      var (m, first) := Allocate(p);
      SizesOk(m);
      var rest := AllocateManyOk(m, blocks + [first.value], n - 1);
      got := [first.value] + rest;
      HandedOutFirst(p, m, first.value, AllocateMany(m, blocks + [first.value], n - 1).0, rest);
      assert blocks + [first.value] + rest == blocks + got;
    }
  }

  // ------------------------------------------------------------ the new list

  /** The sequence `try_start` leaves behind. */
  function Started(cfg: Config, s: Sequence, matched: seq<BlockId>, blocks: seq<BlockId>): Sequence {
    AdoptCachedPrefix(s, matched, |matched| * cfg.blockSize).(blocks := blocks, status := Prefilling)
  }

  /** Cached blocks matched for a sequence: each carries the address of its prefix. */
  ghost predicate Matches(cfg: Config, hashOf: seq<Option<BlockHash>>, s: Sequence, matched: seq<BlockId>)
    requires cfg.blockSize > 0
  {
    NoDup(matched) && (!cfg.prefixCache ==> matched == [])
    && forall j :: 0 <= j < |matched| ==> matched[j] < |hashOf| && hashOf[matched[j]] == Some(Address(cfg, s, j))
  }

  lemma StartedLocal(cfg: Config, p: Pool, m: Pool, q: Pool, s: Sequence, matched: seq<BlockId>, got: seq<BlockId>)
    requires cfg.blockSize > 0 && |p.hashOf| == |p.refs| && Matches(cfg, p.hashOf, s, matched)
    requires Took(p, m, matched) && m.hashOf == p.hashOf && HandedOut(m, q, got)
    ensures LocalOk(cfg, q.hashOf, Started(cfg, s, matched, matched + got))
  {
    var t := Started(cfg, s, matched, matched + got);
    assert forall j :: 0 <= j < |matched| ==> matched[j] in matched && m.refs[matched[j]] > 0;
    assert forall x :: x in matched ==> x !in got;
    NoDupJoin(matched, got);
    assert forall j :: 0 <= j < |matched| ==> t.blocks[j] == matched[j];
    assert forall j :: |matched| <= j < |t.blocks| ==> t.blocks[j] == got[j - |matched|];
    if !cfg.prefixCache {
      assert 0 / cfg.blockSize == 0;
    }
    forall j | 0 <= j < |matched| ensures q.hashOf[t.blocks[j]] == Some(Address(cfg, t, j)) {
      assert Address(cfg, t, j) == Address(cfg, s, j);
    }
  }

  lemma StartedApart(cfg: Config, p: Pool, m: Pool, q: Pool, s: Sequence, matched: seq<BlockId>, got: seq<BlockId>, o: Sequence)
    requires cfg.blockSize > 0 && |p.hashOf| == |p.refs| && Matches(cfg, p.hashOf, s, matched)
    requires Took(p, m, matched) && m.hashOf == p.hashOf && HandedOut(m, q, got)
    requires LocalOk(cfg, p.hashOf, o) && forall b: nat :: b < |p.refs| && p.refs[b] == 0 ==> b !in o.blocks
    ensures Apart(cfg, Started(cfg, s, matched, matched + got), o) && Apart(cfg, o, Started(cfg, s, matched, matched + got))
    ensures forall b :: b in o.blocks && b < |p.hashOf| ==> q.hashOf[b] == p.hashOf[b]
  {
    var t := Started(cfg, s, matched, matched + got);
    if !cfg.prefixCache {
      assert 0 / cfg.blockSize == 0;
    }
    assert forall j :: 0 <= j < |got| ==> p.refs[got[j]] == 0;
    assert forall j :: |matched| <= j < |t.blocks| ==> t.blocks[j] == got[j - |matched|];
    assert forall x :: x in t.blocks ==> x in matched || x in got;
  }

  /** The pool after a start counts the new list. */
  lemma StartedRefs(p: Pool, m: Pool, q: Pool, matched: seq<BlockId>, got: seq<BlockId>)
    requires Took(p, m, matched) && HandedOut(m, q, got)
    requires forall j :: 0 <= j < |matched| ==> matched[j] < |p.refs|
    ensures Took(p, q, matched + got)
  {
    assert forall j :: 0 <= j < |matched| ==> matched[j] in matched && m.refs[matched[j]] > 0;
    assert forall x :: x in matched ==> x !in got;
    assert forall x :: x in matched + got <==> x in matched || x in got;
  }

  lemma StartedBlocks(cfg: Config, p: Pool, m: Pool, q: Pool, seqs: map<SeqId, Sequence>, id: SeqId, matched: seq<BlockId>, got: seq<BlockId>)
    requires cfg.blockSize > 0 && PoolOk(p) && BlocksOk(cfg, p, seqs) && id in seqs && seqs[id].blocks == []
    requires Matches(cfg, p.hashOf, seqs[id], matched)
    requires Took(p, m, matched) && m.hashOf == p.hashOf && HandedOut(m, q, got)
    ensures BlocksOk(cfg, q, seqs[id := Started(cfg, seqs[id], matched, matched + got)])
  {
    var s := Started(cfg, seqs[id], matched, matched + got);
    assert |p.hashOf| == |p.refs|;
    StartedLocal(cfg, p, m, q, seqs[id], matched, got);
    StartedRefs(p, m, q, matched, got);
    forall o | o in seqs && o != id
      ensures Apart(cfg, s, seqs[o]) && Apart(cfg, seqs[o], s)
      ensures forall b :: b in seqs[o].blocks && b < |p.hashOf| ==> q.hashOf[b] == p.hashOf[b]
    {
      forall b: nat | b < |p.refs| && p.refs[b] == 0 ensures b !in seqs[o].blocks {
        Unlisted(p, seqs, b, o);
      }
      StartedApart(cfg, p, m, q, seqs[id], matched, got, seqs[o]);
    }
    hide LocalOk, Apart, HandedOut, Matches, PoolOk;
    Replace(cfg, p, seqs, id, s, q);
  }

  // --------------------------------------------------------------- assembly

  /** Nothing but the order of the free list changed. */
  lemma SamePool(cfg: Config, p: Pool, q: Pool, seqs: map<SeqId, Sequence>)
    requires cfg.blockSize > 0 && BlocksOk(cfg, p, seqs) && Took(p, q, []) && q.hashOf == p.hashOf
    ensures BlocksOk(cfg, q, seqs)
  {
    hide LocalOk, PrivateOk;
  }

  /** The first half of `try_start`. */
  function MatchPhase(cfg: Config, p: Pool, s: Sequence): (Pool, seq<BlockId>)
    requires cfg.blockSize > 0
  {
    var (p1, got) := if cfg.prefixCache then MatchPrefix(p, Addresses(cfg, s.tenant, s.tokens, s.target)) else (p, []);
    if cfg.prefixCache then GiveBack(p1, got, s.target) else (p1, got)
  }

  lemma MatchedAddresses(cfg: Config, hashOf: seq<Option<BlockHash>>, s: Sequence, got: seq<BlockId>, matched: seq<BlockId>)
    requires cfg.blockSize > 0 && cfg.prefixCache && NoDup(got) && matched <= got
    requires var hashes := Addresses(cfg, s.tenant, s.tokens, s.target);
      |got| <= |hashes| && forall i :: 0 <= i < |got| ==> got[i] < |hashOf| && hashOf[got[i]] == Some(hashes[i])
    ensures Matches(cfg, hashOf, s, matched) && forall j :: 0 <= j < |got| ==> got[j] < |hashOf|
  {
    assert forall j :: 0 <= j < |matched| ==> matched[j] == got[j];
  }

  lemma MatchPhaseIs(cfg: Config, p: Pool, s: Sequence)
    requires cfg.blockSize > 0
    ensures cfg.prefixCache ==>
      var (p1, got) := MatchPrefix(p, Addresses(cfg, s.tenant, s.tokens, s.target));
      MatchPhase(cfg, p, s) == GiveBack(p1, got, s.target)
    ensures !cfg.prefixCache ==> MatchPhase(cfg, p, s) == (p, []) && Matches(cfg, p.hashOf, s, [])
  {}

  lemma MatchPhaseOk(cfg: Config, p: Pool, s: Sequence)
    requires cfg.blockSize > 0 && CollisionFree(cfg.hash, cfg.blockSize) && p.blockSize == cfg.blockSize
    requires PoolOk(p) && 1 <= s.target <= |s.tokens|
    ensures var (m, matched) := MatchPhase(cfg, p, s);
      PoolOk(m) && Took(p, m, matched) && m.hashOf == p.hashOf && Matches(cfg, p.hashOf, s, matched)
      && |matched| * cfg.blockSize < s.target && |m.free| <= |p.free|
  {
    hide *;
    MatchPhaseIs(cfg, p, s);
    var (m, matched) := MatchPhase(cfg, p, s);
    if cfg.prefixCache {
      var hashes := Addresses(cfg, s.tenant, s.tokens, s.target);
      AddressesDistinct(cfg, s.tenant, s.tokens, s.target);
      MatchPrefixOk(p, hashes);
      MatchPrefixRefs(p, hashes);
      var (p1, got) := MatchPrefix(p, hashes);
      SizesOk(p);
      MatchedAddresses(cfg, p.hashOf, s, got, got);
      GiveBackOk(p, p1, got, s.target);
      MatchedAddresses(cfg, p.hashOf, s, got, matched);
    } else {
      TookNothing(p);
    }
    FreeAfterTook(p, m, matched);
  }

  /** A pool with more references has no more free blocks. */
  lemma FreeAfterTook(p: Pool, q: Pool, extra: seq<BlockId>)
    requires PoolOk(p) && PoolOk(q) && Took(p, q, extra)
    ensures |q.free| <= |p.free|
  {
    var a, b := (set x | x in p.free), (set x | x in q.free);
    assert b <= a;
    SeqCard(p.free, a);
    SeqCard(q.free, b);
    SubsetCard(b, a);
  }

  lemma {:induction false} SeqCard(s: seq<BlockId>, a: set<BlockId>)
    requires NoDup(s) && a == set x | x in s
    ensures |a| == |s|
  {
    if s != [] {
      assert s == [s[0]] + s[1..];
      NoDupSplit([s[0]], s[1..]);
      assert s[0] in [s[0]];
      var rest := set x | x in s[1..];
      SeqCard(s[1..], rest);
      assert a == {s[0]} + rest;
    }
  }

  lemma {:induction false} SubsetCard(b: set<BlockId>, a: set<BlockId>)
    requires b <= a
    ensures |b| <= |a|
  {
    assert a == b + (a - b);
  }

  /** The second half of `try_start`: the outcome, given the match. */
  function AllocPhase(cfg: Config, st: Sched, id: SeqId, m: Pool, matched: seq<BlockId>): (Sched, bool)
    requires cfg.blockSize > 0 && id in st.seqs
  {
    var s := st.seqs[id];
    var total := BlocksFor(cfg.blockSize, s.target + 1);
    var missing := if total > |matched| then total - |matched| else 0;
    if !CanAllocate(m, missing) then (st.(pool := ReleaseAll(m, matched)), false)
    else
      var (p3, blocks, ok) := AllocateMany(m, matched, missing);
      if !ok then (st.(pool := ReleaseAll(p3, blocks)), false)
      else (st.(pool := p3, seqs := st.seqs[id := Started(cfg, s, matched, blocks)]), true)
  }

  lemma TryStartPhases(cfg: Config, st: Sched, id: SeqId)
    requires cfg.blockSize > 0 && id in st.seqs
    ensures var (m, matched) := MatchPhase(cfg, st.pool, st.seqs[id]);
      TryStart(cfg, st, id) == AllocPhase(cfg, st, id, m, matched)
  {}

  /** What a start leaves behind: the sequence covers its whole text and one token more,
      has something left to compute, and the watermark is still free. */
  ghost predicate StartOutcome(cfg: Config, st: Sched, id: SeqId, t: Sched, ok: bool)
    requires cfg.blockSize > 0
  {
    id in st.seqs && id in t.seqs && t == st.(pool := t.pool, seqs := t.seqs) && t.seqs == st.seqs[id := t.seqs[id]]
    && (!ok ==> t.seqs == st.seqs)
    && (ok ==>
          var s, n := st.seqs[id], t.seqs[id];
          n == s.(blocks := n.blocks, cachedBlocks := n.cachedBlocks, cachedTokens := n.computed, computed := n.computed, status := Prefilling)
          && n.computed == n.cachedBlocks * cfg.blockSize < n.target
          && |n.blocks| == BlocksFor(cfg.blockSize, n.target + 1)
          && (!cfg.prefixCache ==> n.cachedBlocks == 0)
          && |t.pool.free| >= t.pool.watermark)
  }

  lemma MatchedWithin(blockSize: nat, k: nat, target: nat)
    requires blockSize > 0 && k * blockSize < target
    ensures k < BlocksFor(blockSize, target + 1) && (k * blockSize) / blockSize == k
    ensures BlocksFor(blockSize, k * blockSize) <= k
  {
    DivUnique(k, 0, blockSize);
    BlocksForCovers(blockSize, target + 1, k * blockSize);
    DivUnique(k, blockSize - 1, blockSize);
  }

  lemma MatchedHeld(cfg: Config, p: Pool, m: Pool, s: Sequence, matched: seq<BlockId>)
    requires cfg.blockSize > 0 && |p.hashOf| == |p.refs| && Matches(cfg, p.hashOf, s, matched) && Took(p, m, matched)
    ensures AllHeld(m, matched) && NoDup(matched)
  {}

  lemma UndoTook(p: Pool, m: Pool, q: Pool, matched: seq<BlockId>)
    requires Took(p, m, matched) && |q.refs| == |m.refs| && |q.hashOf| == |m.hashOf| && q.watermark == m.watermark && q.blockSize == m.blockSize
    requires forall b: nat :: b < |m.refs| ==> q.refs[b] == m.refs[b] - Once(matched, b)
    ensures Took(p, q, [])
  {}

  /** Not enough room: everything matched is given back. */
  lemma StartFails(cfg: Config, st: Sched, id: SeqId, m: Pool, matched: seq<BlockId>)
    requires cfg.blockSize > 0 && PoolOk(st.pool) && st.pool.blockSize == cfg.blockSize && BlocksOk(cfg, st.pool, st.seqs) && id in st.seqs
    requires PoolOk(m) && Took(st.pool, m, matched) && m.hashOf == st.pool.hashOf && Matches(cfg, st.pool.hashOf, st.seqs[id], matched)
    ensures var q := ReleaseAll(m, matched);
      PoolOk(q) && q.blockSize == cfg.blockSize && BlocksOk(cfg, q, st.seqs)
  {
    hide *;
    SizesOk(st.pool);
    MatchedHeld(cfg, st.pool, m, st.seqs[id], matched);
    ReleaseAllOk(m, matched);
    SizesOk(m);
    SizesOk(ReleaseAll(m, matched));
    UndoTook(st.pool, m, ReleaseAll(m, matched), matched);
    TookSizes(st.pool, m, matched);
    SamePool(cfg, st.pool, ReleaseAll(m, matched), st.seqs);
  }

  lemma TookSizes(p: Pool, q: Pool, extra: seq<BlockId>)
    requires Took(p, q, extra)
    ensures |q.refs| == |p.refs| && q.blockSize == p.blockSize && q.watermark == p.watermark
  {}

  lemma HandedOutSizes(p: Pool, q: Pool, got: seq<BlockId>)
    requires HandedOut(p, q, got)
    ensures |q.refs| == |p.refs| && q.blockSize == p.blockSize && q.watermark == p.watermark
  {}

  lemma AllocPhaseIs(cfg: Config, st: Sched, id: SeqId, m: Pool, matched: seq<BlockId>, missing: nat)
    requires cfg.blockSize > 0 && id in st.seqs && |matched| + missing == BlocksFor(cfg.blockSize, st.seqs[id].target + 1)
    requires |matched| * cfg.blockSize < st.seqs[id].target && (!cfg.prefixCache ==> matched == [])
    ensures !CanAllocate(m, missing) ==>
      var t := st.(pool := ReleaseAll(m, matched));
      AllocPhase(cfg, st, id, m, matched) == (t, false) && StartOutcome(cfg, st, id, t, false)
    ensures CanAllocate(m, missing) && AllocateMany(m, matched, missing).2 ==>
      var (q, blocks, _) := AllocateMany(m, matched, missing);
      var t := st.(pool := q, seqs := st.seqs[id := Started(cfg, st.seqs[id], matched, blocks)]);
      AllocPhase(cfg, st, id, m, matched) == (t, true)
      && (|blocks| == |matched| + missing && |q.free| >= q.watermark ==> StartOutcome(cfg, st, id, t, true))
  {
    assert st.seqs == st.seqs[id := st.seqs[id]];
  }

  lemma CanAllocateIs(p: Pool, want: nat)
    ensures CanAllocate(p, want) <==> |p.free| >= want + p.watermark
  {}

  lemma AllocPhaseOk(cfg: Config, st: Sched, id: SeqId, m: Pool, matched: seq<BlockId>)
    requires cfg.blockSize > 0 && PoolOk(st.pool) && st.pool.blockSize == cfg.blockSize && BlocksOk(cfg, st.pool, st.seqs)
    requires id in st.seqs && st.seqs[id].blocks == []
    requires PoolOk(m) && Took(st.pool, m, matched) && m.hashOf == st.pool.hashOf
    requires Matches(cfg, st.pool.hashOf, st.seqs[id], matched) && |matched| * cfg.blockSize < st.seqs[id].target
    ensures var (t, ok) := AllocPhase(cfg, st, id, m, matched);
      PoolOk(t.pool) && t.pool.blockSize == cfg.blockSize && BlocksOk(cfg, t.pool, t.seqs) && StartOutcome(cfg, st, id, t, ok)
      && (ok <==> |m.free| >= BlocksFor(cfg.blockSize, st.seqs[id].target + 1) - |matched| + m.watermark)
  {
    hide *;
    MatchedWithin(cfg.blockSize, |matched|, st.seqs[id].target);
    var missing := BlocksFor(cfg.blockSize, st.seqs[id].target + 1) - |matched|;
    MatchesParts(cfg, st.pool.hashOf, st.seqs[id], matched);
    AllocPhaseIs(cfg, st, id, m, matched, missing);
    CanAllocateIs(m, missing);
    TookSizes(st.pool, m, matched);
    if CanAllocate(m, missing) {
      var got := AllocateManyOk(m, matched, missing);
      var q := AllocateMany(m, matched, missing).0;
      HandedOutSizes(m, q, got);
      StartedBlocks(cfg, st.pool, m, q, st.seqs, id, matched, got);
    } else {
      StartFails(cfg, st, id, m, matched);
    }
  }

  lemma MatchesParts(cfg: Config, hashOf: seq<Option<BlockHash>>, s: Sequence, matched: seq<BlockId>)
    requires cfg.blockSize > 0 && Matches(cfg, hashOf, s, matched)
    ensures !cfg.prefixCache ==> matched == []
  {}

  lemma StartedBasic(cfg: Config, s: Sequence, n: Sequence)
    requires cfg.blockSize > 0 && BasicOk(cfg, s)
    requires n == s.(blocks := n.blocks, cachedBlocks := n.cachedBlocks, cachedTokens := n.computed, computed := n.computed, status := Prefilling)
    requires n.computed == n.cachedBlocks * cfg.blockSize < n.target && |n.blocks| == BlocksFor(cfg.blockSize, n.target + 1)
    requires !cfg.prefixCache ==> n.cachedBlocks == 0
    ensures BasicOk(cfg, n)
  {
    MatchedWithin(cfg.blockSize, n.cachedBlocks, n.target);
  }

  /** Popped from `waiting` and, when started, pushed onto `running`. */
  function AfterStart(st: Sched, id: SeqId, t: Sched, ok: bool): Sched {
    if ok then t.(waiting := Without(st.waiting, id), running := st.running + [id]) else t.(waiting := st.waiting)
  }

  lemma StartQueues(cfg: Config, st: Sched, id: SeqId, t: Sched)
    requires cfg.blockSize > 0 && QueuesOk(st) && RequestsOk(st) && id in st.seqs && IsWaiting(st.seqs[id]) && StartOutcome(cfg, st, id, t, true)
    ensures QueuesOk(AfterStart(st, id, t, true)) && RequestsOk(AfterStart(st, id, t, true))
  {
    var u := AfterStart(st, id, t, true);
    RequestsKept(st, u, id);
    ClassesAfter(st.seqs, id, t.seqs[id]);
    hide RequestsOk, QueueIs;
    QueueDrop(st.waiting, WaitingIds(st.seqs), id);
    QueuePush(st.running, ActiveIds(st.seqs), id);
    assert FinishedIds(u.seqs) == FinishedIds(st.seqs);
  }

  lemma TryStartCore(cfg: Config, st: Sched, id: SeqId)
    requires Core(cfg, st) && id in st.seqs && IsWaiting(st.seqs[id])
    ensures var (t, ok) := TryStart(cfg, st, id);
      Core(cfg, AfterStart(st, id, t, ok)) && StartOutcome(cfg, st, id, t, ok)
  {
    CoreParts(cfg, st);
    var s := st.seqs[id];
    assert s.blocks == [] && 1 <= s.target <= |s.tokens|;
    TryStartPhases(cfg, st, id);
    TryStartAssemble(cfg, st, id);
    hide TryStart, Core;
  }

  lemma TryStartAssemble(cfg: Config, st: Sched, id: SeqId)
    requires Core(cfg, st) && id in st.seqs && IsWaiting(st.seqs[id])
    requires st.seqs[id].blocks == [] && 1 <= st.seqs[id].target <= |st.seqs[id].tokens|
    ensures var (m, matched) := MatchPhase(cfg, st.pool, st.seqs[id]);
      var (t, ok) := AllocPhase(cfg, st, id, m, matched);
      Core(cfg, AfterStart(st, id, t, ok)) && StartOutcome(cfg, st, id, t, ok)
  {
    hide *;
    CoreParts(cfg, st);
    var s := st.seqs[id];
    MatchPhaseOk(cfg, st.pool, s);
    var (m, matched) := MatchPhase(cfg, st.pool, s);
    AllocPhaseOk(cfg, st, id, m, matched);
    var (t, ok) := AllocPhase(cfg, st, id, m, matched);
    if ok {
      OutcomeParts(cfg, st, id, t);
      StartedBasic(cfg, s, t.seqs[id]);
      StartQueues(cfg, st, id, t);
      AfterStartIs(st, id, t, true);
      BasicKept(cfg, st.seqs, id, t.seqs[id], t.seqs);
      CoreMade(cfg, AfterStart(st, id, t, true));
    } else {
      FailedStart(cfg, st, id, t);
    }
  }

  lemma AfterStartIs(st: Sched, id: SeqId, t: Sched, ok: bool)
    ensures AfterStart(st, id, t, ok).pool == t.pool && AfterStart(st, id, t, ok).seqs == t.seqs
  {}

  lemma OutcomeParts(cfg: Config, st: Sched, id: SeqId, t: Sched)
    requires cfg.blockSize > 0 && StartOutcome(cfg, st, id, t, true)
    ensures id in st.seqs && id in t.seqs && t.seqs == st.seqs[id := t.seqs[id]]
    ensures var s, n := st.seqs[id], t.seqs[id];
      n == s.(blocks := n.blocks, cachedBlocks := n.cachedBlocks, cachedTokens := n.computed, computed := n.computed, status := Prefilling)
      && n.computed == n.cachedBlocks * cfg.blockSize < n.target && |n.blocks| == BlocksFor(cfg.blockSize, n.target + 1)
      && (!cfg.prefixCache ==> n.cachedBlocks == 0)
  {}

  lemma FailedStart(cfg: Config, st: Sched, id: SeqId, t: Sched)
    requires Core(cfg, st) && StartOutcome(cfg, st, id, t, false)
    requires PoolOk(t.pool) && t.pool.blockSize == cfg.blockSize && BlocksOk(cfg, t.pool, t.seqs)
    ensures Core(cfg, AfterStart(st, id, t, false))
  {
    hide PoolOk, BlocksOk, RequestsOk, BasicOk, CollisionFree, QueueIs;
    assert AfterStart(st, id, t, false) == st.(pool := t.pool);
    RequestsFrame(st, st.(pool := t.pool));
  }

  lemma RequestsFrame(st: Sched, t: Sched)
    requires RequestsOk(st) && t.seqs == st.seqs && t.byRequest == st.byRequest
    ensures RequestsOk(t)
  {}
}
