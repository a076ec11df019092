/** The refcounted block pool as a value (crates/vapi-cache/src/pool.rs).

    The intrusive list is abstracted to the sequence of free blocks, head first.
    Every operation is total: where the program would trip a debug assertion the
    state is returned unchanged, and the invariants show that this never happens. */
module PoolModel {
  import opened Prelude
  import opened Hashing

  type BlockId = nat

  datatype Pool = Pool(
    blockSize: nat,
    watermark: nat,
    refs: seq<nat>,
    hashOf: seq<Option<BlockHash>>,
    byHash: map<BlockHash, BlockId>,
    free: seq<BlockId>)

  // ------------------------------------------------------------ operations

  function Range(n: nat): (r: seq<BlockId>)
    ensures |r| == n && forall i :: 0 <= i < n ==> r[i] == i
  {
    seq(n, i => i)
  }

  /** `vec![value; n]`. */
  function Filled<T>(n: nat, value: T): (r: seq<T>)
    ensures |r| == n && forall i :: 0 <= i < n ==> r[i] == value
  {
    seq(n, _ => value)
  }

  function NewPool(numBlocks: nat, blockSize: nat, watermark: nat): Pool {
    Pool(blockSize, if watermark <= numBlocks then watermark else numBlocks,
         Filled(numBlocks, 0), Filled(numBlocks, None), map[], Range(numBlocks))
  }

  /** `div_ceil`. */
  function BlocksFor(blockSize: nat, tokens: nat): nat
    requires blockSize > 0
  {
    (tokens + blockSize - 1) / blockSize
  }

  predicate CanAllocate(p: Pool, want: nat) {
    |p.free| >= want + p.watermark
  }

  function Allocate(p: Pool): (Pool, Option<BlockId>) {
    if p.free == [] then (p, None)
    else
      var b := p.free[0];
      if b >= |p.refs| || b >= |p.hashOf| then (p, None)
      else
        var index := match p.hashOf[b] case None => p.byHash case Some(h) => p.byHash - {h};
        (p.(free := p.free[1..], refs := p.refs[b := 1], hashOf := p.hashOf[b := None], byHash := index), Some(b))
  }

  function AllocateGuarded(p: Pool): (Pool, Option<BlockId>) {
    if CanAllocate(p, 1) then Allocate(p) else (p, None)
  }

  predicate Held(p: Pool, b: BlockId) {
    b < |p.refs| && b < |p.hashOf| && p.refs[b] > 0
  }

  function IncRef(p: Pool, b: BlockId): Pool {
    if Held(p, b) then p.(refs := p.refs[b := p.refs[b] + 1]) else p
  }

  function Release(p: Pool, b: BlockId): Pool {
    if !Held(p, b) then p
    else
      var q := p.(refs := p.refs[b := p.refs[b] - 1]);
      if q.refs[b] > 0 then q
      else if q.hashOf[b].Some? then q.(free := q.free + [b])
      else q.(free := [b] + q.free)
  }

  function ReleaseAll(p: Pool, blocks: seq<BlockId>): Pool
    decreases |blocks|
  {
    if blocks == [] then p else ReleaseAll(Release(p, blocks[0]), blocks[1..])
  }

  /** Take a reference to a block that may be free but cached. */
  function Reference(p: Pool, b: BlockId): Pool {
    if b >= |p.refs| then p
    else
      p.(free := if p.refs[b] == 0 then Without(p.free, b) else p.free,
         refs := p.refs[b := p.refs[b] + 1])
  }

  function Publish(p: Pool, b: BlockId, h: BlockHash): (Pool, BlockId) {
    if h in p.byHash && p.byHash[h] != b then
      (Reference(p, p.byHash[h]), p.byHash[h])
    else if b >= |p.hashOf| then (p, b)
    else
      var index := match p.hashOf[b]
        case None => p.byHash
        case Some(stale) => if stale != h then p.byHash - {stale} else p.byHash;
      (p.(hashOf := p.hashOf[b := Some(h)], byHash := index[h := b]), b)
  }

  function Lookup(p: Pool, h: BlockHash): (Pool, Option<BlockId>) {
    if h in p.byHash then (Reference(p, p.byHash[h]), Some(p.byHash[h])) else (p, None)
  }

  /** The longest cached prefix: stops at the first miss. */
  function MatchPrefix(p: Pool, hashes: seq<BlockHash>): (Pool, seq<BlockId>)
    decreases |hashes|
  {
    if hashes == [] then (p, [])
    else
      var (q, hit) := Lookup(p, hashes[0]);
      if hit.None? then (p, [])
      else
        var (r, rest) := MatchPrefix(q, hashes[1..]);
        (r, [hit.value] + rest)
  }

  // ------------------------------------------------------------ invariants

  /** The free list holds exactly the unreferenced blocks, once each. */
  ghost predicate FreeListOk(p: Pool) {
    NoDup(p.free)
    && (forall b :: b in p.free ==> b < |p.refs|)
    && (forall b: nat :: b < |p.refs| ==> (b in p.free <==> p.refs[b] == 0))
  }

  /** `by_hash` and `hash_of` are mutually inverse. */
  ghost predicate IndexOk(p: Pool) {
    |p.hashOf| == |p.refs|
    && (forall h :: h in p.byHash ==> p.byHash[h] < |p.hashOf| && p.hashOf[p.byHash[h]] == Some(h))
    && (forall b: nat :: b < |p.hashOf| && p.hashOf[b].Some? ==>
          p.hashOf[b].value in p.byHash && p.byHash[p.hashOf[b].value] == b)
  }

  predicate Cached(p: Pool, b: BlockId) {
    b < |p.hashOf| && p.hashOf[b].Some?
  }

  /** Blocks holding nothing come before blocks holding cached KV. */
  ghost predicate EmptiesFirst(p: Pool) {
    forall i, j :: 0 <= i < j < |p.free| && Cached(p, p.free[i]) ==> Cached(p, p.free[j])
  }

  ghost predicate PoolOk(p: Pool) {
    p.blockSize > 0 && FreeListOk(p) && IndexOk(p) && EmptiesFirst(p)
  }

  // ------------------------------------------------- each operation keeps it

  lemma NewPoolOk(n: nat, blockSize: nat, watermark: nat)
    requires blockSize > 0
    ensures PoolOk(NewPool(n, blockSize, watermark))
  {
    var p := NewPool(n, blockSize, watermark);
    forall b: nat | b < n ensures b in p.free {
      assert p.free[b] == b;
    }
  }

  lemma AllocateOk(p: Pool)
    requires PoolOk(p)
    ensures var (q, got) := Allocate(p);
      PoolOk(q)
      && (got.None? <==> p.free == [])
      && (got.None? ==> q == p)
      && (got.Some? ==>
            var b := got.value;
            b < |p.refs| && p.refs[b] == 0 && q.refs == p.refs[b := 1] && q.hashOf == p.hashOf[b := None]
            && |q.free| == |p.free| - 1 && q.watermark == p.watermark && q.blockSize == p.blockSize)
  {
    if p.free != [] {
      var b := p.free[0];
      assert b in p.free;
      var (q, _) := Allocate(p);
      assert forall i :: 0 <= i < |q.free| ==> q.free[i] == p.free[i + 1];
      assert p.free == [b] + q.free;
      assert forall c :: c in p.free <==> c == b || c in q.free;
      assert b !in q.free;
      assert EmptiesFirst(q) by {
        assert forall i :: 0 <= i < |q.free| ==> Cached(q, q.free[i]) == Cached(p, p.free[i + 1]);
      }
    }
  }

  lemma PushedFree(p: Pool, q: Pool, b: BlockId)
    requires FreeListOk(p) && b < |p.refs| && b !in p.free
    requires q.refs == p.refs[b := 0]
    requires q.free == p.free + [b] || q.free == [b] + p.free
    ensures FreeListOk(q)
  {
    assert forall c :: c in q.free <==> c in p.free || c == b;
    if q.free == p.free + [b] {
      NoDupAppend(p.free, b);
    } else {
      NoDupJoin([b], p.free);
    }
  }

  lemma PushedOrder(p: Pool, q: Pool, b: BlockId)
    requires EmptiesFirst(p) && q.hashOf == p.hashOf
    requires q.free == if Cached(p, b) then p.free + [b] else [b] + p.free
    ensures EmptiesFirst(q)
  {
    if Cached(p, b) {
      assert forall i :: 0 <= i < |p.free| ==> q.free[i] == p.free[i];
    } else {
      assert forall i :: 0 < i < |q.free| ==> q.free[i] == p.free[i - 1];
    }
  }

  lemma ReleaseOk(p: Pool, b: BlockId)
    requires PoolOk(p) && Held(p, b)
    ensures var q := Release(p, b);
      PoolOk(q) && q.refs == p.refs[b := p.refs[b] - 1] && q.hashOf == p.hashOf
      && |q.free| == |p.free| + (if p.refs[b] == 1 then 1 else 0)
      && q.watermark == p.watermark && q.blockSize == p.blockSize && q.byHash == p.byHash
  {
    if p.refs[b] == 1 {
      PushedFree(p, Release(p, b), b);
      PushedOrder(p, Release(p, b), b);
    }
  }

  lemma IncRefOk(p: Pool, b: BlockId)
    requires PoolOk(p) && Held(p, b)
    ensures PoolOk(IncRef(p, b))
  {}

  /** What survives `retain` keeps its order. */
  lemma {:induction false} WithoutSublist(s: seq<BlockId>, x: BlockId, i: nat, j: nat) returns (k: nat, l: nat)
    requires i < j < |Without(s, x)|
    ensures k < l < |s| && s[k] == Without(s, x)[i] && s[l] == Without(s, x)[j]
  {
    if s[0] == x {
      k, l := WithoutSublist(s[1..], x, i, j);
      k, l := k + 1, l + 1;
    } else if i > 0 {
      k, l := WithoutSublist(s[1..], x, i - 1, j - 1);
      k, l := k + 1, l + 1;
    } else {
      k := 0;
      var t := s[1..];
      WithoutMembers(t, x);
      assert Without(s, x)[j] == Without(t, x)[j - 1];
      assert Without(t, x)[j - 1] in Without(t, x);
      var m :| 0 <= m < |t| && t[m] == Without(t, x)[j - 1];
      l := m + 1;
    }
  }

  lemma ReferenceOk(p: Pool, b: BlockId)
    requires PoolOk(p) && b < |p.refs|
    ensures var q := Reference(p, b);
      PoolOk(q) && q.refs == p.refs[b := p.refs[b] + 1] && q.hashOf == p.hashOf && q.byHash == p.byHash
      && |q.free| == |p.free| - (if p.refs[b] == 0 then 1 else 0)
      && q.watermark == p.watermark && q.blockSize == p.blockSize
  {
    var q := Reference(p, b);
    if p.refs[b] == 0 {
      WithoutMembers(p.free, b);
      WithoutNoDup(p.free, b);
      forall i, j | 0 <= i < j < |q.free| && Cached(q, q.free[i]) ensures Cached(q, q.free[j]) {
        var k, l := WithoutSublist(p.free, b, i, j);
        assert Cached(p, p.free[k]);
      }
    }
  }

  /** Publishing keeps the order because only referenced blocks are published. */
  lemma PublishOk(p: Pool, b: BlockId, h: BlockHash)
    requires PoolOk(p) && Held(p, b)
    ensures var (q, c) := Publish(p, b, h);
      PoolOk(q) && c < |q.hashOf| && q.hashOf[c] == Some(h)
      && q.watermark == p.watermark && q.blockSize == p.blockSize
      && (c == b ==> q.refs == p.refs && q.hashOf == p.hashOf[b := Some(h)] && q.free == p.free)
      && (c != b ==> q.refs == p.refs[c := p.refs[c] + 1] && q.hashOf == p.hashOf && q == Reference(p, c) && p.hashOf[c] == Some(h))
  {
    var (q, c) := Publish(p, b, h);
    if h in p.byHash && p.byHash[h] != b {
      ReferenceOk(p, c);
    } else {
      assert b !in p.free;
      assert forall i :: 0 <= i < |p.free| ==> p.free[i] in p.free;
      assert forall x :: x in p.free ==> (Cached(q, x) <==> Cached(p, x));
      forall g | g in q.byHash ensures q.byHash[g] < |q.hashOf| && q.hashOf[q.byHash[g]] == Some(g) {
        if g != h {
          assert g in p.byHash;
        }
      }
    }
  }

  lemma LookupOk(p: Pool, h: BlockHash)
    requires PoolOk(p)
    ensures var (q, hit) := Lookup(p, h);
      PoolOk(q)
      && (hit.Some? ==> hit.value < |p.hashOf| && p.hashOf[hit.value] == Some(h) && q == Reference(p, hit.value))
      && (hit.None? ==> h !in p.byHash)
  {
    if h in p.byHash {
      ReferenceOk(p, p.byHash[h]);
    }
  }

  // --------------------------------------------------- batches of operations

  /** How often `b` occurs in a list without repeats. */
  function Once(blocks: seq<BlockId>, b: BlockId): nat {
    if b in blocks then 1 else 0
  }

  ghost predicate AllHeld(p: Pool, blocks: seq<BlockId>) {
    forall b :: b in blocks ==> Held(p, b)
  }

  lemma {:induction false} ReleaseAllOk(p: Pool, blocks: seq<BlockId>)
    requires PoolOk(p) && NoDup(blocks) && AllHeld(p, blocks)
    ensures var q := ReleaseAll(p, blocks);
      PoolOk(q) && q.hashOf == p.hashOf && |q.refs| == |p.refs| && q.watermark == p.watermark && q.blockSize == p.blockSize
      && (forall b: nat :: b < |p.refs| ==> q.refs[b] == p.refs[b] - Once(blocks, b))
      && q.byHash == p.byHash && |q.free| >= |p.free|
    decreases |blocks|
  {
    if blocks != [] {
      var b, rest := blocks[0], blocks[1..];
      assert b in blocks && b !in rest;
      ReleaseOk(p, b);
      var q := Release(p, b);
      forall c | c in rest ensures Held(q, c) {
        assert c in blocks && c != b;
      }
      ReleaseAllOk(q, rest);
      assert forall c :: c in blocks <==> c == b || c in rest;
    }
  }

  /** The blocks matched carry the addresses asked for, in order. */
  lemma {:induction false} MatchPrefixOk(p: Pool, hashes: seq<BlockHash>)
    requires PoolOk(p)
    ensures var (q, got) := MatchPrefix(p, hashes);
      PoolOk(q) && q.hashOf == p.hashOf && q.byHash == p.byHash && |q.refs| == |p.refs|
      && q.watermark == p.watermark && q.blockSize == p.blockSize && |q.free| <= |p.free|
      && |got| <= |hashes|
      && (forall i :: 0 <= i < |got| ==> got[i] < |p.hashOf| && p.hashOf[got[i]] == Some(hashes[i]))
      && (|got| < |hashes| ==> hashes[|got|] !in p.byHash)
    decreases |hashes|
  {
    if hashes != [] {
      LookupOk(p, hashes[0]);
      var (m, hit) := Lookup(p, hashes[0]);
      if hit.Some? {
        ReferenceOk(p, hit.value);
        MatchPrefixOk(m, hashes[1..]);
      }
    }
  }

  /** `q` is `p` with exactly the blocks of `extra` referenced once more. */
  ghost predicate Took(p: Pool, q: Pool, extra: seq<BlockId>) {
    |q.refs| == |p.refs| && |q.hashOf| == |p.hashOf| && q.watermark == p.watermark && q.blockSize == p.blockSize
    && forall b: nat :: b < |p.refs| ==> q.refs[b] == p.refs[b] + Once(extra, b)
  }

  lemma TookFirst(p: Pool, m: Pool, b: BlockId, q: Pool, tail: seq<BlockId>)
    requires b < |p.refs| && m.refs == p.refs[b := p.refs[b] + 1] && |m.hashOf| == |p.hashOf| && m.watermark == p.watermark && m.blockSize == p.blockSize
    requires Took(m, q, tail) && b !in tail
    ensures Took(p, q, [b] + tail)
  {
    assert forall c :: c in [b] + tail <==> c == b || c in tail;
  }

  /** Blocks carrying different addresses are different blocks. */
  lemma MatchedDistinct(p: Pool, hashes: seq<BlockHash>, got: seq<BlockId>)
    requires NoDup(hashes) && |got| <= |hashes|
    requires forall i :: 0 <= i < |got| ==> got[i] < |p.hashOf| && p.hashOf[got[i]] == Some(hashes[i])
    ensures NoDup(got)
  {}

  lemma MatchPrefixIs(p: Pool, hashes: seq<BlockHash>)
    ensures hashes == [] || Lookup(p, hashes[0]).1.None? ==> MatchPrefix(p, hashes) == (p, [])
    ensures hashes != [] && Lookup(p, hashes[0]).1.Some? ==>
      var (q, hit) := Lookup(p, hashes[0]);
      var (r, rest) := MatchPrefix(q, hashes[1..]);
      MatchPrefix(p, hashes) == (r, [hit.value] + rest)
  {}

  /** Every block matched gained exactly one reference. */
  lemma {:induction false} MatchPrefixRefs(p: Pool, hashes: seq<BlockHash>)
    requires PoolOk(p) && NoDup(hashes)
    ensures Took(p, MatchPrefix(p, hashes).0, MatchPrefix(p, hashes).1) && NoDup(MatchPrefix(p, hashes).1)
    decreases |hashes|
  {
    hide *;
    MatchPrefixIs(p, hashes);
    if hashes == [] || Lookup(p, hashes[0]).1.None? {
      TookNothing(p);
    } else {
      LookupOk(p, hashes[0]);
      var (m, hit) := Lookup(p, hashes[0]);
      SizesOk(p);
      ReferenceOk(p, hit.value);
      NoDupTail(hashes);
      MatchPrefixRefs(m, hashes[1..]);
      MatchPrefixOk(p, hashes);
      var (q, got) := MatchPrefix(p, hashes);
      MatchedDistinct(p, hashes, got);
      NoDupTail(got);
      TookFirst(p, m, hit.value, q, got[1..]);
      assert got == [hit.value] + got[1..];
    }
  }

  lemma TookNothing(p: Pool)
    ensures Took(p, p, []) && NoDup<BlockId>([])
  {}

  lemma SizesOk(p: Pool)
    requires PoolOk(p)
    ensures |p.hashOf| == |p.refs|
  {}

  lemma NoDupTail<T>(s: seq<T>)
    requires NoDup(s) && s != []
    ensures NoDup(s[1..]) && s[0] !in s[1..]
  {}

  /** A fresh pool: every block free and empty, in ascending order, and never more of them reserved than there are. */
  lemma NewPoolIs(numBlocks: nat, blockSize: nat, watermark: nat)
    ensures var p := NewPool(numBlocks, blockSize, watermark);
      |p.refs| == |p.free| == numBlocks && p.blockSize == blockSize && p.watermark <= numBlocks && (watermark <= numBlocks ==> p.watermark == watermark)
      && (watermark > numBlocks ==> !CanAllocate(p, 1))
      && forall b: nat :: b < numBlocks ==> p.refs[b] == 0 && !Cached(p, b) && p.free[b] == b
  {}
}
