/** The block pool as the program runs it, links and all, proved against PoolModel
    (crates/vapi-cache/src/pool.rs). */
module BlockPools {
  import opened Prelude
  import opened Hashing
  import opened PoolModel
  import opened FreeList

  datatype AllocError = Exhausted | Watermark(want: nat, watermark: nat)

  datatype Allocation = Granted(block: BlockId) | Refused(error: AllocError)

  /** What the model's operation says of an outcome. */
  predicate Agrees(r: Allocation, got: Option<BlockId>) {
    match r
    case Granted(b) => got == Some(b)
    case Refused(_) => got == None
  }

  class BlockPool {
    const blockSize: nat
    const watermark: nat
    var refcount: seq<nat>
    var hashOf: seq<Option<BlockHash>>
    var byHash: map<BlockHash, BlockId>
    var prev: seq<nat>
    var next: seq<nat>
    var lruHead: nat
    var lruTail: nat
    var numFree: nat
    /** Content dropped by allocations, kept for the spill tier while it asks for it. */
    var evictedContent: seq<(BlockHash, BlockId)>
    var trackEvictions: bool
    ghost var free: seq<BlockId>

    ghost function View(): Pool
      reads this
    {
      Pool(blockSize, watermark, refcount, hashOf, byHash, free)
    }

    ghost function Chain(): Links
      reads this
    {
      Links(prev, next, lruHead, lruTail)
    }

    /** Everything but the counts: the links spell out `free`, and `numFree` is its length. */
    ghost predicate Threaded()
      reads this
    {
      Linked(Chain(), free) && numFree == |free| && |prev| == |refcount| == |hashOf|
    }

    ghost predicate Valid()
      reads this
    {
      PoolOk(View()) && Threaded()
    }

    constructor (numBlocks: nat, blockSize: nat, watermark: nat)
      requires blockSize > 0 && numBlocks <= Nowhere
      ensures Valid() && View() == NewPool(numBlocks, blockSize, watermark)
      ensures evictedContent == [] && !trackEvictions
    {
      this.blockSize := blockSize;
      this.watermark := if watermark <= numBlocks then watermark else numBlocks;
      refcount := Filled(numBlocks, 0);
      hashOf := Filled(numBlocks, None);
      byHash := map[];
      prev := Filled(numBlocks, Nowhere);
      next := Filled(numBlocks, Nowhere);
      lruHead := Nowhere;
      lruTail := Nowhere;
      numFree := 0;
      evictedContent := [];
      trackEvictions := false;
      free := [];
      new;
      EmptyLinked(numBlocks);
      NewPoolOk(numBlocks, blockSize, watermark);
      hide PoolOk, Linked, Filled, Range;
      SeedFree();
    }

    /** A fresh pool hands its blocks out in ascending order. */
    method SeedFree()
      requires Threaded() && free == []
      modifies this`prev, this`next, this`lruHead, this`lruTail, this`free, this`numFree
      ensures Threaded() && free == Range(|refcount|)
    {
      hide Linked, Range;
      var n := |refcount|;
      var i := n;
      assert Range(n)[n..] == [];
      while i > 0
        invariant 0 <= i <= n
        invariant Threaded() && free == Range(n)[i..]
      {
        i := i - 1;
        RangeFrom(n, i);
        LinkFront(i);
        numFree := numFree + 1;
      }
      assert Range(n)[0..] == Range(n);
    }

    // ----------------------------------------------------------- the links

    method LinkFront(id: nat)
      requires Linked(Chain(), free) && id < |prev| && id !in free
      modifies this`prev, this`next, this`lruHead, this`lruTail, this`free
      ensures Linked(Chain(), free) && free == [id] + old(free) && |prev| == old(|prev|)
    {
      PushFrontOk(Chain(), free, id);
      LinkedParts(Chain(), free);
      hide Linked;
      prev := prev[id := Nowhere];
      next := next[id := lruHead];
      if lruHead != Nowhere {
        prev := prev[lruHead := id];
      } else {
        lruTail := id;
      }
      lruHead := id;
      free := [id] + free;
    }

    method LinkBack(id: nat)
      requires Linked(Chain(), free) && id < |prev| && id !in free
      modifies this`prev, this`next, this`lruHead, this`lruTail, this`free
      ensures Linked(Chain(), free) && free == old(free) + [id] && |prev| == old(|prev|)
    {
      PushBackOk(Chain(), free, id);
      LinkedParts(Chain(), free);
      hide Linked;
      next := next[id := Nowhere];
      prev := prev[id := lruTail];
      if lruTail != Nowhere {
        next := next[lruTail := id];
      } else {
        lruHead := id;
      }
      lruTail := id;
      free := free + [id];
    }

    method Cut(id: nat)
      requires Linked(Chain(), free) && id in free
      modifies this`prev, this`next, this`lruHead, this`lruTail, this`free
      ensures Linked(Chain(), free) && free == Without(old(free), id) && |prev| == old(|prev|)
    {
      UnlinkMember(Chain(), free, id);
      LinkedParts(Chain(), free);
      LinksInside(Chain(), free, id);
      hide Linked;
      var p, n := prev[id], next[id];
      if p != Nowhere {
        next := next[p := n];
      } else {
        lruHead := n;
      }
      if n != Nowhere {
        prev := prev[n := p];
      } else {
        lruTail := p;
      }
      prev := prev[id := Nowhere];
      next := next[id := Nowhere];
      free := Without(free, id);
    }

    // ------------------------------------------------------------- operations

    method CanAllocateBlocks(want: nat) returns (ok: bool)
      requires Valid()
      ensures ok == CanAllocate(View(), want)
    {
      ok := numFree >= want + watermark;
    }

    method TakeHead() returns (id: BlockId)
      requires Threaded() && numFree > 0
      modifies this`prev, this`next, this`lruHead, this`lruTail, this`free, this`numFree
      ensures Threaded() && id == old(free)[0] && free == old(free)[1..]
    {
      hide Linked, Without;
      id := lruHead;
      HeadIs(Chain(), free);
      Cut(id);
      numFree := numFree - 1;
    }

    /** What cached content the block held is forgotten, and handed to the spill tier if it asked. */
    method DropContent(id: BlockId)
      requires id < |hashOf|
      modifies this`hashOf, this`byHash, this`evictedContent
      ensures hashOf == old(hashOf)[id := None]
      ensures byHash == if old(hashOf)[id].Some? then old(byHash) - {old(hashOf)[id].value} else old(byHash)
      ensures evictedContent == old(evictedContent) + if trackEvictions && old(hashOf)[id].Some? then [(old(hashOf)[id].value, id)] else []
    {
      match hashOf[id] {
        case None =>
        case Some(h) =>
          byHash := byHash - {h};
          if trackEvictions {
            evictedContent := evictedContent + [(h, id)];
          }
      }
      hashOf := hashOf[id := None];
    }

    method AllocateBlock() returns (r: Allocation)
      requires Valid()
      modifies this
      ensures Valid() && View() == Allocate(old(View())).0 && Agrees(r, Allocate(old(View())).1)
      ensures r.Refused? ==> r.error == Exhausted
      ensures trackEvictions == old(trackEvictions)
      ensures evictedContent == old(evictedContent)
        + (if r.Granted? && old(trackEvictions) && r.block < |old(hashOf)| && old(hashOf)[r.block].Some? then [(old(hashOf)[r.block].value, r.block)] else [])
    {
      hide PoolOk, Linked, Allocate;
      ghost var before := View();
      AllocateOk(before);
      if numFree == 0 {
        return Refused(Exhausted);
      }
      AllocateIs(before);
      var id := TakeHead();
      DropContent(id);
      refcount := refcount[id := 1];
      assert View() == Allocate(before).0;
      r := Granted(id);
    }

    method AllocateGuardedBlock() returns (r: Allocation)
      requires Valid()
      modifies this
      ensures Valid() && View() == AllocateGuarded(old(View())).0 && Agrees(r, AllocateGuarded(old(View())).1)
    {
      var ok := CanAllocateBlocks(1);
      if !ok {
        return Refused(Watermark(1, watermark));
      }
      hide PoolOk, Linked;
      r := AllocateBlock();
    }

    method TrackEvictions(on: bool)
      modifies this`trackEvictions, this`evictedContent
      ensures trackEvictions == on && evictedContent == if on then old(evictedContent) else []
    {
      trackEvictions := on;
      if !on {
        evictedContent := [];
      }
    }

    method TakeEvicted() returns (r: seq<(BlockHash, BlockId)>)
      modifies this`evictedContent
      ensures r == old(evictedContent) && evictedContent == []
    {
      r := evictedContent;
      evictedContent := [];
    }

    method Share(id: BlockId)
      requires Valid() && Held(View(), id)
      modifies this`refcount
      ensures Valid() && View() == IncRef(old(View()), id)
    {
      IncRefOk(View(), id);
      hide PoolOk, Linked;
      refcount := refcount[id := refcount[id] + 1];
    }

    method Free(id: BlockId)
      requires Valid() && Held(View(), id)
      modifies this
      ensures Valid() && View() == Release(old(View()), id)
      ensures evictedContent == old(evictedContent) && trackEvictions == old(trackEvictions)
    {
      hide PoolOk, Linked;
      ghost var before := View();
      ReleaseOk(before, id);
      HeldNotFree(before, id);
      refcount := refcount[id := refcount[id] - 1];
      if refcount[id] == 0 {
        if hashOf[id].Some? {
          LinkBack(id);
        } else {
          LinkFront(id);
        }
        numFree := numFree + 1;
      }
      assert View() == Release(before, id);
    }

    /** `reference`: revive a free but cached block, or share a held one. */
    method Revive(id: BlockId)
      requires Valid() && id < |refcount|
      modifies this
      ensures Valid() && View() == Reference(old(View()), id)
      ensures evictedContent == old(evictedContent) && trackEvictions == old(trackEvictions)
    {
      hide PoolOk, Linked, Without;
      ghost var before := View();
      ReferenceOk(before, id);
      ZeroIsFree(before, id);
      if refcount[id] == 0 {
        WithoutLength(before, id);
        Cut(id);
        numFree := numFree - 1;
      }
      refcount := refcount[id := refcount[id] + 1];
      assert View() == Reference(before, id);
    }

    method PublishBlock(id: BlockId, hash: BlockHash) returns (canonical: BlockId)
      requires Valid() && Held(View(), id)
      modifies this
      ensures Valid() && (View(), canonical) == Publish(old(View()), id, hash)
      ensures evictedContent == old(evictedContent) && trackEvictions == old(trackEvictions)
    {
      ghost var before := View();
      PublishOk(before, id, hash);
      if hash in byHash && byHash[hash] != id {
        IndexInside(before, hash);
        hide PoolOk, Linked;
        canonical := byHash[hash];
        Revive(canonical);
        return;
      }
      hide PoolOk, Linked;
      match hashOf[id] {
        case None =>
        case Some(stale) =>
          if stale != hash {
            byHash := byHash - {stale};
          }
      }
      hashOf := hashOf[id := Some(hash)];
      byHash := byHash[hash := id];
      canonical := id;
      assert View() == Publish(before, id, hash).0;
    }

    method LookupBlock(hash: BlockHash) returns (hit: Option<BlockId>)
      requires Valid()
      modifies this
      ensures Valid() && (View(), hit) == Lookup(old(View()), hash)
      ensures evictedContent == old(evictedContent) && trackEvictions == old(trackEvictions)
    {
      if hash !in byHash {
        return None;
      }
      IndexInside(View(), hash);
      hide PoolOk, Linked;
      Revive(byHash[hash]);
      hit := Some(byHash[hash]);
    }

    method MatchCached(hashes: seq<BlockHash>) returns (blocks: seq<BlockId>)
      requires Valid()
      modifies this
      ensures Valid() && (View(), blocks) == MatchPrefix(old(View()), hashes)
      ensures evictedContent == old(evictedContent) && trackEvictions == old(trackEvictions)
    {
      blocks := [];
      ghost var before := View();
      var i := 0;
      hide PoolOk, Linked, Lookup, Threaded;
      assert hashes[0..] == hashes && [] + MatchPrefix(before, hashes).1 == MatchPrefix(before, hashes).1;
      while i < |hashes|
        invariant 0 <= i <= |hashes|
        invariant Valid() && evictedContent == old(evictedContent) && trackEvictions == old(trackEvictions)
        invariant var (q, rest) := MatchPrefix(View(), hashes[i..]);
          MatchPrefix(before, hashes) == (q, blocks + rest)
      {
        MatchPrefixIs(View(), hashes[i..]);
        assert hashes[i..][0] == hashes[i] && hashes[i..][1..] == hashes[i + 1..];
        LookupMiss(View(), hashes[i]);
        var hit := LookupBlock(hashes[i]);
        if hit.None? {
          assert blocks + [] == blocks;
          return;
        }
        ghost var rest := MatchPrefix(View(), hashes[i + 1..]).1;
        assert blocks + ([hit.value] + rest) == (blocks + [hit.value]) + rest;
        blocks := blocks + [hit.value];
        i := i + 1;
      }
      assert hashes[i..] == [] && blocks + [] == blocks;
    }

    method FreeAll(blocks: seq<BlockId>)
      requires Valid() && NoDup(blocks) && AllHeld(View(), blocks)
      modifies this
      ensures Valid() && View() == ReleaseAll(old(View()), blocks)
      ensures evictedContent == old(evictedContent) && trackEvictions == old(trackEvictions)
    {
      ghost var before := View();
      var i := 0;
      hide PoolOk, Linked, Threaded;
      assert blocks[0..] == blocks;
      while i < |blocks|
        invariant 0 <= i <= |blocks|
        invariant Valid() && evictedContent == old(evictedContent) && trackEvictions == old(trackEvictions)
        invariant AllHeld(View(), blocks[i..]) && ReleaseAll(View(), blocks[i..]) == ReleaseAll(before, blocks)
      {
        ghost var here := View();
        assert blocks[i..][0] == blocks[i] && blocks[i..][1..] == blocks[i + 1..] && blocks[i] in blocks[i..];
        NoDupFrom(blocks, i);
        ReleaseKeepsHeld(here, blocks[i], blocks[i + 1..]);
        Free(blocks[i]);
        i := i + 1;
      }
      assert blocks[i..] == [];
    }
  }

  // ------------------------------------------------------------------- lemmas

  lemma LinksInside(l: Links, free: seq<BlockId>, id: BlockId)
    requires Linked(l, free) && id in free
    ensures id < |l.prev| && id < |l.next|
    ensures l.prev[id] == Nowhere || l.prev[id] < |l.next|
    ensures l.next[id] == Nowhere || l.next[id] < |l.prev|
    ensures l.prev[id] != id && l.next[id] != id
  {
    var k :| 0 <= k < |free| && free[k] == id;
    LinkedAt(l, free, k);
    LinkedParts(l, free);
    hide Linked;
  }

  lemma HeadIs(l: Links, free: seq<BlockId>)
    requires Linked(l, free) && free != []
    ensures l.head == free[0] && l.head in free && Without(free, free[0]) == free[1..]
  {
    assert free[0] in free;
    NoDupTail(free);
    WithoutAbsent(free[1..], free[0]);
  }

  lemma EmptyLinked(n: nat)
    requires n <= Nowhere
    ensures Linked(Links(Filled(n, Nowhere), Filled(n, Nowhere), Nowhere, Nowhere), [])
  {}

  lemma RangeFrom(n: nat, i: nat)
    requires i < n
    ensures i !in Range(n)[i + 1..] && Range(n)[i..] == [i] + Range(n)[i + 1..]
  {}

  lemma AllocateIs(p: Pool)
    requires PoolOk(p) && p.free != []
    ensures p.free[0] < |p.refs| && p.free[0] < |p.hashOf|
    ensures var b := p.free[0];
      Allocate(p) ==
        (p.(free := p.free[1..], refs := p.refs[b := 1], hashOf := p.hashOf[b := None],
            byHash := if p.hashOf[b].Some? then p.byHash - {p.hashOf[b].value} else p.byHash), Some(b))
  {
    assert p.free[0] in p.free;
  }

  lemma LookupMiss(p: Pool, h: BlockHash)
    ensures Lookup(p, h).1.None? ==> Lookup(p, h).0 == p
  {}

  lemma ZeroIsFree(p: Pool, id: BlockId)
    requires PoolOk(p) && id < |p.refs|
    ensures p.refs[id] == 0 <==> id in p.free
  {}

  lemma WithoutLength(p: Pool, id: BlockId)
    requires PoolOk(p) && id in p.free
    ensures |Without(p.free, id)| == |p.free| - 1
  {
    WithoutNoDup(p.free, id);
  }

  lemma IndexInside(p: Pool, hash: BlockHash)
    requires PoolOk(p) && hash in p.byHash
    ensures p.byHash[hash] < |p.refs|
  {}

  lemma NoDupFrom(s: seq<BlockId>, i: nat)
    requires NoDup(s) && i < |s|
    ensures s[i] !in s[i + 1..]
  {}

  lemma ReleaseKeepsHeld(p: Pool, b: BlockId, rest: seq<BlockId>)
    requires Held(p, b) && b !in rest && AllHeld(p, [b] + rest)
    ensures AllHeld(Release(p, b), rest)
  {
    forall c | c in rest ensures Held(Release(p, b), c) {
      assert c in [b] + rest;
    }
  }
}
