/** Publishing full blocks, and adopting the block of whoever published first. */
module CorePublish {
  import opened Prelude
  import opened Hashing
  import opened PoolModel
  import opened Sequences
  import opened SchedulerModel
  import opened Invariants
  import opened CoreSteps
  import opened CoreStart

  type Swap = (nat, BlockId, BlockId)

  function Canonicals(swaps: seq<Swap>): (r: seq<BlockId>)
    ensures |r| == |swaps| && forall k :: 0 <= k < |r| ==> r[k] == swaps[k].2
  {
    seq(|swaps|, k requires 0 <= k < |swaps| => swaps[k].2)
  }

  function Ours(swaps: seq<Swap>): (r: seq<BlockId>)
    ensures |r| == |swaps| && forall k :: 0 <= k < |r| ==> r[k] == swaps[k].1
  {
    seq(|swaps|, k requires 0 <= k < |swaps| => swaps[k].1)
  }

  /** The list with every swap applied, in order. */
  function Swapped(blocks: seq<BlockId>, swaps: seq<Swap>): (r: seq<BlockId>)
    ensures |r| == |blocks|
    decreases |swaps|
  {
    if swaps == [] then blocks
    else if swaps[0].0 >= |blocks| then Swapped(blocks, swaps[1..])
    else Swapped(blocks[swaps[0].0 := swaps[0].2], swaps[1..])
  }

  lemma {:induction false} SwappedAppend(blocks: seq<BlockId>, swaps: seq<Swap>, x: Swap)
    requires x.0 < |blocks|
    ensures Swapped(blocks, swaps + [x]) == Swapped(blocks, swaps)[x.0 := x.2]
    decreases |swaps|
  {
    if swaps == [] {
      assert (swaps + [x])[1..] == [];
    } else {
      assert (swaps + [x])[1..] == swaps[1..] + [x];
      SwappedAppend(if swaps[0].0 >= |blocks| then blocks else blocks[swaps[0].0 := swaps[0].2], swaps[1..], x);
    }
  }

  // ------------------------------------------------------------ the invariant

  /** Each swap names one of our unpublished blocks and the block that carries its address. */
  ghost predicate SwapsOk(cfg: Config, p0: Pool, s: Sequence, i: nat, swaps: seq<Swap>)
    requires cfg.blockSize > 0
  {
    (forall k :: 0 <= k < |swaps| ==>
       s.cachedBlocks <= swaps[k].0 < i && i <= |s.blocks| && swaps[k].1 == s.blocks[swaps[k].0]
       && swaps[k].2 < |p0.hashOf| && p0.hashOf[swaps[k].2] == Some(Address(cfg, s, swaps[k].0)))
    && forall k, l :: 0 <= k < l < |swaps| ==> swaps[k].0 < swaps[l].0
  }

  /** Blocks `s.cachedBlocks..i` of the list `v` carry their addresses; nothing foreign changed. */
  ghost predicate HashProgress(cfg: Config, p0: Pool, p: Pool, s: Sequence, i: nat, v: seq<BlockId>)
    requires cfg.blockSize > 0
  {
    |v| == |s.blocks| && s.cachedBlocks <= i <= |v| && |p.hashOf| == |p0.hashOf|
    && (forall j :: s.cachedBlocks <= j < i ==> v[j] < |p.hashOf| && p.hashOf[v[j]] == Some(Address(cfg, s, j)))
    && (forall j :: 0 <= j < |v| && !(s.cachedBlocks <= j < i) ==> v[j] == s.blocks[j])
    && (forall j :: s.cachedBlocks <= j < i ==>
          s.blocks[j] < |p.hashOf| && (p.hashOf[s.blocks[j]] == None || p.hashOf[s.blocks[j]] == Some(Address(cfg, s, j))))
    && (forall b: nat :: b < |p0.hashOf| && b !in s.blocks[s.cachedBlocks..i] ==> p.hashOf[b] == p0.hashOf[b])
  }

  /** Every block swapped out of the list was swapped in for another. */
  ghost predicate SameCount(s: Sequence, v: seq<BlockId>, swaps: seq<Swap>) {
    multiset(v) + multiset(Ours(swaps)) == multiset(s.blocks) + multiset(Canonicals(swaps))
  }

  ghost predicate Publishing(cfg: Config, p0: Pool, p: Pool, s: Sequence, i: nat, swaps: seq<Swap>)
    requires cfg.blockSize > 0
  {
    PoolOk(p) && Took(p0, p, Canonicals(swaps)) && SwapsOk(cfg, p0, s, i, swaps)
    && HashProgress(cfg, p0, p, s, i, Swapped(s.blocks, swaps)) && SameCount(s, Swapped(s.blocks, swaps), swaps)
  }

  /** What publication may rely on about the sequence. */
  ghost predicate Publishable(cfg: Config, p0: Pool, s: Sequence, full: nat)
    requires cfg.blockSize > 0
  {
    cfg.prefixCache && CollisionFree(cfg.hash, cfg.blockSize) && PoolOk(p0) && LocalOk(cfg, p0.hashOf, s)
    && AllHeld(p0, s.blocks) && s.cachedBlocks <= full <= |s.blocks|
    && forall j: nat {:trigger BlockEnd(j, cfg.blockSize)} :: j < full ==> BlockEnd(j, cfg.blockSize) <= |s.tokens|
  }

  lemma AddressAt(cfg: Config, s: Sequence, i: nat, j: nat)
    requires cfg.blockSize > 0 && CollisionFree(cfg.hash, cfg.blockSize)
    requires BlockEnd(i, cfg.blockSize) <= |s.tokens| && BlockEnd(j, cfg.blockSize) <= |s.tokens| && i != j
    ensures Address(cfg, s, i) != Address(cfg, s, j)
  {
    AddressesDiffer(cfg, s.tenant, s.tokens, i, s.tenant, s.tokens, j);
  }

  lemma AddressesApart(cfg: Config, s: Sequence, i: nat)
    requires cfg.blockSize > 0 && CollisionFree(cfg.hash, cfg.blockSize)
    requires forall j: nat {:trigger BlockEnd(j, cfg.blockSize)} :: j <= i ==> BlockEnd(j, cfg.blockSize) <= |s.tokens|
    ensures forall j: nat {:trigger Address(cfg, s, j)} :: j < i ==> Address(cfg, s, j) != Address(cfg, s, i)
  {
    forall j: nat {:trigger Address(cfg, s, j)} | j < i ensures Address(cfg, s, j) != Address(cfg, s, i) {
      assert BlockEnd(j, cfg.blockSize) <= |s.tokens| && BlockEnd(i, cfg.blockSize) <= |s.tokens|;
      AddressAt(cfg, s, j, i);
    }
  }

  // ------------------------------------------------------------- one block

  lemma PublishingStart(cfg: Config, p: Pool, s: Sequence, full: nat)
    requires cfg.blockSize > 0 && Publishable(cfg, p, s, full)
    ensures Publishing(cfg, p, p, s, s.cachedBlocks, [])
  {
    assert s.blocks[s.cachedBlocks..s.cachedBlocks] == [];
  }

  /** Published under our own block. */
  lemma HashProgressOwn(cfg: Config, p0: Pool, p: Pool, q: Pool, s: Sequence, i: nat, v: seq<BlockId>)
    requires cfg.blockSize > 0 && HashProgress(cfg, p0, p, s, i, v) && i < |v| && LocalOk(cfg, p0.hashOf, s) && cfg.prefixCache
    requires q.hashOf == p.hashOf[s.blocks[i] := Some(Address(cfg, s, i))] && s.blocks[i] < |p.hashOf|
    ensures HashProgress(cfg, p0, q, s, i + 1, v)
  {
    hide Address;
    var b := s.blocks[i];
    assert b !in s.blocks[s.cachedBlocks..i];
    assert p.hashOf[b] == None;
    assert s.blocks[s.cachedBlocks..i + 1] == s.blocks[s.cachedBlocks..i] + [b];
    assert forall j :: s.cachedBlocks <= j < i ==> s.blocks[j] != b;
  }

  /** Somebody else's block carries the address already. */
  lemma HashProgressSwap(cfg: Config, p0: Pool, p: Pool, s: Sequence, i: nat, v: seq<BlockId>, c: BlockId)
    requires cfg.blockSize > 0 && HashProgress(cfg, p0, p, s, i, v) && i < |v| && LocalOk(cfg, p0.hashOf, s) && cfg.prefixCache
    requires c < |p.hashOf| && p.hashOf[c] == Some(Address(cfg, s, i)) && s.blocks[i] < |p.hashOf|
    requires forall j: nat {:trigger Address(cfg, s, j)} :: j < i ==> Address(cfg, s, j) != Address(cfg, s, i)
    ensures HashProgress(cfg, p0, p, s, i + 1, v[i := c])
    ensures p0.hashOf[c] == Some(Address(cfg, s, i))
  {
    hide Address;
    var b := s.blocks[i];
    assert b !in s.blocks[s.cachedBlocks..i];
    assert s.blocks[s.cachedBlocks..i + 1] == s.blocks[s.cachedBlocks..i] + [b];
    assert c !in s.blocks[s.cachedBlocks..i] by {
      forall j | s.cachedBlocks <= j < i ensures s.blocks[j] != c {
        assert Address(cfg, s, j) != Address(cfg, s, i);
      }
    }
  }

  lemma TookLast(p0: Pool, p: Pool, q: Pool, swaps: seq<Swap>, x: Swap)
    requires Took(p0, p, Canonicals(swaps)) && x.2 < |p.refs| && x.2 !in Canonicals(swaps)
    requires q.refs == p.refs[x.2 := p.refs[x.2] + 1] && q.hashOf == p.hashOf && q.watermark == p.watermark && q.blockSize == p.blockSize
    ensures Took(p0, q, Canonicals(swaps + [x]))
  {
    assert Canonicals(swaps + [x]) == Canonicals(swaps) + [x.2];
    assert forall b :: b in Canonicals(swaps) + [x.2] <==> b in Canonicals(swaps) || b == x.2;
  }

  lemma SwapsGrow(cfg: Config, p0: Pool, s: Sequence, i: nat, swaps: seq<Swap>, c: BlockId)
    requires cfg.blockSize > 0 && SwapsOk(cfg, p0, s, i, swaps) && s.cachedBlocks <= i < |s.blocks|
    requires c < |p0.hashOf| && p0.hashOf[c] == Some(Address(cfg, s, i))
    requires forall j: nat {:trigger Address(cfg, s, j)} :: j < i ==> Address(cfg, s, j) != Address(cfg, s, i)
    ensures SwapsOk(cfg, p0, s, i + 1, swaps + [(i, s.blocks[i], c)]) && c !in Canonicals(swaps)
  {
    var next := swaps + [(i, s.blocks[i], c)];
    assert forall k :: 0 <= k < |swaps| ==> next[k] == swaps[k];
    assert next[|swaps|] == (i, s.blocks[i], c);
    forall k | 0 <= k < |swaps| ensures Canonicals(swaps)[k] != c {
      assert Address(cfg, s, swaps[k].0) != Address(cfg, s, i);
    }
  }

  lemma CountGrow(s: Sequence, v: seq<BlockId>, swaps: seq<Swap>, i: nat, c: BlockId)
    requires SameCount(s, v, swaps) && i < |v| == |s.blocks| && v[i] == s.blocks[i]
    ensures SameCount(s, v[i := c], swaps + [(i, s.blocks[i], c)])
  {
    var next := swaps + [(i, s.blocks[i], c)];
    assert Ours(next) == Ours(swaps) + [s.blocks[i]];
    assert Canonicals(next) == Canonicals(swaps) + [c];
    assert v == v[..i] + [v[i]] + v[i + 1..];
    assert v[i := c] == v[..i] + [c] + v[i + 1..];
    var b := s.blocks[i];
    calc {
      multiset(v[i := c]) + multiset(Ours(next));
      multiset(v[i := c]) + multiset(Ours(swaps)) + multiset{b};
      (multiset(v[i := c]) + multiset{b}) + multiset(Ours(swaps));
      (multiset(v) + multiset{c}) + multiset(Ours(swaps));
      (multiset(v) + multiset(Ours(swaps))) + multiset{c};
      (multiset(s.blocks) + multiset(Canonicals(swaps))) + multiset{c};
      multiset(s.blocks) + multiset(Canonicals(next));
    }
  }

  lemma PublishingStep(cfg: Config, p0: Pool, p: Pool, s: Sequence, i: nat, swaps: seq<Swap>, full: nat)
    requires cfg.blockSize > 0 && Publishable(cfg, p0, s, full) && Publishing(cfg, p0, p, s, i, swaps) && i < full
    ensures i < |s.blocks|
    ensures var (q, c) := Publish(p, s.blocks[i], Address(cfg, s, i));
      Publishing(cfg, p0, q, s, i + 1, if c != s.blocks[i] then swaps + [(i, s.blocks[i], c)] else swaps)
  {
    hide *;
    PublishableAt(cfg, p0, s, full, i);
    PublishingParts(cfg, p0, p, s, i, swaps);
    var b, v := s.blocks[i], Swapped(s.blocks, swaps);
    HeldStill(p0, p, Canonicals(swaps), b);
    PublishOk(p, b, Address(cfg, s, i));
    var (q, c) := Publish(p, b, Address(cfg, s, i));
    SizesOk(q);
    SizesOk(p);
    SizesOk(p0);
    AddressesApart(cfg, s, i);
    if c == b {
      HashProgressOwn(cfg, p0, p, q, s, i, v);
      TookSame(p0, p, q, Canonicals(swaps));
      SwapsLater(cfg, p0, s, i, swaps);
      PublishingMade(cfg, p0, q, s, i + 1, swaps);
    } else {
      var x := (i, b, c);
      HashProgressSwap(cfg, p0, p, s, i, v, c);
      SwapsGrow(cfg, p0, s, i, swaps, c);
      TookSizes(p0, p, Canonicals(swaps));
      TookLast(p0, p, q, swaps, x);
      ProgressAt(cfg, p0, p, s, i, v);
      CountGrow(s, v, swaps, i, c);
      SwappedAppend(s.blocks, swaps, x);
      HashProgressFrame(cfg, p0, p, q, s, i + 1, v[i := c]);
      PublishingMade(cfg, p0, q, s, i + 1, swaps + [x]);
    }
  }

  lemma PublishableAt(cfg: Config, p0: Pool, s: Sequence, full: nat, i: nat)
    requires cfg.blockSize > 0 && Publishable(cfg, p0, s, full) && i < full
    ensures i < |s.blocks| && Held(p0, s.blocks[i]) && cfg.prefixCache && CollisionFree(cfg.hash, cfg.blockSize) && LocalOk(cfg, p0.hashOf, s)
    ensures PoolOk(p0)
    ensures forall j: nat {:trigger BlockEnd(j, cfg.blockSize)} :: j <= i ==> BlockEnd(j, cfg.blockSize) <= |s.tokens|
  {
    assert s.blocks[i] in s.blocks;
  }

  lemma HeldStill(p0: Pool, p: Pool, extra: seq<BlockId>, b: BlockId)
    requires Held(p0, b)
    ensures Took(p0, p, extra) ==> Held(p, b)
  {}

  lemma TookSame(p0: Pool, p: Pool, q: Pool, extra: seq<BlockId>)
    requires Took(p0, p, extra) && q.refs == p.refs && |q.hashOf| == |p.hashOf| && q.watermark == p.watermark && q.blockSize == p.blockSize
    ensures Took(p0, q, extra)
  {}

  lemma SwapsLater(cfg: Config, p0: Pool, s: Sequence, i: nat, swaps: seq<Swap>)
    requires cfg.blockSize > 0 && SwapsOk(cfg, p0, s, i, swaps) && i < |s.blocks|
    ensures SwapsOk(cfg, p0, s, i + 1, swaps)
  {}

  lemma ProgressAt(cfg: Config, p0: Pool, p: Pool, s: Sequence, i: nat, v: seq<BlockId>)
    requires cfg.blockSize > 0 && HashProgress(cfg, p0, p, s, i, v) && i < |s.blocks|
    ensures |v| == |s.blocks| && v[i] == s.blocks[i]
  {}

  lemma HashProgressFrame(cfg: Config, p0: Pool, p: Pool, q: Pool, s: Sequence, i: nat, v: seq<BlockId>)
    requires cfg.blockSize > 0 && HashProgress(cfg, p0, p, s, i, v) && q.hashOf == p.hashOf
    ensures HashProgress(cfg, p0, q, s, i, v)
  {}

  lemma PublishingParts(cfg: Config, p0: Pool, p: Pool, s: Sequence, i: nat, swaps: seq<Swap>)
    requires cfg.blockSize > 0 && Publishing(cfg, p0, p, s, i, swaps)
    ensures PoolOk(p) && Took(p0, p, Canonicals(swaps)) && SwapsOk(cfg, p0, s, i, swaps)
    ensures HashProgress(cfg, p0, p, s, i, Swapped(s.blocks, swaps)) && SameCount(s, Swapped(s.blocks, swaps), swaps)
    ensures s.cachedBlocks <= i <= |s.blocks| && |Swapped(s.blocks, swaps)| == |s.blocks|
  {}

  lemma PublishingMade(cfg: Config, p0: Pool, p: Pool, s: Sequence, i: nat, swaps: seq<Swap>)
    requires cfg.blockSize > 0
    requires PoolOk(p) && Took(p0, p, Canonicals(swaps)) && SwapsOk(cfg, p0, s, i, swaps)
    requires HashProgress(cfg, p0, p, s, i, Swapped(s.blocks, swaps)) && SameCount(s, Swapped(s.blocks, swaps), swaps)
    ensures Publishing(cfg, p0, p, s, i, swaps)
  {
    hide PoolOk, Took, SwapsOk, HashProgress, SameCount;
  }

  lemma {:induction false} PublishRangeOk(cfg: Config, p0: Pool, p: Pool, s: Sequence, i: nat, full: nat, swaps: seq<Swap>)
    requires cfg.blockSize > 0 && Publishable(cfg, p0, s, full) && Publishing(cfg, p0, p, s, i, swaps) && i <= full
    ensures var (q, out) := PublishRange(cfg, p, s, i, full, swaps);
      Publishing(cfg, p0, q, s, full, out)
    decreases full - i
  {
    if i < full {
      PublishingStep(cfg, p0, p, s, i, swaps, full);
      PublishableAt(cfg, p0, s, full, i);
      hide Publishing, Publishable, Publish, LocalOk, PoolOk, CollisionFree;
      var (q, c) := Publish(p, s.blocks[i], Address(cfg, s, i));
      PublishRangeOk(cfg, p0, q, s, i + 1, full, if c != s.blocks[i] then swaps + [(i, s.blocks[i], c)] else swaps);
    }
  }

  // ------------------------------------------------------- releasing our own

  lemma {:induction false} ApplySwapsOk(p: Pool, blocks: seq<BlockId>, swaps: seq<Swap>)
    requires PoolOk(p) && NoDup(Ours(swaps)) && AllHeld(p, Ours(swaps)) && forall k :: 0 <= k < |swaps| ==> swaps[k].0 < |blocks|
    ensures var (q, out) := ApplySwaps(p, blocks, swaps);
      out == Swapped(blocks, swaps) && q == ReleaseAll(p, Ours(swaps))
    decreases |swaps|
  {
    if swaps != [] {
      var ours := Ours(swaps);
      assert ours[1..] == Ours(swaps[1..]);
      assert ours[0] in ours;
      NoDupTail(ours);
      ReleaseOk(p, ours[0]);
      forall b | b in ours[1..] ensures Held(Release(p, ours[0]), b) {
        assert b in ours;
      }
      ApplySwapsOk(Release(p, ours[0]), blocks[swaps[0].0 := swaps[0].2], swaps[1..]);
    } else {
      assert Ours(swaps) == [];
    }
  }

  // -------------------------------------------------------------- the result

  /** Our swapped blocks are ours, once each; the canonical ones are not. */
  lemma SwapsDistinct(cfg: Config, p0: Pool, s: Sequence, full: nat, swaps: seq<Swap>)
    requires cfg.blockSize > 0 && Publishable(cfg, p0, s, full) && SwapsOk(cfg, p0, s, full, swaps)
    ensures NoDup(Ours(swaps)) && NoDup(Canonicals(swaps))
    ensures (forall b :: b in Ours(swaps) ==> b in s.blocks) && (forall b :: b in Canonicals(swaps) ==> b !in s.blocks)
  {
    hide CollisionFree, PoolOk;
    forall k, l | 0 <= k < l < |swaps| ensures Canonicals(swaps)[k] != Canonicals(swaps)[l] {
      AddressAt(cfg, s, swaps[k].0, swaps[l].0);
    }
    forall k, j | 0 <= k < |swaps| && 0 <= j < |s.blocks| ensures s.blocks[j] != Canonicals(swaps)[k] {
      if j < s.cachedBlocks {
        AddressAt(cfg, s, j, swaps[k].0);
      }
    }
  }

  lemma CountOnce(s: seq<BlockId>, b: BlockId)
    requires NoDup(s)
    ensures multiset(s)[b] == Once(s, b)
  {
    if b in s {
      var i :| 0 <= i < |s| && s[i] == b;
      assert s == s[..i] + [b] + s[i + 1..];
      assert b !in s[..i] && b !in s[i + 1..];
      assert multiset(s) == multiset(s[..i]) + multiset{b} + multiset(s[i + 1..]);
    }
  }

  lemma CountedNoDup(s: seq<BlockId>)
    requires forall b :: multiset(s)[b] <= 1
    ensures NoDup(s)
  {
    forall i, j | 0 <= i < j < |s| ensures s[i] != s[j] {
      assert s == s[..j] + [s[j]] + s[j + 1..];
      assert multiset(s)[s[j]] == multiset(s[..j])[s[j]] + 1 + multiset(s[j + 1..])[s[j]];
      assert s[i] in multiset(s[..j]) by {
        assert s[..j][i] == s[i];
      }
    }
  }

  lemma SwappedCounts(s: Sequence, v: seq<BlockId>, swaps: seq<Swap>)
    requires SameCount(s, v, swaps) && NoDup(s.blocks) && NoDup(Ours(swaps)) && NoDup(Canonicals(swaps))
    requires (forall b :: b in Ours(swaps) ==> b in s.blocks) && (forall b :: b in Canonicals(swaps) ==> b !in s.blocks)
    ensures NoDup(v)
    ensures forall b :: Once(v, b) == Once(s.blocks, b) - Once(Ours(swaps), b) + Once(Canonicals(swaps), b)
  {
    forall b ensures multiset(v)[b] == Once(s.blocks, b) - Once(Ours(swaps), b) + Once(Canonicals(swaps), b) {
      CountOnce(s.blocks, b);
      CountOnce(Ours(swaps), b);
      CountOnce(Canonicals(swaps), b);
      assert (multiset(v) + multiset(Ours(swaps)))[b] == (multiset(s.blocks) + multiset(Canonicals(swaps)))[b];
    }
    CountedNoDup(v);
    forall b ensures Once(v, b) == Once(s.blocks, b) - Once(Ours(swaps), b) + Once(Canonicals(swaps), b) {
      CountOnce(v, b);
    }
  }

  /** The sequence after publication. */
  function Published(s: Sequence, full: nat, v: seq<BlockId>): Sequence {
    s.(cachedBlocks := full, blocks := v)
  }

  lemma PublishedLocal(cfg: Config, p0: Pool, q: Pool, s: Sequence, full: nat, v: seq<BlockId>)
    requires cfg.blockSize > 0 && cfg.prefixCache && LocalOk(cfg, p0.hashOf, s) && HashProgress(cfg, p0, q, s, full, v) && NoDup(v)
    ensures LocalOk(cfg, q.hashOf, Published(s, full, v))
  {
    var t := Published(s, full, v);
    assert forall j :: 0 <= j < |s.blocks| && !(s.cachedBlocks <= j < full) ==> s.blocks[j] !in s.blocks[s.cachedBlocks..full];
    assert forall j :: 0 <= j < |v| ==> Address(cfg, t, j) == Address(cfg, s, j);
  }

  lemma PublishedApart(cfg: Config, p0: Pool, q: Pool, s: Sequence, full: nat, v: seq<BlockId>, swaps: seq<Swap>, o: Sequence)
    requires cfg.blockSize > 0 && cfg.prefixCache && LocalOk(cfg, p0.hashOf, s) && LocalOk(cfg, p0.hashOf, o)
    requires HashProgress(cfg, p0, q, s, full, v) && SwapsOk(cfg, p0, s, full, swaps)
    requires forall b :: Once(v, b) == Once(s.blocks, b) - Once(Ours(swaps), b) + Once(Canonicals(swaps), b)
    requires Apart(cfg, s, o) && Apart(cfg, o, s)
    ensures Apart(cfg, Published(s, full, v), o) && Apart(cfg, o, Published(s, full, v))
    ensures forall b :: b in o.blocks && b < |p0.hashOf| ==> q.hashOf[b] == p0.hashOf[b]
  {
    var t := Published(s, full, v);
    forall j | 0 <= j < |o.blocks| && Settled(cfg, o) <= j ensures o.blocks[j] !in v {
      var x := o.blocks[j];
      assert x !in s.blocks;
      assert forall k :: 0 <= k < |swaps| ==> Canonicals(swaps)[k] != x;
      assert x !in Canonicals(swaps);
      assert Once(v, x) == 0;
    }
    forall b | b in o.blocks && b < |p0.hashOf| ensures q.hashOf[b] == p0.hashOf[b] {
      assert b !in s.blocks[s.cachedBlocks..full];
    }
  }

  lemma PublishBlocks(cfg: Config, p: Pool, q: Pool, r: Pool, seqs: map<SeqId, Sequence>, id: SeqId, full: nat, swaps: seq<Swap>)
    requires cfg.blockSize > 0 && PoolOk(p) && BlocksOk(cfg, p, seqs) && id in seqs && Publishable(cfg, p, seqs[id], full)
    requires Publishing(cfg, p, q, seqs[id], full, swaps) && r == ReleaseAll(q, Ours(swaps)) && AllHeld(q, Ours(swaps))
    ensures PoolOk(r) && r.blockSize == p.blockSize
    ensures BlocksOk(cfg, r, seqs[id := Published(seqs[id], full, Swapped(seqs[id].blocks, swaps))])
  {
    var s := seqs[id];
    var v := Swapped(s.blocks, swaps);
    var t := Published(s, full, v);
    BlocksParts(cfg, p, seqs, id);
    PublishedParts(s, full, v);
    hide *;
    PublishableParts(cfg, p, s, full);
    PublishingParts(cfg, p, q, s, full, swaps);
    SwapsDistinct(cfg, p, s, full, swaps);
    LocalNoDup(cfg, p.hashOf, s);
    SwappedCounts(s, v, swaps);
    ReleaseAllOk(q, Ours(swaps));
    SizesOk(p);
    SizesOk(q);
    SizesOk(r);
    TookSizes(p, q, Canonicals(swaps));
    HashProgressFrame(cfg, p, q, r, s, full, v);
    PublishedLocal(cfg, p, r, s, full, v);
    RefsChain(p, q, r, s.blocks, swaps, v);
    forall o | o in seqs && o != id
      ensures Apart(cfg, t, seqs[o]) && Apart(cfg, seqs[o], t)
      ensures forall b :: b in seqs[o].blocks && b < |p.hashOf| ==> r.hashOf[b] == p.hashOf[b]
    {
      PublishedApart(cfg, p, r, s, full, v, swaps, seqs[o]);
    }
    BlocksOfIs(seqs, id);
    Replace(cfg, p, seqs, id, t, r);
  }

  lemma BlocksOfIs(seqs: map<SeqId, Sequence>, id: SeqId)
    requires id in seqs
    ensures BlocksOf(seqs, id) == seqs[id].blocks
  {}

  lemma PublishedParts(s: Sequence, full: nat, v: seq<BlockId>)
    ensures Published(s, full, v).blocks == v
  {}

  lemma BlocksParts(cfg: Config, p: Pool, seqs: map<SeqId, Sequence>, id: SeqId)
    requires cfg.blockSize > 0 && BlocksOk(cfg, p, seqs) && id in seqs
    ensures forall o :: o in seqs ==> LocalOk(cfg, p.hashOf, seqs[o])
    ensures forall o :: o in seqs && o != id ==> Apart(cfg, seqs[id], seqs[o]) && Apart(cfg, seqs[o], seqs[id])
  {
    hide LocalOk, Apart;
  }

  lemma LocalNoDup(cfg: Config, hashOf: seq<Option<BlockHash>>, s: Sequence)
    requires cfg.blockSize > 0 && LocalOk(cfg, hashOf, s)
    ensures NoDup(s.blocks)
  {}

  lemma PublishableParts(cfg: Config, p0: Pool, s: Sequence, full: nat)
    requires cfg.blockSize > 0 && Publishable(cfg, p0, s, full)
    ensures cfg.prefixCache && LocalOk(cfg, p0.hashOf, s) && full <= |s.blocks|
  {}

  lemma RefsChain(p: Pool, q: Pool, r: Pool, blocks: seq<BlockId>, swaps: seq<Swap>, v: seq<BlockId>)
    requires Took(p, q, Canonicals(swaps)) && |r.refs| == |q.refs|
    requires forall b: nat :: b < |q.refs| ==> r.refs[b] == q.refs[b] - Once(Ours(swaps), b)
    requires forall b :: Once(v, b) == Once(blocks, b) - Once(Ours(swaps), b) + Once(Canonicals(swaps), b)
    ensures forall b: nat :: b < |p.refs| ==> r.refs[b] == p.refs[b] - Once(blocks, b) + Once(v, b)
  {}

  // --------------------------------------------------------------- assembly

  lemma FullyPublishable(cfg: Config, st: Sched, id: SeqId)
    requires Core(cfg, st) && cfg.prefixCache && id in st.seqs && IsActive(st.seqs[id])
    requires st.seqs[id].computed / cfg.blockSize > st.seqs[id].cachedBlocks
    ensures Publishable(cfg, st.pool, st.seqs[id], st.seqs[id].computed / cfg.blockSize)
  {
    var s := st.seqs[id];
    assert LocalOk(cfg, st.pool.hashOf, s);
    ListedHeld(st.pool, st.seqs, id);
    FullWithin(cfg.blockSize, s.computed);
    DivMono(s.computed, |s.tokens|, cfg.blockSize);
    BlockEnds(|s.tokens|, cfg.blockSize);
  }

  lemma SwapsHeld(cfg: Config, p0: Pool, q: Pool, s: Sequence, full: nat, swaps: seq<Swap>)
    requires cfg.blockSize > 0 && Publishable(cfg, p0, s, full) && Took(p0, q, Canonicals(swaps))
    requires forall b :: b in Ours(swaps) ==> b in s.blocks
    ensures AllHeld(q, Ours(swaps))
  {}

  lemma SwapsInside(cfg: Config, p0: Pool, s: Sequence, full: nat, swaps: seq<Swap>)
    requires cfg.blockSize > 0 && SwapsOk(cfg, p0, s, full, swaps)
    ensures forall k :: 0 <= k < |swaps| ==> swaps[k].0 < |s.blocks|
  {}

  /** Publication in one statement: the list it ends with and the pool it leaves. */
  lemma PublishOneIs(cfg: Config, st: Sched, id: SeqId) returns (q: Pool, swaps: seq<Swap>)
    requires Core(cfg, st) && cfg.prefixCache && id in st.seqs && IsActive(st.seqs[id])
    requires st.seqs[id].computed / cfg.blockSize > st.seqs[id].cachedBlocks
    ensures var s, full := st.seqs[id], st.seqs[id].computed / cfg.blockSize;
      Publishable(cfg, st.pool, s, full) && Publishing(cfg, st.pool, q, s, full, swaps) && AllHeld(q, Ours(swaps))
      && PublishOne(cfg, st, id) == st.(pool := ReleaseAll(q, Ours(swaps)), seqs := st.seqs[id := Published(s, full, Swapped(s.blocks, swaps))])
  {
    var s, full := st.seqs[id], st.seqs[id].computed / cfg.blockSize;
    q, swaps := PublishRange(cfg, st.pool, s, s.cachedBlocks, full, []).0, PublishRange(cfg, st.pool, s, s.cachedBlocks, full, []).1;
    FullyPublishable(cfg, st, id);
    PublishOneUnfold(cfg, st, id, full, q, swaps);
    hide *;
    PublishingStart(cfg, st.pool, s, full);
    PublishableParts(cfg, st.pool, s, full);
    PublishRangeOk(cfg, st.pool, st.pool, s, s.cachedBlocks, full, []);
    PublishingParts(cfg, st.pool, q, s, full, swaps);
    SwapsDistinct(cfg, st.pool, s, full, swaps);
    SwapsHeld(cfg, st.pool, q, s, full, swaps);
    SwapsInside(cfg, st.pool, s, full, swaps);
    ApplySwapsOk(q, s.blocks, swaps);
  }

  lemma PublishOneUnfold(cfg: Config, st: Sched, id: SeqId, full: nat, q: Pool, swaps: seq<Swap>)
    requires cfg.blockSize > 0 && id in st.seqs && full == st.seqs[id].computed / cfg.blockSize && full > st.seqs[id].cachedBlocks
    requires (q, swaps) == PublishRange(cfg, st.pool, st.seqs[id], st.seqs[id].cachedBlocks, full, [])
    ensures var (r, out) := ApplySwaps(q, st.seqs[id].blocks, swaps);
      PublishOne(cfg, st, id) == st.(pool := r, seqs := st.seqs[id := Published(st.seqs[id], full, out)])
  {}

  lemma PublishedBasic(cfg: Config, s: Sequence, v: seq<BlockId>)
    requires cfg.blockSize > 0 && cfg.prefixCache && BasicOk(cfg, s) && |v| == |s.blocks|
    ensures var t := Published(s, s.computed / cfg.blockSize, v);
      BasicOk(cfg, t) && t.request == s.request && IsActive(t) == IsActive(s) && IsWaiting(t) == IsWaiting(s)
  {}

  lemma PublishActiveCore(cfg: Config, st: Sched, id: SeqId)
    requires Core(cfg, st) && cfg.prefixCache && id in st.seqs && IsActive(st.seqs[id])
    requires st.seqs[id].computed / cfg.blockSize > st.seqs[id].cachedBlocks
    ensures Core(cfg, PublishOne(cfg, st, id))
  {
    hide *;
    CoreParts(cfg, st);
    var s, full := st.seqs[id], st.seqs[id].computed / cfg.blockSize;
    var q, swaps := PublishOneIs(cfg, st, id);
    var t := PublishOne(cfg, st, id);
    PublishBlocks(cfg, st.pool, q, t.pool, st.seqs, id, full, swaps);
    PublishedBasic(cfg, s, Swapped(s.blocks, swaps));
    BasicKept(cfg, st.seqs, id, t.seqs[id], t.seqs);
    QueuesKept(st, t, id);
    CoreMade(cfg, t);
  }

  lemma {:induction false} PublishNothing(cfg: Config, p: Pool, s: Sequence, i: nat, full: nat)
    requires cfg.blockSize > 0 && s.blocks == []
    ensures PublishRange(cfg, p, s, i, full, []) == (p, [])
    decreases full - i
  {
    if i < full {
      PublishNothing(cfg, p, s, i + 1, full);
    }
  }

  lemma EmptyListBlocks(cfg: Config, p: Pool, seqs: map<SeqId, Sequence>, id: SeqId, t: Sequence)
    requires cfg.blockSize > 0 && BlocksOk(cfg, p, seqs) && id in seqs && seqs[id].blocks == [] && t.blocks == []
    ensures BlocksOk(cfg, p, seqs[id := t])
  {
    Replace(cfg, p, seqs, id, t, p);
  }

  lemma PublishEmptyCore(cfg: Config, st: Sched, id: SeqId)
    requires Core(cfg, st) && cfg.prefixCache && id in st.seqs && !IsActive(st.seqs[id])
    requires st.seqs[id].computed / cfg.blockSize > st.seqs[id].cachedBlocks
    ensures Core(cfg, PublishOne(cfg, st, id))
    ensures PublishOne(cfg, st, id) == st.(seqs := st.seqs[id := st.seqs[id].(cachedBlocks := st.seqs[id].computed / cfg.blockSize)])
  {
    var s, full := st.seqs[id], st.seqs[id].computed / cfg.blockSize;
    CoreParts(cfg, st);
    assert s.blocks == [] by { assert BasicOk(cfg, s); }
    var t := st.(seqs := st.seqs[id := Published(s, full, s.blocks)]);
    PublishedBasic(cfg, s, s.blocks);
    PublishNothing(cfg, st.pool, s, s.cachedBlocks, full);
    PublishOneUnfold(cfg, st, id, full, st.pool, []);
    assert ApplySwaps(st.pool, s.blocks, []) == (st.pool, s.blocks);
    assert PublishOne(cfg, st, id) == t;
    assert t.seqs[id].blocks == [] && t.seqs[id].request == s.request;
    hide *;
    EmptyListBlocks(cfg, st.pool, st.seqs, id, t.seqs[id]);
    BasicKept(cfg, st.seqs, id, t.seqs[id], t.seqs);
    QueuesKept(st, t, id);
    CoreMade(cfg, t);
  }

  lemma PublishOneCore(cfg: Config, st: Sched, id: SeqId)
    requires Core(cfg, st) && cfg.prefixCache
    ensures Core(cfg, PublishOne(cfg, st, id))
  {
    if id in st.seqs && st.seqs[id].computed / cfg.blockSize > st.seqs[id].cachedBlocks {
      hide *;
      if IsActive(st.seqs[id]) {
        PublishActiveCore(cfg, st, id);
      } else {
        PublishEmptyCore(cfg, st, id);
      }
    }
  }

  lemma {:induction false} PublishLoopCore(cfg: Config, st: Sched, ids: seq<SeqId>)
    requires cfg.blockSize > 0 && Core(cfg, st) && cfg.prefixCache
    ensures Core(cfg, PublishLoop(cfg, st, ids))
    decreases |ids|
  {
    hide Core, PublishOne;
    if ids != [] {
      PublishOneCore(cfg, st, ids[0]);
      PublishLoopCore(cfg, PublishOne(cfg, st, ids[0]), ids[1..]);
    }
  }
}
