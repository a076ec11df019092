/** A fork carried through: its block copies and its first tokens bring the scheduler back between
    two rounds, every choice reading the prompt's own rows. */
module ForkSeeding {
  import opened Prelude
  import opened PoolModel
  import opened Sequences
  import opened SchedulerModel
  import opened Invariants
  import opened CoreSteps
  import opened CoreCommit
  import opened Rounds
  import opened Scheduling
  import opened Committing
  import opened Kv
  import opened Transparency
  import opened ForwardPass
  import opened Forking

  // ----------------------------------------------------------- block copies

  type Pair = (BlockId, BlockId)

  /** Destinations are distinct, and no destination is also a source. */
  ghost predicate CopyPairs(pairs: seq<Pair>, n: nat) {
    (forall k :: 0 <= k < |pairs| ==> pairs[k].0 < n && pairs[k].1 < n)
    && (forall k, l :: 0 <= k < |pairs| && 0 <= l < |pairs| ==> pairs[k].0 != pairs[l].1)
    && (forall k, l :: 0 <= k < l < |pairs| ==> pairs[k].1 != pairs[l].1)
  }

  /** `after` is `kv` with every destination replaced by its source. */
  ghost predicate Copied(pairs: seq<Pair>, kv: Cache, after: Cache) {
    |after| == |kv|
    && (forall k :: 0 <= k < |pairs| && pairs[k].0 < |kv| && pairs[k].1 < |kv| ==> after[pairs[k].1] == kv[pairs[k].0])
    && (forall b: nat :: b < |kv| && (forall k :: 0 <= k < |pairs| ==> pairs[k].1 != b) ==> after[b] == kv[b])
  }

  lemma CopiedStep(pairs: seq<Pair>, kv: Cache, mid: Cache, after: Cache)
    requires pairs != [] && CopyPairs(pairs, |kv|) && mid == kv[pairs[0].1 := kv[pairs[0].0]] && Copied(pairs[1..], mid, after)
    ensures Copied(pairs, kv, after)
  {
    var rest := pairs[1..];
    assert forall k :: 0 <= k < |rest| ==> rest[k] == pairs[k + 1];
    assert forall k :: 0 < k < |pairs| ==> pairs[k] == rest[k - 1];
    assert after[pairs[0].1] == mid[pairs[0].1];
  }

  lemma {:induction false} CopyBlocksIs(kv: Cache, pairs: seq<Pair>)
    requires CopyPairs(pairs, |kv|)
    ensures Copied(pairs, kv, CopyBlocks(kv, pairs))
    decreases |pairs|
  {
    if pairs != [] {
      var mid := kv[pairs[0].1 := kv[pairs[0].0]];
      assert forall k :: 0 <= k < |pairs[1..]| ==> pairs[1..][k] == pairs[k + 1];
      CopyBlocksIs(mid, pairs[1..]);
      CopiedStep(pairs, kv, mid, CopyBlocks(mid, pairs[1..]));
    }
  }

  // ---------------------------------------------- the copies a fork asks for

  ghost predicate IsChild(st: Sched, t: Sched, id: SeqId) {
    st.nextId <= id < t.nextId && id in t.seqs
  }

  /** `b` is the open block of one of the children. */
  ghost predicate OpenBlock(st: Sched, t: Sched, b: BlockId) {
    exists id :: IsChild(st, t, id) && Open(t.seqs[id]) == b
  }

  lemma ChildrenAt(cfg: Config, st: Sched, s: Sequence, t: Sched, out: Fork, id: SeqId)
    requires cfg.blockSize > 0 && Family(cfg, st, s, t, out) && st.nextId <= id < t.nextId
    ensures IsChild(st, t, id) && t.seqs[id] == Child(cfg, s, Open(t.seqs[id])) && t.seqs[id].blocks == Shared(cfg, s) + [Open(t.seqs[id])]
    ensures IsActive(t.seqs[id])
  {
    ChildIs(cfg, s, Open(t.seqs[id]));
    hide Child, Open, Cleared, Copies;
  }

  lemma FamilyIds(cfg: Config, st: Sched, s: Sequence, t: Sched, out: Fork)
    requires cfg.blockSize > 0 && Family(cfg, st, s, t, out)
    ensures t.nextId >= st.nextId && |out.ids| == t.nextId - st.nextId
    ensures forall k :: 0 <= k < |out.ids| ==> out.ids[k] == st.nextId + k
    ensures forall id :: id in st.seqs ==> id in t.seqs && t.seqs[id] == st.seqs[id]
    ensures forall id :: id in t.seqs ==> id in st.seqs || st.nextId <= id < t.nextId
    ensures t.waiting == st.waiting && t.finished == st.finished
    ensures |t.pool.refs| == |st.pool.refs| && Cleared(st.pool.hashOf, t.pool.hashOf)
  {
    hide Child, Open, Cleared, Shared;
  }

  lemma FamilyCopies(cfg: Config, st: Sched, s: Sequence, t: Sched, out: Fork)
    requires cfg.blockSize > 0 && Family(cfg, st, s, t, out)
    ensures s.computed % cfg.blockSize == 0 ==> out.copies == []
    ensures s.computed % cfg.blockSize != 0 ==> Full(cfg, s) < |s.blocks| && |out.copies| == |out.ids|
    ensures s.computed % cfg.blockSize != 0 ==> forall k :: 0 <= k < |out.copies| ==> out.ids[k] in t.seqs && out.copies[k] == (s.blocks[Full(cfg, s)], Open(t.seqs[out.ids[k]]))
  {
    hide Child, Open, Cleared, Children;
  }

  /** A child's open block is its own: no other sequence lists it, and it carries no address. */
  ghost predicate OwnOpen(cfg: Config, st: Sched, t: Sched, id: SeqId) {
    id in t.seqs && Open(t.seqs[id]) < |t.pool.hashOf| && t.pool.hashOf[Open(t.seqs[id])] == None
    && forall o :: o in t.seqs && o != id ==> Open(t.seqs[id]) !in t.seqs[o].blocks
  }

  lemma ChildSettled(cfg: Config, s: Sequence, open: BlockId)
    requires cfg.blockSize > 0 && BasicOk(cfg, s) && Full(cfg, s) <= |s.blocks|
    ensures var c := Child(cfg, s, open);
      |c.blocks| == Full(cfg, s) + 1 && c.blocks[Full(cfg, s)] == open && Settled(cfg, c) <= Full(cfg, s)
      && c.computed == s.computed && c.tokens == Upto(s.tokens, s.promptLen) && c.tenant == s.tenant
      && c.cachedBlocks == s.cachedBlocks && c.promptLen == |c.tokens| && c.target == |c.tokens| && c.params == s.params
  {}

  lemma OpenIsOwn(cfg: Config, st: Sched, s: Sequence, t: Sched, out: Fork, id: SeqId)
    requires cfg.blockSize > 0 && Family(cfg, st, s, t, out) && BlocksOk(cfg, t.pool, t.seqs) && st.nextId <= id < t.nextId
    requires BasicOk(cfg, s) && Full(cfg, s) <= |s.blocks|
    ensures OwnOpen(cfg, st, t, id)
  {
    ChildrenAt(cfg, st, s, t, out, id);
    var c := t.seqs[id];
    ChildSettled(cfg, s, Open(c));
    hide Child, Family, Shared, Full, BasicOk;
    assert LocalOk(cfg, t.pool.hashOf, c);
    forall o | o in t.seqs && o != id ensures Open(c) !in t.seqs[o].blocks {
      assert Apart(cfg, c, t.seqs[o]);
    }
  }

  lemma OwnOpenParts(cfg: Config, st: Sched, t: Sched, id: SeqId)
    requires OwnOpen(cfg, st, t, id)
    ensures id in t.seqs && Open(t.seqs[id]) < |t.pool.hashOf| && t.pool.hashOf[Open(t.seqs[id])] == None
    ensures forall o :: o in t.seqs && o != id ==> Open(t.seqs[id]) !in t.seqs[o].blocks
  {}

  lemma OpenListed(s: Sequence)
    requires s.blocks != []
    ensures Open(s) in s.blocks
  {}

  /** Only the children's open blocks are written. */
  ghost predicate OnlyOpens(st: Sched, t: Sched, kv: Cache, after: Cache) {
    |after| == |kv| && forall b: nat :: b < |kv| && !OpenBlock(st, t, b) ==> after[b] == kv[b]
  }

  /** What the copies leave: nothing but open blocks changed, and an open block with content is the parent's. */
  ghost predicate CopiesDone(cfg: Config, st: Sched, s: Sequence, t: Sched, kv: Cache, after: Cache)
    requires cfg.blockSize > 0
  {
    OnlyOpens(st, t, kv, after) && (forall b: nat :: b < |kv| ==> |kv[b]| == cfg.blockSize) && (forall b: nat :: b < |after| ==> |after[b]| == cfg.blockSize)
    && (s.computed % cfg.blockSize != 0 ==>
          Full(cfg, s) < |s.blocks| && s.blocks[Full(cfg, s)] < |kv|
          && forall id :: IsChild(st, t, id) ==> Open(t.seqs[id]) < |kv| && after[Open(t.seqs[id])] == kv[s.blocks[Full(cfg, s)]])
  }

  lemma PairsOk(cfg: Config, st: Sched, s: Sequence, t: Sched, out: Fork, parent: SeqId)
    requires cfg.blockSize > 0 && Family(cfg, st, s, t, out) && parent in st.seqs && st.seqs[parent] == s && parent < st.nextId
    requires s.computed % cfg.blockSize != 0 && |t.pool.hashOf| == |t.pool.refs|
    requires forall j :: 0 <= j < |s.blocks| ==> s.blocks[j] < |t.pool.refs|
    requires forall id :: st.nextId <= id < t.nextId ==> OwnOpen(cfg, st, t, id)
    requires forall id :: st.nextId <= id < t.nextId ==> id in t.seqs && t.seqs[id].blocks != []
    ensures CopyPairs(out.copies, |t.pool.refs|)
  {
    FamilyIds(cfg, st, s, t, out);
    FamilyCopies(cfg, st, s, t, out);
    hide Family, Full, Open, Cleared, OwnOpen;
    forall k | 0 <= k < |out.copies|
      ensures out.copies[k].1 < |t.pool.hashOf| && out.copies[k].1 !in s.blocks
      ensures forall l :: k < l < |out.copies| ==> out.copies[k].1 != out.copies[l].1
    {
      OwnOpenParts(cfg, st, t, out.ids[k]);
      forall l | k < l < |out.copies| ensures out.copies[k].1 != out.copies[l].1 {
        OpenListed(t.seqs[out.ids[l]]);
      }
    }
  }

  /** The copies reach every child, and only the children. */
  ghost predicate Reached(st: Sched, t: Sched, pairs: seq<Pair>, from: BlockId) {
    (forall k :: 0 <= k < |pairs| ==> pairs[k].0 == from && OpenBlock(st, t, pairs[k].1))
    && (forall id :: IsChild(st, t, id) ==> exists k :: 0 <= k < |pairs| && pairs[k].1 == Open(t.seqs[id]))
  }

  lemma FamilyReached(cfg: Config, st: Sched, s: Sequence, t: Sched, out: Fork)
    requires cfg.blockSize > 0 && Family(cfg, st, s, t, out) && s.computed % cfg.blockSize != 0
    ensures Full(cfg, s) < |s.blocks| && Reached(st, t, out.copies, s.blocks[Full(cfg, s)])
  {
    hide Family, Full, Open, Cleared, OpenBlock;
    FamilyIds(cfg, st, s, t, out);
    FamilyCopies(cfg, st, s, t, out);
    forall id: nat | IsChild(st, t, id) ensures exists k :: 0 <= k < |out.copies| && out.copies[k].1 == Open(t.seqs[id]) {
      var k := id - st.nextId;
      assert out.ids[k] == id && out.copies[k].1 == Open(t.seqs[id]);
    }
    forall k | 0 <= k < |out.copies| ensures OpenBlock(st, t, out.copies[k].1) {
      OpenOfChild(st, t, out.ids[k]);
    }
  }

  lemma OpenOfChild(st: Sched, t: Sched, id: SeqId)
    requires IsChild(st, t, id)
    ensures OpenBlock(st, t, Open(t.seqs[id]))
  {}

  lemma ReachedOpens(st: Sched, t: Sched, pairs: seq<Pair>, from: BlockId, kv: Cache, after: Cache)
    requires Reached(st, t, pairs, from) && Copied(pairs, kv, after)
    ensures OnlyOpens(st, t, kv, after)
  {
    hide OpenBlock;
  }

  lemma CopiedShape(pairs: seq<Pair>, kv: Cache, after: Cache, n: nat)
    requires Copied(pairs, kv, after) && CopyPairs(pairs, |kv|) && CacheShape(kv, |kv|, n)
    ensures CacheShape(after, |kv|, n)
  {
    forall b: nat | b < |after| ensures |after[b]| == n {
      if k :| 0 <= k < |pairs| && pairs[k].1 == b {
        assert after[b] == kv[pairs[k].0];
      } else {
        assert after[b] == kv[b];
      }
    }
  }

  lemma ReachedContent(st: Sched, t: Sched, pairs: seq<Pair>, from: BlockId, kv: Cache, after: Cache, id: SeqId)
    requires Reached(st, t, pairs, from) && Copied(pairs, kv, after) && CopyPairs(pairs, |kv|) && IsChild(st, t, id)
    ensures from < |kv| && Open(t.seqs[id]) < |after| && |after| == |kv| && after[Open(t.seqs[id])] == kv[from]
  {
    hide Open;
    var k :| 0 <= k < |pairs| && pairs[k].1 == Open(t.seqs[id]);
    assert pairs[k].0 < |kv| && pairs[k].1 < |kv|;
  }

  lemma ReachedContents(st: Sched, t: Sched, pairs: seq<Pair>, from: BlockId, kv: Cache, after: Cache)
    requires Reached(st, t, pairs, from) && Copied(pairs, kv, after) && CopyPairs(pairs, |kv|)
    ensures forall id :: IsChild(st, t, id) ==> from < |kv| && Open(t.seqs[id]) < |after| && |after| == |kv| && after[Open(t.seqs[id])] == kv[from]
  {
    hide Open, Reached, Copied, CopyPairs;
    forall id | IsChild(st, t, id) ensures from < |kv| && Open(t.seqs[id]) < |after| && |after| == |kv| && after[Open(t.seqs[id])] == kv[from] {
      ReachedContent(st, t, pairs, from, kv, after, id);
    }
  }

  lemma CopiesAre(cfg: Config, st: Sched, s: Sequence, t: Sched, out: Fork, kv: Cache)
    requires cfg.blockSize > 0 && Family(cfg, st, s, t, out) && CacheShape(kv, |kv|, cfg.blockSize)
    requires s.computed % cfg.blockSize != 0 ==> CopyPairs(out.copies, |kv|)
    requires Full(cfg, s) < |s.blocks| && s.blocks[Full(cfg, s)] < |kv|
    ensures CopiesDone(cfg, st, s, t, kv, CopyBlocks(kv, out.copies))
  {
    var after := CopyBlocks(kv, out.copies);
    hide *;
    CacheRows(kv, cfg.blockSize);
    if s.computed % cfg.blockSize != 0 {
      var from := s.blocks[Full(cfg, s)];
      CopyBlocksIs(kv, out.copies);
      FamilyReached(cfg, st, s, t, out);
      ReachedOpens(st, t, out.copies, from, kv, after);
      CopiedShape(out.copies, kv, after, cfg.blockSize);
      ReachedContents(st, t, out.copies, from, kv, after);
      CopiedSize(out.copies, kv, after);
      CacheRows(after, cfg.blockSize);
    } else {
      FamilyCopies(cfg, st, s, t, out);
      NothingCopied(st, t, kv);
    }
    CopiesDoneMade(cfg, st, s, t, kv, after);
  }

  lemma CopiedSize(pairs: seq<Pair>, kv: Cache, after: Cache)
    requires Copied(pairs, kv, after)
    ensures |after| == |kv|
  {}

  lemma CacheRows(kv: Cache, n: nat)
    requires CacheShape(kv, |kv|, n)
    ensures forall b: nat :: b < |kv| ==> |kv[b]| == n
  {}

  lemma NothingCopied(st: Sched, t: Sched, kv: Cache)
    ensures OnlyOpens(st, t, kv, kv) && CopyBlocks(kv, []) == kv
  {}

  lemma CopiesDoneMade(cfg: Config, st: Sched, s: Sequence, t: Sched, kv: Cache, after: Cache)
    requires cfg.blockSize > 0
    requires OnlyOpens(st, t, kv, after) && (forall b: nat :: b < |kv| ==> |kv[b]| == cfg.blockSize) && (forall b: nat :: b < |after| ==> |after[b]| == cfg.blockSize)
    requires Full(cfg, s) < |s.blocks| && s.blocks[Full(cfg, s)] < |kv|
    requires s.computed % cfg.blockSize != 0 ==> forall id :: IsChild(st, t, id) ==> Open(t.seqs[id]) < |kv| && |after| == |kv| && after[Open(t.seqs[id])] == kv[s.blocks[Full(cfg, s)]]
    ensures CopiesDone(cfg, st, s, t, kv, after)
  {
    hide OnlyOpens, Full, Open;
  }

  // ------------------------------------------------ what every choice reads

  /** No sequence that was there before reads an open block. */
  lemma OldRowsStay(cfg: Config, st: Sched, t: Sched, kv: Cache, after: Cache, o: SeqId)
    requires cfg.blockSize > 0 && OnlyOpens(st, t, kv, after) && o in t.seqs && o < st.nextId
    requires forall id :: IsChild(st, t, id) ==> Open(t.seqs[id]) !in t.seqs[o].blocks
    ensures forall p: nat :: RowAt(after, cfg.blockSize, t.seqs[o].blocks, p) == RowAt(kv, cfg.blockSize, t.seqs[o].blocks, p)
  {
    hide Open;
    forall p: nat ensures RowAt(after, cfg.blockSize, t.seqs[o].blocks, p) == RowAt(kv, cfg.blockSize, t.seqs[o].blocks, p) {
      var j := p / cfg.blockSize;
      if j < |t.seqs[o].blocks| && t.seqs[o].blocks[j] < |kv| {
        assert t.seqs[o].blocks[j] in t.seqs[o].blocks;
        assert after[t.seqs[o].blocks[j]] == kv[t.seqs[o].blocks[j]];
      }
    }
  }

  /** A shared block is nobody's open block. */
  lemma SharedStays(cfg: Config, st: Sched, s: Sequence, t: Sched, parent: SeqId, kv: Cache, after: Cache, j: nat)
    requires cfg.blockSize > 0 && OnlyOpens(st, t, kv, after) && parent in t.seqs && t.seqs[parent] == s && parent < st.nextId
    requires forall id :: IsChild(st, t, id) ==> Open(t.seqs[id]) !in s.blocks
    requires j < |s.blocks| && s.blocks[j] < |kv|
    ensures s.blocks[j] < |after| && after[s.blocks[j]] == kv[s.blocks[j]]
  {
    hide Open;
    assert s.blocks[j] in s.blocks;
  }

  /** A choice reads, at every position of the prompt, what its parent reads there. */
  lemma ChildRow(cfg: Config, st: Sched, s: Sequence, t: Sched, parent: SeqId, kv: Cache, after: Cache, id: SeqId, p: nat)
    requires cfg.blockSize > 0 && CopiesDone(cfg, st, s, t, kv, after) && parent in t.seqs && t.seqs[parent] == s && parent < st.nextId
    requires forall c :: IsChild(st, t, c) ==> Open(t.seqs[c]) !in s.blocks
    requires IsChild(st, t, id) && t.seqs[id].blocks == Shared(cfg, s) + [Open(t.seqs[id])] && Full(cfg, s) <= |s.blocks|
    requires p < s.computed && p / cfg.blockSize < |s.blocks| && s.blocks[p / cfg.blockSize] < |kv|
    ensures RowAt(after, cfg.blockSize, t.seqs[id].blocks, p) == RowAt(kv, cfg.blockSize, s.blocks, p)
  {
    var j, full := p / cfg.blockSize, Full(cfg, s);
    DivMono(p, s.computed, cfg.blockSize);
    assert j <= full;
    assert |Shared(cfg, s)| == full && forall i :: 0 <= i < full ==> Shared(cfg, s)[i] == s.blocks[i];
    if j < full {
      assert t.seqs[id].blocks[j] == s.blocks[j];
      SharedStays(cfg, st, s, t, parent, kv, after, j);
    } else {
      assert t.seqs[id].blocks[j] == Open(t.seqs[id]);
      Leftover(p, s.computed, cfg.blockSize);
      assert s.computed % cfg.blockSize != 0;
    }
  }

  lemma Leftover(p: nat, n: nat, d: nat)
    requires d > 0 && p < n && p / d == n / d
    ensures n % d != 0
  {
    assert p == (p / d) * d + p % d && n == (n / d) * d + n % d;
  }

  lemma ChildHolds(cfg: Config, st: Sched, s: Sequence, t: Sched, parent: SeqId, kv: Cache, after: Cache, id: SeqId)
    requires cfg.blockSize > 0 && CopiesDone(cfg, st, s, t, kv, after) && parent in t.seqs && t.seqs[parent] == s && parent < st.nextId
    requires forall c :: IsChild(st, t, c) ==> Open(t.seqs[c]) !in s.blocks
    requires IsChild(st, t, id) && t.seqs[id].blocks == Shared(cfg, s) + [Open(t.seqs[id])] && Full(cfg, s) <= |s.blocks|
    requires t.seqs[id].tokens == Upto(s.tokens, s.promptLen) && t.seqs[id].computed == s.computed && s.computed == s.promptLen
    requires BlocksFor(cfg.blockSize, s.computed) <= |s.blocks| && forall j :: 0 <= j < |s.blocks| ==> s.blocks[j] < |kv|
    requires RowsHold(cfg.blockSize, kv, s, s.computed)
    ensures RowsHold(cfg.blockSize, after, t.seqs[id], s.computed)
  {
    var c, n := t.seqs[id], s.computed;
    hide *;
    HeldPrompt(cfg.blockSize, kv, s, n, c.tokens);
    IdealPrefix(s.tokens, n);
    forall p: nat | p < n ensures RowAt(after, cfg.blockSize, c.blocks, p) == Ideal(c.tokens)[p] {
      RowHeld(cfg.blockSize, kv, s, n, p);
      PrefixAt(Ideal(s.tokens), n, p);
      ChildReads(cfg, st, s, t, parent, kv, after, id, p);
    }
    RowsHeld(cfg.blockSize, after, c, n);
  }

  lemma PrefixAt(rows: seq<Row>, n: nat, p: nat)
    requires p < n <= |rows|
    ensures rows[..n][p] == rows[p]
  {}

  lemma ChildReads(cfg: Config, st: Sched, s: Sequence, t: Sched, parent: SeqId, kv: Cache, after: Cache, id: SeqId, p: nat)
    requires cfg.blockSize > 0 && CopiesDone(cfg, st, s, t, kv, after) && parent in t.seqs && t.seqs[parent] == s && parent < st.nextId
    requires forall c :: IsChild(st, t, c) ==> Open(t.seqs[c]) !in s.blocks
    requires IsChild(st, t, id) && t.seqs[id].blocks == Shared(cfg, s) + [Open(t.seqs[id])] && Full(cfg, s) <= |s.blocks|
    requires p < s.computed && BlocksFor(cfg.blockSize, s.computed) <= |s.blocks| && forall j :: 0 <= j < |s.blocks| ==> s.blocks[j] < |kv|
    ensures RowAt(after, cfg.blockSize, t.seqs[id].blocks, p) == RowAt(kv, cfg.blockSize, s.blocks, p)
  {
    hide CopiesDone, Open, Shared, Full, RowAt, BlocksFor;
    BlocksForCovers(cfg.blockSize, s.computed, p);
    ChildRow(cfg, st, s, t, parent, kv, after, id, p);
  }

  lemma HeldPrompt(blockSize: nat, kv: Cache, s: Sequence, n: nat, tokens: seq<u32>)
    requires blockSize > 0 && RowsHold(blockSize, kv, s, n) && tokens == Upto(s.tokens, n)
    ensures n <= |s.tokens| && tokens == s.tokens[..n]
  {}

  lemma RowHeld(blockSize: nat, kv: Cache, s: Sequence, n: nat, p: nat)
    requires blockSize > 0 && RowsHold(blockSize, kv, s, n) && p < n
    ensures p < |s.tokens| && RowAt(kv, blockSize, s.blocks, p) == Ideal(s.tokens)[p]
  {}

  lemma RowsHeld(blockSize: nat, kv: Cache, s: Sequence, n: nat)
    requires blockSize > 0 && n <= |s.tokens| && forall p: nat :: p < n ==> RowAt(kv, blockSize, s.blocks, p) == Ideal(s.tokens)[p]
    ensures RowsHold(blockSize, kv, s, n)
  {}

  // ---------------------------------------------- the cache after the copies

  lemma CopiesPublished(cfg: Config, st: Sched, t: Sched, kv: Cache, after: Cache)
    requires cfg.blockSize > 0 && OnlyOpens(st, t, kv, after) && PublishedHold(cfg, t.pool.hashOf, kv) && |t.pool.hashOf| == |kv|
    requires forall id :: IsChild(st, t, id) ==> OwnOpen(cfg, st, t, id)
    ensures PublishedHold(cfg, t.pool.hashOf, after)
  {
    hide Open;
    forall b: nat, tenant: Text, prefix: seq<u32>
      | b < |t.pool.hashOf| && |prefix| > 0 && |prefix| % cfg.blockSize == 0 && t.pool.hashOf[b] == Some(cfg.hash(tenant, prefix))
      ensures BlockHolds(cfg.blockSize, after, b, prefix)
    {
      assert BlockHolds(cfg.blockSize, kv, b, prefix);
      assert !OpenBlock(st, t, b);
    }
  }

  lemma OpensForeign(cfg: Config, st: Sched, t: Sched, o: SeqId)
    requires o in t.seqs && o < st.nextId && forall id :: IsChild(st, t, id) ==> OwnOpen(cfg, st, t, id)
    ensures forall id :: IsChild(st, t, id) ==> Open(t.seqs[id]) !in t.seqs[o].blocks
  {
    hide Open;
  }

  lemma RowsSame(blockSize: nat, kv: Cache, after: Cache, s: Sequence, n: nat)
    requires blockSize > 0 && RowsHold(blockSize, kv, s, n)
    requires forall p: nat :: RowAt(after, blockSize, s.blocks, p) == RowAt(kv, blockSize, s.blocks, p)
    ensures RowsHold(blockSize, after, s, n)
  {}

  /** Everything a fork's cache argument uses about the pieces. */
  ghost predicate Forkable(cfg: Config, st: Sched, parent: SeqId, t: Sched, out: Fork, kv: Cache) {
    cfg.blockSize > 0 && parent in st.seqs && parent < st.nextId
    && Family(cfg, st, st.seqs[parent], t, out) && BlocksOk(cfg, t.pool, t.seqs) && |t.pool.hashOf| == |t.pool.refs|
    && BasicOk(cfg, st.seqs[parent]) && ForkParent(cfg, st.seqs[parent]) && Full(cfg, st.seqs[parent]) < |st.seqs[parent].blocks|
    && KvOk(cfg, st, kv)
  }

  lemma ForkableParts(cfg: Config, st: Sched, parent: SeqId, t: Sched, out: Fork, kv: Cache)
    requires Forkable(cfg, st, parent, t, out, kv)
    ensures cfg.blockSize > 0 && parent in st.seqs && parent < st.nextId && Family(cfg, st, st.seqs[parent], t, out) && BlocksOk(cfg, t.pool, t.seqs) && |t.pool.hashOf| == |t.pool.refs|
    ensures BasicOk(cfg, st.seqs[parent]) && ForkParent(cfg, st.seqs[parent]) && Full(cfg, st.seqs[parent]) < |st.seqs[parent].blocks| && KvOk(cfg, st, kv)
  {
    hide Family, BlocksOk, BasicOk, ForkParent, Full, KvOk;
  }

  lemma AllOwnOpen(cfg: Config, st: Sched, parent: SeqId, t: Sched, out: Fork, kv: Cache)
    requires Forkable(cfg, st, parent, t, out, kv)
    ensures forall id :: st.nextId <= id < t.nextId ==> OwnOpen(cfg, st, t, id) && IsChild(st, t, id)
    ensures forall id :: IsChild(st, t, id) ==> OwnOpen(cfg, st, t, id)
    ensures forall id :: st.nextId <= id < t.nextId ==> id in t.seqs && t.seqs[id].blocks != []
  {
    ForkableParts(cfg, st, parent, t, out, kv);
    hide Forkable, Family, BlocksOk, BasicOk, ForkParent, Full, KvOk, OwnOpen, Child, Open;
    forall id: SeqId | st.nextId <= id < t.nextId ensures OwnOpen(cfg, st, t, id) && IsChild(st, t, id) && id in t.seqs && t.seqs[id].blocks != [] {
      OpenIsOwn(cfg, st, st.seqs[parent], t, out, id);
      ChildrenAt(cfg, st, st.seqs[parent], t, out, id);
    }
  }

  lemma ParentBlocks(cfg: Config, st: Sched, parent: SeqId, t: Sched, out: Fork, kv: Cache)
    requires Forkable(cfg, st, parent, t, out, kv)
    ensures parent in t.seqs && t.seqs[parent] == st.seqs[parent] && |kv| == |t.pool.refs| && CacheShape(kv, |kv|, cfg.blockSize)
    ensures forall j :: 0 <= j < |st.seqs[parent].blocks| ==> st.seqs[parent].blocks[j] < |kv|
    ensures RowsHold(cfg.blockSize, kv, st.seqs[parent], st.seqs[parent].computed)
    ensures BlocksFor(cfg.blockSize, st.seqs[parent].computed) <= |st.seqs[parent].blocks| && st.seqs[parent].computed == st.seqs[parent].promptLen
  {
    FamilyIds(cfg, st, st.seqs[parent], t, out);
    hide Family, RowsHold, PublishedHold, RefsOk, PrivateOk, Cleared;
    assert LocalOk(cfg, t.pool.hashOf, t.seqs[parent]);
  }

  lemma DonePairs(cfg: Config, st: Sched, parent: SeqId, t: Sched, out: Fork, kv: Cache)
    requires Forkable(cfg, st, parent, t, out, kv)
    ensures cfg.blockSize > 0 && parent in st.seqs && CopiesDone(cfg, st, st.seqs[parent], t, kv, CopyBlocks(kv, out.copies))
  {
    hide *;
    ForkableParts(cfg, st, parent, t, out, kv);
    ParentBlocks(cfg, st, parent, t, out, kv);
    AllOwnOpen(cfg, st, parent, t, out, kv);
    if st.seqs[parent].computed % cfg.blockSize != 0 {
      PairsOk(cfg, st, st.seqs[parent], t, out, parent);
    }
    CopiesAre(cfg, st, st.seqs[parent], t, out, kv);
  }

  /** Sequence `id` reads its own text after the copies, whether it was there before or is a choice. */
  lemma HoldsAfterCopies(cfg: Config, st: Sched, parent: SeqId, t: Sched, out: Fork, kv: Cache, id: SeqId)
    requires Forkable(cfg, st, parent, t, out, kv) && id in t.seqs && IsActive(t.seqs[id])
    requires forall o :: o in st.seqs ==> o < st.nextId
    ensures cfg.blockSize > 0 && RowsHold(cfg.blockSize, CopyBlocks(kv, out.copies), t.seqs[id], t.seqs[id].computed)
  {
    var after := CopyBlocks(kv, out.copies);
    hide *;
    ForkableParts(cfg, st, parent, t, out, kv);
    DonePairs(cfg, st, parent, t, out, kv);
    AllOwnOpen(cfg, st, parent, t, out, kv);
    ParentBlocks(cfg, st, parent, t, out, kv);
    var s := st.seqs[parent];
    FamilyIds(cfg, st, s, t, out);
    DoneParts(cfg, st, s, t, kv, after);
    if id in st.seqs {
      KvParts(cfg, st, kv);
      SeqHolds(cfg, st.seqs, kv, id);
      OpensForeign(cfg, st, t, id);
      OldRowsStay(cfg, st, t, kv, after, id);
      RowsSame(cfg.blockSize, kv, after, t.seqs[id], t.seqs[id].computed);
    } else {
      ChildrenAt(cfg, st, s, t, out, id);
      ChildSettled(cfg, s, Open(t.seqs[id]));
      OpensForeign(cfg, st, t, parent);
      ChildHolds(cfg, st, s, t, parent, kv, after, id);
    }
  }

  lemma DoneParts(cfg: Config, st: Sched, s: Sequence, t: Sched, kv: Cache, after: Cache)
    requires cfg.blockSize > 0 && CopiesDone(cfg, st, s, t, kv, after)
    ensures OnlyOpens(st, t, kv, after) && |after| == |kv| && CacheShape(after, |kv|, cfg.blockSize)
  {}

  lemma ForkedKvOk(cfg: Config, st: Sched, parent: SeqId, t: Sched, out: Fork, kv: Cache)
    requires Forkable(cfg, st, parent, t, out, kv) && cfg.blockSize > 0
    requires forall o :: o in st.seqs ==> o < st.nextId
    ensures KvOk(cfg, t, CopyBlocks(kv, out.copies))
  {
    var after := CopyBlocks(kv, out.copies);
    hide *;
    ForkableParts(cfg, st, parent, t, out, kv);
    KvParts(cfg, st, kv);
    FamilyIds(cfg, st, st.seqs[parent], t, out);
    ParentBlocks(cfg, st, parent, t, out, kv);
    DonePairs(cfg, st, parent, t, out, kv);
    DoneParts(cfg, st, st.seqs[parent], t, kv, after);
    AllOwnOpen(cfg, st, parent, t, out, kv);
    ClearedHold(cfg, st.pool.hashOf, t.pool.hashOf, kv);
    CopiesPublished(cfg, st, t, kv, after);
    forall id | id in t.seqs && IsActive(t.seqs[id]) ensures RowsHold(cfg.blockSize, after, t.seqs[id], t.seqs[id].computed) {
      HoldsAfterCopies(cfg, st, parent, t, out, kv, id);
    }
    SeqsHoldMade(cfg, t.seqs, after);
    KvMade(cfg, t, after);
  }

  lemma SeqsHoldMade(cfg: Config, seqs: map<SeqId, Sequence>, kv: Cache)
    requires cfg.blockSize > 0 && forall id :: id in seqs && IsActive(seqs[id]) ==> RowsHold(cfg.blockSize, kv, seqs[id], seqs[id].computed)
    ensures SeqsHold(cfg, seqs, kv)
  {
    hide RowsHold;
  }

  // ------------------------------------------------------------ first tokens

  /** `seed_fork` for each choice in turn. */
  function SeedAll(cfg: Config, st: Sched, ids: seq<SeqId>, tokens: seq<u32>): (Sched, Option<ForkError>)
    requires cfg.blockSize > 0
    decreases |ids|
  {
    if ids == [] || tokens == [] then (st, None)
    else
      var (t, err) := SeedFork(cfg, st, ids[0], tokens[0]);
      if err.Some? then (t, err) else SeedAll(cfg, t, ids[1..], tokens[1..])
  }

  /** A choice waiting for its first token: the prompt computed, a block open for what follows. */
  ghost predicate Unseeded(cfg: Config, s: Sequence)
    requires cfg.blockSize > 0
  {
    s.status == Decoding && s.computed == |s.tokens| && s.promptLen == |s.tokens| && s.target == s.promptLen
    && BlocksFor(cfg.blockSize, s.computed + 1) <= |s.blocks|
    && |s.tokens| + 1 < cfg.maxContext && 1 < s.params.maxTokens
    && (cfg.prefixCache ==> s.cachedBlocks == s.computed / cfg.blockSize)
  }

  lemma ChildUnseeded(cfg: Config, s: Sequence, open: BlockId)
    requires cfg.blockSize > 0 && BasicOk(cfg, s) && Steady(cfg, s) && ForkParent(cfg, s) && Full(cfg, s) <= |s.blocks|
    ensures Unseeded(cfg, Child(cfg, s, open))
  {
    OpenCovers(cfg.blockSize, s.computed);
  }

  /** `seed_fork` takes no block: the open block is already there. */
  lemma SeedForkIs(cfg: Config, st: Sched, id: SeqId, token: u32)
    requires cfg.blockSize > 0 && id in st.seqs && Unseeded(cfg, st.seqs[id])
    ensures SeedFork(cfg, st, id, token) == (st.(seqs := st.seqs[id := PushToken(st.seqs[id], token)]), None)
  {}

  lemma SeededSteady(cfg: Config, s: Sequence, token: u32)
    requires cfg.blockSize > 0 && Unseeded(cfg, s) && BasicOk(cfg, s)
    ensures Steady(cfg, PushToken(s, token)) && InPlace(s, PushToken(s, token)) && BasicOk(cfg, PushToken(s, token))
    ensures IsActive(s) && PushToken(s, token).computed == s.computed && PushToken(s, token).tokens == s.tokens + [token] && PushToken(s, token).blocks == s.blocks
  {}

  /** Everyone is steady except the choices still to be seeded. */
  ghost predicate Seeding(cfg: Config, st: Sched, ids: seq<SeqId>)
    requires cfg.blockSize > 0
  {
    NoDup(ids) && (forall id :: id in ids ==> id in st.seqs && Unseeded(cfg, st.seqs[id]))
    && (forall id :: id in st.seqs && id !in ids ==> Steady(cfg, st.seqs[id]))
  }

  lemma SeedingParts(cfg: Config, st: Sched, ids: seq<SeqId>)
    requires cfg.blockSize > 0 && Seeding(cfg, st, ids) && ids != []
    ensures ids[0] in st.seqs && Unseeded(cfg, st.seqs[ids[0]])
  {
    hide Unseeded, Steady;
    assert ids[0] in ids;
  }

  lemma SeedingStep(cfg: Config, st: Sched, ids: seq<SeqId>, s: Sequence)
    requires cfg.blockSize > 0 && Seeding(cfg, st, ids) && ids != [] && Steady(cfg, s)
    ensures Seeding(cfg, st.(seqs := st.seqs[ids[0] := s]), ids[1..])
  {
    hide Unseeded, Steady;
    NoDupTail(ids);
    assert forall id :: id in ids <==> id == ids[0] || id in ids[1..];
  }

  lemma SeedKv(cfg: Config, st: Sched, kv: Cache, id: SeqId, t: Sequence)
    requires cfg.blockSize > 0 && KvOk(cfg, st, kv) && id in st.seqs && IsActive(st.seqs[id]) && BasicOk(cfg, st.seqs[id])
    requires t.computed == st.seqs[id].computed && st.seqs[id].tokens <= t.tokens && t.blocks == st.seqs[id].blocks
    ensures KvOk(cfg, st.(seqs := st.seqs[id := t]), kv)
  {
    hide *;
    KvParts(cfg, st, kv);
    SeqHolds(cfg, st.seqs, kv, id);
    ActiveCovered(cfg, st.seqs[id]);
    GrownRows(cfg.blockSize, kv, st.seqs[id], t, t.computed);
    var u := st.(seqs := st.seqs[id := t]);
    OneHolds(cfg, st.seqs, id, t, u.seqs, kv);
    KvMade(cfg, u, kv);
  }

  /** Exactly the choices grew, each by its own token. */
  ghost predicate Seeded(seqs: map<SeqId, Sequence>, ids: seq<SeqId>, tokens: seq<u32>, after: map<SeqId, Sequence>) {
    after.Keys == seqs.Keys
    && (forall k :: 0 <= k < |ids| && k < |tokens| && ids[k] in seqs ==> after[ids[k]] == PushToken(seqs[ids[k]], tokens[k]))
    && (forall id :: id in seqs && id !in ids ==> after[id] == seqs[id])
  }

  lemma SeededStep(seqs: map<SeqId, Sequence>, ids: seq<SeqId>, tokens: seq<u32>, mid: map<SeqId, Sequence>, after: map<SeqId, Sequence>)
    requires ids != [] && tokens != [] && NoDup(ids) && ids[0] in seqs && mid == seqs[ids[0] := PushToken(seqs[ids[0]], tokens[0])]
    requires Seeded(mid, ids[1..], tokens[1..], after)
    ensures Seeded(seqs, ids, tokens, after)
  {
    hide PushToken;
    NoDupTail(ids);
    assert mid.Keys == seqs.Keys;
    assert forall k :: 0 < k < |ids| ==> ids[k] == ids[1..][k - 1] && ids[k] in ids[1..];
    assert forall k :: 0 < k < |tokens| ==> tokens[k] == tokens[1..][k - 1];
    assert forall id :: id in ids <==> id == ids[0] || id in ids[1..];
  }

  lemma SeedAllUnfold(cfg: Config, st: Sched, ids: seq<SeqId>, tokens: seq<u32>)
    requires cfg.blockSize > 0
    ensures ids == [] || tokens == [] ==> SeedAll(cfg, st, ids, tokens) == (st, None)
    ensures ids != [] && tokens != [] && SeedFork(cfg, st, ids[0], tokens[0]).1.None? ==>
      SeedAll(cfg, st, ids, tokens) == SeedAll(cfg, SeedFork(cfg, st, ids[0], tokens[0]).0, ids[1..], tokens[1..])
  {}

  lemma SeedingDone(cfg: Config, st: Sched)
    requires cfg.blockSize > 0 && Seeding(cfg, st, [])
    ensures AllSteady(cfg, st.seqs)
  {
    hide Steady;
  }

  lemma SeedingNoDup(cfg: Config, st: Sched, ids: seq<SeqId>)
    requires cfg.blockSize > 0 && Seeding(cfg, st, ids)
    ensures NoDup(ids)
  {}

  lemma SeededNothing(seqs: map<SeqId, Sequence>)
    ensures Seeded(seqs, [], [], seqs)
  {}

  lemma {:induction false} SeedAllOk(cfg: Config, st: Sched, ids: seq<SeqId>, tokens: seq<u32>, kv: Cache)
    requires cfg.blockSize > 0 && Core(cfg, st) && KvOk(cfg, st, kv) && Seeding(cfg, st, ids) && |tokens| == |ids|
    ensures var (t, err) := SeedAll(cfg, st, ids, tokens);
      err.None? && Round(cfg, t) && KvOk(cfg, t, kv) && Seeded(st.seqs, ids, tokens, t.seqs) && t == st.(seqs := t.seqs)
    decreases |ids|
  {
    hide *;
    SeedAllUnfold(cfg, st, ids, tokens);
    if ids == [] {
      SeedingDone(cfg, st);
      RoundMade(cfg, st);
      SeededNothing(st.seqs);
    } else {
      var id := ids[0];
      SeedingParts(cfg, st, ids);
      SeedForkIs(cfg, st, id, tokens[0]);
      CoreParts(cfg, st);
      SeededSteady(cfg, st.seqs[id], tokens[0]);
      var s := PushToken(st.seqs[id], tokens[0]);
      var m := st.(seqs := st.seqs[id := s]);
      InPlaceCore(cfg, st, id, s, m);
      SeedKv(cfg, st, kv, id, s);
      SeedingStep(cfg, st, ids, s);
      SeedingNoDup(cfg, st, ids);
      SeedAllOk(cfg, m, ids[1..], tokens[1..], kv);
      SeededStep(st.seqs, ids, tokens, m.seqs, SeedAll(cfg, st, ids, tokens).0.seqs);
    }
  }

  // -------------------------------------------------------------- the step

  /** `fork_request`: fork, copy, seed. */
  function ForkStep(cfg: Config, st: Sched, kv: Cache, parent: SeqId, tokens: seq<u32>): (Sched, Cache, Option<ForkError>)
    requires cfg.blockSize > 0
  {
    var (t, fork, err) := ForkSeq(cfg, st, parent, |tokens|);
    if err.Some? then (t, kv, err)
    else
      var copied := CopyBlocks(kv, fork.copies);
      var (u, err') := SeedAll(cfg, t, fork.ids, tokens);
      (u, copied, err')
  }

  /** A choice: the parent's prompt, computed, and a first token of its own. */
  ghost predicate Choice(s: Sequence, token: u32, c: Sequence) {
    c.tokens == Upto(s.tokens, s.promptLen) + [token] && c.computed == s.promptLen && IsActive(c)
    && c.request == s.request && c.tenant == s.tenant && c.params == s.params && c.promptLen == s.promptLen && c.target == s.promptLen
  }

  /** After a fork: one choice per token, the parent and everyone else untouched. */
  ghost predicate Choices(cfg: Config, st: Sched, s: Sequence, tokens: seq<u32>, u: Sched) {
    u.nextId == st.nextId + |tokens|
    && (forall id :: id in st.seqs ==> id in u.seqs && u.seqs[id] == st.seqs[id])
    && (forall id :: id in u.seqs ==> id in st.seqs || st.nextId <= id < u.nextId)
    && (forall id: SeqId :: st.nextId <= id < u.nextId ==> id in u.seqs && Choice(s, tokens[id - st.nextId], u.seqs[id]))
  }

  lemma FamilySeeding(cfg: Config, st: Sched, parent: SeqId, t: Sched, out: Fork)
    requires cfg.blockSize > 0 && parent in st.seqs && Family(cfg, st, st.seqs[parent], t, out) && AllSteady(cfg, st.seqs)
    requires BasicOk(cfg, st.seqs[parent]) && Steady(cfg, st.seqs[parent]) && ForkParent(cfg, st.seqs[parent]) && Full(cfg, st.seqs[parent]) < |st.seqs[parent].blocks|
    requires forall id :: id in st.seqs ==> id < st.nextId
    ensures Seeding(cfg, t, out.ids)
  {
    FamilyIds(cfg, st, st.seqs[parent], t, out);
    hide Family, Unseeded, Steady, BasicOk, ForkParent, Full, Child, Cleared;
    forall id | id in out.ids ensures id in t.seqs && Unseeded(cfg, t.seqs[id]) {
      var k :| 0 <= k < |out.ids| && out.ids[k] == id;
      ChildrenAt(cfg, st, st.seqs[parent], t, out, id);
      ChildUnseeded(cfg, st.seqs[parent], Open(t.seqs[id]));
    }
    forall id: SeqId | st.nextId <= id < t.nextId ensures id in out.ids {
      assert out.ids[id - st.nextId] == id;
    }
  }

  lemma ChildChoice(cfg: Config, s: Sequence, open: BlockId, token: u32)
    requires cfg.blockSize > 0 && BasicOk(cfg, s) && Full(cfg, s) <= |s.blocks| && ForkParent(cfg, s)
    ensures Choice(s, token, PushToken(Child(cfg, s, open), token))
  {}

  lemma SeededAt(seqs: map<SeqId, Sequence>, ids: seq<SeqId>, tokens: seq<u32>, after: map<SeqId, Sequence>, k: nat)
    requires Seeded(seqs, ids, tokens, after) && k < |ids| && k < |tokens| && ids[k] in seqs
    ensures ids[k] in after && after[ids[k]] == PushToken(seqs[ids[k]], tokens[k])
  {}

  lemma SeededOthers(seqs: map<SeqId, Sequence>, ids: seq<SeqId>, tokens: seq<u32>, after: map<SeqId, Sequence>)
    requires Seeded(seqs, ids, tokens, after)
    ensures after.Keys == seqs.Keys && forall id :: id in seqs && id !in ids ==> after[id] == seqs[id]
  {}

  lemma ChoicesMade(cfg: Config, st: Sched, parent: SeqId, t: Sched, out: Fork, tokens: seq<u32>, u: Sched)
    requires cfg.blockSize > 0 && parent in st.seqs && Family(cfg, st, st.seqs[parent], t, out) && |out.ids| == |tokens|
    requires Seeded(t.seqs, out.ids, tokens, u.seqs) && u.nextId == t.nextId
    requires BasicOk(cfg, st.seqs[parent]) && Full(cfg, st.seqs[parent]) <= |st.seqs[parent].blocks| && ForkParent(cfg, st.seqs[parent])
    requires forall id :: id in st.seqs ==> id < st.nextId
    ensures Choices(cfg, st, st.seqs[parent], tokens, u)
  {
    hide *;
    FamilyIds(cfg, st, st.seqs[parent], t, out);
    SeededOthers(t.seqs, out.ids, tokens, u.seqs);
    forall id: SeqId | st.nextId <= id < t.nextId ensures id in u.seqs && Choice(st.seqs[parent], tokens[id - st.nextId], u.seqs[id]) {
      ChildrenAt(cfg, st, st.seqs[parent], t, out, id);
      IsChildIn(st, t, id);
      SeededAt(t.seqs, out.ids, tokens, u.seqs, id - st.nextId);
      ChildChoice(cfg, st.seqs[parent], Open(t.seqs[id]), tokens[id - st.nextId]);
    }
    OldUntouched(st, t, out.ids, u);
    ChoicesAssembled(cfg, st, st.seqs[parent], tokens, u);
  }

  lemma IsChildIn(st: Sched, t: Sched, id: SeqId)
    requires IsChild(st, t, id)
    ensures id in t.seqs
  {}

  lemma OldUntouched(st: Sched, t: Sched, ids: seq<SeqId>, u: Sched)
    requires forall id :: id in st.seqs ==> id < st.nextId && id in t.seqs && t.seqs[id] == st.seqs[id]
    requires forall k :: 0 <= k < |ids| ==> ids[k] == st.nextId + k
    requires u.seqs.Keys == t.seqs.Keys && forall id :: id in t.seqs && id !in ids ==> u.seqs[id] == t.seqs[id]
    requires forall id :: id in t.seqs ==> id in st.seqs || st.nextId <= id < t.nextId
    ensures forall id :: id in st.seqs ==> id in u.seqs && u.seqs[id] == st.seqs[id]
    ensures forall id :: id in u.seqs ==> id in st.seqs || st.nextId <= id < t.nextId
  {
    assert forall id :: id in st.seqs ==> id !in ids;
  }

  lemma ChoicesAssembled(cfg: Config, st: Sched, s: Sequence, tokens: seq<u32>, u: Sched)
    requires u.nextId == st.nextId + |tokens|
    requires forall id :: id in st.seqs ==> id in u.seqs && u.seqs[id] == st.seqs[id]
    requires forall id :: id in u.seqs ==> id in st.seqs || st.nextId <= id < u.nextId
    requires forall id: SeqId :: st.nextId <= id < u.nextId ==> id in u.seqs && Choice(s, tokens[id - st.nextId], u.seqs[id])
    ensures Choices(cfg, st, s, tokens, u)
  {
    hide Choice;
  }

  lemma ForkStepIs(cfg: Config, st: Sched, kv: Cache, parent: SeqId, tokens: seq<u32>)
    requires cfg.blockSize > 0
    ensures var (t, fork, err) := ForkSeq(cfg, st, parent, |tokens|);
      (err.Some? ==> ForkStep(cfg, st, kv, parent, tokens) == (t, kv, err))
      && (err.None? ==> var (u, err') := SeedAll(cfg, t, fork.ids, tokens);
            ForkStep(cfg, st, kv, parent, tokens) == (u, CopyBlocks(kv, fork.copies), err'))
  {}

  lemma ForkableMade(cfg: Config, st: Sched, parent: SeqId, t: Sched, out: Fork, kv: Cache)
    requires cfg.blockSize > 0 && parent in st.seqs && parent < st.nextId
    requires Family(cfg, st, st.seqs[parent], t, out) && BlocksOk(cfg, t.pool, t.seqs) && |t.pool.hashOf| == |t.pool.refs|
    requires BasicOk(cfg, st.seqs[parent]) && ForkParent(cfg, st.seqs[parent]) && Full(cfg, st.seqs[parent]) < |st.seqs[parent].blocks|
    requires KvOk(cfg, st, kv)
    ensures Forkable(cfg, st, parent, t, out, kv)
  {
    hide Family, BlocksOk, BasicOk, ForkParent, Full, KvOk;
  }

  /** Copy-on-write forking, as one step: it succeeds exactly when a guarded block per choice is free, and then
      every invariant between rounds holds again, every choice reads its prompt's own rows, and nobody else is touched. */
  lemma ForkStepOk(cfg: Config, st: Sched, kv: Cache, parent: SeqId, tokens: seq<u32>)
    requires Round(cfg, st) && cfg.blockSize > 0 && KvOk(cfg, st, kv) && parent in st.seqs && ForkParent(cfg, st.seqs[parent])
    ensures var (u, after, err) := ForkStep(cfg, st, kv, parent, tokens);
      (err.None? <==> tokens == [] || |st.pool.free| >= |tokens| + st.pool.watermark)
      && (err.None? ==> Round(cfg, u) && KvOk(cfg, u, after) && Choices(cfg, st, st.seqs[parent], tokens, u))
  {
    hide *;
    var s := st.seqs[parent];
    RoundParts(cfg, st);
    CoreParts(cfg, st);
    IdsBelow(st);
    AllSteadyAt(cfg, st.seqs, parent);
    OpenExists(cfg, s);
    ForkSucceedsIff(cfg, st, parent, |tokens|);
    ForkStepIs(cfg, st, kv, parent, tokens);
    var (t, fork, err) := ForkSeq(cfg, st, parent, |tokens|);
    if err.None? {
      MidwayParts(cfg, st, parent, t, fork);
      CoreParts(cfg, t);
      SizesOk(t.pool);
      ForkableMade(cfg, st, parent, t, fork, kv);
      ForkedKvOk(cfg, st, parent, t, fork, kv);
      FamilySeeding(cfg, st, parent, t, fork);
      SeedAllOk(cfg, t, fork.ids, tokens, CopyBlocks(kv, fork.copies));
      ChoicesMade(cfg, st, parent, t, fork, tokens, SeedAll(cfg, t, fork.ids, tokens).0);
    }
  }
}
