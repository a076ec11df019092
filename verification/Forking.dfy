/** Copy-on-write forking: `fork`, the block copies it asks for, and `seed_fork`. */
module Forking {
  import opened Prelude
  import opened Hashing
  import opened PoolModel
  import opened Sequences
  import opened SchedulerModel
  import opened Invariants
  import opened CoreSteps
  import opened CoreStart
  import opened CorePublish
  import opened Rounds
  import opened Scheduling
  import opened Committing
  import opened Transparency

  // ----------------------------------------------------------- the parent

  /** A live parent that has just sampled its first token: its whole prompt is computed, no more. */
  ghost predicate ForkParent(cfg: Config, s: Sequence) {
    IsActive(s) && !NeedsPrefill(s) && s.computed == s.promptLen
  }

  function Full(cfg: Config, s: Sequence): nat
    requires cfg.blockSize > 0
  {
    s.computed / cfg.blockSize
  }

  function Shared(cfg: Config, s: Sequence): seq<BlockId>
    requires cfg.blockSize > 0
  {
    Upto(s.blocks, Full(cfg, s))
  }

  /** A fork that owns `open` as its private block. */
  function Child(cfg: Config, s: Sequence, open: BlockId): Sequence
    requires cfg.blockSize > 0
  {
    AdoptPrefilled(NewSequence(s.request, Upto(s.tokens, s.promptLen), s.params, s.tenant), Shared(cfg, s) + [open], s.computed, s.cachedBlocks)
  }

  // -------------------------------------------------------- the reference counts

  lemma {:induction false} IncRefAllOk(p: Pool, blocks: seq<BlockId>)
    requires PoolOk(p) && NoDup(blocks) && AllHeld(p, blocks)
    ensures var q := IncRefAll(p, blocks);
      PoolOk(q) && Took(p, q, blocks) && q.hashOf == p.hashOf && q.free == p.free
    decreases |blocks|
  {
    if blocks == [] {
      TookNothing(p);
    } else {
      var b, rest := blocks[0], blocks[1..];
      assert b in blocks;
      NoDupTail(blocks);
      IncRefOk(p, b);
      var m := IncRef(p, b);
      forall c | c in rest ensures Held(m, c) {
        assert c in blocks;
      }
      hide PoolOk;
      IncRefAllOk(m, rest);
      TookFirst(p, m, b, IncRefAll(m, rest), rest);
      assert blocks == [b] + rest;
    }
  }

  /** The pool after one child: its shared blocks counted once more, one free block handed out. */
  ghost predicate ForkedPool(p: Pool, q: Pool, shared: seq<BlockId>, open: BlockId) {
    open < |p.refs| && open < |p.hashOf| && p.refs[open] == 0 && open !in shared
    && Took(p, q, shared + [open]) && q.hashOf == p.hashOf[open := None] && |q.free| == |p.free| - 1
  }

  lemma ForkPool(p: Pool, shared: seq<BlockId>)
    requires PoolOk(p) && NoDup(shared) && AllHeld(p, shared)
    ensures var (q, got) := AllocateGuarded(IncRefAll(p, shared));
      (got.Some? <==> CanAllocate(p, 1))
      && (got.Some? ==> PoolOk(q) && q.blockSize == p.blockSize && ForkedPool(p, q, shared, got.value))
      && (got.None? ==> q == IncRefAll(p, shared))
  {
    IncRefAllOk(p, shared);
    var m := IncRefAll(p, shared);
    AllocateOk(m);
    hide PoolOk, IncRefAll;
    var (q, got) := AllocateGuarded(m);
    if got.Some? {
      var b := got.value;
      assert b !in shared;
      assert forall c :: c in shared + [b] <==> c in shared || c == b;
    }
  }

  // -------------------------------------------------------------- one child

  lemma ChildLocal(cfg: Config, p: Pool, q: Pool, s: Sequence, open: BlockId)
    requires cfg.blockSize > 0 && LocalOk(cfg, p.hashOf, s) && BasicOk(cfg, s) && Steady(cfg, s) && ForkParent(cfg, s)
    requires open < |p.hashOf| && q.hashOf == p.hashOf[open := None] && open !in Shared(cfg, s) && Full(cfg, s) <= |s.blocks|
    ensures LocalOk(cfg, q.hashOf, Child(cfg, s, open))
  {
    var c := Child(cfg, s, open);
    var shared := Shared(cfg, s);
    assert NoDup(shared);
    NoDupAppend(shared, open);
    BlockEnds(s.computed, cfg.blockSize);
    forall j | 0 <= j < |c.blocks| && j < c.cachedBlocks ensures q.hashOf[c.blocks[j]] == Some(Address(cfg, c, j)) {
      assert c.blocks[j] == s.blocks[j] && c.blocks[j] in shared;
      assert BlockEnd(j, cfg.blockSize) <= s.computed;
      assert Upto(c.tokens, BlockEnd(j, cfg.blockSize)) == Upto(s.tokens, BlockEnd(j, cfg.blockSize));
    }
  }

  lemma ChildApart(cfg: Config, s: Sequence, open: BlockId, o: Sequence)
    requires cfg.blockSize > 0 && BasicOk(cfg, s) && Steady(cfg, s) && ForkParent(cfg, s) && Full(cfg, s) <= |s.blocks| && NoDup(s.blocks)
    requires open !in o.blocks && (Apart(cfg, o, s) || o == s)
    ensures Apart(cfg, Child(cfg, s, open), o) && Apart(cfg, o, Child(cfg, s, open))
  {
    var c := Child(cfg, s, open);
    assert Settled(cfg, c) == Full(cfg, s) && Settled(cfg, s) == Full(cfg, s);
    assert c.blocks[Full(cfg, s)] == open;
    forall j | 0 <= j < |o.blocks| && Settled(cfg, o) <= j ensures o.blocks[j] !in c.blocks {
      assert o.blocks[j] in o.blocks;
      if o == s {
        assert forall k :: 0 <= k < Full(cfg, s) ==> c.blocks[k] == s.blocks[k];
      } else {
        assert o.blocks[j] !in s.blocks;
        assert forall k :: 0 <= k < Full(cfg, s) ==> c.blocks[k] == s.blocks[k] && s.blocks[k] in s.blocks;
      }
    }
  }

  lemma FullInside(cfg: Config, s: Sequence)
    requires cfg.blockSize > 0 && BasicOk(cfg, s) && IsActive(s)
    ensures Full(cfg, s) <= |s.blocks|
  {
    FullWithin(cfg.blockSize, s.computed);
  }

  lemma SharedHeld(cfg: Config, p: Pool, s: Sequence)
    requires cfg.blockSize > 0 && AllHeld(p, s.blocks) && NoDup(s.blocks)
    ensures AllHeld(p, Shared(cfg, s)) && NoDup(Shared(cfg, s))
  {}

  lemma ChildIs(cfg: Config, s: Sequence, open: BlockId)
    requires cfg.blockSize > 0
    ensures var c := Child(cfg, s, open);
      c.blocks == Shared(cfg, s) + [open] && c.request == s.request && c.status == Decoding
  {}

  lemma ChildBlocks(cfg: Config, p: Pool, q: Pool, seqs: map<SeqId, Sequence>, parent: SeqId, id: SeqId, open: BlockId)
    requires cfg.blockSize > 0 && PoolOk(p) && BlocksOk(cfg, p, seqs) && parent in seqs && id !in seqs
    requires var s := seqs[parent]; BasicOk(cfg, s) && Steady(cfg, s) && ForkParent(cfg, s) && ForkedPool(p, q, Shared(cfg, s), open)
    ensures BlocksOk(cfg, q, seqs[id := Child(cfg, seqs[parent], open)])
  {
    var s := seqs[parent];
    var c := Child(cfg, s, open);
    hide *;
    ParentActive(cfg, s);
    FullInside(cfg, s);
    BlocksParts(cfg, p, seqs, parent);
    LocalNoDup(cfg, p.hashOf, s);
    SizesOk(p);
    ForkedPoolParts(p, q, Shared(cfg, s), open);
    ChildIs(cfg, s, open);
    ChildLocal(cfg, p, q, s, open);
    BlocksRefs(cfg, p, seqs);
    forall o | o in seqs && o != id
      ensures Apart(cfg, c, seqs[o]) && Apart(cfg, seqs[o], c)
      ensures forall b :: b in seqs[o].blocks && b < |p.hashOf| ==> q.hashOf[b] == p.hashOf[b]
    {
      Unlisted(p, seqs, open, o);
      ChildApart(cfg, s, open, seqs[o]);
    }
    NewRefs(p, q, seqs, id, c.blocks);
    Replace(cfg, p, seqs, id, c, q);
  }

  lemma ParentActive(cfg: Config, s: Sequence)
    requires ForkParent(cfg, s)
    ensures IsActive(s) && !NeedsPrefill(s) && s.computed == s.promptLen
  {}

  lemma BlocksRefs(cfg: Config, p: Pool, seqs: map<SeqId, Sequence>)
    requires cfg.blockSize > 0 && BlocksOk(cfg, p, seqs)
    ensures RefsOk(p, seqs)
  {}

  lemma ForkedPoolParts(p: Pool, q: Pool, shared: seq<BlockId>, open: BlockId)
    requires ForkedPool(p, q, shared, open)
    ensures open < |p.refs| && p.refs[open] == 0 && open !in shared && Took(p, q, shared + [open])
    ensures open < |p.hashOf| && q.hashOf == p.hashOf[open := None] && |q.refs| == |p.refs| && |q.hashOf| == |p.hashOf|
    ensures |q.free| == |p.free| - 1 && q.watermark == p.watermark
  {}

  lemma NewRefs(p: Pool, q: Pool, seqs: map<SeqId, Sequence>, id: SeqId, blocks: seq<BlockId>)
    requires id !in seqs && Took(p, q, blocks)
    ensures forall b: nat :: b < |p.refs| ==> q.refs[b] == p.refs[b] - Once(BlocksOf(seqs, id), b) + Once(blocks, b)
  {}

  /** The scheduler with one child more. */
  function Forked(cfg: Config, st: Sched, s: Sequence, q: Pool, open: BlockId): Sched
    requires cfg.blockSize > 0
  {
    st.(pool := q,
        nextId := st.nextId + 1,
        seqs := st.seqs[st.nextId := Child(cfg, s, open)],
        byRequest := st.byRequest[s.request := Listed(st.byRequest, s.request) + [st.nextId]],
        running := st.running + [st.nextId])
  }

  lemma ForkQueues(st: Sched, id: SeqId, c: Sequence, t: Sched)
    requires QueuesOk(st) && id == st.nextId && IsActive(c)
    requires t.seqs == st.seqs[id := c] && t.waiting == st.waiting && t.running == st.running + [id] && t.finished == st.finished && t.nextId == id + 1
    ensures QueuesOk(t)
  {
    assert id !in st.seqs;
    ClassesAfter(st.seqs, id, c);
    QueuePush(st.running, ActiveIds(st.seqs), id);
    assert WaitingIds(t.seqs) == WaitingIds(st.seqs) && FinishedIds(t.seqs) == FinishedIds(st.seqs);
  }

  lemma OpenCovers(blockSize: nat, n: nat)
    requires blockSize > 0
    ensures BlocksFor(blockSize, n) <= n / blockSize + 1 && BlocksFor(blockSize, n + 1) == n / blockSize + 1
  {
    assert n == (n / blockSize) * blockSize + n % blockSize;
    assert n + blockSize == (n / blockSize + 1) * blockSize + n % blockSize;
    DivUnique(n / blockSize + 1, n % blockSize, blockSize);
    BlocksForMono(blockSize, n, n + 1);
  }

  lemma ChildBasic(cfg: Config, s: Sequence, open: BlockId)
    requires cfg.blockSize > 0 && BasicOk(cfg, s) && Steady(cfg, s) && ForkParent(cfg, s) && Full(cfg, s) <= |s.blocks|
    ensures BasicOk(cfg, Child(cfg, s, open)) && IsActive(Child(cfg, s, open))
  {
    OpenCovers(cfg.blockSize, s.computed);
  }

  lemma ForkOneCore(cfg: Config, st: Sched, parent: SeqId, q: Pool, open: BlockId)
    requires Core(cfg, st) && cfg.blockSize > 0 && parent in st.seqs && Steady(cfg, st.seqs[parent]) && ForkParent(cfg, st.seqs[parent])
    requires PoolOk(q) && q.blockSize == cfg.blockSize && ForkedPool(st.pool, q, Shared(cfg, st.seqs[parent]), open)
    ensures Core(cfg, Forked(cfg, st, st.seqs[parent], q, open))
  {
    hide *;
    CoreParts(cfg, st);
    var s, id := st.seqs[parent], st.nextId;
    var c := Child(cfg, s, open);
    var t := Forked(cfg, st, s, q, open);
    ForkedIs(cfg, st, s, q, open);
    NextIsNew(st);
    ParentActive(cfg, s);
    FullInside(cfg, s);
    ChildBasic(cfg, s, open);
    ChildIs(cfg, s, open);
    ChildBlocks(cfg, st.pool, q, st.seqs, parent, id, open);
    ForkQueues(st, id, c, t);
    AddRequest(st, id, c, t);
    BasicKept(cfg, st.seqs, id, c, t.seqs);
    CoreMade(cfg, t);
  }

  lemma ForkedIs(cfg: Config, st: Sched, s: Sequence, q: Pool, open: BlockId)
    requires cfg.blockSize > 0
    ensures var t := Forked(cfg, st, s, q, open);
      t.pool == q && t.seqs == st.seqs[st.nextId := Child(cfg, s, open)] && t.nextId == st.nextId + 1
      && t.waiting == st.waiting && t.running == st.running + [st.nextId] && t.finished == st.finished
      && t.byRequest == st.byRequest[s.request := Listed(st.byRequest, s.request) + [st.nextId]]
  {}

  lemma NextIsNew(st: Sched)
    requires QueuesOk(st)
    ensures st.nextId !in st.seqs
  {
    hide QueueIs;
  }

  // ---------------------------------------------------------------- the loop

  /** What the forks made so far look like: each child shares the full blocks and owns its open one,
      and the copies asked for bring the parent's open block into it when it has content. */
  ghost predicate Children(cfg: Config, st: Sched, s: Sequence, t: Sched)
    requires cfg.blockSize > 0
  {
    t.nextId >= st.nextId && t.waiting == st.waiting && t.finished == st.finished
    && (forall id :: id in st.seqs ==> id in t.seqs && t.seqs[id] == st.seqs[id])
    && (forall id :: id in t.seqs ==> id in st.seqs || st.nextId <= id < t.nextId)
    && (forall id :: st.nextId <= id < t.nextId ==>
          id in t.seqs && t.seqs[id].blocks != [] && t.seqs[id] == Child(cfg, s, Open(t.seqs[id])))
  }

  /** The last block of a list. */
  function Open(s: Sequence): BlockId {
    if s.blocks == [] then 0 else s.blocks[|s.blocks| - 1]
  }

  ghost predicate Copies(cfg: Config, st: Sched, s: Sequence, t: Sched, out: Fork)
    requires cfg.blockSize > 0
  {
    t.nextId >= st.nextId && |out.ids| == t.nextId - st.nextId
    && (forall k :: 0 <= k < |out.ids| ==> out.ids[k] == st.nextId + k && out.ids[k] in t.seqs)
    && (s.computed % cfg.blockSize == 0 ==> out.copies == [])
    && (s.computed % cfg.blockSize != 0 ==>
          Full(cfg, s) < |s.blocks| && |out.copies| == |out.ids|
          && forall k :: 0 <= k < |out.copies| ==> out.copies[k] == (s.blocks[Full(cfg, s)], Open(t.seqs[out.ids[k]])))
  }

  ghost predicate Family(cfg: Config, st: Sched, s: Sequence, t: Sched, out: Fork)
    requires cfg.blockSize > 0
  {
    Children(cfg, st, s, t) && Copies(cfg, st, s, t, out)
    && |t.pool.refs| == |st.pool.refs| && Cleared(st.pool.hashOf, t.pool.hashOf)
  }

  function NextFork(cfg: Config, s: Sequence, id: SeqId, open: BlockId, out: Fork): Fork
    requires cfg.blockSize > 0
  {
    Fork(out.ids + [id], if Full(cfg, s) < |s.blocks| && s.computed % cfg.blockSize != 0 then out.copies + [(s.blocks[Full(cfg, s)], open)] else out.copies)
  }

  lemma ForkLoopUnfold(cfg: Config, st: Sched, s: Sequence, extra: nat, out: Fork)
    requires cfg.blockSize > 0 && |s.blocks| > Full(cfg, s)
    ensures extra == 0 ==> ForkLoop(cfg, st, s, extra, out) == (st, out, None)
    ensures extra > 0 ==>
      var (q, got) := AllocateGuarded(IncRefAll(st.pool, Shared(cfg, s)));
      ForkLoop(cfg, st, s, extra, out) ==
        if got.None? then (st.(pool := q), out, Some(NoBlocks))
        else ForkLoop(cfg, Forked(cfg, st, s, q, got.value), s, extra - 1, NextFork(cfg, s, st.nextId, got.value, out))
  {}

  lemma ChildrenGrow(cfg: Config, st: Sched, s: Sequence, t: Sched, q: Pool, open: BlockId)
    requires cfg.blockSize > 0 && Children(cfg, st, s, t) && t.nextId !in t.seqs
    requires forall id :: id in st.seqs ==> id < st.nextId
    ensures Children(cfg, st, s, Forked(cfg, t, s, q, open)) && Open(Child(cfg, s, open)) == open
  {
    ChildIs(cfg, s, open);
    hide Child, Shared;
  }

  lemma CopiesGrow(cfg: Config, st: Sched, s: Sequence, t: Sched, out: Fork, q: Pool, open: BlockId)
    requires cfg.blockSize > 0 && Copies(cfg, st, s, t, out) && Full(cfg, s) < |s.blocks| && t.nextId !in t.seqs && Open(Child(cfg, s, open)) == open
    ensures Copies(cfg, st, s, Forked(cfg, t, s, q, open), NextFork(cfg, s, t.nextId, open, out))
  {
    hide Child, Full, Open;
    var u, next := Forked(cfg, t, s, q, open), NextFork(cfg, s, t.nextId, open, out);
    assert forall k :: 0 <= k < |out.ids| ==> next.ids[k] == out.ids[k] && u.seqs[out.ids[k]] == t.seqs[out.ids[k]];
    assert next.ids[|out.ids|] == t.nextId && u.seqs[t.nextId] == Child(cfg, s, open);
  }

  lemma FamilyGrows(cfg: Config, st: Sched, s: Sequence, t: Sched, out: Fork, q: Pool, open: BlockId)
    requires cfg.blockSize > 0 && Family(cfg, st, s, t, out) && Full(cfg, s) < |s.blocks| && |q.refs| == |t.pool.refs|
    requires t.nextId !in t.seqs && Cleared(t.pool.hashOf, q.hashOf)
    requires forall id :: id in st.seqs ==> id < st.nextId
    ensures Family(cfg, st, s, Forked(cfg, t, s, q, open), NextFork(cfg, s, t.nextId, open, out))
  {
    hide Children, Copies, Cleared, NextFork, Child;
    ChildrenGrow(cfg, st, s, t, q, open);
    CopiesGrow(cfg, st, s, t, out, q, open);
    ClearedTwice(st.pool.hashOf, t.pool.hashOf, q.hashOf);
  }

  lemma FamilyStart(cfg: Config, st: Sched, s: Sequence)
    requires cfg.blockSize > 0 && Full(cfg, s) < |s.blocks| && forall id :: id in st.seqs ==> id < st.nextId
    ensures Family(cfg, st, s, st, Fork([], []))
  {}

  /** Every state `fork` passes through. */
  ghost predicate Midway(cfg: Config, st: Sched, parent: SeqId, t: Sched, out: Fork)
    requires cfg.blockSize > 0
  {
    parent in st.seqs && Core(cfg, t) && Family(cfg, st, st.seqs[parent], t, out)
    && |t.pool.free| == |st.pool.free| - |out.ids| && t.pool.watermark == st.pool.watermark
    && (out.ids != [] ==> |t.pool.free| >= t.pool.watermark)
  }

  lemma MidwayParts(cfg: Config, st: Sched, parent: SeqId, t: Sched, out: Fork)
    requires cfg.blockSize > 0 && Midway(cfg, st, parent, t, out)
    ensures parent in st.seqs && parent in t.seqs && t.seqs[parent] == st.seqs[parent] && Core(cfg, t)
    ensures Family(cfg, st, st.seqs[parent], t, out) && |t.pool.refs| == |st.pool.refs|
    ensures |t.pool.free| == |st.pool.free| - |out.ids| && t.pool.watermark == st.pool.watermark
    ensures out.ids != [] ==> |t.pool.free| >= t.pool.watermark
  {
    hide Core;
  }

  lemma MidwayMade(cfg: Config, st: Sched, parent: SeqId, t: Sched, out: Fork)
    requires cfg.blockSize > 0 && parent in st.seqs && Core(cfg, t) && Family(cfg, st, st.seqs[parent], t, out)
    requires |t.pool.free| == |st.pool.free| - |out.ids| && t.pool.watermark == st.pool.watermark
    requires out.ids != [] ==> |t.pool.free| >= t.pool.watermark
    ensures Midway(cfg, st, parent, t, out)
  {
    hide Core, Family;
  }

  /** `fork` ran out of blocks: the children made so far, and the references taken for the one it failed to make. */
  ghost predicate StoppedAt(cfg: Config, st: Sched, parent: SeqId, m: Sched, out: Fork, t: Sched)
    requires cfg.blockSize > 0
  {
    Midway(cfg, st, parent, m, out) && |m.pool.free| <= m.pool.watermark
    && t == m.(pool := IncRefAll(m.pool, Shared(cfg, st.seqs[parent])))
  }

  lemma StoppedParts(cfg: Config, st: Sched, parent: SeqId, m: Sched, out: Fork, t: Sched)
    requires cfg.blockSize > 0 && parent in st.seqs
    ensures StoppedAt(cfg, st, parent, m, out, t) <==>
      Midway(cfg, st, parent, m, out) && |m.pool.free| <= m.pool.watermark && t == m.(pool := IncRefAll(m.pool, Shared(cfg, st.seqs[parent])))
  {
    hide Midway, IncRefAll;
  }

  lemma {:induction false} ForkLoopOk(cfg: Config, st: Sched, parent: SeqId, t: Sched, extra: nat, out: Fork)
    requires cfg.blockSize > 0 && QueuesOk(st) && parent in st.seqs && Steady(cfg, st.seqs[parent]) && ForkParent(cfg, st.seqs[parent])
    requires Midway(cfg, st, parent, t, out) && Full(cfg, st.seqs[parent]) < |st.seqs[parent].blocks|
    ensures var (u, fork, err) := ForkLoop(cfg, t, st.seqs[parent], extra, out);
      (err.None? <==> extra == 0 || |t.pool.free| >= extra + t.pool.watermark)
      && (err.None? ==> Midway(cfg, st, parent, u, fork) && |fork.ids| == |out.ids| + extra)
      && (err.Some? ==> exists m :: StoppedAt(cfg, st, parent, m, fork, u))
    decreases extra
  {
    hide *;
    var s := st.seqs[parent];
    MidwayParts(cfg, st, parent, t, out);
    CoreParts(cfg, t);
    ForkLoopUnfold(cfg, t, s, extra, out);
    if extra > 0 {
      BlocksParts(cfg, t.pool, t.seqs, parent);
      LocalNoDup(cfg, t.pool.hashOf, s);
      BlocksRefs(cfg, t.pool, t.seqs);
      SizesOk(t.pool);
      LocalInside(cfg, t.pool.hashOf, s);
      ListedHeld(t.pool, t.seqs, parent);
      SharedHeld(cfg, t.pool, s);
      ForkPool(t.pool, Shared(cfg, s));
      CanAllocateIs(t.pool, 1);
      var (q, got) := AllocateGuarded(IncRefAll(t.pool, Shared(cfg, s)));
      if got.Some? {
        ForkedPoolParts(t.pool, q, Shared(cfg, s), got.value);
        ForkOneCore(cfg, t, parent, q, got.value);
        NextIsNew(t);
        IdsBelow(st);
        ClearedAt(t.pool.hashOf, q.hashOf, got.value);
        FamilyGrows(cfg, st, s, t, out, q, got.value);
        ForkedIs(cfg, t, s, q, got.value);
        NextForkIs(cfg, s, t.nextId, got.value, out);
        MidwayMade(cfg, st, parent, Forked(cfg, t, s, q, got.value), NextFork(cfg, s, t.nextId, got.value, out));
        ForkLoopOk(cfg, st, parent, Forked(cfg, t, s, q, got.value), extra - 1, NextFork(cfg, s, t.nextId, got.value, out));
      } else {
        StoppedParts(cfg, st, parent, t, out, t.(pool := q));
      }
    }
  }

  lemma NextForkIs(cfg: Config, s: Sequence, id: SeqId, open: BlockId, out: Fork)
    requires cfg.blockSize > 0
    ensures NextFork(cfg, s, id, open, out).ids == out.ids + [id]
  {}

  lemma ClearedAt(a: seq<Option<BlockHash>>, b: seq<Option<BlockHash>>, i: nat)
    requires i < |a| && b == a[i := None]
    ensures Cleared(a, b)
  {}

  lemma IdsBelow(st: Sched)
    requires QueuesOk(st)
    ensures forall id :: id in st.seqs ==> id < st.nextId
  {
    hide QueueIs;
  }

  lemma LocalInside(cfg: Config, hashOf: seq<Option<BlockHash>>, s: Sequence)
    requires cfg.blockSize > 0 && LocalOk(cfg, hashOf, s)
    ensures forall j :: 0 <= j < |s.blocks| ==> s.blocks[j] < |hashOf|
  {}

  // ------------------------------------------------------------ the outcome

  lemma OpenExists(cfg: Config, s: Sequence)
    requires cfg.blockSize > 0 && BasicOk(cfg, s) && Steady(cfg, s) && ForkParent(cfg, s)
    ensures Full(cfg, s) < |s.blocks|
  {
    OpenCovers(cfg.blockSize, s.computed);
    BlocksForMono(cfg.blockSize, s.computed + 1, s.target + 1);
  }

  /** `fork` succeeds exactly when one guarded block per child is free. */
  lemma ForkSucceedsIff(cfg: Config, st: Sched, parent: SeqId, extra: nat)
    requires Round(cfg, st) && cfg.blockSize > 0 && parent in st.seqs && ForkParent(cfg, st.seqs[parent])
    ensures var (t, fork, err) := ForkSeq(cfg, st, parent, extra);
      (err.None? <==> extra == 0 || |st.pool.free| >= extra + st.pool.watermark)
      && (err.None? ==> Midway(cfg, st, parent, t, fork) && |fork.ids| == extra)
      && (err.Some? ==> exists m :: StoppedAt(cfg, st, parent, m, fork, t))
  {
    ForkSeqIs(cfg, st, parent, extra);
    hide *;
    RoundParts(cfg, st);
    CoreParts(cfg, st);
    ParentActive(cfg, st.seqs[parent]);
    AllSteadyAt(cfg, st.seqs, parent);
    OpenExists(cfg, st.seqs[parent]);
    IdsBelow(st);
    FamilyStart(cfg, st, st.seqs[parent]);
    MidwayMade(cfg, st, parent, st, Fork([], []));
    ForkLoopOk(cfg, st, parent, st, extra, Fork([], []));
  }

  lemma ForkSeqIs(cfg: Config, st: Sched, parent: SeqId, extra: nat)
    requires cfg.blockSize > 0 && parent in st.seqs && ForkParent(cfg, st.seqs[parent])
    ensures ForkSeq(cfg, st, parent, extra) == ForkLoop(cfg, st, st.seqs[parent], extra, Fork([], []))
  {}

  /** Reference conservation through `fork`: it fails to hold exactly when the pool runs short and the prompt
      fills at least one block, because the failed child's references to the full blocks are never given back. */
  lemma ForkConservesIff(cfg: Config, st: Sched, parent: SeqId, extra: nat)
    requires Round(cfg, st) && cfg.blockSize > 0 && parent in st.seqs && ForkParent(cfg, st.seqs[parent])
    ensures var t := ForkSeq(cfg, st, parent, extra).0;
      RefsOk(t.pool, t.seqs) <==>
        extra == 0 || |st.pool.free| >= extra + st.pool.watermark || st.seqs[parent].promptLen < cfg.blockSize
  {
    var s := st.seqs[parent];
    var (t, fork, err) := ForkSeq(cfg, st, parent, extra);
    hide *;
    RoundParts(cfg, st);
    CoreParts(cfg, st);
    AllSteadyAt(cfg, st.seqs, parent);
    OpenExists(cfg, s);
    SmallPrompt(cfg, s);
    ForkSucceedsIff(cfg, st, parent, extra);
    if err.None? {
      MidwayParts(cfg, st, parent, t, fork);
      CoreParts(cfg, t);
      BlocksRefs(cfg, t.pool, t.seqs);
    } else {
      var m :| StoppedAt(cfg, st, parent, m, fork, t);
      StoppedParts(cfg, st, parent, m, fork, t);
      MidwayParts(cfg, st, parent, m, fork);
      CoreParts(cfg, m);
      BlocksRefs(cfg, m.pool, m.seqs);
      BlocksParts(cfg, m.pool, m.seqs, parent);
      LocalNoDup(cfg, m.pool.hashOf, s);
      LocalInside(cfg, m.pool.hashOf, s);
      SizesOk(m.pool);
      ListedHeld(m.pool, m.seqs, parent);
      SharedHeld(cfg, m.pool, s);
      IncRefAllOk(m.pool, Shared(cfg, s));
      LeakIff(m.pool, t.pool, m.seqs, Shared(cfg, s));
    }
  }

  lemma SmallPrompt(cfg: Config, s: Sequence)
    requires cfg.blockSize > 0 && ForkParent(cfg, s) && Full(cfg, s) < |s.blocks|
    ensures Shared(cfg, s) == [] <==> s.promptLen < cfg.blockSize
  {
    if s.promptLen < cfg.blockSize {
      DivUnique(0, s.promptLen, cfg.blockSize);
    } else {
      DivMono(cfg.blockSize, s.promptLen, cfg.blockSize);
      DivUnique(1, 0, cfg.blockSize);
    }
  }

  lemma LeakIff(p: Pool, q: Pool, seqs: map<SeqId, Sequence>, shared: seq<BlockId>)
    requires RefsOk(p, seqs) && Took(p, q, shared) && AllHeld(p, shared)
    ensures RefsOk(q, seqs) <==> shared == []
  {
    if shared != [] {
      var b := shared[0];
      assert b in shared && Held(p, b);
      assert q.refs[b] == p.refs[b] + 1;
    }
  }

  lemma LiveIsParent(cfg: Config, s: Sequence)
    requires IsActive(s) && !NeedsPrefill(s) && s.computed == s.promptLen
    ensures ForkParent(cfg, s)
  {}

  lemma ActiveCovered(cfg: Config, s: Sequence)
    requires cfg.blockSize > 0 && BasicOk(cfg, s) && IsActive(s)
    ensures BlocksFor(cfg.blockSize, s.computed) <= |s.blocks|
  {}

  /** What a fork refuses: an unknown leader, and one still prefilling, which changes nothing. Any other error is for
      want of a block. */
  lemma ForkRefuses(cfg: Config, st: Sched, parent: SeqId, extra: nat)
    requires cfg.blockSize > 0
    ensures var (t, fork, err) := ForkSeq(cfg, st, parent, extra);
      (err == Some(NoSuchSequence) <==> parent !in st.seqs)
      && (err == Some(NotPrefilled) <==> parent in st.seqs && st.seqs[parent].computed < st.seqs[parent].target)
      && (err.Some? && err != Some(NoBlocks) ==> t == st && fork == Fork([], []))
  {
    if parent in st.seqs {
      LoopError(cfg, st, st.seqs[parent], extra, Fork([], []));
    }
  }

  lemma {:induction false} LoopError(cfg: Config, st: Sched, s: Sequence, extra: nat, out: Fork)
    requires cfg.blockSize > 0
    ensures ForkLoop(cfg, st, s, extra, out).2.None? || ForkLoop(cfg, st, s, extra, out).2 == Some(NoBlocks)
    decreases extra
  {
    hide AllocateGuarded, IncRefAll;
    var full := s.computed / cfg.blockSize;
    var shared := Upto(s.blocks, full);
    var (p2, got) := if |s.blocks| > full then AllocateGuarded(IncRefAll(st.pool, shared)) else (IncRefAll(st.pool, shared), None);
    if extra > 0 && !(|s.blocks| > full && got.None?) {
      var copies := if got.Some? && full < |s.blocks| && s.computed % cfg.blockSize != 0 then out.copies + [(s.blocks[full], got.value)] else out.copies;
      var blocks := if got.Some? then shared + [got.value] else shared;
      var id := st.nextId;
      var child := AdoptPrefilled(NewSequence(s.request, Upto(s.tokens, s.promptLen), s.params, s.tenant), blocks, s.computed, s.cachedBlocks);
      var next := st.(
        pool := p2,
        nextId := id + 1,
        seqs := st.seqs[id := child],
        byRequest := st.byRequest[s.request := Listed(st.byRequest, s.request) + [id]],
        running := st.running + [id]);
      LoopError(cfg, next, s, extra - 1, Fork(out.ids + [id], copies));
    }
  }
}
