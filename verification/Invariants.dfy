/** What every step of the scheduler keeps: who owns which block, which blocks are
    private, which carry which address, and which queue holds which sequence. */
module Invariants {
  import opened Prelude
  import opened Hashing
  import opened PoolModel
  import opened Sequences
  import opened SchedulerModel

  // ---------------------------------------------------------- definitions

  ghost function Owners(seqs: map<SeqId, Sequence>, b: BlockId): set<SeqId> {
    set id | id in seqs && b in seqs[id].blocks
  }

  /** Reference conservation: a block's count is the number of sequences listing it. */
  ghost predicate RefsOk(p: Pool, seqs: map<SeqId, Sequence>) {
    forall b: nat :: b < |p.refs| ==> p.refs[b] == |Owners(seqs, b)|
  }

  /** Blocks below this index are full and may be shared; from it on they are private. */
  function Settled(cfg: Config, s: Sequence): nat
    requires cfg.blockSize > 0
  {
    if cfg.prefixCache then s.cachedBlocks else s.computed / cfg.blockSize
  }

  /** The address of block `j` of a sequence. */
  function Address(cfg: Config, s: Sequence, j: nat): BlockHash
    requires cfg.blockSize > 0
  {
    cfg.hash(s.tenant, Upto(s.tokens, BlockEnd(j, cfg.blockSize)))
  }

  /** Settled blocks carry the address of their prefix; the others carry none. */
  ghost predicate LocalOk(cfg: Config, hashOf: seq<Option<BlockHash>>, s: Sequence)
    requires cfg.blockSize > 0
  {
    NoDup(s.blocks)
    && (forall j :: 0 <= j < |s.blocks| ==> s.blocks[j] < |hashOf|)
    && (forall j :: 0 <= j < |s.blocks| && j < s.cachedBlocks ==> hashOf[s.blocks[j]] == Some(Address(cfg, s, j)))
    && (forall j :: 0 <= j < |s.blocks| && Settled(cfg, s) <= j ==> hashOf[s.blocks[j]] == None)
  }

  /** Nothing of `s` that it may still write to is listed by `t`. */
  ghost predicate Apart(cfg: Config, s: Sequence, t: Sequence)
    requires cfg.blockSize > 0
  {
    forall j :: 0 <= j < |s.blocks| && Settled(cfg, s) <= j ==> s.blocks[j] !in t.blocks
  }

  ghost predicate PrivateOk(cfg: Config, seqs: map<SeqId, Sequence>)
    requires cfg.blockSize > 0
  {
    forall id, o :: id in seqs && o in seqs && id != o ==> Apart(cfg, seqs[id], seqs[o])
  }

  ghost predicate BlocksOk(cfg: Config, p: Pool, seqs: map<SeqId, Sequence>)
    requires cfg.blockSize > 0
  {
    RefsOk(p, seqs) && PrivateOk(cfg, seqs)
    && forall id :: id in seqs ==> LocalOk(cfg, p.hashOf, seqs[id])
  }

  ghost predicate BasicOk(cfg: Config, s: Sequence)
    requires cfg.blockSize > 0
  {
    1 <= s.promptLen <= s.target <= |s.tokens| && s.computed <= |s.tokens|
    && s.cachedBlocks <= s.computed / cfg.blockSize
    && (!cfg.prefixCache ==> s.cachedBlocks == 0)
    && (IsActive(s) ==> BlocksFor(cfg.blockSize, s.computed) <= |s.blocks|)
    && (!IsActive(s) ==> s.blocks == [])
    && (IsWaiting(s) ==> s.computed == 0)
  }

  ghost function WaitingIds(seqs: map<SeqId, Sequence>): set<SeqId> { set id | id in seqs && IsWaiting(seqs[id]) }
  ghost function ActiveIds(seqs: map<SeqId, Sequence>): set<SeqId> { set id | id in seqs && IsActive(seqs[id]) }
  ghost function FinishedIds(seqs: map<SeqId, Sequence>): set<SeqId> { set id | id in seqs && IsFinished(seqs[id]) }

  /** A queue that lists exactly these ids, once each. */
  ghost predicate QueueIs(queue: seq<SeqId>, ids: set<SeqId>) {
    NoDup(queue) && forall id :: id in queue <==> id in ids
  }

  /** Every id is in the one queue its status calls for. */
  ghost predicate QueuesOk(st: Sched) {
    QueueIs(st.waiting, WaitingIds(st.seqs))
    && QueueIs(st.running, ActiveIds(st.seqs))
    && QueueIs(st.finished, FinishedIds(st.seqs))
    && forall id :: id in st.seqs ==> id < st.nextId
  }

  /** The request index lists exactly the sequences of each request. */
  ghost predicate RequestsOk(st: Sched) {
    (forall id :: id in st.seqs ==> st.seqs[id].request in st.byRequest && id in st.byRequest[st.seqs[id].request])
    && (forall r :: r in st.byRequest ==> st.byRequest[r] != [])
    && (forall r, id :: r in st.byRequest && id in st.byRequest[r] ==> id in st.seqs && st.seqs[id].request == r)
  }

  ghost predicate Core(cfg: Config, st: Sched) {
    cfg.blockSize > 0 && CollisionFree(cfg.hash, cfg.blockSize) && st.pool.blockSize == cfg.blockSize && PoolOk(st.pool)
    && BlocksOk(cfg, st.pool, st.seqs) && QueuesOk(st) && RequestsOk(st)
    && forall id :: id in st.seqs ==> BasicOk(cfg, st.seqs[id])
  }

  // ------------------------------------------------------------ arithmetic

  lemma BlocksForCovers(blockSize: nat, n: nat, p: nat)
    requires blockSize > 0 && p < n
    ensures p / blockSize < BlocksFor(blockSize, n)
  {
    DivMono(p + blockSize, n + blockSize - 1, blockSize);
    assert (p / blockSize + 1) * blockSize + p % blockSize == p + blockSize;
    DivUnique(p / blockSize + 1, p % blockSize, blockSize);
  }

  lemma BlocksForMono(blockSize: nat, m: nat, n: nat)
    requires blockSize > 0 && m <= n
    ensures BlocksFor(blockSize, m) <= BlocksFor(blockSize, n)
  {
    DivMono(m + blockSize - 1, n + blockSize - 1, blockSize);
  }

  lemma FullWithin(blockSize: nat, n: nat)
    requires blockSize > 0
    ensures n / blockSize <= BlocksFor(blockSize, n)
  {
    DivMono(n, n + blockSize - 1, blockSize);
  }

  // ------------------------------------------------- replacing one sequence

  function BlocksOf(seqs: map<SeqId, Sequence>, id: SeqId): seq<BlockId> {
    if id in seqs then seqs[id].blocks else []
  }

  lemma QueueDrop(queue: seq<SeqId>, ids: set<SeqId>, id: SeqId)
    requires QueueIs(queue, ids)
    ensures QueueIs(Without(queue, id), ids - {id})
  {
    WithoutMembers(queue, id);
    WithoutNoDup(queue, id);
  }

  lemma QueuePush(queue: seq<SeqId>, ids: set<SeqId>, id: SeqId)
    requires QueueIs(queue, ids) && id !in ids
    ensures QueueIs(queue + [id], ids + {id})
  {
    assert id !in queue;
    NoDupAppend(queue, id);
  }

  lemma QueuePushFront(queue: seq<SeqId>, ids: set<SeqId>, id: SeqId)
    requires QueueIs(queue, ids) && id !in ids
    ensures QueueIs([id] + queue, ids + {id})
  {
    assert id !in queue;
    NoDupJoin([id], queue);
  }

  /** How the three classes change when one sequence is replaced. */
  lemma ClassesAfter(seqs: map<SeqId, Sequence>, id: SeqId, s: Sequence)
    ensures WaitingIds(seqs[id := s]) == if IsWaiting(s) then WaitingIds(seqs) + {id} else WaitingIds(seqs) - {id}
    ensures ActiveIds(seqs[id := s]) == if IsActive(s) then ActiveIds(seqs) + {id} else ActiveIds(seqs) - {id}
    ensures FinishedIds(seqs[id := s]) == if IsFinished(s) then FinishedIds(seqs) + {id} else FinishedIds(seqs) - {id}
  {}

  lemma CardWithout(s: set<SeqId>, x: SeqId)
    ensures |s| == |s - {x}| + if x in s then 1 else 0
  {
    if x in s {
      assert s == (s - {x}) + {x};
    } else {
      assert s - {x} == s;
    }
  }

  lemma OwnersElsewhere(seqs: map<SeqId, Sequence>, id: SeqId, s: Sequence, b: BlockId)
    ensures Owners(seqs[id := s], b) - {id} == Owners(seqs, b) - {id}
    ensures id in Owners(seqs[id := s], b) <==> b in s.blocks
    ensures id in Owners(seqs, b) <==> b in BlocksOf(seqs, id)
  {}

  lemma OwnersAfter(seqs: map<SeqId, Sequence>, id: SeqId, s: Sequence, b: BlockId)
    ensures |Owners(seqs[id := s], b)| == |Owners(seqs, b)| - Once(BlocksOf(seqs, id), b) + Once(s.blocks, b)
  {
    OwnersElsewhere(seqs, id, s, b);
    hide Owners, BlocksOf;
    CardWithout(Owners(seqs, b), id);
    CardWithout(Owners(seqs[id := s], b), id);
  }

  /** Counts follow when one sequence's list changes and the pool's counts change with it. */
  lemma RefsAfter(p: Pool, seqs: map<SeqId, Sequence>, id: SeqId, s: Sequence, q: Pool)
    requires RefsOk(p, seqs) && |q.refs| == |p.refs|
    requires forall b: nat :: b < |p.refs| ==> q.refs[b] == p.refs[b] - Once(BlocksOf(seqs, id), b) + Once(s.blocks, b)
    ensures RefsOk(q, seqs[id := s])
  {
    forall b: nat | b < |q.refs| ensures q.refs[b] == |Owners(seqs[id := s], b)| {
      OwnersAfter(seqs, id, s, b);
    }
  }

  /** Replacing one sequence keeps the block invariants when it stays apart from the rest. */
  lemma Replace(cfg: Config, p: Pool, seqs: map<SeqId, Sequence>, id: SeqId, s: Sequence, q: Pool)
    requires cfg.blockSize > 0 && BlocksOk(cfg, p, seqs) && |q.refs| == |p.refs| && |q.hashOf| == |p.hashOf|
    requires forall b: nat :: b < |p.refs| ==> q.refs[b] == p.refs[b] - Once(BlocksOf(seqs, id), b) + Once(s.blocks, b)
    requires LocalOk(cfg, q.hashOf, s)
    requires forall o, b :: o in seqs && o != id && b in seqs[o].blocks && b < |p.hashOf| ==> q.hashOf[b] == p.hashOf[b]
    requires forall o :: o in seqs && o != id ==> Apart(cfg, s, seqs[o]) && Apart(cfg, seqs[o], s)
    ensures BlocksOk(cfg, q, seqs[id := s])
  {
    RefsAfter(p, seqs, id, s, q);
    var after := seqs[id := s];
    forall o | o in after ensures LocalOk(cfg, q.hashOf, after[o]) {
      if o != id {
        assert LocalOk(cfg, p.hashOf, seqs[o]);
        assert forall j :: 0 <= j < |seqs[o].blocks| ==> seqs[o].blocks[j] in seqs[o].blocks;
      }
    }
  }

  /** A block nobody counts is listed by nobody. */
  lemma Unlisted(p: Pool, seqs: map<SeqId, Sequence>, b: BlockId, id: SeqId)
    requires RefsOk(p, seqs) && b < |p.refs| && p.refs[b] == 0 && id in seqs
    ensures b !in seqs[id].blocks
  {
    assert Owners(seqs, b) == {};
    assert id !in Owners(seqs, b);
  }

  lemma ListedHeld(p: Pool, seqs: map<SeqId, Sequence>, id: SeqId)
    requires RefsOk(p, seqs) && |p.hashOf| == |p.refs| && id in seqs
    requires forall j :: 0 <= j < |seqs[id].blocks| ==> seqs[id].blocks[j] < |p.hashOf|
    ensures AllHeld(p, seqs[id].blocks)
  {
    forall b | b in seqs[id].blocks ensures Held(p, b) {
      assert id in Owners(seqs, b);
    }
  }
}
