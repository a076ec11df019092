/** Every primitive step of the scheduler keeps the core invariant. */
module CoreSteps {
  import opened Prelude
  import opened Hashing
  import opened PoolModel
  import opened Sequences
  import opened SchedulerModel
  import opened Invariants

  lemma CoreParts(cfg: Config, st: Sched)
    requires Core(cfg, st)
    ensures cfg.blockSize > 0 && CollisionFree(cfg.hash, cfg.blockSize) && st.pool.blockSize == cfg.blockSize && PoolOk(st.pool)
    ensures BlocksOk(cfg, st.pool, st.seqs) && QueuesOk(st) && RequestsOk(st)
    ensures forall id :: id in st.seqs ==> BasicOk(cfg, st.seqs[id])
  {
    hide PoolOk, BlocksOk, QueuesOk, RequestsOk, BasicOk, CollisionFree;
  }

  // --------------------------------------------------------------- queues

  lemma RequestsKept(st: Sched, t: Sched, id: SeqId)
    requires RequestsOk(st) && id in st.seqs && id in t.seqs && t.byRequest == st.byRequest
    requires t.seqs == st.seqs[id := t.seqs[id]] && t.seqs[id].request == st.seqs[id].request
    ensures RequestsOk(t)
  {
    assert t.seqs.Keys == st.seqs.Keys;
  }

  lemma ClassesKept(seqs: map<SeqId, Sequence>, id: SeqId, s: Sequence)
    requires id in seqs && IsActive(s) == IsActive(seqs[id]) && IsWaiting(s) == IsWaiting(seqs[id])
    ensures WaitingIds(seqs[id := s]) == WaitingIds(seqs) && ActiveIds(seqs[id := s]) == ActiveIds(seqs)
    ensures FinishedIds(seqs[id := s]) == FinishedIds(seqs)
  {}

  /** A step that leaves every queue and every status class alone. */
  lemma QueuesKept(st: Sched, t: Sched, id: SeqId)
    requires QueuesOk(st) && RequestsOk(st) && id in st.seqs && id in t.seqs
    requires t.seqs == st.seqs[id := t.seqs[id]] && t.seqs[id].request == st.seqs[id].request
    requires IsActive(t.seqs[id]) == IsActive(st.seqs[id]) && IsWaiting(t.seqs[id]) == IsWaiting(st.seqs[id])
    requires t.waiting == st.waiting && t.running == st.running && t.finished == st.finished && t.nextId == st.nextId && t.byRequest == st.byRequest
    ensures QueuesOk(t) && RequestsOk(t)
  {
    RequestsKept(st, t, id);
    ClassesKept(st.seqs, id, t.seqs[id]);
    hide RequestsOk, QueueIs, WaitingIds, ActiveIds, FinishedIds;
  }

  lemma BasicKept(cfg: Config, seqs: map<SeqId, Sequence>, id: SeqId, s: Sequence, after: map<SeqId, Sequence>)
    requires cfg.blockSize > 0 && (forall o :: o in seqs ==> BasicOk(cfg, seqs[o])) && BasicOk(cfg, s)
    requires after == seqs[id := s]
    ensures forall o :: o in after ==> BasicOk(cfg, after[o])
  {
    hide BasicOk;
  }

  // ------------------------------------------------------ growing a sequence

  function WithBlocks(st: Sched, id: SeqId, p: Pool, blocks: seq<BlockId>): Sched
    requires id in st.seqs
  {
    st.(pool := p, seqs := st.seqs[id := st.seqs[id].(blocks := blocks)])
  }

  lemma WithBlocksSame(st: Sched, id: SeqId)
    requires id in st.seqs
    ensures st == WithBlocks(st, id, st.pool, st.seqs[id].blocks)
  {
    assert st.seqs == st.seqs[id := st.seqs[id]];
  }

  lemma WithBlocksIs(st: Sched, id: SeqId, p: Pool, blocks: seq<BlockId>)
    requires id in st.seqs
    ensures var t := WithBlocks(st, id, p, blocks);
      t == st.(pool := p, seqs := st.seqs[id := st.seqs[id].(blocks := blocks)])
      && id in t.seqs && t.seqs[id].blocks == blocks
      && IsActive(t.seqs[id]) == IsActive(st.seqs[id]) && IsWaiting(t.seqs[id]) == IsWaiting(st.seqs[id])
  {}

  lemma WithBlocksTwice(st: Sched, id: SeqId, p: Pool, a: seq<BlockId>, q: Pool, b: seq<BlockId>)
    requires id in st.seqs
    ensures id in WithBlocks(st, id, p, a).seqs
    ensures WithBlocks(WithBlocks(st, id, p, a), id, q, b) == WithBlocks(st, id, q, b)
  {
    assert st.seqs[id := st.seqs[id].(blocks := a)][id := st.seqs[id].(blocks := b)] == st.seqs[id := st.seqs[id].(blocks := b)];
  }

  lemma AppendLocal(cfg: Config, hashOf: seq<Option<BlockHash>>, s: Sequence, b: BlockId)
    requires cfg.blockSize > 0 && LocalOk(cfg, hashOf, s) && Settled(cfg, s) <= |s.blocks| && s.cachedBlocks <= |s.blocks|
    requires b !in s.blocks && b < |hashOf|
    ensures LocalOk(cfg, hashOf[b := None], s.(blocks := s.blocks + [b]))
  {
    var s' := s.(blocks := s.blocks + [b]);
    NoDupAppend(s.blocks, b);
    assert forall j :: 0 <= j < |s.blocks| ==> s'.blocks[j] == s.blocks[j] && s.blocks[j] in s.blocks;
  }

  lemma AppendApart(cfg: Config, s: Sequence, t: Sequence, b: BlockId)
    requires cfg.blockSize > 0 && Apart(cfg, s, t) && Apart(cfg, t, s) && b !in s.blocks && b !in t.blocks
    ensures Apart(cfg, s.(blocks := s.blocks + [b]), t) && Apart(cfg, t, s.(blocks := s.blocks + [b]))
  {
    var s' := s.(blocks := s.blocks + [b]);
    assert forall j :: 0 <= j < |t.blocks| ==> t.blocks[j] in t.blocks;
    assert forall x :: x in s'.blocks ==> x in s.blocks || x == b;
  }

  lemma GiveBlockBlocks(cfg: Config, p: Pool, seqs: map<SeqId, Sequence>, id: SeqId)
    requires cfg.blockSize > 0 && PoolOk(p) && BlocksOk(cfg, p, seqs) && id in seqs && p.free != []
    requires Settled(cfg, seqs[id]) <= |seqs[id].blocks| && seqs[id].cachedBlocks <= |seqs[id].blocks|
    ensures Allocate(p).1.Some?
    ensures BlocksOk(cfg, Allocate(p).0, seqs[id := seqs[id].(blocks := seqs[id].blocks + [Allocate(p).1.value])])
  {
    AllocateOk(p);
    var (q, got) := Allocate(p);
    var b, s := got.value, seqs[id];
    var s' := s.(blocks := s.blocks + [b]);
    hide LocalOk, Apart, PoolOk;
    forall o | o in seqs ensures b !in seqs[o].blocks {
      Unlisted(p, seqs, b, o);
    }
    AppendLocal(cfg, p.hashOf, s, b);
    forall o | o in seqs && o != id ensures Apart(cfg, s', seqs[o]) && Apart(cfg, seqs[o], s') {
      AppendApart(cfg, s, seqs[o], b);
    }
    Replace(cfg, p, seqs, id, s', q);
  }

  /** Core, put together from its parts. */
  lemma CoreMade(cfg: Config, st: Sched)
    requires cfg.blockSize > 0 && CollisionFree(cfg.hash, cfg.blockSize) && st.pool.blockSize == cfg.blockSize && PoolOk(st.pool)
    requires BlocksOk(cfg, st.pool, st.seqs) && QueuesOk(st) && RequestsOk(st)
    requires forall id :: id in st.seqs ==> BasicOk(cfg, st.seqs[id])
    ensures Core(cfg, st)
  {
    hide PoolOk, BlocksOk, QueuesOk, RequestsOk, BasicOk, CollisionFree;
  }

  lemma BasicGrow(cfg: Config, s: Sequence, blocks: seq<BlockId>)
    requires cfg.blockSize > 0 && BasicOk(cfg, s) && IsActive(s) && s.blocks <= blocks
    ensures BasicOk(cfg, s.(blocks := blocks)) && Settled(cfg, s) <= |s.blocks| && s.cachedBlocks <= |s.blocks|
  {
    FullWithin(cfg.blockSize, s.computed);
  }

  lemma GiveBlock(cfg: Config, st: Sched, id: SeqId)
    requires Core(cfg, st) && id in st.seqs && IsActive(st.seqs[id]) && st.pool.free != []
    ensures Allocate(st.pool).1.Some?
    ensures Core(cfg, WithBlocks(st, id, Allocate(st.pool).0, st.seqs[id].blocks + [Allocate(st.pool).1.value]))
  {
    hide *;
    CoreParts(cfg, st);
    AllocateOk(st.pool);
    var (q, got) := Allocate(st.pool);
    var s := st.seqs[id];
    var blocks := s.blocks + [got.value];
    BasicGrow(cfg, s, blocks);
    GiveBlockBlocks(cfg, st.pool, st.seqs, id);
    var t := WithBlocks(st, id, q, blocks);
    WithBlocksIs(st, id, q, blocks);
    BasicKept(cfg, st.seqs, id, s.(blocks := blocks), t.seqs);
    QueuesKept(st, t, id);
    CoreMade(cfg, t);
  }

  /** `t` is `st` with more blocks for `id`: `k` more when it went well, else all there were. */
  ghost predicate Grown(st: Sched, id: SeqId, k: nat, t: Sched, ok: bool) {
    id in st.seqs && id in t.seqs && t == WithBlocks(st, id, t.pool, t.seqs[id].blocks)
    && st.seqs[id].blocks <= t.seqs[id].blocks
    && (ok ==> |t.seqs[id].blocks| == |st.seqs[id].blocks| + k)
    && (!ok ==> t.pool.free == [])
  }

  lemma GrownNone(st: Sched, id: SeqId, k: nat)
    requires id in st.seqs && (k == 0 || Allocate(st.pool).1.None?) && (k != 0 ==> st.pool.free == [])
    ensures ExtendBy(st, id, k) == (st, k == 0) && Grown(st, id, k, st, k == 0)
  {
    WithBlocksSame(st, id);
  }

  lemma GrownStep(st: Sched, id: SeqId, k: nat, q: Pool, b: BlockId)
    requires id in st.seqs && k > 0 && Allocate(st.pool) == (q, Some(b))
    ensures var next := WithBlocks(st, id, q, st.seqs[id].blocks + [b]);
      ExtendBy(st, id, k) == ExtendBy(next, id, k - 1)
      && id in next.seqs && IsActive(next.seqs[id]) == IsActive(st.seqs[id])
      && forall t, ok :: Grown(next, id, k - 1, t, ok) ==> Grown(st, id, k, t, ok)
  {
    var next := WithBlocks(st, id, q, st.seqs[id].blocks + [b]);
    forall t, ok | Grown(next, id, k - 1, t, ok) ensures Grown(st, id, k, t, ok) {
      WithBlocksTwice(st, id, q, st.seqs[id].blocks + [b], t.pool, t.seqs[id].blocks);
    }
  }

  lemma {:induction false} ExtendByCore(cfg: Config, st: Sched, id: SeqId, k: nat)
    requires Core(cfg, st) && id in st.seqs && IsActive(st.seqs[id])
    ensures Core(cfg, ExtendBy(st, id, k).0)
    ensures Grown(st, id, k, ExtendBy(st, id, k).0, ExtendBy(st, id, k).1)
    decreases k
  {
    hide *;
    CoreParts(cfg, st);
    AllocateOk(st.pool);
    if k == 0 || st.pool.free == [] {
      GrownNone(st, id, k);
    } else {
      GiveBlock(cfg, st, id);
      var (q, got) := Allocate(st.pool);
      GrownStep(st, id, k, q, got.value);
      ExtendByCore(cfg, WithBlocks(st, id, q, st.seqs[id].blocks + [got.value]), id, k - 1);
    }
  }

  // ------------------------------------------------------ letting a sequence go

  /** Releasing every block of a sequence and giving it an empty list. */
  lemma LetGo(cfg: Config, p: Pool, seqs: map<SeqId, Sequence>, id: SeqId, s: Sequence)
    requires cfg.blockSize > 0 && PoolOk(p) && BlocksOk(cfg, p, seqs) && id in seqs && s.blocks == []
    ensures PoolOk(ReleaseAll(p, seqs[id].blocks)) && ReleaseAll(p, seqs[id].blocks).blockSize == p.blockSize
    ensures BlocksOk(cfg, ReleaseAll(p, seqs[id].blocks), seqs[id := s])
  {
    var blocks := seqs[id].blocks;
    assert LocalOk(cfg, p.hashOf, seqs[id]);
    assert |p.hashOf| == |p.refs|;
    hide PoolOk;
    ListedHeld(p, seqs, id);
    ReleaseAllOk(p, blocks);
    Replace(cfg, p, seqs, id, s, ReleaseAll(p, blocks));
  }

  lemma PreemptQueues(st: Sched, id: SeqId)
    requires QueuesOk(st) && RequestsOk(st) && id in st.seqs && IsActive(st.seqs[id])
    ensures QueuesOk(Preempt(st, id)) && RequestsOk(Preempt(st, id))
  {
    var t := Preempt(st, id);
    RequestsKept(st, t, id);
    hide RequestsOk, QueueIs;
    QueueDrop(st.running, ActiveIds(st.seqs), id);
    QueuePushFront(st.waiting, WaitingIds(st.seqs), id);
    ClassesAfter(st.seqs, id, t.seqs[id]);
    assert FinishedIds(t.seqs) == FinishedIds(st.seqs);
  }

  lemma BasicReset(cfg: Config, s: Sequence)
    requires cfg.blockSize > 0 && BasicOk(cfg, s)
    ensures BasicOk(cfg, ResetForRecompute(s)) && ResetForRecompute(s).blocks == []
  {
    assert 0 / cfg.blockSize == 0;
  }

  lemma PreemptIs(st: Sched, id: SeqId)
    requires id in st.seqs
    ensures var t := Preempt(st, id);
      t.pool == ReleaseAll(st.pool, st.seqs[id].blocks) && t.seqs == st.seqs[id := ResetForRecompute(st.seqs[id])]
  {}

  lemma PreemptCore(cfg: Config, st: Sched, id: SeqId)
    requires Core(cfg, st) && id in st.seqs && IsActive(st.seqs[id])
    ensures Core(cfg, Preempt(st, id))
  {
    hide *;
    CoreParts(cfg, st);
    var s := ResetForRecompute(st.seqs[id]);
    BasicReset(cfg, st.seqs[id]);
    PreemptIs(st, id);
    LetGo(cfg, st.pool, st.seqs, id, s);
    BasicKept(cfg, st.seqs, id, s, Preempt(st, id).seqs);
    PreemptQueues(st, id);
    CoreMade(cfg, Preempt(st, id));
  }

  lemma FinishQueues(st: Sched, id: SeqId, reason: Reason)
    requires QueuesOk(st) && RequestsOk(st) && id in st.seqs && !IsFinished(st.seqs[id])
    ensures QueuesOk(Finish(st, id, reason)) && RequestsOk(Finish(st, id, reason))
  {
    var t := Finish(st, id, reason);
    RequestsKept(st, t, id);
    hide RequestsOk, QueueIs;
    QueueDrop(st.running, ActiveIds(st.seqs), id);
    QueueDrop(st.waiting, WaitingIds(st.seqs), id);
    QueuePush(st.finished, FinishedIds(st.seqs), id);
    ClassesAfter(st.seqs, id, t.seqs[id]);
  }

  lemma FinishIs(cfg: Config, st: Sched, id: SeqId, reason: Reason)
    requires id in st.seqs && !IsFinished(st.seqs[id]) && cfg.blockSize > 0 && BasicOk(cfg, st.seqs[id])
    ensures var s := st.seqs[id].(status := Finished(reason), blocks := []);
      var t := Finish(st, id, reason);
      t.pool == ReleaseAll(st.pool, st.seqs[id].blocks) && t.seqs == st.seqs[id := s] && BasicOk(cfg, s)
  {}

  lemma FinishNothing(st: Sched, id: SeqId, reason: Reason)
    requires id !in st.seqs || IsFinished(st.seqs[id])
    ensures Finish(st, id, reason) == st
  {}

  lemma FinishCore(cfg: Config, st: Sched, id: SeqId, reason: Reason)
    requires Core(cfg, st)
    ensures Core(cfg, Finish(st, id, reason))
  {
    hide *;
    if id !in st.seqs || IsFinished(st.seqs[id]) {
      FinishNothing(st, id, reason);
    } else {
      CoreParts(cfg, st);
      var s := st.seqs[id].(status := Finished(reason), blocks := []);
      FinishIs(cfg, st, id, reason);
      LetGo(cfg, st.pool, st.seqs, id, s);
      BasicKept(cfg, st.seqs, id, s, Finish(st, id, reason).seqs);
      FinishQueues(st, id, reason);
      CoreMade(cfg, Finish(st, id, reason));
    }
  }

  // --------------------------------------------------- cancel, drain, admit

  /** `t` differs from `st` only in having finished some sequences. */
  ghost predicate OnlyFinished(st: Sched, t: Sched) {
    t.seqs.Keys == st.seqs.Keys && t.byRequest == st.byRequest && t.nextId == st.nextId
    && forall id :: id in st.seqs ==> t.seqs[id] == st.seqs[id] || (IsFinished(t.seqs[id]) && !IsFinished(st.seqs[id]))
  }

  lemma FinishOnly(st: Sched, id: SeqId, reason: Reason)
    ensures OnlyFinished(st, Finish(st, id, reason))
    ensures id in st.seqs ==> id in Finish(st, id, reason).seqs && IsFinished(Finish(st, id, reason).seqs[id])
  {}

  lemma {:induction false} FinishAllCore(cfg: Config, st: Sched, ids: seq<SeqId>, reason: Reason)
    requires Core(cfg, st)
    ensures Core(cfg, FinishAll(st, ids, reason))
    decreases |ids|
  {
    if ids != [] {
      hide Core;
      FinishCore(cfg, st, ids[0], reason);
      FinishAllCore(cfg, Finish(st, ids[0], reason), ids[1..], reason);
    }
  }

  lemma {:induction false} FinishAllOnly(st: Sched, ids: seq<SeqId>, reason: Reason)
    ensures OnlyFinished(st, FinishAll(st, ids, reason))
    ensures forall id :: id in ids && id in st.seqs ==>
      id in FinishAll(st, ids, reason).seqs && IsFinished(FinishAll(st, ids, reason).seqs[id])
    decreases |ids|
  {
    if ids != [] {
      var m := Finish(st, ids[0], reason);
      FinishOnly(st, ids[0], reason);
      FinishAllOnly(m, ids[1..], reason);
      assert FinishAll(st, ids, reason) == FinishAll(m, ids[1..], reason);
      hide Finish, FinishAll;
      assert forall id :: id in ids <==> id == ids[0] || id in ids[1..];
    }
  }

  /** A cancel takes every choice of the request, and nothing else. */
  lemma CancelTakesAll(cfg: Config, st: Sched, r: RequestId)
    requires Core(cfg, st)
    ensures Core(cfg, Cancel(st, r)) && OnlyFinished(st, Cancel(st, r))
    ensures forall id :: id in st.seqs && st.seqs[id].request == r ==> id in Cancel(st, r).seqs && IsFinished(Cancel(st, r).seqs[id])
    ensures forall id :: id in st.seqs && st.seqs[id].request != r ==> id in Cancel(st, r).seqs && Cancel(st, r).seqs[id] == st.seqs[id]
  {
    FinishAllCore(cfg, st, Listed(st.byRequest, r), Cancelled);
    FinishAllOnly(st, Listed(st.byRequest, r), Cancelled);
    CoreParts(cfg, st);
    FinishAllOthers(st, Listed(st.byRequest, r), Cancelled);
    hide Core, PoolOk, BlocksOk, QueuesOk, FinishAll, BasicOk;
  }

  lemma {:induction false} FinishAllOthers(st: Sched, ids: seq<SeqId>, reason: Reason)
    ensures forall id :: id in st.seqs && id !in ids ==> id in FinishAll(st, ids, reason).seqs && FinishAll(st, ids, reason).seqs[id] == st.seqs[id]
    decreases |ids|
  {
    if ids != [] {
      var m := Finish(st, ids[0], reason);
      assert forall id :: id in st.seqs && id != ids[0] ==> id in m.seqs && m.seqs[id] == st.seqs[id];
      FinishAllOthers(m, ids[1..], reason);
      assert FinishAll(st, ids, reason) == FinishAll(m, ids[1..], reason);
      hide Finish, FinishAll;
      assert forall id :: id in ids <==> id == ids[0] || id in ids[1..];
    }
  }

  lemma AdmitQueues(st: Sched, id: SeqId, s: Sequence, t: Sched)
    requires QueuesOk(st) && id == st.nextId && IsWaiting(s)
    requires t.seqs == st.seqs[id := s] && t.waiting == st.waiting + [id] && t.running == st.running && t.finished == st.finished && t.nextId == id + 1
    ensures QueuesOk(t)
  {
    assert id !in st.seqs;
    ClassesAfter(st.seqs, id, s);
    QueuePush(st.waiting, WaitingIds(st.seqs), id);
    assert ActiveIds(t.seqs) == ActiveIds(st.seqs) && FinishedIds(t.seqs) == FinishedIds(st.seqs);
  }

  lemma AddRequest(st: Sched, id: SeqId, s: Sequence, t: Sched)
    requires RequestsOk(st) && id !in st.seqs
    requires t.seqs == st.seqs[id := s] && t.byRequest == st.byRequest[s.request := Listed(st.byRequest, s.request) + [id]]
    ensures RequestsOk(t)
  {}

  lemma AdmitBlocks(cfg: Config, p: Pool, seqs: map<SeqId, Sequence>, id: SeqId, s: Sequence)
    requires cfg.blockSize > 0 && BlocksOk(cfg, p, seqs) && id !in seqs && s.blocks == []
    ensures BlocksOk(cfg, p, seqs[id := s])
  {
    Replace(cfg, p, seqs, id, s, p);
  }

  lemma AdmitCore(cfg: Config, st: Sched, r: RequestId, prompt: seq<u32>, params: Params, tenant: Text)
    requires Core(cfg, st)
    ensures Core(cfg, Admit(cfg, st, r, prompt, params, tenant).0)
  {
    if Admit(cfg, st, r, prompt, params, tenant).1.None? {
      var t := Admit(cfg, st, r, prompt, params, tenant).0;
      var id, s := st.nextId, NewSequence(r, prompt, params, tenant);
      assert 0 / cfg.blockSize == 0;
      assert BasicOk(cfg, s) && id !in st.seqs;
      hide BlocksOk, QueuesOk, RequestsOk, BasicOk, PoolOk, CollisionFree;
      AdmitBlocks(cfg, st.pool, st.seqs, id, s);
      AdmitQueues(st, id, s, t);
      AddRequest(st, id, s, t);
      BasicKept(cfg, st.seqs, id, s, t.seqs);
    }
  }

  lemma DrainOneBlocks(cfg: Config, p: Pool, seqs: map<SeqId, Sequence>, id: SeqId)
    requires cfg.blockSize > 0 && BlocksOk(cfg, p, seqs) && id in seqs && seqs[id].blocks == []
    ensures BlocksOk(cfg, p, seqs - {id})
  {
    forall b: nat | b < |p.refs| ensures p.refs[b] == |Owners(seqs - {id}, b)| {
      assert Owners(seqs - {id}, b) == Owners(seqs, b);
    }
    hide LocalOk, Apart;
  }

  lemma DrainOneQueues(st: Sched, t: Sched, id: SeqId)
    requires QueuesOk(st) && st.finished != [] && id == st.finished[0]
    requires t.seqs == st.seqs - {id} && t.waiting == st.waiting && t.running == st.running && t.finished == st.finished[1..] && t.nextId == st.nextId
    ensures QueuesOk(t) && id in st.seqs && IsFinished(st.seqs[id])
  {
    assert id in st.finished;
    assert id in FinishedIds(st.seqs);
    assert WaitingIds(t.seqs) == WaitingIds(st.seqs) && ActiveIds(t.seqs) == ActiveIds(st.seqs);
    assert FinishedIds(t.seqs) == FinishedIds(st.seqs) - {id};
    assert st.finished == [id] + t.finished;
    NoDupSplit([id], t.finished);
    assert id in [id];
    assert forall o :: o in st.finished <==> o == id || o in t.finished;
  }

  lemma DrainOneRequests(st: Sched, t: Sched, id: SeqId)
    requires RequestsOk(st) && id in st.seqs
    requires t.seqs == st.seqs - {id} && t.byRequest == DropFromRequest(st.byRequest, st.seqs[id].request, id)
    ensures RequestsOk(t)
  {
    WithoutMembers(Listed(st.byRequest, st.seqs[id].request), id);
  }

  lemma {:induction false} DrainListCore(cfg: Config, st: Sched, ids: seq<SeqId>)
    requires Core(cfg, st.(finished := ids))
    ensures Core(cfg, DrainList(st, ids).(finished := []))
    decreases |ids|
  {
    if ids != [] {
      var v := st.(finished := ids);
      var id := ids[0];
      CoreParts(cfg, v);
      var t := st.(seqs := st.seqs - {id}, byRequest := DropFromRequest(st.byRequest, if id in st.seqs then st.seqs[id].request else 0, id));
      var w := t.(finished := ids[1..]);
      DrainOneQueues(v, w.(byRequest := v.byRequest), id);
      assert st.seqs[id].blocks == [];
      hide BlocksOk, QueuesOk, RequestsOk, BasicOk, PoolOk, CollisionFree, Core;
      DrainOneBlocks(cfg, v.pool, v.seqs, id);
      DrainOneRequests(v, w, id);
      DrainQueuesFrame(w.(byRequest := v.byRequest), w);
      CoreMade(cfg, w);
      DrainListCore(cfg, t, ids[1..]);
    }
  }

  lemma DrainQueuesFrame(st: Sched, t: Sched)
    requires QueuesOk(st) && t == st.(byRequest := t.byRequest)
    ensures QueuesOk(t)
  {}

  lemma DrainCore(cfg: Config, st: Sched)
    requires Core(cfg, st)
    ensures Core(cfg, Drain(st)) && Drain(st).finished == []
  {
    assert st.(finished := []).(finished := st.finished) == st;
    DrainListCore(cfg, st.(finished := []), st.finished);
    DrainListFinished(st.(finished := []), st.finished);
    assert Drain(st).(finished := []) == Drain(st);
  }

  lemma {:induction false} DrainListFinished(st: Sched, ids: seq<SeqId>)
    ensures DrainList(st, ids).finished == st.finished && DrainList(st, ids).pool == st.pool
    ensures DrainList(st, ids).waiting == st.waiting && DrainList(st, ids).running == st.running
    ensures forall id :: id in st.seqs && id !in ids ==> id in DrainList(st, ids).seqs && DrainList(st, ids).seqs[id] == st.seqs[id]
    ensures forall id :: id in DrainList(st, ids).seqs ==> id in st.seqs && id !in ids
    decreases |ids|
  {
    if ids != [] {
      assert forall id :: id in ids <==> id == ids[0] || id in ids[1..];
      if ids[0] in st.seqs {
        var t := st.(seqs := st.seqs - {ids[0]}, byRequest := DropFromRequest(st.byRequest, st.seqs[ids[0]].request, ids[0]));
        DrainListFinished(t, ids[1..]);
      } else {
        DrainListFinished(st, ids[1..]);
      }
    }
  }
}
