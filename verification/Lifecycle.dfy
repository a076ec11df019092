/** The events of a request's life, effect by effect. */
module Lifecycle {
  import opened Prelude
  import opened Hashing
  import opened PoolModel
  import opened Sequences
  import opened SchedulerModel
  import opened Invariants
  import opened CoreSteps

  /** Nothing of the scheduler but sequence `id` and the pool's references changed among what is running or done. */
  ghost predicate OthersKept(st: Sched, t: Sched, id: SeqId) {
    (forall o :: o in st.seqs && o != id ==> o in t.seqs && t.seqs[o] == st.seqs[o])
    && (forall o :: o in t.seqs && o != id ==> o in st.seqs)
  }

  /** Admission refuses the empty prompt and the one that leaves no room to generate, changing nothing; any other is
      queued last, as it was given, with nothing computed and nothing held, under a number nobody had. */
  lemma AdmitEffects(cfg: Config, st: Sched, r: RequestId, prompt: seq<u32>, params: Params, tenant: Text)
    requires Core(cfg, st)
    ensures var (t, err) := Admit(cfg, st, r, prompt, params, tenant);
      (err.None? <==> 0 < |prompt| < cfg.maxContext) && (err == Some(EmptyPrompt) <==> |prompt| == 0)
      && (err.Some? ==> t == st)
      && (err.None? ==>
            var id := st.nextId;
            id !in st.seqs && id in t.seqs && OthersKept(st, t, id) && t.waiting == st.waiting + [id] && t.nextId > id
            && t.pool == st.pool && t.running == st.running && t.finished == st.finished
            && r in t.byRequest && id in t.byRequest[r]
            && var s := t.seqs[id];
               s.request == r && s.tokens == prompt && s.params == params && s.tenant == tenant && s.status.Waiting?
               && Generated(s) == 0 && s.computed == 0 && s.blocks == [] && RemainingPrefill(s) == |prompt|)
  {
    CoreParts(cfg, st);
    hide PoolOk, BlocksOk, RequestsOk, BasicOk, CollisionFree, QueueIs;
    assert st.nextId !in st.seqs;
  }

  /** One reference less to every block the sequence held, none else. */
  ghost predicate LetGoOf(p: Pool, q: Pool, blocks: seq<BlockId>) {
    |q.refs| == |p.refs| && q.hashOf == p.hashOf && forall b: nat :: b < |p.refs| ==> q.refs[b] == p.refs[b] - Once(blocks, b)
  }

  lemma Released(cfg: Config, st: Sched, id: SeqId)
    requires Core(cfg, st) && id in st.seqs
    ensures LetGoOf(st.pool, ReleaseAll(st.pool, st.seqs[id].blocks), st.seqs[id].blocks)
  {
    CoreParts(cfg, st);
    var blocks := st.seqs[id].blocks;
    assert LocalOk(cfg, st.pool.hashOf, st.seqs[id]);
    assert |st.pool.hashOf| == |st.pool.refs|;
    hide PoolOk, Core;
    ListedHeld(st.pool, st.seqs, id);
    ReleaseAllOk(st.pool, blocks);
  }

  /** Finishing takes a sequence out of its queue with its text and gives back what it held; it is reported once, and
      one that is unknown or has finished already is left alone. */
  lemma FinishEffects(cfg: Config, st: Sched, id: SeqId, reason: Reason)
    requires Core(cfg, st)
    ensures var t := Finish(st, id, reason);
      (id !in st.seqs || IsFinished(st.seqs[id]) ==> t == st)
      && (id in st.seqs && !IsFinished(st.seqs[id]) ==>
            id in t.seqs && OthersKept(st, t, id) && t.seqs[id] == st.seqs[id].(status := Finished(reason), blocks := [])
            && t.running == Without(st.running, id) && t.waiting == Without(st.waiting, id) && t.finished == st.finished + [id]
            && t.byRequest == st.byRequest && LetGoOf(st.pool, t.pool, st.seqs[id].blocks))
  {
    hide *;
    if id !in st.seqs || IsFinished(st.seqs[id]) {
      FinishNothing(st, id, reason);
    } else {
      Released(cfg, st, id);
      FinishIsThis(st, id, reason);
      KeptIs(st, Finish(st, id, reason), id);
    }
  }

  lemma FinishIsThis(st: Sched, id: SeqId, reason: Reason)
    requires id in st.seqs && !IsFinished(st.seqs[id])
    ensures Finish(st, id, reason) == Sched(
      ReleaseAll(st.pool, st.seqs[id].blocks), st.seqs[id := st.seqs[id].(status := Finished(reason), blocks := [])], st.byRequest,
      Without(st.waiting, id), Without(st.running, id), st.finished + [id], st.nextId)
  {
    hide Without, ReleaseAll;
  }

  lemma KeptIs(st: Sched, t: Sched, id: SeqId)
    requires id in t.seqs && t.seqs == st.seqs[id := t.seqs[id]]
    ensures OthersKept(st, t, id)
  {}

  /** Preemption keeps the text, forgets what was computed, gives back what was held, and queues the sequence first. */
  lemma PreemptEffects(cfg: Config, st: Sched, id: SeqId)
    requires Core(cfg, st) && id in st.seqs
    ensures var t := Preempt(st, id);
      id in t.seqs && OthersKept(st, t, id) && t.waiting == [id] + st.waiting && t.running == Without(st.running, id)
      && t.finished == st.finished && t.byRequest == st.byRequest && LetGoOf(st.pool, t.pool, st.seqs[id].blocks)
      && var s, n := st.seqs[id], t.seqs[id];
         n.status.Preempted? && n.tokens == s.tokens && n.promptLen == s.promptLen && n.params == s.params && n.request == s.request && n.tenant == s.tenant
         && n.computed == 0 && n.cachedBlocks == 0 && n.blocks == [] && RemainingPrefill(n) == |s.tokens|
  {
    Released(cfg, st, id);
    hide Core, ReleaseAll, LetGoOf;
  }

  lemma {:induction false} FinishAllReason(st: Sched, ids: seq<SeqId>, reason: Reason)
    ensures forall id :: id in st.seqs ==> id in FinishAll(st, ids, reason).seqs
    ensures forall id :: id in st.seqs && id in ids && !IsFinished(st.seqs[id]) ==> FinishAll(st, ids, reason).seqs[id].status == Finished(reason)
    ensures forall id :: id in st.seqs && IsFinished(st.seqs[id]) ==> FinishAll(st, ids, reason).seqs[id] == st.seqs[id]
    decreases |ids|
  {
    if ids != [] {
      var m := Finish(st, ids[0], reason);
      FinishOne(st, ids[0], reason);
      FinishAllReason(m, ids[1..], reason);
      assert FinishAll(st, ids, reason) == FinishAll(m, ids[1..], reason);
      hide Finish, FinishAll;
      assert forall id :: id in ids <==> id == ids[0] || id in ids[1..];
    }
  }

  lemma FinishOne(st: Sched, id: SeqId, reason: Reason)
    ensures Finish(st, id, reason).seqs.Keys == st.seqs.Keys
    ensures forall o :: o in st.seqs && (o != id || IsFinished(st.seqs[o])) ==> Finish(st, id, reason).seqs[o] == st.seqs[o]
    ensures id in st.seqs && !IsFinished(st.seqs[id]) ==> Finish(st, id, reason).seqs[id].status == Finished(reason)
  {}

  /** A cancel finishes every choice of the request as cancelled, but for those that had finished. */
  lemma CancelEffects(cfg: Config, st: Sched, r: RequestId, id: SeqId)
    requires Core(cfg, st) && id in st.seqs
    ensures var t := Cancel(st, r);
      id in t.seqs
      && (st.seqs[id].request == r && !IsFinished(st.seqs[id]) ==> t.seqs[id].status == Finished(Cancelled))
      && (st.seqs[id].request != r || IsFinished(st.seqs[id]) ==> t.seqs[id] == st.seqs[id])
  {
    FinishAllReason(st, Listed(st.byRequest, r), Cancelled);
    CoreParts(cfg, st);
    FinishAllOthers(st, Listed(st.byRequest, r), Cancelled);
    hide Core, PoolOk, BlocksOk, QueuesOk, FinishAll, BasicOk;
  }
}
