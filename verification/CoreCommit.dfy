/** Committing a step: progress, sampled tokens, publication of full blocks. */
module CoreCommit {
  import opened Prelude
  import opened Hashing
  import opened PoolModel
  import opened Sequences
  import opened SchedulerModel
  import opened Invariants
  import opened CoreSteps

  // ------------------------------------------- progress and sampled tokens

  /** A sequence after more was computed or sampled, its blocks untouched. */
  ghost predicate InPlace(s: Sequence, t: Sequence) {
    t.blocks == s.blocks && t.tenant == s.tenant && t.cachedBlocks == s.cachedBlocks && s.tokens <= t.tokens && s.computed <= t.computed
    && t.request == s.request && IsActive(t) == IsActive(s) && IsWaiting(t) == IsWaiting(s)
  }

  lemma AddressStable(cfg: Config, s: Sequence, t: Sequence, j: nat)
    requires cfg.blockSize > 0 && BasicOk(cfg, s) && s.tokens <= t.tokens && t.tenant == s.tenant && j < s.computed / cfg.blockSize
    ensures Address(cfg, t, j) == Address(cfg, s, j) && BlockEnd(j, cfg.blockSize) <= |s.tokens|
  {
    DivMono(s.computed, |s.tokens|, cfg.blockSize);
    BlockEnds(|s.tokens|, cfg.blockSize);
    assert Upto(t.tokens, BlockEnd(j, cfg.blockSize)) == Upto(s.tokens, BlockEnd(j, cfg.blockSize));
  }

  lemma InPlaceLocal(cfg: Config, hashOf: seq<Option<BlockHash>>, s: Sequence, t: Sequence)
    requires cfg.blockSize > 0 && BasicOk(cfg, s) && LocalOk(cfg, hashOf, s) && InPlace(s, t)
    ensures LocalOk(cfg, hashOf, t) && Settled(cfg, s) <= Settled(cfg, t)
  {
    DivMono(s.computed, t.computed, cfg.blockSize);
    forall j | 0 <= j < |t.blocks| && j < t.cachedBlocks ensures hashOf[t.blocks[j]] == Some(Address(cfg, t, j)) {
      AddressStable(cfg, s, t, j);
    }
  }

  lemma InPlaceBlocks(cfg: Config, p: Pool, seqs: map<SeqId, Sequence>, id: SeqId, t: Sequence)
    requires cfg.blockSize > 0 && BlocksOk(cfg, p, seqs) && id in seqs && BasicOk(cfg, seqs[id]) && InPlace(seqs[id], t)
    ensures BlocksOk(cfg, p, seqs[id := t])
  {
    var s := seqs[id];
    InPlaceLocal(cfg, p.hashOf, s, t);
    hide LocalOk, BasicOk;
    forall o | o in seqs && o != id ensures Apart(cfg, t, seqs[o]) && Apart(cfg, seqs[o], t) {
      assert Apart(cfg, s, seqs[o]) && Apart(cfg, seqs[o], s);
    }
    Replace(cfg, p, seqs, id, t, p);
  }

  lemma InPlaceCore(cfg: Config, st: Sched, id: SeqId, t: Sequence, u: Sched)
    requires Core(cfg, st) && id in st.seqs && InPlace(st.seqs[id], t) && BasicOk(cfg, t) && u == st.(seqs := st.seqs[id := t])
    ensures Core(cfg, u)
  {
    InPlaceParts(st.seqs[id], t);
    hide *;
    CoreParts(cfg, st);
    InPlaceBlocks(cfg, st.pool, st.seqs, id, t);
    BasicKept(cfg, st.seqs, id, t, u.seqs);
    QueuesKept(st, u, id);
    CoreMade(cfg, u);
  }

  lemma InPlaceParts(s: Sequence, t: Sequence)
    requires InPlace(s, t)
    ensures t.request == s.request && IsActive(t) == IsActive(s) && IsWaiting(t) == IsWaiting(s)
  {}

  /** What the batch promises about a sequence that contributed `q` tokens. */
  ghost predicate CanAdvance(cfg: Config, s: Sequence, q: nat)
    requires cfg.blockSize > 0
  {
    !IsWaiting(s) && s.computed + q <= |s.tokens| && (IsActive(s) ==> BlocksFor(cfg.blockSize, s.computed + q) <= |s.blocks|)
  }

  lemma AdvancedOk(cfg: Config, s: Sequence, q: nat)
    requires cfg.blockSize > 0 && BasicOk(cfg, s) && CanAdvance(cfg, s, q)
    ensures InPlace(s, Advanced(s, q)) && BasicOk(cfg, Advanced(s, q))
  {
    DivMono(s.computed, s.computed + q, cfg.blockSize);
  }

  ghost predicate AllCanAdvance(cfg: Config, st: Sched, plan: Plan, i: nat)
    requires cfg.blockSize > 0
  {
    forall k :: i <= k < |plan.batchSeqs| && plan.batchSeqs[k] in st.seqs ==> CanAdvance(cfg, st.seqs[plan.batchSeqs[k]], RowLen(plan.batch, k))
  }

  function AdvanceOne(st: Sched, plan: Plan, i: nat): Sched
    requires i < |plan.batchSeqs|
  {
    var id := plan.batchSeqs[i];
    if id in st.seqs then st.(seqs := st.seqs[id := Advanced(st.seqs[id], RowLen(plan.batch, i))]) else st
  }

  lemma AdvanceOneCore(cfg: Config, st: Sched, plan: Plan, i: nat)
    requires Core(cfg, st) && i < |plan.batchSeqs| && NoDup(plan.batchSeqs) && AllCanAdvance(cfg, st, plan, i)
    ensures Core(cfg, AdvanceOne(st, plan, i)) && AllCanAdvance(cfg, AdvanceOne(st, plan, i), plan, i + 1)
  {
    var id := plan.batchSeqs[i];
    if id in st.seqs {
      var s, q := st.seqs[id], RowLen(plan.batch, i);
      CoreParts(cfg, st);
      hide Core, PoolOk, BlocksOk, QueuesOk, RequestsOk, BasicOk, CollisionFree, Advanced;
      AdvancedOk(cfg, s, q);
      InPlaceCore(cfg, st, id, Advanced(s, q), AdvanceOne(st, plan, i));
    }
  }

  lemma {:induction false} AdvanceLoopCore(cfg: Config, st: Sched, plan: Plan, i: nat)
    requires Core(cfg, st) && i <= |plan.batchSeqs| && NoDup(plan.batchSeqs) && AllCanAdvance(cfg, st, plan, i)
    ensures Core(cfg, AdvanceLoop(st, plan, i))
    decreases |plan.batchSeqs| - i
  {
    hide Core, AllCanAdvance;
    if i < |plan.batchSeqs| {
      AdvanceOneCore(cfg, st, plan, i);
      AdvanceLoopCore(cfg, AdvanceOne(st, plan, i), plan, i + 1);
      assert AdvanceLoop(st, plan, i) == AdvanceLoop(AdvanceOne(st, plan, i), plan, i + 1);
    }
  }

  /** The loop in closed form: exactly the batch members move, each by its own row. */
  lemma {:induction false} AdvanceLoopIs(st: Sched, plan: Plan, i: nat)
    requires i <= |plan.batchSeqs| && NoDup(plan.batchSeqs)
    ensures var t := AdvanceLoop(st, plan, i);
      t == st.(seqs := t.seqs) && t.seqs.Keys == st.seqs.Keys
      && (forall k :: i <= k < |plan.batchSeqs| && plan.batchSeqs[k] in st.seqs ==>
            t.seqs[plan.batchSeqs[k]] == Advanced(st.seqs[plan.batchSeqs[k]], RowLen(plan.batch, k)))
      && (forall id :: id in st.seqs && id !in plan.batchSeqs[i..] ==> t.seqs[id] == st.seqs[id])
    decreases |plan.batchSeqs| - i
  {
    if i < |plan.batchSeqs| {
      var m := AdvanceOne(st, plan, i);
      assert AdvanceLoop(st, plan, i) == AdvanceLoop(m, plan, i + 1);
      AdvanceLoopIs(m, plan, i + 1);
      assert m.seqs.Keys == st.seqs.Keys;
      var id, rest := plan.batchSeqs[i], plan.batchSeqs[i + 1..];
      assert plan.batchSeqs[i..] == [id] + rest;
      assert forall o :: o in plan.batchSeqs[i..] <==> o == id || o in rest;
      assert id !in rest;
      hide Advanced, AdvanceLoop;
    }
  }

  lemma PushBasic(cfg: Config, s: Sequence, token: u32)
    requires cfg.blockSize > 0 && BasicOk(cfg, s)
    ensures BasicOk(cfg, PushToken(s, token)) && InPlace(s, PushToken(s, token))
  {}

  lemma AppendOneCore(cfg: Config, st: Sched, id: SeqId, token: u32)
    requires Core(cfg, st)
    ensures Core(cfg, AppendOne(cfg, st, id, token))
  {
    if id in st.seqs {
      var s := PushToken(st.seqs[id], token);
      var m := st.(seqs := st.seqs[id := s]);
      CoreParts(cfg, st);
      hide Core, PoolOk, BlocksOk, QueuesOk, RequestsOk, BasicOk, CollisionFree, Finish;
      PushBasic(cfg, st.seqs[id], token);
      InPlaceCore(cfg, st, id, s, m);
      forall reason ensures Core(cfg, Finish(m, id, reason)) {
        FinishCore(cfg, m, id, reason);
      }
    }
  }

  lemma {:induction false} AppendLoopCore(cfg: Config, st: Sched, ids: seq<SeqId>, sampled: seq<u32>)
    requires Core(cfg, st)
    ensures Core(cfg, AppendLoop(cfg, st, ids, sampled))
    decreases |ids|
  {
    hide Core, AppendOne;
    if ids != [] && sampled != [] {
      AppendOneCore(cfg, st, ids[0], sampled[0]);
      AppendLoopCore(cfg, AppendOne(cfg, st, ids[0], sampled[0]), ids[1..], sampled[1..]);
    }
  }

  lemma {:induction false} AppendLoopIds(cfg: Config, st: Sched, ids: seq<SeqId>, sampled: seq<u32>)
    ensures AppendLoop(cfg, st, ids, sampled).seqs.Keys == st.seqs.Keys
    decreases |ids|
  {
    if ids != [] && sampled != [] {
      assert AppendOne(cfg, st, ids[0], sampled[0]).seqs.Keys == st.seqs.Keys;
      AppendLoopIds(cfg, AppendOne(cfg, st, ids[0], sampled[0]), ids[1..], sampled[1..]);
    }
  }
}
