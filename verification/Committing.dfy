/** `commit`: back from a step in flight to the state between two rounds. */
module Committing {
  import opened Prelude
  import opened Hashing
  import opened PoolModel
  import opened Sequences
  import opened SchedulerModel
  import opened Invariants
  import opened CoreSteps
  import opened CoreCommit
  import opened CorePublish
  import opened Rounds
  import opened Scheduling

  // ------------------------------------------------------ a step in flight

  /** A batch member between `schedule` and `commit`: its row still describes it, or it has
      been finished meanwhile. */
  ghost predicate Flying(cfg: Config, s: Sequence, plan: Plan, i: nat)
    requires cfg.blockSize > 0 && i < |plan.batchSeqs|
  {
    s.computed + RowLen(plan.batch, i) <= |s.tokens|
    && (IsFinished(s)
        || (RowOk(cfg, s, plan.batch, i)
            && (plan.batchSeqs[i] in plan.sampledSeqs <==> s.computed + RowLen(plan.batch, i) == |s.tokens|)))
  }

  ghost predicate InFlight(cfg: Config, st: Sched, plan: Plan)
    requires cfg.blockSize > 0
  {
    Shape(plan.batch, |plan.batchSeqs|) && NoDup(plan.batchSeqs) && SampledAt(plan)
    && (forall i :: 0 <= i < |plan.batchSeqs| ==> plan.batchSeqs[i] < st.nextId)
    && forall i :: 0 <= i < |plan.batchSeqs| && plan.batchSeqs[i] in st.seqs ==> Flying(cfg, st.seqs[plan.batchSeqs[i]], plan, i)
  }

  lemma PlannedFlies(cfg: Config, st: Sched, plan: Plan)
    requires cfg.blockSize > 0 && PlanOk(cfg, st.seqs, plan) && forall id :: id in st.seqs ==> id < st.nextId
    ensures InFlight(cfg, st, plan)
  {
    hide Shape, SampledAt;
  }

  lemma FlyingAdvances(cfg: Config, st: Sched, plan: Plan)
    requires cfg.blockSize > 0 && InFlight(cfg, st, plan)
    ensures AllCanAdvance(cfg, st, plan, 0) && NoDup(plan.batchSeqs)
  {
    forall k | 0 <= k < |plan.batchSeqs| && plan.batchSeqs[k] in st.seqs
      ensures CanAdvance(cfg, st.seqs[plan.batchSeqs[k]], RowLen(plan.batch, k))
    {
      assert Flying(cfg, st.seqs[plan.batchSeqs[k]], plan, k);
    }
  }

  lemma CommitCore(cfg: Config, st: Sched, plan: Plan, sampled: seq<u32>)
    requires Core(cfg, st) && cfg.blockSize > 0 && InFlight(cfg, st, plan)
    ensures Core(cfg, Commit(cfg, st, plan, sampled))
  {
    hide Core, InFlight, AdvanceLoop, AppendLoop, PublishLoop;
    FlyingAdvances(cfg, st, plan);
    AdvanceLoopCore(cfg, st, plan, 0);
    AppendLoopCore(cfg, AdvanceLoop(st, plan, 0), plan.sampledSeqs, sampled);
    if cfg.prefixCache {
      PublishLoopCore(cfg, AppendLoop(cfg, AdvanceLoop(st, plan, 0), plan.sampledSeqs, sampled), plan.batchSeqs);
    }
  }

  // ------------------------------------------------- each loop, per sequence

  /** A sequence after its sampled token. */
  function Appended(cfg: Config, s: Sequence, token: u32): Sequence {
    var t := PushToken(s, token);
    match CheckFinished(t, cfg.eos, cfg.maxContext)
    case None => t
    case Some(reason) => if IsFinished(t) then t else t.(status := Finished(reason), blocks := [])
  }

  lemma AppendOneIs(cfg: Config, st: Sched, id: SeqId, token: u32)
    ensures var t := AppendOne(cfg, st, id, token);
      t.seqs == (if id in st.seqs then st.seqs[id := Appended(cfg, st.seqs[id], token)] else st.seqs)
      && t.nextId == st.nextId
  {}

  /** The whole loop: exactly the sampled sequences grow, each by its own token. */
  ghost predicate AppendedAll(cfg: Config, seqs: map<SeqId, Sequence>, ids: seq<SeqId>, sampled: seq<u32>, after: map<SeqId, Sequence>) {
    after.Keys == seqs.Keys
    && (forall k :: 0 <= k < |ids| && k < |sampled| && ids[k] in seqs ==> after[ids[k]] == Appended(cfg, seqs[ids[k]], sampled[k]))
    && (forall id :: id in seqs && id !in ids ==> after[id] == seqs[id])
  }

  lemma AppendedStep(cfg: Config, seqs: map<SeqId, Sequence>, ids: seq<SeqId>, sampled: seq<u32>, mid: map<SeqId, Sequence>, after: map<SeqId, Sequence>)
    requires ids != [] && sampled != [] && NoDup(ids)
    requires mid == (if ids[0] in seqs then seqs[ids[0] := Appended(cfg, seqs[ids[0]], sampled[0])] else seqs)
    requires AppendedAll(cfg, mid, ids[1..], sampled[1..], after)
    ensures AppendedAll(cfg, seqs, ids, sampled, after)
  {
    hide Appended;
    NoDupTail(ids);
    assert mid.Keys == seqs.Keys;
    assert forall k :: 0 < k < |ids| ==> ids[k] == ids[1..][k - 1] && ids[k] in ids[1..];
    assert forall k :: 0 < k < |sampled| ==> sampled[k] == sampled[1..][k - 1];
    assert forall id :: id in ids <==> id == ids[0] || id in ids[1..];
  }

  lemma {:induction false} AppendLoopIs(cfg: Config, st: Sched, ids: seq<SeqId>, sampled: seq<u32>)
    requires NoDup(ids) && |ids| == |sampled|
    ensures AppendedAll(cfg, st.seqs, ids, sampled, AppendLoop(cfg, st, ids, sampled).seqs)
    ensures AppendLoop(cfg, st, ids, sampled).nextId == st.nextId
    decreases |ids|
  {
    if ids != [] {
      hide AppendOne, AppendedAll, Appended;
      NoDupTail(ids);
      var m := AppendOne(cfg, st, ids[0], sampled[0]);
      AppendOneIs(cfg, st, ids[0], sampled[0]);
      AppendLoopIs(cfg, m, ids[1..], sampled[1..]);
      AppendedStep(cfg, st.seqs, ids, sampled, m.seqs, AppendLoop(cfg, m, ids[1..], sampled[1..]).seqs);
    }
  }

  /** A sequence after publication: as many blocks, all full ones settled. */
  ghost predicate PublishedAs(cfg: Config, s: Sequence, t: Sequence)
    requires cfg.blockSize > 0
  {
    t == s.(cachedBlocks := t.cachedBlocks, blocks := t.blocks) && |t.blocks| == |s.blocks|
    && t.cachedBlocks == if s.computed / cfg.blockSize > s.cachedBlocks then s.computed / cfg.blockSize else s.cachedBlocks
  }

  lemma {:induction false} ApplySwapsLength(p: Pool, blocks: seq<BlockId>, swaps: seq<Swap>)
    ensures |ApplySwaps(p, blocks, swaps).1| == |blocks|
    decreases |swaps|
  {
    if swaps != [] {
      if swaps[0].0 >= |blocks| {
        ApplySwapsLength(p, blocks, swaps[1..]);
      } else {
        ApplySwapsLength(Release(p, swaps[0].1), blocks[swaps[0].0 := swaps[0].2], swaps[1..]);
      }
    }
  }

  lemma PublishOneAs(cfg: Config, st: Sched, id: SeqId)
    requires cfg.blockSize > 0 && id in st.seqs
    ensures var t := PublishOne(cfg, st, id);
      id in t.seqs && t.seqs == st.seqs[id := t.seqs[id]] && PublishedAs(cfg, st.seqs[id], t.seqs[id])
      && t == st.(pool := t.pool, seqs := t.seqs)
  {
    var s := st.seqs[id];
    var full := s.computed / cfg.blockSize;
    if full > s.cachedBlocks {
      var (p, swaps) := PublishRange(cfg, st.pool, s, s.cachedBlocks, full, []);
      ApplySwapsLength(p, s.blocks, swaps);
    } else {
      assert st.seqs == st.seqs[id := st.seqs[id]];
    }
  }

  ghost predicate PublishedAll(cfg: Config, seqs: map<SeqId, Sequence>, ids: seq<SeqId>, after: map<SeqId, Sequence>)
    requires cfg.blockSize > 0
  {
    after.Keys == seqs.Keys
    && forall id :: id in seqs ==> if id in ids then PublishedAs(cfg, seqs[id], after[id]) else after[id] == seqs[id]
  }

  lemma {:induction false} PublishLoopAs(cfg: Config, st: Sched, ids: seq<SeqId>)
    requires cfg.blockSize > 0 && NoDup(ids)
    ensures PublishedAll(cfg, st.seqs, ids, PublishLoop(cfg, st, ids).seqs) && PublishLoop(cfg, st, ids).nextId == st.nextId
    decreases |ids|
  {
    if ids != [] {
      var m := PublishOne(cfg, st, ids[0]);
      if ids[0] in st.seqs {
        PublishOneAs(cfg, st, ids[0]);
      }
      hide PublishOne, PublishedAs;
      NoDupTail(ids);
      PublishLoopAs(cfg, m, ids[1..]);
      assert forall id :: id in ids <==> id == ids[0] || id in ids[1..];
    }
  }

  // ------------------------------------------------------ steady once more

  /** One sequence through a commit: its row of `q` tokens, its sampled token if any, and
      publication if the cache is on. */
  ghost predicate Committed(cfg: Config, s: Sequence, q: nat, token: Option<u32>, t: Sequence)
    requires cfg.blockSize > 0
  {
    var a := Advanced(s, q);
    var b := match token case None => a case Some(x) => Appended(cfg, a, x);
    if cfg.prefixCache then PublishedAs(cfg, b, t) else t == b
  }

  lemma CommittedSteady(cfg: Config, s: Sequence, q: nat, token: Option<u32>, t: Sequence)
    requires cfg.blockSize > 0 && Steady(cfg, s) && IsActive(s) && BasicOk(cfg, s) && q > 0 && s.computed + q <= |s.tokens|
    requires Committed(cfg, s, q, token, t)
    requires token.Some? <==> s.computed + q == |s.tokens|
    ensures Steady(cfg, t)
  {
    var a := Advanced(s, q);
    DivMono(s.computed, s.computed + q, cfg.blockSize);
    if token.None? {
      assert NeedsPrefill(s) && NeedsPrefill(a);
    } else {
      assert !NeedsPrefill(a) && a.status == Decoding;
      AppendedSteady(cfg, a, token.value, t);
    }
  }

  lemma AppendedSteady(cfg: Config, a: Sequence, token: u32, t: Sequence)
    requires cfg.blockSize > 0 && a.status == Decoding && a.computed == |a.tokens| && a.target <= a.computed && 1 <= a.promptLen <= |a.tokens|
    requires a.cachedBlocks <= a.computed / cfg.blockSize && BlocksFor(cfg.blockSize, a.target + 1) <= |a.blocks|
    requires if cfg.prefixCache then PublishedAs(cfg, Appended(cfg, a, token), t) else t == Appended(cfg, a, token)
    ensures Steady(cfg, t)
  {}

  lemma AppendedFinished(cfg: Config, s: Sequence, q: nat, token: Option<u32>, t: Sequence)
    requires cfg.blockSize > 0 && IsFinished(s) && Committed(cfg, s, q, token, t)
    ensures IsFinished(t)
  {}

  /** The commit in closed form. */
  ghost predicate CommittedAll(cfg: Config, seqs: map<SeqId, Sequence>, plan: Plan, sampled: seq<u32>, after: map<SeqId, Sequence>)
    requires cfg.blockSize > 0
  {
    after.Keys == seqs.Keys
    && (forall id :: id in seqs && id !in plan.batchSeqs ==> after[id] == seqs[id])
    && (forall i :: 0 <= i < |plan.batchSeqs| && plan.batchSeqs[i] in seqs && plan.batchSeqs[i] !in plan.sampledSeqs ==>
          Committed(cfg, seqs[plan.batchSeqs[i]], RowLen(plan.batch, i), None, after[plan.batchSeqs[i]]))
    && (forall i, k ::
          0 <= i < |plan.batchSeqs| && 0 <= k < |sampled| && k < |plan.sampledSeqs| && plan.batchSeqs[i] == plan.sampledSeqs[k] && plan.batchSeqs[i] in seqs ==>
          Committed(cfg, seqs[plan.batchSeqs[i]], RowLen(plan.batch, i), Some(sampled[k]), after[plan.batchSeqs[i]]))
  }

  ghost predicate AdvancedAll(seqs: map<SeqId, Sequence>, plan: Plan, after: map<SeqId, Sequence>) {
    after.Keys == seqs.Keys
    && (forall k :: 0 <= k < |plan.batchSeqs| && plan.batchSeqs[k] in seqs ==>
          after[plan.batchSeqs[k]] == Advanced(seqs[plan.batchSeqs[k]], RowLen(plan.batch, k)))
    && (forall id :: id in seqs && id !in plan.batchSeqs ==> after[id] == seqs[id])
  }

  lemma CommittedFrom(cfg: Config, seqs: map<SeqId, Sequence>, plan: Plan, sampled: seq<u32>, a: map<SeqId, Sequence>, b: map<SeqId, Sequence>, c: map<SeqId, Sequence>)
    requires cfg.blockSize > 0 && |sampled| == |plan.sampledSeqs| && forall id :: id in plan.sampledSeqs ==> id in plan.batchSeqs
    requires AdvancedAll(seqs, plan, a) && AppendedAll(cfg, a, plan.sampledSeqs, sampled, b)
    requires if cfg.prefixCache then PublishedAll(cfg, b, plan.batchSeqs, c) else c == b
    ensures CommittedAll(cfg, seqs, plan, sampled, c)
  {
    hide Advanced, Appended, PublishedAs, RowLen;
    assert forall i :: 0 <= i < |plan.batchSeqs| ==> plan.batchSeqs[i] in plan.batchSeqs;
  }

  lemma CommitIs(cfg: Config, st: Sched, plan: Plan, sampled: seq<u32>)
    requires cfg.blockSize > 0 && NoDup(plan.batchSeqs) && SampledAt(plan) && |sampled| == |plan.sampledSeqs|
    ensures CommittedAll(cfg, st.seqs, plan, sampled, Commit(cfg, st, plan, sampled).seqs)
    ensures Commit(cfg, st, plan, sampled).nextId == st.nextId
  {
    var s1 := AdvanceLoop(st, plan, 0);
    var s2 := AppendLoop(cfg, s1, plan.sampledSeqs, sampled);
    AdvanceLoopIs(st, plan, 0);
    assert plan.batchSeqs[0..] == plan.batchSeqs;
    assert AdvancedAll(st.seqs, plan, s1.seqs);
    assert Commit(cfg, st, plan, sampled) == if cfg.prefixCache then PublishLoop(cfg, s2, plan.batchSeqs) else s2;
    assert NoDup(plan.sampledSeqs) && forall id :: id in plan.sampledSeqs ==> id in plan.batchSeqs;
    hide *;
    AppendLoopIs(cfg, s1, plan.sampledSeqs, sampled);
    PublishLoopAs(cfg, s2, plan.batchSeqs);
    CommittedFrom(cfg, st.seqs, plan, sampled, s1.seqs, s2.seqs, Commit(cfg, st, plan, sampled).seqs);
  }

  lemma CommitSteady(cfg: Config, st: Sched, plan: Plan, sampled: seq<u32>, after: map<SeqId, Sequence>)
    requires cfg.blockSize > 0 && InFlight(cfg, st, plan) && AllSteady(cfg, st.seqs) && |sampled| == |plan.sampledSeqs|
    requires forall id :: id in st.seqs ==> BasicOk(cfg, st.seqs[id])
    requires CommittedAll(cfg, st.seqs, plan, sampled, after)
    ensures AllSteady(cfg, after)
  {
    hide Steady, BasicOk, Committed, Shape, RowOk;
    forall id | id in after ensures Steady(cfg, after[id]) {
      if id in plan.batchSeqs {
        var i :| 0 <= i < |plan.batchSeqs| && plan.batchSeqs[i] == id;
        var s, q := st.seqs[id], RowLen(plan.batch, i);
        assert Flying(cfg, s, plan, i);
        var token: Option<u32> := None;
        if id in plan.sampledSeqs {
          var k :| 0 <= k < |plan.sampledSeqs| && plan.sampledSeqs[k] == id;
          token := Some(sampled[k]);
        }
        CommitSteadyAt(cfg, s, plan, i, token, after[id]);
      }
    }
  }

  lemma CommitSteadyAt(cfg: Config, s: Sequence, plan: Plan, i: nat, token: Option<u32>, t: Sequence)
    requires cfg.blockSize > 0 && i < |plan.batchSeqs| && Steady(cfg, s) && BasicOk(cfg, s) && Flying(cfg, s, plan, i)
    requires Committed(cfg, s, RowLen(plan.batch, i), token, t)
    requires token.Some? <==> plan.batchSeqs[i] in plan.sampledSeqs
    ensures Steady(cfg, t)
  {
    var q := RowLen(plan.batch, i);
    if IsFinished(s) {
      AppendedFinished(cfg, s, q, token, t);
    } else {
      assert RowOk(cfg, s, plan.batch, i);
      assert q > 0 && IsActive(s);
      hide RowOk, Committed, Steady;
      CommittedSteady(cfg, s, q, token, t);
    }
  }

  lemma CommitOk(cfg: Config, st: Sched, plan: Plan, sampled: seq<u32>)
    requires cfg.blockSize > 0 && Round(cfg, st) && InFlight(cfg, st, plan) && |sampled| == |plan.sampledSeqs|
    ensures Round(cfg, Commit(cfg, st, plan, sampled))
  {
    hide *;
    RoundParts(cfg, st);
    InFlightParts(cfg, st, plan);
    CoreParts(cfg, st);
    CommitCore(cfg, st, plan, sampled);
    CommitIs(cfg, st, plan, sampled);
    CommitSteady(cfg, st, plan, sampled, Commit(cfg, st, plan, sampled).seqs);
    RoundMade(cfg, Commit(cfg, st, plan, sampled));
  }

  lemma RoundParts(cfg: Config, st: Sched)
    requires Round(cfg, st)
    ensures cfg.blockSize > 0 && Core(cfg, st) && AllSteady(cfg, st.seqs)
  {
    hide AllSteady, PoolOk, BlocksOk, QueuesOk, RequestsOk, BasicOk, CollisionFree;
  }

  lemma RoundMade(cfg: Config, st: Sched)
    requires cfg.blockSize > 0 && Core(cfg, st) && AllSteady(cfg, st.seqs)
    ensures Round(cfg, st)
  {
    hide AllSteady, Core;
  }

  lemma InFlightParts(cfg: Config, st: Sched, plan: Plan)
    requires cfg.blockSize > 0 && InFlight(cfg, st, plan)
    ensures NoDup(plan.batchSeqs) && SampledAt(plan) && Shape(plan.batch, |plan.batchSeqs|)
  {
    hide SampledAt, Shape, Flying;
  }

  // -------------------------------------------------- the other round steps

  lemma AdmitOk(cfg: Config, st: Sched, r: RequestId, prompt: seq<u32>, params: Params, tenant: Text)
    requires Round(cfg, st)
    ensures Round(cfg, Admit(cfg, st, r, prompt, params, tenant).0)
  {
    AdmitCore(cfg, st, r, prompt, params, tenant);
    RoundParts(cfg, st);
    if Admit(cfg, st, r, prompt, params, tenant).1.None? {
      var s := NewSequence(r, prompt, params, tenant);
      assert Steady(cfg, s);
      hide Core, Round, Steady;
      SteadyKept(cfg, st.seqs, st.nextId, s, st.seqs[st.nextId := s]);
      RoundMade(cfg, Admit(cfg, st, r, prompt, params, tenant).0);
    }
  }

  lemma FinishSteady(cfg: Config, st: Sched, id: SeqId, reason: Reason)
    requires cfg.blockSize > 0 && AllSteady(cfg, st.seqs)
    ensures AllSteady(cfg, Finish(st, id, reason).seqs)
  {}

  lemma FinishOk(cfg: Config, st: Sched, id: SeqId, reason: Reason)
    requires Round(cfg, st)
    ensures Round(cfg, Finish(st, id, reason))
  {
    hide *;
    RoundParts(cfg, st);
    FinishCore(cfg, st, id, reason);
    FinishSteady(cfg, st, id, reason);
    RoundMade(cfg, Finish(st, id, reason));
  }

  lemma {:induction false} FinishAllOk(cfg: Config, st: Sched, ids: seq<SeqId>, reason: Reason)
    requires Round(cfg, st)
    ensures Round(cfg, FinishAll(st, ids, reason))
    decreases |ids|
  {
    hide Round, Finish;
    if ids != [] {
      FinishOk(cfg, st, ids[0], reason);
      FinishAllOk(cfg, Finish(st, ids[0], reason), ids[1..], reason);
    }
  }

  lemma DrainOk(cfg: Config, st: Sched)
    requires Round(cfg, st)
    ensures Round(cfg, Drain(st))
  {
    DrainCore(cfg, st);
    RoundParts(cfg, st);
    DrainListFinished(st.(finished := []), st.finished);
    DrainKeeps(st.(finished := []), st.finished);
    hide Core, Steady, DrainList;
    RoundMade(cfg, Drain(st));
  }

  lemma {:induction false} DrainKeeps(st: Sched, ids: seq<SeqId>)
    ensures forall id :: id in DrainList(st, ids).seqs ==> id in st.seqs && DrainList(st, ids).seqs[id] == st.seqs[id]
    ensures DrainList(st, ids).nextId == st.nextId
    decreases |ids|
  {
    if ids != [] {
      if ids[0] in st.seqs {
        DrainKeeps(st.(seqs := st.seqs - {ids[0]}, byRequest := DropFromRequest(st.byRequest, st.seqs[ids[0]].request, ids[0])), ids[1..]);
      } else {
        DrainKeeps(st, ids[1..]);
      }
    }
  }
}
