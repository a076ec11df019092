/** One scheduling round: the batch it builds and what it leaves behind. */
module Rounds {
  import opened Prelude
  import opened PoolModel
  import opened Sequences
  import opened SchedulerModel
  import opened Invariants

  // --------------------------------------------------- between two rounds

  /** Still has a token to generate and room to put it. */
  ghost predicate Unfinished(cfg: Config, s: Sequence) {
    |s.tokens| < cfg.maxContext && (Generated(s) == 0 || Generated(s) < s.params.maxTokens)
  }

  /** How far a live sequence is, between two rounds: an active one has the blocks for its known text and
      one token more, a prefilling one holds only known text, a decoding one lacks the KV of exactly its last token. */
  ghost predicate Steady(cfg: Config, s: Sequence)
    requires cfg.blockSize > 0
  {
    IsFinished(s)
    || (Unfinished(cfg, s)
        && (IsWaiting(s) || NeedsPrefill(s) ==> s.target == |s.tokens|)
        && (s.status.Waiting? ==> s.target == s.promptLen)
        && (IsActive(s) ==> (s.status.Prefilling? <==> NeedsPrefill(s)))
        && (IsActive(s) ==> BlocksFor(cfg.blockSize, s.target + 1) <= |s.blocks|)
        && (IsActive(s) && !NeedsPrefill(s) ==> s.computed + 1 == |s.tokens|)
        && (IsActive(s) && cfg.prefixCache ==> s.cachedBlocks == s.computed / cfg.blockSize))
  }

  ghost predicate AllSteady(cfg: Config, seqs: map<SeqId, Sequence>)
    requires cfg.blockSize > 0
  {
    forall id :: id in seqs ==> Steady(cfg, seqs[id])
  }

  /** The invariant between two rounds. */
  ghost predicate Round(cfg: Config, st: Sched) {
    Core(cfg, st) && AllSteady(cfg, st.seqs)
  }

  // ------------------------------------------------------------- the batch

  /** Lengths of the batch's vectors for `n` sequences. */
  ghost predicate Shape(b: Batch, n: nat) {
    |b.tables| == n && |b.positions| == |b.tokens| && |b.slots| == |b.tokens|
    && (n == 0 ==> b.cuQ == [] && b.cuK == [] && b.tokens == [])
    && (n > 0 ==> |b.cuQ| == n + 1 && |b.cuK| == n + 1 && b.cuQ[0] == 0 && b.cuK[0] == 0 && b.cuQ[n] == |b.tokens|)
  }

  /** Row `i` carries the next known tokens of `s`, at their positions, bound for their slots. */
  ghost predicate RowOk(cfg: Config, s: Sequence, b: Batch, i: nat)
    requires cfg.blockSize > 0
  {
    i + 1 < |b.cuQ| && i + 1 < |b.cuK| && i < |b.tables|
    && b.cuQ[i] < b.cuQ[i + 1] <= |b.tokens| && |b.positions| == |b.tokens| && |b.slots| == |b.tokens|
    && var lo, hi := b.cuQ[i], b.cuQ[i + 1];
       var q := hi - lo;
       IsActive(s) && s.computed + q <= |s.tokens| && BlocksFor(cfg.blockSize, s.computed + q) <= |s.blocks|
       && b.tokens[lo..hi] == s.tokens[s.computed..s.computed + q]
       && b.positions[lo..hi] == Positions(s.computed, q)
       && b.slots[lo..hi] == Slots(cfg.blockSize, s.blocks, s.computed, q)
       && b.cuK[i + 1] == b.cuK[i] + s.computed + q
       && b.tables[i] == s.blocks
  }

  ghost predicate RowsOk(cfg: Config, seqs: map<SeqId, Sequence>, plan: Plan)
    requires cfg.blockSize > 0
  {
    forall i :: 0 <= i < |plan.batchSeqs| ==>
      plan.batchSeqs[i] in seqs && RowOk(cfg, seqs[plan.batchSeqs[i]], plan.batch, i)
  }

  /** Sampled are exactly the sequences whose known text is fully computed by the step. */
  ghost predicate SampledIff(seqs: map<SeqId, Sequence>, plan: Plan) {
    forall i :: 0 <= i < |plan.batchSeqs| && plan.batchSeqs[i] in seqs ==>
      var s := seqs[plan.batchSeqs[i]];
      (plan.batchSeqs[i] in plan.sampledSeqs <==> s.computed + RowLen(plan.batch, i) == |s.tokens|)
  }

  /** Each sampled sequence's logits are read at the last token of its row. */
  ghost predicate SampledAt(plan: Plan) {
    |plan.batch.logits| == |plan.sampledSeqs| && NoDup(plan.sampledSeqs)
    && (forall id :: id in plan.sampledSeqs ==> id in plan.batchSeqs)
    && (forall i, k :: 0 <= i < |plan.batchSeqs| && 0 <= k < |plan.sampledSeqs| && plan.batchSeqs[i] == plan.sampledSeqs[k] ==>
          i + 1 < |plan.batch.cuQ| && plan.batch.logits[k] + 1 == plan.batch.cuQ[i + 1])
  }

  ghost predicate SampledOk(seqs: map<SeqId, Sequence>, plan: Plan) {
    SampledIff(seqs, plan) && SampledAt(plan)
  }

  ghost predicate PlanOk(cfg: Config, seqs: map<SeqId, Sequence>, plan: Plan)
    requires cfg.blockSize > 0
  {
    Shape(plan.batch, |plan.batchSeqs|) && NoDup(plan.batchSeqs) && RowsOk(cfg, seqs, plan) && SampledOk(seqs, plan)
  }

  lemma EmptyPlanOk(cfg: Config, seqs: map<SeqId, Sequence>)
    requires cfg.blockSize > 0
    ensures PlanOk(cfg, seqs, EmptyPlan)
  {}

  /** The plan depends on its own sequences only. */
  lemma PlanFrame(cfg: Config, seqs: map<SeqId, Sequence>, after: map<SeqId, Sequence>, plan: Plan, other: Plan)
    requires cfg.blockSize > 0 && PlanOk(cfg, seqs, plan)
    requires forall id :: id in plan.batchSeqs && id in seqs ==> id in after && after[id] == seqs[id]
    requires other.batch == plan.batch && other.batchSeqs == plan.batchSeqs && other.sampledSeqs == plan.sampledSeqs
    ensures PlanOk(cfg, after, other)
  {
    hide RowOk;
    assert forall i :: 0 <= i < |plan.batchSeqs| ==> plan.batchSeqs[i] in plan.batchSeqs;
  }

  // -------------------------------------------------- adding one sequence

  lemma PushShape(cfg: Config, st: Sched, id: SeqId, q: nat, plan: Plan)
    requires cfg.blockSize > 0 && Shape(plan.batch, |plan.batchSeqs|) && id in st.seqs && st.seqs[id].computed + q <= |st.seqs[id].tokens|
    ensures var out := PushSeq(cfg, st, id, q, plan);
      var n, s := |plan.batchSeqs|, st.seqs[id];
      Shape(out.batch, n + 1) && out.batchSeqs == plan.batchSeqs + [id]
      && (forall i :: 0 <= i <= n && i < |plan.batch.cuQ| ==> out.batch.cuQ[i] == plan.batch.cuQ[i] && out.batch.cuK[i] == plan.batch.cuK[i])
      && out.batch.cuQ[n] == |plan.batch.tokens| && out.batch.cuQ[n + 1] == |plan.batch.tokens| + q
      && out.batch.cuK[n + 1] == out.batch.cuK[n] + s.computed + q
  {}

  lemma PushData(cfg: Config, st: Sched, id: SeqId, q: nat, plan: Plan)
    requires cfg.blockSize > 0 && id in st.seqs && st.seqs[id].computed + q <= |st.seqs[id].tokens|
    ensures var out := PushSeq(cfg, st, id, q, plan);
      var s := st.seqs[id];
      out.batch.tokens == plan.batch.tokens + s.tokens[s.computed..s.computed + q]
      && out.batch.positions == plan.batch.positions + Positions(s.computed, q)
      && out.batch.slots == plan.batch.slots + Slots(cfg.blockSize, s.blocks, s.computed, q)
      && out.batch.tables == plan.batch.tables + [s.blocks]
      && out.sampledSeqs == (if s.computed + q == |s.tokens| then plan.sampledSeqs + [id] else plan.sampledSeqs)
      && (q > 0 ==> out.batch.logits == (if s.computed + q == |s.tokens| then plan.batch.logits + [|plan.batch.tokens| + q - 1] else plan.batch.logits))
      && out.preempted == plan.preempted && out.started == plan.started
  {}

  /** Earlier rows stay as they are when the batch grows. */
  lemma RowStays(cfg: Config, s: Sequence, b: Batch, c: Batch, i: nat)
    requires cfg.blockSize > 0 && RowOk(cfg, s, b, i)
    requires i + 1 < |c.cuQ| && i + 1 < |c.cuK|
    requires c.cuQ[i] == b.cuQ[i] && c.cuQ[i + 1] == b.cuQ[i + 1] && c.cuK[i] == b.cuK[i] && c.cuK[i + 1] == b.cuK[i + 1]
    requires b.tokens <= c.tokens && b.positions <= c.positions && b.slots <= c.slots && b.tables <= c.tables
    requires |c.positions| == |c.tokens| && |c.slots| == |c.tokens|
    ensures RowOk(cfg, s, c, i)
  {
    var lo, hi := b.cuQ[i], b.cuQ[i + 1];
    assert c.tokens[lo..hi] == b.tokens[lo..hi];
    assert c.positions[lo..hi] == b.positions[lo..hi];
    assert c.slots[lo..hi] == b.slots[lo..hi];
  }

  lemma RowNew(cfg: Config, s: Sequence, b: Batch, c: Batch, n: nat, q: nat)
    requires cfg.blockSize > 0 && Shape(b, n) && Shape(c, n + 1) && q > 0
    requires IsActive(s) && s.computed + q <= |s.tokens| && BlocksFor(cfg.blockSize, s.computed + q) <= |s.blocks|
    requires c.cuQ[n] == |b.tokens| && c.cuQ[n + 1] == |b.tokens| + q && c.cuK[n + 1] == c.cuK[n] + s.computed + q
    requires c.tokens == b.tokens + s.tokens[s.computed..s.computed + q] && c.positions == b.positions + Positions(s.computed, q)
    requires c.slots == b.slots + Slots(cfg.blockSize, s.blocks, s.computed, q) && c.tables == b.tables + [s.blocks]
    ensures RowOk(cfg, s, c, n)
  {
    var lo := |b.tokens|;
    assert c.tokens[lo..lo + q] == s.tokens[s.computed..s.computed + q];
    assert c.positions[lo..lo + q] == Positions(s.computed, q);
    assert c.slots[lo..lo + q] == Slots(cfg.blockSize, s.blocks, s.computed, q);
  }

  lemma SampledIffGrow(seqs: map<SeqId, Sequence>, id: SeqId, q: nat, plan: Plan, out: Plan)
    requires SampledIff(seqs, plan) && id in seqs && id !in plan.batchSeqs && id !in plan.sampledSeqs
    requires out.batchSeqs == plan.batchSeqs + [id] && |out.batch.cuQ| == |plan.batchSeqs| + 2
    requires forall i :: 0 <= i <= |plan.batchSeqs| && i < |plan.batch.cuQ| ==> out.batch.cuQ[i] == plan.batch.cuQ[i]
    requires |plan.batchSeqs| > 0 ==> |plan.batch.cuQ| == |plan.batchSeqs| + 1
    requires out.batch.cuQ[|plan.batchSeqs| + 1] == out.batch.cuQ[|plan.batchSeqs|] + q
    requires out.sampledSeqs == (if seqs[id].computed + q == |seqs[id].tokens| then plan.sampledSeqs + [id] else plan.sampledSeqs)
    ensures SampledIff(seqs, out)
  {
    var n := |plan.batchSeqs|;
    assert forall i :: 0 <= i < n ==> out.batchSeqs[i] == plan.batchSeqs[i] && plan.batchSeqs[i] in plan.batchSeqs;
    assert forall i :: 0 <= i < n ==> RowLen(out.batch, i) == RowLen(plan.batch, i);
    assert RowLen(out.batch, n) == q;
  }

  lemma SampledAtGrow(id: SeqId, done: bool, plan: Plan, out: Plan)
    requires SampledAt(plan) && id !in plan.batchSeqs
    requires out.batchSeqs == plan.batchSeqs + [id] && |out.batch.cuQ| == |plan.batchSeqs| + 2
    requires forall i :: 0 <= i <= |plan.batchSeqs| && i < |plan.batch.cuQ| ==> out.batch.cuQ[i] == plan.batch.cuQ[i]
    requires |plan.batchSeqs| > 0 ==> |plan.batch.cuQ| == |plan.batchSeqs| + 1
    requires out.batch.cuQ[|plan.batchSeqs| + 1] > 0
    requires out.sampledSeqs == (if done then plan.sampledSeqs + [id] else plan.sampledSeqs)
    requires out.batch.logits == (if done then plan.batch.logits + [out.batch.cuQ[|plan.batchSeqs| + 1] - 1] else plan.batch.logits)
    ensures SampledAt(out) && id !in plan.sampledSeqs
  {
    assert id !in plan.sampledSeqs;
    if done {
      NoDupAppend(plan.sampledSeqs, id);
    }
    assert NoDup(out.sampledSeqs) && |out.batch.logits| == |out.sampledSeqs|;
    assert forall o :: o in out.sampledSeqs ==> o in out.batchSeqs;
    hide NoDup;
    forall i: nat, k: nat | i < |out.batchSeqs| && k < |out.sampledSeqs| && out.batchSeqs[i] == out.sampledSeqs[k]
      ensures i + 1 < |out.batch.cuQ| && out.batch.logits[k] + 1 == out.batch.cuQ[i + 1]
    {
      SampledPair(id, done, plan, out, i, k);
    }
  }

  lemma SampledPair(id: SeqId, done: bool, plan: Plan, out: Plan, i: nat, k: nat)
    requires SampledAt(plan) && id !in plan.batchSeqs && id !in plan.sampledSeqs
    requires out.batchSeqs == plan.batchSeqs + [id] && |out.batch.cuQ| == |plan.batchSeqs| + 2
    requires forall i :: 0 <= i <= |plan.batchSeqs| && i < |plan.batch.cuQ| ==> out.batch.cuQ[i] == plan.batch.cuQ[i]
    requires out.batch.cuQ[|plan.batchSeqs| + 1] > 0
    requires out.sampledSeqs == (if done then plan.sampledSeqs + [id] else plan.sampledSeqs)
    requires out.batch.logits == (if done then plan.batch.logits + [out.batch.cuQ[|plan.batchSeqs| + 1] - 1] else plan.batch.logits)
    requires i < |out.batchSeqs| && k < |out.sampledSeqs| && out.batchSeqs[i] == out.sampledSeqs[k]
    ensures k < |out.batch.logits| && i + 1 < |out.batch.cuQ| && out.batch.logits[k] + 1 == out.batch.cuQ[i + 1]
  {
    hide NoDup;
    var n := |plan.batchSeqs|;
    if k < |plan.sampledSeqs| {
      assert out.sampledSeqs[k] == plan.sampledSeqs[k] && plan.sampledSeqs[k] in plan.sampledSeqs;
      assert i < n && out.batchSeqs[i] == plan.batchSeqs[i];
    } else {
      assert i == n;
    }
  }

  lemma PushSeqOk(cfg: Config, st: Sched, id: SeqId, q: nat, plan: Plan)
    requires cfg.blockSize > 0 && PlanOk(cfg, st.seqs, plan) && id in st.seqs && id !in plan.batchSeqs && q > 0
    requires var s := st.seqs[id]; IsActive(s) && s.computed + q <= |s.tokens| && BlocksFor(cfg.blockSize, s.computed + q) <= |s.blocks|
    ensures PlanOk(cfg, st.seqs, PushSeq(cfg, st, id, q, plan))
    ensures |PushSeq(cfg, st, id, q, plan).batch.tokens| == |plan.batch.tokens| + q
  {
    hide *;
    PlanParts(cfg, st.seqs, plan);
    var s, n, out := st.seqs[id], |plan.batchSeqs|, PushSeq(cfg, st, id, q, plan);
    PushShape(cfg, st, id, q, plan);
    PushData(cfg, st, id, q, plan);
    ShapeParts(plan.batch, n);
    ShapeParts(out.batch, n + 1);
    RowNew(cfg, s, plan.batch, out.batch, n, q);
    RowsGrow(cfg, st.seqs, id, plan, out);
    NoDupAppend(plan.batchSeqs, id);
    SampledParts(st.seqs, plan);
    SampledAtGrow(id, s.computed + q == |s.tokens|, plan, out);
    SampledIffGrow(st.seqs, id, q, plan, out);
    SampledMade(st.seqs, out);
    PlanMade(cfg, st.seqs, out);
  }

  lemma RowsGrow(cfg: Config, seqs: map<SeqId, Sequence>, id: SeqId, plan: Plan, out: Plan)
    requires cfg.blockSize > 0 && RowsOk(cfg, seqs, plan) && Shape(plan.batch, |plan.batchSeqs|) && Shape(out.batch, |plan.batchSeqs| + 1)
    requires id in seqs && out.batchSeqs == plan.batchSeqs + [id] && RowOk(cfg, seqs[id], out.batch, |plan.batchSeqs|)
    requires forall i :: 0 <= i <= |plan.batchSeqs| && i < |plan.batch.cuQ| ==> out.batch.cuQ[i] == plan.batch.cuQ[i] && out.batch.cuK[i] == plan.batch.cuK[i]
    requires plan.batch.tokens <= out.batch.tokens && plan.batch.positions <= out.batch.positions
    requires plan.batch.slots <= out.batch.slots && plan.batch.tables <= out.batch.tables
    ensures RowsOk(cfg, seqs, out)
  {
    hide RowOk;
    forall i | 0 <= i < |out.batchSeqs| ensures out.batchSeqs[i] in seqs && RowOk(cfg, seqs[out.batchSeqs[i]], out.batch, i) {
      if i < |plan.batchSeqs| {
        assert out.batchSeqs[i] == plan.batchSeqs[i];
        RowStays(cfg, seqs[plan.batchSeqs[i]], plan.batch, out.batch, i);
      }
    }
  }

  lemma PlanParts(cfg: Config, seqs: map<SeqId, Sequence>, plan: Plan)
    requires cfg.blockSize > 0 && PlanOk(cfg, seqs, plan)
    ensures Shape(plan.batch, |plan.batchSeqs|) && NoDup(plan.batchSeqs) && RowsOk(cfg, seqs, plan) && SampledOk(seqs, plan)
  {
    hide Shape, NoDup, RowsOk, SampledOk;
  }

  lemma PlanMade(cfg: Config, seqs: map<SeqId, Sequence>, plan: Plan)
    requires cfg.blockSize > 0
    requires Shape(plan.batch, |plan.batchSeqs|) && NoDup(plan.batchSeqs) && RowsOk(cfg, seqs, plan) && SampledOk(seqs, plan)
    ensures PlanOk(cfg, seqs, plan)
  {
    hide Shape, NoDup, RowsOk, SampledOk;
  }

  lemma SampledParts(seqs: map<SeqId, Sequence>, plan: Plan)
    requires SampledOk(seqs, plan)
    ensures SampledIff(seqs, plan) && SampledAt(plan)
  {
    hide SampledIff, SampledAt;
  }

  lemma SampledMade(seqs: map<SeqId, Sequence>, plan: Plan)
    requires SampledIff(seqs, plan) && SampledAt(plan)
    ensures SampledOk(seqs, plan)
  {
    hide SampledIff, SampledAt;
  }

  lemma ShapeParts(b: Batch, n: nat)
    requires Shape(b, n)
    ensures n > 0 ==> |b.cuQ| == n + 1 && |b.cuK| == n + 1 && b.cuQ[0] == 0 && b.cuQ[n] == |b.tokens|
    ensures n == 0 ==> b.cuQ == [] && b.cuK == []
    ensures |b.tables| == n && |b.positions| == |b.tokens| && |b.slots| == |b.tokens|
  {}
}
