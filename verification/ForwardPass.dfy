/** The forward pass writes only what its sequences own privately, and what it writes is
    right; committing the step keeps it so. */
module ForwardPass {
  import opened Prelude
  import opened Hashing
  import opened PoolModel
  import opened Sequences
  import opened SchedulerModel
  import opened Invariants
  import opened CoreSteps
  import opened CoreStart
  import opened CoreCommit
  import opened CorePublish
  import opened Rounds
  import opened Committing
  import opened Kv
  import opened Transparency

  // --------------------------------------------------- writing private blocks

  ghost predicate IsPrivate(cfg: Config, s: Sequence, b: BlockId)
    requires cfg.blockSize > 0
  {
    exists j :: 0 <= j < |s.blocks| && Settled(cfg, s) <= j && s.blocks[j] == b
  }

  /** Only private blocks of `s` changed. */
  ghost predicate WroteOnly(cfg: Config, s: Sequence, kv: Cache, kv': Cache)
    requires cfg.blockSize > 0
  {
    |kv'| == |kv| && (forall b :: 0 <= b < |kv| ==> |kv'[b]| == |kv[b]|)
    && forall b :: 0 <= b < |kv| && !IsPrivate(cfg, s, b) ==> kv'[b] == kv[b]
  }

  lemma WroteTwice(cfg: Config, s: Sequence, a: Cache, b: Cache, c: Cache)
    requires cfg.blockSize > 0 && WroteOnly(cfg, s, a, b) && WroteOnly(cfg, s, b, c)
    ensures WroteOnly(cfg, s, a, c)
  {
    hide IsPrivate;
  }

  /** Copy-on-write isolation: no write of one sequence reaches a row another one reads. */
  lemma OthersUnchanged(cfg: Config, s: Sequence, o: Sequence, kv: Cache, kv': Cache, n: nat)
    requires cfg.blockSize > 0 && WroteOnly(cfg, s, kv, kv') && Apart(cfg, s, o)
    ensures forall p: nat :: RowAt(kv', cfg.blockSize, o.blocks, p) == RowAt(kv, cfg.blockSize, o.blocks, p)
    ensures RowsHold(cfg.blockSize, kv, o, n) ==> RowsHold(cfg.blockSize, kv', o, n)
  {
    forall p: nat ensures RowAt(kv', cfg.blockSize, o.blocks, p) == RowAt(kv, cfg.blockSize, o.blocks, p) {
      var j := p / cfg.blockSize;
      if j < |o.blocks| && o.blocks[j] < |kv| {
        assert !IsPrivate(cfg, s, o.blocks[j]);
      }
    }
  }

  lemma PublishedUnchanged(cfg: Config, s: Sequence, hashOf: seq<Option<BlockHash>>, kv: Cache, kv': Cache)
    requires cfg.blockSize > 0 && WroteOnly(cfg, s, kv, kv') && LocalOk(cfg, hashOf, s) && PublishedHold(cfg, hashOf, kv)
    ensures PublishedHold(cfg, hashOf, kv')
  {
    forall b: nat, tenant: Text, prefix: seq<u32>
      | b < |hashOf| && |prefix| > 0 && |prefix| % cfg.blockSize == 0 && hashOf[b] == Some(cfg.hash(tenant, prefix))
      ensures BlockHolds(cfg.blockSize, kv', b, prefix)
    {
      assert BlockHolds(cfg.blockSize, kv, b, prefix);
      assert !IsPrivate(cfg, s, b);
    }
  }

  lemma RowsFewer(blockSize: nat, kv: Cache, s: Sequence, n: nat, m: nat)
    requires blockSize > 0 && RowsHold(blockSize, kv, s, n) && m <= n
    ensures RowsHold(blockSize, kv, s, m)
  {}

  // ------------------------------------------------------------- one token

  /** Writing the row of position `p`, the first not yet computed, makes it right. */
  lemma WriteRow(cfg: Config, s: Sequence, kv: Cache, p: nat)
    requires cfg.blockSize > 0 && NoDup(s.blocks) && RowsHold(cfg.blockSize, kv, s, p) && p < |s.tokens|
    requires p / cfg.blockSize < |s.blocks| && Settled(cfg, s) <= p / cfg.blockSize
    requires forall j :: 0 <= j < |s.blocks| ==> s.blocks[j] < |kv|
    requires forall b :: 0 <= b < |kv| ==> |kv[b]| == cfg.blockSize
    ensures var kv' := WriteSlot(kv, cfg.blockSize, Slot(cfg.blockSize, s.blocks, p), Row(s.tokens[p], p, Gather(kv, cfg.blockSize, s.blocks, p)));
      WroteOnly(cfg, s, kv, kv') && RowsHold(cfg.blockSize, kv', s, p + 1)
  {
    var bs := cfg.blockSize;
    var b, o := s.blocks[p / bs], p % bs;
    var row := Row(s.tokens[p], p, Gather(kv, bs, s.blocks, p));
    SlotIs(bs, s.blocks, p);
    WriteIs(kv, bs, b, o, row);
    var kv' := kv[b := kv[b][o := row]];
    assert IsPrivate(cfg, s, b);
    assert WroteOnly(cfg, s, kv, kv');
    IdealAt(s.tokens, p);
    assert Gather(kv, bs, s.blocks, p) == Ideal(s.tokens)[..p];
    hide WriteSlot, Slot, IsPrivate;
    RowAtAfter(kv, bs, s.blocks, p, row);
  }

  lemma RowAtAfter(kv: Cache, blockSize: nat, blocks: seq<BlockId>, p: nat, row: Row)
    requires blockSize > 0 && NoDup(blocks) && p / blockSize < |blocks| && blocks[p / blockSize] < |kv| && |kv[blocks[p / blockSize]]| == blockSize
    ensures var kv' := kv[blocks[p / blockSize] := kv[blocks[p / blockSize]][p % blockSize := row]];
      RowAt(kv', blockSize, blocks, p) == row
      && forall q: nat :: q != p ==> RowAt(kv', blockSize, blocks, q) == RowAt(kv, blockSize, blocks, q)
  {
    var kv' := kv[blocks[p / blockSize] := kv[blocks[p / blockSize]][p % blockSize := row]];
    forall q: nat | q != p ensures RowAt(kv', blockSize, blocks, q) == RowAt(kv, blockSize, blocks, q) {
      if q / blockSize < |blocks| {
        PositionsApart(blockSize, blocks, p, q);
      }
    }
  }

  lemma TokenIs(cfg: Config, s: Sequence, b: Batch, i: nat, t: nat)
    requires cfg.blockSize > 0 && RowOk(cfg, s, b, i) && t < b.cuQ[i + 1] - b.cuQ[i]
    ensures var j := b.cuQ[i] + t;
      j < |b.tokens| && j < |b.positions| && j < |b.slots| && s.computed + t < |s.tokens|
      && b.tokens[j] == s.tokens[s.computed + t] && b.positions[j] == s.computed + t
      && b.slots[j] == Slot(cfg.blockSize, s.blocks, s.computed + t) && b.tables[i] == s.blocks
      && (s.computed + t) / cfg.blockSize < |s.blocks|
  {
    var lo, hi := b.cuQ[i], b.cuQ[i + 1];
    assert b.tokens[lo..hi][t] == b.tokens[lo + t] && b.positions[lo..hi][t] == b.positions[lo + t] && b.slots[lo..hi][t] == b.slots[lo + t];
    BlocksForCovers(cfg.blockSize, s.computed + (hi - lo), s.computed + t);
  }

  /** What the forward pass needs to know about a sequence it writes for. */
  ghost predicate Writable(cfg: Config, s: Sequence, kv: Cache)
    requires cfg.blockSize > 0
  {
    NoDup(s.blocks) && Settled(cfg, s) <= s.computed / cfg.blockSize
    && (forall j :: 0 <= j < |s.blocks| ==> s.blocks[j] < |kv|)
    && (forall b :: 0 <= b < |kv| ==> |kv[b]| == cfg.blockSize)
  }

  lemma TokenRight(cfg: Config, s: Sequence, b: Batch, i: nat, t: nat, kv: Cache)
    requires cfg.blockSize > 0 && RowOk(cfg, s, b, i) && t < b.cuQ[i + 1] - b.cuQ[i]
    requires Writable(cfg, s, kv) && RowsHold(cfg.blockSize, kv, s, s.computed + t)
    ensures var kv' := ForwardToken(kv, cfg.blockSize, b, b.tables[i], b.cuQ[i] + t);
      WroteOnly(cfg, s, kv, kv') && RowsHold(cfg.blockSize, kv', s, s.computed + t + 1) && Writable(cfg, s, kv')
  {
    TokenIs(cfg, s, b, i, t);
    hide RowOk;
    DivMono(s.computed, s.computed + t, cfg.blockSize);
    WriteRow(cfg, s, kv, s.computed + t);
    hide WriteSlot, Slot, RowsHold, IsPrivate, RowAt;
  }

  lemma {:induction false} RowRight(cfg: Config, s: Sequence, b: Batch, i: nat, t: nat, kv: Cache)
    requires cfg.blockSize > 0 && RowOk(cfg, s, b, i) && t <= b.cuQ[i + 1] - b.cuQ[i]
    requires Writable(cfg, s, kv) && RowsHold(cfg.blockSize, kv, s, s.computed + t)
    ensures var kv' := ForwardRow(kv, cfg.blockSize, b, b.tables[i], b.cuQ[i] + t, b.cuQ[i + 1]);
      WroteOnly(cfg, s, kv, kv') && RowsHold(cfg.blockSize, kv', s, s.computed + (b.cuQ[i + 1] - b.cuQ[i]))
    decreases b.cuQ[i + 1] - b.cuQ[i] - t
  {
    RowBounds(cfg, s, b, i);
    hide RowOk, Writable, RowsHold, ForwardToken, IsPrivate;
    if t < b.cuQ[i + 1] - b.cuQ[i] {
      TokenRight(cfg, s, b, i, t, kv);
      var kv' := ForwardToken(kv, cfg.blockSize, b, b.tables[i], b.cuQ[i] + t);
      hide WroteOnly;
      RowRight(cfg, s, b, i, t + 1, kv');
      WroteTwice(cfg, s, kv, kv', ForwardRow(kv', cfg.blockSize, b, b.tables[i], b.cuQ[i] + t + 1, b.cuQ[i + 1]));
    }
  }

  lemma RowBounds(cfg: Config, s: Sequence, b: Batch, i: nat)
    requires cfg.blockSize > 0 && RowOk(cfg, s, b, i)
    ensures i + 1 < |b.cuQ| && i < |b.tables| && b.cuQ[i] < b.cuQ[i + 1] && IsActive(s)
    ensures RowLen(b, i) == b.cuQ[i + 1] - b.cuQ[i] && s.computed + RowLen(b, i) <= |s.tokens|
    ensures i + 1 < |b.cuK| && b.cuK[i + 1] == b.cuK[i] + s.computed + RowLen(b, i) && b.tables[i] == s.blocks
    ensures BlocksFor(cfg.blockSize, s.computed + RowLen(b, i)) <= |s.blocks|
  {}

  // -------------------------------------------------------- the whole batch

  /** Rows already computed, for every batch member before `k` including this step's. */
  ghost predicate DoneUpto(cfg: Config, seqs: map<SeqId, Sequence>, plan: Plan, k: nat, kv: Cache)
    requires cfg.blockSize > 0
  {
    forall i :: 0 <= i < k && i < |plan.batchSeqs| && plan.batchSeqs[i] in seqs && IsActive(seqs[plan.batchSeqs[i]]) ==>
      RowsHold(cfg.blockSize, kv, seqs[plan.batchSeqs[i]], seqs[plan.batchSeqs[i]].computed + RowLen(plan.batch, i))
  }

  /** What stays fixed while the forward pass runs. */
  ghost predicate Forwardable(cfg: Config, st: Sched, plan: Plan) {
    cfg.blockSize > 0 && BlocksOk(cfg, st.pool, st.seqs) && AllSteady(cfg, st.seqs) && PlanOk(cfg, st.seqs, plan) && |st.pool.hashOf| == |st.pool.refs|
    && (forall id :: id in st.seqs ==> BasicOk(cfg, st.seqs[id]))
  }

  lemma WritableHere(cfg: Config, st: Sched, plan: Plan, i: nat, kv: Cache)
    requires Forwardable(cfg, st, plan) && i < |plan.batchSeqs| && CacheShape(kv, |st.pool.refs|, cfg.blockSize)
    ensures plan.batchSeqs[i] in st.seqs && RowOk(cfg, st.seqs[plan.batchSeqs[i]], plan.batch, i)
    ensures Writable(cfg, st.seqs[plan.batchSeqs[i]], kv) && LocalOk(cfg, st.pool.hashOf, st.seqs[plan.batchSeqs[i]])
    ensures forall o :: o in st.seqs && o != plan.batchSeqs[i] ==> Apart(cfg, st.seqs[plan.batchSeqs[i]], st.seqs[o])
  {
    hide Apart, Shape, SampledOk;
    var s := st.seqs[plan.batchSeqs[i]];
    assert RowOk(cfg, s, plan.batch, i);
    assert LocalOk(cfg, st.pool.hashOf, s);
    assert Steady(cfg, s) && BasicOk(cfg, s);
  }

  lemma SeqsUnchanged(cfg: Config, seqs: map<SeqId, Sequence>, id: SeqId, kv: Cache, kv': Cache)
    requires cfg.blockSize > 0 && id in seqs && SeqsHold(cfg, seqs, kv) && WroteOnly(cfg, seqs[id], kv, kv')
    requires forall o :: o in seqs && o != id ==> Apart(cfg, seqs[id], seqs[o])
    requires IsActive(seqs[id]) ==> RowsHold(cfg.blockSize, kv', seqs[id], seqs[id].computed)
    ensures SeqsHold(cfg, seqs, kv')
  {
    hide Apart, WroteOnly, RowsHold;
    forall o | o in seqs && IsActive(seqs[o]) ensures RowsHold(cfg.blockSize, kv', seqs[o], seqs[o].computed) {
      if o != id {
        OthersUnchanged(cfg, seqs[id], seqs[o], kv, kv', seqs[o].computed);
      }
    }
  }

  lemma DoneUnchanged(cfg: Config, seqs: map<SeqId, Sequence>, plan: Plan, k: nat, kv: Cache, kv': Cache)
    requires cfg.blockSize > 0 && k < |plan.batchSeqs| && NoDup(plan.batchSeqs) && plan.batchSeqs[k] in seqs
    requires DoneUpto(cfg, seqs, plan, k, kv) && WroteOnly(cfg, seqs[plan.batchSeqs[k]], kv, kv')
    requires forall o :: o in seqs && o != plan.batchSeqs[k] ==> Apart(cfg, seqs[plan.batchSeqs[k]], seqs[o])
    requires RowsHold(cfg.blockSize, kv', seqs[plan.batchSeqs[k]], seqs[plan.batchSeqs[k]].computed + RowLen(plan.batch, k))
    ensures DoneUpto(cfg, seqs, plan, k + 1, kv')
  {
    hide Apart, WroteOnly, RowsHold;
    forall i | 0 <= i < k + 1 && i < |plan.batchSeqs| && plan.batchSeqs[i] in seqs && IsActive(seqs[plan.batchSeqs[i]])
      ensures RowsHold(cfg.blockSize, kv', seqs[plan.batchSeqs[i]], seqs[plan.batchSeqs[i]].computed + RowLen(plan.batch, i))
    {
      if i < k {
        var o := seqs[plan.batchSeqs[i]];
        OthersUnchanged(cfg, seqs[plan.batchSeqs[k]], o, kv, kv', o.computed + RowLen(plan.batch, i));
      }
    }
  }

  lemma WroteShape(cfg: Config, s: Sequence, kv: Cache, kv': Cache, n: nat)
    requires cfg.blockSize > 0 && WroteOnly(cfg, s, kv, kv') && CacheShape(kv, n, cfg.blockSize)
    ensures CacheShape(kv', n, cfg.blockSize)
  {}

  /** One row of the batch. */
  lemma ForwardStep(cfg: Config, st: Sched, plan: Plan, k: nat, kv: Cache)
    requires Forwardable(cfg, st, plan) && k < |plan.batchSeqs| && KvOk(cfg, st, kv) && DoneUpto(cfg, st.seqs, plan, k, kv)
    ensures k + 1 < |plan.batch.cuQ| && k < |plan.batch.tables|
    ensures var kv' := ForwardRow(kv, cfg.blockSize, plan.batch, plan.batch.tables[k], plan.batch.cuQ[k], plan.batch.cuQ[k + 1]);
      KvOk(cfg, st, kv') && DoneUpto(cfg, st.seqs, plan, k + 1, kv')
  {
    hide *;
    ForwardableParts(cfg, st, plan);
    KvParts(cfg, st, kv);
    WritableHere(cfg, st, plan, k, kv);
    var id := plan.batchSeqs[k];
    var s := st.seqs[id];
    RowBounds(cfg, s, plan.batch, k);
    SeqHolds(cfg, st.seqs, kv, id);
    RowRight(cfg, s, plan.batch, k, 0, kv);
    var kv' := ForwardRow(kv, cfg.blockSize, plan.batch, plan.batch.tables[k], plan.batch.cuQ[k], plan.batch.cuQ[k + 1]);
    RowsFewer(cfg.blockSize, kv', s, s.computed + RowLen(plan.batch, k), s.computed);
    SeqsUnchanged(cfg, st.seqs, id, kv, kv');
    PublishedUnchanged(cfg, s, st.pool.hashOf, kv, kv');
    WroteShape(cfg, s, kv, kv', |st.pool.refs|);
    DoneUnchanged(cfg, st.seqs, plan, k, kv, kv');
    KvMade(cfg, st, kv');
  }

  lemma ForwardableParts(cfg: Config, st: Sched, plan: Plan)
    requires Forwardable(cfg, st, plan)
    ensures cfg.blockSize > 0 && NoDup(plan.batchSeqs)
  {
    hide Shape, RowsOk, SampledOk, BlocksOk, AllSteady, BasicOk;
  }

  lemma SeqHolds(cfg: Config, seqs: map<SeqId, Sequence>, kv: Cache, id: SeqId)
    requires cfg.blockSize > 0 && SeqsHold(cfg, seqs, kv) && id in seqs && IsActive(seqs[id])
    ensures RowsHold(cfg.blockSize, kv, seqs[id], seqs[id].computed + 0)
  {
    hide RowsHold;
  }

  lemma {:induction false} ForwardFrom(cfg: Config, st: Sched, plan: Plan, k: nat, kv: Cache)
    requires Forwardable(cfg, st, plan) && cfg.blockSize > 0 && k <= |plan.batchSeqs| && KvOk(cfg, st, kv) && DoneUpto(cfg, st.seqs, plan, k, kv)
    ensures var kv' := Forward(kv, cfg.blockSize, plan.batch, k);
      KvOk(cfg, st, kv') && DoneUpto(cfg, st.seqs, plan, |plan.batchSeqs|, kv')
    decreases |plan.batchSeqs| - k
  {
    hide KvOk, DoneUpto, Forwardable, ForwardRow;
    if k < |plan.batchSeqs| {
      ForwardStep(cfg, st, plan, k, kv);
      ForwardFrom(cfg, st, plan, k + 1, ForwardRow(kv, cfg.blockSize, plan.batch, plan.batch.tables[k], plan.batch.cuQ[k], plan.batch.cuQ[k + 1]));
    } else {
      ForwardEnds(cfg, st, plan, kv);
    }
  }

  lemma ForwardEnds(cfg: Config, st: Sched, plan: Plan, kv: Cache)
    requires Forwardable(cfg, st, plan)
    ensures Forward(kv, cfg.blockSize, plan.batch, |plan.batchSeqs|) == kv
  {
    hide RowsOk, SampledOk, BlocksOk, AllSteady, BasicOk;
    assert Shape(plan.batch, |plan.batchSeqs|);
  }

  lemma PlanForwardable(cfg: Config, st: Sched, plan: Plan)
    requires Round(cfg, st) && cfg.blockSize > 0 && PlanOk(cfg, st.seqs, plan)
    ensures Forwardable(cfg, st, plan)
  {
    hide PlanOk, AllSteady, BasicOk, BlocksOk, QueuesOk, RequestsOk, FreeListOk, EmptiesFirst;
  }

  /** After the forward pass every sequence reads its own text, batch members one row further. */
  lemma ForwardOk(cfg: Config, st: Sched, plan: Plan, kv: Cache)
    requires Round(cfg, st) && cfg.blockSize > 0 && PlanOk(cfg, st.seqs, plan) && KvOk(cfg, st, kv)
    ensures var kv' := Forward(kv, cfg.blockSize, plan.batch, 0);
      KvOk(cfg, st, kv') && DoneUpto(cfg, st.seqs, plan, |plan.batchSeqs|, kv')
  {
    hide KvOk, Round, PlanOk, Forwardable, Forward;
    PlanForwardable(cfg, st, plan);
    ForwardFrom(cfg, st, plan, 0, kv);
  }

  /** The model is fed the sequence's own text: the context of a row is that of the text computed alone. */
  lemma ContextIsOwnText(cfg: Config, st: Sched, plan: Plan, kv: Cache, i: nat)
    requires cfg.blockSize > 0 && PlanOk(cfg, st.seqs, plan) && i < |plan.batchSeqs| && DoneUpto(cfg, st.seqs, plan, |plan.batchSeqs|, kv)
    ensures plan.batchSeqs[i] in st.seqs
    ensures var s := st.seqs[plan.batchSeqs[i]];
      Context(kv, cfg.blockSize, plan.batch, i) == Ideal(Upto(s.tokens, s.computed + RowLen(plan.batch, i)))
      && (plan.batchSeqs[i] in plan.sampledSeqs ==> Context(kv, cfg.blockSize, plan.batch, i) == Ideal(s.tokens))
  {
    var s, n := st.seqs[plan.batchSeqs[i]], st.seqs[plan.batchSeqs[i]].computed + RowLen(plan.batch, i);
    assert RowOk(cfg, s, plan.batch, i);
    RowBounds(cfg, s, plan.batch, i);
    assert RowsHold(cfg.blockSize, kv, s, n);
    IdealPrefix(s.tokens, n);
    assert plan.batchSeqs[i] in plan.sampledSeqs ==> n == |s.tokens|;
    hide RowOk, Shape;
    assert Context(kv, cfg.blockSize, plan.batch, i) == Ideal(s.tokens)[..n];
    assert n == |s.tokens| ==> Ideal(s.tokens)[..n] == Ideal(s.tokens);
  }

  // ------------------------------------------------------------ committing

  lemma AdvanceHolds(cfg: Config, seqs: map<SeqId, Sequence>, plan: Plan, after: map<SeqId, Sequence>, kv: Cache)
    requires cfg.blockSize > 0 && SeqsHold(cfg, seqs, kv) && DoneUpto(cfg, seqs, plan, |plan.batchSeqs|, kv) && AdvancedAll(seqs, plan, after)
    ensures SeqsHold(cfg, after, kv)
  {
    forall id | id in after && IsActive(after[id]) ensures RowsHold(cfg.blockSize, kv, after[id], after[id].computed) {
      if id in plan.batchSeqs {
        var k :| 0 <= k < |plan.batchSeqs| && plan.batchSeqs[k] == id;
        assert after[id] == Advanced(seqs[id], RowLen(plan.batch, k));
      }
    }
  }

  lemma AppendHolds(cfg: Config, seqs: map<SeqId, Sequence>, ids: seq<SeqId>, sampled: seq<u32>, after: map<SeqId, Sequence>, kv: Cache)
    requires cfg.blockSize > 0 && SeqsHold(cfg, seqs, kv) && |sampled| == |ids| && AppendedAll(cfg, seqs, ids, sampled, after)
    requires forall id :: id in seqs ==> BasicOk(cfg, seqs[id])
    ensures SeqsHold(cfg, after, kv)
  {
    hide RowsHold;
    forall id | id in after && IsActive(after[id]) ensures RowsHold(cfg.blockSize, kv, after[id], after[id].computed) {
      if id in ids {
        var k :| 0 <= k < |ids| && ids[k] == id;
        assert after[id] == Appended(cfg, seqs[id], sampled[k]);
        assert BasicOk(cfg, seqs[id]);
        GrownRows(cfg.blockSize, kv, seqs[id], after[id], seqs[id].computed);
      }
    }
  }

  lemma {:induction false} AppendHashes(cfg: Config, st: Sched, ids: seq<SeqId>, sampled: seq<u32>)
    ensures AppendLoop(cfg, st, ids, sampled).pool.hashOf == st.pool.hashOf && |AppendLoop(cfg, st, ids, sampled).pool.refs| == |st.pool.refs|
    decreases |ids|
  {
    if ids != [] && sampled != [] {
      var m := AppendOne(cfg, st, ids[0], sampled[0]);
      if ids[0] in st.seqs {
        ReleaseAllHashes(st.pool, st.seqs[ids[0]].blocks);
      }
      hide ReleaseAll;
      assert m.pool.hashOf == st.pool.hashOf && |m.pool.refs| == |st.pool.refs|;
      AppendHashes(cfg, m, ids[1..], sampled[1..]);
    }
  }

  /** A block of `s` filled by `s` itself holds what its new address says. */
  lemma FilledBlock(cfg: Config, kv: Cache, s: Sequence, j: nat, prefix: seq<u32>)
    requires cfg.blockSize > 0 && RowsHold(cfg.blockSize, kv, s, s.computed) && j < |s.blocks| && BlockEnd(j, cfg.blockSize) <= s.computed
    requires s.blocks[j] < |kv| && |kv[s.blocks[j]]| == cfg.blockSize && prefix == Upto(s.tokens, BlockEnd(j, cfg.blockSize))
    ensures BlockHolds(cfg.blockSize, kv, s.blocks[j], prefix)
  {
    var end := BlockEnd(j, cfg.blockSize);
    IdealPrefix(s.tokens, end);
    assert (j + 1) * cfg.blockSize == j * cfg.blockSize + cfg.blockSize;
    forall o: nat | o < cfg.blockSize ensures kv[s.blocks[j]][o] == Ideal(prefix)[|prefix| - cfg.blockSize + o] {
      var p := j * cfg.blockSize + o;
      DivUnique(j, o, cfg.blockSize);
      assert RowAt(kv, cfg.blockSize, s.blocks, p) == Ideal(s.tokens)[p];
      assert Ideal(s.tokens)[..end][p] == Ideal(s.tokens)[p];
    }
  }

  lemma NewlyPublishedHold(cfg: Config, p0: Pool, q: Pool, kv: Cache, s: Sequence, full: nat, v: seq<BlockId>)
    requires cfg.blockSize > 0 && PublishedHold(cfg, p0.hashOf, kv) && HashProgress(cfg, p0, q, s, full, v) && CollisionFree(cfg.hash, cfg.blockSize)
    requires RowsHold(cfg.blockSize, kv, s, s.computed) && full == s.computed / cfg.blockSize
    requires CacheShape(kv, |p0.hashOf|, cfg.blockSize)
    ensures PublishedHold(cfg, q.hashOf, kv)
  {
    BlockEnds(s.computed, cfg.blockSize);
    forall b: nat, tenant: Text, prefix: seq<u32>
      | b < |q.hashOf| && |prefix| > 0 && |prefix| % cfg.blockSize == 0 && q.hashOf[b] == Some(cfg.hash(tenant, prefix))
      ensures BlockHolds(cfg.blockSize, kv, b, prefix)
    {
      if b in s.blocks[s.cachedBlocks..full] {
        var j :| s.cachedBlocks <= j < full && s.blocks[j] == b;
        var own := Upto(s.tokens, BlockEnd(j, cfg.blockSize));
        DivUnique(j + 1, 0, cfg.blockSize);
        assert |own| % cfg.blockSize == 0;
        assert cfg.hash(tenant, prefix) == cfg.hash(s.tenant, own);
        hide PublishedHold, HashProgress, RowsHold, BlockHolds;
        FilledBlock(cfg, kv, s, j, prefix);
      }
    }
  }

  lemma PublishedRows(cfg: Config, p0: Pool, q: Pool, kv: Cache, s: Sequence, full: nat, v: seq<BlockId>)
    requires cfg.blockSize > 0 && PublishedHold(cfg, q.hashOf, kv) && HashProgress(cfg, p0, q, s, full, v)
    requires RowsHold(cfg.blockSize, kv, s, s.computed) && full == s.computed / cfg.blockSize && BasicOk(cfg, s) && cfg.prefixCache
    requires LocalOk(cfg, q.hashOf, Published(s, full, v))
    ensures RowsHold(cfg.blockSize, kv, Published(s, full, v), s.computed)
  {
    forall p: nat | p < s.computed ensures RowAt(kv, cfg.blockSize, Published(s, full, v).blocks, p) == Ideal(s.tokens)[p] {
      assert RowAt(kv, cfg.blockSize, s.blocks, p) == Ideal(s.tokens)[p];
      hide PublishedHold, HashProgress, LocalOk, RowsHold, BasicOk;
      PublishedRow(cfg, p0, q, kv, s, full, v, p);
    }
  }

  lemma PublishedRow(cfg: Config, p0: Pool, q: Pool, kv: Cache, s: Sequence, full: nat, v: seq<BlockId>, p: nat)
    requires cfg.blockSize > 0 && PublishedHold(cfg, q.hashOf, kv) && HashProgress(cfg, p0, q, s, full, v)
    requires p < s.computed && s.computed <= |s.tokens| && RowAt(kv, cfg.blockSize, s.blocks, p) == Ideal(s.tokens)[p]
    requires full == s.computed / cfg.blockSize && LocalOk(cfg, q.hashOf, Published(s, full, v)) && s.cachedBlocks <= full
    ensures RowAt(kv, cfg.blockSize, Published(s, full, v).blocks, p) == Ideal(s.tokens)[p]
  {
    hide *;
    var t, j := Published(s, full, v), p / cfg.blockSize;
    PublishedFields(s, full, v);
    ProgressShape(cfg, p0, q, s, full, v);
    if j < full {
      BlockEnds(s.computed, cfg.blockSize);
      LocalAt(cfg, q.hashOf, t, j);
      assert BlockEnd(j, cfg.blockSize) <= s.computed;
      CachedRow(cfg, q.hashOf, kv, t, p);
    } else {
      RowAtSame(kv, cfg.blockSize, s.blocks, v, p);
    }
  }

  lemma PublishedFields(s: Sequence, full: nat, v: seq<BlockId>)
    ensures var t := Published(s, full, v);
      t.blocks == v && t.tokens == s.tokens && t.cachedBlocks == full && t.tenant == s.tenant
  {}

  lemma ProgressShape(cfg: Config, p0: Pool, q: Pool, s: Sequence, full: nat, v: seq<BlockId>)
    requires cfg.blockSize > 0 && HashProgress(cfg, p0, q, s, full, v)
    ensures |v| == |s.blocks| && full <= |v| && forall j :: full <= j < |v| ==> v[j] == s.blocks[j]
  {}

  lemma LocalAt(cfg: Config, hashOf: seq<Option<BlockHash>>, s: Sequence, j: nat)
    requires cfg.blockSize > 0 && LocalOk(cfg, hashOf, s) && j < |s.blocks| && j < s.cachedBlocks
    ensures s.blocks[j] < |hashOf| && hashOf[s.blocks[j]] == Some(Address(cfg, s, j))
  {}

  lemma RowAtSame(kv: Cache, blockSize: nat, a: seq<BlockId>, b: seq<BlockId>, p: nat)
    requires blockSize > 0 && |a| == |b| && (p / blockSize < |a| ==> a[p / blockSize] == b[p / blockSize])
    ensures RowAt(kv, blockSize, a, p) == RowAt(kv, blockSize, b, p)
  {}

  lemma PublishActiveKv(cfg: Config, st: Sched, id: SeqId, kv: Cache)
    requires Core(cfg, st) && cfg.blockSize > 0 && KvOk(cfg, st, kv) && cfg.prefixCache && id in st.seqs && IsActive(st.seqs[id])
    requires st.seqs[id].computed / cfg.blockSize > st.seqs[id].cachedBlocks
    ensures KvOk(cfg, PublishOne(cfg, st, id), kv)
  {
    hide *;
    var s, full := st.seqs[id], st.seqs[id].computed / cfg.blockSize;
    var q, swaps := PublishOneIs(cfg, st, id);
    var v := Swapped(s.blocks, swaps);
    var t := PublishOne(cfg, st, id);
    PublishActiveCore(cfg, st, id);
    CoreParts(cfg, st);
    CoreParts(cfg, t);
    KvParts(cfg, st, kv);
    PublishingParts(cfg, st.pool, q, s, full, swaps);
    ReleaseAllHashes(q, Ours(swaps));
    SizesOk(st.pool);
    SizesOk(t.pool);
    TookSizes(st.pool, q, Canonicals(swaps));
    SeqHolds(cfg, st.seqs, kv, id);
    NewlyPublishedHold(cfg, st.pool, q, kv, s, full, v);
    BlocksParts(cfg, t.pool, t.seqs, id);
    PublishedRows(cfg, st.pool, q, kv, s, full, v);
    PublishedSame(s, full, v);
    OneHolds(cfg, st.seqs, id, t.seqs[id], t.seqs, kv);
    KvMade(cfg, t, kv);
  }

  lemma PublishedSame(s: Sequence, full: nat, v: seq<BlockId>)
    ensures Published(s, full, v).computed == s.computed && IsActive(Published(s, full, v)) == IsActive(s)
  {}

  lemma OneHolds(cfg: Config, seqs: map<SeqId, Sequence>, id: SeqId, t: Sequence, after: map<SeqId, Sequence>, kv: Cache)
    requires cfg.blockSize > 0 && SeqsHold(cfg, seqs, kv) && after == seqs[id := t] && (IsActive(t) ==> RowsHold(cfg.blockSize, kv, t, t.computed))
    ensures SeqsHold(cfg, after, kv)
  {
    hide RowsHold;
  }

  lemma PublishOneKv(cfg: Config, st: Sched, id: SeqId, kv: Cache)
    requires Core(cfg, st) && cfg.blockSize > 0 && KvOk(cfg, st, kv) && cfg.prefixCache
    ensures KvOk(cfg, PublishOne(cfg, st, id), kv)
  {
    if id in st.seqs && st.seqs[id].computed / cfg.blockSize > st.seqs[id].cachedBlocks {
      hide *;
      if IsActive(st.seqs[id]) {
        PublishActiveKv(cfg, st, id, kv);
      } else {
        PublishEmptyCore(cfg, st, id);
        var full := st.seqs[id].computed / cfg.blockSize;
        var t := st.(seqs := st.seqs[id := st.seqs[id].(cachedBlocks := full)]);
        KvParts(cfg, st, kv);
        CachedOnly(st.seqs[id], full);
        OneHolds(cfg, st.seqs, id, t.seqs[id], t.seqs, kv);
        KvMade(cfg, t, kv);
      }
    }
  }

  lemma CachedOnly(s: Sequence, full: nat)
    ensures IsActive(s.(cachedBlocks := full)) == IsActive(s)
  {}

  lemma {:induction false} PublishLoopKv(cfg: Config, st: Sched, ids: seq<SeqId>, kv: Cache)
    requires Core(cfg, st) && cfg.blockSize > 0 && KvOk(cfg, st, kv) && cfg.prefixCache
    ensures KvOk(cfg, PublishLoop(cfg, st, ids), kv)
    decreases |ids|
  {
    hide Core, KvOk, PublishOne;
    if ids != [] {
      PublishOneCore(cfg, st, ids[0]);
      PublishOneKv(cfg, st, ids[0], kv);
      PublishLoopKv(cfg, PublishOne(cfg, st, ids[0]), ids[1..], kv);
    }
  }

  /** Committing a step whose rows are written keeps every sequence reading its own text. */
  lemma CommitKvOk(cfg: Config, st: Sched, plan: Plan, sampled: seq<u32>, kv: Cache)
    requires Core(cfg, st) && cfg.blockSize > 0 && InFlight(cfg, st, plan) && |sampled| == |plan.sampledSeqs|
    requires KvOk(cfg, st, kv) && DoneUpto(cfg, st.seqs, plan, |plan.batchSeqs|, kv)
    ensures KvOk(cfg, Commit(cfg, st, plan, sampled), kv)
  {
    var s1 := AdvanceLoop(st, plan, 0);
    var s2 := AppendLoop(cfg, s1, plan.sampledSeqs, sampled);
    CommitUnfold(cfg, st, plan, sampled);
    hide *;
    KvParts(cfg, st, kv);
    InFlightParts(cfg, st, plan);
    SampledAtParts(plan);
    FlyingAdvances(cfg, st, plan);
    AdvanceLoopCore(cfg, st, plan, 0);
    AdvancedIs(st, plan);
    AdvanceHolds(cfg, st.seqs, plan, s1.seqs, kv);
    KvMade(cfg, s1, kv);
    CoreParts(cfg, s1);
    AppendLoopIs(cfg, s1, plan.sampledSeqs, sampled);
    AppendHolds(cfg, s1.seqs, plan.sampledSeqs, sampled, s2.seqs, kv);
    AppendHashes(cfg, s1, plan.sampledSeqs, sampled);
    KvMade(cfg, s2, kv);
    AppendLoopCore(cfg, s1, plan.sampledSeqs, sampled);
    if cfg.prefixCache {
      PublishLoopKv(cfg, s2, plan.batchSeqs, kv);
    }
  }

  lemma CommitUnfold(cfg: Config, st: Sched, plan: Plan, sampled: seq<u32>)
    requires cfg.blockSize > 0
    ensures var s2 := AppendLoop(cfg, AdvanceLoop(st, plan, 0), plan.sampledSeqs, sampled);
      Commit(cfg, st, plan, sampled) == if cfg.prefixCache then PublishLoop(cfg, s2, plan.batchSeqs) else s2
  {}

  lemma SampledAtParts(plan: Plan)
    requires SampledAt(plan)
    ensures NoDup(plan.sampledSeqs)
  {}

  lemma AdvancedIs(st: Sched, plan: Plan)
    requires NoDup(plan.batchSeqs)
    ensures var t := AdvanceLoop(st, plan, 0);
      AdvancedAll(st.seqs, plan, t.seqs) && t == st.(seqs := t.seqs)
  {
    AdvanceLoopIs(st, plan, 0);
    assert plan.batchSeqs[0..] == plan.batchSeqs;
    hide AdvanceLoop, Advanced;
  }
}
