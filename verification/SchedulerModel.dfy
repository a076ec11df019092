/** The continuous-batching scheduler as functions on a value
    (crates/vapi-engine/src/scheduler.rs). The class in Scheduler.dfy runs the
    same steps in place and is proved against these functions. */
module SchedulerModel {
  import opened Prelude
  import opened Hashing
  import opened PoolModel
  import opened Sequences

  datatype Config = Config(
    maxSeqs: nat,
    maxBatched: nat,
    chunk: nat,
    maxContext: nat,
    blockSize: nat,
    prefixCache: bool,
    eos: seq<u32>,
    hash: PrefixHash)

  datatype Sched = Sched(
    pool: Pool,
    seqs: map<SeqId, Sequence>,
    byRequest: map<RequestId, seq<SeqId>>,
    waiting: seq<SeqId>,
    running: seq<SeqId>,
    finished: seq<SeqId>,
    nextId: nat)

  /** `ForwardBatch`. */
  datatype Batch = Batch(
    tokens: seq<u32>,
    positions: seq<nat>,
    cuQ: seq<nat>,
    cuK: seq<nat>,
    slots: seq<nat>,
    tables: seq<seq<BlockId>>,
    logits: seq<nat>)

  datatype Plan = Plan(
    batch: Batch,
    batchSeqs: seq<SeqId>,
    sampledSeqs: seq<SeqId>,
    preempted: seq<SeqId>,
    started: seq<(SeqId, nat)>)

  const EmptyBatch := Batch([], [], [], [], [], [], [])
  const EmptyPlan := Plan(EmptyBatch, [], [], [], [])

  /** Scheduler, plan under construction and remaining token budget. */
  datatype Work = Work(st: Sched, plan: Plan, budget: nat)

  function NewScheduler(pool: Pool): Sched {
    Sched(pool, map[], map[], [], [], [], 0)
  }

  function Upto<T>(s: seq<T>, n: nat): seq<T> {
    if n <= |s| then s[..n] else s
  }

  function Min(a: nat, b: nat): nat { if a <= b then a else b }

  // ------------------------------------------------------------- admission

  datatype AdmitError = EmptyPrompt | ContextLengthExceeded

  function Listed(byRequest: map<RequestId, seq<SeqId>>, r: RequestId): seq<SeqId> {
    if r in byRequest then byRequest[r] else []
  }

  function Admit(cfg: Config, st: Sched, r: RequestId, prompt: seq<u32>, params: Params, tenant: Text): (Sched, Option<AdmitError>) {
    if prompt == [] then (st, Some(EmptyPrompt))
    else if |prompt| >= cfg.maxContext then (st, Some(ContextLengthExceeded))
    else
      var id := st.nextId;
      (st.(nextId := id + 1,
           byRequest := st.byRequest[r := Listed(st.byRequest, r) + [id]],
           seqs := st.seqs[id := NewSequence(r, prompt, params, tenant)],
           waiting := st.waiting + [id]), None)
  }

  // -------------------------------------------------------------- finishing

  function Finish(st: Sched, id: SeqId, reason: Reason): Sched {
    if id !in st.seqs || IsFinished(st.seqs[id]) then st
    else
      var s := st.seqs[id];
      st.(seqs := st.seqs[id := s.(status := Finished(reason), blocks := [])],
          pool := ReleaseAll(st.pool, s.blocks),
          running := Without(st.running, id),
          waiting := Without(st.waiting, id),
          finished := st.finished + [id])
  }

  function FinishAll(st: Sched, ids: seq<SeqId>, reason: Reason): Sched
    decreases |ids|
  {
    if ids == [] then st else FinishAll(Finish(st, ids[0], reason), ids[1..], reason)
  }

  function Cancel(st: Sched, r: RequestId): Sched {
    FinishAll(st, Listed(st.byRequest, r), Cancelled)
  }

  function DropFromRequest(byRequest: map<RequestId, seq<SeqId>>, r: RequestId, id: SeqId): map<RequestId, seq<SeqId>> {
    if r !in byRequest then byRequest
    else if Without(byRequest[r], id) == [] then byRequest - {r}
    else byRequest[r := Without(byRequest[r], id)]
  }

  function DrainList(st: Sched, ids: seq<SeqId>): Sched
    decreases |ids|
  {
    if ids == [] then st
    else if ids[0] !in st.seqs then DrainList(st, ids[1..])
    else
      var s := st.seqs[ids[0]];
      DrainList(st.(seqs := st.seqs - {ids[0]}, byRequest := DropFromRequest(st.byRequest, s.request, ids[0])), ids[1..])
  }

  function Drain(st: Sched): Sched {
    DrainList(st.(finished := []), st.finished)
  }

  // ------------------------------------------------------- batch building

  function Slot(blockSize: nat, blocks: seq<BlockId>, p: nat): nat
    requires blockSize > 0
  {
    if p / blockSize < |blocks| then blocks[p / blockSize] * blockSize + p % blockSize else 0
  }

  function Positions(start: nat, q: nat): (r: seq<nat>)
    ensures |r| == q && forall i :: 0 <= i < q ==> r[i] == start + i
  {
    seq(q, (i: nat) => start + i)
  }

  function Slots(blockSize: nat, blocks: seq<BlockId>, start: nat, q: nat): (r: seq<nat>)
    requires blockSize > 0
    ensures |r| == q && forall i :: 0 <= i < q ==> r[i] == Slot(blockSize, blocks, start + i)
    decreases q
  {
    if q == 0 then [] else Slots(blockSize, blocks, start, q - 1) + [Slot(blockSize, blocks, start + q - 1)]
  }

  function LastOr0(s: seq<nat>): nat { if s == [] then 0 else s[|s| - 1] }

  /** `push_seq_into_batch`. The program would slice past the end of a text shorter than `computed + q` and stop; the
      plan is then left alone here. No run comes to that (Rounds.PushSeqOk), but the state a failed fork leaves does
      (Shortfalls.FailedForkStrandsIff). */
  function PushSeq(cfg: Config, st: Sched, id: SeqId, q: nat, plan: Plan): Plan
    requires cfg.blockSize > 0
  {
    if id !in st.seqs || st.seqs[id].computed + q > |st.seqs[id].tokens| then plan
    else
      var s := st.seqs[id];
      var b := plan.batch;
      var start := s.computed;
      var seeded := if b.cuQ == [] then b.(cuQ := b.cuQ + [0], cuK := b.cuK + [0]) else b;
      var tokens := b.tokens + s.tokens[start..start + q];
      var completes := start + q >= |s.tokens|;
      plan.(
        batch := Batch(
          tokens,
          b.positions + Positions(start, q),
          seeded.cuQ + [LastOr0(seeded.cuQ) + q],
          seeded.cuK + [LastOr0(seeded.cuK) + start + q],
          b.slots + Slots(cfg.blockSize, s.blocks, start, q),
          b.tables + [s.blocks],
          if completes && |tokens| > 0 then b.logits + [|tokens| - 1] else b.logits),
        batchSeqs := plan.batchSeqs + [id],
        sampledSeqs := if completes then plan.sampledSeqs + [id] else plan.sampledSeqs)
  }

  /** Give `id` up to `k` more blocks; false when the pool runs dry. */
  function ExtendBy(st: Sched, id: SeqId, k: nat): (Sched, bool)
    decreases k
  {
    if k == 0 || id !in st.seqs then (st, true)
    else
      var (pool, got) := Allocate(st.pool);
      if got.None? then (st, false)
      else
        var s := st.seqs[id];
        ExtendBy(st.(pool := pool, seqs := st.seqs[id := s.(blocks := s.blocks + [got.value])]), id, k - 1)
  }

  function TryExtend(cfg: Config, st: Sched, id: SeqId, extra: nat): (Sched, bool)
    requires cfg.blockSize > 0
  {
    if id !in st.seqs then (st, true)
    else
      var need := BlocksFor(cfg.blockSize, st.seqs[id].computed + extra);
      var have := |st.seqs[id].blocks|;
      ExtendBy(st, id, if need > have then need - have else 0)
  }

  function Preempt(st: Sched, id: SeqId): Sched {
    if id !in st.seqs then st
    else
      st.(pool := ReleaseAll(st.pool, st.seqs[id].blocks),
          seqs := st.seqs[id := ResetForRecompute(st.seqs[id])],
          running := Without(st.running, id),
          waiting := [id] + st.waiting)
  }

  // ------------------------------------------------------------- schedule

  /** One turn of `schedule_decodes`; the flag says whether `id` survives. */
  function DecodeOne(cfg: Config, w: Work, id: SeqId): (Work, bool)
    requires cfg.blockSize > 0
  {
    if id !in w.st.seqs || IsFinished(w.st.seqs[id]) then (w, false)
    else if NeedsPrefill(w.st.seqs[id]) || w.budget == 0 then (w, true)
    else
      var (st, ok) := TryExtend(cfg, w.st, id, 1);
      if ok then (Work(st, PushSeq(cfg, st, id, 1, w.plan), w.budget - 1), true)
      else (Work(Preempt(st, id), w.plan.(preempted := w.plan.preempted + [id]), w.budget), false)
  }

  function DecodeLoop(cfg: Config, w: Work, ids: seq<SeqId>, survivors: seq<SeqId>): (Work, seq<SeqId>)
    requires cfg.blockSize > 0
    decreases |ids|
  {
    if ids == [] then (w, survivors)
    else
      var (w', keep) := DecodeOne(cfg, w, ids[0]);
      DecodeLoop(cfg, w', ids[1..], if keep then survivors + [ids[0]] else survivors)
  }

  function ScheduleDecodes(cfg: Config, w: Work): Work
    requires cfg.blockSize > 0
  {
    var (w', survivors) := DecodeLoop(cfg, w.(st := w.st.(running := [])), w.st.running, []);
    w'.(st := w'.st.(running := survivors))
  }

  function PrefillChunk(cfg: Config, w: Work, id: SeqId): Work
    requires cfg.blockSize > 0
  {
    if id !in w.st.seqs then w
    else
      var q := Min(Min(RemainingPrefill(w.st.seqs[id]), cfg.chunk), w.budget);
      if q == 0 then w
      else
        var (st, ok) := TryExtend(cfg, w.st, id, q);
        if ok then Work(st, PushSeq(cfg, st, id, q, w.plan), w.budget - q)
        else Work(Preempt(st, id), w.plan.(preempted := w.plan.preempted + [id]), w.budget)
  }

  /** Running sequences that are still prefilling go on first. */
  function ContinueLoop(cfg: Config, w: Work, ids: seq<SeqId>): Work
    requires cfg.blockSize > 0
    decreases |ids|
  {
    if ids == [] || w.budget == 0 then w
    else
      var id := ids[0];
      if id !in w.st.seqs || !NeedsPrefill(w.st.seqs[id]) || IsFinished(w.st.seqs[id]) then ContinueLoop(cfg, w, ids[1..])
      else ContinueLoop(cfg, PrefillChunk(cfg, w, id), ids[1..])
  }

  /** The carve-out: a fully cached prompt gives its last block back. */
  function GiveBack(p: Pool, matched: seq<BlockId>, target: nat): (Pool, seq<BlockId>)
    decreases |matched|
  {
    if |matched| * p.blockSize >= target && matched != [] then
      GiveBack(Release(p, matched[|matched| - 1]), matched[..|matched| - 1], target)
    else (p, matched)
  }

  /** Allocate `n` blocks onto `blocks`; false when the pool runs dry. */
  function AllocateMany(p: Pool, blocks: seq<BlockId>, n: nat): (Pool, seq<BlockId>, bool)
    decreases n
  {
    if n == 0 then (p, blocks, true)
    else
      var (q, got) := Allocate(p);
      if got.None? then (p, blocks, false) else AllocateMany(q, blocks + [got.value], n - 1)
  }

  /** The addresses `hash_block_chain` computes for the first `len` tokens. */
  function Addresses(cfg: Config, tenant: Text, tokens: seq<u32>, len: nat): (r: seq<BlockHash>)
    requires cfg.blockSize > 0
    ensures |r| == len / cfg.blockSize
    ensures forall k :: 0 <= k < |r| ==> r[k] == cfg.hash(tenant, Upto(tokens, BlockEnd(k, cfg.blockSize)))
  {
    seq(len / cfg.blockSize, (k: nat) => cfg.hash(tenant, Upto(tokens, BlockEnd(k, cfg.blockSize))))
  }

  function TryStart(cfg: Config, st: Sched, id: SeqId): (Sched, bool)
    requires cfg.blockSize > 0
  {
    if id !in st.seqs then (st, false)
    else
      var s := st.seqs[id];
      var (p1, got) := if cfg.prefixCache then MatchPrefix(st.pool, Addresses(cfg, s.tenant, s.tokens, s.target)) else (st.pool, []);
      var (p2, matched) := if cfg.prefixCache then GiveBack(p1, got, s.target) else (p1, got);
      var total := BlocksFor(cfg.blockSize, s.target + 1);
      var missing := if total > |matched| then total - |matched| else 0;
      if !CanAllocate(p2, missing) then (st.(pool := ReleaseAll(p2, matched)), false)
      else
        var (p3, blocks, ok) := AllocateMany(p2, matched, missing);
        if !ok then (st.(pool := ReleaseAll(p3, blocks)), false)
        else
          var s' := AdoptCachedPrefix(s, matched, |matched| * cfg.blockSize).(blocks := blocks, status := Prefilling);
          (st.(pool := p3, seqs := st.seqs[id := s']), true)
  }

  function StartLoop(cfg: Config, w: Work): Work
    requires cfg.blockSize > 0
    decreases |w.st.waiting|
  {
    if w.budget == 0 || |w.st.running| >= cfg.maxSeqs || w.st.waiting == [] then w
    else
      var id := w.st.waiting[0];
      var popped := w.st.(waiting := w.st.waiting[1..]);
      if id !in popped.seqs || IsFinished(popped.seqs[id]) then StartLoop(cfg, w.(st := popped))
      else
        var (st, ok) := TryStart(cfg, popped, id);
        if !ok then w.(st := st.(waiting := [id] + st.waiting))
        else
          var cached := if id in st.seqs then st.seqs[id].cachedTokens else 0;
          var w1 := Work(st.(running := st.running + [id]), w.plan.(started := w.plan.started + [(id, cached)]), w.budget);
          var w2 := PrefillChunk(cfg, w1, id);
          // A chunk of a sequence just started never preempts it (StartedChunkFits).
          if |w2.st.waiting| < |w.st.waiting| then StartLoop(cfg, w2) else w2
  }

  function SchedulePrefills(cfg: Config, w: Work): Work
    requires cfg.blockSize > 0
  {
    StartLoop(cfg, ContinueLoop(cfg, w, w.st.running))
  }

  function Schedule(cfg: Config, st: Sched): (Sched, Plan)
    requires cfg.blockSize > 0
  {
    var w := SchedulePrefills(cfg, ScheduleDecodes(cfg, Work(st, EmptyPlan, cfg.maxBatched)));
    (w.st, w.plan)
  }

  // --------------------------------------------------------------- commit

  function RowLen(b: Batch, i: nat): nat {
    if i + 1 < |b.cuQ| && b.cuQ[i + 1] >= b.cuQ[i] then b.cuQ[i + 1] - b.cuQ[i] else 0
  }

  function Advanced(s: Sequence, q: nat): Sequence {
    var t := AdvanceComputed(s, q);
    if !NeedsPrefill(t) && t.status == Prefilling then t.(status := Decoding) else t
  }

  function AdvanceLoop(st: Sched, plan: Plan, i: nat): Sched
    decreases |plan.batchSeqs| - i
  {
    if i >= |plan.batchSeqs| then st
    else
      var id := plan.batchSeqs[i];
      var st' := if id in st.seqs then st.(seqs := st.seqs[id := Advanced(st.seqs[id], RowLen(plan.batch, i))]) else st;
      AdvanceLoop(st', plan, i + 1)
  }

  function AppendOne(cfg: Config, st: Sched, id: SeqId, token: u32): Sched {
    if id !in st.seqs then st
    else
      var s := PushToken(st.seqs[id], token);
      var st' := st.(seqs := st.seqs[id := s]);
      match CheckFinished(s, cfg.eos, cfg.maxContext)
      case None => st'
      case Some(reason) => Finish(st', id, reason)
  }

  function AppendLoop(cfg: Config, st: Sched, ids: seq<SeqId>, sampled: seq<u32>): Sched
    decreases |ids|
  {
    if ids == [] || sampled == [] then st
    else AppendLoop(cfg, AppendOne(cfg, st, ids[0], sampled[0]), ids[1..], sampled[1..])
  }

  /** Publish blocks `i..full` of one sequence, remembering which must be swapped. */
  function PublishRange(cfg: Config, p: Pool, s: Sequence, i: nat, full: nat, swaps: seq<(nat, BlockId, BlockId)>)
      : (Pool, seq<(nat, BlockId, BlockId)>)
    requires cfg.blockSize > 0
    decreases full - i
  {
    if i >= full then (p, swaps)
    else if i >= |s.blocks| then PublishRange(cfg, p, s, i + 1, full, swaps)
    else
      var b := s.blocks[i];
      var (q, canonical) := Publish(p, b, cfg.hash(s.tenant, Upto(s.tokens, BlockEnd(i, cfg.blockSize))));
      PublishRange(cfg, q, s, i + 1, full, if canonical != b then swaps + [(i, b, canonical)] else swaps)
  }

  function ApplySwaps(p: Pool, blocks: seq<BlockId>, swaps: seq<(nat, BlockId, BlockId)>): (Pool, seq<BlockId>)
    decreases |swaps|
  {
    if swaps == [] then (p, blocks)
    else
      var (i, ours, canonical) := swaps[0];
      if i >= |blocks| then ApplySwaps(p, blocks, swaps[1..])
      else ApplySwaps(Release(p, ours), blocks[i := canonical], swaps[1..])
  }

  function PublishOne(cfg: Config, st: Sched, id: SeqId): Sched
    requires cfg.blockSize > 0
  {
    if id !in st.seqs then st
    else
      var s := st.seqs[id];
      var full := s.computed / cfg.blockSize;
      if full <= s.cachedBlocks then st
      else
        var (p1, swaps) := PublishRange(cfg, st.pool, s, s.cachedBlocks, full, []);
        var (p2, blocks) := ApplySwaps(p1, s.blocks, swaps);
        st.(pool := p2, seqs := st.seqs[id := s.(cachedBlocks := full, blocks := blocks)])
  }

  function PublishLoop(cfg: Config, st: Sched, ids: seq<SeqId>): Sched
    requires cfg.blockSize > 0
    decreases |ids|
  {
    if ids == [] then st else PublishLoop(cfg, PublishOne(cfg, st, ids[0]), ids[1..])
  }

  function Commit(cfg: Config, st: Sched, plan: Plan, sampled: seq<u32>): Sched
    requires cfg.blockSize > 0
  {
    var st1 := AdvanceLoop(st, plan, 0);
    var st2 := AppendLoop(cfg, st1, plan.sampledSeqs, sampled);
    if cfg.prefixCache then PublishLoop(cfg, st2, plan.batchSeqs) else st2
  }

  // ----------------------------------------------------------------- fork

  datatype ForkError = NoSuchSequence | NotPrefilled | NoBlocks

  /** What `fork` hands back: the children and the blocks the backend must copy. */
  datatype Fork = Fork(ids: seq<SeqId>, copies: seq<(BlockId, BlockId)>)

  function IncRefAll(p: Pool, blocks: seq<BlockId>): Pool
    decreases |blocks|
  {
    if blocks == [] then p else IncRefAll(IncRef(p, blocks[0]), blocks[1..])
  }

  /** The scheduler, what was built so far, and the error that stopped it, if any. */
  function ForkLoop(cfg: Config, st: Sched, s: Sequence, extra: nat, out: Fork): (Sched, Fork, Option<ForkError>)
    requires cfg.blockSize > 0
    decreases extra
  {
    if extra == 0 then (st, out, None)
    else
      var full := s.computed / cfg.blockSize;
      var shared := Upto(s.blocks, full);
      var p1 := IncRefAll(st.pool, shared);
      var (p2, got) := if |s.blocks| > full then AllocateGuarded(p1) else (p1, None);
      if |s.blocks| > full && got.None? then (st.(pool := p2), out, Some(NoBlocks))
      else
        var copies := if got.Some? && full < |s.blocks| && s.computed % cfg.blockSize != 0 then out.copies + [(s.blocks[full], got.value)] else out.copies;
        var blocks := if got.Some? then shared + [got.value] else shared;
        var id := st.nextId;
        var child := AdoptPrefilled(NewSequence(s.request, Upto(s.tokens, s.promptLen), s.params, s.tenant), blocks, s.computed, s.cachedBlocks);
        var st' := st.(
          pool := p2,
          nextId := id + 1,
          seqs := st.seqs[id := child],
          byRequest := st.byRequest[s.request := Listed(st.byRequest, s.request) + [id]],
          running := st.running + [id]);
        ForkLoop(cfg, st', s, extra - 1, Fork(out.ids + [id], copies))
  }

  function ForkSeq(cfg: Config, st: Sched, parent: SeqId, extra: nat): (Sched, Fork, Option<ForkError>)
    requires cfg.blockSize > 0
  {
    if parent !in st.seqs then (st, Fork([], []), Some(NoSuchSequence))
    else if NeedsPrefill(st.seqs[parent]) then (st, Fork([], []), Some(NotPrefilled))
    else ForkLoop(cfg, st, st.seqs[parent], extra, Fork([], []))
  }

  function ExtendGuarded(st: Sched, id: SeqId, k: nat): (Sched, bool)
    decreases k
  {
    if k == 0 || id !in st.seqs then (st, true)
    else
      var (pool, got) := AllocateGuarded(st.pool);
      if got.None? then (st, false)
      else
        var s := st.seqs[id];
        ExtendGuarded(st.(pool := pool, seqs := st.seqs[id := s.(blocks := s.blocks + [got.value])]), id, k - 1)
  }

  function SeedFork(cfg: Config, st: Sched, id: SeqId, token: u32): (Sched, Option<ForkError>)
    requires cfg.blockSize > 0
  {
    if id !in st.seqs then (st, Some(NoSuchSequence))
    else
      var s := PushToken(st.seqs[id], token);
      var need := BlocksFor(cfg.blockSize, s.computed + 1);
      var have := |s.blocks|;
      var (st', ok) := ExtendGuarded(st.(seqs := st.seqs[id := s]), id, if need > have then need - have else 0);
      (st', if ok then None else Some(NoBlocks))
  }
}
