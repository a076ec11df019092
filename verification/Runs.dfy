/** Whole runs of the engine: any interleaving of arrivals, cancellations, steps and forks.

    A step of the engine is two events: `Launch` schedules a batch and forwards it, `Land` commits what was
    sampled from it. Arrivals, cancellations, stop strings and reports may fall between the two. */
module Runs {
  import opened Prelude
  import opened Hashing
  import opened PoolModel
  import opened Sequences
  import opened SchedulerModel
  import opened Invariants
  import opened CoreSteps
  import opened Rounds
  import opened Scheduling
  import opened Committing
  import opened Kv
  import opened Transparency
  import opened ForwardPass
  import opened Forking
  import opened ForkSeeding
  import opened Batches

  // --------------------------------------------------------------- worlds

  /** A step under way: its plan and, for each logit, the rows the model computed it from. */
  datatype Flight = Flight(plan: Plan, contexts: seq<seq<Row>>)

  datatype World = World(st: Sched, kv: Cache, flight: Option<Flight>)

  datatype Step =
    | AdmitRequest(request: RequestId, prompt: seq<u32>, params: Params, tenant: Text)
    | CancelRequest(request: RequestId)
    | FinishWith(id: SeqId, reason: Reason)
    | DrainFinished
    | Launch
    | Land(sampled: seq<u32>)
    | ForkAt(parent: SeqId, tokens: seq<u32>)

  /** The row of the batch that token `j` belongs to. */
  function RowIndex(cuQ: seq<nat>, j: nat, n: nat): (i: nat)
    requires n < |cuQ|
    ensures cuQ[0] == 0 && j < cuQ[n] ==> i < n && cuQ[i] <= j < cuQ[i + 1]
    decreases n
  {
    if n == 0 || j >= cuQ[n - 1] then if n == 0 then 0 else n - 1 else RowIndex(cuQ, j, n - 1)
  }

  /** What logit `k` is computed from: everything its token attends to, itself included. */
  function LogitContext(kv: Cache, blockSize: nat, b: Batch, k: nat): seq<Row>
    requires blockSize > 0
  {
    if k < |b.logits| && b.logits[k] < |b.positions| && b.cuQ != [] && RowIndex(b.cuQ, b.logits[k], |b.cuQ| - 1) < |b.tables|
    then Gather(kv, blockSize, b.tables[RowIndex(b.cuQ, b.logits[k], |b.cuQ| - 1)], b.positions[b.logits[k]] + 1)
    else []
  }

  function Contexts(kv: Cache, blockSize: nat, b: Batch): (r: seq<seq<Row>>)
    requires blockSize > 0
    ensures |r| == |b.logits| && forall k :: 0 <= k < |r| ==> r[k] == LogitContext(kv, blockSize, b, k)
  {
    seq(|b.logits|, (k: nat) => LogitContext(kv, blockSize, b, k))
  }

  function LaunchStep(cfg: Config, w: World): World
    requires cfg.blockSize > 0
  {
    var (st, plan) := Schedule(cfg, w.st);
    var kv := Forward(w.kv, cfg.blockSize, plan.batch, 0);
    World(st, kv, Some(Flight(plan, Contexts(kv, cfg.blockSize, plan.batch))))
  }

  function Take(cfg: Config, w: World, step: Step): World
    requires cfg.blockSize > 0
  {
    match step
    case AdmitRequest(r, prompt, params, tenant) => w.(st := Admit(cfg, w.st, r, prompt, params, tenant).0)
    case CancelRequest(r) => w.(st := Cancel(w.st, r))
    case FinishWith(id, reason) => w.(st := Finish(w.st, id, reason))
    case DrainFinished => w.(st := Drain(w.st))
    case Launch => LaunchStep(cfg, w)
    case Land(sampled) => if w.flight.None? then w else World(Commit(cfg, w.st, w.flight.value.plan, sampled), w.kv, None)
    case ForkAt(parent, tokens) =>
      var (st, kv, _) := ForkStep(cfg, w.st, w.kv, parent, tokens);
      World(st, kv, w.flight)
  }

  /** What the engine's loop guarantees of each event: one step at a time, one token per logit, and forks
      only of live sequences that have just finished their prompt, with the blocks for it. */
  ghost predicate Enabled(cfg: Config, w: World, step: Step) {
    match step
    case Launch => w.flight.None?
    case Land(sampled) => w.flight.Some? && |sampled| == |w.flight.value.plan.sampledSeqs|
    case ForkAt(parent, tokens) =>
      w.flight.None? && parent in w.st.seqs && ForkParent(cfg, w.st.seqs[parent])
      && (tokens == [] || |w.st.pool.free| >= |tokens| + w.st.pool.watermark)
    case _ => true
  }

  function Play(cfg: Config, w: World, steps: seq<Step>): World
    requires cfg.blockSize > 0
    decreases |steps|
  {
    if steps == [] then w else Play(cfg, Take(cfg, w, steps[0]), steps[1..])
  }

  ghost predicate Legal(cfg: Config, w: World, steps: seq<Step>)
    requires cfg.blockSize > 0
    decreases |steps|
  {
    steps == [] || (Enabled(cfg, w, steps[0]) && Legal(cfg, Take(cfg, w, steps[0]), steps[1..]))
  }

  /** A fresh engine over a cache that holds anything at all. */
  ghost predicate Boot(cfg: Config, w: World) {
    cfg.blockSize > 0 && CollisionFree(cfg.hash, cfg.blockSize)
    && (exists n: nat, watermark: nat :: w.st == NewScheduler(NewPool(n, cfg.blockSize, watermark)))
    && CacheShape(w.kv, |w.st.pool.refs|, cfg.blockSize) && w.flight.None?
  }

  // ---------------------------------------------------------- the invariant

  /** Sampled sequences were computed from their own text, which has not changed since. */
  ghost predicate ContextsOk(seqs: map<SeqId, Sequence>, f: Flight) {
    |f.contexts| == |f.plan.sampledSeqs|
    && forall k :: 0 <= k < |f.contexts| && f.plan.sampledSeqs[k] in seqs ==> f.contexts[k] == Ideal(seqs[f.plan.sampledSeqs[k]].tokens)
  }

  ghost predicate FlightOk(cfg: Config, st: Sched, kv: Cache, f: Flight)
    requires cfg.blockSize > 0
  {
    InFlight(cfg, st, f.plan) && DoneUpto(cfg, st.seqs, f.plan, |f.plan.batchSeqs|, kv) && ContextsOk(st.seqs, f)
    && (forall id :: id in f.plan.sampledSeqs ==> id < st.nextId)
  }

  ghost predicate WorldOk(cfg: Config, w: World) {
    cfg.blockSize > 0 && Round(cfg, w.st) && KvOk(cfg, w.st, w.kv)
    && (w.flight.Some? ==> FlightOk(cfg, w.st, w.kv, w.flight.value))
  }

  lemma WorldParts(cfg: Config, w: World)
    requires WorldOk(cfg, w)
    ensures cfg.blockSize > 0 && Round(cfg, w.st) && KvOk(cfg, w.st, w.kv) && (w.flight.Some? ==> FlightOk(cfg, w.st, w.kv, w.flight.value))
  {
    hide Round, KvOk, FlightOk;
  }

  lemma WorldMade(cfg: Config, w: World)
    requires cfg.blockSize > 0 && Round(cfg, w.st) && KvOk(cfg, w.st, w.kv) && (w.flight.Some? ==> FlightOk(cfg, w.st, w.kv, w.flight.value))
    ensures WorldOk(cfg, w)
  {
    hide Round, KvOk, FlightOk;
  }

  lemma FlightParts(cfg: Config, st: Sched, kv: Cache, f: Flight)
    requires cfg.blockSize > 0 && FlightOk(cfg, st, kv, f)
    ensures InFlight(cfg, st, f.plan) && DoneUpto(cfg, st.seqs, f.plan, |f.plan.batchSeqs|, kv) && ContextsOk(st.seqs, f)
    ensures forall id :: id in f.plan.sampledSeqs ==> id < st.nextId
  {
    hide InFlight, DoneUpto, ContextsOk;
  }

  lemma FlightMade(cfg: Config, st: Sched, kv: Cache, f: Flight)
    requires cfg.blockSize > 0 && InFlight(cfg, st, f.plan) && DoneUpto(cfg, st.seqs, f.plan, |f.plan.batchSeqs|, kv) && ContextsOk(st.seqs, f)
    requires forall id :: id in f.plan.sampledSeqs ==> id < st.nextId
    ensures FlightOk(cfg, st, kv, f)
  {
    hide InFlight, DoneUpto, ContextsOk;
  }

  // ------------------------------------------- events beside the main loop

  /** Sequences known before either stay as they were, or finish with their text intact, or are gone;
      new ones are not yet running. */
  ghost predicate Beside(st: Sched, t: Sched) {
    t.nextId >= st.nextId && t.pool.hashOf == st.pool.hashOf && |t.pool.refs| == |st.pool.refs|
    && forall id :: id in t.seqs ==>
         (id >= st.nextId && !IsActive(t.seqs[id]) && Generated(t.seqs[id]) == 0)
         || (id in st.seqs && (t.seqs[id] == st.seqs[id] || (IsFinished(t.seqs[id]) && t.seqs[id] == st.seqs[id].(status := t.seqs[id].status, blocks := []))))
  }

  lemma BesideKv(cfg: Config, st: Sched, t: Sched, kv: Cache)
    requires cfg.blockSize > 0 && KvOk(cfg, st, kv) && Beside(st, t)
    ensures KvOk(cfg, t, kv)
  {
    hide RowsHold, PublishedHold;
  }

  lemma BesideInFlight(cfg: Config, st: Sched, t: Sched, plan: Plan)
    requires cfg.blockSize > 0 && InFlight(cfg, st, plan) && Beside(st, t)
    ensures InFlight(cfg, t, plan)
  {
    hide Shape, SampledAt, RowOk;
  }

  lemma BesideDone(cfg: Config, st: Sched, t: Sched, plan: Plan, kv: Cache)
    requires cfg.blockSize > 0 && InFlight(cfg, st, plan) && Beside(st, t) && DoneUpto(cfg, st.seqs, plan, |plan.batchSeqs|, kv)
    ensures DoneUpto(cfg, t.seqs, plan, |plan.batchSeqs|, kv)
  {
    hide RowsHold, Flying, Shape, SampledAt;
  }

  lemma BesideContexts(st: Sched, t: Sched, f: Flight)
    requires ContextsOk(st.seqs, f) && Beside(st, t) && forall id :: id in f.plan.sampledSeqs ==> id < st.nextId
    ensures ContextsOk(t.seqs, f)
  {
    assert forall k :: 0 <= k < |f.plan.sampledSeqs| ==> f.plan.sampledSeqs[k] in f.plan.sampledSeqs;
  }

  lemma BesideOk(cfg: Config, w: World, t: Sched)
    requires WorldOk(cfg, w) && Round(cfg, t) && Beside(w.st, t)
    ensures WorldOk(cfg, w.(st := t))
  {
    hide *;
    WorldParts(cfg, w);
    BesideKv(cfg, w.st, t, w.kv);
    if w.flight.Some? {
      var f := w.flight.value;
      FlightParts(cfg, w.st, w.kv, f);
      BesideInFlight(cfg, w.st, t, f.plan);
      BesideDone(cfg, w.st, t, f.plan, w.kv);
      BesideContexts(w.st, t, f);
      BesideNext(w.st, t);
      FlightMade(cfg, t, w.kv, f);
    }
    WorldMade(cfg, w.(st := t));
  }

  lemma BesideNext(st: Sched, t: Sched)
    requires Beside(st, t)
    ensures t.nextId >= st.nextId
  {}

  lemma AdmitBeside(cfg: Config, st: Sched, r: RequestId, prompt: seq<u32>, params: Params, tenant: Text)
    ensures Beside(st, Admit(cfg, st, r, prompt, params, tenant).0)
  {}

  lemma FinishBeside(st: Sched, id: SeqId, reason: Reason)
    ensures Beside(st, Finish(st, id, reason))
  {
    if id in st.seqs {
      ReleaseAllHashes(st.pool, st.seqs[id].blocks);
    }
    hide ReleaseAll;
  }

  lemma BesideTwice(a: Sched, b: Sched, c: Sched)
    requires Beside(a, b) && Beside(b, c) && b.nextId == a.nextId && c.nextId == a.nextId
    ensures Beside(a, c)
  {}

  lemma FinishNext(st: Sched, id: SeqId, reason: Reason)
    ensures Finish(st, id, reason).nextId == st.nextId
  {}

  lemma {:induction false} FinishAllBeside(st: Sched, ids: seq<SeqId>, reason: Reason)
    ensures Beside(st, FinishAll(st, ids, reason)) && FinishAll(st, ids, reason).nextId == st.nextId
    decreases |ids|
  {
    if ids == [] {
      assert Beside(st, st);
    } else {
      FinishBeside(st, ids[0], reason);
      FinishNext(st, ids[0], reason);
      hide Finish, Beside;
      FinishAllBeside(Finish(st, ids[0], reason), ids[1..], reason);
      BesideTwice(st, Finish(st, ids[0], reason), FinishAll(Finish(st, ids[0], reason), ids[1..], reason));
    }
  }

  lemma DrainBeside(st: Sched)
    ensures Beside(st, Drain(st))
  {
    DrainListFinished(st.(finished := []), st.finished);
    DrainKeeps(st.(finished := []), st.finished);
    hide DrainList;
  }

  // --------------------------------------------------------------- launching

  lemma LogitRow(cfg: Config, seqs: map<SeqId, Sequence>, plan: Plan, k: nat) returns (i: nat)
    requires cfg.blockSize > 0 && PlanOk(cfg, seqs, plan) && Framed(plan.batch) && k < |plan.batch.logits|
    ensures k < |plan.sampledSeqs| && i < |plan.batchSeqs| && plan.batchSeqs[i] == plan.sampledSeqs[k] && plan.batchSeqs[i] in seqs
    ensures i + 1 < |plan.batch.cuQ| && plan.batch.logits[k] + 1 == plan.batch.cuQ[i + 1] && RowOk(cfg, seqs[plan.batchSeqs[i]], plan.batch, i)
    ensures seqs[plan.batchSeqs[i]].computed + RowLen(plan.batch, i) == |seqs[plan.batchSeqs[i]].tokens|
  {
    hide RowOk;
    assert plan.sampledSeqs[k] in plan.batchSeqs;
    i :| 0 <= i < |plan.batchSeqs| && plan.batchSeqs[i] == plan.sampledSeqs[k];
    assert plan.batch.logits[k] + 1 == plan.batch.cuQ[i + 1];
    assert plan.sampledSeqs[k] in plan.sampledSeqs;
  }

  lemma RowIndexIs(cuQ: seq<nat>, j: nat, i: nat)
    requires Monotone(cuQ) && i + 1 < |cuQ| && cuQ[0] == 0 && cuQ[i] <= j < cuQ[i + 1]
    ensures RowIndex(cuQ, j, |cuQ| - 1) == i
  {
    assert j < cuQ[|cuQ| - 1];
    assert forall a, b :: 0 <= a < b < |cuQ| ==> cuQ[a] <= cuQ[b];
  }

  lemma LastOfRow(cfg: Config, s: Sequence, b: Batch, i: nat)
    requires cfg.blockSize > 0 && RowOk(cfg, s, b, i)
    ensures b.cuQ[i + 1] - 1 < |b.positions| && b.positions[b.cuQ[i + 1] - 1] == s.computed + RowLen(b, i) - 1 && b.tables[i] == s.blocks && b.cuQ[i] < b.cuQ[i + 1]
  {
    var lo, hi := b.cuQ[i], b.cuQ[i + 1];
    assert b.positions[lo..hi][hi - lo - 1] == b.positions[hi - 1];
  }

  /** Every logit is computed from the rows of its own sequence's text, the whole of it and nothing else. */
  lemma LogitContextIs(cfg: Config, seqs: map<SeqId, Sequence>, plan: Plan, kv: Cache, k: nat)
    requires cfg.blockSize > 0 && PlanOk(cfg, seqs, plan) && Framed(plan.batch) && Rows(plan.batch) == |plan.batchSeqs| && k < |plan.batch.logits|
    requires DoneUpto(cfg, seqs, plan, |plan.batchSeqs|, kv)
    ensures k < |plan.sampledSeqs| && plan.sampledSeqs[k] in seqs && LogitContext(kv, cfg.blockSize, plan.batch, k) == Ideal(seqs[plan.sampledSeqs[k]].tokens)
  {
    var i := LogitRow(cfg, seqs, plan, k);
    var s, b := seqs[plan.batchSeqs[i]], plan.batch;
    LastOfRow(cfg, s, b, i);
    assert IsActive(s);
    assert RowsHold(cfg.blockSize, kv, s, |s.tokens|);
    hide RowOk, PlanOk, DoneUpto;
    RowIndexIs(b.cuQ, b.logits[k], i);
    assert Gather(kv, cfg.blockSize, s.blocks, |s.tokens|) == Ideal(s.tokens);
  }

  lemma ContextsAre(cfg: Config, seqs: map<SeqId, Sequence>, plan: Plan, kv: Cache)
    requires cfg.blockSize > 0 && PlanOk(cfg, seqs, plan) && Framed(plan.batch) && Rows(plan.batch) == |plan.batchSeqs|
    requires DoneUpto(cfg, seqs, plan, |plan.batchSeqs|, kv)
    ensures ContextsOk(seqs, Flight(plan, Contexts(kv, cfg.blockSize, plan.batch)))
    ensures forall id :: id in plan.sampledSeqs ==> id in seqs
  {
    assert |plan.batch.logits| == |plan.sampledSeqs|;
    hide PlanOk, DoneUpto, Framed, LogitContext;
    forall k | 0 <= k < |plan.sampledSeqs|
      ensures plan.sampledSeqs[k] in seqs && Contexts(kv, cfg.blockSize, plan.batch)[k] == Ideal(seqs[plan.sampledSeqs[k]].tokens)
    {
      LogitContextIs(cfg, seqs, plan, kv, k);
    }
  }

  lemma LaunchIs(cfg: Config, w: World)
    requires cfg.blockSize > 0
    ensures var (st, plan) := Schedule(cfg, w.st);
      var kv := Forward(w.kv, cfg.blockSize, plan.batch, 0);
      Take(cfg, w, Launch) == World(st, kv, Some(Flight(plan, Contexts(kv, cfg.blockSize, plan.batch))))
  {}

  lemma LaunchOk(cfg: Config, w: World)
    requires WorldOk(cfg, w) && cfg.blockSize > 0
    ensures WorldOk(cfg, Take(cfg, w, Launch))
  {
    hide *;
    WorldParts(cfg, w);
    LaunchIs(cfg, w);
    ScheduleOk(cfg, w.st);
    ScheduleKvOk(cfg, w.st, w.kv);
    var (st, plan) := Schedule(cfg, w.st);
    var kv := Forward(w.kv, cfg.blockSize, plan.batch, 0);
    ForwardOk(cfg, st, plan, w.kv);
    RoundParts(cfg, st);
    CoreParts(cfg, st);
    IdsBelow(st);
    PlannedFlies(cfg, st, plan);
    PlanFramed(cfg, st.seqs, plan);
    ContextsAre(cfg, st.seqs, plan, kv);
    FlightMade(cfg, st, kv, Flight(plan, Contexts(kv, cfg.blockSize, plan.batch)));
    WorldMade(cfg, Take(cfg, w, Launch));
  }

  // ----------------------------------------------------------------- landing

  lemma LandOk(cfg: Config, w: World, sampled: seq<u32>)
    requires WorldOk(cfg, w) && cfg.blockSize > 0 && w.flight.Some? && |sampled| == |w.flight.value.plan.sampledSeqs|
    ensures WorldOk(cfg, World(Commit(cfg, w.st, w.flight.value.plan, sampled), w.kv, None))
  {
    hide *;
    WorldParts(cfg, w);
    var plan := w.flight.value.plan;
    FlightParts(cfg, w.st, w.kv, w.flight.value);
    CommitOk(cfg, w.st, plan, sampled);
    RoundParts(cfg, w.st);
    CommitKvOk(cfg, w.st, plan, sampled, w.kv);
    WorldMade(cfg, World(Commit(cfg, w.st, plan, sampled), w.kv, None));
  }

  lemma ForkAtOk(cfg: Config, w: World, parent: SeqId, tokens: seq<u32>)
    requires WorldOk(cfg, w) && cfg.blockSize > 0 && w.flight.None? && parent in w.st.seqs && ForkParent(cfg, w.st.seqs[parent])
    requires tokens == [] || |w.st.pool.free| >= |tokens| + w.st.pool.watermark
    ensures var (st, kv, _) := ForkStep(cfg, w.st, w.kv, parent, tokens);
      WorldOk(cfg, World(st, kv, w.flight))
  {
    hide *;
    WorldParts(cfg, w);
    ForkStepOk(cfg, w.st, w.kv, parent, tokens);
    var (st, kv, err) := ForkStep(cfg, w.st, w.kv, parent, tokens);
    WorldMade(cfg, World(st, kv, w.flight));
  }

  // ---------------------------------------------------------------- the runs

  lemma TakeIs(cfg: Config, w: World, step: Step)
    requires cfg.blockSize > 0
    ensures step.AdmitRequest? ==> Take(cfg, w, step) == w.(st := Admit(cfg, w.st, step.request, step.prompt, step.params, step.tenant).0)
    ensures step.CancelRequest? ==> Take(cfg, w, step) == w.(st := FinishAll(w.st, Listed(w.st.byRequest, step.request), Cancelled))
    ensures step.FinishWith? ==> Take(cfg, w, step) == w.(st := Finish(w.st, step.id, step.reason))
    ensures step.DrainFinished? ==> Take(cfg, w, step) == w.(st := Drain(w.st))
    ensures step.Launch? ==> Take(cfg, w, step) == Take(cfg, w, Launch)
    ensures step.Land? && w.flight.Some? ==> Take(cfg, w, step) == World(Commit(cfg, w.st, w.flight.value.plan, step.sampled), w.kv, None)
    ensures step.ForkAt? ==>
      var (st, kv, _) := ForkStep(cfg, w.st, w.kv, step.parent, step.tokens);
      Take(cfg, w, step) == World(st, kv, w.flight)
  {}

  lemma EnabledIs(cfg: Config, w: World, step: Step)
    requires Enabled(cfg, w, step)
    ensures step.Launch? ==> w.flight.None?
    ensures step.Land? ==> w.flight.Some? && |step.sampled| == |w.flight.value.plan.sampledSeqs|
    ensures step.ForkAt? ==>
      w.flight.None? && step.parent in w.st.seqs && ForkParent(cfg, w.st.seqs[step.parent])
      && (step.tokens == [] || |w.st.pool.free| >= |step.tokens| + w.st.pool.watermark)
  {}

  /** Every event keeps the invariant. */
  lemma TakeOk(cfg: Config, w: World, step: Step)
    requires WorldOk(cfg, w) && cfg.blockSize > 0 && Enabled(cfg, w, step)
    ensures WorldOk(cfg, Take(cfg, w, step))
  {
    hide *;
    WorldParts(cfg, w);
    TakeIs(cfg, w, step);
    EnabledIs(cfg, w, step);
    match step
    case AdmitRequest(r, prompt, params, tenant) =>
      AdmitOk(cfg, w.st, r, prompt, params, tenant);
      AdmitBeside(cfg, w.st, r, prompt, params, tenant);
      BesideOk(cfg, w, Admit(cfg, w.st, r, prompt, params, tenant).0);
    case CancelRequest(r) =>
      FinishAllOk(cfg, w.st, Listed(w.st.byRequest, r), Cancelled);
      FinishAllBeside(w.st, Listed(w.st.byRequest, r), Cancelled);
      BesideOk(cfg, w, FinishAll(w.st, Listed(w.st.byRequest, r), Cancelled));
    case FinishWith(id, reason) =>
      FinishOk(cfg, w.st, id, reason);
      FinishBeside(w.st, id, reason);
      BesideOk(cfg, w, Finish(w.st, id, reason));
    case DrainFinished =>
      DrainOk(cfg, w.st);
      DrainBeside(w.st);
      BesideOk(cfg, w, Drain(w.st));
    case Launch =>
      LaunchOk(cfg, w);
    case Land(sampled) =>
      LandOk(cfg, w, sampled);
    case ForkAt(parent, tokens) =>
      ForkAtOk(cfg, w, parent, tokens);
  }

  lemma BootOk(cfg: Config, w: World)
    requires Boot(cfg, w)
    ensures WorldOk(cfg, w)
  {
    var n: nat, watermark: nat :| w.st == NewScheduler(NewPool(n, cfg.blockSize, watermark));
    NewPoolOk(n, cfg.blockSize, watermark);
    hide PoolOk, CollisionFree;
    assert Core(cfg, w.st) by {
      assert forall b: nat :: Owners(w.st.seqs, b) == {};
    }
    hide Core;
    assert PublishedHold(cfg, w.st.pool.hashOf, w.kv);
  }

  lemma LegalParts(cfg: Config, w: World, steps: seq<Step>)
    requires cfg.blockSize > 0
    ensures steps == [] ==> Play(cfg, w, steps) == w
    ensures steps != [] ==> Play(cfg, w, steps) == Play(cfg, Take(cfg, w, steps[0]), steps[1..])
    ensures steps != [] && Legal(cfg, w, steps) ==> Enabled(cfg, w, steps[0]) && Legal(cfg, Take(cfg, w, steps[0]), steps[1..])
  {}

  /** The invariant holds after every run of the engine, from any state where it holds. */
  lemma {:induction false} PlayOk(cfg: Config, w: World, steps: seq<Step>)
    requires WorldOk(cfg, w) && cfg.blockSize > 0 && Legal(cfg, w, steps)
    ensures WorldOk(cfg, Play(cfg, w, steps))
    decreases |steps|
  {
    hide *;
    LegalParts(cfg, w, steps);
    if steps != [] {
      TakeOk(cfg, w, steps[0]);
      PlayOk(cfg, Take(cfg, w, steps[0]), steps[1..]);
    }
  }

  /** Reached by some run of a freshly booted engine. */
  ghost predicate Reachable(cfg: Config, w: World) {
    exists w0, steps :: Boot(cfg, w0) && cfg.blockSize > 0 && Legal(cfg, w0, steps) && w == Play(cfg, w0, steps)
  }

  lemma ReachableOk(cfg: Config, w: World)
    requires Reachable(cfg, w)
    ensures WorldOk(cfg, w)
  {
    hide Boot, WorldOk, Legal, Play;
    var w0, steps :| Boot(cfg, w0) && cfg.blockSize > 0 && Legal(cfg, w0, steps) && w == Play(cfg, w0, steps);
    BootOk(cfg, w0);
    PlayOk(cfg, w0, steps);
  }
}
