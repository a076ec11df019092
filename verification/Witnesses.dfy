/** A tiny engine, and the runs of it that show where it falls short. */
module Witnesses {
  import opened Prelude
  import opened Hashing
  import opened PoolModel
  import opened Sequences
  import opened SchedulerModel
  import opened Invariants
  import opened Scheduling
  import opened Kv
  import opened Transparency
  import opened Forking
  import opened ForkSeeding
  import opened Runs
  import opened Stops
  import opened Shortfalls

  // ------------------------------------------------------------ a tiny engine

  /** Blocks of one token, no prefix cache, no reserve; token 2 ends a text. */
  function Tiny(): (cfg: Config)
    ensures cfg.blockSize == 1
  {
    Config(4, 8, 8, 8, 1, false, [2], TenantHash(NewNamespace([], [], BF16, None, []), 1))
  }

  function TinyPool(n: nat, refs: seq<nat>, free: seq<BlockId>): Pool {
    Pool(1, 0, refs, Filled(n, None), map[], free)
  }

  function TinyWorld(n: nat): World {
    World(NewScheduler(NewPool(n, 1, 0)), Filled(n, [Junk(0)]), None)
  }

  lemma TinyBoots(n: nat)
    ensures Boot(Tiny(), TinyWorld(n))
  {
    TenantHashCollisionFree(NewNamespace([], [], BF16, None, []), 1);
    hide CollisionFree, TenantHash;
    assert TinyWorld(n).st == NewScheduler(NewPool(n, 1, 0));
  }

  /** The request every run below begins with: the prompt is one token, 7. */
  const Ask: Step := AdmitRequest(0, [7], Params(4, [], 0), [])

  function Asked(): Sequence {
    NewSequence(0, [7], Params(4, [], 0), [])
  }

  function Prompted(blocks: seq<BlockId>): Sequence {
    Asked().(blocks := blocks, status := Prefilling)
  }

  /** After the first token, `x`. */
  function Answered(x: u32): Sequence {
    Prompted([0, 1]).(tokens := [7, x], computed := 1, status := Decoding)
  }

  function FirstPlan(): Plan {
    Plan(Batch([7], [0], [0, 1], [0, 1], [0], [[0, 1]], [0]), [0], [0], [], [(0, 0)])
  }

  function FirstState(pool: Pool, s: Sequence, waiting: seq<SeqId>, running: seq<SeqId>): Sched {
    Sched(pool, map[0 := s], map[0 := [0]], waiting, running, [], 1)
  }

  function TwoTaken(n: nat): Pool
    requires n >= 2
  {
    TinyPool(n, Filled(n, 0)[0 := 1][1 := 1], Range(n)[2..])
  }

  lemma TwoTakenIs(n: nat)
    requires n >= 2
    ensures AllocateMany(NewPool(n, 1, 0), [], 2) == (TwoTaken(n), [0, 1], true)
  {
    var p := NewPool(n, 1, 0);
    var q := Allocate(p).0;
    assert Allocate(p).1 == Some(0) && q.free == Range(n)[1..] && q.hashOf == Filled(n, None);
    assert q.free[0] == 1 && q.free[1..] == Range(n)[2..];
    assert Allocate(q) == (TwoTaken(n), Some(1)) by {
      assert q.hashOf[1 := None] == Filled(n, None);
    }
    assert AllocateMany(TwoTaken(n), [0, 1], 0) == (TwoTaken(n), [0, 1], true);
    assert [0] + [1] == [0, 1] && [] + [0] == [0];
    assert AllocateMany(q, [0], 1) == AllocateMany(TwoTaken(n), [0] + [1], 0);
    assert AllocateMany(p, [], 2) == AllocateMany(q, [] + [0], 1);
  }

  lemma AskedIs(n: nat)
    ensures Take(Tiny(), TinyWorld(n), Ask).st == FirstState(NewPool(n, 1, 0), Asked(), [0], [])
  {}

  lemma TinyStarts(n: nat)
    requires n >= 2
    ensures TryStart(Tiny(), FirstState(NewPool(n, 1, 0), Asked(), [], []), 0) == (FirstState(TwoTaken(n), Prompted([0, 1]), [], []), true)
  {
    TwoTakenIs(n);
    hide AllocateMany, TwoTaken, Addresses;
    assert BlocksFor(1, 2) == 2;
    var st := FirstState(NewPool(n, 1, 0), Asked(), [], []);
    assert st.seqs[0 := Prompted([0, 1])] == map[0 := Prompted([0, 1])];
    assert AdoptCachedPrefix(Asked(), [], 0).(blocks := [0, 1], status := Prefilling) == Prompted([0, 1]);
    assert CanAllocate(st.pool, 2);
  }

  lemma TinyChunk(n: nat)
    requires n >= 2
    ensures var w := Work(FirstState(TwoTaken(n), Prompted([0, 1]), [], [0]), EmptyPlan.(started := [(0, 0)]), 8);
      PrefillChunk(Tiny(), w, 0) == Work(w.st, FirstPlan(), 7)
  {
    var w := Work(FirstState(TwoTaken(n), Prompted([0, 1]), [], [0]), EmptyPlan.(started := [(0, 0)]), 8);
    hide TwoTaken;
    assert BlocksFor(1, 1) == 1;
    assert TryExtend(Tiny(), w.st, 0, 1) == (w.st, true);
    assert SchedulerModel.Positions(0, 1) == [0];
    assert Slots(1, [0, 1], 0, 1) == [0] by {
      assert Slots(1, [0, 1], 0, 0) == [];
      assert 0 / 1 == 0 && 0 % 1 == 0;
    }
    assert PushSeq(Tiny(), w.st, 0, 1, w.plan) == FirstPlan();
  }

  lemma TinySchedules(n: nat)
    requires n >= 2
    ensures Schedule(Tiny(), FirstState(NewPool(n, 1, 0), Asked(), [0], [])) == (FirstState(TwoTaken(n), Prompted([0, 1]), [], [0]), FirstPlan())
  {
    var st := FirstState(NewPool(n, 1, 0), Asked(), [0], []);
    var w := Work(st, EmptyPlan, 8);
    TinyStarts(n);
    TinyChunk(n);
    ScheduleUnfold(Tiny(), st);
    assert ScheduleDecodes(Tiny(), w) == w;
    hide TryStart, PrefillChunk, Schedule, TwoTaken;
    assert ContinueLoop(Tiny(), w, []) == w;
    StartLoopUnfold(Tiny(), w);
    assert w.st.waiting[1..] == [];
    assert w.st.(waiting := []) == FirstState(NewPool(n, 1, 0), Asked(), [], []);
    var v := Work(FirstState(TwoTaken(n), Prompted([0, 1]), [], [0]), FirstPlan(), 7);
    assert EmptyPlan.started + [(0, 0)] == [(0, 0)] && [] + [0] == [0];
    assert StartOne(Tiny(), w) == (v, true);
    StartLoopUnfold(Tiny(), v);
  }

  function FirstCache(n: nat): Cache
    requires n >= 2
  {
    Filled(n, [Junk(0)])[0 := [Row(7, 0, [])]]
  }

  lemma FirstForward(n: nat)
    requires n >= 2
    ensures Forward(Filled(n, [Junk(0)]), 1, FirstPlan().batch, 0) == FirstCache(n)
  {
    var kv, b := Filled(n, [Junk(0)]), FirstPlan().batch;
    assert Gather(kv, 1, [0, 1], 0) == [];
    assert 0 / 1 == 0 && 0 % 1 == 0;
    assert kv[0][0 := Row(7, 0, [])] == [Row(7, 0, [])];
    assert WriteSlot(kv, 1, 0, Row(7, 0, [])) == FirstCache(n);
    assert ForwardToken(kv, 1, b, [0, 1], 0) == FirstCache(n);
    assert ForwardRow(FirstCache(n), 1, b, [0, 1], 1, 1) == FirstCache(n);
    assert ForwardRow(kv, 1, b, [0, 1], 0, 1) == FirstCache(n);
    assert Forward(FirstCache(n), 1, b, 1) == FirstCache(n);
  }

  /** A text that goes on after its first token. */
  function Going(n: nat): Sched
    requires n >= 2
  {
    FirstState(TwoTaken(n), Answered(5), [], [0])
  }

  /** A text that ended with its first token: its blocks are free again, the last one first. */
  function Gone(n: nat): Sched
    requires n >= 2
  {
    Sched(TinyPool(n, Filled(n, 0), [1, 0] + Range(n)[2..]), map[0 := Answered(2).(status := Finished(Stop), blocks := [])], map[0 := [0]], [], [], [0], 1)
  }

  lemma GivenBack(n: nat)
    requires n >= 2
    ensures ReleaseAll(TwoTaken(n), [0, 1]) == TinyPool(n, Filled(n, 0), [1, 0] + Range(n)[2..])
  {
    var p, zeros := TwoTaken(n), Filled(n, 0);
    var q := TinyPool(n, zeros[1 := 1], [0] + Range(n)[2..]);
    assert p.refs[0 := 0] == zeros[1 := 1];
    assert Release(p, 0) == q;
    assert q.refs[1 := 0] == zeros;
    assert [1] + ([0] + Range(n)[2..]) == [1, 0] + Range(n)[2..];
    assert Release(q, 1) == TinyPool(n, zeros, [1, 0] + Range(n)[2..]);
    assert [0, 1][1..] == [1] && [1][1..] == [];
    var r := TinyPool(n, zeros, [1, 0] + Range(n)[2..]);
    assert ReleaseAll(r, []) == r;
    assert ReleaseAll(q, [1]) == ReleaseAll(r, []);
  }

  function FirstAdvanced(): Sequence {
    Prompted([0, 1]).(computed := 1, status := Decoding)
  }

  lemma FirstAdvances(n: nat)
    requires n >= 2
    ensures AdvanceLoop(FirstState(TwoTaken(n), Prompted([0, 1]), [], [0]), FirstPlan(), 0) == FirstState(TwoTaken(n), FirstAdvanced(), [], [0])
  {
    var st, plan, a := FirstState(TwoTaken(n), Prompted([0, 1]), [], [0]), FirstPlan(), FirstAdvanced();
    hide TwoTaken;
    var s1 := FirstState(TwoTaken(n), a, [], [0]);
    assert Advanced(Prompted([0, 1]), 1) == a && RowLen(plan.batch, 0) == 1;
    assert st.seqs[0 := a] == map[0 := a];
    assert AdvanceLoop(s1, plan, 1) == s1;
  }

  lemma FirstAppends(n: nat, x: u32)
    requires n >= 2 && (x == 5 || x == 2)
    ensures AppendOne(Tiny(), FirstState(TwoTaken(n), FirstAdvanced(), [], [0]), 0, x) == if x == 5 then Going(n) else Gone(n)
  {
    var s1, done := FirstState(TwoTaken(n), FirstAdvanced(), [], [0]), Answered(x).(status := Finished(Stop), blocks := []);
    GivenBack(n);
    hide TwoTaken, ReleaseAll, Range, Filled;
    assert [7] + [x] == [7, x];
    assert PushToken(FirstAdvanced(), x) == Answered(x);
    assert s1.seqs[0 := Answered(x)] == map[0 := Answered(x)];
    assert map[0 := Answered(x)][0 := done] == map[0 := done];
    assert Without([0], 0) == [] && Without<SeqId>([], 0) == [];
    if x == 2 {
      assert CheckFinished(Answered(2), [2], 8) == Some(Stop);
      assert Finish(s1.(seqs := map[0 := Answered(2)]), 0, Stop) == Gone(n);
    } else {
      assert CheckFinished(Answered(5), [2], 8) == None;
    }
  }

  lemma FirstCommit(n: nat, x: u32)
    requires n >= 2 && (x == 5 || x == 2)
    ensures Commit(Tiny(), FirstState(TwoTaken(n), Prompted([0, 1]), [], [0]), FirstPlan(), [x]) == if x == 5 then Going(n) else Gone(n)
  {
    FirstAdvances(n);
    FirstAppends(n, x);
    hide TwoTaken, AppendOne, AdvanceLoop, Going, Gone;
    assert [0][1..] == [] && [x][1..] == [];
  }

  /** One request, answered with one token. */
  function Opening(x: u32): seq<Step> {
    [Ask, Launch, Land([x])]
  }

  lemma PlayOne(cfg: Config, w: World, step: Step, rest: seq<Step>)
    requires cfg.blockSize > 0
    ensures Play(cfg, w, [step] + rest) == Play(cfg, Take(cfg, w, step), rest)
    ensures Legal(cfg, w, [step] + rest) <==> Enabled(cfg, w, step) && Legal(cfg, Take(cfg, w, step), rest)
  {
    hide Take, Enabled;
    assert ([step] + rest)[0] == step && ([step] + rest)[1..] == rest;
  }

  lemma PlayThree(cfg: Config, w: World, a: Step, b: Step, c: Step)
    requires cfg.blockSize > 0
    ensures Play(cfg, w, [a, b, c]) == Take(cfg, Take(cfg, Take(cfg, w, a), b), c)
    ensures Enabled(cfg, w, a) && Enabled(cfg, Take(cfg, w, a), b) && Enabled(cfg, Take(cfg, Take(cfg, w, a), b), c) ==> Legal(cfg, w, [a, b, c])
  {
    hide Take, Enabled;
    var w1 := Take(cfg, w, a);
    var w2 := Take(cfg, w1, b);
    PlayOne(cfg, w, a, [b, c]);
    PlayOne(cfg, w1, b, [c]);
    PlayOne(cfg, w2, c, []);
    assert [a] + [b, c] == [a, b, c] && [b] + [c] == [b, c] && [c] + [] == [c];
  }

  /** Where that leaves the engine. */
  lemma Opened(n: nat, x: u32)
    requires n >= 2 && (x == 5 || x == 2)
    ensures Legal(Tiny(), TinyWorld(n), Opening(x))
    ensures Play(Tiny(), TinyWorld(n), Opening(x)) == World(if x == 5 then Going(n) else Gone(n), FirstCache(n), None)
  {
    var cfg, w := Tiny(), TinyWorld(n);
    AskedIs(n);
    TinySchedules(n);
    FirstForward(n);
    FirstCommit(n, x);
    var w1 := World(FirstState(NewPool(n, 1, 0), Asked(), [0], []), w.kv, None);
    assert Take(cfg, w, Ask) == w1;
    hide Schedule, Forward, Commit, Admit, TwoTaken;
    LaunchIs(cfg, w1);
    var w2 := Take(cfg, w1, Launch);
    assert w2.st == FirstState(TwoTaken(n), Prompted([0, 1]), [], [0]) && w2.kv == FirstCache(n) && w2.flight.Some? && w2.flight.value.plan == FirstPlan();
    TakeIs(cfg, w2, Land([x]));
    PlayThree(cfg, w, Ask, Launch, Land([x]));
  }

  lemma OpenedReachable(n: nat, x: u32)
    requires n >= 2 && (x == 5 || x == 2)
    ensures Reachable(Tiny(), World(if x == 5 then Going(n) else Gone(n), FirstCache(n), None))
  {
    TinyBoots(n);
    Opened(n, x);
    hide Boot, Legal, Play, Going, Gone, FirstCache;
  }

  // ------------------------------------------------------------- the witnesses

  lemma GoingIs(n: nat)
    requires n >= 2
    ensures 0 in Going(n).seqs && Going(n).seqs[0] == Answered(5) && ForkParent(Tiny(), Going(n).seqs[0])
    ensures Going(n).nextId == 1 && Going(n).pool.watermark == 0 && |Going(n).pool.free| == n - 2 && Answered(5).promptLen == 1
  {}

  /** Two blocks, both taken by the leader: a fork of one choice leaves a reference behind. */
  lemma ForkLeaks()
    ensures var w := Play(Tiny(), TinyWorld(2), Opening(5));
      Boot(Tiny(), TinyWorld(2)) && Legal(Tiny(), TinyWorld(2), Opening(5)) && 0 in w.st.seqs && ForkParent(Tiny(), w.st.seqs[0])
      && var (t, _, err) := ForkSeq(Tiny(), w.st, 0, 1);
      err.Some? && !RefsOk(t.pool, t.seqs)
  {
    var cfg := Tiny();
    TinyBoots(2);
    Opened(2, 5);
    OpenedReachable(2, 5);
    GoingIs(2);
    hide *;
    var w := World(Going(2), FirstCache(2), None);
    ReachableOk(cfg, w);
    WorldParts(cfg, w);
    ForkConservesIff(cfg, w.st, 0, 1);
    ForkSucceedsIff(cfg, w.st, 0, 1);
  }

  /** Three blocks: of two choices asked for, the first is left running with nothing to compute. */
  lemma ForkStrands()
    ensures var w := Play(Tiny(), TinyWorld(3), Opening(5));
      Boot(Tiny(), TinyWorld(3)) && Legal(Tiny(), TinyWorld(3), Opening(5)) && 0 in w.st.seqs && ForkParent(Tiny(), w.st.seqs[0])
      && var (t, _, err) := ForkSeq(Tiny(), w.st, 0, 2);
      err.Some? && !AllPushable(t)
  {
    var cfg := Tiny();
    TinyBoots(3);
    Opened(3, 5);
    OpenedReachable(3, 5);
    GoingIs(3);
    hide *;
    var w := World(Going(3), FirstCache(3), None);
    ReachableOk(cfg, w);
    WorldParts(cfg, w);
    FailedForkStrandsIff(cfg, w.st, 0, 2);
    ForkSucceedsIff(cfg, w.st, 0, 2);
  }

  lemma GoneIs()
    ensures 0 in Gone(2).seqs && Gone(2).nextId == 1 && Gone(2).pool.watermark == 0 && Gone(2).pool.free == [1, 0] && Handy(Gone(2).pool)
    ensures var s := Gone(2).seqs[0];
      s.blocks == [] && IsFinished(s) && !NeedsPrefill(s) && s.computed == 1 && s.promptLen == 1 && Upto(s.tokens, s.promptLen) == [7]
  {
    assert Range(2)[2..] == [];
  }

  lemma TwoBlocks()
    ensures BlocksFor(1, 2) == 2
  {}

  /** The fork of the leader that is gone: one orphan, given the leader's old blocks the wrong way round. */
  lemma GoneForks(kv: Cache)
    ensures var (u, after, err) := ForkStep(Tiny(), Gone(2), kv, 0, [5]);
      err.None? && after == kv && 1 in u.seqs && IsActive(u.seqs[1]) && u.seqs[1].computed == 1 && u.seqs[1].tokens == [7, 5] && u.seqs[1].blocks == [1, 0]
  {
    hide *;
    var cfg, st := Tiny(), Gone(2);
    GoneIs();
    GoneQueues();
    FinishedForked(cfg, st, 0, 1);
    var (t, fork, _) := ForkSeq(cfg, st, 0, 1);
    assert fork.ids == [1] && 1 in [1];
    SeedGone(cfg, t, st.seqs[0]);
    ForkStepIs(cfg, st, kv, 0, [5]);
    SeedOne(cfg, t, 1, 5);
    NothingCopied(st, t, kv);
  }

  lemma GoneQueues()
    ensures QueuesOk(Gone(2))
  {
    assert Gone(2).seqs.Keys == {0};
  }

  lemma SeedGone(cfg: Config, t: Sched, s: Sequence)
    requires cfg.blockSize == 1 && 1 in t.seqs && t.seqs[1] == Orphan(s) && s.computed == 1 && Upto(s.tokens, s.promptLen) == [7]
    requires t.pool.free == [1, 0] && t.pool.watermark == 0 && Handy(t.pool)
    ensures var (u, err) := SeedFork(cfg, t, 1, 5);
      err.None? && 1 in u.seqs && IsActive(u.seqs[1]) && u.seqs[1].computed == 1 && u.seqs[1].tokens == [7, 5] && u.seqs[1].blocks == [1, 0]
  {
    TwoBlocks();
    var c := PushToken(Orphan(s), 5);
    assert c.tokens == [7, 5];
    ExtendGuardedIs(t.(seqs := t.seqs[1 := c]), 1, 2);
    hide ExtendGuarded, Handy, BlocksFor;
    assert [] + [1, 0][..2] == [1, 0];
  }

  lemma SeedOne(cfg: Config, st: Sched, id: SeqId, token: u32)
    requires cfg.blockSize > 0 && SeedFork(cfg, st, id, token).1.None?
    ensures SeedAll(cfg, st, [id], [token]) == SeedFork(cfg, st, id, token)
  {
    hide SeedFork;
    assert [id][1..] == [] && [token][1..] == [];
    var t := SeedFork(cfg, st, id, token).0;
    assert SeedAll(cfg, t, [], []) == (t, None);
  }

  /** A leader whose first token ends its text: its choice reads a row nobody computed. */
  lemma FinishedLeaderMisreads()
    ensures var w := Play(Tiny(), TinyWorld(2), Opening(2));
      Boot(Tiny(), TinyWorld(2)) && Legal(Tiny(), TinyWorld(2), Opening(2)) && 0 in w.st.seqs && w.st.seqs[0].computed == w.st.seqs[0].promptLen
      && var (u, after, err) := ForkStep(Tiny(), w.st, w.kv, 0, [5]);
      err.None? && 1 in u.seqs && IsActive(u.seqs[1]) && u.seqs[1].computed == 1
      && RowAt(after, 1, u.seqs[1].blocks, 0) == Junk(0) && !KvOk(Tiny(), u, after)
  {
    TinyBoots(2);
    Opened(2, 2);
    GoneIs();
    GoneForks(FirstCache(2));
    var (u, after, _) := ForkStep(Tiny(), Gone(2), FirstCache(2), 0, [5]);
    var c := u.seqs[1];
    hide Boot, Legal, Play, Gone, ForkStep, TinyWorld, Opening, Tiny;
    assert RowAt(after, 1, [1, 0], 0) == Junk(0) by {
      assert 0 / 1 == 0 && 0 % 1 == 0;
    }
    IdealAt([7, 5], 0);
    MisreadRow(Tiny(), u, after, 1);
  }

  lemma MisreadRow(cfg: Config, u: Sched, kv: Cache, id: SeqId)
    requires cfg.blockSize > 0 && id in u.seqs && IsActive(u.seqs[id]) && u.seqs[id].computed > 0 && u.seqs[id].tokens != []
    requires RowAt(kv, cfg.blockSize, u.seqs[id].blocks, 0) != Ideal(u.seqs[id].tokens)[0]
    ensures !KvOk(cfg, u, kv)
  {}

  // --------------------------------------- a choice that should have ended at once

  function Twin(): Sequence {
    Answered(2).(blocks := [0, 2])
  }

  function Doubled(): Sched {
    Sched(TinyPool(3, [2, 1, 1], []), map[0 := Answered(5), 1 := Twin()], map[0 := [0, 1]], [], [0, 1], [], 2)
  }

  lemma GoingPool()
    ensures AllocateGuarded(IncRefAll(Going(3).pool, [0])) == (TinyPool(3, [2, 1, 1], []), Some(2))
  {
    var p := Going(3).pool;
    assert p == TinyPool(3, [1, 1, 0], [2]) by {
      assert Range(3)[2..] == [2];
    }
    var q := TinyPool(3, [2, 1, 0], [2]);
    assert [0][1..] == [] && IncRefAll(q, []) == q && IncRef(p, 0) == q;
    assert IncRefAll(p, [0]) == q;
    assert q.hashOf[2 := None] == Filled(3, None) && [2][1..] == [] && [2, 1, 0][2 := 1] == [2, 1, 1];
  }

  lemma GoingForks()
    ensures ForkSeq(Tiny(), Going(3), 0, 1) == (Doubled().(seqs := map[0 := Answered(5), 1 := Twin().(tokens := [7])]), Fork([1], []), None)
  {
    var cfg, st, s := Tiny(), Going(3), Answered(5);
    GoingPool();
    hide IncRefAll, AllocateGuarded, TwoTaken, TinyPool;
    assert Upto(s.blocks, 1) == [0] && Upto(s.tokens, 1) == [7];
    assert [0] + [2] == [0, 2] && [0] + [1] == [0, 1] && [] + [1] == [1];
    var child := Twin().(tokens := [7]);
    assert AdoptPrefilled(NewSequence(0, [7], s.params, s.tenant), [0, 2], 1, 0) == child;
    var t := Doubled().(seqs := map[0 := s, 1 := child]);
    assert st.seqs[1 := child] == t.seqs && st.byRequest[0 := [0, 1]] == t.byRequest;
    assert 1 / 1 == 1 && 1 % 1 == 0;
    assert ForkLoop(cfg, t, s, 0, Fork([1], [])) == (t, Fork([1], []), None);
    assert ForkLoop(cfg, st, s, 1, Fork([], [])) == ForkLoop(cfg, t, s, 0, Fork([1], []));
  }

  lemma GoingSeeds(kv: Cache)
    ensures ForkStep(Tiny(), Going(3), kv, 0, [2]) == (Doubled(), kv, None)
  {
    var cfg, t := Tiny(), Doubled().(seqs := map[0 := Answered(5), 1 := Twin().(tokens := [7])]);
    GoingForks();
    TwoBlocks();
    hide ForkSeq, Going;
    assert PushToken(t.seqs[1], 2) == Twin() by {
      assert [7] + [2] == [7, 2];
    }
    assert t.seqs[1 := Twin()] == Doubled().seqs;
    assert SeedFork(cfg, t, 1, 2) == (Doubled(), None);
    SeedOne(cfg, t, 1, 2);
    ForkStepIs(cfg, Going(3), kv, 0, [2]);
    NothingCopied(t, t, kv);
  }

  /** Both choices decode. */
  lemma DoubledSchedules()
    ensures Schedule(Tiny(), Doubled()).0 == Doubled() && Schedule(Tiny(), Doubled()).1.sampledSeqs == [0, 1]
  {
    var cfg, st := Tiny(), Doubled();
    var taken := Work(st.(running := []), EmptyPlan, 8);
    TwoBlocks();
    DoubledTurn(taken, 0);
    var w1 := DecodeOne(cfg, taken, 0).0;
    DoubledTurn(w1, 1);
    var w2 := DecodeOne(cfg, w1, 1).0;
    assert [0, 1][1..] == [1] && [1][1..] == [] && [] + [0] == [0] && [0] + [1] == [0, 1];
    hide DecodeOne;
    DecodeLoopUnfold(cfg, taken, [0, 1], []);
    DecodeLoopUnfold(cfg, w1, [1], [0]);
    DecodeLoopUnfold(cfg, w2, [], [0, 1]);
    var w := w2.(st := st);
    assert ScheduleDecodes(cfg, Work(st, EmptyPlan, 8)) == w;
    ScheduleUnfold(cfg, st);
    assert ContinueLoop(cfg, w, []) == w && ContinueLoop(cfg, w, [1]) == w && ContinueLoop(cfg, w, [0, 1]) == w;
    StartLoopUnfold(cfg, w);
  }

  lemma DoubledTurn(w: Work, id: SeqId)
    requires w.st.(running := []) == Doubled().(running := []) && w.budget > 0 && id in w.st.seqs
    ensures var (v, keep) := DecodeOne(Tiny(), w, id);
      keep && v.st == w.st && v.budget == w.budget - 1 && v.plan.sampledSeqs == w.plan.sampledSeqs + [id]
  {
    var s := w.st.seqs[id];
    assert !IsFinished(s) && !NeedsPrefill(s) && s.computed == 1 && |s.tokens| == 2 && |s.blocks| == 2;
    assert BlocksFor(1, 2) == 2;
    assert TryExtend(Tiny(), w.st, id, 1) == (w.st, true);
    hide TryExtend, Slots, SchedulerModel.Positions;
  }

  lemma TwinIsComplete()
    ensures Complete(Tiny(), Twin())
  {}

  /** A choice whose first token ends the text, and the token the engine writes after it. */
  lemma ChoiceRunsOn()
    ensures var steps := Opening(5) + [ForkAt(0, [2]), Launch, Land([5, 5])];
      var w := Play(Tiny(), TinyWorld(3), steps);
      Boot(Tiny(), TinyWorld(3)) && Legal(Tiny(), TinyWorld(3), steps) && 1 in w.st.seqs && PastItsEnd(Tiny(), w.st.seqs[1])
  {
    hide *;
    TinyBoots(3);
    Opened(3, 5);
    var w0 := World(Going(3), FirstCache(3), None);
    TwinRunsOn(w0);
    PlayJoins(Tiny(), TinyWorld(3), Opening(5), [ForkAt(0, [2]), Launch, Land([5, 5])]);
  }

  /** From the fork on. */
  lemma TwinRunsOn(w0: World)
    requires w0 == World(Going(3), FirstCache(3), None)
    ensures var steps := [ForkAt(0, [2]), Launch, Land([5, 5])];
      var w := Play(Tiny(), w0, steps);
      Legal(Tiny(), w0, steps) && 1 in w.st.seqs && PastItsEnd(Tiny(), w.st.seqs[1])
  {
    hide *;
    var cfg, fork, land := Tiny(), ForkAt(0, [2]), Land([5, 5]);
    OpenedReachable(3, 5);
    ReachableOk(cfg, w0);
    GoingIs(3);
    GoingSeeds(FirstCache(3));
    var w1 := Take(cfg, w0, fork);
    TakeIs(cfg, w0, fork);
    ForkEnabled(cfg, w0, 0, [2]);
    TakeOk(cfg, w0, fork);
    TwinLands(w1);
    PlayThree(cfg, w0, fork, Launch, land);
  }

  lemma TwinLands(w1: World)
    requires WorldOk(Tiny(), w1) && w1.st == Doubled() && w1.flight.None?
    ensures Enabled(Tiny(), w1, Launch)
    ensures var w2 := Take(Tiny(), w1, Launch);
      Enabled(Tiny(), w2, Land([5, 5]))
      && var t := Take(Tiny(), w2, Land([5, 5])).st.seqs; 1 in t && PastItsEnd(Tiny(), t[1])
  {
    hide *;
    var cfg := Tiny();
    DoubledSchedules();
    TwinIsComplete();
    DoubledIs();
    LaunchEnabled(cfg, w1);
    TakeOk(cfg, w1, Launch);
    LaunchIs(cfg, w1);
    var w2 := Take(cfg, w1, Launch);
    LandEnabled(cfg, w2, [5, 5]);
    assert [0, 1][1] == 1;
    SampledPastItsEnd(cfg, w2, 1, [5, 5]);
  }

  lemma DoubledIs()
    ensures 1 in Doubled().seqs && Doubled().seqs[1] == Twin()
  {}

  lemma ForkEnabled(cfg: Config, w: World, parent: SeqId, tokens: seq<u32>)
    requires w.flight.None? && parent in w.st.seqs && ForkParent(cfg, w.st.seqs[parent]) && |w.st.pool.free| >= |tokens| + w.st.pool.watermark
    ensures Enabled(cfg, w, ForkAt(parent, tokens))
  {}

  lemma LaunchEnabled(cfg: Config, w: World)
    requires w.flight.None?
    ensures Enabled(cfg, w, Launch)
  {}

  lemma LandEnabled(cfg: Config, w: World, sampled: seq<u32>)
    requires w.flight.Some? && |sampled| == |w.flight.value.plan.sampledSeqs|
    ensures Enabled(cfg, w, Land(sampled))
  {}

  lemma {:induction false} PlayJoins(cfg: Config, w: World, a: seq<Step>, b: seq<Step>)
    requires cfg.blockSize > 0
    ensures Play(cfg, w, a + b) == Play(cfg, Play(cfg, w, a), b)
    ensures Legal(cfg, w, a) && Legal(cfg, Play(cfg, w, a), b) ==> Legal(cfg, w, a + b)
    decreases |a|
  {
    if a == [] {
      assert a + b == b;
    } else {
      hide Take, Enabled;
      assert a == [a[0]] + a[1..] && a + b == [a[0]] + (a[1..] + b);
      PlayOne(cfg, w, a[0], a[1..]);
      PlayOne(cfg, w, a[0], a[1..] + b);
      PlayJoins(cfg, Take(cfg, w, a[0]), a[1..], b);
    }
  }
}
