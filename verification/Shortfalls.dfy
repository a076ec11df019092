/** Where the engine falls short of what it promises, and exactly when. Witnesses has a run for each. */
module Shortfalls {
  import opened Prelude
  import opened PoolModel
  import opened Sequences
  import opened SchedulerModel
  import opened Invariants
  import opened CoreSteps
  import opened Rounds
  import opened Scheduling
  import opened Committing
  import opened Kv
  import opened Transparency
  import opened Forking
  import opened ForkSeeding
  import opened Runs
  import opened Stops

  // ----------------------------------------------------- a fork that stops short

  /** What the next schedule slices for `s` is inside its text. */
  predicate Pushable(s: Sequence) {
    if NeedsPrefill(s) then s.target <= |s.tokens| else s.computed < |s.tokens|
  }

  ghost predicate AllPushable(st: Sched) {
    forall id :: id in st.running ==> id in st.seqs && Pushable(st.seqs[id])
  }

  lemma SteadyPushable(cfg: Config, s: Sequence)
    requires cfg.blockSize > 0 && Steady(cfg, s) && BasicOk(cfg, s) && IsActive(s)
    ensures Pushable(s)
  {}

  lemma RoundPushable(cfg: Config, st: Sched)
    requires Round(cfg, st) && cfg.blockSize > 0
    ensures AllPushable(st)
  {
    hide *;
    RoundParts(cfg, st);
    CoreParts(cfg, st);
    forall id | id in st.running ensures id in st.seqs && Pushable(st.seqs[id]) {
      RunningIs(cfg, st, id);
      AllSteadyAt(cfg, st.seqs, id);
      SteadyPushable(cfg, st.seqs[id]);
    }
    AllPushableMade(st);
  }

  lemma AllPushableMade(st: Sched)
    requires forall id :: id in st.running ==> id in st.seqs && Pushable(st.seqs[id])
    ensures AllPushable(st)
  {
    hide Pushable;
  }

  lemma ChildStranded(cfg: Config, s: Sequence, open: BlockId)
    requires cfg.blockSize > 0 && BasicOk(cfg, s) && Steady(cfg, s) && ForkParent(cfg, s) && Full(cfg, s) <= |s.blocks|
    ensures var c := Child(cfg, s, open);
      IsActive(c) && !NeedsPrefill(c) && c.computed == |c.tokens| && BlocksFor(cfg.blockSize, c.computed + 1) <= |c.blocks|
  {
    ChildUnseeded(cfg, s, open);
  }

  lemma ExtendNothing(cfg: Config, st: Sched, id: SeqId)
    requires cfg.blockSize > 0 && id in st.seqs && BlocksFor(cfg.blockSize, st.seqs[id].computed + 1) <= |st.seqs[id].blocks|
    ensures TryExtend(cfg, st, id, 1) == (st, true)
  {}

  lemma Unpushable(st: Sched, id: SeqId)
    requires id in st.running && id in st.seqs && !NeedsPrefill(st.seqs[id]) && st.seqs[id].computed == |st.seqs[id].tokens|
    ensures !AllPushable(st)
  {
    assert !Pushable(st.seqs[id]);
  }

  lemma NoChildren(cfg: Config, st: Sched, s: Sequence, m: Sched, out: Fork)
    requires cfg.blockSize > 0 && Family(cfg, st, s, m, out) && out.ids == []
    ensures m.seqs == st.seqs
  {
    FamilyIds(cfg, st, s, m, out);
    hide Family;
    assert m.seqs.Keys == st.seqs.Keys;
  }

  /** A fork that runs out of blocks leaves the children it had made running with no token to compute: its caller gives
      up before seeding them. The state it leaves can be scheduled exactly when it had made none, that is, when not even
      one guarded block was free. Otherwise the first child's next turn has its block, and slices past its text. */
  lemma FailedForkStrandsIff(cfg: Config, st: Sched, parent: SeqId, extra: nat)
    requires Round(cfg, st) && cfg.blockSize > 0 && parent in st.seqs && ForkParent(cfg, st.seqs[parent])
    requires extra > 0 && |st.pool.free| < extra + st.pool.watermark
    ensures var t := ForkSeq(cfg, st, parent, extra).0;
      AllPushable(t) <==> |st.pool.free| <= st.pool.watermark
    ensures var t, id := ForkSeq(cfg, st, parent, extra).0, st.nextId;
      |st.pool.free| > st.pool.watermark ==>
        id in t.running && id in t.seqs && !NeedsPrefill(t.seqs[id])
        && TryExtend(cfg, t, id, 1) == (t, true) && t.seqs[id].computed + 1 > |t.seqs[id].tokens|
  {
    hide *;
    var s := st.seqs[parent];
    RoundParts(cfg, st);
    CoreParts(cfg, st);
    AllSteadyAt(cfg, st.seqs, parent);
    OpenExists(cfg, s);
    ForkSucceedsIff(cfg, st, parent, extra);
    var (t, fork, err) := ForkSeq(cfg, st, parent, extra);
    var m :| StoppedAt(cfg, st, parent, m, fork, t);
    StoppedParts(cfg, st, parent, m, fork, t);
    MidwayParts(cfg, st, parent, m, fork);
    CoreParts(cfg, m);
    FamilyIds(cfg, st, s, m, fork);
    var id := st.nextId;
    if fork.ids == [] {
      NoChildren(cfg, st, s, m, fork);
      RoundMade(cfg, m);
      RoundPushable(cfg, m);
      PushableSame(m, t);
    } else {
      ChildrenAt(cfg, st, s, m, fork, id);
      IsChildIn(st, m, id);
      ChildStranded(cfg, s, Open(m.seqs[id]));
      RunningIs(cfg, m, id);
      ExtendNothing(cfg, t, id);
      Unpushable(t, id);
    }
  }

  lemma PushableSame(m: Sched, t: Sched)
    requires AllPushable(m) && t.running == m.running && t.seqs == m.seqs
    ensures AllPushable(t)
  {}

  // --------------------------------------------- a fork of a leader that finished

  /** What a fork of `s` makes when `s` has given its blocks back. */
  function Orphan(s: Sequence): Sequence {
    AdoptPrefilled(NewSequence(s.request, Upto(s.tokens, s.promptLen), s.params, s.tenant), [], s.computed, s.cachedBlocks)
  }

  /** Ids `from..to` are orphans, all else below `from` is as it was. */
  ghost predicate Orphaned(st: Sched, s: Sequence, from: nat, t: Sched) {
    t.pool == st.pool && t.nextId >= from
    && (forall id :: id in st.seqs && id < from ==> id in t.seqs && t.seqs[id] == st.seqs[id])
    && (forall id: SeqId :: from <= id < t.nextId ==> id in t.seqs && t.seqs[id] == Orphan(s))
  }

  lemma {:induction false} FinishedForkIs(cfg: Config, st: Sched, s: Sequence, extra: nat, t: Sched, out: Fork)
    requires cfg.blockSize > 0 && s.blocks == [] && Orphaned(st, s, st.nextId, t) && out.copies == []
    requires |out.ids| == t.nextId - st.nextId && forall k :: 0 <= k < |out.ids| ==> out.ids[k] == st.nextId + k
    ensures var (u, fork, err) := ForkLoop(cfg, t, s, extra, out);
      err.None? && Orphaned(st, s, st.nextId, u) && fork.copies == [] && u.nextId == t.nextId + extra
      && |fork.ids| == u.nextId - st.nextId && forall k :: 0 <= k < |fork.ids| ==> fork.ids[k] == st.nextId + k
    decreases extra
  {
    if extra > 0 {
      var id := t.nextId;
      assert Upto(s.blocks, s.computed / cfg.blockSize) == [];
      assert IncRefAll(t.pool, []) == t.pool;
      var next := t.(nextId := id + 1, seqs := t.seqs[id := Orphan(s)], byRequest := t.byRequest[s.request := Listed(t.byRequest, s.request) + [id]], running := t.running + [id]);
      assert ForkLoop(cfg, t, s, extra, out) == ForkLoop(cfg, next, s, extra - 1, Fork(out.ids + [id], []));
      hide ForkLoop, Orphan;
      FinishedForkIs(cfg, st, s, extra - 1, next, Fork(out.ids + [id], []));
    }
  }

  /** Free blocks that can be handed out. */
  ghost predicate Handy(p: Pool) {
    forall b :: b in p.free ==> b < |p.refs| && b < |p.hashOf|
  }

  lemma {:induction false} ExtendGuardedIs(st: Sched, id: SeqId, k: nat)
    requires id in st.seqs && Handy(st.pool) && |st.pool.free| >= k + st.pool.watermark
    ensures var (t, ok) := ExtendGuarded(st, id, k);
      ok && t == st.(pool := t.pool, seqs := st.seqs[id := st.seqs[id].(blocks := st.seqs[id].blocks + st.pool.free[..k])])
      && t.pool.free == st.pool.free[k..] && t.pool.watermark == st.pool.watermark && Handy(t.pool)
    decreases k
  {
    if k == 0 {
      assert st.seqs[id].blocks + st.pool.free[..0] == st.seqs[id].blocks;
      assert st.seqs[id := st.seqs[id]] == st.seqs;
    } else {
      var b := st.pool.free[0];
      assert b in st.pool.free;
      var (p, got) := AllocateGuarded(st.pool);
      assert got == Some(b) && p.free == st.pool.free[1..];
      assert Handy(p) by {
        assert forall c :: c in p.free ==> c in st.pool.free;
      }
      var s := st.seqs[id];
      var m := st.(pool := p, seqs := st.seqs[id := s.(blocks := s.blocks + [b])]);
      assert ExtendGuarded(st, id, k) == ExtendGuarded(m, id, k - 1);
      hide ExtendGuarded, AllocateGuarded;
      ExtendGuardedIs(m, id, k - 1);
      assert p.free[..k - 1] == st.pool.free[1..k] && p.free[k - 1..] == st.pool.free[k..];
      assert s.blocks + [b] + p.free[..k - 1] == s.blocks + st.pool.free[..k];
      var t := ExtendGuarded(m, id, k - 1).0;
      assert m.seqs[id := t.seqs[id]] == st.seqs[id := t.seqs[id]];
    }
  }

  /** An orphan with its first token: as many blocks as it counts on, all of them blocks nobody held. */
  ghost predicate Fostered(cfg: Config, s: Sequence, token: u32, free: seq<BlockId>, c: Sequence)
    requires cfg.blockSize > 0
  {
    c == PushToken(Orphan(s), token).(blocks := c.blocks) && |c.blocks| == BlocksFor(cfg.blockSize, s.computed + 1)
    && forall b :: b in c.blocks ==> b in free
  }

  lemma SeedOrphan(cfg: Config, st: Sched, id: SeqId, s: Sequence, token: u32)
    requires cfg.blockSize > 0 && id in st.seqs && st.seqs[id] == Orphan(s) && Handy(st.pool)
    requires |st.pool.free| >= BlocksFor(cfg.blockSize, s.computed + 1) + st.pool.watermark
    ensures var (t, err) := SeedFork(cfg, st, id, token);
      var n := BlocksFor(cfg.blockSize, s.computed + 1);
      err.None? && id in t.seqs && t == st.(pool := t.pool, seqs := st.seqs[id := t.seqs[id]]) && Fostered(cfg, s, token, st.pool.free, t.seqs[id])
      && t.pool.free == st.pool.free[n..] && t.pool.watermark == st.pool.watermark && Handy(t.pool)
  {
    var n, c := BlocksFor(cfg.blockSize, s.computed + 1), PushToken(Orphan(s), token);
    var m := st.(seqs := st.seqs[id := c]);
    ExtendGuardedIs(m, id, n);
    hide ExtendGuarded, Handy, BlocksFor;
    var t := SeedFork(cfg, st, id, token).0;
    assert m.seqs[id := t.seqs[id]] == st.seqs[id := t.seqs[id]];
    assert [] + st.pool.free[..n] == st.pool.free[..n];
  }

  /** Blocks for the text of `n` choices. */
  function Room(cfg: Config, s: Sequence, n: nat): nat
    requires cfg.blockSize > 0
  {
    n * BlocksFor(cfg.blockSize, s.computed + 1)
  }

  lemma {:induction false} SeedOrphans(cfg: Config, st: Sched, ids: seq<SeqId>, tokens: seq<u32>, s: Sequence, free: seq<BlockId>)
    requires cfg.blockSize > 0 && |ids| == |tokens| && NoDup(ids) && Handy(st.pool) && (forall b :: b in st.pool.free ==> b in free)
    requires forall id :: id in ids ==> id in st.seqs && st.seqs[id] == Orphan(s)
    requires |st.pool.free| >= Room(cfg, s, |ids|) + st.pool.watermark
    ensures var (u, err) := SeedAll(cfg, st, ids, tokens);
      err.None? && u.running == st.running && u.seqs.Keys == st.seqs.Keys && (forall id :: id in st.seqs && id !in ids ==> u.seqs[id] == st.seqs[id])
      && forall k :: 0 <= k < |ids| ==> ids[k] in u.seqs && Fostered(cfg, s, tokens[k], free, u.seqs[ids[k]])
    decreases |ids|
  {
    if ids != [] {
      var id, n := ids[0], BlocksFor(cfg.blockSize, s.computed + 1);
      assert id in ids;
      assert |ids| * n == n + (|ids| - 1) * n;
      MulMono(0, |ids| - 1, n);
      hide BlocksFor, Orphan, SeedFork, Handy;
      SeedOrphan(cfg, st, id, s, tokens[0]);
      var t := SeedFork(cfg, st, id, tokens[0]).0;
      NoDupTail(ids);
      assert forall o :: o in ids <==> o == id || o in ids[1..];
      FosteredAmong(cfg, s, tokens[0], st.pool.free, free, t.seqs[id]);
      SeedOrphans(cfg, t, ids[1..], tokens[1..], s, free);
      var u := SeedAll(cfg, st, ids, tokens).0;
      forall k | 0 <= k < |ids| ensures ids[k] in u.seqs && Fostered(cfg, s, tokens[k], free, u.seqs[ids[k]]) {
        if k > 0 {
          assert ids[k] == ids[1..][k - 1] && tokens[k] == tokens[1..][k - 1];
        }
      }
    }
  }

  lemma FosteredAmong(cfg: Config, s: Sequence, token: u32, few: seq<BlockId>, free: seq<BlockId>, c: Sequence)
    requires cfg.blockSize > 0 && Fostered(cfg, s, token, few, c) && forall b :: b in few ==> b in free
    ensures Fostered(cfg, s, token, free, c)
  {}

  /** A fork of a leader that finished with its first token reports success and copies nothing: every choice counts the
      prompt as computed and is given blocks that were free, so it reads whatever their last owners left in them. */
  lemma FinishedForkStep(cfg: Config, st: Sched, kv: Cache, parent: SeqId, tokens: seq<u32>)
    requires Round(cfg, st) && cfg.blockSize > 0 && parent in st.seqs
    requires var s := st.seqs[parent]; IsFinished(s) && !NeedsPrefill(s) && s.computed == s.promptLen
    requires |st.pool.free| >= Room(cfg, st.seqs[parent], |tokens|) + st.pool.watermark
    ensures var (u, after, err) := ForkStep(cfg, st, kv, parent, tokens);
      err.None? && after == kv && AllFostered(cfg, st, st.seqs[parent], tokens, u)
  {
    hide *;
    RoundParts(cfg, st);
    CoreParts(cfg, st);
    FinishedHoldsNone(cfg, st.seqs[parent]);
    FreeHandy(st.pool);
    FinishedSeeded(cfg, st, parent, tokens);
    ForkStepIs(cfg, st, kv, parent, tokens);
    NothingCopied(st, st, kv);
  }

  /** One fostered orphan per token. */
  ghost predicate AllFostered(cfg: Config, st: Sched, s: Sequence, tokens: seq<u32>, u: Sched)
    requires cfg.blockSize > 0
  {
    forall k :: 0 <= k < |tokens| ==> FosteredAt(cfg, st, s, tokens, u, k)
  }

  ghost predicate FosteredAt(cfg: Config, st: Sched, s: Sequence, tokens: seq<u32>, u: Sched, k: nat)
    requires cfg.blockSize > 0 && k < |tokens|
  {
    st.nextId + k in u.seqs && Fostered(cfg, s, tokens[k], st.pool.free, u.seqs[st.nextId + k])
  }

  lemma FinishedSeeded(cfg: Config, st: Sched, parent: SeqId, tokens: seq<u32>)
    requires cfg.blockSize > 0 && QueuesOk(st) && Handy(st.pool) && parent in st.seqs && st.seqs[parent].blocks == [] && !NeedsPrefill(st.seqs[parent])
    requires |st.pool.free| >= Room(cfg, st.seqs[parent], |tokens|) + st.pool.watermark
    ensures var (t, fork, err) := ForkSeq(cfg, st, parent, |tokens|);
      err.None? && fork.copies == []
      && var (u, err') := SeedAll(cfg, t, fork.ids, tokens);
      err'.None? && AllFostered(cfg, st, st.seqs[parent], tokens, u)
  {
    hide *;
    FinishedForked(cfg, st, parent, |tokens|);
    var (t, fork, _) := ForkSeq(cfg, st, parent, |tokens|);
    SeedOrphans(cfg, t, fork.ids, tokens, st.seqs[parent], st.pool.free);
    ByIds(cfg, st, st.seqs[parent], tokens, SeedAll(cfg, t, fork.ids, tokens).0, fork.ids);
  }

  lemma FinishedForked(cfg: Config, st: Sched, parent: SeqId, extra: nat)
    requires cfg.blockSize > 0 && QueuesOk(st) && parent in st.seqs && st.seqs[parent].blocks == [] && !NeedsPrefill(st.seqs[parent])
    ensures var (t, fork, err) := ForkSeq(cfg, st, parent, extra);
      err.None? && t.pool == st.pool && fork.copies == [] && |fork.ids| == extra && NoDup(fork.ids)
      && (forall k :: 0 <= k < |fork.ids| ==> fork.ids[k] == st.nextId + k)
      && forall id :: id in fork.ids ==> id in t.seqs && t.seqs[id] == Orphan(st.seqs[parent])
  {
    hide *;
    var s := st.seqs[parent];
    IdsBelow(st);
    OrphanedNone(st, s);
    FinishedForkIs(cfg, st, s, extra, st, Fork([], []));
    FinishedForkSeq(cfg, st, parent, extra);
    var (t, fork, _) := ForkSeq(cfg, st, parent, extra);
    OrphanedIds(st, s, t, fork.ids);
  }

  lemma ByIds(cfg: Config, st: Sched, s: Sequence, tokens: seq<u32>, u: Sched, ids: seq<SeqId>)
    requires cfg.blockSize > 0 && |ids| == |tokens| && forall k :: 0 <= k < |ids| ==> ids[k] == st.nextId + k
    requires forall k :: 0 <= k < |ids| ==> ids[k] in u.seqs && Fostered(cfg, s, tokens[k], st.pool.free, u.seqs[ids[k]])
    ensures AllFostered(cfg, st, s, tokens, u)
  {
    hide Fostered;
    forall k | 0 <= k < |tokens| ensures FosteredAt(cfg, st, s, tokens, u, k) {
      assert ids[k] == st.nextId + k;
    }
  }

  /** Every child has blocks for all it counts as computed. */
  ghost predicate AllCovered(cfg: Config, st: Sched, extra: nat, t: Sched)
    requires cfg.blockSize > 0
  {
    forall id: SeqId :: st.nextId <= id < st.nextId + extra ==> id in t.seqs && Covered(cfg, t.seqs[id])
  }

  predicate Covered(cfg: Config, s: Sequence)
    requires cfg.blockSize > 0
  {
    BlocksFor(cfg.blockSize, s.computed) <= |s.blocks|
  }

  /** A leader that finished with its first token has given its blocks back: the fork still reports success, and every
      child counts a prompt it holds no blocks for. So a fork covers its children's prompt, one and all, exactly when the
      leader is live, and covers none of them otherwise. */
  lemma ForkNeedsLiveParent(cfg: Config, st: Sched, parent: SeqId, extra: nat)
    requires Round(cfg, st) && cfg.blockSize > 0 && parent in st.seqs && extra > 0
    requires var s := st.seqs[parent];
      !NeedsPrefill(s) && s.computed == s.promptLen && (IsActive(s) ==> |st.pool.free| >= extra + st.pool.watermark)
    ensures var (t, fork, err) := ForkSeq(cfg, st, parent, extra);
      err.None? && (AllCovered(cfg, st, extra, t) <==> !IsFinished(st.seqs[parent]))
      && (IsFinished(st.seqs[parent]) ==> forall id: SeqId :: st.nextId <= id < st.nextId + extra ==> id in t.seqs && !Covered(cfg, t.seqs[id]))
  {
    hide *;
    var s := st.seqs[parent];
    RoundParts(cfg, st);
    CoreParts(cfg, st);
    LiveOrFinished(cfg, s);
    var (t, fork, err) := ForkSeq(cfg, st, parent, extra);
    if IsFinished(s) {
      FinishedHoldsNone(cfg, s);
      FinishedForked(cfg, st, parent, extra);
      forall id: SeqId | st.nextId <= id < st.nextId + extra ensures id in t.seqs && !Covered(cfg, t.seqs[id]) {
        assert fork.ids[id - st.nextId] == id;
        assert id in fork.ids;
        OrphanUncovered(cfg, s);
      }
      Uncovered(cfg, st, extra, t);
    } else {
      LiveIsParent(cfg, s);
      ForkSucceedsIff(cfg, st, parent, extra);
      MidwayParts(cfg, st, parent, t, fork);
      FamilyIds(cfg, st, s, t, fork);
      CoreParts(cfg, t);
      forall id: SeqId | st.nextId <= id < st.nextId + extra ensures id in t.seqs && Covered(cfg, t.seqs[id]) {
        ChildrenAt(cfg, st, s, t, fork, id);
        IsChildIn(st, t, id);
        ActiveCovered(cfg, t.seqs[id]);
        CoveredIs(cfg, t.seqs[id]);
      }
      CoveredAll(cfg, st, extra, t);
    }
  }

  lemma LiveOrFinished(cfg: Config, s: Sequence)
    requires cfg.blockSize > 0 && BasicOk(cfg, s) && !NeedsPrefill(s) && s.computed == s.promptLen
    ensures IsFinished(s) || (IsActive(s) && !IsFinished(s))
    ensures s.computed > 0
  {}

  lemma OrphanUncovered(cfg: Config, s: Sequence)
    requires cfg.blockSize > 0 && s.computed > 0
    ensures !Covered(cfg, Orphan(s))
  {
    BlocksForCovers(cfg.blockSize, s.computed, 0);
    assert 0 / cfg.blockSize == 0;
  }

  lemma Uncovered(cfg: Config, st: Sched, extra: nat, t: Sched)
    requires cfg.blockSize > 0 && extra > 0 && st.nextId in t.seqs && !Covered(cfg, t.seqs[st.nextId])
    ensures !AllCovered(cfg, st, extra, t)
  {
    hide Covered;
  }

  lemma CoveredIs(cfg: Config, s: Sequence)
    requires cfg.blockSize > 0 && BlocksFor(cfg.blockSize, s.computed) <= |s.blocks|
    ensures Covered(cfg, s)
  {}

  lemma CoveredAll(cfg: Config, st: Sched, extra: nat, t: Sched)
    requires cfg.blockSize > 0 && forall id: SeqId :: st.nextId <= id < st.nextId + extra ==> id in t.seqs && Covered(cfg, t.seqs[id])
    ensures AllCovered(cfg, st, extra, t)
  {}

  lemma FinishedHoldsNone(cfg: Config, s: Sequence)
    requires cfg.blockSize > 0 && BasicOk(cfg, s) && IsFinished(s)
    ensures s.blocks == []
  {}

  lemma OrphanedNone(st: Sched, s: Sequence)
    requires forall id :: id in st.seqs ==> id < st.nextId
    ensures Orphaned(st, s, st.nextId, st)
  {}

  lemma OrphanedIds(st: Sched, s: Sequence, t: Sched, ids: seq<SeqId>)
    requires Orphaned(st, s, st.nextId, t) && |ids| == t.nextId - st.nextId && forall k :: 0 <= k < |ids| ==> ids[k] == st.nextId + k
    ensures t.pool == st.pool && NoDup(ids) && forall id :: id in ids ==> id in t.seqs && t.seqs[id] == Orphan(s)
  {
    hide Orphan;
  }

  lemma FinishedForkSeq(cfg: Config, st: Sched, parent: SeqId, extra: nat)
    requires cfg.blockSize > 0 && parent in st.seqs && !NeedsPrefill(st.seqs[parent])
    ensures ForkSeq(cfg, st, parent, extra) == ForkLoop(cfg, st, st.seqs[parent], extra, Fork([], []))
  {}

  lemma FreeHandy(p: Pool)
    requires PoolOk(p)
    ensures Handy(p)
  {}

  // ------------------------------------------------- a choice that ended at once

  /** A choice as it was before its first token. */
  function BeforeSeed(c: Sequence): Sequence {
    c.(tokens := Upto(c.tokens, c.promptLen))
  }

  /** The text was complete before its last token. */
  ghost predicate PastItsEnd(cfg: Config, s: Sequence) {
    exists n :: s.promptLen < n < |s.tokens| && Complete(cfg, Earlier(s, n))
  }

  lemma SeededEnds(cfg: Config, s: Sequence, token: u32, c: Sequence)
    requires cfg.blockSize > 0 && BasicOk(cfg, s) && Steady(cfg, s) && ForkParent(cfg, s) && Choice(s, token, c)
    ensures c == PushToken(BeforeSeed(c), token)
    ensures IsFinished(Appended(cfg, BeforeSeed(c), token)) <==> token in cfg.eos || token in s.params.stopTokenIds
    ensures Complete(cfg, c) <==> token in cfg.eos || token in s.params.stopTokenIds
  {
    assert |c.tokens| == s.promptLen + 1 && c.tokens[|c.tokens| - 1] == token;
    assert Upto(c.tokens, c.promptLen) == Upto(s.tokens, s.promptLen);
  }

  lemma ChoicesAt(cfg: Config, st: Sched, s: Sequence, tokens: seq<u32>, u: Sched, k: nat)
    requires Choices(cfg, st, s, tokens, u) && k < |tokens|
    ensures st.nextId + k in u.seqs && Choice(s, tokens[k], u.seqs[st.nextId + k]) && IsActive(u.seqs[st.nextId + k])
  {}

  /** A choice seeded with `token` is running; a commit of that token would have finished it exactly when `stops`. */
  ghost predicate LeftRunning(cfg: Config, u: Sched, id: SeqId, token: u32, stops: bool) {
    id in u.seqs && id in u.running
    && var c := u.seqs[id];
    IsActive(c) && c == PushToken(BeforeSeed(c), token)
    && (IsFinished(Appended(cfg, BeforeSeed(c), token)) <==> stops) && (Complete(cfg, c) <==> stops)
  }

  lemma LeftRunningMade(cfg: Config, u: Sched, id: SeqId, token: u32, stops: bool)
    requires id in u.seqs && id in u.running && IsActive(u.seqs[id]) && u.seqs[id] == PushToken(BeforeSeed(u.seqs[id]), token)
    requires (IsFinished(Appended(cfg, BeforeSeed(u.seqs[id]), token)) <==> stops) && (Complete(cfg, u.seqs[id]) <==> stops)
    ensures LeftRunning(cfg, u, id, token, stops)
  {}

  /** `seed_fork` does not ask whether the first token ends the text. After a fork every choice is running, though a
      commit of that same token would have finished it exactly when the token is one that stops. */
  lemma SeededPastItsEndIff(cfg: Config, st: Sched, kv: Cache, parent: SeqId, tokens: seq<u32>, k: nat)
    requires Round(cfg, st) && cfg.blockSize > 0 && KvOk(cfg, st, kv) && parent in st.seqs && ForkParent(cfg, st.seqs[parent])
    requires k < |tokens| && |st.pool.free| >= |tokens| + st.pool.watermark
    ensures var u, id := ForkStep(cfg, st, kv, parent, tokens).0, st.nextId + k;
      var stops := tokens[k] in cfg.eos || tokens[k] in st.seqs[parent].params.stopTokenIds;
      LeftRunning(cfg, u, id, tokens[k], stops)
  {
    hide *;
    var s, id := st.seqs[parent], st.nextId + k;
    ForkStepOk(cfg, st, kv, parent, tokens);
    var u := ForkStep(cfg, st, kv, parent, tokens).0;
    RoundParts(cfg, st);
    CoreParts(cfg, st);
    AllSteadyAt(cfg, st.seqs, parent);
    ChoicesAt(cfg, st, s, tokens, u, k);
    RoundParts(cfg, u);
    RunningIs(cfg, u, id);
    SeededEnds(cfg, s, tokens[k], u.seqs[id]);
    LeftRunningMade(cfg, u, id, tokens[k], tokens[k] in cfg.eos || tokens[k] in s.params.stopTokenIds);
  }

  lemma LandedGrows(cfg: Config, seqs: map<SeqId, Sequence>, plan: Plan, sampled: seq<u32>, after: map<SeqId, Sequence>, id: SeqId)
    requires cfg.blockSize > 0 && |sampled| == |plan.sampledSeqs| && CommittedAll(cfg, seqs, plan, sampled, after)
    requires id in seqs && id in plan.sampledSeqs && id in plan.batchSeqs
    ensures id in after && exists x :: SameSpeech(PushToken(seqs[id], x), after[id])
  {
    hide Committed, RowLen;
    var i :| 0 <= i < |plan.batchSeqs| && plan.batchSeqs[i] == id;
    var k :| 0 <= k < |plan.sampledSeqs| && plan.sampledSeqs[k] == id;
    CommittedSpeech(cfg, seqs[id], RowLen(plan.batch, i), Some(sampled[k]), after[id]);
  }

  lemma GrownPast(cfg: Config, s: Sequence, x: u32, t: Sequence)
    requires SameSpeech(PushToken(s, x), t) && Complete(cfg, s) && s.promptLen < |s.tokens|
    ensures PastItsEnd(cfg, t)
  {
    var n := |s.tokens|;
    assert Upto(t.tokens, n) == s.tokens;
    SameComplete(cfg, s, Earlier(t, n));
  }

  lemma CompleteHasSome(cfg: Config, s: Sequence)
    requires Complete(cfg, s)
    ensures s.promptLen < |s.tokens|
  {}

  lemma SampledInBatch(cfg: Config, st: Sched, plan: Plan)
    requires cfg.blockSize > 0 && InFlight(cfg, st, plan)
    ensures NoDup(plan.batchSeqs) && SampledAt(plan) && forall id :: id in plan.sampledSeqs ==> id in plan.batchSeqs
  {
    hide Shape, Flying;
  }

  /** The next commit that samples such a choice writes past the end of its text. */
  lemma SampledPastItsEnd(cfg: Config, w: World, id: SeqId, sampled: seq<u32>)
    requires WorldOk(cfg, w) && cfg.blockSize > 0 && Enabled(cfg, w, Land(sampled)) && w.flight.Some?
    requires id in w.st.seqs && id in w.flight.value.plan.sampledSeqs && Complete(cfg, w.st.seqs[id])
    ensures var t := Take(cfg, w, Land(sampled)).st.seqs;
      id in t && PastItsEnd(cfg, t[id])
  {
    hide *;
    WorldParts(cfg, w);
    EnabledIs(cfg, w, Land(sampled));
    TakeIs(cfg, w, Land(sampled));
    var plan := w.flight.value.plan;
    FlightParts(cfg, w.st, w.kv, w.flight.value);
    SampledInBatch(cfg, w.st, plan);
    CommitIs(cfg, w.st, plan, sampled);
    var after := Commit(cfg, w.st, plan, sampled).seqs;
    LandedGrows(cfg, w.st.seqs, plan, sampled, after, id);
    var x :| SameSpeech(PushToken(w.st.seqs[id], x), after[id]);
    CompleteHasSome(cfg, w.st.seqs[id]);
    GrownPast(cfg, w.st.seqs[id], x, after[id]);
  }
}
