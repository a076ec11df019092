/** The intrusive free list of crates/vapi-cache/src/pool.rs, and the order it keeps. */
module FreeList {
  import opened Prelude
  import opened Hashing
  import opened PoolModel

  // -------------------------------------------------------------- the links

  /** The 32-bit index that names no block. */
  const Nowhere: nat := 0xFFFF_FFFF

  /** `prev`, `next`, `lru_head` and `lru_tail`. */
  datatype Links = Links(prev: seq<nat>, next: seq<nat>, head: nat, tail: nat)

  function At(s: seq<BlockId>, i: int): nat {
    if 0 <= i < |s| then s[i] else Nowhere
  }

  ghost predicate Ends(l: Links, free: seq<BlockId>) {
    l.head == At(free, 0) && l.tail == At(free, |free| - 1)
  }

  ghost predicate Inside(l: Links, free: seq<BlockId>) {
    |l.next| == |l.prev| <= Nowhere && NoDup(free) && forall i :: 0 <= i < |free| ==> free[i] < |l.prev|
  }

  ghost predicate Joined(l: Links, free: seq<BlockId>)
    requires Inside(l, free)
  {
    forall i :: 0 <= i < |free| ==> l.prev[free[i]] == At(free, i - 1) && l.next[free[i]] == At(free, i + 1)
  }

  /** The links spell out `free`, in both directions. */
  ghost predicate Linked(l: Links, free: seq<BlockId>) {
    Inside(l, free) && Ends(l, free) && Joined(l, free)
  }

  function PushFront(l: Links, id: nat): Links {
    if id >= |l.prev| || id >= |l.next| || |l.prev| != |l.next| then l
    else
      Links((if l.head != Nowhere && l.head < |l.prev| then l.prev[id := Nowhere][l.head := id] else l.prev[id := Nowhere]),
            l.next[id := l.head],
            id,
            if l.head != Nowhere then l.tail else id)
  }

  function PushBack(l: Links, id: nat): Links {
    if id >= |l.prev| || id >= |l.next| || |l.prev| != |l.next| then l
    else
      Links(l.prev[id := l.tail],
            (if l.tail != Nowhere && l.tail < |l.next| then l.next[id := Nowhere][l.tail := id] else l.next[id := Nowhere]),
            (if l.tail != Nowhere then l.head else id),
            id)
  }

  function Unlink(l: Links, id: nat): Links {
    if id >= |l.prev| || id >= |l.next| || |l.prev| != |l.next| then l
    else
      var p, n := l.prev[id], l.next[id];
      var next := if p < |l.next| then l.next[p := n] else l.next;
      var prev := if n < |l.prev| then l.prev[n := p] else l.prev;
      Links(prev[id := Nowhere], next[id := Nowhere], if p != Nowhere then l.head else n, if n != Nowhere then l.tail else p)
  }

  lemma PushFrontRaw(l: Links, id: nat, x: nat)
    requires id < |l.prev| && |l.next| == |l.prev| <= Nowhere && x < |l.prev|
    ensures var m := PushFront(l, id);
      |m.prev| == |l.prev| && |m.next| == |l.next|
      && m.next[x] == (if x == id then l.head else l.next[x])
      && m.prev[x] == (if x == l.head then id else if x == id then Nowhere else l.prev[x])
      && m.head == id && m.tail == (if l.head != Nowhere then l.tail else id)
  {}

  lemma FirstOnly(free: seq<BlockId>, i: nat)
    requires NoDup(free) && i < |free|
    ensures free[i] == At(free, 0) <==> i == 0
  {}

  lemma AtFront(free: seq<BlockId>, id: nat, i: int)
    requires 0 <= i <= |free|
    ensures At([id] + free, i + 1) == At(free, i)
    ensures At([id] + free, i - 1) == if i == 0 then Nowhere else if i == 1 then id else free[i - 2]
    ensures At([id] + free, 0) == id && At([id] + free, |free|) == if free == [] then id else free[|free| - 1]
  {}

  lemma FrontEnds(m: Links, free: seq<BlockId>, id: nat)
    requires NoDup([id] + free) && |m.next| == |m.prev| <= Nowhere && id < |m.prev| && m.head == id && m.tail == (if free == [] then id else free[|free| - 1])
    requires forall i :: 0 <= i < |free| ==> free[i] < |m.prev|
    ensures Inside(m, [id] + free) && Ends(m, [id] + free)
  {}

  lemma PushFrontOk(l: Links, free: seq<BlockId>, id: nat)
    requires Linked(l, free) && id < |l.prev| && id !in free
    ensures Linked(PushFront(l, id), [id] + free)
  {
    hide *;
    var m, out := PushFront(l, id), [id] + free;
    LinkedParts(l, free);
    NoDupFront(free, id);
    PushFrontRaw(l, id, id);
    forall i | 0 <= i < |out| ensures out[i] < |m.prev| && out[i] < |m.next| && m.prev[out[i]] == At(out, i - 1) && m.next[out[i]] == At(out, i + 1) {
      AtFront(free, id, i);
      PushFrontRaw(l, id, out[i]);
      if i > 0 {
        LinkedAt(l, free, i - 1);
        FirstOnly(free, i - 1);
        assert free[i - 1] in free;
        AtIs(free, i - 2);
      } else {
        AtIs(free, 0);
        assert free != [] ==> free[0] in free;
      }
    }
    AtIs(free, 0);
    HeadSome(l, free);
    FrontEnds(m, free, id);
    LinkedMade(m, out);
  }

  lemma NoDupFront(free: seq<BlockId>, id: nat)
    requires NoDup(free) && id !in free
    ensures NoDup([id] + free)
  {
    NoDupJoin([id], free);
  }

  lemma HeadSome(l: Links, free: seq<BlockId>)
    requires Linked(l, free)
    ensures l.head != Nowhere <==> free != []
  {
    LinkedParts(l, free);
  }

  lemma PushBackRaw(l: Links, id: nat, x: nat)
    requires id < |l.prev| && |l.next| == |l.prev| <= Nowhere && x < |l.prev|
    ensures var m := PushBack(l, id);
      |m.prev| == |l.prev| && |m.next| == |l.next|
      && m.prev[x] == (if x == id then l.tail else l.prev[x])
      && m.next[x] == (if x == l.tail then id else if x == id then Nowhere else l.next[x])
      && m.tail == id && m.head == (if l.tail != Nowhere then l.head else id)
  {}

  lemma LastOnly(free: seq<BlockId>, i: nat)
    requires NoDup(free) && i < |free|
    ensures free[i] == At(free, |free| - 1) <==> i == |free| - 1
  {}

  lemma AtPushed(free: seq<BlockId>, id: nat, i: int)
    requires 0 <= i <= |free|
    ensures At(free + [id], i - 1) == At(free, i - 1)
    ensures At(free + [id], i + 1) == if i + 1 < |free| then free[i + 1] else if i + 1 == |free| then id else Nowhere
    ensures At(free + [id], |free|) == id && At(free + [id], 0) == if free == [] then id else free[0]
  {}

  lemma LinkedParts(l: Links, free: seq<BlockId>)
    requires Linked(l, free)
    ensures NoDup(free) && |l.next| == |l.prev| <= Nowhere && l.head == At(free, 0) && l.tail == At(free, |free| - 1)
    ensures forall i :: 0 <= i < |free| ==> free[i] < |l.prev|
    ensures free == [] ==> l.tail == Nowhere
    ensures free != [] ==> l.tail == free[|free| - 1] && l.head == free[0]
  {}

  lemma PushBackOk(l: Links, free: seq<BlockId>, id: nat)
    requires Linked(l, free) && id < |l.prev| && id !in free
    ensures Linked(PushBack(l, id), free + [id])
  {
    hide *;
    var m, out, n := PushBack(l, id), free + [id], |free|;
    LinkedParts(l, free);
    NoDupAppend(free, id);
    PushBackRaw(l, id, id);
    FirstInside(l, free);
    forall i | 0 <= i < |out| ensures out[i] < |m.prev| && out[i] < |m.next| && m.prev[out[i]] == At(out, i - 1) && m.next[out[i]] == At(out, i + 1) {
      AtPushed(free, id, i);
      PushBackRaw(l, id, out[i]);
      if i < n {
        LinkedAt(l, free, i);
        LastOnly(free, i);
        assert free[i] in free;
        AtIs(free, i + 1);
      } else if n > 0 {
        assert free[n - 1] in free;
        AtIs(free, n - 1);
      } else {
        AtIs(free, n - 1);
      }
    }
    AtPushed(free, id, 0);
    PushedEnds(m, free, id);
    LinkedMade(m, out);
  }

  lemma FirstInside(l: Links, free: seq<BlockId>)
    requires Linked(l, free)
    ensures free != [] ==> l.tail < Nowhere
  {
    LinkedParts(l, free);
  }

  lemma AtIs(s: seq<BlockId>, i: int)
    ensures At(s, i) == if 0 <= i < |s| then s[i] else Nowhere
  {}

  lemma PushedEnds(m: Links, free: seq<BlockId>, id: nat)
    requires NoDup(free + [id]) && |m.next| == |m.prev| <= Nowhere && id < |m.prev| && m.tail == id && m.head == (if free == [] then id else free[0])
    requires forall i :: 0 <= i < |free| ==> free[i] < |m.prev|
    ensures Inside(m, free + [id]) && Ends(m, free + [id])
  {}

  lemma CutParts(free: seq<BlockId>, k: nat)
    requires NoDup(free) && k < |free|
    ensures var out := free[..k] + free[k + 1..];
      NoDup(out) && |out| == |free| - 1 && free[k] !in out && (forall b :: b in out ==> b in free)
      && (forall i :: 0 <= i < k ==> out[i] == free[i]) && (forall i :: k <= i < |out| ==> out[i] == free[i + 1])
  {}

  lemma LinkedAt(l: Links, free: seq<BlockId>, i: nat)
    requires Linked(l, free) && i < |free|
    ensures free[i] < |l.prev| && l.prev[free[i]] == At(free, i - 1) && l.next[free[i]] == At(free, i + 1)
  {
    assert free[i] in free;
  }

  lemma UnlinkAt(l: Links, id: nat, x: nat)
    requires id < |l.prev| && |l.next| == |l.prev| && x < |l.prev| && x != id
    ensures var m := Unlink(l, id);
      |m.prev| == |l.prev| && |m.next| == |l.next|
      && m.prev[x] == (if x == l.next[id] then l.prev[id] else l.prev[x])
      && m.next[x] == (if x == l.prev[id] then l.next[id] else l.next[x])
  {}

  lemma Neighbours(free: seq<BlockId>, k: nat, i: nat, n: nat)
    requires NoDup(free) && k < |free| && i < |free| && i != k && free[i] < n <= Nowhere
    ensures free[i] != free[k]
    ensures free[i] == At(free, k + 1) <==> i == k + 1
    ensures free[i] == At(free, k - 1) <==> i + 1 == k
  {}

  /** One surviving block's links after its neighbour is cut out. */
  lemma UnlinkOne(l: Links, free: seq<BlockId>, k: nat, i: nat)
    requires Linked(l, free) && k < |free| && i < |free| && i != k
    ensures var m := Unlink(l, free[k]);
      free[i] < |m.prev| && free[i] < |m.next| && |m.prev| == |l.prev| && |m.next| == |l.next|
      && m.prev[free[i]] == (if i == k + 1 then At(free, k - 1) else At(free, i - 1))
      && m.next[free[i]] == (if i + 1 == k then At(free, k + 1) else At(free, i + 1))
  {
    LinkedAt(l, free, i);
    LinkedAt(l, free, k);
    assert NoDup(free) && |l.next| == |l.prev| <= Nowhere;
    hide Linked, Unlink, NoDup, At;
    Neighbours(free, k, i, |l.prev|);
    UnlinkAt(l, free[k], free[i]);
  }

  lemma UnlinkEnds(l: Links, free: seq<BlockId>, k: nat)
    requires Linked(l, free) && k < |free|
    ensures var m := Unlink(l, free[k]);
      m.head == (if k > 0 then At(free, 0) else At(free, 1)) && m.tail == (if k + 1 < |free| then At(free, |free| - 1) else At(free, k - 1))
      && |m.prev| == |l.prev| && |m.next| == |l.next|
  {
    LinkedAt(l, free, k);
    assert k > 0 ==> free[k - 1] in free;
    assert k + 1 < |free| ==> free[k + 1] in free;
  }

  lemma CutAt(free: seq<BlockId>, k: nat, i: nat)
    requires k < |free| && i < |free| - 1
    ensures var out := free[..k] + free[k + 1..];
      var j := if i < k then i else i + 1;
      |out| == |free| - 1 && out[i] == free[j]
      && At(out, i - 1) == (if j == k + 1 then At(free, k - 1) else At(free, j - 1))
      && At(out, i + 1) == (if j + 1 == k then At(free, k + 1) else At(free, j + 1))
  {}

  lemma CutEnds(l: Links, m: Links, free: seq<BlockId>, k: nat)
    requires Linked(l, free) && k < |free| && m == Unlink(l, free[k])
    ensures Ends(m, free[..k] + free[k + 1..])
  {
    UnlinkEnds(l, free, k);
    hide Linked, Unlink;
  }

  lemma UnlinkOk(l: Links, free: seq<BlockId>, k: nat)
    requires Linked(l, free) && k < |free|
    ensures Linked(Unlink(l, free[k]), free[..k] + free[k + 1..])
  {
    hide *;
    var m, out := Unlink(l, free[k]), free[..k] + free[k + 1..];
    UnlinkEnds(l, free, k);
    InsideCut(l, m, free, k);
    CutEnds(l, m, free, k);
    forall i | 0 <= i < |out| ensures out[i] < |m.prev| && out[i] < |m.next| && m.prev[out[i]] == At(out, i - 1) && m.next[out[i]] == At(out, i + 1) {
      UnlinkOne(l, free, k, if i < k then i else i + 1);
      CutAt(free, k, i);
    }
    LinkedMade(m, out);
  }

  lemma InsideCut(l: Links, m: Links, free: seq<BlockId>, k: nat)
    requires Linked(l, free) && k < |free| && |m.prev| == |l.prev| && |m.next| == |l.next|
    ensures Inside(m, free[..k] + free[k + 1..])
  {
    CutParts(free, k);
    assert forall i :: 0 <= i < |free| ==> free[i] < |l.prev|;
  }

  lemma LinkedMade(l: Links, free: seq<BlockId>)
    requires Inside(l, free) && Ends(l, free)
    requires forall i :: 0 <= i < |free| ==> free[i] < |l.prev| && free[i] < |l.next| && l.prev[free[i]] == At(free, i - 1) && l.next[free[i]] == At(free, i + 1)
    ensures Linked(l, free)
  {
    hide Ends;
  }

  lemma {:induction false} WithoutIsCut(free: seq<BlockId>, k: nat)
    requires NoDup(free) && k < |free|
    ensures Without(free, free[k]) == free[..k] + free[k + 1..]
  {
    hide NoDup;
    NoDupTail(free);
    if k == 0 {
      WithoutAbsent(free[1..], free[0]);
      assert free[..0] + free[1..] == free[1..];
    } else {
      var rest := free[1..];
      assert rest[k - 1] == free[k] && rest[k - 1] in rest;
      WithoutIsCut(rest, k - 1);
      assert free[..k] == [free[0]] + rest[..k - 1] && free[k + 1..] == rest[k..];
    }
  }

  /** Reviving a cached block from anywhere in the list. */
  lemma UnlinkMember(l: Links, free: seq<BlockId>, id: BlockId)
    requires Linked(l, free) && id in free
    ensures id < |l.prev| <= Nowhere && Linked(Unlink(l, id), Without(free, id))
  {
    var k :| 0 <= k < |free| && free[k] == id;
    UnlinkOk(l, free, k);
    WithoutIsCut(free, k);
    assert id < |l.prev| <= Nowhere;
    hide Linked, Unlink;
  }

  // ----------------------------------------------------------- traces, with a clock

  datatype PoolOp =
    | AllocateOp
    | FreeOp(block: BlockId)
    | IncRefOp(block: BlockId)
    | PublishOp(block: BlockId, hash: BlockHash)
    | LookupOp(hash: BlockHash)

  /** A pool, when each block last became free, and the time. */
  datatype Clocked = Clocked(pool: Pool, freedAt: map<BlockId, nat>, now: nat)

  function Apply(p: Pool, op: PoolOp): Pool {
    match op
    case AllocateOp => Allocate(p).0
    case FreeOp(b) => Release(p, b)
    case IncRefOp(b) => IncRef(p, b)
    case PublishOp(b, h) => Publish(p, b, h).0
    case LookupOp(h) => Lookup(p, h).0
  }

  /** References are given back and shared by their holders, and only referenced blocks are published. */
  predicate Proper(p: Pool, op: PoolOp) {
    match op
    case FreeOp(b) => Held(p, b)
    case IncRefOp(b) => Held(p, b)
    case PublishOp(b, h) => Held(p, b)
    case _ => true
  }

  function Tick(c: Clocked, op: PoolOp): Clocked {
    Clocked(Apply(c.pool, op),
            if op.FreeOp? && Held(c.pool, op.block) && c.pool.refs[op.block] == 1 then c.freedAt[op.block := c.now] else c.freedAt,
            c.now + 1)
  }

  function TickAll(c: Clocked, ops: seq<PoolOp>): Clocked
    decreases |ops|
  {
    if ops == [] then c else TickAll(Tick(c, ops[0]), ops[1..])
  }

  ghost predicate ProperRun(p: Pool, ops: seq<PoolOp>)
    decreases |ops|
  {
    ops == [] || (Proper(p, ops[0]) && ProperRun(Apply(p, ops[0]), ops[1..]))
  }

  function FreedAt(c: Clocked, b: BlockId): nat {
    if b in c.freedAt then c.freedAt[b] else 0
  }

  /** Cached blocks on the free list stand in the order in which they became free. */
  ghost predicate Aged(c: Clocked) {
    (forall i, j :: 0 <= i < j < |c.pool.free| && Cached(c.pool, c.pool.free[i]) ==> FreedAt(c, c.pool.free[i]) < FreedAt(c, c.pool.free[j]))
    && forall i :: 0 <= i < |c.pool.free| && Cached(c.pool, c.pool.free[i]) ==> FreedAt(c, c.pool.free[i]) < c.now
  }

  lemma SublistAged(c: Clocked, d: Clocked, x: BlockId)
    requires Aged(c) && d.pool.free == Without(c.pool.free, x) && d.now >= c.now && d.freedAt == c.freedAt
    requires forall b :: b in d.pool.free ==> Cached(d.pool, b) == Cached(c.pool, b)
    ensures Aged(d)
  {
    hide Cached;
    WithoutMembers(c.pool.free, x);
    forall i, j | 0 <= i < j < |d.pool.free| && Cached(d.pool, d.pool.free[i]) ensures FreedAt(d, d.pool.free[i]) < FreedAt(d, d.pool.free[j]) {
      var k, l := WithoutSublist(c.pool.free, x, i, j);
      assert d.pool.free[i] in d.pool.free;
    }
    forall i | 0 <= i < |d.pool.free| && Cached(d.pool, d.pool.free[i]) ensures FreedAt(d, d.pool.free[i]) < d.now {
      assert d.pool.free[i] in d.pool.free;
      assert d.pool.free[i] in c.pool.free;
    }
  }

  lemma AllocateAged(c: Clocked)
    requires PoolOk(c.pool) && Aged(c)
    ensures Aged(Tick(c, AllocateOp))
  {
    var d := Tick(c, AllocateOp);
    AllocateOk(c.pool);
    if c.pool.free != [] {
      var b := c.pool.free[0];
      assert b in c.pool.free;
      NoDupTail(c.pool.free);
      WithoutAbsent(c.pool.free[1..], b);
      assert d.pool.free == c.pool.free[1..] == Without(c.pool.free, b);
      hide PoolOk, Aged;
      SublistAged(c, d, b);
    }
  }

  lemma FreeAged(c: Clocked, b: BlockId)
    requires PoolOk(c.pool) && Aged(c) && Held(c.pool, b)
    ensures Aged(Tick(c, FreeOp(b)))
  {
    var d := Tick(c, FreeOp(b));
    HeldNotFree(c.pool, b);
    EmptiesKnown(c.pool);
    hide PoolOk;
    if c.pool.refs[b] == 1 {
      if Cached(c.pool, b) {
        assert d.pool.free == c.pool.free + [b];
        BackAged(c, d, b);
      } else {
        assert d.pool.free == [b] + c.pool.free;
        FrontAged(c, d, b);
      }
    }
  }

  lemma HeldNotFree(p: Pool, b: BlockId)
    requires PoolOk(p) && Held(p, b)
    ensures b !in p.free
  {}

  lemma BackAged(c: Clocked, d: Clocked, b: BlockId)
    requires Aged(c) && b !in c.pool.free && d.pool.free == c.pool.free + [b] && d.pool.hashOf == c.pool.hashOf
    requires d.freedAt == c.freedAt[b := c.now] && d.now == c.now + 1
    ensures Aged(d)
  {
    hide Cached;
    CachedFrame(c.pool, d.pool);
    assert forall i :: 0 <= i < |c.pool.free| ==> d.pool.free[i] == c.pool.free[i] && c.pool.free[i] in c.pool.free;
    assert forall i :: 0 <= i < |c.pool.free| ==> FreedAt(d, c.pool.free[i]) == FreedAt(c, c.pool.free[i]);
  }

  lemma FrontAged(c: Clocked, d: Clocked, b: BlockId)
    requires Aged(c) && b !in c.pool.free && d.pool.free == [b] + c.pool.free && d.pool.hashOf == c.pool.hashOf && !Cached(c.pool, b)
    requires d.freedAt == c.freedAt[b := c.now] && d.now == c.now + 1
    ensures Aged(d)
  {
    hide Cached;
    CachedFrame(c.pool, d.pool);
    assert forall i :: 0 < i < |d.pool.free| ==> d.pool.free[i] == c.pool.free[i - 1] && d.pool.free[i] in c.pool.free;
    assert forall i :: 0 < i < |d.pool.free| ==> FreedAt(d, d.pool.free[i]) == FreedAt(c, c.pool.free[i - 1]);
  }

  lemma CachedFrame(p: Pool, q: Pool)
    requires q.hashOf == p.hashOf
    ensures forall b :: Cached(q, b) == Cached(p, b)
  {}

  lemma EmptiesKnown(p: Pool)
    requires PoolOk(p)
    ensures EmptiesFirst(p)
  {}

  lemma ReferenceAged(c: Clocked, d: Clocked, b: BlockId)
    requires PoolOk(c.pool) && Aged(c) && d.pool == Reference(c.pool, b) && d.now >= c.now && d.freedAt == c.freedAt
    ensures Aged(d)
  {
    if b < |c.pool.refs| && c.pool.refs[b] == 0 {
      SublistAged(c, d, b);
    }
  }

  lemma PublishAged(c: Clocked, b: BlockId, h: BlockHash)
    requires PoolOk(c.pool) && Aged(c) && Held(c.pool, b)
    ensures Aged(Tick(c, PublishOp(b, h)))
  {
    hide PoolOk, Aged, Publish;
    var d := Tick(c, PublishOp(b, h));
    PublishOk(c.pool, b, h);
    HeldNotFree(c.pool, b);
    var canonical := Publish(c.pool, b, h).1;
    if canonical != b {
      ReferenceAged(c, d, canonical);
    } else {
      SameListAged(c, d, b);
    }
  }

  /** Only a block that is not on the list changed. */
  lemma SameListAged(c: Clocked, d: Clocked, b: BlockId)
    requires Aged(c) && b !in c.pool.free && d.pool.free == c.pool.free && d.freedAt == c.freedAt && d.now >= c.now
    requires |d.pool.hashOf| == |c.pool.hashOf| && forall x: nat :: x < |c.pool.hashOf| && x != b ==> d.pool.hashOf[x] == c.pool.hashOf[x]
    ensures Aged(d)
  {
    assert forall i :: 0 <= i < |c.pool.free| ==> c.pool.free[i] in c.pool.free;
  }

  lemma TickOk(c: Clocked, op: PoolOp)
    requires PoolOk(c.pool) && Aged(c) && Proper(c.pool, op)
    ensures PoolOk(Apply(c.pool, op)) && Aged(Tick(c, op)) && Tick(c, op).pool == Apply(c.pool, op)
  {
    hide PoolOk, Aged, Allocate, Release, Publish, Reference;
    match op
    case AllocateOp =>
      AllocateOk(c.pool);
      AllocateAged(c);
    case FreeOp(b) =>
      ReleaseOk(c.pool, b);
      FreeAged(c, b);
    case IncRefOp(b) =>
      IncRefOk(c.pool, b);
      IncRefAged(c, b);
    case PublishOp(b, h) =>
      PublishOk(c.pool, b, h);
      PublishAged(c, b, h);
    case LookupOp(h) =>
      LookupOk(c.pool, h);
      LookupAged(c, h);
  }

  lemma IncRefAged(c: Clocked, b: BlockId)
    requires Aged(c)
    ensures Aged(Tick(c, IncRefOp(b)))
  {}

  lemma LookupAged(c: Clocked, h: BlockHash)
    requires PoolOk(c.pool) && Aged(c)
    ensures Aged(Tick(c, LookupOp(h)))
  {
    if h in c.pool.byHash {
      ReferenceAged(c, Tick(c, LookupOp(h)), c.pool.byHash[h]);
    }
  }

  lemma {:induction false} TickAllOk(c: Clocked, ops: seq<PoolOp>)
    requires PoolOk(c.pool) && Aged(c) && ProperRun(c.pool, ops)
    ensures PoolOk(TickAll(c, ops).pool) && Aged(TickAll(c, ops))
    decreases |ops|
  {
    hide PoolOk, Aged, Proper, Apply;
    if ops != [] {
      TickOk(c, ops[0]);
      TickAllOk(Tick(c, ops[0]), ops[1..]);
    }
  }

  /** After any proper trace of a fresh pool, `allocate` takes cached content only when no empty block is free, and
      then the content that has been free the longest. */
  lemma EvictsOldestCached(numBlocks: nat, blockSize: nat, watermark: nat, ops: seq<PoolOp>)
    requires blockSize > 0 && ProperRun(NewPool(numBlocks, blockSize, watermark), ops)
    ensures var c := TickAll(Clocked(NewPool(numBlocks, blockSize, watermark), map[], 0), ops);
      PoolOk(c.pool)
      && (Allocate(c.pool).1.Some? && Cached(c.pool, Allocate(c.pool).1.value) ==>
            forall b :: b in c.pool.free ==>
              Cached(c.pool, b) && FreedAt(c, Allocate(c.pool).1.value) <= FreedAt(c, b))
  {
    var c0 := Clocked(NewPool(numBlocks, blockSize, watermark), map[], 0);
    NewPoolOk(numBlocks, blockSize, watermark);
    assert Aged(c0);
    TickAllOk(c0, ops);
    hide ProperRun, TickAll;
    var c := TickAll(c0, ops);
    AllocateOk(c.pool);
    if Allocate(c.pool).1.Some? && Cached(c.pool, Allocate(c.pool).1.value) {
      forall b | b in c.pool.free ensures Cached(c.pool, b) && FreedAt(c, Allocate(c.pool).1.value) <= FreedAt(c, b) {
        var i :| 0 <= i < |c.pool.free| && c.pool.free[i] == b;
      }
    }
  }

  /** The proviso is needed: publishing a free block can leave cached content ahead of an empty block. */
  lemma PublishingFreeBreaksOrder(h: BlockHash)
    ensures var p := NewPool(2, 16, 0);
      PoolOk(p) && !Held(p, 0) && !EmptiesFirst(Publish(p, 0, h).0)
  {
    var p := NewPool(2, 16, 0);
    NewPoolOk(2, 16, 0);
    var q := Publish(p, 0, h).0;
    assert q.free[0] == 0 && q.free[1] == 1;
    assert Cached(q, q.free[0]) && !Cached(q, q.free[1]);
  }
}
