/** `ForwardBatch::validate` (crates/vapi-engine/src/backend.rs), and that every batch the scheduler
    emits passes it. */
module Batches {
  import opened Prelude
  import opened PoolModel
  import opened Sequences
  import opened SchedulerModel
  import opened Invariants
  import opened Rounds
  import opened Scheduling
  import opened Kv
  import opened ForwardPass

  // ------------------------------------------------------ what is demanded

  function Rows(b: Batch): nat {
    if |b.cuQ| == 0 then 0 else |b.cuQ| - 1
  }

  ghost predicate Monotone(s: seq<nat>) {
    forall i, j :: 0 <= i <= j < |s| ==> s[i] <= s[j]
  }

  /** The cumulative lengths frame the tokens. */
  ghost predicate Framed(b: Batch) {
    |b.positions| == |b.tokens| && |b.slots| == |b.tokens| && |b.cuK| == |b.cuQ|
    && |b.tables| == Rows(b) && Monotone(b.cuQ) && Monotone(b.cuK)
    && (b.cuQ != [] ==> b.cuQ[0] == 0 && b.cuQ[|b.cuQ| - 1] == |b.tokens|)
  }

  /** Row `i` attends to what it has, through a table that covers it, at consecutive positions. */
  ghost predicate RowFits(b: Batch, numBlocks: nat, blockSize: nat, i: nat)
    requires blockSize > 0 && Framed(b) && i < Rows(b)
  {
    var lo, hi, keys := b.cuQ[i], b.cuQ[i + 1], b.cuK[i + 1] - b.cuK[i];
    hi - lo <= keys && BlocksFor(blockSize, keys) <= |b.tables[i]|
    && (forall j :: 0 <= j < |b.tables[i]| ==> b.tables[i][j] < numBlocks)
    && (forall j :: lo <= j < hi && j < |b.positions| ==> b.positions[j] == b.positions[lo] + (j - lo))
  }

  /** What a paged attention kernel relies on. */
  ghost predicate ValidBatch(b: Batch, numBlocks: nat, blockSize: nat)
    requires blockSize > 0
  {
    Framed(b)
    && (forall i :: 0 <= i < Rows(b) ==> RowFits(b, numBlocks, blockSize, i))
    && NoDup(b.slots)
    && (forall j :: 0 <= j < |b.slots| ==> b.slots[j] < numBlocks * blockSize)
    && (forall j :: 0 <= j < |b.logits| ==> b.logits[j] < |b.tokens|)
  }

  // ------------------------------------------------------- the sorted copy

  function Insert(x: nat, s: seq<nat>): seq<nat> {
    if s == [] || x <= s[0] then [x] + s else [s[0]] + Insert(x, s[1..])
  }

  /** `sort_unstable` on slot numbers. */
  function Sort(s: seq<nat>): seq<nat> {
    if s == [] then [] else Insert(s[0], Sort(s[1..]))
  }

  lemma {:induction false} InsertAdds(x: nat, s: seq<nat>)
    ensures multiset(Insert(x, s)) == multiset(s) + multiset{x}
  {
    if s != [] && x > s[0] {
      InsertAdds(x, s[1..]);
      assert s == [s[0]] + s[1..];
    }
  }

  lemma MonotoneCons(x: nat, s: seq<nat>)
    ensures Monotone([x] + s) <==> Monotone(s) && (s != [] ==> x <= s[0])
  {
    var t := [x] + s;
    assert forall i :: 0 <= i < |s| ==> t[i + 1] == s[i];
    if Monotone(t) {
      forall i, j | 0 <= i <= j < |s| ensures s[i] <= s[j] {
        assert t[i + 1] <= t[j + 1];
      }
      assert s != [] ==> t[0] <= t[1];
    }
  }

  lemma {:induction false} InsertSorts(x: nat, s: seq<nat>)
    requires Monotone(s)
    ensures Monotone(Insert(x, s)) && Insert(x, s) != []
    ensures Insert(x, s)[0] == x || (s != [] && Insert(x, s)[0] == s[0])
  {
    hide Monotone;
    if s == [] || x <= s[0] {
      MonotoneCons(x, s);
    } else {
      assert s == [s[0]] + s[1..];
      MonotoneCons(s[0], s[1..]);
      InsertSorts(x, s[1..]);
      MonotoneCons(s[0], Insert(x, s[1..]));
    }
  }

  lemma {:induction false} SortIs(s: seq<nat>)
    ensures Monotone(Sort(s)) && multiset(Sort(s)) == multiset(s) && |Sort(s)| == |s|
    ensures forall y :: y in Sort(s) <==> y in s
  {
    if s != [] {
      SortIs(s[1..]);
      InsertAdds(s[0], Sort(s[1..]));
      InsertSorts(s[0], Sort(s[1..]));
      assert s == [s[0]] + s[1..];
      hide Monotone;
      assert multiset(Sort(s)) == multiset(s);
    }
    SameContents(Sort(s), s);
  }

  lemma SameContents(s: seq<nat>, t: seq<nat>)
    requires multiset(s) == multiset(t)
    ensures |s| == |t| && forall y :: y in s <==> y in t
  {
    assert |s| == |multiset(s)| && |t| == |multiset(t)|;
    assert forall y :: y in s <==> y in multiset(s);
  }

  lemma {:induction false} OnceEach(s: seq<nat>)
    requires NoDup(s)
    ensures forall y :: y in s ==> multiset(s)[y] == 1
  {
    if s != [] {
      assert s == [s[0]] + s[1..];
      assert s[0] !in s[1..];
      OnceEach(s[1..]);
      assert s[0] !in multiset(s[1..]);
    }
  }

  lemma TwiceCounts(s: seq<nat>, i: nat, j: nat)
    requires i < j < |s| && s[i] == s[j]
    ensures s[i] in s && multiset(s)[s[i]] >= 2
  {
    var a, b := s[..j], s[j..];
    assert s == a + b && a[i] == s[i] && b[0] == s[j];
    assert a[i] in a && b[0] in b;
    assert multiset(s) == multiset(a) + multiset(b);
  }

  lemma NoDupCounts(s: seq<nat>)
    ensures NoDup(s) <==> forall y :: y in s ==> multiset(s)[y] == 1
  {
    if NoDup(s) {
      OnceEach(s);
    } else {
      var i, j :| 0 <= i < j < |s| && s[i] == s[j];
      TwiceCounts(s, i, j);
    }
  }

  /** Two equal slots are neighbours in the sorted copy. */
  lemma SortedNeighbours(s: seq<nat>)
    ensures NoDup(s) <==> forall k :: 0 <= k < |Sort(s)| - 1 ==> Sort(s)[k] != Sort(s)[k + 1]
  {
    var t := Sort(s);
    SortIs(s);
    NoDupCounts(s);
    NoDupCounts(t);
    if forall k :: 0 <= k < |t| - 1 ==> t[k] != t[k + 1] {
      forall i, j | 0 <= i < j < |t| ensures t[i] != t[j] {
        assert t[i] < t[i + 1] <= t[j];
      }
    }
  }

  // ------------------------------------------------------------ the checker

  datatype Fault =
    | Lengths
    | Start
    | TableCount
    | Order
    | End
    | Keys(row: nat)
    | Coverage(row: nat)
    | Block(row: nat)
    | Gap(row: nat)
    | SlotTwice
    | SlotRange
    | LogitRange

  /** What each complaint means. */
  ghost predicate Broken(b: Batch, numBlocks: nat, blockSize: nat, f: Fault)
    requires blockSize > 0
  {
    match f
    case Lengths => |b.positions| != |b.tokens| || |b.slots| != |b.tokens| || |b.cuK| != |b.cuQ|
    case Start => b.cuQ != [] && b.cuQ[0] != 0
    case TableCount => |b.tables| != Rows(b)
    case Order => !Monotone(b.cuQ) || !Monotone(b.cuK)
    case End => b.cuQ != [] && b.cuQ[|b.cuQ| - 1] != |b.tokens|
    case Keys(i) => Framed(b) && i < Rows(b) && b.cuQ[i + 1] - b.cuQ[i] > b.cuK[i + 1] - b.cuK[i]
    case Coverage(i) => Framed(b) && i < Rows(b) && BlocksFor(blockSize, b.cuK[i + 1] - b.cuK[i]) > |b.tables[i]|
    case Block(i) => Framed(b) && i < Rows(b) && exists j :: 0 <= j < |b.tables[i]| && b.tables[i][j] >= numBlocks
    case Gap(i) => Framed(b) && i < Rows(b) && exists j :: b.cuQ[i] < j < b.cuQ[i + 1] && j < |b.positions| && b.positions[j] != b.positions[j - 1] + 1
    case SlotTwice => !NoDup(b.slots)
    case SlotRange => exists j :: 0 <= j < |b.slots| && b.slots[j] >= numBlocks * blockSize
    case LogitRange => exists j :: 0 <= j < |b.logits| && b.logits[j] >= |b.tokens|
  }

  method InOrder(s: seq<nat>) returns (ok: bool)
    ensures ok <==> Monotone(s)
  {
    var i := 1;
    while i < |s|
      invariant 1 <= i
      invariant forall j, k :: 0 <= j <= k < i && k < |s| ==> s[j] <= s[k]
    {
      if s[i] < s[i - 1] {
        return false;
      }
      i := i + 1;
    }
    ok := true;
  }

  method CheckRow(b: Batch, numBlocks: nat, blockSize: nat, i: nat) returns (fault: Option<Fault>)
    requires blockSize > 0 && Framed(b) && i < Rows(b)
    ensures fault.None? <==> RowFits(b, numBlocks, blockSize, i)
    ensures fault.Some? ==> Broken(b, numBlocks, blockSize, fault.value)
  {
    var q, keys := b.cuQ[i + 1] - b.cuQ[i], b.cuK[i + 1] - b.cuK[i];
    if q > keys {
      return Some(Keys(i));
    }
    if |b.tables[i]| < BlocksFor(blockSize, keys) {
      return Some(Coverage(i));
    }
    for j := 0 to |b.tables[i]|
      invariant forall k :: 0 <= k < j ==> b.tables[i][k] < numBlocks
    {
      if b.tables[i][j] >= numBlocks {
        return Some(Block(i));
      }
    }
    var lo := b.cuQ[i];
    assert b.cuQ[i + 1] <= b.cuQ[|b.cuQ| - 1];
    var j := lo + 1;
    while j < lo + q
      invariant lo < j
      invariant forall k :: lo <= k < j && k < lo + q ==> b.positions[k] == b.positions[lo] + (k - lo)
    {
      if b.positions[j] != b.positions[j - 1] + 1 {
        return Some(Gap(i));
      }
      j := j + 1;
    }
    fault := None;
  }

  /** The largest slot is the last of the sorted copy. */
  lemma LastIsLargest(s: seq<nat>, bound: nat)
    ensures (forall j :: 0 <= j < |s| ==> s[j] < bound) <==> Sort(s) == [] || Sort(s)[|Sort(s)| - 1] < bound
  {
    var t := Sort(s);
    SortIs(s);
    hide Sort;
    if t != [] {
      var last := t[|t| - 1];
      assert last in s;
      if last < bound {
        forall j | 0 <= j < |s| ensures s[j] < bound {
          assert s[j] in t;
          var k :| 0 <= k < |t| && t[k] == s[j];
          assert t[k] <= last;
        }
      } else {
        var j :| 0 <= j < |s| && s[j] == last;
      }
    }
  }

  method HasNeighbours(s: seq<nat>) returns (found: bool)
    ensures !found <==> forall k :: 0 <= k < |s| - 1 ==> s[k] != s[k + 1]
  {
    var k := 1;
    while k < |s|
      invariant 1 <= k
      invariant forall l :: 0 <= l < |s| - 1 && l + 1 < k ==> s[l] != s[l + 1]
    {
      if s[k - 1] == s[k] {
        return true;
      }
      k := k + 1;
    }
    found := false;
  }

  method CheckSlots(b: Batch, numBlocks: nat, blockSize: nat) returns (fault: Option<Fault>)
    requires blockSize > 0
    ensures fault.None? <==> NoDup(b.slots) && forall j :: 0 <= j < |b.slots| ==> b.slots[j] < numBlocks * blockSize
    ensures fault.Some? ==> Broken(b, numBlocks, blockSize, fault.value)
  {
    hide Sort, NoDup;
    var slots := Sort(b.slots);
    SortedNeighbours(b.slots);
    LastIsLargest(b.slots, numBlocks * blockSize);
    var twice := HasNeighbours(slots);
    if twice {
      return Some(SlotTwice);
    }
    if slots != [] && slots[|slots| - 1] >= numBlocks * blockSize {
      return Some(SlotRange);
    }
    fault := None;
  }

  /** `validate` accepts exactly the batches a paged attention kernel can rely on, and names a real fault otherwise. */
  method Validate(b: Batch, numBlocks: nat, blockSize: nat) returns (fault: Option<Fault>)
    requires blockSize > 0
    ensures fault.None? <==> ValidBatch(b, numBlocks, blockSize)
    ensures fault.Some? ==> Broken(b, numBlocks, blockSize, fault.value)
  {
    if |b.tokens| != |b.positions| || |b.tokens| != |b.slots| || |b.cuQ| != |b.cuK| {
      return Some(Lengths);
    }
    if b.cuQ != [] && b.cuQ[0] != 0 {
      return Some(Start);
    }
    if |b.tables| != Rows(b) {
      return Some(TableCount);
    }
    var ordered := InOrder(b.cuQ);
    if !ordered {
      return Some(Order);
    }
    ordered := InOrder(b.cuK);
    if !ordered {
      return Some(Order);
    }
    if b.cuQ != [] && b.cuQ[|b.cuQ| - 1] != |b.tokens| {
      return Some(End);
    }
    for i := 0 to Rows(b)
      invariant forall k :: 0 <= k < i ==> RowFits(b, numBlocks, blockSize, k)
    {
      fault := CheckRow(b, numBlocks, blockSize, i);
      if fault.Some? {
        return;
      }
    }
    fault := CheckSlots(b, numBlocks, blockSize);
    if fault.Some? {
      return;
    }
    for k := 0 to |b.logits|
      invariant forall l :: 0 <= l < k ==> b.logits[l] < |b.tokens|
    {
      if b.logits[k] >= |b.tokens| {
        return Some(LogitRange);
      }
    }
  }

  // -------------------------------------------- every emitted batch is valid

  lemma {:induction false} RowsIncrease(cfg: Config, seqs: map<SeqId, Sequence>, plan: Plan, i: nat, j: nat)
    requires cfg.blockSize > 0 && PlanOk(cfg, seqs, plan) && i <= j < |plan.batch.cuQ|
    ensures plan.batch.cuQ[i] <= plan.batch.cuQ[j] && |plan.batch.cuK| == |plan.batch.cuQ| && plan.batch.cuK[i] <= plan.batch.cuK[j]
    decreases j - i
  {
    if i < j {
      RowsIncrease(cfg, seqs, plan, i, j - 1);
      assert RowOk(cfg, seqs[plan.batchSeqs[j - 1]], plan.batch, j - 1);
    }
  }

  lemma PlanFramed(cfg: Config, seqs: map<SeqId, Sequence>, plan: Plan)
    requires cfg.blockSize > 0 && PlanOk(cfg, seqs, plan)
    ensures Framed(plan.batch) && Rows(plan.batch) == |plan.batchSeqs|
  {
    PlanParts(cfg, seqs, plan);
    ShapeParts(plan.batch, |plan.batchSeqs|);
    hide PlanOk, Shape, RowsOk, SampledOk;
    forall i, j | 0 <= i <= j < |plan.batch.cuQ|
      ensures plan.batch.cuQ[i] <= plan.batch.cuQ[j] && |plan.batch.cuK| == |plan.batch.cuQ| && plan.batch.cuK[i] <= plan.batch.cuK[j]
    {
      RowsIncrease(cfg, seqs, plan, i, j);
    }
  }

  lemma PlanRow(cfg: Config, seqs: map<SeqId, Sequence>, plan: Plan, numBlocks: nat, i: nat)
    requires cfg.blockSize > 0 && PlanOk(cfg, seqs, plan) && Framed(plan.batch) && i < |plan.batchSeqs| && Rows(plan.batch) == |plan.batchSeqs|
    requires plan.batchSeqs[i] in seqs ==> forall j :: 0 <= j < |seqs[plan.batchSeqs[i]].blocks| ==> seqs[plan.batchSeqs[i]].blocks[j] < numBlocks
    ensures RowFits(plan.batch, numBlocks, cfg.blockSize, i)
  {
    var s, b := seqs[plan.batchSeqs[i]], plan.batch;
    assert RowOk(cfg, s, b, i);
    hide PlanOk;
    var lo, hi := b.cuQ[i], b.cuQ[i + 1];
    forall j | lo <= j < hi && j < |b.positions| ensures b.positions[j] == b.positions[lo] + (j - lo) {
      assert b.positions[j] == b.positions[lo..hi][j - lo] && b.positions[lo] == b.positions[lo..hi][0];
    }
  }

  /** The row a token belongs to. */
  lemma {:induction false} RowOf(cuQ: seq<nat>, j: nat, n: nat) returns (i: nat)
    requires n < |cuQ| && cuQ[0] == 0 && j < cuQ[n]
    ensures i < n && cuQ[i] <= j < cuQ[i + 1]
    decreases n
  {
    if j >= cuQ[n - 1] {
      i := n - 1;
    } else {
      i := RowOf(cuQ, j, n - 1);
    }
  }

  /** Token `j` of the batch writes position `p` of sequence `s`, in a block `s` owns privately. */
  ghost predicate Writes(cfg: Config, s: Sequence, b: Batch, j: nat, p: nat)
    requires cfg.blockSize > 0
  {
    j < |b.slots| && p / cfg.blockSize < |s.blocks| && Settled(cfg, s) <= p / cfg.blockSize
    && b.slots[j] == s.blocks[p / cfg.blockSize] * cfg.blockSize + p % cfg.blockSize
  }

  lemma TokenWrites(cfg: Config, st: Sched, plan: Plan, i: nat, j: nat)
    requires Forwardable(cfg, st, plan) && i < |plan.batchSeqs| && i + 1 < |plan.batch.cuQ| && plan.batch.cuQ[i] <= j < plan.batch.cuQ[i + 1]
    ensures plan.batchSeqs[i] in st.seqs
    ensures var s := st.seqs[plan.batchSeqs[i]];
      Writes(cfg, s, plan.batch, j, s.computed + (j - plan.batch.cuQ[i]))
  {
    hide *;
    PlannedRow(cfg, st, plan, i);
    var s, b := st.seqs[plan.batchSeqs[i]], plan.batch;
    var p := s.computed + (j - b.cuQ[i]);
    TokenIs(cfg, s, b, i, j - b.cuQ[i]);
    DivMono(s.computed, p, cfg.blockSize);
    SlotIs(cfg.blockSize, s.blocks, p);
    WritesMade(cfg, s, b, j, p);
  }

  lemma PlannedRow(cfg: Config, st: Sched, plan: Plan, i: nat)
    requires Forwardable(cfg, st, plan) && i < |plan.batchSeqs|
    ensures cfg.blockSize > 0 && plan.batchSeqs[i] in st.seqs && RowOk(cfg, st.seqs[plan.batchSeqs[i]], plan.batch, i)
    ensures Settled(cfg, st.seqs[plan.batchSeqs[i]]) <= st.seqs[plan.batchSeqs[i]].computed / cfg.blockSize
  {
    hide BlocksOk, RowOk, Shape, SampledOk;
    assert BasicOk(cfg, st.seqs[plan.batchSeqs[i]]);
  }

  lemma WritesMade(cfg: Config, s: Sequence, b: Batch, j: nat, p: nat)
    requires cfg.blockSize > 0 && j < |b.slots| && p / cfg.blockSize < |s.blocks| && Settled(cfg, s) <= s.computed / cfg.blockSize <= p / cfg.blockSize
    requires b.slots[j] == s.blocks[p / cfg.blockSize] * cfg.blockSize + p % cfg.blockSize
    ensures Writes(cfg, s, b, j, p)
  {}

  lemma SlotParts(blockSize: nat, b: nat, o: nat, c: nat, r: nat)
    requires blockSize > 0 && o < blockSize && r < blockSize && b * blockSize + o == c * blockSize + r
    ensures b == c && o == r
  {
    DivUnique(b, o, blockSize);
    DivUnique(c, r, blockSize);
  }

  lemma SlotInside(blockSize: nat, b: nat, o: nat, n: nat)
    requires blockSize > 0 && o < blockSize && b < n
    ensures b * blockSize + o < n * blockSize
  {
    MulMono(b + 1, n, blockSize);
    assert (b + 1) * blockSize == b * blockSize + blockSize;
  }

  /** Two tokens never write one slot: within a sequence positions differ, across sequences blocks do. */
  lemma WritesApart(cfg: Config, s: Sequence, t: Sequence, b: Batch, j: nat, k: nat, p: nat, r: nat)
    requires cfg.blockSize > 0 && Writes(cfg, s, b, j, p) && Writes(cfg, t, b, k, r)
    requires (s == t && NoDup(s.blocks) && p != r) || Apart(cfg, s, t)
    ensures b.slots[j] != b.slots[k]
  {
    var bs := cfg.blockSize;
    if b.slots[j] == b.slots[k] {
      SlotParts(bs, s.blocks[p / bs], p % bs, t.blocks[r / bs], r % bs);
      if s == t && NoDup(s.blocks) && p != r {
        PositionsApart(bs, s.blocks, p, r);
      }
    }
  }

  lemma ForwardableApart(cfg: Config, st: Sched, plan: Plan, i: nat, k: nat)
    requires Forwardable(cfg, st, plan) && i < |plan.batchSeqs| && k < |plan.batchSeqs|
    ensures plan.batchSeqs[i] in st.seqs && plan.batchSeqs[k] in st.seqs
    ensures var s, t := st.seqs[plan.batchSeqs[i]], st.seqs[plan.batchSeqs[k]];
      NoDup(s.blocks) && (i != k ==> Apart(cfg, s, t)) && forall j :: 0 <= j < |s.blocks| ==> s.blocks[j] < |st.pool.refs|
  {
    hide RowOk, Shape, SampledOk, AllSteady, BasicOk, Apart;
    assert LocalOk(cfg, st.pool.hashOf, st.seqs[plan.batchSeqs[i]]);
  }

  lemma SlotsDiffer(cfg: Config, st: Sched, plan: Plan, j: nat, k: nat)
    requires Forwardable(cfg, st, plan) && Framed(plan.batch) && Rows(plan.batch) == |plan.batchSeqs| && j < k < |plan.batch.slots| && plan.batch.cuQ != []
    ensures plan.batch.slots[j] != plan.batch.slots[k]
  {
    hide Forwardable;
    var b := plan.batch;
    var i := RowOf(b.cuQ, j, |b.cuQ| - 1);
    var l := RowOf(b.cuQ, k, |b.cuQ| - 1);
    TokenWrites(cfg, st, plan, i, j);
    TokenWrites(cfg, st, plan, l, k);
    ForwardableApart(cfg, st, plan, i, l);
    var s, t := st.seqs[plan.batchSeqs[i]], st.seqs[plan.batchSeqs[l]];
    ForwardableSize(cfg, st, plan);
    hide *;
    WritesApart(cfg, s, t, b, j, k, s.computed + (j - b.cuQ[i]), t.computed + (k - b.cuQ[l]));
  }

  lemma ForwardableSize(cfg: Config, st: Sched, plan: Plan)
    requires Forwardable(cfg, st, plan)
    ensures cfg.blockSize > 0
  {}

  lemma SlotInRange(cfg: Config, st: Sched, plan: Plan, j: nat)
    requires Forwardable(cfg, st, plan) && cfg.blockSize > 0 && Framed(plan.batch) && Rows(plan.batch) == |plan.batchSeqs| && j < |plan.batch.slots| && plan.batch.cuQ != []
    ensures plan.batch.slots[j] < |st.pool.refs| * cfg.blockSize
  {
    hide Forwardable;
    var b := plan.batch;
    var i := RowOf(b.cuQ, j, |b.cuQ| - 1);
    TokenWrites(cfg, st, plan, i, j);
    ForwardableApart(cfg, st, plan, i, i);
    var s := st.seqs[plan.batchSeqs[i]];
    var p := s.computed + (j - b.cuQ[i]);
    SlotInside(cfg.blockSize, s.blocks[p / cfg.blockSize], p % cfg.blockSize, |st.pool.refs|);
  }

  lemma PlanLogits(cfg: Config, seqs: map<SeqId, Sequence>, plan: Plan, k: nat)
    requires cfg.blockSize > 0 && PlanOk(cfg, seqs, plan) && Framed(plan.batch) && k < |plan.batch.logits|
    ensures plan.batch.logits[k] < |plan.batch.tokens|
  {
    hide RowsOk, SampledIff;
    assert plan.sampledSeqs[k] in plan.batchSeqs;
    var i :| 0 <= i < |plan.batchSeqs| && plan.batchSeqs[i] == plan.sampledSeqs[k];
    assert plan.batch.logits[k] + 1 == plan.batch.cuQ[i + 1];
  }

  lemma PlanNoTokens(cfg: Config, seqs: map<SeqId, Sequence>, plan: Plan)
    requires cfg.blockSize > 0 && PlanOk(cfg, seqs, plan)
    ensures plan.batch.cuQ == [] ==> plan.batch.slots == []
  {
    hide RowsOk, SampledOk;
  }

  lemma PlanValid(cfg: Config, st: Sched, plan: Plan)
    requires Forwardable(cfg, st, plan) && cfg.blockSize > 0 && PlanOk(cfg, st.seqs, plan)
    ensures ValidBatch(plan.batch, |st.pool.refs|, cfg.blockSize)
  {
    PlanFramed(cfg, st.seqs, plan);
    PlanNoTokens(cfg, st.seqs, plan);
    hide Forwardable, PlanOk, RowFits, Framed;
    forall i | 0 <= i < |plan.batchSeqs| ensures RowFits(plan.batch, |st.pool.refs|, cfg.blockSize, i) {
      ForwardableApart(cfg, st, plan, i, i);
      PlanRow(cfg, st.seqs, plan, |st.pool.refs|, i);
    }
    forall j | 0 <= j < |plan.batch.slots| ensures plan.batch.slots[j] < |st.pool.refs| * cfg.blockSize {
      SlotInRange(cfg, st, plan, j);
    }
    forall j, k | 0 <= j < k < |plan.batch.slots| ensures plan.batch.slots[j] != plan.batch.slots[k] {
      SlotsDiffer(cfg, st, plan, j, k);
    }
    forall k | 0 <= k < |plan.batch.logits| ensures plan.batch.logits[k] < |plan.batch.tokens| {
      PlanLogits(cfg, st.seqs, plan, k);
    }
  }

  /** From every state between rounds the batch `schedule` builds is valid, holds each sequence at most once,
      keeps to the token budget, and samples exactly the sequences whose known text the step completes. */
  lemma ScheduledBatchValid(cfg: Config, st: Sched)
    requires Round(cfg, st) && cfg.blockSize > 0
    ensures var (t, plan) := Schedule(cfg, st);
      ValidBatch(plan.batch, |t.pool.refs|, cfg.blockSize) && NoDup(plan.batchSeqs) && |plan.batch.tokens| <= cfg.maxBatched
      && SampledIff(t.seqs, plan) && SampledAt(plan)
  {
    hide *;
    ScheduleOk(cfg, st);
    var (t, plan) := Schedule(cfg, st);
    PlanForwardable(cfg, t, plan);
    PlanValid(cfg, t, plan);
    PlanParts(cfg, t.seqs, plan);
    SampledParts(t.seqs, plan);
  }
}
