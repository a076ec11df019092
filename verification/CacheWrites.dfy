/** Writing a step's rows into the flat cache, and reading a sequence back through its block table
    (crates/vapi-backend-candle/src/cache.rs). A row is whatever the layer stores per token. */
module CacheWrites {
  import opened Prelude
  import opened PoolModel
  import opened Sequences
  import opened SchedulerModel
  import opened Invariants
  import opened Kv
  import opened Batches

  // ------------------------------------------------------- one slot at a time

  /** The simple form: rows `i..` written one by one. */
  function WriteEach<T>(flat: seq<T>, slots: seq<nat>, rows: seq<T>, i: nat): (r: seq<T>)
    requires |rows| == |slots| && forall k :: 0 <= k < |slots| ==> slots[k] < |flat|
    ensures |r| == |flat|
    decreases |slots| - i
  {
    if i >= |slots| then flat else WriteEach(flat[slots[i] := rows[i]], slots, rows, i + 1)
  }

  /** Row `i` sits in its slot, and slots nobody named are as before. */
  ghost predicate Wrote<T>(flat: seq<T>, slots: seq<nat>, rows: seq<T>, after: seq<T>) {
    |rows| == |slots| && |after| == |flat|
    && (forall k :: 0 <= k < |slots| ==> slots[k] < |after| && after[slots[k]] == rows[k])
    && (forall s: nat :: s < |flat| && s !in slots ==> after[s] == flat[s])
  }

  lemma {:induction false} WriteEachFrom<T>(flat: seq<T>, slots: seq<nat>, rows: seq<T>, i: nat)
    requires |rows| == |slots| && NoDup(slots) && i <= |slots| && forall k :: 0 <= k < |slots| ==> slots[k] < |flat|
    ensures var after := WriteEach(flat, slots, rows, i);
      (forall k :: i <= k < |slots| ==> after[slots[k]] == rows[k]) && (forall s: nat :: s < |flat| && s !in slots[i..] ==> after[s] == flat[s])
    decreases |slots| - i
  {
    if i < |slots| {
      WriteEachFrom(flat[slots[i] := rows[i]], slots, rows, i + 1);
      assert slots[i..] == [slots[i]] + slots[i + 1..];
      assert slots[i] !in slots[i + 1..];
    }
  }

  /** Distinct slots: the order of writing does not matter, the result is determined. */
  lemma WroteIsWriteEach<T>(flat: seq<T>, slots: seq<nat>, rows: seq<T>, after: seq<T>)
    requires NoDup(slots) && Wrote(flat, slots, rows, after)
    ensures (forall k :: 0 <= k < |slots| ==> slots[k] < |flat|) && after == WriteEach(flat, slots, rows, 0)
  {
    WriteEachFrom(flat, slots, rows, 0);
    var each := WriteEach(flat, slots, rows, 0);
    assert slots[0..] == slots;
    forall s: nat | s < |flat| ensures after[s] == each[s] {
      if s in slots {
        var k :| 0 <= k < |slots| && slots[k] == s;
      }
    }
  }

  // -------------------------------------------------------------------- runs

  type Run = (nat, nat)

  /** From `run.0` to `run.1` the slots follow one another. */
  ghost predicate Consecutive(slots: seq<nat>, run: Run) {
    run.0 < run.1 <= |slots| && forall k :: run.0 <= k < run.1 ==> slots[k] == slots[run.0] + (k - run.0)
  }

  /** The runs cover the tokens up to `n` without gap or overlap. */
  ghost predicate Cover(slots: seq<nat>, runs: seq<Run>, n: nat) {
    (forall j :: 0 <= j < |runs| ==> Consecutive(slots, runs[j]))
    && (forall j :: 0 <= j < |runs| - 1 ==> runs[j].1 == runs[j + 1].0)
    && (if runs == [] then n == 0 else runs[0].0 == 0 && runs[|runs| - 1].1 == n)
  }

  /** No run can be made longer. */
  ghost predicate Maximal(slots: seq<nat>, runs: seq<Run>) {
    forall j :: 0 <= j < |runs| && 0 < runs[j].1 < |slots| ==> slots[runs[j].1] != slots[runs[j].1 - 1] + 1
  }

  /** How many runs there are: tokens whose slot does not follow the one before. */
  function RunCount(slots: seq<nat>): nat {
    if slots == [] then 0 else RunCount(slots[..|slots| - 1]) + if Follows(slots, |slots| - 1) then 0 else 1
  }

  predicate Follows(slots: seq<nat>, k: nat)
    requires k < |slots|
  {
    k > 0 && slots[k] == slots[k - 1] + 1
  }

  lemma {:induction false} RunCounts(slots: seq<nat>, start: nat, end: nat)
    requires start < end <= |slots| && !Follows(slots, start) && forall k :: start < k < end ==> Follows(slots, k)
    ensures RunCount(slots[..end]) == RunCount(slots[..start]) + 1
    decreases end
  {
    assert slots[..end][..end - 1] == slots[..end - 1];
    assert Follows(slots[..end], end - 1) <==> Follows(slots, end - 1);
    if start + 1 < end {
      assert Follows(slots, end - 1);
      RunCounts(slots, start, end - 1);
    }
  }

  /** Where the run that begins at `start` ends. */
  method RunEnd(slots: seq<nat>, start: nat) returns (end: nat)
    requires start < |slots|
    ensures Consecutive(slots, (start, end)) && (end < |slots| ==> slots[end] != slots[end - 1] + 1)
    ensures forall k :: start < k < end ==> Follows(slots, k)
  {
    end := start + 1;
    while end < |slots| && slots[end] == slots[end - 1] + 1
      invariant start < end <= |slots| && Consecutive(slots, (start, end))
      invariant forall k :: start < k < end ==> Follows(slots, k)
    {
      end := end + 1;
    }
  }

  method FindRuns(slots: seq<nat>) returns (runs: seq<Run>)
    ensures Cover(slots, runs, |slots|) && Maximal(slots, runs) && |runs| == RunCount(slots)
  {
    runs := [];
    var start := 0;
    while start < |slots|
      invariant start <= |slots| && Cover(slots, runs, start) && Maximal(slots, runs)
      invariant |runs| == RunCount(slots[..start]) && (start < |slots| ==> !Follows(slots, start))
    {
      var end := RunEnd(slots, start);
      CoverGrows(slots, runs, start, end);
      RunCounts(slots, start, end);
      runs := runs + [(start, end)];
      start := end;
    }
    assert slots[..|slots|] == slots;
  }

  lemma CoverGrows(slots: seq<nat>, runs: seq<Run>, start: nat, end: nat)
    requires Cover(slots, runs, start) && Maximal(slots, runs) && Consecutive(slots, (start, end)) && (end < |slots| ==> slots[end] != slots[end - 1] + 1)
    ensures start < end <= |slots| && Cover(slots, runs + [(start, end)], end) && Maximal(slots, runs + [(start, end)])
  {
    hide Consecutive;
    assert start < end <= |slots| by { RunBounds(slots, (start, end)); }
    var more := runs + [(start, end)];
    assert forall j :: 0 <= j < |runs| ==> more[j] == runs[j];
  }

  lemma RunBounds(slots: seq<nat>, run: Run)
    requires Consecutive(slots, run)
    ensures run.0 < run.1 <= |slots|
  {}

  /** `slice_set`: rows `run.0..run.1` copied to consecutive slots from `at` on. */
  method SliceSet<T>(flat: array<T>, rows: seq<T>, run: Run, at: nat)
    requires run.0 <= run.1 <= |rows| && at + (run.1 - run.0) <= flat.Length
    modifies flat
    ensures forall s :: at <= s < at + (run.1 - run.0) ==> flat[s] == rows[run.0 + (s - at)]
    ensures forall s :: 0 <= s < flat.Length && !(at <= s < at + (run.1 - run.0)) ==> flat[s] == old(flat[s])
  {
    for t := at to at + (run.1 - run.0)
      invariant forall s :: at <= s < t ==> flat[s] == rows[run.0 + (s - at)]
      invariant forall s :: 0 <= s < flat.Length && !(at <= s < t) ==> flat[s] == old(flat[s])
    {
      flat[t] := rows[run.0 + (t - at)];
    }
  }

  /** Rows `..j` written one by one. */
  function WriteTo<T>(flat: seq<T>, slots: seq<nat>, rows: seq<T>, j: nat): (r: seq<T>)
    requires j <= |slots| == |rows| && forall k :: 0 <= k < |slots| ==> slots[k] < |flat|
    ensures |r| == |flat|
  {
    if j == 0 then flat else WriteTo(flat, slots, rows, j - 1)[slots[j - 1] := rows[j - 1]]
  }

  lemma {:induction false} WriteToEach<T>(flat: seq<T>, slots: seq<nat>, rows: seq<T>, j: nat)
    requires j <= |slots| == |rows| && forall k :: 0 <= k < |slots| ==> slots[k] < |flat|
    ensures WriteEach(WriteTo(flat, slots, rows, j), slots, rows, j) == WriteEach(flat, slots, rows, 0)
    decreases j
  {
    if j > 0 {
      WriteToEach(flat, slots, rows, j - 1);
    }
  }

  lemma WroteAll<T>(flat: seq<T>, slots: seq<nat>, rows: seq<T>)
    requires |slots| == |rows| && forall k :: 0 <= k < |slots| ==> slots[k] < |flat|
    ensures WriteTo(flat, slots, rows, |slots|) == WriteEach(flat, slots, rows, 0)
  {
    WriteToEach(flat, slots, rows, |slots|);
    hide WriteTo;
  }

  predicate InRun(slots: seq<nat>, run: Run, s: nat) {
    run.0 < |slots| && run.0 <= run.1 && slots[run.0] <= s < slots[run.0] + (run.1 - run.0)
  }

  /** `after` is `mid` with the run's rows at its slots. */
  ghost predicate Sliced<T>(slots: seq<nat>, rows: seq<T>, run: Run, mid: seq<T>, after: seq<T>) {
    |rows| == |slots| && run.0 <= run.1 <= |slots| && |after| == |mid|
    && (forall s: nat :: InRun(slots, run, s) ==> s < |after| && after[s] == rows[run.0 + (s - slots[run.0])])
    && (forall s: nat :: s < |mid| && !InRun(slots, run, s) ==> after[s] == mid[s])
  }

  /** One copy of a run is its rows written one by one, whatever the slots before it were. */
  lemma {:induction false} SliceIsWrites<T>(flat: seq<T>, slots: seq<nat>, rows: seq<T>, run: Run, end: nat)
    requires Consecutive(slots, run) && run.0 <= end <= run.1 && |rows| == |slots| && forall k :: 0 <= k < |slots| ==> slots[k] < |flat|
    ensures Sliced(slots, rows, (run.0, end), WriteTo(flat, slots, rows, run.0), WriteTo(flat, slots, rows, end))
    decreases end
  {
    if run.0 < end {
      SliceIsWrites(flat, slots, rows, run, end - 1);
      var mid, before, after := WriteTo(flat, slots, rows, run.0), WriteTo(flat, slots, rows, end - 1), WriteTo(flat, slots, rows, end);
      assert after == before[slots[end - 1] := rows[end - 1]] && slots[end - 1] == slots[run.0] + (end - 1 - run.0);
      hide WriteTo;
      SlicedGrows(slots, rows, run.0, end, mid, before, after);
    }
  }

  lemma SlicedGrows<T>(slots: seq<nat>, rows: seq<T>, start: nat, end: nat, mid: seq<T>, before: seq<T>, after: seq<T>)
    requires start < end <= |slots| && slots[end - 1] == slots[start] + (end - 1 - start) && slots[end - 1] < |before|
    requires Sliced(slots, rows, (start, end - 1), mid, before) && |rows| == |slots| && after == before[slots[end - 1] := rows[end - 1]]
    ensures Sliced(slots, rows, (start, end), mid, after)
  {
    forall s: nat ensures InRun(slots, (start, end), s) <==> InRun(slots, (start, end - 1), s) || s == slots[end - 1] {}
  }

  lemma SlicedSame<T>(slots: seq<nat>, rows: seq<T>, run: Run, mid: seq<T>, a: seq<T>, b: seq<T>)
    requires Sliced(slots, rows, run, mid, a) && Sliced(slots, rows, run, mid, b)
    ensures a == b
  {
    forall s: nat | s < |mid| ensures a[s] == b[s] {
      assert InRun(slots, run, s) || !InRun(slots, run, s);
    }
  }

  /** Run `j` of a cover: where it begins, and that its slots are in range. */
  lemma CoverAt(slots: seq<nat>, runs: seq<Run>, j: nat, n: nat)
    requires Cover(slots, runs, |slots|) && j < |runs| && forall k :: 0 <= k < |slots| ==> slots[k] < n
    ensures Consecutive(slots, runs[j]) && runs[j].0 < runs[j].1 <= |slots| && slots[runs[j].0] + (runs[j].1 - runs[j].0) <= n
    ensures runs[j].0 == if j == 0 then 0 else runs[j - 1].1
  {
    var run := runs[j];
    assert Consecutive(slots, run);
    assert slots[run.1 - 1] == slots[run.0] + (run.1 - 1 - run.0);
    if j > 0 {
      assert runs[j - 1].1 == runs[j - 1 + 1].0;
    }
  }

  lemma CoverEnds(slots: seq<nat>, runs: seq<Run>)
    requires Cover(slots, runs, |slots|)
    ensures |slots| == if runs == [] then 0 else runs[|runs| - 1].1
  {}

  /** One copy per run. */
  method WriteRuns<T>(flat: array<T>, rows: seq<T>, slots: seq<nat>, runs: seq<Run>)
    requires |rows| == |slots| && Cover(slots, runs, |slots|) && forall k :: 0 <= k < |slots| ==> slots[k] < flat.Length
    modifies flat
    ensures flat[..] == WriteEach(old(flat[..]), slots, rows, 0)
  {
    hide Cover, Consecutive, WriteTo;
    ghost var before := flat[..];
    NoneWritten(before, slots, rows);
    for j := 0 to |runs|
      invariant var n := if j == 0 then 0 else runs[j - 1].1; n <= |slots| && flat[..] == WriteTo(before, slots, rows, n)
    {
      var run := runs[j];
      CoverAt(slots, runs, j, flat.Length);
      ghost var mid := flat[..];
      SliceSet(flat, rows, run, slots[run.0]);
      assert Sliced(slots, rows, run, mid, flat[..]);
      SliceIsWrites(before, slots, rows, run, run.1);
      SlicedSame(slots, rows, run, mid, flat[..], WriteTo(before, slots, rows, run.1));
    }
    CoverEnds(slots, runs);
    WroteAll(before, slots, rows);
  }

  lemma NoneWritten<T>(flat: seq<T>, slots: seq<nat>, rows: seq<T>)
    requires |slots| == |rows| && forall k :: 0 <= k < |slots| ==> slots[k] < |flat|
    ensures WriteTo(flat, slots, rows, 0) == flat
  {}

  /** Some row sent to each named slot sits in it, and slots nobody named are as before. */
  ghost predicate Landed<T>(flat: seq<T>, slots: seq<nat>, rows: seq<T>, after: seq<T>) {
    |rows| == |slots| && |after| == |flat|
    && (forall s: nat :: s < |flat| && s in slots ==> exists k :: 0 <= k < |slots| && slots[k] == s && after[s] == rows[k])
    && (forall s: nat :: s < |flat| && s !in slots ==> after[s] == flat[s])
  }

  lemma LandedWrote<T>(flat: seq<T>, slots: seq<nat>, rows: seq<T>, after: seq<T>)
    requires NoDup(slots) && Landed(flat, slots, rows, after) && forall k :: 0 <= k < |slots| ==> slots[k] < |flat|
    ensures Wrote(flat, slots, rows, after)
  {
    forall k | 0 <= k < |slots| ensures after[slots[k]] == rows[k] {
      assert slots[k] in slots;
      var i :| 0 <= i < |slots| && slots[i] == slots[k] && after[slots[k]] == rows[i];
    }
  }

  /** `scatter_set`: one write per token, in no particular order. */
  method ScatterSet<T>(flat: array<T>, rows: seq<T>, slots: seq<nat>)
    requires |rows| == |slots| && forall k :: 0 <= k < |slots| ==> slots[k] < flat.Length
    modifies flat
    ensures Landed(old(flat[..]), slots, rows, flat[..])
  {
    var left := set k | k in Range(|slots|);
    forall k: nat | k < |slots| ensures k in left {
      assert Range(|slots|)[k] == k;
    }
    while left != {}
      invariant forall k :: k in left ==> k < |slots|
      invariant forall k :: 0 <= k < |slots| && k !in left ==> exists i :: 0 <= i < |slots| && slots[i] == slots[k] && flat[slots[k]] == rows[i]
      invariant forall s :: 0 <= s < flat.Length && s !in slots ==> flat[s] == old(flat[s])
      decreases left
    {
      var k :| k in left;
      flat[slots[k]] := rows[k];
      left := left - {k};
    }
  }

  lemma {:induction false} EachLands<T>(flat: seq<T>, slots: seq<nat>, rows: seq<T>, j: nat)
    requires j <= |slots| == |rows| && forall k :: 0 <= k < |slots| ==> slots[k] < |flat|
    ensures forall s: nat :: s < |flat| && s in slots[..j] ==> exists k :: 0 <= k < |slots| && slots[k] == s && WriteTo(flat, slots, rows, j)[s] == rows[k]
    ensures forall s: nat :: s < |flat| && s !in slots[..j] ==> WriteTo(flat, slots, rows, j)[s] == flat[s]
    decreases j
  {
    if j > 0 {
      EachLands(flat, slots, rows, j - 1);
      assert slots[..j] == slots[..j - 1] + [slots[j - 1]];
      assert WriteTo(flat, slots, rows, j) == WriteTo(flat, slots, rows, j - 1)[slots[j - 1] := rows[j - 1]];
      hide WriteTo;
    }
  }

  lemma EachLanded<T>(flat: seq<T>, slots: seq<nat>, rows: seq<T>)
    requires |slots| == |rows| && forall k :: 0 <= k < |slots| ==> slots[k] < |flat|
    ensures Landed(flat, slots, rows, WriteEach(flat, slots, rows, 0))
  {
    EachLands(flat, slots, rows, |slots|);
    WroteAll(flat, slots, rows);
    assert slots[..|slots|] == slots;
    hide WriteTo, WriteEach;
  }

  const ScatterAboveRuns: nat := 4

  datatype WriteError = LengthMismatch | SlotOutside(slot: nat)

  /** The first slot outside the cache, if any. */
  method FirstOutside(slots: seq<nat>, n: nat) returns (bad: Option<nat>)
    ensures bad.None? <==> forall k :: 0 <= k < |slots| ==> slots[k] < n
    ensures bad.Some? ==> bad.value in slots && bad.value >= n
  {
    var most: Option<nat> := None;
    for i := 0 to |slots|
      invariant most.None? <==> i == 0
      invariant most.Some? ==> most.value in slots && forall k :: 0 <= k < i ==> slots[k] <= most.value
    {
      if most.None? || slots[i] > most.value {
        most := Some(slots[i]);
      }
    }
    if most.Some? && most.value >= n {
      return most;
    }
    bad := None;
  }

  /** `write_rows`. Distinct slots end up as one-by-one writing leaves them, whichever side of the threshold it takes,
      and so does any mapping of few runs. Beyond that a slot named twice holds one of the rows sent to it. On an error
      nothing is written. */
  method WriteRows<T>(flat: array<T>, rows: seq<T>, slots: seq<nat>) returns (error: Option<WriteError>)
    modifies flat
    ensures error == Some(LengthMismatch) <==> |rows| != |slots|
    ensures error.None? <==> |rows| == |slots| && forall k :: 0 <= k < |slots| ==> slots[k] < flat.Length
    ensures error.None? && (NoDup(slots) || RunCount(slots) <= ScatterAboveRuns) ==> flat[..] == WriteEach(old(flat[..]), slots, rows, 0)
    ensures error.None? ==> Landed(old(flat[..]), slots, rows, flat[..])
    ensures error.Some? ==> flat[..] == old(flat[..])
  {
    if |rows| != |slots| {
      return Some(LengthMismatch);
    }
    var bad := FirstOutside(slots, flat.Length);
    if bad.Some? {
      return Some(SlotOutside(bad.value));
    }
    var runs := FindRuns(slots);
    hide Cover, Maximal, Wrote, Landed, RunCount, NoDup;
    if |runs| <= ScatterAboveRuns {
      WriteRuns(flat, rows, slots, runs);
      EachLanded(old(flat[..]), slots, rows);
    } else {
      ScatterSet(flat, rows, slots);
      if NoDup(slots) {
        LandedWrote(old(flat[..]), slots, rows, flat[..]);
        WroteIsWriteEach(old(flat[..]), slots, rows, flat[..]);
      }
    }
    error := None;
  }

  // ------------------------------------------------------------------ reading

  /** `gather_kv`, one row: block table, then offset. */
  function GatherRow<T>(flat: seq<T>, blockSize: nat, table: seq<BlockId>, p: nat): Option<T>
    requires blockSize > 0
  {
    var s := Slot(blockSize, table, p);
    if p / blockSize < |table| && s < |flat| then Some(flat[s]) else None
  }

  lemma SameSlot(blockSize: nat, a: nat, o: nat, b: nat, r: nat)
    requires blockSize > 0 && o < blockSize && r < blockSize && a * blockSize + o == b * blockSize + r
    ensures a == b && o == r
  {
    DivUnique(a, o, blockSize);
    DivUnique(b, r, blockSize);
  }

  lemma SlotsDistinct(blockSize: nat, table: seq<BlockId>, p: nat, q: nat)
    requires blockSize > 0 && NoDup(table) && p / blockSize < |table| && q / blockSize < |table| && p != q
    ensures Slot(blockSize, table, p) != Slot(blockSize, table, q)
  {
    SlotIs(blockSize, table, p);
    SlotIs(blockSize, table, q);
    PositionsApart(blockSize, table, p, q);
    hide Slot, NoDup;
    if Slot(blockSize, table, p) == Slot(blockSize, table, q) {
      SameSlot(blockSize, table[p / blockSize], p % blockSize, table[q / blockSize], q % blockSize);
    }
  }

  lemma OwnSlots(blockSize: nat, table: seq<BlockId>, start: nat, n: nat)
    requires blockSize > 0 && NoDup(table) && BlocksFor(blockSize, start + n) <= |table|
    ensures NoDup(Slots(blockSize, table, start, n))
    ensures forall p: nat :: p / blockSize < |table| && !(start <= p < start + n) ==> Slot(blockSize, table, p) !in Slots(blockSize, table, start, n)
  {
    var slots := Slots(blockSize, table, start, n);
    hide Slot, NoDup, Slots, BlocksFor;
    forall i, j | 0 <= i < j < n ensures slots[i] != slots[j] {
      BlocksForCovers(blockSize, start + n, start + i);
      BlocksForCovers(blockSize, start + n, start + j);
      SlotsDistinct(blockSize, table, start + i, start + j);
    }
    NoDupMade(slots);
    forall p: nat | p / blockSize < |table| && !(start <= p < start + n) ensures Slot(blockSize, table, p) !in slots {
      forall i | 0 <= i < n ensures slots[i] != Slot(blockSize, table, p) {
        BlocksForCovers(blockSize, start + n, start + i);
        SlotsDistinct(blockSize, table, start + i, p);
      }
    }
  }

  lemma NoDupMade(s: seq<nat>)
    requires forall i, j :: 0 <= i < j < |s| ==> s[i] != s[j]
    ensures NoDup(s)
  {}

  /** What a sequence wrote at positions `start..`, it reads back; its other positions are as before. */
  lemma ReadsBackWhatItWrote<T>(flat: seq<T>, blockSize: nat, table: seq<BlockId>, start: nat, rows: seq<T>, p: nat)
    requires blockSize > 0 && NoDup(table) && BlocksFor(blockSize, start + |rows|) <= |table| && p / blockSize < |table|
    requires forall k :: 0 <= k < |rows| ==> Slots(blockSize, table, start, |rows|)[k] < |flat|
    ensures var after := WriteEach(flat, Slots(blockSize, table, start, |rows|), rows, 0);
      GatherRow(after, blockSize, table, p) ==
        if start <= p < start + |rows| then Some(rows[p - start]) else GatherRow(flat, blockSize, table, p)
  {
    var slots := Slots(blockSize, table, start, |rows|);
    OwnSlots(blockSize, table, start, |rows|);
    WriteEachFrom(flat, slots, rows, 0);
    assert slots[0..] == slots;
    hide Slot, NoDup, Slots, BlocksFor, WriteEach;
    if start <= p < start + |rows| {
      assert slots[p - start] == Slot(blockSize, table, p);
    }
  }

  /** A sequence none of whose slots was written reads what it read before. */
  lemma OthersReadAsBefore<T>(flat: seq<T>, slots: seq<nat>, rows: seq<T>, blockSize: nat, table: seq<BlockId>, p: nat)
    requires |rows| == |slots| && NoDup(slots) && (forall k :: 0 <= k < |slots| ==> slots[k] < |flat|) && blockSize > 0
    requires p / blockSize < |table| ==> Slot(blockSize, table, p) !in slots
    ensures GatherRow(WriteEach(flat, slots, rows, 0), blockSize, table, p) == GatherRow(flat, blockSize, table, p)
  {
    WriteEachFrom(flat, slots, rows, 0);
    assert slots[0..] == slots;
  }

  // --------------------------------------------------- the two views of a cache

  function BlockPart(s: nat, blockSize: nat): nat
    requires blockSize > 0
  {
    s / blockSize
  }

  function OffsetPart(s: nat, blockSize: nat): nat
    requires blockSize > 0
  {
    s % blockSize
  }

  /** Where slot `s` sits in the blocked cache. */
  function AtSlot(kv: Cache, blockSize: nat, s: nat): Option<Row>
    requires blockSize > 0
  {
    var b, o := BlockPart(s, blockSize), OffsetPart(s, blockSize);
    if b < |kv| && o < |kv[b]| then Some(kv[b][o]) else None
  }

  function NumSlots(kv: Cache, blockSize: nat): nat { |kv| * blockSize }

  /** The flat view of a blocked cache: slot `b * blockSize + o` is offset `o` of block `b`. */
  ghost predicate FlatView(kv: Cache, blockSize: nat, flat: seq<Row>) {
    blockSize > 0 && CacheShape(kv, |kv|, blockSize) && |flat| == NumSlots(kv, blockSize)
    && forall s: nat :: s < |flat| ==> AtSlot(kv, blockSize, s) == Some(flat[s])
  }

  lemma FlatParts(kv: Cache, blockSize: nat, flat: seq<Row>)
    requires FlatView(kv, blockSize, flat)
    ensures blockSize > 0 && CacheShape(kv, |kv|, blockSize) && |flat| == NumSlots(kv, blockSize)
    ensures forall s: nat :: s < |flat| ==> AtSlot(kv, blockSize, s) == Some(flat[s])
  {
    hide CacheShape, AtSlot, NumSlots;
  }

  lemma FlatMade(kv: Cache, blockSize: nat, flat: seq<Row>)
    requires blockSize > 0 && CacheShape(kv, |kv|, blockSize) && |flat| == NumSlots(kv, blockSize)
    requires forall s: nat :: s < |flat| ==> AtSlot(kv, blockSize, s) == Some(flat[s])
    ensures FlatView(kv, blockSize, flat)
  {
    hide CacheShape, AtSlot, NumSlots;
  }

  lemma SplitUnique(s: nat, t: nat, d: nat)
    requires d > 0
    ensures s == t <==> BlockPart(s, d) == BlockPart(t, d) && OffsetPart(s, d) == OffsetPart(t, d)
  {
    assert s == (s / d) * d + s % d && t == (t / d) * d + t % d;
  }

  lemma WriteSlotIs(kv: Cache, blockSize: nat, slot: nat, row: Row)
    requires blockSize > 0
    ensures var b, o := BlockPart(slot, blockSize), OffsetPart(slot, blockSize);
      WriteSlot(kv, blockSize, slot, row) == if b < |kv| && o < |kv[b]| then kv[b := kv[b][o := row]] else kv
  {}

  lemma UpdatedAt(kv: Cache, b: nat, o: nat, row: Row, a: nat, r: nat)
    requires b < |kv| && o < |kv[b]| && a < |kv| && r < |kv[a]|
    ensures var after := kv[b := kv[b][o := row]];
      |after| == |kv| && r < |after[a]| && after[a][r] == if a == b && r == o then row else kv[a][r]
  {}

  /** One slot after a write: the new row if it is that slot, otherwise as before. */
  lemma AtSlotAfter(kv: Cache, blockSize: nat, slot: nat, row: Row, s: nat)
    requires blockSize > 0 && AtSlot(kv, blockSize, slot).Some? && AtSlot(kv, blockSize, s).Some?
    ensures AtSlot(WriteSlot(kv, blockSize, slot, row), blockSize, s) == if s == slot then Some(row) else AtSlot(kv, blockSize, s)
  {
    hide BlockPart, OffsetPart, WriteSlot;
    WriteSlotIs(kv, blockSize, slot, row);
    SplitUnique(s, slot, blockSize);
    UpdatedAt(kv, BlockPart(slot, blockSize), OffsetPart(slot, blockSize), row, BlockPart(s, blockSize), OffsetPart(s, blockSize));
  }

  lemma WriteKeepsShape(kv: Cache, blockSize: nat, slot: nat, row: Row)
    requires blockSize > 0 && CacheShape(kv, |kv|, blockSize)
    ensures var after := WriteSlot(kv, blockSize, slot, row);
      |after| == |kv| && CacheShape(after, |after|, blockSize) && NumSlots(after, blockSize) == NumSlots(kv, blockSize)
  {}

  /** Writing a slot is the same write in both views. */
  lemma WriteSlotFlat(kv: Cache, blockSize: nat, flat: seq<Row>, slot: nat, row: Row)
    requires FlatView(kv, blockSize, flat) && slot < |flat|
    ensures blockSize > 0 && FlatView(WriteSlot(kv, blockSize, slot, row), blockSize, flat[slot := row])
  {
    hide *;
    FlatParts(kv, blockSize, flat);
    var after := WriteSlot(kv, blockSize, slot, row);
    WriteKeepsShape(kv, blockSize, slot, row);
    forall s: nat | s < |flat| ensures AtSlot(after, blockSize, s) == Some(flat[slot := row][s]) {
      AtSlotAfter(kv, blockSize, slot, row, s);
    }
    FlatMade(after, blockSize, flat[slot := row]);
  }

  lemma SlotPlace(blockSize: nat, table: seq<BlockId>, p: nat, n: nat)
    requires blockSize > 0 && p / blockSize < |table| && table[p / blockSize] < n
    ensures var s := Slot(blockSize, table, p);
      BlockPart(s, blockSize) == table[p / blockSize] && OffsetPart(s, blockSize) == p % blockSize && s < n * blockSize
  {
    var b, o := table[p / blockSize], p % blockSize;
    DivUnique(b, o, blockSize);
    MulMono(b + 1, n, blockSize);
    assert (b + 1) * blockSize == b * blockSize + blockSize;
  }

  /** Reading a position is the same in both views. */
  lemma RowAtFlat(kv: Cache, blockSize: nat, flat: seq<Row>, table: seq<BlockId>, p: nat)
    requires FlatView(kv, blockSize, flat) && p / blockSize < |table| && table[p / blockSize] < |kv|
    ensures GatherRow(flat, blockSize, table, p) == Some(RowAt(kv, blockSize, table, p))
  {
    SlotPlace(blockSize, table, p, |kv|);
    hide Slot, BlockPart, OffsetPart;
    var s := Slot(blockSize, table, p);
    assert AtSlot(kv, blockSize, s) == Some(flat[s]);
  }

  // -------------------------------------------- the forward pass writes its rows

  /** The row the step of token `j` computes and writes. */
  function StepRow(kv: Cache, blockSize: nat, b: Batch, table: seq<BlockId>, j: nat): Row
    requires blockSize > 0 && j < |b.tokens| && j < |b.positions|
  {
    Row(b.tokens[j], b.positions[j], Gather(kv, blockSize, table, b.positions[j]))
  }

  /** The rows of tokens `j..hi`, each computed over what those before it left. */
  function TokenRows(kv: Cache, blockSize: nat, b: Batch, table: seq<BlockId>, j: nat, hi: nat): (r: seq<Row>)
    requires blockSize > 0 && j <= hi <= |b.tokens| == |b.positions|
    ensures |r| == hi - j
    decreases hi - j
  {
    if j == hi then []
    else [StepRow(kv, blockSize, b, table, j)] + TokenRows(ForwardToken(kv, blockSize, b, table, j), blockSize, b, table, j + 1, hi)
  }

  /** The rows of the whole pass, from row `i` of the batch on. */
  function PassRows(kv: Cache, blockSize: nat, b: Batch, i: nat): (r: seq<Row>)
    requires blockSize > 0 && Framed(b)
    ensures i < |b.cuQ| ==> b.cuQ[i] <= |b.tokens| && |r| == |b.tokens| - b.cuQ[i]
    decreases |b.cuQ| - i
  {
    if i + 1 >= |b.cuQ| then []
    else
      TokenRows(kv, blockSize, b, b.tables[i], b.cuQ[i], b.cuQ[i + 1])
      + PassRows(ForwardRow(kv, blockSize, b, b.tables[i], b.cuQ[i], b.cuQ[i + 1]), blockSize, b, i + 1)
  }

  /** The first `j` of `rows`, written in order, are what the cache holds. */
  ghost predicate Writing(flat: seq<Row>, b: Batch, rows: seq<Row>, j: nat, blockSize: nat, kv: Cache) {
    j <= |rows| == |b.slots| && (forall k :: 0 <= k < |b.slots| ==> b.slots[k] < |flat|)
    && FlatView(kv, blockSize, WriteTo(flat, b.slots, rows, j))
  }

  lemma TokenWrites(flat: seq<Row>, b: Batch, rows: seq<Row>, j: nat, blockSize: nat, kv: Cache, table: seq<BlockId>)
    requires Writing(flat, b, rows, j, blockSize, kv) && blockSize > 0 && j < |b.slots| == |b.tokens| == |b.positions|
    requires rows[j] == StepRow(kv, blockSize, b, table, j)
    ensures Writing(flat, b, rows, j + 1, blockSize, ForwardToken(kv, blockSize, b, table, j))
  {
    assert WriteTo(flat, b.slots, rows, j + 1) == WriteTo(flat, b.slots, rows, j)[b.slots[j] := rows[j]];
    hide WriteTo, FlatView, Gather, WriteSlot;
    WriteSlotFlat(kv, blockSize, WriteTo(flat, b.slots, rows, j), b.slots[j], rows[j]);
  }

  lemma {:induction false} RowWrites(flat: seq<Row>, b: Batch, rows: seq<Row>, j: nat, hi: nat, blockSize: nat, kv: Cache, table: seq<BlockId>)
    requires Writing(flat, b, rows, j, blockSize, kv) && blockSize > 0 && j <= hi <= |b.slots| == |b.tokens| == |b.positions| == |rows|
    requires rows[j..hi] == TokenRows(kv, blockSize, b, table, j, hi)
    ensures Writing(flat, b, rows, hi, blockSize, ForwardRow(kv, blockSize, b, table, j, hi))
    decreases hi - j
  {
    if j < hi {
      var next := ForwardToken(kv, blockSize, b, table, j);
      assert rows[j..hi][0] == StepRow(kv, blockSize, b, table, j) && rows[j..hi][1..] == TokenRows(next, blockSize, b, table, j + 1, hi);
      assert rows[j..hi][0] == rows[j] && rows[j..hi][1..] == rows[j + 1..hi];
      hide Writing, ForwardToken, StepRow, TokenRows;
      TokenWrites(flat, b, rows, j, blockSize, kv, table);
      RowWrites(flat, b, rows, j + 1, hi, blockSize, next, table);
    }
  }

  lemma {:induction false} PassWrites(flat: seq<Row>, b: Batch, rows: seq<Row>, i: nat, blockSize: nat, kv: Cache)
    requires Framed(b) && i + 1 <= |b.cuQ| && blockSize > 0 && |b.slots| == |b.tokens| == |b.positions| == |rows|
    requires b.cuQ[i] <= |rows| && rows[b.cuQ[i]..] == PassRows(kv, blockSize, b, i) && Writing(flat, b, rows, b.cuQ[i], blockSize, kv)
    ensures Writing(flat, b, rows, |b.slots|, blockSize, Forward(kv, blockSize, b, i))
    decreases |b.cuQ| - i
  {
    FramedAt(b, i);
    if i + 1 < |b.cuQ| {
      var lo, hi := b.cuQ[i], b.cuQ[i + 1];
      var next := ForwardRow(kv, blockSize, b, b.tables[i], lo, hi);
      var these, those := TokenRows(kv, blockSize, b, b.tables[i], lo, hi), PassRows(next, blockSize, b, i + 1);
      assert rows[lo..] == these + those;
      assert rows[lo..hi] == rows[lo..][..hi - lo] && rows[hi..] == rows[lo..][hi - lo..];
      hide Writing, ForwardRow, Framed, TokenRows, PassRows;
      RowWrites(flat, b, rows, lo, hi, blockSize, kv, b.tables[i]);
      PassWrites(flat, b, rows, i + 1, blockSize, next);
    }
  }

  lemma FramedAt(b: Batch, i: nat)
    requires Framed(b) && i < |b.cuQ|
    ensures b.cuQ[i] <= |b.tokens| == |b.slots| == |b.positions|
    ensures i + 1 < |b.cuQ| ==> i < |b.tables| && b.cuQ[i] <= b.cuQ[i + 1] <= |b.tokens|
    ensures i + 1 == |b.cuQ| ==> b.cuQ[i] == |b.tokens|
  {}

  /** The forward pass of a valid batch leaves the cache as `write_rows` leaves it, given the rows the pass computed: each
      the row of its own token, over the cache the tokens before it left. */
  lemma ForwardIsWriteRows(kv: Cache, blockSize: nat, b: Batch, flat: seq<Row>)
    requires blockSize > 0 && ValidBatch(b, |kv|, blockSize) && (b.cuQ == [] ==> b.tokens == []) && FlatView(kv, blockSize, flat)
    ensures forall k :: 0 <= k < |b.slots| ==> b.slots[k] < |flat|
    ensures |PassRows(kv, blockSize, b, 0)| == |b.slots|
    ensures FlatView(Forward(kv, blockSize, b, 0), blockSize, WriteEach(flat, b.slots, PassRows(kv, blockSize, b, 0), 0))
  {
    assert |flat| == |kv| * blockSize;
    hide RowFits, FlatView, AtSlot, Forward, TokenRows;
    var rows := PassRows(kv, blockSize, b, 0);
    if b.cuQ != [] {
      FramedAt(b, 0);
      assert rows[0..] == rows;
      NoneWritten(flat, b.slots, rows);
      hide WriteTo, PassRows;
      PassWrites(flat, b, rows, 0, blockSize, kv);
    } else {
      NoneWritten(flat, b.slots, rows);
      NoPass(kv, blockSize, b);
    }
    WroteAll(flat, b.slots, rows);
  }

  lemma NoPass(kv: Cache, blockSize: nat, b: Batch)
    requires blockSize > 0 && b.cuQ == []
    ensures Forward(kv, blockSize, b, 0) == kv
  {}

  /** And `gather_kv` over the flat cache reads what the model reads through the block table. */
  lemma GatherIsFlat(kv: Cache, blockSize: nat, flat: seq<Row>, table: seq<BlockId>, len: nat)
    requires FlatView(kv, blockSize, flat) && blockSize > 0 && BlocksFor(blockSize, len) <= |table| && forall j :: 0 <= j < |table| ==> table[j] < |kv|
    ensures forall p: nat :: p < len ==> GatherRow(flat, blockSize, table, p) == Some(Gather(kv, blockSize, table, len)[p])
  {
    hide FlatView, GatherRow, RowAt;
    forall p: nat | p < len ensures GatherRow(flat, blockSize, table, p) == Some(Gather(kv, blockSize, table, len)[p]) {
      BlocksForCovers(blockSize, len, p);
      RowAtFlat(kv, blockSize, flat, table, p);
    }
  }
}
