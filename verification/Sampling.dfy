/** Which candidates a device must return for the sampler to choose as it would from the whole row
    (crates/vapi-engine/src/sampler.rs). Logits are reals: only their order matters here. */
module Sampling {
  import opened Prelude

  // -------------------------------------------------------------- penalties

  /** A repetition penalty; `SamplingParams::validate` refuses any other. */
  type Factor = x: real | x > 0.0 witness 1.0

  datatype Penalties = Penalties(repetition: Factor, frequency: real, presence: real)

  /** A row of logits, by token id. */
  type Logits = seq<real>

  /** How often each observed token occurred. */
  type Counts = map<nat, nat>

  function Penalise(l: real, count: nat, p: Penalties): real {
    var repeated := if p.repetition != 1.0 then (if l > 0.0 then l / p.repetition else l * p.repetition) else l;
    var frequent := repeated - p.frequency * (count as real);
    if count > 0 then frequent - p.presence else frequent
  }

  /** No penalty can raise a logit. */
  predicate Lowering(p: Penalties) {
    p.repetition >= 1.0 && p.frequency >= 0.0 && p.presence >= 0.0
  }

  lemma RepetitionLowers(l: real, r: real)
    requires r >= 1.0
    ensures (if l > 0.0 then l / r else l * r) <= l
  {
    if l > 0.0 {
      assert (l / r) * r == l;
      assert (l / r) * (r - 1.0) >= 0.0;
    } else {
      assert l * (r - 1.0) <= 0.0;
    }
  }

  lemma PenaltyLowers(l: real, count: nat, p: Penalties)
    requires Lowering(p)
    ensures Penalise(l, count, p) <= l
  {
    RepetitionLowers(l, p.repetition);
    assert p.frequency * (count as real) >= 0.0;
  }

  /** `apply_penalties`: the observed tokens, and only they, are penalised. */
  function Penalised(row: Logits, counts: Counts, p: Penalties): (r: Logits)
    ensures |r| == |row|
    ensures forall t :: 0 <= t < |r| ==> r[t] == if t in counts then Penalise(row[t], counts[t], p) else row[t]
  {
    seq(|row|, (t: nat) requires t < |row| => if t in counts then Penalise(row[t], counts[t], p) else row[t])
  }

  /** The same, in place, whatever order the counts are visited in. */
  method ApplyPenalties(row: array<real>, counts: Counts, p: Penalties)
    modifies row
    ensures row[..] == Penalised(old(row[..]), counts, p)
  {
    if p.repetition == 1.0 && p.frequency == 0.0 && p.presence == 0.0 {
      return;
    }
    var left := counts.Keys;
    while left != {}
      invariant left <= counts.Keys
      invariant forall t :: 0 <= t < row.Length ==>
        row[t] == if t in counts && t !in left then Penalise(old(row[t]), counts[t], p) else old(row[t])
      decreases left
    {
      var t :| t in left;
      if t < row.Length {
        row[t] := Penalise(row[t], counts[t], p);
      }
      left := left - {t};
    }
  }

  // ----------------------------------------------------------- what a penalty costs

  /** One more occurrence of a token costs it the frequency penalty, the first one the presence penalty too; no other
      token moves. */
  lemma OccurrenceCosts(row: Logits, counts: Counts, p: Penalties, t: nat, n: nat)
    requires t < |row|
    ensures var before, after := Penalised(row, counts[t := n], p), Penalised(row, counts[t := n + 1], p);
      after[t] == before[t] - p.frequency - (if n == 0 then p.presence else 0.0)
      && forall u :: 0 <= u < |row| && u != t ==> after[u] == before[u]
  {
    assert p.frequency * ((n + 1) as real) == p.frequency * (n as real) + p.frequency;
  }

  /** In all, `n` occurrences cost `n` times the one, and the other once. */
  lemma {:induction false} OccurrencesCost(row: Logits, counts: Counts, p: Penalties, t: nat, n: nat)
    requires t < |row| && n > 0
    ensures Penalised(row, counts[t := n], p)[t] == Penalised(row, counts[t := 0], p)[t] - (n as real) * p.frequency - p.presence
    decreases n
  {
    hide Penalised;
    OccurrenceCosts(row, counts, p, t, n - 1);
    if n > 1 {
      OccurrencesCost(row, counts, p, t, n - 1);
    }
    assert (n as real) * p.frequency == ((n - 1) as real) * p.frequency + p.frequency;
  }

  lemma Scaled(l: real, r: Factor)
    ensures l > 0.0 ==> l / r > 0.0 && (l / r) * r == l
    ensures l < 0.0 ==> l * r < 0.0
    ensures l == 0.0 ==> l * r == 0.0
  {
    if l > 0.0 {
      assert (l / r) * r == l;
    }
  }

  lemma ScaledOnly(l: real, count: nat, p: Penalties)
    requires p.frequency == 0.0 && p.presence == 0.0
    ensures p.repetition == 1.0 ==> Penalise(l, count, p) == l
    ensures p.repetition != 1.0 && l > 0.0 ==> Penalise(l, count, p) == l / p.repetition
    ensures p.repetition != 1.0 && l <= 0.0 ==> Penalise(l, count, p) == l * p.repetition
  {
    assert p.frequency * (count as real) == 0.0;
  }

  lemma ScaledPenalty(l: real, count: nat, p: Penalties)
    requires p.frequency == 0.0 && p.presence == 0.0
    ensures var after := Penalise(l, count, p);
      (l > 0.0 ==> after * p.repetition == l) && (l <= 0.0 ==> after == l * p.repetition)
      && (after > 0.0 <==> l > 0.0) && (after < 0.0 <==> l < 0.0)
  {
    hide *;
    ScaledOnly(l, count, p);
    Scaled(l, p.repetition);
  }

  /** Without the other two, the repetition penalty divides a positive logit of an observed token and multiplies any
      other, which keeps its sign; tokens not observed keep their logits. */
  lemma RepetitionScales(row: Logits, counts: Counts, p: Penalties, t: nat)
    requires t < |row| && p.frequency == 0.0 && p.presence == 0.0
    ensures var after := Penalised(row, counts, p)[t];
      (t in counts && row[t] > 0.0 ==> after * p.repetition == row[t])
      && (t in counts && row[t] <= 0.0 ==> after == row[t] * p.repetition)
      && (t !in counts ==> after == row[t])
      && (after > 0.0 <==> row[t] > 0.0) && (after < 0.0 <==> row[t] < 0.0)
  {
    hide *;
    if t in counts {
      ScaledPenalty(row[t], counts[t], p);
    }
  }

  /** Neutral penalties change nothing. */
  lemma NeutralKeeps(row: Logits, counts: Counts, p: Penalties)
    requires p.repetition == 1.0 && p.frequency == 0.0 && p.presence == 0.0
    ensures Penalised(row, counts, p) == row
  {}

  // ------------------------------------------------------------------ the order

  /** `u` comes before `t`: larger logit, or the same and a smaller id. */
  predicate Before(row: Logits, u: nat, t: nat) {
    u < |row| && t < |row| && (row[u] > row[t] || (row[u] == row[t] && u < t))
  }

  ghost function Tokens(row: Logits): set<nat> {
    set u | u in Ids(|row|)
  }

  function Ids(n: nat): (r: seq<nat>)
    ensures |r| == n && forall i :: 0 <= i < n ==> r[i] == i
  {
    seq(n, i => i)
  }

  lemma TokensAre(row: Logits)
    ensures forall u: nat :: u in Tokens(row) <==> u < |row|
  {
    forall u: nat | u < |row| ensures u in Tokens(row) {
      assert Ids(|row|)[u] == u;
    }
  }

  /** Everything before `t`. */
  ghost function Ahead(row: Logits, t: nat): set<nat> {
    set u | u in Tokens(row) && Before(row, u, t)
  }

  /** Among the first `k` of the row. */
  ghost predicate InTop(row: Logits, k: nat, t: nat) {
    t < |row| && |Ahead(row, t)| < k
  }

  // ------------------------------------------------------- candidate sufficiency

  lemma SubsetSize(a: set<nat>, b: set<nat>)
    requires a <= b
    ensures |a| <= |b|
  {
    assert b == a + (b - a);
  }

  /** A token nothing penalised stays before one that could only sink. */
  lemma StaysBefore(row: Logits, counts: Counts, p: Penalties, u: nat, t: nat)
    requires Lowering(p) && Before(row, u, t) && u !in counts
    ensures Before(Penalised(row, counts, p), u, t)
  {
    if t in counts {
      PenaltyLowers(row[t], counts[t], p);
    }
  }

  lemma UnpenalisedAhead(row: Logits, counts: Counts, p: Penalties, t: nat)
    requires Lowering(p)
    ensures Ahead(row, t) - counts.Keys <= Ahead(Penalised(row, counts, p), t)
  {
    var after := Penalised(row, counts, p);
    TokensAre(row);
    TokensAre(after);
    forall u | u in Ahead(row, t) && u !in counts ensures u in Ahead(after, t) {
      StaysBefore(row, counts, p, u, t);
    }
  }

  /** Whatever is in the top `k` after lowering penalties was in the raw top `k` plus the number of observed tokens. */
  lemma TopComesFromRawTop(row: Logits, counts: Counts, p: Penalties, k: nat, t: nat)
    requires Lowering(p) && InTop(Penalised(row, counts, p), k, t)
    ensures InTop(row, k + |counts|, t)
  {
    var after := Penalised(row, counts, p);
    var raw := Ahead(row, t);
    UnpenalisedAhead(row, counts, p, t);
    SubsetSize(raw - counts.Keys, Ahead(after, t));
    SubsetSize(raw * counts.Keys, counts.Keys);
    assert raw == (raw - counts.Keys) + (raw * counts.Keys);
    assert |counts.Keys| == |counts|;
  }

  // -------------------------------------------------- choosing among candidates

  /** Among the first `k` of the candidates. */
  ghost predicate InTopOf(row: Logits, candidates: set<nat>, k: nat, t: nat) {
    t in candidates && t < |row| && |Ahead(row, t) * candidates| < k
  }

  lemma BeforeTransitive(row: Logits, a: nat, b: nat, c: nat)
    requires Before(row, a, b) && Before(row, b, c)
    ensures Before(row, a, c)
  {}

  lemma BeforeTotal(row: Logits, a: nat, b: nat)
    requires a < |row| && b < |row| && a != b
    ensures Before(row, a, b) != Before(row, b, a)
  {}

  /** A set that holds everything before any of its members. */
  ghost predicate DownClosed(row: Logits, s: set<nat>) {
    forall u :: u in s ==> u < |row| && Ahead(row, u) <= s
  }

  lemma {:induction false} LastOf(row: Logits, s: set<nat>) returns (last: nat)
    requires s != {} && forall u :: u in s ==> u < |row|
    ensures last in s && forall u :: u in s && u != last ==> Before(row, u, last)
    decreases s
  {
    var x :| x in s;
    if s == {x} {
      last := x;
    } else {
      var rest := s - {x};
      var y := LastOf(row, rest);
      BeforeTotal(row, x, y);
      if Before(row, x, y) {
        last := y;
      } else {
        last := x;
        forall u | u in s && u != x ensures Before(row, u, x) {
          if u != y {
            BeforeTransitive(row, u, y, x);
          }
        }
      }
    }
  }

  lemma DropLast(row: Logits, s: set<nat>, last: nat)
    requires DownClosed(row, s) && last in s && forall u :: u in s && u != last ==> Before(row, u, last)
    ensures DownClosed(row, s - {last})
  {
    forall u | u in s - {last} ensures last !in Ahead(row, u) {
      assert Before(row, u, last);
    }
  }

  /** The first `k` of a down-closed set. */
  ghost function Firsts(row: Logits, s: set<nat>, k: nat): set<nat> {
    set u | u in s && |Ahead(row, u)| < k
  }

  lemma {:induction false} EnoughFirsts(row: Logits, s: set<nat>, k: nat)
    requires DownClosed(row, s) && |s| >= k
    ensures |Firsts(row, s, k)| >= k
    decreases s
  {
    if |s| == k {
      forall u | u in s ensures |Ahead(row, u)| < k {
        assert u !in Ahead(row, u);
        SubsetSize(Ahead(row, u), s - {u});
      }
      assert Firsts(row, s, k) == s;
    } else {
      var last := LastOf(row, s);
      DropLast(row, s, last);
      EnoughFirsts(row, s - {last}, k);
      SubsetSize(Firsts(row, s - {last}, k), Firsts(row, s, k));
    }
  }

  lemma AheadDownClosed(row: Logits, t: nat)
    ensures DownClosed(row, Ahead(row, t))
  {
    TokensAre(row);
    forall u | u in Ahead(row, t) ensures u < |row| && Ahead(row, u) <= Ahead(row, t) {
      forall v | v in Ahead(row, u) ensures v in Ahead(row, t) {
        BeforeTransitive(row, v, u, t);
      }
    }
  }

  /** If the candidates hold the whole top `k`, the top `k` of the candidates is the top `k` of the row. */
  lemma TopOfCandidates(row: Logits, candidates: set<nat>, k: nat, t: nat)
    requires forall u :: InTop(row, k, u) ==> u in candidates
    ensures InTopOf(row, candidates, k, t) <==> InTop(row, k, t)
  {
    var ahead := Ahead(row, t);
    SubsetSize(ahead * candidates, ahead);
    if t < |row| && |ahead| >= k {
      AheadDownClosed(row, t);
      EnoughFirsts(row, ahead, k);
      assert Firsts(row, ahead, k) <= ahead * candidates;
      SubsetSize(Firsts(row, ahead, k), ahead * candidates);
    }
  }

  /** `need`: how many candidates the device must return, or none at all for the whole row. */
  function Needed(greedy: bool, topK: Option<nat>, p: Penalties, observed: nat): nat {
    var raising := p.repetition < 1.0 || p.frequency < 0.0 || p.presence < 0.0;
    var k := if greedy then Some(1) else topK;
    match k
    case None => 0
    case Some(n) => if raising then 0 else (if n >= 1 then n else 1) + observed
  }

  /** The whole row is asked for exactly when no bound on the kept tokens is known or a penalty could raise a logit;
      otherwise one candidate for each token kept and one for each token observed. */
  lemma NeededIff(greedy: bool, topK: Option<nat>, p: Penalties, observed: nat)
    ensures Needed(greedy, topK, p, observed) == 0 <==> !Lowering(p) || (!greedy && topK.None?)
    ensures Needed(greedy, topK, p, observed) > 0 ==> Needed(greedy, topK, p, observed) == KeptCount(greedy, topK) + observed
  {}

  /** How many the sampler keeps: one if greedy, `k.max(1)` under top-k. */
  function KeptCount(greedy: bool, topK: Option<nat>): nat {
    if greedy then 1 else match topK case None => 1 case Some(n) => if n >= 1 then n else 1
  }

  /** Candidate sufficiency: candidates that hold the raw top `Needed` give the same top-k, after penalties, as the
      whole vocabulary, in whatever order they come. */
  lemma CandidatesSuffice(row: Logits, counts: Counts, p: Penalties, greedy: bool, topK: Option<nat>, candidates: set<nat>, t: nat)
    requires Needed(greedy, topK, p, |counts|) > 0
    requires forall u :: InTop(row, Needed(greedy, topK, p, |counts|), u) ==> u in candidates
    ensures InTopOf(Penalised(row, counts, p), candidates, KeptCount(greedy, topK), t) <==> InTop(Penalised(row, counts, p), KeptCount(greedy, topK), t)
  {
    var k, after := KeptCount(greedy, topK), Penalised(row, counts, p);
    assert Lowering(p) && Needed(greedy, topK, p, |counts|) == k + |counts|;
    forall u | InTop(after, k, u) ensures u in candidates {
      TopComesFromRawTop(row, counts, p, k, u);
    }
    TopOfCandidates(after, candidates, k, t);
  }

  // ------------------------------------------------------- the truncated list

  /** `sort_unstable_by`, largest logit first, ties by id. */
  function SortIds(row: Logits, ids: seq<nat>): seq<nat> {
    if ids == [] then [] else InsertId(row, ids[0], SortIds(row, ids[1..]))
  }

  function InsertId(row: Logits, t: nat, sorted: seq<nat>): seq<nat> {
    if sorted == [] || Before(row, t, sorted[0]) then [t] + sorted else [sorted[0]] + InsertId(row, t, sorted[1..])
  }

  /** `truncate_top_k` of what `sample_candidates` sorted. */
  function TopList(row: Logits, ids: seq<nat>, k: nat): seq<nat> {
    var sorted := SortIds(row, ids);
    if k <= |sorted| then sorted[..k] else sorted
  }

  ghost function Set(ids: seq<nat>): set<nat> { set t | t in ids }

  lemma {:induction false} IdInserted(row: Logits, t: nat, s: seq<nat>)
    requires SortedTop(row, s) && t < |row| && t !in s
    ensures SortedTop(row, InsertId(row, t, s)) && forall x :: x in InsertId(row, t, s) <==> x == t || x in s
    decreases |s|
  {
    if s != [] && !Before(row, t, s[0]) {
      assert s[0] in s;
      BeforeTotal(row, t, s[0]);
      assert forall x :: x in s <==> x == s[0] || x in s[1..];
      IdInserted(row, t, s[1..]);
      var rest := InsertId(row, t, s[1..]);
      forall j | 0 <= j < |rest| ensures Before(row, s[0], rest[j]) {
        assert rest[j] in rest;
        if rest[j] != t {
          var i :| 0 <= i < |s[1..]| && s[1..][i] == rest[j];
          assert s[i + 1] == rest[j];
        }
      }
    } else if s != [] {
      forall j | 0 <= j < |s| ensures Before(row, t, s[j]) {
        if j > 0 {
          BeforeTransitive(row, t, s[0], s[j]);
        }
      }
    }
  }

  lemma {:induction false} SortsIds(row: Logits, ids: seq<nat>)
    requires NoDup(ids) && forall i :: 0 <= i < |ids| ==> ids[i] < |row|
    ensures SortedTop(row, SortIds(row, ids)) && Set(SortIds(row, ids)) == Set(ids)
    decreases |ids|
  {
    if ids != [] {
      assert ids[0] !in ids[1..];
      SortsIds(row, ids[1..]);
      assert forall x :: x in ids <==> x == ids[0] || x in ids[1..];
      var rest := SortIds(row, ids[1..]);
      assert forall x :: x in rest <==> x in Set(rest);
      IdInserted(row, ids[0], rest);
    }
  }

  /** What comes before the element at `i` of a sorted list, among the list, is what stands before it. */
  lemma AheadInList(row: Logits, s: seq<nat>, i: nat)
    requires SortedTop(row, s) && i < |s|
    ensures |Ahead(row, s[i]) * Set(s)| == i
  {
    TokensAre(row);
    forall t ensures t in Ahead(row, s[i]) * Set(s) <==> t in s[..i] {
      if t in s {
        var j :| 0 <= j < |s| && s[j] == t;
        if j < i {
          assert s[..i][j] == t;
        }
      }
    }
    SortedDistinct(row, s);
    DistinctSize(s[..i], Ahead(row, s[i]) * Set(s));
  }

  /** The first `k` of the list are the first `k` of its elements. */
  lemma TopListHolds(row: Logits, ids: seq<nat>, k: nat, t: nat)
    requires NoDup(ids) && forall i :: 0 <= i < |ids| ==> ids[i] < |row|
    ensures t in TopList(row, ids, k) <==> InTopOf(row, Set(ids), k, t)
  {
    SortsIds(row, ids);
    var s := SortIds(row, ids);
    assert t in Set(ids) <==> t in s by {
      assert t in Set(s) <==> t in s;
    }
    if t in s {
      var i :| 0 <= i < |s| && s[i] == t;
      AheadInList(row, s, i);
      if i < k {
        assert TopList(row, ids, k)[i] == t;
      } else {
        SortedDistinct(row, s);
      }
    }
  }

  /** A sorted list is determined by what it holds. */
  lemma {:induction false} SortedUnique(row: Logits, a: seq<nat>, b: seq<nat>)
    requires SortedTop(row, a) && SortedTop(row, b) && forall t :: t in a <==> t in b
    ensures a == b
    decreases |a|
  {
    assert b == [] || b[0] in b;
    if a != [] {
      assert a[0] in a && a[0] in b;
      assert b[0] in b && b[0] in a;
      FirstIsFirst(row, a, b[0]);
      FirstIsFirst(row, b, a[0]);
      assert a[0] == b[0];
      forall t ensures t in a[1..] <==> t in b[1..] {
        RestHolds(row, a, t);
        RestHolds(row, b, t);
      }
      SortedUnique(row, a[1..], b[1..]);
    }
  }

  lemma FirstIsFirst(row: Logits, s: seq<nat>, t: nat)
    requires SortedTop(row, s) && t in s
    ensures s != [] && (t == s[0] || Before(row, s[0], t))
  {}

  lemma RestHolds(row: Logits, s: seq<nat>, t: nat)
    requires SortedTop(row, s) && s != []
    ensures t in s[1..] <==> t in s && t != s[0]
  {
    SortedDistinct(row, s);
  }

  lemma TopListSorted(row: Logits, ids: seq<nat>, k: nat)
    requires NoDup(ids) && forall i :: 0 <= i < |ids| ==> ids[i] < |row|
    ensures SortedTop(row, TopList(row, ids, k))
  {
    SortsIds(row, ids);
  }

  lemma WholeRow(row: Logits, k: nat, t: nat)
    ensures NoDup(Ids(|row|)) && (InTopOf(row, Set(Ids(|row|)), k, t) <==> InTop(row, k, t))
  {
    TokensAre(row);
    assert Set(Ids(|row|)) == Tokens(row);
    assert Ahead(row, t) * Tokens(row) == Ahead(row, t);
  }

  /** The list the sampler draws from, sorted and truncated, is the same over the device's candidates, in any order, as
      over the whole row. */
  lemma TruncatedListAgrees(row: Logits, counts: Counts, p: Penalties, greedy: bool, topK: Option<nat>, candidates: seq<nat>)
    requires Needed(greedy, topK, p, |counts|) > 0 && NoDup(candidates) && forall i :: 0 <= i < |candidates| ==> candidates[i] < |row|
    requires forall u :: InTop(row, Needed(greedy, topK, p, |counts|), u) ==> u in candidates
    ensures var after, k := Penalised(row, counts, p), KeptCount(greedy, topK);
      TopList(after, candidates, k) == TopList(after, Ids(|row|), k)
  {
    var after, k := Penalised(row, counts, p), KeptCount(greedy, topK);
    WholeRow(after, k, 0);
    hide Penalised, Needed, KeptCount, TopList, InTop, InTopOf;
    forall t ensures t in TopList(after, candidates, k) <==> t in TopList(after, Ids(|row|), k) {
      WholeRow(after, k, t);
      TopListHolds(after, candidates, k, t);
      TopListHolds(after, Ids(|row|), k, t);
      CandidatesSuffice(row, counts, p, greedy, topK, Set(candidates), t);
    }
    TopListSorted(after, candidates, k);
    TopListSorted(after, Ids(|row|), k);
    SortedUnique(after, TopList(after, candidates, k), TopList(after, Ids(|row|), k));
  }

  // -------------------------------------------------------------------- greedy

  /** First of the row. */
  ghost predicate Best(row: Logits, t: nat) {
    t < |row| && forall u :: 0 <= u < |row| && u != t ==> Before(row, t, u)
  }

  /** `argmax`: the first index of the largest logit. */
  method Argmax(row: Logits) returns (best: nat)
    requires row != []
    ensures Best(row, best)
  {
    best := 0;
    for i := 1 to |row|
      invariant best < i && forall u :: 0 <= u < i && u != best ==> Before(row, best, u)
    {
      if row[i] > row[best] {
        forall u | 0 <= u < i ensures Before(row, i, u) {
          assert u != best ==> Before(row, best, u);
        }
        best := i;
      }
    }
  }

  /** Entry `i` is the first of the list: the largest logit, the smallest id among those. */
  ghost predicate FirstEntry(entries: seq<(nat, real)>, i: nat) {
    i < |entries|
    && forall j :: 0 <= j < |entries| ==> entries[j].1 < entries[i].1 || (entries[j].1 == entries[i].1 && entries[j].0 >= entries[i].0)
  }

  /** The greedy choice over candidates `(token, logit)` in any order. */
  method GreedyOf(entries: seq<(nat, real)>) returns (best: nat)
    requires entries != []
    ensures exists i: nat :: FirstEntry(entries, i) && entries[i].0 == best
  {
    var at := 0;
    for i := 1 to |entries|
      invariant at < i && FirstEntry(entries[..i], at)
    {
      var (t, l) := entries[i];
      var (bt, bl) := entries[at];
      assert forall j :: 0 <= j < i ==> entries[..i][j] == entries[j];
      if !(l < bl || (l == bl && t > bt)) {
        at := i;
      }
      assert forall j :: 0 <= j < i + 1 ==> entries[..i + 1][j] == entries[j];
    }
    assert entries[..|entries|] == entries;
    best := entries[at].0;
  }

  lemma BestIsTop(row: Logits, t: nat)
    ensures Best(row, t) <==> InTop(row, 1, t)
  {
    TokensAre(row);
    if t < |row| {
      if InTop(row, 1, t) {
        assert Ahead(row, t) == {};
        forall u | 0 <= u < |row| && u != t ensures Before(row, t, u) {
          assert u !in Ahead(row, t);
          BeforeTotal(row, t, u);
        }
      } else {
        var u :| u in Ahead(row, t);
        BeforeTotal(row, u, t);
      }
    }
  }

  /** The entries are the candidates' penalised logits. */
  ghost predicate EntriesOf(row: Logits, entries: seq<(nat, real)>) {
    forall i :: 0 <= i < |entries| ==> entries[i].0 < |row| && entries[i].1 == row[entries[i].0]
  }

  /** Greedy over the candidates is greedy over the row. */
  lemma GreedyAgrees(row: Logits, entries: seq<(nat, real)>, i: nat, j: nat, top: nat)
    requires EntriesOf(row, entries) && FirstEntry(entries, i) && Best(row, top) && j < |entries| && entries[j].0 == top
    ensures entries[i].0 == top
  {
    assert entries[i].0 == top || Before(row, top, entries[i].0);
  }

  ghost predicate Listed(entries: seq<(nat, real)>, t: nat) {
    exists j :: 0 <= j < |entries| && entries[j].0 == t
  }

  /** Greedy decoding from the device's candidates equals greedy decoding from the full row. */
  lemma GreedyFromCandidates(row: Logits, counts: Counts, p: Penalties, entries: seq<(nat, real)>, i: nat, n: nat, top: nat)
    requires Lowering(p) && EntriesOf(Penalised(row, counts, p), entries) && FirstEntry(entries, i) && n == 1 + |counts|
    requires forall u :: InTop(row, n, u) ==> Listed(entries, u)
    requires Best(Penalised(row, counts, p), top)
    ensures entries[i].0 == top
  {
    BestIsTop(Penalised(row, counts, p), top);
    TopComesFromRawTop(row, counts, p, 1, top);
    assert InTop(row, n, top);
    var j :| 0 <= j < |entries| && entries[j].0 == top;
    GreedyAgrees(Penalised(row, counts, p), entries, i, j, top);
  }

  // ---------------------------------------------------------- top of the row

  ghost predicate SortedTop(row: Logits, top: seq<nat>) {
    (forall i :: 0 <= i < |top| ==> top[i] < |row|) && forall i, j :: 0 <= i < j < |top| ==> Before(row, top[i], top[j])
  }

  /** Of the first `n` ids, `top` lists the first `k` in order: the others come after everything listed. */
  ghost predicate KeepsTop(row: Logits, top: seq<nat>, n: nat, k: nat) {
    SortedTop(row, top) && n <= |row| && (forall i :: 0 <= i < |top| ==> top[i] < n)
    && |top| == (if n <= k then n else k)
    && forall t: nat :: t < n && t !in top ==> AfterAll(row, top, t)
  }

  ghost predicate AfterAll(row: Logits, top: seq<nat>, t: nat) {
    |top| > 0 ==> Before(row, top[|top| - 1], t)
  }

  lemma AfterEach(row: Logits, top: seq<nat>, t: nat, i: nat)
    requires SortedTop(row, top) && AfterAll(row, top, t) && i < |top|
    ensures Before(row, top[i], t)
  {
    if i < |top| - 1 {
      BeforeTransitive(row, top[i], top[|top| - 1], t);
    }
  }

  /** `RowLogprobs::of`: the `k` largest logits by one pass of insertions. */
  method TopIds(row: Logits, k: nat) returns (top: seq<nat>)
    ensures KeepsTop(row, top, |row|, k)
  {
    top := [];
    for t := 0 to |row|
      invariant KeepsTop(row, top, t, k)
    {
      if |top| < k {
        top := InsertTop(row, top, t);
        forall i | 0 <= i < |top| ensures top[i] < t + 1 {
          assert top[i] in top;
        }
        AllNowKept(row, top, t);
      } else if top != [] && row[t] > row[top[|top| - 1]] {
        var rest := top[..|top| - 1];
        var out := top[|top| - 1];
        assert top == rest + [out];
        ghost var was := top;
        top := InsertTop(row, rest, t);
        Displaced(row, was, rest, out, t, top, k);
      } else {
        Passed(row, top, t, k);
      }
    }
  }

  lemma {:induction false} DistinctFull(top: seq<nat>, n: nat)
    requires NoDup(top) && |top| == n && forall i :: 0 <= i < |top| ==> top[i] < n
    ensures forall t: nat :: t < n ==> t in top
  {
    var s := set x | x in top;
    DistinctSize(top, s);
    var all := set u | u in Ids(n);
    DistinctSize(Ids(n), all);
    forall x | x in s ensures x in all {
      assert Ids(n)[x] == x;
    }
    SameSize(s, all);
    forall t: nat | t < n ensures t in top {
      assert Ids(n)[t] == t;
      assert t in all;
    }
  }

  lemma {:induction false} DistinctSize(s: seq<nat>, a: set<nat>)
    requires NoDup(s) && a == set x | x in s
    ensures |a| == |s|
  {
    if s != [] {
      var rest := set x | x in s[1..];
      assert s == [s[0]] + s[1..];
      assert s[0] !in s[1..];
      DistinctSize(s[1..], rest);
      assert a == {s[0]} + rest;
    }
  }

  lemma SameSize(a: set<nat>, b: set<nat>)
    requires a <= b && |a| == |b|
    ensures a == b
  {
    assert b == a + (b - a);
  }

  lemma SortedDistinct(row: Logits, top: seq<nat>)
    requires SortedTop(row, top)
    ensures NoDup(top)
  {}

  /** While there is room everything is kept. */
  lemma AllNowKept(row: Logits, top: seq<nat>, t: nat)
    requires SortedTop(row, top) && |top| == t + 1 && forall i :: 0 <= i < |top| ==> top[i] < t + 1
    ensures forall u: nat :: u < t + 1 ==> u in top
  {
    SortedDistinct(row, top);
    DistinctFull(top, t + 1);
  }

  lemma Displaced(row: Logits, was: seq<nat>, rest: seq<nat>, out: nat, t: nat, top: seq<nat>, k: nat)
    requires KeepsTop(row, was, t, k) && was == rest + [out] && t < |row| && out < |row| && row[t] > row[out] && |was| == k
    requires SortedTop(row, top) && |top| == k && forall x :: x in top <==> x == t || x in rest
    ensures KeepsTop(row, top, t + 1, k)
  {
    assert was[|rest|] == out;
    assert forall i :: 0 <= i < |rest| ==> was[i] == rest[i] && Before(row, was[i], was[|rest|]);
    var last := top[|top| - 1];
    assert last in top;
    assert Before(row, last, out) by {
      if last != t {
        var i :| 0 <= i < |rest| && rest[i] == last;
      }
    }
    forall u: nat | u < t + 1 && u !in top ensures AfterAll(row, top, u) {
      if u != out {
        assert u !in was;
        AfterEach(row, was, u, |was| - 1);
        BeforeTransitive(row, last, out, u);
      }
    }
    forall i | 0 <= i < |top| ensures top[i] < t + 1 {
      assert top[i] in top;
      if top[i] != t {
        var j :| 0 <= j < |rest| && rest[j] == top[i];
        assert was[j] < t;
      }
    }
  }

  lemma Passed(row: Logits, top: seq<nat>, t: nat, k: nat)
    requires KeepsTop(row, top, t, k) && t < |row| && |top| == k && (top != [] ==> row[t] <= row[top[|top| - 1]])
    ensures KeepsTop(row, top, t + 1, k)
  {}

  /** What is listed is the top `k`, no more and no less. */
  lemma TopIdsAreTop(row: Logits, top: seq<nat>, k: nat, t: nat)
    requires KeepsTop(row, top, |row|, k) && t < |row|
    ensures t in top <==> InTop(row, k, t)
  {
    TokensAre(row);
    SortedDistinct(row, top);
    if t in top {
      var i :| 0 <= i < |top| && top[i] == t;
      var before := set x | x in top[..i];
      DistinctSize(top[..i], before);
      forall u | u in Ahead(row, t) ensures u in before {
        if u !in top {
          AfterEach(row, top, u, i);
          BeforeTotal(row, u, t);
        } else {
          var j :| 0 <= j < |top| && top[j] == u;
          if j > i {
            BeforeTotal(row, u, t);
          }
          assert j < i;
          assert top[..i][j] == u;
        }
      }
      SubsetSize(Ahead(row, t), before);
    } else {
      var all := set x | x in top;
      DistinctSize(top, all);
      forall x | x in top ensures x in Ahead(row, t) {
        var i :| 0 <= i < |top| && top[i] == x;
        AfterEach(row, top, t, i);
      }
      SubsetSize(all, Ahead(row, t));
      if |top| < k {
        DistinctFull(top, |row|);
      }
    }
  }

  method InsertTop(row: Logits, top: seq<nat>, t: nat) returns (r: seq<nat>)
    requires SortedTop(row, top) && t < |row| && forall i :: 0 <= i < |top| ==> top[i] < t
    ensures SortedTop(row, r) && |r| == |top| + 1 && (forall x :: x in r <==> x == t || x in top)
  {
    var pos := 0;
    while pos < |top| && row[top[pos]] >= row[t]
      invariant 0 <= pos <= |top|
      invariant forall i :: 0 <= i < pos ==> Before(row, top[i], t)
    {
      pos := pos + 1;
    }
    forall i | pos <= i < |top| ensures Before(row, t, top[i]) {
      if i > pos {
        assert Before(row, top[pos], top[i]);
      }
    }
    r := top[..pos] + [t] + top[pos..];
    assert top == top[..pos] + top[pos..];
    InsertSorted(row, top, pos, t);
  }

  lemma InsertSorted(row: Logits, top: seq<nat>, pos: nat, t: nat)
    requires SortedTop(row, top) && pos <= |top| && t < |row|
    requires (forall i :: 0 <= i < pos ==> Before(row, top[i], t)) && (forall i :: pos <= i < |top| ==> Before(row, t, top[i]))
    ensures SortedTop(row, top[..pos] + [t] + top[pos..])
  {
    var r := top[..pos] + [t] + top[pos..];
    assert forall i :: 0 <= i < pos ==> r[i] == top[i];
    assert r[pos] == t;
    assert forall i :: pos < i < |r| ==> r[i] == top[i - 1];
  }
}
