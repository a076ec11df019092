/** The caps, as what a text may hold: how the machine counts, and that a text of short runs is permitted whatever the
    schema. */
module Caps {
  import opened Prelude
  import opened Machines
  import opened Grammar
  import opened Closing
  import opened Accepting
  import opened Trimming

  // --------------------------------------------------------------- what is counted

  predicate Counted(f: Frame) { f.Num? || f.Str? }

  lemma MoveCounts(nodes: Arena, f: Frame, c: char)
    requires MoveOf(nodes, f, c).Stay?
    ensures var g := MoveOf(nodes, f, c).top;
      (g.Num? ==> IsNumberChar(c) && g.chars == if f.Num? then f.chars + 1 else 1)
      && (g.Str? ==> g.len == if f.Str? then f.len + 1 else 0)
      && (Counted(g) ==> f.Value? || Counted(f))
  {
    hide StartMove, ObjMove, ArrMove;
    match f
    case Value(id) => StartCounts(nodes, id, c);
    case Obj(_, _, _, _, _) => ObjStaysObj(nodes, f, c);
    case Arr(_, _) => ArrStaysArr(nodes, f, c);
    case _ =>
  }

  lemma StartCounts(nodes: Arena, id: nat, c: char)
    requires StartMove(nodes, id, c).Stay?
    ensures var g := StartMove(nodes, id, c).top; (g.Num? ==> IsNumberChar(c) && g.chars == 1) && (g.Str? ==> g.len == 0)
  {}

  /** What one pass makes of the counters. */
  ghost predicate PassCounts(m: Machine, c: char, x: Machine) {
    x.wsRun == (if IsWs(c) && !InStringBody(m) then m.wsRun + 1 else 0)
    && (x.started <==> m.started || !IsWs(c) || InStringBody(m))
  }

  lemma OnceCounts(nodes: Arena, m: Machine, c: char)
    requires !Once(nodes, m, c).Dead?
    ensures PassCounts(m, c, Once(nodes, m, c).m)
  {
    hide MoveOf;
  }

  lemma AppliedTop(m: Machine, move: Move)
    requires m.stack != [] && !Apply(m, move).Dead? && (move.Open? || move.OpenThen? ==> move.inner.Value?)
    ensures var x := Apply(m, move).m;
      x.stack != [] && Counted(Top(x)) ==> move == Stay(Top(x)) && Apply(m, move).Alive?
  {}

  /** A number or a string on top after a pass was put there by it. */
  lemma OnceTop(nodes: Arena, m: Machine, c: char)
    requires !Once(nodes, m, c).Dead? && (m.done <==> m.stack == [])
    ensures var x := Once(nodes, m, c).m;
      x.stack != [] && Counted(Top(x)) ==>
        m.stack != [] && !Once(nodes, m, c).Again? && MoveOf(nodes, Top(m), c) == Stay(Top(x))
  {
    hide MoveOf, Apply;
    if m.stack != [] {
      OpensValue(nodes, Top(m), c);
      AppliedTop(Count(m, c).value, MoveOf(nodes, Top(m), c));
    }
  }

  /** What is handed on is no part of a string, and whitespace only after a number. */
  lemma AgainFrom(nodes: Arena, m: Machine, c: char)
    requires Once(nodes, m, c).Again?
    ensures m.stack != [] && !InStringBody(Once(nodes, m, c).m) && !InStringBody(m) && (Top(m).Num? || !IsWs(c))
    ensures Once(nodes, m, c).m.stack != [] && Top(Once(nodes, m, c).m).Value? ==> !Counted(Top(m))
  {
    var x := Count(m, c).value;
    AgainMoves(nodes, Top(x), c);
    AgainParts(nodes, Top(x), c);
    hide MoveOf;
  }

  lemma AliveFrom(nodes: Arena, m: Machine, c: char)
    requires Once(nodes, m, c).Alive? && m.stack != [] && Top(m).Num? && !m.done
    ensures !IsWs(c)
  {
    assert Count(m, c).Some? && MoveOf(nodes, Top(m), c) == NumMove(Top(m), c);
  }

  lemma TopCounts(nodes: Arena, m: Machine, c: char)
    requires !Once(nodes, m, c).Dead? && (m.done <==> m.stack == [])
    ensures var x := Once(nodes, m, c).m;
      CountsTop(m, c, x) && (Once(nodes, m, c).Again? ==> CountsNothing(x))
      && (x.stack != [] && Counted(Top(x)) ==> m.stack != [] && (Top(m).Value? || Counted(Top(m))))
  {
    OnceTop(nodes, m, c);
    hide MoveOf, Once;
    if m.stack != [] && MoveOf(nodes, Top(m), c).Stay? {
      MoveCounts(nodes, Top(m), c);
    }
  }

  ghost predicate CountsNothing(x: Machine) { x.stack != [] ==> !Counted(Top(x)) }

  /** What the characters of a number or string on top come to. */
  ghost predicate CountsTop(m: Machine, c: char, x: Machine) {
    x.stack != [] && Counted(Top(x)) ==>
      m.stack != []
      && (Top(x).Str? ==> Top(x).len == if Top(m).Str? then Top(m).len + 1 else 0)
      && (Top(x).Num? ==> IsNumberChar(c) && Top(x).chars == if Top(m).Num? then Top(m).chars + 1 else 1)
  }

  ghost predicate CountsSpace(m: Machine, c: char, x: Machine) {
    x.wsRun == (if IsWs(c) && !InStringBody(m) then m.wsRun + (if m.stack != [] && Top(m).Num? then 2 else 1) else 0)
  }

  /** The counters after a character: whitespace in a row outside strings, where the character that ends a number counts
      twice; the characters of a string; those of a number. */
  lemma CountersAre(nodes: Arena, m: Machine, c: char)
    requires Sane(nodes, m) && PushChar(nodes, m, c).Some?
    ensures var x := PushChar(nodes, m, c).value;
      CountsSpace(m, c, x) && CountsTop(m, c, x) && (m.started || !IsWs(c) ==> x.started)
  {
    hide Once, Sane, MoveOf, CountsTop, CountsNothing, IsWs, InStringBody;
    SaneDone(nodes, m);
    OnceSane(nodes, m, c);
    OnceCounts(nodes, m, c);
    TopCounts(nodes, m, c);
    var out := Once(nodes, m, c);
    if out.Again? {
      SaneDone(nodes, out.m);
      AgainFrom(nodes, m, c);
      OnceCounts(nodes, out.m, c);
      TopCounts(nodes, out.m, c);
      NothingCounted(m, c, out.m, PushChar(nodes, m, c).value);
    } else if m.stack != [] && Top(m).Num? {
      AliveFrom(nodes, m, c);
    }
  }

  lemma NothingCounted(m: Machine, c: char, x: Machine, y: Machine)
    requires CountsNothing(x) && CountsTop(x, c, y) && m.stack != [] && (x.stack != [] && Top(x).Value? ==> !Counted(Top(m)))
    requires y.stack != [] && Counted(Top(y)) ==> x.stack != [] && (Top(x).Value? || Counted(Top(x)))
    ensures CountsTop(m, c, y)
  {}

  lemma SaneDone(nodes: Arena, m: Machine)
    requires Sane(nodes, m)
    ensures m.done <==> m.stack == []
  {}

  // ------------------------------------------------------- whitespace, exactly

  /** Between two tokens of the text. */
  predicate Between(m: Machine) {
    m.started && (m.done <==> m.stack == [])
    && (m.stack != [] ==>
          Top(m).Value? || (Top(m).Obj? && Top(m).ostate != OValue && Top(m).ostate != OKey) || (Top(m).Arr? && Top(m).astate != AValue))
  }

  lemma SpaceTaken(nodes: Arena, m: Machine, c: char)
    requires Between(m) && IsWs(c)
    ensures PushChar(nodes, m, c) == if m.wsRun < MaxWsRun then Some(m.(wsRun := m.wsRun + 1)) else None
  {
    if m.stack != [] {
      assert m.stack == Below(m) + [Top(m)];
      assert MoveOf(nodes, Top(m), c) == Stay(Top(m));
    }
    hide MoveOf;
  }

  /** Between tokens, exactly sixteen whitespace characters in a row are taken. */
  lemma {:induction false} SpacesTakenIff(nodes: Arena, m: Machine, t: string)
    requires Between(m) && AllWs(t) && t != ""
    ensures Push(nodes, m, t).Some? <==> m.wsRun + |t| <= MaxWsRun
    decreases |t|
  {
    hide PushChar, IsWs;
    SpaceTaken(nodes, m, t[0]);
    if m.wsRun < MaxWsRun && |t| > 1 {
      SpacesTakenIff(nodes, m.(wsRun := m.wsRun + 1), t[1..]);
    }
  }

  lemma NumberSpace(nodes: Arena, m: Machine, c: char)
    requires m.stack != [] && !m.done && m.started && m.wsRun == 0 && NumComplete(Top(m)) && Resume(Below(m)).Some? && IsWs(c)
    ensures PushChar(nodes, m, c).Some? && Between(PushChar(nodes, m, c).value) && PushChar(nodes, m, c).value.wsRun == 2
  {
    assert NumMove(Top(m), c) == CloseThen;
    var x := Once(nodes, m, c).m;
    assert Once(nodes, m, c).Again? && x.stack == Resume(Below(m)).value && x.wsRun == 1 && x.started;
    assert Between(x);
    SpaceTaken(nodes, x, c);
    assert x.stack != [] ==> MoveOf(nodes, Top(x), c) == Stay(Top(x));
    hide MoveOf, NumMove;
  }

  /** Right after a number only fifteen are, because the one that ends it counts twice. */
  lemma SpacesAfterNumberIff(nodes: Arena, m: Machine, t: string)
    requires m.stack != [] && !m.done && m.started && m.wsRun == 0 && NumComplete(Top(m)) && Resume(Below(m)).Some? && AllWs(t) && t != ""
    ensures Push(nodes, m, t).Some? <==> |t| <= MaxWsRun - 1
  {
    hide PushChar, IsWs, Between, Resume;
    NumberSpace(nodes, m, t[0]);
    var x := PushChar(nodes, m, t[0]).value;
    if |t| > 1 {
      SpacesTakenIff(nodes, x, t[1..]);
    }
  }

  // ----------------------------------------------------------------- short runs

  /** No more than `limit` characters of the kind in a row, after `run` of them. */
  predicate ShortRuns(kind: char -> bool, limit: nat, run: nat, text: string)
    decreases |text|
  {
    text == ""
    || if kind(text[0]) then run < limit && ShortRuns(kind, limit, run + 1, text[1..]) else ShortRuns(kind, limit, 0, text[1..])
  }

  /** A text of short runs: at most fifteen whitespace characters and thirty-two number characters in a row, no more in
      all than a string may have, and no whitespace at the beginning. */
  predicate Modest(text: string) {
    ShortRuns(IsWs, MaxWsRun - 1, 0, text) && ShortRuns(IsNumberChar, MaxNumberChars, 0, text) && |text| <= MaxStringChars
    && (text == "" || !IsWs(text[0]))
  }

  /** The counters stay below what has been read: `w` whitespace and `d` number characters in a row, `n` in all. */
  predicate Within(m: Machine, w: nat, d: nat, n: nat) {
    m.wsRun <= w + 1 && (n > 0 ==> m.started)
    && (m.stack != [] && Top(m).Num? ==> Top(m).chars <= d && m.wsRun == 0)
    && (m.stack != [] && Top(m).Str? ==> Top(m).len <= n)
  }

  function Run(kind: char -> bool, run: nat, c: char): nat { if kind(c) then run + 1 else 0 }

  lemma StaysWithin(m: Machine, c: char, x: Machine, w: nat, d: nat, n: nat)
    requires Within(m, w, d, n) && CountsSpace(m, c, x) && CountsTop(m, c, x) && (m.started || !IsWs(c) ==> x.started)
    requires n > 0 || !IsWs(c)
    ensures Within(x, Run(IsWs, w, c), Run(IsNumberChar, d, c), n + 1)
  {}

  lemma WithinPermits(m: Machine, c: char, w: nat, d: nat, n: nat)
    requires Within(m, w, d, n) && (IsWs(c) ==> w < MaxWsRun - 1 && n > 0) && (IsNumberChar(c) ==> d < MaxNumberChars) && n < MaxStringChars
    ensures Permits(m, c)
  {}

  lemma {:induction false} RunsPermitted(nodes: Arena, m: Machine, text: string, w: nat, d: nat, n: nat)
    requires Sane(nodes, m) && Within(m, w, d, n)
    requires ShortRuns(IsWs, MaxWsRun - 1, w, text) && ShortRuns(IsNumberChar, MaxNumberChars, d, text) && n + |text| <= MaxStringChars
    requires n > 0 || text == "" || !IsWs(text[0])
    ensures Permitted(nodes, m, text)
    decreases |text|
  {
    hide Sane, Within, PushChar, Permits, IsWs, IsNumberChar, CountsSpace, CountsTop;
    if text != "" {
      var c := text[0];
      WithinPermits(m, c, w, d, n);
      PushCharSane(nodes, m, c);
      if PushChar(nodes, m, c).Some? {
        CountersAre(nodes, m, c);
        StaysWithin(m, c, PushChar(nodes, m, c).value, w, d, n);
        RunsPermitted(nodes, PushChar(nodes, m, c).value, text[1..], Run(IsWs, w, c), Run(IsNumberChar, d, c), n + 1);
      }
    }
  }

  /** A text of short runs is permitted, whatever the schema. */
  lemma ModestPermitted(nodes: Arena, text: string)
    requires Modest(text)
    ensures Permitted(nodes, NewMachine(), text)
  {
    hide *;
    NewMachineSane(nodes);
    NewWithin();
    ModestIs(text);
    RunsPermitted(nodes, NewMachine(), text, 0, 0, 0);
  }

  /** Within those runs the machine accepts the documents and nothing else. */
  lemma ModestAcceptedIff(nodes: Arena, rank: seq<nat>, text: string)
    requires WellFormed(nodes, rank) && Bracketless(nodes) && Modest(text)
    ensures Push(nodes, NewMachine(), text).Some? && Complete(Push(nodes, NewMachine(), text).value) <==> IsDocument(Trimmed(nodes), text)
  {
    hide *;
    AcceptedIff(nodes, rank, text);
    ModestPermitted(nodes, text);
  }

  lemma NewWithin()
    ensures Within(NewMachine(), 0, 0, 0)
  {}

  lemma ModestIs(text: string)
    requires Modest(text)
    ensures ShortRuns(IsWs, MaxWsRun - 1, 0, text) && ShortRuns(IsNumberChar, MaxNumberChars, 0, text) && 0 + |text| <= MaxStringChars
    ensures text == "" || !IsWs(text[0])
  {}
}
