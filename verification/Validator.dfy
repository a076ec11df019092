/** The machine as the program runs it: handlers that change the frame stack in place, and compare the bytes of
    enumerated values with characters. Proved against Machines on the arena as it is read. */
module Validators {
  import opened Prelude
  import opened Encoding
  import opened Machines

  /** What `push_char` makes of one pass, the character handed on included. */
  function Settled(nodes: Arena, out: Out, c: char): Option<Machine> {
    match out
    case Dead => None
    case Alive(x) => Some(x)
    case Again(x) =>
      match Once(nodes, x, c)
      case Alive(y) => Some(y)
      case _ => None
  }

  /** How often the character may still be handed on. */
  function Turns(m: Machine): nat {
    if m.done || m.stack == [] then 0
    else if Top(m).Num? then 2
    else if Top(m).Arr? && (Top(m).astate == AStart || Top(m).astate == AValueExpected) then 1
    else 0
  }

  /** `starts_with(c)`. */
  function StartingWith(options: seq<string>, c: char): seq<string> {
    if options == [] then []
    else (if options[0] != "" && options[0][0] == c then [options[0]] else []) + StartingWith(options[1..], c)
  }

  /** `as_bytes().get(at).map(|b| *b as char) == Some(c)`. */
  function HavingByte(options: seq<string>, at: nat, c: char): seq<string> {
    if options == [] then []
    else
      var bytes := EncodeText(options[0]);
      (if at < |bytes| && bytes[at] as char == c then [options[0]] else []) + HavingByte(options[1..], at, c)
  }

  /** A frame's alternatives as they are read. */
  function ReadFrame(f: Frame): Frame {
    if f.Word? then Word(Readings(f.alts), f.at) else f
  }

  function Shown(stack: seq<Frame>): (r: seq<Frame>)
    ensures |r| == |stack| && forall i :: 0 <= i < |r| ==> r[i] == ReadFrame(stack[i])
  {
    seq(|stack|, (i: nat) requires i < |stack| => ReadFrame(stack[i]))
  }

  class Validator {
    const nodes: Arena
    var stack: seq<Frame>
    var done: bool
    var started: bool
    var wsRun: nat

    ghost function View(): Machine
      reads this
    {
      Machine(Shown(stack), done, started, wsRun)
    }

    /** The arena the functions of Machines work on. */
    ghost function Read(): Arena {
      Readable(nodes)
    }

    /** The outcome of an operation whose refusal leaves the state unspecified. */
    ghost predicate Became(ok: bool, r: Option<Machine>)
      reads this
    {
      ok == r.Some? && (ok ==> View() == r.value)
    }

    constructor (nodes: Arena)
      ensures View() == NewMachine() && this.nodes == nodes
    {
      this.nodes := nodes;
      stack := [Value(0)];
      done := false;
      started := false;
      wsRun := 0;
    }

    method IsComplete() returns (r: bool)
      ensures r == Complete(View())
    {
      if done {
        return true;
      }
      r := |stack| == 1 && NumComplete(stack[0]);
    }

    method IsViable() returns (r: bool)
      ensures r == Viable(Read(), View())
    {
      if done {
        return true;
      }
      for i := 0 to |stack|
        invariant forall k :: 0 <= k < i ==> FrameViable(Read(), View().stack[k])
      {
        ViableSame(nodes, stack[i]);
        if !FrameViable(nodes, stack[i]) {
          return false;
        }
      }
      r := true;
    }

    /** Put `f` in the place of the top frame. */
    method Replace(f: Frame)
      requires stack != []
      modifies this`stack
      ensures View() == old(View()).(stack := Below(old(View())) + [ReadFrame(f)]) && stack != [] && stack[|stack| - 1] == f
    {
      stack := stack[..|stack| - 1] + [f];
    }

    method FinishValue() returns (ok: bool)
      requires stack != [] && !done
      modifies this`stack, this`done
      ensures Became(ok, Machines.FinishValue(old(View())))
    {
      ghost var before := View();
      stack := stack[..|stack| - 1];
      assert View().stack == Below(before);
      if stack == [] {
        done := true;
        return true;
      }
      var top := stack[|stack| - 1];
      match top {
        case Obj(_, _, _, _, _) =>
          stack := stack[..|stack| - 1] + [top.(ostate := ONext)];
          ok := true;
        case Arr(_, _) =>
          stack := stack[..|stack| - 1] + [top.(astate := ANext)];
          ok := true;
        case _ =>
          ok := false;
      }
    }

    /** A word that has matched all the bytes of an option is a finished value. */
    method SettleWord() returns (ok: bool)
      requires stack != [] && !done
      modifies this`stack, this`done
      ensures var f := Top(old(View()));
        Became(ok, if f.Word? && Settle(f.alts, f.at) == Close then Machines.FinishValue(old(View())) else Some(old(View())))
    {
      hide Reading, Readings, EncodeText, Settle;
      var top := stack[|stack| - 1];
      if top.Word? {
        SettleSame(top.alts, top.at);
      }
      if top.Word? && exists a :: a in top.alts && |EncodeText(a)| == top.at {
        ok := FinishValue();
      } else {
        ok := true;
      }
    }

    /** The frame a value begins with, if it may begin with `c`. */
    method FirstFrame(id: nat, c: char) returns (frame: Option<Frame>)
      requires !IsWs(c)
      ensures frame.None? ==> StartMove(Read(), id, c) == Stop
      ensures frame.Some? ==>
        var f := ReadFrame(frame.value);
        StartMove(Read(), id, c) == if f.Word? then Settle(f.alts, f.at) else Stay(f)
    {
      hide Reading, Readings, EncodeText, StartingWith, Filter, Settle;
      if id >= |nodes| {
        return None;
      }
      var n := nodes[id];
      assert Read()[id] == ReadNode(n);
      match n {
        case Object(_, _, _) =>
          return if c == '{' then Some(NewObj(id)) else None;
        case Array(items) =>
          return if c == '[' then Some(Arr(items, AStart)) else None;
        case Choice(options) =>
          var alts := StartingWith(options, c);
          StartsRead(options, c);
          NoneRead(alts);
          return if alts == [] then None else Some(Word(alts, 1));
        case _ =>
          ScalarStarts(Read(), id, c);
          if Scalar(n, c).Some? {
            ScalarRead(n, c);
          }
          return Scalar(n, c);
      }
    }

    method StartValue(c: char) returns (ok: bool)
      requires stack != [] && !done && Top(View()).Value?
      modifies this`stack, this`done
      ensures Became(ok, Settled(Read(), Apply(old(View()), StartMove(Read(), Top(old(View())).id, c)), c))
    {
      hide Reading, Readings, EncodeText, Settle, Settled, Machines.FinishValue, Apply;
      ghost var before := View();
      var id := stack[|stack| - 1].id;
      if IsWs(c) {
        ValueStays(Read(), before, id, c);
        return true;
      }
      hide StartMove;
      var frame := FirstFrame(id, c);
      WordRefusal(Read(), before, c);
      if frame.None? {
        return false;
      }
      Replace(frame.value);
      FrameSettles(Read(), before, ReadFrame(frame.value), View(), c);
      ok := SettleWord();
    }

    method InString(c: char) returns (ok: bool)
      requires stack != [] && !done && Top(View()).Str?
      modifies this`stack, this`done
      ensures Became(ok, Settled(Read(), Apply(old(View()), StrMove(Top(old(View())).escape, Top(old(View())).len, c)), c))
    {
      var top := stack[|stack| - 1];
      var escape, len := top.escape, top.len;
      if len >= MaxStringChars && c != '"' {
        return false;
      }
      if escape > 0 {
        var next := NextEscape(escape, c);
        if next.None? {
          return false;
        }
        Replace(Str(next.value, len + 1));
        return true;
      }
      if c == '"' {
        ok := FinishValue();
      } else if c == '\\' {
        Replace(Str(5, len + 1));
        ok := true;
      } else if IsControl(c) {
        ok := false;
      } else {
        Replace(Str(0, len + 1));
        ok := true;
      }
    }

    method InWord(c: char) returns (ok: bool)
      requires stack != [] && !done && Top(View()).Word? && Top(View()).at > 0
      modifies this`stack, this`done
      ensures Became(ok, Settled(Read(), Apply(old(View()), WordMove(Top(old(View())).alts, Top(old(View())).at, c)), c))
    {
      hide Reading, Readings, EncodeText, Filter, HavingByte, Settle, Apply, Settled, Machines.FinishValue;
      ghost var before := View();
      var top := stack[|stack| - 1];
      var alts := HavingByte(top.alts, top.at, c);
      BytesRead(top.alts, top.at, c);
      NoneRead(alts);
      WordRefused(Read(), before, c);
      if alts == [] {
        return false;
      }
      Replace(Word(alts, top.at + 1));
      WordSettles(Read(), before, Readings(alts), top.at + 1, View(), c);
      ok := SettleWord();
    }

    method InKey(c: char) returns (ok: bool)
      requires stack != [] && !done && Top(View()).Obj? && Top(View()).ostate == OKey
      modifies this`stack
      ensures Became(ok, Settled(Read(), Apply(old(View()), KeyMove(Read(), Top(old(View())), c)), c))
    {
      var f := stack[|stack| - 1];
      KeysSame(nodes, f, c);
      if f.keyEscape > 0 {
        var next := NextEscape(f.keyEscape, c);
        if next.None? {
          return false;
        }
        Replace(f.(keyEscape := next.value, key := f.key + [c]));
        return true;
      }
      if c == '"' {
        var seen := CheckKey(nodes, f.node, f.seen, f.key);
        if seen.None? {
          return false;
        }
        Replace(f.(ostate := OColon, seen := seen.value));
        ok := true;
      } else if c == '\\' {
        if !KeysFree(nodes, f.node) {
          return false;
        }
        Replace(f.(keyEscape := 5, key := f.key + [c]));
        ok := true;
      } else if IsControl(c) {
        ok := false;
      } else {
        ok := KeyPossible(nodes, f.node, f.seen, f.key + [c]);
        Replace(f.(key := f.key + [c]));
      }
    }

    method InObject(c: char) returns (ok: bool)
      requires stack != [] && !done && Top(View()).Obj?
      modifies this`stack, this`done
      ensures Became(ok, Settled(Read(), Apply(old(View()), ObjMove(Read(), Top(old(View())), c)), c))
    {
      ghost var before := View();
      var f := stack[|stack| - 1];
      assert Below(before) + [f] == before.stack;
      ValuesSame(nodes, f);
      hide KeyMove, CheckKey, ValueNode;
      if f.ostate == OKey {
        ok := InKey(c);
        return;
      }
      if f.ostate == OValue {
        return false;
      }
      if IsWs(c) {
        return true;
      }
      match f.ostate {
        case OStart =>
          if c == '}' {
            ok := CloseObject(f);
          } else {
            ok := BeginKey(f, c);
          }
        case OKeyExpected =>
          ok := BeginKey(f, c);
        case OColon =>
          if c != ':' {
            return false;
          }
          var n := ValueNode(nodes, f.node, f.key);
          if n.None? {
            return false;
          }
          Replace(f.(ostate := OValue));
          stack := stack + [Value(n.value)];
          assert View().stack == Below(before) + [f.(ostate := OValue), Value(n.value)];
          ok := true;
        case ONext =>
          if c == ',' {
            Replace(f.(ostate := OKeyExpected));
            ok := true;
          } else if c == '}' {
            ok := CloseObject(f);
          } else {
            ok := false;
          }
        case _ =>
          ok := false;
      }
    }

    method CloseObject(f: Frame) returns (ok: bool)
      requires stack != [] && !done && f.Obj?
      modifies this`stack, this`done
      ensures Became(ok, if CanClose(Read(), f.node, f.seen) then Machines.FinishValue(old(View())) else None)
    {
      assert CanClose(Read(), f.node, f.seen) == CanClose(nodes, f.node, f.seen);
      if !CanClose(nodes, f.node, f.seen) {
        return false;
      }
      ok := FinishValue();
    }

    method BeginKey(f: Frame, c: char) returns (ok: bool)
      requires stack != [] && !done && f.Obj?
      modifies this`stack
      ensures ok == (c == '"') && (ok ==> View() == old(View()).(stack := Below(old(View())) + [f.(ostate := OKey, key := "", keyEscape := 0)]))
    {
      if c != '"' {
        return false;
      }
      Replace(f.(ostate := OKey, key := "", keyEscape := 0));
      ok := true;
    }

    method InNumber(c: char) returns (ok: bool)
      requires stack != [] && !done && Top(View()).Num?
      modifies this
      ensures Became(ok, Settled(Read(), Apply(old(View()), NumMove(Top(old(View())), c)), c))
      decreases 2, 0
    {
      hide Reading, Readings, EncodeText, Settled, Machines.FinishValue, Apply, Once, PushChar;
      ghost var before := View();
      NumSettles(Read(), before, c);
      var f := stack[|stack| - 1];
      var g := f.(chars := f.chars + 1);
      if f.chars >= MaxNumberChars && IsNumberChar(c) {
        return false;
      }
      if IsDigit(c) {
        Replace(if f.seenExp then g.(expDigit := true, afterSign := false) else g.(seenDigit := true, afterSign := false));
        return true;
      }
      if c == '.' && !f.integer && !f.seenDot && !f.seenExp && f.seenDigit {
        Replace(g.(seenDot := true, seenDigit := false));
        return true;
      }
      if (c == 'e' || c == 'E') && !f.integer && !f.seenExp && f.seenDigit {
        Replace(g.(seenExp := true, afterSign := false));
        return true;
      }
      if (c == '+' || c == '-') && f.seenExp && !f.expDigit && !f.afterSign {
        Replace(g.(afterSign := true));
        return true;
      }
      if !NumComplete(f) {
        return false;
      }
      ok := FinishValue();
      if !ok {
        return false;
      }
      // The character belongs to whatever comes next.
      ResumedTurns(before);
      ok := PushCharacter(c);
    }

    method InArray(c: char) returns (ok: bool)
      requires stack != [] && !done && Top(View()).Arr?
      modifies this
      ensures Became(ok, Settled(Read(), Apply(old(View()), ArrMove(Read(), Top(old(View())), c)), c))
      decreases Turns(View()), 0
    {
      hide Reading, Readings, EncodeText, AnyNode, Settled, Machines.FinishValue, ArrMove, Apply, Once, PushChar;
      ghost var before := View();
      var f := stack[|stack| - 1];
      AnySame(nodes);
      ArrSettles(Read(), before, c);
      if f.astate == AValue {
        return false;
      }
      if IsWs(c) {
        return true;
      }
      if f.astate == ANext {
        if c == ',' {
          Replace(f.(astate := AValueExpected));
          ok := true;
        } else if c == ']' {
          ok := FinishValue();
        } else {
          ok := false;
        }
        return;
      }
      if c == ']' && f.astate == AStart {
        ok := FinishValue();
        return;
      }
      var node := if f.items == Free then AnyNode(nodes) else f.items;
      if node == Free {
        return false;
      }
      Replace(f.(astate := AValue));
      stack := stack + [Value(node)];
      assert View().stack == Below(before) + [f.(astate := AValue), Value(node)];
      ok := PushCharacter(c);
    }

    /** `push_char`. */
    method PushCharacter(c: char) returns (ok: bool)
      requires (done <==> stack == []) && (stack != [] && Top(View()).Word? ==> Top(View()).at > 0)
      modifies this
      ensures Became(ok, PushChar(Read(), old(View()), c))
      decreases Turns(View()), 1
    {
      hide Reading, Readings, EncodeText;
      ghost var before := View();
      if IsWs(c) && !(stack != [] && (stack[|stack| - 1].Str? || (stack[|stack| - 1].Obj? && stack[|stack| - 1].ostate == OKey))) {
        if !started || wsRun >= MaxWsRun {
          return false;
        }
        wsRun := wsRun + 1;
      } else {
        wsRun := 0;
        started := true;
      }
      ghost var counted := View();
      assert Count(before, c) == Some(counted) && Turns(counted) == Turns(before);
      if done {
        return IsWs(c);
      }
      OnceIs(Read(), before, c, counted);
      hide Once, Count, PushChar, Settled, StartMove, StrMove, NumMove, WordMove, ObjMove, ArrMove, Apply;
      match stack[|stack| - 1] {
        case Value(_) => ok := StartValue(c);
        case Str(_, _) => ok := InString(c);
        case Num(_, _, _, _, _, _, _) => ok := InNumber(c);
        case Word(_, _) => ok := InWord(c);
        case Obj(_, _, _, _, _) => ok := InObject(c);
        case Arr(_, _) => ok := InArray(c);
      }
    }

    /** `push`: the whole text, or refusal at the first character that cannot be valid. */
    method PushText(text: string) returns (ok: bool)
      requires Sane(Read(), View())
      modifies this
      ensures Became(ok, Push(Read(), old(View()), text))
    {
      ghost var before := View();
      hide PushChar, Sane;
      for i := 0 to |text|
        invariant Sane(Read(), View()) && Push(Read(), before, text) == Push(Read(), View(), text[i..])
      {
        ghost var here := View();
        assert text[i..][0] == text[i] && text[i..][1..] == text[i + 1..];
        PushCharSane(Read(), here, text[i]);
        SaneEnds(Read(), here);
        ok := PushCharacter(text[i]);
        if !ok {
          return;
        }
      }
      ok := true;
    }
  }

  // ------------------------------------------------------------------- lemmas

  /** The frame a scalar, or any value, begins with. */
  function Scalar(n: Node, c: char): Option<Frame> {
    if (n.Any? || n.StringNode?) && c == '"' then Some(Str(0, 0))
    else if n.Any? && c == '{' then Some(NewObj(Free))
    else if n.Any? && c == '[' then Some(Arr(Free, AStart))
    else if (n.Any? || n.Number?) && (c == '-' || IsDigit(c)) then Some(NewNum(n.Number? && n.integer, c))
    else if (n.Any? || n.Bool?) && (c == 't' || c == 'f') then Some(Word([if c == 't' then "true" else "false"], 1))
    else if (n.Any? || n.Null?) && c == 'n' then Some(Word(["null"], 1))
    else None
  }

  lemma ScalarStarts(nodes: Arena, id: nat, c: char)
    requires id < |nodes| && !IsWs(c) && !nodes[id].Object? && !nodes[id].Array? && !nodes[id].Choice?
    ensures Scalar(nodes[id], c).None? ==> StartMove(nodes, id, c) == Stop
    ensures Scalar(nodes[id], c).Some? ==> StartMove(nodes, id, c) == Stay(Scalar(nodes[id], c).value)
    ensures Scalar(nodes[id], c).Some? && Scalar(nodes[id], c).value.Word? ==>
      Settle(Scalar(nodes[id], c).value.alts, 1) == Stay(Scalar(nodes[id], c).value) && Scalar(nodes[id], c).value.at == 1
  {}

  lemma ValueStays(nodes: Arena, m: Machine, id: nat, c: char)
    requires m.stack != [] && Top(m) == Value(id) && IsWs(c)
    ensures Settled(nodes, Apply(m, StartMove(nodes, id, c)), c) == Some(m)
  {
    assert Below(m) + [Value(id)] == m.stack;
  }

  lemma WordRefusal(nodes: Arena, m: Machine, c: char)
    requires m.stack != []
    ensures Settled(nodes, Apply(m, Stop), c) == None
  {}

  /** The first frame put in the place of the value, then settled if it is a word. */
  lemma FrameSettles(nodes: Arena, m: Machine, f: Frame, v: Machine, c: char)
    requires m.stack != [] && v == m.(stack := Below(m) + [f])
    ensures v.stack != [] && Top(v) == f
    ensures Settled(nodes, Apply(m, if f.Word? then Settle(f.alts, f.at) else Stay(f)), c)
      == if f.Word? && Settle(f.alts, f.at) == Close then Machines.FinishValue(v) else Some(v)
  {
    if f.Word? {
      WordSettles(nodes, m, f.alts, f.at, v, c);
    }
  }

  /** The moves of an array, with the element's first character handed on. */
  lemma ArrSettles(nodes: Arena, m: Machine, c: char)
    requires m.stack != [] && Top(m).Arr?
    ensures var f := Top(m);
      var node := if f.items == Free then AnyNode(nodes) else f.items;
      Settled(nodes, Apply(m, ArrMove(nodes, f, c)), c) ==
        if f.astate == AValue then None
        else if IsWs(c) then Some(m)
        else if f.astate == ANext then
          if c == ',' then Some(m.(stack := Below(m) + [f.(astate := AValueExpected)])) else if c == ']' then Machines.FinishValue(m) else None
        else if c == ']' && f.astate == AStart then Machines.FinishValue(m)
        else if node == Free then None
        else PushChar(nodes, m.(stack := Below(m) + [f.(astate := AValue), Value(node)]), c)
  {
    var f := Top(m);
    assert Below(m) + [f] == m.stack;
    var node := if f.items == Free then AnyNode(nodes) else f.items;
    HandedToElement(nodes, m.(stack := Below(m) + [f.(astate := AValue), Value(node)]), c);
    hide Once, AnyNode, PushChar;
  }

  lemma ResumedTurns(m: Machine)
    requires m.stack != [] && Machines.FinishValue(m).Some?
    ensures Turns(Machines.FinishValue(m).value) == 0
    ensures Machines.FinishValue(m).value.stack != [] ==> !Top(Machines.FinishValue(m).value).Word?
    ensures Machines.FinishValue(m).value.done <==> Machines.FinishValue(m).value.stack == []
  {}

  /** A number's end hands the character on once. */
  lemma HandedOnce(nodes: Arena, m: Machine, c: char)
    requires m.stack != [] && Top(m).Num? && NumMove(Top(m), c) == CloseThen && Machines.FinishValue(m).Some?
    ensures var x := Machines.FinishValue(m).value;
      Settled(nodes, Apply(m, NumMove(Top(m), c)), c) == PushChar(nodes, x, c)
  {
    var x := Machines.FinishValue(m).value;
    NoAgain(nodes, x, c);
  }

  lemma NumSettles(nodes: Arena, m: Machine, c: char)
    requires m.stack != [] && Top(m).Num?
    ensures var move := NumMove(Top(m), c);
      (move.Stay? || move.Stop? || move.CloseThen?)
      && Settled(nodes, Apply(m, move), c) ==
        if move.Stay? then Some(m.(stack := Below(m) + [move.top]))
        else if move.Stop? || Machines.FinishValue(m).None? then None
        else PushChar(nodes, Machines.FinishValue(m).value, c)
  {
    if NumMove(Top(m), c).CloseThen? && Machines.FinishValue(m).Some? {
      HandedOnce(nodes, m, c);
    }
    hide Once, PushChar;
  }

  lemma HandedToElement(nodes: Arena, x: Machine, c: char)
    requires x.stack != [] && Top(x).Value?
    ensures Settled(nodes, Again(x), c) == PushChar(nodes, x, c)
  {
    NoAgain(nodes, x, c);
  }

  lemma NoAgain(nodes: Arena, x: Machine, c: char)
    requires x.stack != [] ==> Top(x).Value? || (Top(x).Obj? && Top(x).ostate == ONext) || (Top(x).Arr? && Top(x).astate == ANext)
    ensures !Once(nodes, x, c).Again?
  {
    if x.stack != [] {
      AgainMoves(nodes, Top(x), c);
    }
    hide MoveOf;
  }

  lemma OnceIs(nodes: Arena, m: Machine, c: char, x: Machine)
    requires Count(m, c) == Some(x) && !x.done && x.stack != []
    ensures PushChar(nodes, m, c) == Settled(nodes, Apply(x, MoveOf(nodes, Top(x), c)), c)
    ensures MoveOf(nodes, Top(x), c) == match Top(x)
      case Value(id) => StartMove(nodes, id, c)
      case Str(escape, len) => StrMove(escape, len, c)
      case Num(_, _, _, _, _, _, _) => NumMove(Top(x), c)
      case Word(alts, at) => WordMove(alts, at, c)
      case Obj(_, _, _, _, _) => ObjMove(nodes, Top(x), c)
      case Arr(_, _) => ArrMove(nodes, Top(x), c)
  {}

  lemma SaneEnds(nodes: Arena, m: Machine)
    requires Sane(nodes, m)
    ensures (m.done <==> m.stack == []) && (m.stack != [] && Top(m).Word? ==> Top(m).at > 0)
  {
    if m.stack != [] {
      assert Sound(nodes, Top(m));
    }
  }

  // ---------------------------------------- the arena, and the arena as it is read

  lemma ReadingsRest(options: seq<string>)
    requires options != []
    ensures Readings(options)[0] == Reading(options[0]) && Readings(options)[1..] == Readings(options[1..])
  {}

  lemma ReadingsJoin(a: seq<string>, b: seq<string>)
    ensures Readings(a + b) == Readings(a) + Readings(b)
  {}

  lemma ReadingAt(o: string, at: nat)
    requires at < |EncodeText(o)|
    ensures Reading(o)[at] == if at == 0 then o[0] else EncodeText(o)[at] as char
  {
    hide EncodeText;
  }

  lemma {:induction false} StartsRead(options: seq<string>, c: char)
    ensures Readings(StartingWith(options, c)) == Filter(Readings(options), 0, c)
  {
    hide Reading, EncodeText;
    if options != [] {
      StartsRead(options[1..], c);
      ReadingsRest(options);
      var o := options[0];
      NoneEncoded(o);
      if o != "" {
        ReadingAt(o, 0);
      }
      var rest := StartingWith(options[1..], c);
      ReadingsJoin([o], rest);
      ReadingsOne(o);
      hide Readings;
      assert [] + rest == rest;
    }
  }

  lemma {:induction false} BytesRead(options: seq<string>, at: nat, c: char)
    requires at > 0
    ensures Readings(HavingByte(options, at, c)) == Filter(Readings(options), at, c)
  {
    hide Reading, EncodeText;
    if options != [] {
      BytesRead(options[1..], at, c);
      ReadingsRest(options);
      var o := options[0];
      if at < |EncodeText(o)| {
        ReadingAt(o, at);
      }
      var rest := HavingByte(options[1..], at, c);
      ReadingsJoin([o], rest);
      ReadingsOne(o);
      hide Readings;
      assert [] + rest == rest;
    }
  }

  lemma NoneEncoded(o: string)
    ensures |Reading(o)| == 0 <==> o == ""
  {}

  lemma NoneRead(alts: seq<string>)
    ensures Readings(alts) == [] <==> alts == []
  {}

  lemma WordRefused(nodes: Arena, m: Machine, c: char)
    requires m.stack != [] && Top(m).Word?
    ensures var rest := Filter(Top(m).alts, Top(m).at, c);
      WordMove(Top(m).alts, Top(m).at, c) == if rest == [] then Stop else Settle(rest, Top(m).at + 1)
    ensures Settled(nodes, Apply(m, Stop), c) == None
  {}

  /** The word frame put in place, then settled. */
  lemma WordSettles(nodes: Arena, m: Machine, alts: seq<string>, at: nat, v: Machine, c: char)
    requires m.stack != [] && v == m.(stack := Below(m) + [Word(alts, at)])
    ensures v.stack != [] && Top(v) == Word(alts, at)
    ensures Settled(nodes, Apply(m, Settle(alts, at)), c) == if Settle(alts, at) == Close then Machines.FinishValue(v) else Some(v)
  {
    assert Below(v) == Below(m);
  }

  lemma ReadingsOne(o: string)
    ensures Readings([o]) == [Reading(o)]
  {}

  lemma SettleSame(alts: seq<string>, at: nat)
    ensures (exists a :: a in alts && |EncodeText(a)| == at) <==> Settle(Readings(alts), at) == Close
  {
    hide EncodeText, Reading;
    if a :| a in alts && |EncodeText(a)| == at {
      var k :| 0 <= k < |alts| && alts[k] == a;
      assert Readings(alts)[k] in Readings(alts);
    }
    if b :| b in Readings(alts) && |b| == at {
      var k :| 0 <= k < |alts| && Readings(alts)[k] == b;
      assert alts[k] in alts;
    }
  }

  lemma LiteralReading(word: string)
    requires AllAscii(word)
    ensures Readings([word]) == [word]
  {
    ReadingIs(word);
  }

  lemma ScalarRead(n: Node, c: char)
    requires Scalar(n, c).Some?
    ensures ReadFrame(Scalar(n, c).value) == Scalar(n, c).value
  {
    LiteralReading("true");
    LiteralReading("false");
    LiteralReading("null");
    hide Reading, AllAscii;
  }

  lemma {:induction false} AnySame(nodes: Arena)
    ensures FirstAny(Readable(nodes)) == FirstAny(nodes) && AnyNode(Readable(nodes)) == AnyNode(nodes)
  {
    if nodes != [] {
      AnySame(nodes[1..]);
      assert Readable(nodes)[1..] == Readable(nodes[1..]);
    }
  }

  lemma KeysSame(nodes: Arena, f: Frame, c: char)
    requires f.Obj?
    ensures CheckKey(Readable(nodes), f.node, f.seen, f.key) == CheckKey(nodes, f.node, f.seen, f.key)
    ensures KeysFree(Readable(nodes), f.node) == KeysFree(nodes, f.node)
    ensures KeyPossible(Readable(nodes), f.node, f.seen, f.key + [c]) == KeyPossible(nodes, f.node, f.seen, f.key + [c])
  {}

  lemma ValuesSame(nodes: Arena, f: Frame)
    requires f.Obj?
    ensures ValueNode(Readable(nodes), f.node, f.key) == ValueNode(nodes, f.node, f.key)
  {
    AnySame(nodes);
  }

  lemma ViableSame(nodes: Arena, f: Frame)
    ensures FrameViable(Readable(nodes), ReadFrame(f)) == FrameViable(nodes, f)
  {
    hide Reading;
  }
}
