/** The converse of soundness: the machine refuses nothing the grammar has room for. Together they say exactly which
    texts it accepts: the documents, as far as its caps let it read them. */
module Accepting {
  import opened Prelude
  import opened Machines
  import opened Grammar
  import opened Closing

  // ------------------------------------------------------------------ the caps

  /** The caps let `c` be read: not too much whitespace and none at the beginning, no string or number too long. */
  predicate Permits(m: Machine, c: char) {
    (IsWs(c) && !InStringBody(m) ==> m.started && m.wsRun < MaxWsRun)
    && (m.stack != [] && Top(m).Str? ==> Top(m).len < MaxStringChars || c == '"')
    && (m.stack != [] && Top(m).Num? ==> Top(m).chars < MaxNumberChars || !IsNumberChar(c))
  }

  /** The caps let the whole text be read. */
  predicate Permitted(nodes: Arena, m: Machine, text: string)
    decreases |text|
  {
    text == ""
    || (Permits(m, text[0]) && (PushChar(nodes, m, text[0]).Some? ==> Permitted(nodes, PushChar(nodes, m, text[0]).value, text[1..])))
  }

  lemma PushedPermits(nodes: Arena, m: Machine, c: char)
    requires PushChar(nodes, m, c).Some? && (m.done <==> m.stack == [])
    ensures Permits(m, c)
  {
    hide StartMove, WordMove, ObjMove, ArrMove, KeyMove;
  }

  lemma {:induction false} AcceptedPermits(nodes: Arena, m: Machine, text: string)
    requires Sane(nodes, m) && Push(nodes, m, text).Some?
    ensures Permitted(nodes, m, text)
    decreases |text|
  {
    if text != "" {
      assert m.done <==> m.stack == [];
      PushedPermits(nodes, m, text[0]);
      PushCharSane(nodes, m, text[0]);
      hide Sane, PushChar, Permits;
      AcceptedPermits(nodes, PushChar(nodes, m, text[0]).value, text[1..]);
    }
  }

  // ------------------------------------------------------- what states satisfy

  /** How far a number has come. */
  predicate NumForm(f: Frame)
    requires f.Num?
  {
    (f.expDigit ==> f.seenExp) && (f.seenExp ==> f.seenDigit) && (f.integer ==> !f.seenDot && !f.seenExp)
  }

  /** No alternative ends inside another. */
  ghost predicate Apart(alts: seq<string>, at: nat) {
    forall a, b :: a in alts && b in alts && at < |a| && at < |b| ==> !(a[at..] < b[at..])
  }

  /** No option ends inside another, so none is out of reach. */
  ghost predicate OptionsApart(nodes: Arena) {
    forall i: nat :: i < |nodes| && nodes[i].Choice? ==> Apart(nodes[i].options, 0)
  }

  ghost predicate FrameReady(f: Frame) {
    (f.Word? ==> Apart(f.alts, f.at)) && (f.Num? ==> NumForm(f))
  }

  ghost predicate Ready(nodes: Arena, m: Machine) {
    FramesOk(nodes, m) && (m.stack != [] ==> FrameReady(Top(m))) && (m.stack != [] && Top(m).Num? ==> m.wsRun == 0 && m.started)
  }

  // ------------------------------------------------------------ one frame, one move

  /** What the frame makes of `c` leaves `u` to be read. */
  ghost predicate Takes(nodes: Arena, f: Frame, c: char, u: string) {
    match MoveOf(nodes, f, c)
    case Stay(g) => FrameTail(nodes, g, u)
    case Close => u == ""
    case Open(g, h) => Container(g) && exists k: nat :: k <= |u| && FrameTail(nodes, h, u[..k]) && FrameTail(nodes, Next(g), u[k..])
    case OpenThen(g, h) =>
      Container(g) && h.Value? && !IsWs(c) && exists k: nat :: k <= |u| + 1 && FrameTail(nodes, h, ([c] + u)[..k]) && FrameTail(nodes, Next(g), ([c] + u)[k..])
    case _ => false
  }

  lemma NumberTakes(f: Frame, c: char, t: string)
    requires f.Num? && NumForm(f) && NumberTail(f, [c] + t) && f.chars < MaxNumberChars
    ensures NumMove(f, c).Stay? && NumMove(f, c).top.Num? && NumberTail(NumMove(f, c).top, t)
  {
    ConsParts(c, t);
    DigitRunCons(c, t);
    hide DigitRun;
  }

  lemma NumberChars(f: Frame, c: char, t: string)
    requires f.Num? && NumberTail(f, [c] + t)
    ensures IsNumberChar(c)
  {
    ConsParts(c, t);
    DigitRunCons(c, t);
    hide DigitRun;
  }

  lemma StringTakes(escape: nat, len: nat, c: char, t: string)
    requires StringTail(escape, [c] + t) && escape <= 5 && (len < MaxStringChars || c == '"')
    ensures StrMove(escape, len, c).Stay? || StrMove(escape, len, c).Close?
    ensures StrMove(escape, len, c).Stay? ==> StrMove(escape, len, c).top.Str? && StringTail(StrMove(escape, len, c).top.escape, t)
    ensures StrMove(escape, len, c).Close? ==> t == ""
  {
    ConsParts(c, t);
    if len >= MaxStringChars {
      assert c == '"';
    }
  }

  lemma WordFollows(alts: seq<string>, at: nat, c: char, t: string, a: string)
    requires a in alts && at <= |a| && [c] + t == a[at..]
    ensures at < |a| && a[at] == c && a[at + 1..] == t && a in Filter(alts, at, c)
  {
    ConsParts(c, t);
    hide Filter;
  }

  /** What has matched a whole alternative is all there is to read. */
  lemma WordOver(alts: seq<string>, at: nat, c: char, t: string, a: string, b: string)
    requires Apart(alts, at) && a in alts && at < |a| && [c] + t == a[at..] && b in Filter(alts, at, c) && |b| == at + 1
    ensures t == ""
  {
    hide Filter;
    assert b[at..] == [c] && b in alts;
    assert !(b[at..] < a[at..]);
  }

  lemma WordTakes(nodes: Arena, alts: seq<string>, at: nat, c: char, t: string)
    requires Apart(alts, at) && FrameTail(nodes, Word(alts, at), [c] + t)
    ensures Takes(nodes, Word(alts, at), c, t)
  {
    hide Apart, Filter;
    var a :| a in alts && at <= |a| && [c] + t == a[at..];
    WordFollows(alts, at, c, t, a);
    var rest := Filter(alts, at, c);
    if b :| b in rest && |b| == at + 1 {
      WordOver(alts, at, c, t, a, b);
      assert MoveOf(nodes, Word(alts, at), c) == Close;
    } else {
      assert MoveOf(nodes, Word(alts, at), c) == Stay(Word(rest, at + 1));
    }
  }

  lemma StartTakesChoice(nodes: Arena, id: nat, c: char, t: string)
    requires id < |nodes| && nodes[id].Choice? && Apart(nodes[id].options, 0) && [c] + t in nodes[id].options && !IsWs(c)
    ensures Takes(nodes, Value(id), c, t)
  {
    var options, a := nodes[id].options, [c] + t;
    ConsParts(c, t);
    var alts := Filter(options, 0, c);
    assert a in alts;
    assert StartMove(nodes, id, c) == Settle(alts, 1);
    hide Filter;
    if b :| b in alts && |b| == 1 {
      assert b == [c] && b[0..] == b && a[0..] == a;
      assert !(b[0..] < a[0..]);
      assert t == "";
    } else {
      assert a[1..] == t;
    }
  }

  lemma LiteralTakes(nodes: Arena, word: string, c: char, t: string)
    requires [c] + t == word
    ensures FrameTail(nodes, Word([word], 1), t)
  {
    ConsParts(c, t);
    assert word in [word] && t == word[1..];
  }

  lemma NumberStarts(integer: bool, c: char, t: string)
    requires IsNumber(integer, [c] + t)
    ensures (c == '-' || IsDigit(c)) && NumberTail(NewNum(integer, c), t)
  {
    ConsParts(c, t);
    DigitRunCons(c, t);
    hide DigitRun;
  }

  lemma StringStarts(c: char, t: string)
    requires IsString([c] + t)
    ensures c == '"' && StringTail(0, t)
  {
    ConsParts(c, t);
  }

  lemma LiteralFirst(c: char, t: string)
    ensures [c] + t == "true" ==> c == 't'
    ensures [c] + t == "false" ==> c == 'f'
    ensures [c] + t == "null" ==> c == 'n'
  {
    ConsParts(c, t);
  }

  lemma AnyString(nodes: Arena, id: nat, c: char, t: string)
    requires id < |nodes| && nodes[id].Any? && IsString([c] + t)
    ensures Takes(nodes, Value(id), c, t)
  {
    StringStarts(c, t);
    hide StringTail, IsString, Filter;
    assert StartMove(nodes, id, c) == Stay(Str(0, 0));
  }

  lemma AnyNumber(nodes: Arena, id: nat, c: char, t: string)
    requires id < |nodes| && nodes[id].Any? && IsNumber(false, [c] + t)
    ensures Takes(nodes, Value(id), c, t)
  {
    NumberStarts(false, c, t);
    hide NumberTail, IsNumber, Filter;
    assert StartMove(nodes, id, c) == Stay(NewNum(false, c));
  }

  lemma AnyLiteral(nodes: Arena, id: nat, c: char, t: string)
    requires id < |nodes| && nodes[id].Any? && ([c] + t == "true" || [c] + t == "false" || [c] + t == "null")
    ensures Takes(nodes, Value(id), c, t)
  {
    LiteralFirst(c, t);
    LiteralTakes(nodes, [c] + t, c, t);
    hide FrameTail, Filter;
    assert StartMove(nodes, id, c) == Stay(Word([[c] + t], 1));
  }

  lemma AnyContainer(nodes: Arena, id: nat, c: char, t: string)
    requires id < |nodes| && nodes[id].Any?
    requires (c == '{' && ObjectStart(nodes, Free, [], t)) || (c == '[' && ArrayStart(nodes, Free, t))
    ensures Takes(nodes, Value(id), c, t)
  {
    hide ObjectStart, ArrayStart, Filter;
    assert StartMove(nodes, id, c) == Stay(if c == '{' then NewObj(Free) else Arr(Free, AStart));
  }

  lemma AnyIs(nodes: Arena, id: nat, c: char, t: string)
    requires id < |nodes| && nodes[id].Any? && IsValue(nodes, id, [c] + t)
    ensures IsString([c] + t) || IsNumber(false, [c] + t) || ([c] + t == "true" || [c] + t == "false" || [c] + t == "null")
      || (c == '{' && ObjectStart(nodes, Free, [], t)) || (c == '[' && ArrayStart(nodes, Free, t))
  {
    ConsParts(c, t);
    hide IsString, IsNumber, ObjectStart, ArrayStart;
  }

  lemma StartTakesAny(nodes: Arena, id: nat, c: char, t: string)
    requires id < |nodes| && nodes[id].Any? && IsValue(nodes, id, [c] + t)
    ensures Takes(nodes, Value(id), c, t)
  {
    hide *;
    AnyIs(nodes, id, c, t);
    if IsString([c] + t) {
      AnyString(nodes, id, c, t);
    } else if IsNumber(false, [c] + t) {
      AnyNumber(nodes, id, c, t);
    } else if [c] + t == "true" || [c] + t == "false" || [c] + t == "null" {
      AnyLiteral(nodes, id, c, t);
    } else {
      AnyContainer(nodes, id, c, t);
    }
  }

  lemma StartTakes(nodes: Arena, id: nat, c: char, t: string)
    requires OptionsApart(nodes) && IsValue(nodes, id, [c] + t) && !IsWs(c)
    ensures Takes(nodes, Value(id), c, t)
  {
    ConsParts(c, t);
    LiteralFirst(c, t);
    hide StringTail, NumberTail, ObjectStart, ArrayStart, IsNumber, IsString;
    match nodes[id]
    case Any => StartTakesAny(nodes, id, c, t);
    case Object(_, _, _) =>
    case Array(_) =>
    case StringNode => StringStarts(c, t);
    case Number(integer) => NumberStarts(integer, c, t);
    case Bool => LiteralTakes(nodes, [c] + t, c, t);
    case Null => LiteralTakes(nodes, [c] + t, c, t);
    case Choice(options) => StartTakesChoice(nodes, id, c, t);
  }

  lemma ValueTakes(nodes: Arena, id: nat, c: char, t: string)
    requires OptionsApart(nodes) && SpacedValue(nodes, id, [c] + t)
    ensures Takes(nodes, Value(id), c, t)
  {
    ConsParts(c, t);
    hide IsValue, OptionsApart;
    if IsWs(c) {
      assert StartMove(nodes, id, c) == Stay(Value(id));
    } else {
      StartTakes(nodes, id, c, t);
    }
  }

  // --------------------------------------------------------------------- keys

  /** A key that goes on with `c`. */
  lemma KeyGoesOn(nodes: Arena, f: Frame, c: char, t: string, k: nat)
    requires f.Obj? && KeyEndsAt(nodes, f.node, f.seen, f.key, f.keyEscape, [c] + t, k) && k > 1
    ensures StringTail(f.keyEscape, [c] + t[..k - 1])
    ensures CheckKey(nodes, f.node, f.seen, f.key + [c] + t[..k - 2]).Some?
    ensures ObjectColon(nodes, f.node, CheckKey(nodes, f.node, f.seen, f.key + [c] + t[..k - 2]).value, f.key + [c] + t[..k - 2], t[k - 1..])
  {
    hide StringTail, CheckKey, ObjectColon;
    var s := [c] + t;
    assert s[..k] == [c] + t[..k - 1] && s[k..] == t[k - 1..];
    assert f.key + s[..k - 1] == f.key + [c] + t[..k - 2];
  }

  /** What a string's first character leaves of it. */
  lemma StringGoesOn(escape: nat, c: char, t: string)
    requires StringTail(escape, [c] + t) && t != "" && escape <= 5
    ensures escape > 0 ==> NextEscape(escape, c).Some? && StringTail(NextEscape(escape, c).value, t)
    ensures escape == 0 && c == '\\' ==> StringTail(5, t)
    ensures escape == 0 && c != '\\' ==> c != '"' && !IsControl(c) && StringTail(0, t)
  {
    ConsParts(c, t);
  }

  lemma KeyEndsSooner(nodes: Arena, node: nat, seen: seq<nat>, key: string, next: nat, t: string, k: nat)
    requires 0 < k <= |t| && StringTail(next, t[..k]) && CheckKey(nodes, node, seen, key + t[..k - 1]).Some?
    requires ObjectColon(nodes, node, CheckKey(nodes, node, seen, key + t[..k - 1]).value, key + t[..k - 1], t[k..])
    ensures KeyRest(nodes, node, seen, key, next, t)
  {
    hide StringTail, CheckKey, ObjectColon;
    assert StringTail(next, t[..k]);
  }

  /** A key the object may have is possible from every beginning of it. */
  lemma KeyStaysPossible(nodes: Arena, node: nat, seen: seq<nat>, key: string, more: string)
    requires CheckKey(nodes, node, seen, key + more).Some?
    ensures KeyPossible(nodes, node, seen, key)
  {
    if !KeysFree(nodes, node) {
      var props := nodes[node].properties;
      var i := Find(props, key + more).value;
      assert key <= props[i].0;
      assert Unseen(props, seen, key, i);
    }
  }

  lemma BackslashNotPlain(key: string, more: string)
    ensures !PlainName(key + ['\\'] + more)
  {
    assert (key + ['\\'] + more)[|key|] == '\\';
  }

  lemma KeyIsFreeOrPlain(nodes: Arena, node: nat, seen: seq<nat>, key: string)
    requires Spelled(nodes) && CheckKey(nodes, node, seen, key).Some?
    ensures KeysFree(nodes, node) || PlainName(key)
  {
    hide PlainName;
    if !KeysFree(nodes, node) {
      assert SpellOk(nodes[node]);
      assert Find(nodes[node].properties, key).Some?;
    }
  }

  /** A key with a backslash is no declared name. */
  lemma BackslashIsFree(nodes: Arena, node: nat, seen: seq<nat>, key: string, more: string)
    requires Spelled(nodes) && CheckKey(nodes, node, seen, key + ['\\'] + more).Some?
    ensures KeysFree(nodes, node)
  {
    hide *;
    BackslashNotPlain(key, more);
    KeyIsFreeOrPlain(nodes, node, seen, key + ['\\'] + more);
  }

  lemma KeyTakes(nodes: Arena, f: Frame, c: char, t: string)
    requires Spelled(nodes) && f.Obj? && f.ostate == OKey && f.keyEscape <= 5 && KeyRest(nodes, f.node, f.seen, f.key, f.keyEscape, [c] + t)
    ensures KeyMove(nodes, f, c).Stay? && FrameTail(nodes, KeyMove(nodes, f, c).top, t)
  {
    hide *;
    KeyRestIs(nodes, f.node, f.seen, f.key, f.keyEscape, [c] + t);
    var k: nat :| KeyEndsAt(nodes, f.node, f.seen, f.key, f.keyEscape, [c] + t, k);
    KeyEndsIs(nodes, f.node, f.seen, f.key, f.keyEscape, [c] + t, k);
    if k == 1 {
      KeyClosesHere(nodes, f, c, t);
    } else {
      KeyGoesOn(nodes, f, c, t, k);
      var more := t[..k - 2];
      assert t[..k - 1][..k - 2] == more && t[..k - 1] != "";
      StringGoesOn(f.keyEscape, c, t[..k - 1]);
      assert f.key + [c] + more == (f.key + [c]) + more;
      KeyStaysPossible(nodes, f.node, f.seen, f.key + [c], more);
      if f.keyEscape == 0 && c == '\\' {
        BackslashIsFree(nodes, f.node, f.seen, f.key, more);
      }
      KeyMoveOn(nodes, f, c);
      KeyEndsSooner(nodes, f.node, f.seen, f.key + [c], if f.keyEscape > 0 then NextEscape(f.keyEscape, c).value else if c == '\\' then 5 else 0, t, k - 1);
      KeyTailIs(nodes, KeyMove(nodes, f, c).top, t);
    }
  }

  lemma KeyEndsIs(nodes: Arena, node: nat, seen: seq<nat>, key: string, escape: nat, t: string, k: nat)
    requires KeyEndsAt(nodes, node, seen, key, escape, t, k)
    ensures 0 < k <= |t|
  {}

  lemma KeyTailIs(nodes: Arena, g: Frame, t: string)
    requires g.Obj? && g.ostate == OKey && KeyRest(nodes, g.node, g.seen, g.key, g.keyEscape, t)
    ensures FrameTail(nodes, g, t)
  {}

  lemma KeyMoveOn(nodes: Arena, f: Frame, c: char)
    requires f.Obj? && f.ostate == OKey
    requires f.keyEscape > 0 ==> NextEscape(f.keyEscape, c).Some?
    requires f.keyEscape == 0 && c == '\\' ==> KeysFree(nodes, f.node)
    requires f.keyEscape == 0 && c != '\\' ==> c != '"' && !IsControl(c) && KeyPossible(nodes, f.node, f.seen, f.key + [c])
    ensures KeyMove(nodes, f, c) ==
      Stay(f.(key := f.key + [c], keyEscape := if f.keyEscape > 0 then NextEscape(f.keyEscape, c).value else if c == '\\' then 5 else 0))
  {
    hide KeyPossible, KeysFree;
  }

  lemma OneCharacter(escape: nat, c: char)
    requires StringTail(escape, [c]) && escape <= 5
    ensures escape == 0 && c == '"'
  {
    assert [c][1..] == "";
  }

  lemma KeyClosesHere(nodes: Arena, f: Frame, c: char, t: string)
    requires f.Obj? && f.ostate == OKey && f.keyEscape <= 5 && KeyEndsAt(nodes, f.node, f.seen, f.key, f.keyEscape, [c] + t, 1)
    ensures KeyMove(nodes, f, c).Stay? && FrameTail(nodes, KeyMove(nodes, f, c).top, t)
  {
    var s := [c] + t;
    assert s[..1] == [c] && s[1..] == t && f.key + s[..0] == f.key;
    OneCharacter(f.keyEscape, c);
    hide CheckKey, ObjectColon, StringTail;
  }

  // --------------------------------------------------------- objects and arrays

  lemma ColonTakes(nodes: Arena, f: Frame, c: char, t: string)
    requires f.Obj? && f.ostate == OColon && ObjectColon(nodes, f.node, f.seen, f.key, [c] + t)
    ensures Takes(nodes, f, c, t)
  {
    ConsParts(c, t);
    hide SpacedValue, ObjectNext, ValueNode;
    if !IsWs(c) {
      assert MemberRest(nodes, f.node, f.seen, f.key, t);
      var n := ValueNode(nodes, f.node, f.key).value;
      var k: nat :| k <= |t| && SpacedValue(nodes, n, t[..k]) && ObjectNext(nodes, f.node, f.seen, t[k..]);
      var g := f.(ostate := OValue);
      assert MoveOf(nodes, f, c) == Move.Open(g, Value(n));
      assert FrameTail(nodes, Value(n), t[..k]) && FrameTail(nodes, Next(g), t[k..]);
    }
  }

  lemma ObjTakes(nodes: Arena, f: Frame, c: char, t: string)
    requires Spelled(nodes) && f.Obj? && FrameOk(nodes, f) && FrameTail(nodes, f, [c] + t)
    ensures Takes(nodes, f, c, t)
  {
    ConsParts(c, t);
    hide KeyRest, ObjectColon, Spelled, CanClose, KeyMove;
    match f.ostate
    case OKey => KeyTakes(nodes, f, c, t);
    case OColon => ColonTakes(nodes, f, c, t);
    case _ =>
  }

  lemma ElementTakes(nodes: Arena, f: Frame, c: char, t: string)
    requires f.Arr? && (f.astate == AStart || f.astate == AValueExpected) && ElementRest(nodes, f.items, [c] + t) && !IsWs(c)
    requires ArrMove(nodes, f, c) == OpenThen(f.(astate := AValue), Value(Element(nodes, f.items)))
    ensures Takes(nodes, f, c, t)
  {
    var s := [c] + t;
    ConsParts(c, t);
    hide IsValue, ArrayNext;
    var k: nat :| k <= |s| && IsValue(nodes, Element(nodes, f.items), s[..k]) && ArrayNext(nodes, f.items, s[k..]);
    ValueNonempty(nodes, Element(nodes, f.items), s[..k]);
    assert s[..k][0] == c;
    assert FrameTail(nodes, Value(Element(nodes, f.items)), s[..k]);
    assert FrameTail(nodes, Next(f.(astate := AValue)), s[k..]);
    hide Element, SpacedValue;
  }

  lemma ValueNonempty(nodes: Arena, id: nat, t: string)
    requires IsValue(nodes, id, t)
    ensures t != "" && id < |nodes|
  {}

  /** No option begins with a closing bracket; a JSON text never does. */
  predicate Bracketless(nodes: Arena) {
    forall i :: 0 <= i < |nodes| && nodes[i].Choice? ==> forall o :: o in nodes[i].options ==> o == "" || o[0] != ']'
  }

  lemma ValueFirst(nodes: Arena, id: nat, c: char, t: string)
    requires Bracketless(nodes) && IsValue(nodes, id, [c] + t)
    ensures c != ']'
  {
    ConsParts(c, t);
    hide StringTail, ObjectStart, ArrayStart, Magnitude;
    LiteralFirst(c, t);
    if c == ']' && nodes[id].Number? {
      NumberStarts(nodes[id].integer, c, t);
    }
    if c == ']' && nodes[id].Any? && IsNumber(false, [c] + t) {
      NumberStarts(false, c, t);
    }
  }

  /** An element's node is in the arena, and no element begins with a closing bracket. */
  lemma ElementInside(nodes: Arena, items: nat, c: char, t: string)
    requires ElementRest(nodes, items, [c] + t)
    ensures Element(nodes, items) < |nodes| && (Bracketless(nodes) ==> c != ']')
  {
    hide IsValue, ArrayNext, Bracketless, Element;
    var s := [c] + t;
    var k: nat :| k <= |s| && IsValue(nodes, Element(nodes, items), s[..k]) && ArrayNext(nodes, items, s[k..]);
    ValueNonempty(nodes, Element(nodes, items), s[..k]);
    assert s[..k] == [c] + t[..k - 1];
    if Bracketless(nodes) {
      ValueFirst(nodes, Element(nodes, items), c, t[..k - 1]);
    }
  }

  /** An array's own character, or the first of an element. */
  lemma ArrTakes(nodes: Arena, f: Frame, c: char, t: string)
    requires |nodes| <= Free && Bracketless(nodes) && f.Arr? && FrameTail(nodes, f, [c] + t)
    ensures Takes(nodes, f, c, t)
  {
    ConsParts(c, t);
    hide ElementRest, Bracketless, IsValue;
    if !IsWs(c) && (f.astate == AStart || f.astate == AValueExpected) && !(f.astate == AStart && [c] + t == "]") {
      assert ElementRest(nodes, f.items, [c] + t);
      ElementInside(nodes, f.items, c, t);
      ElementTakes(nodes, f, c, t);
    }
  }

  // --------------------------------------------------------------- every frame

  lemma FrameTakes(nodes: Arena, f: Frame, c: char, t: string)
    requires Spelled(nodes) && OptionsApart(nodes) && Bracketless(nodes) && |nodes| <= Free
    requires FrameOk(nodes, f) && FrameReady(f) && FrameTail(nodes, f, [c] + t)
    requires f.Str? ==> f.len < MaxStringChars || c == '"'
    requires f.Num? ==> f.chars < MaxNumberChars || !IsNumberChar(c)
    ensures Takes(nodes, f, c, t)
  {
    hide Spelled, OptionsApart, Bracketless, NumberTail, StringTail, SpacedValue, NumMove, StrMove, IsNumberChar, KeyRest, ObjectColon;
    match f
    case Value(id) => ValueTakes(nodes, id, c, t);
    case Str(escape, len) => StringTakes(escape, len, c, t);
    case Num(_, _, _, _, _, _, _) =>
      NumberChars(f, c, t);
      NumberTakes(f, c, t);
    case Word(alts, at) => WordTakes(nodes, alts, at, c, t);
    case Obj(_, _, _, _, _) => ObjTakes(nodes, f, c, t);
    case Arr(_, _) => ArrTakes(nodes, f, c, t);
  }

  /** Only a number can be over without another character. */
  lemma NothingLeft(nodes: Arena, f: Frame)
    requires Sound(nodes, f) && FrameReady(f) && FrameTail(nodes, f, "")
    ensures NumComplete(f)
  {}

  /** Nothing that follows a finished value goes on as a number does. */
  lemma AfterValue(nodes: Arena, below: seq<Frame>, c: char, t: string)
    requires Resume(below).Some? && StackTail(nodes, Resume(below).value, [c] + t)
    ensures !IsNumberChar(c)
  {
    var stack := Resume(below).value;
    ConsParts(c, t);
    if stack != [] {
      var s := [c] + t;
      var n := |stack| - 1;
      assert stack == stack[..n] + [stack[n]];
      var k := StackSplit(nodes, stack[..n], stack[n], s);
      assert (stack[n].Obj? && stack[n].ostate == ONext) || (stack[n].Arr? && stack[n].astate == ANext);
      assert k > 0 && s[..k][0] == c;
    }
  }

  lemma NumberHandsOn(f: Frame, c: char)
    requires NumComplete(f) && !IsNumberChar(c)
    ensures NumMove(f, c) == CloseThen
  {}

  // ----------------------------------------------------------------- the stack

  /** A value inside a container, and what follows it there. */
  lemma InnerJoin(nodes: Arena, below: seq<Frame>, g: Frame, h: Frame, t: string, k: nat, l: nat)
    requires Container(g) && k <= l <= |t| && FrameTail(nodes, h, t[..k]) && FrameTail(nodes, Next(g), t[k..l])
    requires Resume(below).Some? && StackTail(nodes, Resume(below).value, t[l..])
    ensures StackTail(nodes, below + [g, h], t)
  {
    hide *;
    var u := t[k..];
    assert u[..l - k] == t[k..l] && u[l - k..] == t[l..];
    StackJoin(nodes, below, Next(g), u, l - k);
    ResumeNext(below, g);
    StackJoin(nodes, below + [g], h, t, k);
    assert below + [g, h] == below + [g] + [h];
  }

  /** What is left to read after one pass: nothing of `c` if it was taken, `c` again if it was handed on. */
  ghost predicate Left(nodes: Arena, out: Out, c: char, t: string) {
    match out
    case Dead => false
    case Alive(x) => StackTail(nodes, x.stack, t)
    case Again(x) => StackTail(nodes, x.stack, [c] + t)
  }

  lemma TakesIs(nodes: Arena, f: Frame, c: char, u: string)
    requires Takes(nodes, f, c, u)
    ensures var move := MoveOf(nodes, f, c);
      (move.Stay? && FrameTail(nodes, move.top, u)) || (move.Close? && u == "")
      || (move.Open? && Container(move.top) && OpenAt(nodes, move.top, move.inner, u))
      || (move.OpenThen? && Container(move.top) && OpenAt(nodes, move.top, move.inner, [c] + u))
  {
    hide MoveOf, FrameTail;
  }

  /** A value inside a container, then what is left of the container. */
  ghost predicate OpenAt(nodes: Arena, g: Frame, h: Frame, s: string)
    requires Container(g)
  {
    exists k: nat :: k <= |s| && FrameTail(nodes, h, s[..k]) && FrameTail(nodes, Next(g), s[k..])
  }

  lemma OpenJoin(nodes: Arena, below: seq<Frame>, g: Frame, h: Frame, s: string, l: nat)
    requires Container(g) && l <= |s| && OpenAt(nodes, g, h, s[..l])
    requires Resume(below).Some? && StackTail(nodes, Resume(below).value, s[l..])
    ensures StackTail(nodes, below + [g, h], s)
  {
    hide FrameTail, StackTail, Resume, Container, Next;
    var u := s[..l];
    var k: nat :| k <= |u| && FrameTail(nodes, h, u[..k]) && FrameTail(nodes, Next(g), u[k..]);
    assert u[..k] == s[..k] && u[k..] == s[k..l];
    InnerJoin(nodes, below, g, h, s, k, l);
  }

  lemma LeftStay(nodes: Arena, m: Machine, c: char, t: string, g: Frame)
    requires m.stack != [] && StackTail(nodes, Below(m) + [g], t)
    ensures Left(nodes, Apply(m, Stay(g)), c, t)
  {
    hide StackTail;
  }

  lemma LeftClose(nodes: Arena, m: Machine, c: char, t: string)
    requires m.stack != [] && Resume(Below(m)).Some? && StackTail(nodes, Resume(Below(m)).value, t)
    ensures Left(nodes, Apply(m, Close), c, t)
  {
    hide StackTail, Resume;
  }

  lemma LeftOpen(nodes: Arena, m: Machine, c: char, t: string, g: Frame, h: Frame)
    requires m.stack != []
    ensures StackTail(nodes, Below(m) + [g, h], t) ==> Left(nodes, Apply(m, Move.Open(g, h)), c, t)
    ensures StackTail(nodes, Below(m) + [g, h], [c] + t) ==> Left(nodes, Apply(m, OpenThen(g, h)), c, t)
  {
    hide StackTail;
  }

  lemma ApplyTakes(nodes: Arena, m: Machine, c: char, t: string, k: nat)
    requires m.stack != [] && 0 < k <= |t| + 1 && Takes(nodes, Top(m), c, t[..k - 1])
    requires Resume(Below(m)).Some? && StackTail(nodes, Resume(Below(m)).value, t[k - 1..])
    ensures Left(nodes, Apply(m, MoveOf(nodes, Top(m), c)), c, t)
  {
    hide *;
    var move, below, u := MoveOf(nodes, Top(m), c), Below(m), t[..k - 1];
    TakesIs(nodes, Top(m), c, u);
    match move
    case Stay(g) =>
      StackJoin(nodes, below, g, t, k - 1);
      LeftStay(nodes, m, c, t, g);
    case Close =>
      assert t[k - 1..] == t;
      LeftClose(nodes, m, c, t);
    case Open(g, h) =>
      OpenJoin(nodes, below, g, h, t, k - 1);
      LeftOpen(nodes, m, c, t, g, h);
    case OpenThen(g, h) =>
      var s := [c] + t;
      assert [c] + u == s[..k] && s[k..] == t[k - 1..];
      OpenJoin(nodes, below, g, h, s, k);
      LeftOpen(nodes, m, c, t, g, h);
  }

  ghost predicate Suits(nodes: Arena) {
    Spelled(nodes) && OptionsApart(nodes) && Bracketless(nodes) && |nodes| <= Free
  }

  lemma SuitsIs(nodes: Arena)
    requires Suits(nodes)
    ensures Spelled(nodes) && OptionsApart(nodes) && Bracketless(nodes) && |nodes| <= Free
  {}

  lemma ReadyTop(nodes: Arena, m: Machine)
    requires Ready(nodes, m) && m.stack != []
    ensures Sound(nodes, Top(m)) && FrameOk(nodes, Top(m)) && FrameReady(Top(m)) && !m.done && m.stack == Below(m) + [Top(m)]
  {}

  lemma PermitsTop(m: Machine, c: char)
    requires Permits(m, c) && m.stack != []
    ensures Top(m).Str? ==> Top(m).len < MaxStringChars || c == '"'
    ensures Top(m).Num? ==> Top(m).chars < MaxNumberChars || !IsNumberChar(c)
  {}

  lemma PermitsCount(nodes: Arena, m: Machine, c: char)
    requires Permits(m, c) && m.stack != [] && !m.done
    ensures Count(m, c).Some? && Count(m, c).value.stack == m.stack && Once(nodes, m, c) == Apply(Count(m, c).value, MoveOf(nodes, Top(m), c))
  {
    hide MoveOf;
  }

  lemma HandsOn(nodes: Arena, m: Machine, c: char, t: string)
    requires m.stack != [] && Top(m).Num? && NumMove(Top(m), c) == CloseThen
    requires Resume(Below(m)).Some? && StackTail(nodes, Resume(Below(m)).value, [c] + t)
    ensures Left(nodes, Apply(m, MoveOf(nodes, Top(m), c)), c, t)
  {
    hide NumMove, StackTail, Resume;
  }

  /** One pass goes on with whatever the grammar has left. */
  lemma OnceTakes(nodes: Arena, m: Machine, c: char, t: string)
    requires Suits(nodes) && Ready(nodes, m) && m.stack != [] && StackTail(nodes, m.stack, [c] + t) && Permits(m, c)
    ensures Left(nodes, Once(nodes, m, c), c, t)
  {
    hide *;
    SuitsIs(nodes);
    ReadyTop(nodes, m);
    PermitsTop(m, c);
    PermitsCount(nodes, m, c);
    var x, f, below, s := Count(m, c).value, Top(m), Below(m), [c] + t;
    SameStack(m, x);
    var k := StackSplit(nodes, below, f, s);
    if k == 0 {
      assert s[..0] == "" && s[0..] == s;
      NothingLeft(nodes, f);
      AfterValue(nodes, below, c, t);
      NumberHandsOn(f, c);
      CompleteNum(f);
      HandsOn(nodes, x, c, t);
    } else {
      assert s[..k] == [c] + t[..k - 1] && s[k..] == t[k - 1..];
      FrameTakes(nodes, f, c, t[..k - 1]);
      ApplyTakes(nodes, x, c, t, k);
    }
  }

  lemma SameStack(m: Machine, x: Machine)
    requires m.stack == x.stack && m.stack != []
    ensures Top(m) == Top(x) && Below(m) == Below(x)
  {}

  lemma CompleteNum(f: Frame)
    requires NumComplete(f)
    ensures f.Num?
  {}

  // ---------------------------------------------------- what a state keeps of it

  lemma {:induction false} FilterApart(alts: seq<string>, at: nat, c: char)
    requires Apart(alts, at)
    ensures Apart(Filter(alts, at, c), at + 1)
  {
    var rest := Filter(alts, at, c);
    hide Filter;
    forall a, b | a in rest && b in rest && at + 1 < |a| && at + 1 < |b| ensures !(a[at + 1..] < b[at + 1..]) {
      assert a[at..] == [c] + a[at + 1..] && b[at..] == [c] + b[at + 1..];
      assert !(a[at..] < b[at..]);
    }
  }

  lemma OneApart(word: string)
    ensures Apart([word], 1)
  {}

  lemma StartReady(nodes: Arena, id: nat, c: char)
    requires OptionsApart(nodes) && StartMove(nodes, id, c).Stay?
    ensures FrameReady(StartMove(nodes, id, c).top) && (StartMove(nodes, id, c).top.Num? ==> !IsWs(c))
  {
    hide Filter, Apart;
    OneApart("true");
    OneApart("false");
    OneApart("null");
    if id < |nodes| && nodes[id].Choice? {
      FilterApart(nodes[id].options, 0, c);
    }
  }

  lemma MoveReady(nodes: Arena, f: Frame, c: char)
    requires OptionsApart(nodes) && FrameReady(f) && MoveOf(nodes, f, c).Stay?
    ensures FrameReady(MoveOf(nodes, f, c).top) && (MoveOf(nodes, f, c).top.Num? ==> !IsWs(c))
  {
    hide OptionsApart, StartMove, ObjMove, ArrMove, Apart, Filter;
    match f
    case Value(id) => StartReady(nodes, id, c);
    case Word(alts, at) => FilterApart(alts, at, c);
    case Obj(_, _, _, _, _) => ObjStaysObj(nodes, f, c);
    case Arr(_, _) => ArrStaysArr(nodes, f, c);
    case _ =>
  }

  lemma ObjStaysObj(nodes: Arena, f: Frame, c: char)
    requires f.Obj? && ObjMove(nodes, f, c).Stay?
    ensures ObjMove(nodes, f, c).top.Obj?
  {}

  lemma ArrStaysArr(nodes: Arena, f: Frame, c: char)
    requires f.Arr? && ArrMove(nodes, f, c).Stay?
    ensures ArrMove(nodes, f, c).top.Arr?
  {}

  /** The tops of a state that has read something. */
  ghost predicate TopReady(m: Machine) {
    m.stack != [] ==> FrameReady(Top(m)) && (Top(m).Num? ==> m.wsRun == 0 && m.started)
  }

  lemma ResumedReady(m: Machine, below: seq<Frame>)
    requires Resume(below).Some? && m.stack == Resume(below).value
    ensures TopReady(m)
  {}

  lemma OpensValue(nodes: Arena, f: Frame, c: char)
    ensures MoveOf(nodes, f, c).Open? ==> MoveOf(nodes, f, c).inner.Value?
    ensures MoveOf(nodes, f, c).OpenThen? ==> MoveOf(nodes, f, c).inner.Value?
  {
    AgainMoves(nodes, f, c);
    if MoveOf(nodes, f, c).Open? {
      OnlyObjectsOpen(nodes, f, c);
      hide MoveOf;
      OpenIs(nodes, f, c);
    }
  }

  lemma ApplyReady(nodes: Arena, m: Machine, f: Frame, c: char)
    requires OptionsApart(nodes) && m.stack != [] && f == Top(m) && FrameReady(f) && (IsWs(c) || (m.wsRun == 0 && m.started))
    ensures var out := Apply(m, MoveOf(nodes, f, c)); !out.Dead? ==> TopReady(out.m)
  {
    var move := MoveOf(nodes, f, c);
    OpensValue(nodes, f, c);
    hide MoveOf, OptionsApart, Resume, FrameReady;
    match move
    case Stop =>
    case Stay(g) => MoveReady(nodes, f, c);
    case Open(g, h) => ValueReady(h);
    case OpenThen(g, h) => ValueReady(h);
    case Close => if Apply(m, move).Alive? { ResumedReady(Apply(m, move).m, Below(m)); }
    case CloseThen => if Apply(m, move).Again? { ResumedReady(Apply(m, move).m, Below(m)); }
  }

  lemma ValueReady(h: Frame)
    requires h.Value?
    ensures FrameReady(h)
  {}

  lemma OnceReady(nodes: Arena, rank: seq<nat>, m: Machine, c: char)
    requires Linked(nodes, rank) && OptionsApart(nodes) && Ready(nodes, m)
    ensures !Once(nodes, m, c).Dead? ==> Ready(nodes, Once(nodes, m, c).m)
  {
    hide Linked, OptionsApart, FramesOk, FrameReady, Apply, MoveOf, Sane;
    OnceFrames(nodes, rank, m, c);
    DoneIs(nodes, m);
    if Count(m, c).Some? && m.stack != [] {
      ApplyReady(nodes, Count(m, c).value, Top(m), c);
    }
  }

  lemma DoneIs(nodes: Arena, m: Machine)
    requires FramesOk(nodes, m)
    ensures m.done <==> m.stack == []
  {}

  // ------------------------------------------------------------ one character

  lemma DoneTakes(nodes: Arena, m: Machine, c: char, t: string)
    requires m.done && m.stack == [] && StackTail(nodes, [], [c] + t) && Permits(m, c)
    ensures Left(nodes, Once(nodes, m, c), c, t)
  {
    ConsParts(c, t);
    assert IsWs(([c] + t)[0]);
    forall i | 0 <= i < |t| ensures IsWs(t[i]) {
      assert ([c] + t)[i + 1] == t[i];
    }
  }

  lemma PassTakes(nodes: Arena, m: Machine, c: char, t: string)
    requires Suits(nodes) && Ready(nodes, m) && StackTail(nodes, m.stack, [c] + t) && Permits(m, c)
    ensures Left(nodes, Once(nodes, m, c), c, t)
  {
    hide Suits, Ready, StackTail, Permits, Once;
    if m.stack == [] {
      ReadyDone(nodes, m);
      DoneTakes(nodes, m, c, t);
    } else {
      OnceTakes(nodes, m, c, t);
    }
  }

  lemma ReadyDone(nodes: Arena, m: Machine)
    requires Ready(nodes, m)
    ensures (m.done <==> m.stack == []) && Sane(nodes, m)
  {}

  /** A character that is handed on is permitted there too. */
  lemma AgainPermits(nodes: Arena, m: Machine, c: char)
    requires Ready(nodes, m) && Permits(m, c) && Once(nodes, m, c).Again?
    ensures Permits(Once(nodes, m, c).m, c)
  {
    var x := Count(m, c).value;
    ReadyDone(nodes, m);
    assert m.stack != [] && (Top(m).Num? ==> m.wsRun == 0 && m.started);
    AgainMoves(nodes, Top(x), c);
    AgainParts(nodes, Top(x), c);
    hide MoveOf, Ready;
  }

  /** One character: if the caps permit it, whatever the grammar has left to read after it can be read. */
  lemma CharTakes(nodes: Arena, rank: seq<nat>, m: Machine, c: char, t: string)
    requires Linked(nodes, rank) && Suits(nodes) && Ready(nodes, m) && StackTail(nodes, m.stack, [c] + t) && Permits(m, c)
    ensures PushChar(nodes, m, c).Some? && Ready(nodes, PushChar(nodes, m, c).value) && StackTail(nodes, PushChar(nodes, m, c).value.stack, t)
  {
    SuitsIs(nodes);
    hide Linked, Suits, Ready, StackTail, Permits, Once, OptionsApart;
    PassTakes(nodes, m, c, t);
    OnceReady(nodes, rank, m, c);
    var out := Once(nodes, m, c);
    if out.Again? {
      AgainPermits(nodes, m, c);
      PassTakes(nodes, out.m, c, t);
      OnceReady(nodes, rank, out.m, c);
      AgainSettles(nodes, m, c);
    }
  }

  lemma NothingMore(nodes: Arena, m: Machine)
    requires Ready(nodes, m) && StackTail(nodes, m.stack, "")
    ensures Complete(m)
  {
    if m.stack != [] {
      ReadyTop(nodes, m);
      var k := StackSplit(nodes, Below(m), Top(m), "");
      assert ""[..0] == "" && ""[0..] == "";
      NothingLeft(nodes, Top(m));
      OnlyOne(nodes, Below(m));
    } else {
      ReadyDone(nodes, m);
    }
  }

  lemma NotOver(nodes: Arena, below: seq<Frame>, f: Frame)
    requires (f.Obj? && f.ostate == ONext) || (f.Arr? && f.astate == ANext)
    ensures !StackTail(nodes, below + [f], "")
  {
    assert !FrameTail(nodes, f, "") && ""[..0] == "";
    hide FrameTail, StackTail;
    if StackTail(nodes, below + [f], "") {
      var k := StackSplit(nodes, below, f, "");
      assert false;
    }
  }

  /** A container is not over before its bracket. */
  lemma OnlyOne(nodes: Arena, below: seq<Frame>)
    requires Resume(below).Some? && StackTail(nodes, Resume(below).value, "")
    ensures below == []
  {
    hide StackTail;
    if below != [] {
      var n := |below| - 1;
      assert below == below[..n] + [below[n]];
      NotOver(nodes, below[..n], if below[n].Obj? then below[n].(ostate := ONext) else below[n].(astate := ANext));
    }
  }

  lemma {:induction false} TextTakes(nodes: Arena, rank: seq<nat>, m: Machine, text: string)
    requires Linked(nodes, rank) && Suits(nodes) && Ready(nodes, m) && StackTail(nodes, m.stack, text) && Permitted(nodes, m, text)
    ensures Push(nodes, m, text).Some? && Complete(Push(nodes, m, text).value)
    decreases |text|
  {
    hide Linked, Suits, Ready, StackTail, Permits, PushChar, Complete;
    if text == "" {
      NothingMore(nodes, m);
    } else {
      assert text == [text[0]] + text[1..];
      CharTakes(nodes, rank, m, text[0], text[1..]);
      TextTakes(nodes, rank, PushChar(nodes, m, text[0]).value, text[1..]);
    }
  }

  lemma NewReady(nodes: Arena, rank: seq<nat>)
    requires Linked(nodes, rank)
    ensures Ready(nodes, NewMachine())
  {}

  lemma DocumentTail(nodes: Arena, text: string)
    requires IsDocument(nodes, text) && Permitted(nodes, NewMachine(), text)
    ensures StackTail(nodes, NewMachine().stack, text)
  {
    var k: nat :| k <= |text| && IsValue(nodes, 0, text[..k]) && AllWs(text[k..]);
    ValueNonempty(nodes, 0, text[..k]);
    assert text[..k][0] == text[0];
    assert Permits(NewMachine(), text[0]);
    hide IsValue, Permitted;
    assert StackTail(nodes, [], text[k..]);
    assert NewMachine().stack == [] + [Value(0)] && Resume([]) == Some([]);
    StackJoin(nodes, [], Value(0), text, k);
  }

  /** What the machine accepts, exactly: the documents of the arena, as far as the caps let it read them. Here no option
      ends inside another. */
  lemma ReadIff(nodes: Arena, rank: seq<nat>, text: string)
    requires Linked(nodes, rank) && Suits(nodes)
    ensures Push(nodes, NewMachine(), text).Some? && Complete(Push(nodes, NewMachine(), text).value) <==>
      IsDocument(nodes, text) && Permitted(nodes, NewMachine(), text)
  {
    hide Linked, Suits, IsDocument, Permitted, Push, Complete, Ready, StackTail, Sane;
    NewReady(nodes, rank);
    if IsDocument(nodes, text) && Permitted(nodes, NewMachine(), text) {
      DocumentTail(nodes, text);
      TextTakes(nodes, rank, NewMachine(), text);
    }
    if Push(nodes, NewMachine(), text).Some? && Complete(Push(nodes, NewMachine(), text).value) {
      AcceptedIsRead(nodes, text);
      ReadyDone(nodes, NewMachine());
      AcceptedPermits(nodes, NewMachine(), text);
    }
  }
}
