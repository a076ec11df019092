/** The documents of a schema, as a recursive grammar over RFC 8259 (sections 2, 4, 5, 6 and 7), and that the machine
    accepts nothing else.

    Two departures from the RFC are the program's: a number may begin with several zeros, and property names are
    compared as they are spelled between the quotes. */
module Grammar {
  import opened Prelude
  import opened Machines

  predicate AllWs(t: string) { forall i :: 0 <= i < |t| ==> IsWs(t[i]) }

  // ------------------------------------------------------------- characters

  /** The characters of sections 2, 6 and 7 of RFC 8259: whitespace, digits and what numbers are made of, hexadecimal
      digits, what may follow a backslash, and what a string may not hold unescaped. */
  lemma CharactersAre(c: char)
    ensures IsWs(c) <==> c in " \t\n\r"
    ensures IsDigit(c) <==> c in "0123456789"
    ensures IsNumberChar(c) <==> c in "0123456789.eE+-"
    ensures IsHex(c) <==> c in "0123456789abcdefABCDEF"
    ensures IsEscape(c) <==> c in "\"\\/bfnrtu"
    ensures IsControl(c) <==> c as nat < 0x20
  {
    Spaces(c);
    Digit(c);
    Hexadecimal(c);
    Escapes(c);
  }

  lemma Spaces(c: char)
    ensures IsWs(c) <==> c in " \t\n\r"
  {
    var s := " \t\n\r";
    assert s[0] == ' ' && s[1] == '\t' && s[2] == '\n' && s[3] == '\r';
  }

  lemma Digit(c: char)
    ensures IsDigit(c) <==> c in "0123456789"
    ensures IsNumberChar(c) <==> c in "0123456789.eE+-"
  {
    var s, t := "0123456789", "0123456789.eE+-";
    assert t[10] == '.' && t[11] == 'e' && t[12] == 'E' && t[13] == '+' && t[14] == '-';
    if IsDigit(c) {
      var i := c as nat - '0' as nat;
      assert s[i] == c && t[i] == c;
    }
  }

  lemma Hexadecimal(c: char)
    ensures IsHex(c) <==> c in "0123456789abcdefABCDEF"
  {
    var s := "0123456789abcdefABCDEF";
    if IsHex(c) {
      var i := if IsDigit(c) then c as nat - '0' as nat else if 'a' <= c <= 'f' then 10 + (c as nat - 'a' as nat) else 16 + (c as nat - 'A' as nat);
      assert s[i] == c;
    }
  }

  lemma Escapes(c: char)
    ensures IsEscape(c) <==> c in "\"\\/bfnrtu"
  {
    var s := "\"\\/bfnrtu";
    assert s[0] == '"' && s[1] == '\\' && s[2] == '/' && s[3] == 'b' && s[4] == 'f' && s[5] == 'n' && s[6] == 'r' && s[7] == 't' && s[8] == 'u';
  }

  // ---------------------------------------------------------------- strings

  /** What may follow an opening quote, the closing one included; `escape` as in the machine: 5 right after a
      backslash, 4 to 1 while hexadecimal digits are missing. */
  predicate StringTail(escape: nat, t: string)
    decreases |t|
  {
    t != ""
    && (if escape == 5 then IsEscape(t[0]) && StringTail(if t[0] == 'u' then 4 else 0, t[1..])
        else if escape > 0 then IsHex(t[0]) && StringTail(escape - 1, t[1..])
        else if t[0] == '"' then |t| == 1
        else if t[0] == '\\' then StringTail(5, t[1..])
        else !IsControl(t[0]) && StringTail(0, t[1..]))
  }

  predicate IsString(t: string) { t != "" && t[0] == '"' && StringTail(0, t[1..]) }

  // ---------------------------------------------------------------- numbers

  function DigitRun(t: string): (n: nat)
    ensures n <= |t| && (forall i :: 0 <= i < n ==> IsDigit(t[i])) && (n < |t| ==> !IsDigit(t[n]))
  {
    if t == "" || !IsDigit(t[0]) then 0 else 1 + DigitRun(t[1..])
  }

  /** One or more digits and nothing else. */
  predicate Digits(t: string) { t != "" && DigitRun(t) == |t| }

  predicate IsExponent(t: string) {
    t == "" || ((t[0] == 'e' || t[0] == 'E') && SignedDigits(t[1..]))
  }

  predicate SignedDigits(t: string) {
    Digits(t) || (t != "" && (t[0] == '+' || t[0] == '-') && Digits(t[1..]))
  }

  predicate IsFraction(t: string) {
    IsExponent(t) || (t != "" && t[0] == '.' && DigitRun(t[1..]) > 0 && IsExponent(t[1..][DigitRun(t[1..])..]))
  }

  /** Digits, then fraction and exponent unless the number is an integer. */
  predicate Magnitude(integer: bool, t: string) {
    DigitRun(t) > 0 && AfterDigits(integer, t[DigitRun(t)..])
  }

  predicate AfterDigits(integer: bool, t: string) {
    if integer then t == "" else IsFraction(t)
  }

  predicate IsNumber(integer: bool, t: string) {
    t != "" && if t[0] == '-' then Magnitude(integer, t[1..]) else Magnitude(integer, t)
  }

  // ------------------------------------------------------------------ values

  /** A value of node `id`. */
  ghost predicate IsValue(nodes: Arena, id: nat, t: string)
    decreases |t|, 1
  {
    id < |nodes| && t != ""
    && match nodes[id]
       case Any =>
         IsString(t) || IsNumber(false, t) || t == "true" || t == "false" || t == "null"
         || (t[0] == '{' && ObjectStart(nodes, Free, [], t[1..]))
         || (t[0] == '[' && ArrayStart(nodes, Free, t[1..]))
       case Object(_, _, _) => t[0] == '{' && ObjectStart(nodes, id, [], t[1..])
       case Array(items) => t[0] == '[' && ArrayStart(nodes, items, t[1..])
       case StringNode => IsString(t)
       case Number(integer) => IsNumber(integer, t)
       case Bool => t == "true" || t == "false"
       case Null => t == "null"
       case Choice(options) => t in options
  }

  /** A value, with whitespace allowed before it. */
  ghost predicate SpacedValue(nodes: Arena, id: nat, t: string)
    decreases |t|, 2
  {
    t != "" && if IsWs(t[0]) then SpacedValue(nodes, id, t[1..]) else IsValue(nodes, id, t)
  }

  /** The rest of an object after its opening brace. `seen` lists the declared properties that have appeared. */
  ghost predicate ObjectStart(nodes: Arena, node: nat, seen: seq<nat>, t: string)
    decreases |t|, 0
  {
    t != ""
    && if IsWs(t[0]) then ObjectStart(nodes, node, seen, t[1..])
       else (t == "}" && CanClose(nodes, node, seen)) || (t[0] == '"' && KeyRest(nodes, node, seen, "", 0, t[1..]))
  }

  /** The rest of an object after a comma. */
  ghost predicate ObjectKey(nodes: Arena, node: nat, seen: seq<nat>, t: string)
    decreases |t|, 0
  {
    t != ""
    && if IsWs(t[0]) then ObjectKey(nodes, node, seen, t[1..])
       else t[0] == '"' && KeyRest(nodes, node, seen, "", 0, t[1..])
  }

  /** The rest of an object inside a key: the key ends, is one the object may have now, and the member goes on. */
  ghost predicate KeyRest(nodes: Arena, node: nat, seen: seq<nat>, key: string, escape: nat, t: string)
    decreases |t|, 0
  {
    exists k: nat :: 0 < k <= |t| && StringTail(escape, t[..k])
      && CheckKey(nodes, node, seen, key + t[..k - 1]).Some?
      && ObjectColon(nodes, node, CheckKey(nodes, node, seen, key + t[..k - 1]).value, key + t[..k - 1], t[k..])
  }

  ghost predicate ObjectColon(nodes: Arena, node: nat, seen: seq<nat>, key: string, t: string)
    decreases |t|, 0
  {
    t != ""
    && if IsWs(t[0]) then ObjectColon(nodes, node, seen, key, t[1..])
       else t[0] == ':' && MemberRest(nodes, node, seen, key, t[1..])
  }

  /** The rest of an object after a colon: a value of the key's node, then what may follow a member. */
  ghost predicate MemberRest(nodes: Arena, node: nat, seen: seq<nat>, key: string, t: string)
    decreases |t|, 3
  {
    ValueNode(nodes, node, key).Some?
    && exists k: nat :: k <= |t| && SpacedValue(nodes, ValueNode(nodes, node, key).value, t[..k]) && ObjectNext(nodes, node, seen, t[k..])
  }

  /** The rest of an object after a member. */
  ghost predicate ObjectNext(nodes: Arena, node: nat, seen: seq<nat>, t: string)
    decreases |t|, 0
  {
    t != ""
    && if IsWs(t[0]) then ObjectNext(nodes, node, seen, t[1..])
       else if t[0] == ',' then ObjectKey(nodes, node, seen, t[1..])
       else t == "}" && CanClose(nodes, node, seen)
  }

  function Element(nodes: Arena, items: nat): nat {
    if items == Free then AnyNode(nodes) else items
  }

  /** The rest of an array after its opening bracket. */
  ghost predicate ArrayStart(nodes: Arena, items: nat, t: string)
    decreases |t|, 3
  {
    t != ""
    && if IsWs(t[0]) then ArrayStart(nodes, items, t[1..]) else t == "]" || ElementRest(nodes, items, t)
  }

  /** An element, then what may follow one. */
  ghost predicate ElementRest(nodes: Arena, items: nat, t: string)
    decreases |t|, 2
  {
    exists k: nat :: k <= |t| && IsValue(nodes, Element(nodes, items), t[..k]) && ArrayNext(nodes, items, t[k..])
  }

  /** The rest of an array after a comma. */
  ghost predicate ArrayElement(nodes: Arena, items: nat, t: string)
    decreases |t|, 3
  {
    t != "" && if IsWs(t[0]) then ArrayElement(nodes, items, t[1..]) else ElementRest(nodes, items, t)
  }

  /** The rest of an array after an element. */
  ghost predicate ArrayNext(nodes: Arena, items: nat, t: string)
    decreases |t|, 0
  {
    t != ""
    && if IsWs(t[0]) then ArrayNext(nodes, items, t[1..])
       else if t[0] == ',' then ArrayElement(nodes, items, t[1..])
       else t == "]"
  }

  /** A document: a value of the root node, and trailing whitespace. */
  ghost predicate IsDocument(nodes: Arena, text: string) {
    exists k: nat :: k <= |text| && IsValue(nodes, 0, text[..k]) && AllWs(text[k..])
  }

  // ------------------------------------------- what completes a frame, a stack

  /** What completes a number begun as `f`. */
  predicate NumberTail(f: Frame, t: string)
    requires f.Num?
  {
    if f.seenExp then
      if f.expDigit then DigitRun(t) == |t| else if f.afterSign then Digits(t) else SignedDigits(t)
    else if f.seenDot then
      (f.seenDigit || DigitRun(t) > 0) && IsExponent(t[DigitRun(t)..])
    else
      (f.seenDigit || DigitRun(t) > 0) && AfterDigits(f.integer, t[DigitRun(t)..])
  }

  ghost predicate FrameTail(nodes: Arena, f: Frame, t: string) {
    match f
    case Value(id) => SpacedValue(nodes, id, t)
    case Str(escape, _) => StringTail(escape, t)
    case Num(_, _, _, _, _, _, _) => NumberTail(f, t)
    case Word(alts, at) => exists a :: a in alts && at <= |a| && t == a[at..]
    case Obj(node, state, seen, key, escape) =>
      (match state
       case OStart => ObjectStart(nodes, node, seen, t)
       case OKey => KeyRest(nodes, node, seen, key, escape, t)
       case OColon => ObjectColon(nodes, node, seen, key, t)
       case OValue => false
       case ONext => ObjectNext(nodes, node, seen, t)
       case OKeyExpected => ObjectKey(nodes, node, seen, t))
    case Arr(items, state) =>
      match state
      case AStart => ArrayStart(nodes, items, t)
      case AValue => false
      case ANext => ArrayNext(nodes, items, t)
      case AValueExpected => ArrayElement(nodes, items, t)
  }

  lemma ResumeSize(below: seq<Frame>)
    ensures Resume(below).Some? ==> |Resume(below).value| == |below|
  {}

  /** What completes a whole stack: the value on top, then whatever completes what is below once it is done. */
  ghost predicate StackTail(nodes: Arena, stack: seq<Frame>, t: string)
    decreases |stack|
  {
    if stack == [] then AllWs(t)
    else
      var below := stack[..|stack| - 1];
      ResumeSize(below);
      Resume(below).Some?
      && exists k: nat :: k <= |t| && FrameTail(nodes, stack[|stack| - 1], t[..k]) && StackTail(nodes, Resume(below).value, t[k..])
  }

  lemma StackSplit(nodes: Arena, below: seq<Frame>, f: Frame, t: string) returns (k: nat)
    requires StackTail(nodes, below + [f], t)
    ensures k <= |t| && Resume(below).Some? && FrameTail(nodes, f, t[..k]) && StackTail(nodes, Resume(below).value, t[k..])
  {
    var stack := below + [f];
    assert stack[..|stack| - 1] == below && stack[|stack| - 1] == f;
    k :| k <= |t| && FrameTail(nodes, f, t[..k]) && StackTail(nodes, Resume(below).value, t[k..]);
  }

  lemma StackJoin(nodes: Arena, below: seq<Frame>, f: Frame, t: string, k: nat)
    requires k <= |t| && Resume(below).Some? && FrameTail(nodes, f, t[..k]) && StackTail(nodes, Resume(below).value, t[k..])
    ensures StackTail(nodes, below + [f], t)
  {
    var stack := below + [f];
    assert stack[..|stack| - 1] == below && stack[|stack| - 1] == f;
  }

  // ------------------------------------------------------- one frame, one move

  lemma ConsParts(c: char, t: string)
    ensures ([c] + t)[0] == c && ([c] + t)[1..] == t && [c] + t != ""
  {}

  lemma DigitRunCons(c: char, t: string)
    ensures DigitRun([c] + t) == if IsDigit(c) then 1 + DigitRun(t) else 0
    ensures ([c] + t)[DigitRun([c] + t)..] == if IsDigit(c) then t[DigitRun(t)..] else [c] + t
  {
    ConsParts(c, t);
  }

  lemma NumberStays(f: Frame, c: char, t: string)
    requires f.Num? && (f.expDigit ==> f.seenExp) && NumMove(f, c).Stay? && NumberTail(NumMove(f, c).top, t)
    ensures NumberTail(f, [c] + t)
  {
    ConsParts(c, t);
    DigitRunCons(c, t);
    hide DigitRun;
  }

  lemma NumberBegins(integer: bool, c: char, t: string)
    requires (c == '-' || IsDigit(c)) && NumberTail(NewNum(integer, c), t)
    ensures IsNumber(integer, [c] + t)
  {
    ConsParts(c, t);
    DigitRunCons(c, t);
    hide DigitRun;
  }

  lemma NumberEnds(f: Frame)
    requires NumComplete(f)
    ensures NumberTail(f, "")
  {}

  lemma StringStays(escape: nat, len: nat, c: char, t: string)
    requires StrMove(escape, len, c).Stay? && StringTail(StrMove(escape, len, c).top.escape, t)
    ensures StringTail(escape, [c] + t) && StrMove(escape, len, c).top.Str?
  {
    ConsParts(c, t);
  }

  lemma WordStays(nodes: Arena, alts: seq<string>, at: nat, c: char, rest: seq<string>, t: string)
    requires forall a :: a in rest ==> a in alts && at < |a| && a[at] == c
    requires FrameTail(nodes, Word(rest, at + 1), t)
    ensures FrameTail(nodes, Word(alts, at), [c] + t)
  {
    var a :| a in rest && at + 1 <= |a| && t == a[at + 1..];
    assert [c] + t == a[at..];
  }

  lemma WordEnds(alts: seq<string>, at: nat, c: char, rest: seq<string>, nodes: Arena)
    requires (forall a :: a in rest ==> a in alts && at < |a| && a[at] == c) && Settle(rest, at + 1).Close?
    ensures FrameTail(nodes, Word(alts, at), [c])
  {
    var a :| a in rest && |a| == at + 1;
    assert [c] == a[at..];
  }

  /** A literal is read as a word with its first letter matched. */
  lemma LiteralTail(nodes: Arena, word: string, c: char, t: string)
    requires word != "" && word[0] == c && FrameTail(nodes, Word([word], 1), t)
    ensures [c] + t == word
  {
    var a :| a in [word] && 1 <= |a| && t == a[1..];
    assert a == [a[0]] + a[1..];
  }

  lemma ChoiceTail(nodes: Arena, options: seq<string>, c: char, t: string)
    requires FrameTail(nodes, Word(Filter(options, 0, c), 1), t)
    ensures [c] + t in options
  {
    hide *;
    WordTailIs(nodes, Filter(options, 0, c), 1, t);
    var a :| a in Filter(options, 0, c) && 1 <= |a| && t == a[1..];
    FilterIs(options, 0, c, a);
    assert a == [a[0]] + a[1..];
  }

  lemma WordTailIs(nodes: Arena, alts: seq<string>, at: nat, t: string)
    requires FrameTail(nodes, Word(alts, at), t)
    ensures exists a :: a in alts && at <= |a| && t == a[at..]
  {}

  lemma FilterIs(options: seq<string>, at: nat, c: char, a: string)
    requires a in Filter(options, at, c)
    ensures a in options && at < |a| && a[at] == c
  {
    hide Filter;
  }

  lemma ChoiceEnds(options: seq<string>, c: char)
    requires Settle(Filter(options, 0, c), 1).Close?
    ensures [c] in options
  {
    var a :| a in Filter(options, 0, c) && |a| == 1;
    assert a == [a[0]];
  }

  lemma SpacedIs(nodes: Arena, id: nat, c: char, t: string)
    requires !IsWs(c) && IsValue(nodes, id, [c] + t)
    ensures SpacedValue(nodes, id, [c] + t)
  {
    hide IsValue;
  }

  lemma SpacedMore(nodes: Arena, id: nat, c: char, t: string)
    requires IsWs(c) && SpacedValue(nodes, id, t)
    ensures SpacedValue(nodes, id, [c] + t)
  {
    ConsParts(c, t);
  }

  /** Containers and strings: the first character opens them. */
  lemma OpenerStays(nodes: Arena, id: nat, c: char, t: string)
    requires id < |nodes| && !IsWs(c) && StartMove(nodes, id, c).Stay? && FrameTail(nodes, StartMove(nodes, id, c).top, t)
    requires c == '"' || c == '{' || c == '['
    requires !nodes[id].Choice?
    ensures IsValue(nodes, id, [c] + t)
  {
    ConsParts(c, t);
    hide ObjectStart, ArrayStart, StringTail;
  }

  /** Numbers and words. */
  lemma ScalarStays(nodes: Arena, id: nat, c: char, t: string)
    requires id < |nodes| && !IsWs(c) && StartMove(nodes, id, c).Stay? && FrameTail(nodes, StartMove(nodes, id, c).top, t)
    requires c != '"' && c != '{' && c != '[' && !nodes[id].Choice?
    ensures IsValue(nodes, id, [c] + t)
  {
    hide ObjectStart, ArrayStart, StringTail, NumberTail, IsNumber, IsString;
    var n := nodes[id];
    if (n.Any? || n.Number?) && (c == '-' || IsDigit(c)) {
      NumberTails(nodes, n.Number? && n.integer, c, t);
    } else if (n.Any? || n.Bool?) && (c == 't' || c == 'f') {
      LiteralTail(nodes, if c == 't' then "true" else "false", c, t);
    } else if (n.Any? || n.Null?) && c == 'n' {
      LiteralTail(nodes, "null", c, t);
    }
  }

  lemma NumberTails(nodes: Arena, integer: bool, c: char, t: string)
    requires (c == '-' || IsDigit(c)) && FrameTail(nodes, NewNum(integer, c), t)
    ensures IsNumber(integer, [c] + t)
  {
    NumberBegins(integer, c, t);
  }

  lemma ChoiceValue(nodes: Arena, id: nat, text: string)
    requires id < |nodes| && nodes[id].Choice? && text in nodes[id].options && text != ""
    ensures IsValue(nodes, id, text)
  {}

  lemma ChoiceStays(nodes: Arena, id: nat, c: char, t: string)
    requires id < |nodes| && !IsWs(c) && nodes[id].Choice? && StartMove(nodes, id, c).Stay? && FrameTail(nodes, StartMove(nodes, id, c).top, t)
    ensures IsValue(nodes, id, [c] + t)
  {
    hide Filter, IsValue;
    ChoiceTail(nodes, nodes[id].options, c, t);
    ChoiceValue(nodes, id, [c] + t);
  }

  lemma StartInside(nodes: Arena, id: nat, c: char)
    requires !StartMove(nodes, id, c).Stop?
    ensures IsWs(c) ==> StartMove(nodes, id, c) == Stay(Value(id))
    ensures !IsWs(c) ==> id < |nodes|
    ensures StartMove(nodes, id, c).Close? ==> !IsWs(c) && nodes[id].Choice? && Settle(Filter(nodes[id].options, 0, c), 1).Close?
  {}

  lemma SpacedTail(nodes: Arena, id: nat, t: string)
    requires FrameTail(nodes, Value(id), t)
    ensures SpacedValue(nodes, id, t)
  {}

  lemma StartStays(nodes: Arena, id: nat, c: char, t: string)
    requires StartMove(nodes, id, c).Stay? && FrameTail(nodes, StartMove(nodes, id, c).top, t)
    ensures SpacedValue(nodes, id, [c] + t)
  {
    hide *;
    StartInside(nodes, id, c);
    if IsWs(c) {
      SpacedTail(nodes, id, t);
      SpacedMore(nodes, id, c, t);
    } else {
      if nodes[id].Choice? {
        ChoiceStays(nodes, id, c, t);
      } else if c == '"' || c == '{' || c == '[' {
        OpenerStays(nodes, id, c, t);
      } else {
        ScalarStays(nodes, id, c, t);
      }
      SpacedIs(nodes, id, c, t);
    }
  }

  lemma StartCloses(nodes: Arena, id: nat, c: char)
    requires StartMove(nodes, id, c).Close?
    ensures SpacedValue(nodes, id, [c])
  {
    hide *;
    StartInside(nodes, id, c);
    ChoiceEnds(nodes[id].options, c);
    ChoiceValue(nodes, id, [c]);
    assert [c] == [c] + "";
    SpacedIs(nodes, id, c, "");
  }

  /** Reading `c` takes a string from `escape` to `next`. */
  ghost predicate Leads(escape: nat, c: char, next: nat) {
    forall u :: StringTail(next, u) ==> StringTail(escape, [c] + u)
  }

  lemma LeadsAt(escape: nat, c: char, next: nat, u: string)
    requires Leads(escape, c, next) && StringTail(next, u)
    ensures StringTail(escape, [c] + u)
  {}

  /** A key that ends after `k` more characters. */
  ghost predicate KeyEndsAt(nodes: Arena, node: nat, seen: seq<nat>, key: string, escape: nat, t: string, k: nat) {
    0 < k <= |t| && StringTail(escape, t[..k])
    && CheckKey(nodes, node, seen, key + t[..k - 1]).Some?
    && ObjectColon(nodes, node, CheckKey(nodes, node, seen, key + t[..k - 1]).value, key + t[..k - 1], t[k..])
  }

  lemma KeyRestIs(nodes: Arena, node: nat, seen: seq<nat>, key: string, escape: nat, t: string)
    ensures KeyRest(nodes, node, seen, key, escape, t) <==> exists k: nat :: KeyEndsAt(nodes, node, seen, key, escape, t, k)
  {
    hide StringTail, CheckKey, ObjectColon;
    if k: nat :| KeyEndsAt(nodes, node, seen, key, escape, t, k) {
      assert StringTail(escape, t[..k]);
    }
    if KeyRest(nodes, node, seen, key, escape, t) {
      var k: nat :| 0 < k <= |t| && StringTail(escape, t[..k])
        && CheckKey(nodes, node, seen, key + t[..k - 1]).Some?
        && ObjectColon(nodes, node, CheckKey(nodes, node, seen, key + t[..k - 1]).value, key + t[..k - 1], t[k..]);
      assert KeyEndsAt(nodes, node, seen, key, escape, t, k);
    }
  }

  lemma KeyEndsLater(nodes: Arena, node: nat, seen: seq<nat>, key: string, escape: nat, c: char, next: nat, t: string, k: nat)
    requires KeyEndsAt(nodes, node, seen, key + [c], next, t, k) && Leads(escape, c, next)
    ensures KeyEndsAt(nodes, node, seen, key, escape, [c] + t, k + 1)
  {
    LeadsAt(escape, c, next, t[..k]);
    hide StringTail, CheckKey, ObjectColon, Leads;
    var s := [c] + t;
    assert s[..k + 1] == [c] + t[..k] && s[k + 1..] == t[k..];
    assert key + s[..k] == key + [c] + t[..k - 1];
  }

  lemma KeyGrows(nodes: Arena, node: nat, seen: seq<nat>, key: string, escape: nat, c: char, next: nat, t: string)
    requires KeyRest(nodes, node, seen, key + [c], next, t) && Leads(escape, c, next)
    ensures KeyRest(nodes, node, seen, key, escape, [c] + t)
  {
    hide KeyRest, KeyEndsAt, Leads;
    KeyRestIs(nodes, node, seen, key + [c], next, t);
    KeyRestIs(nodes, node, seen, key, escape, [c] + t);
    var k: nat :| KeyEndsAt(nodes, node, seen, key + [c], next, t, k);
    KeyEndsLater(nodes, node, seen, key, escape, c, next, t, k);
  }

  lemma KeyEnds(nodes: Arena, node: nat, seen: seq<nat>, key: string, t: string)
    requires CheckKey(nodes, node, seen, key).Some? && ObjectColon(nodes, node, CheckKey(nodes, node, seen, key).value, key, t)
    ensures KeyRest(nodes, node, seen, key, 0, ['"'] + t)
  {
    var s := ['"'] + t;
    assert s[..1] == ['"'] && s[1..] == t && key + s[..0] == key;
    assert StringTail(0, s[..1]);
  }

  lemma KeyStays(nodes: Arena, f: Frame, c: char, t: string)
    requires f.Obj? && f.ostate == OKey && KeyMove(nodes, f, c).Stay? && FrameTail(nodes, KeyMove(nodes, f, c).top, t)
    ensures KeyRest(nodes, f.node, f.seen, f.key, f.keyEscape, [c] + t)
  {
    hide KeyRest, ObjectColon, CheckKey, KeyPossible;
    var g := KeyMove(nodes, f, c).top;
    if g.ostate == OColon {
      KeyEnds(nodes, f.node, f.seen, f.key, t);
    } else {
      forall u | StringTail(g.keyEscape, u) ensures StringTail(f.keyEscape, [c] + u) {
        ConsParts(c, u);
      }
      KeyGrows(nodes, f.node, f.seen, f.key, f.keyEscape, c, g.keyEscape, t);
    }
  }

  lemma ObjStays(nodes: Arena, f: Frame, c: char, t: string)
    requires f.Obj? && ObjMove(nodes, f, c).Stay? && FrameTail(nodes, ObjMove(nodes, f, c).top, t)
    ensures FrameTail(nodes, f, [c] + t)
  {
    ConsParts(c, t);
    hide KeyRest, CheckKey;
    if f.ostate == OKey {
      KeyStays(nodes, f, c, t);
    }
  }

  lemma ArrStays(nodes: Arena, f: Frame, c: char, t: string)
    requires f.Arr? && ArrMove(nodes, f, c).Stay? && FrameTail(nodes, ArrMove(nodes, f, c).top, t)
    ensures FrameTail(nodes, f, [c] + t)
  {
    ConsParts(c, t);
    hide ElementRest;
  }

  lemma MoveStays(nodes: Arena, f: Frame, c: char, t: string)
    requires Sound(nodes, f) && MoveOf(nodes, f, c).Stay? && FrameTail(nodes, MoveOf(nodes, f, c).top, t)
    ensures FrameTail(nodes, f, [c] + t)
  {
    hide StartMove, ObjMove, ArrMove, StrMove, NumMove, SpacedValue, StringTail, NumberTail;
    match f
    case Value(id) => StartStays(nodes, id, c, t);
    case Str(escape, len) => StringMoves(nodes, escape, len, c, t);
    case Num(_, _, _, _, _, _, _) => NumberMoves(nodes, f, c, t);
    case Word(alts, at) => WordStays(nodes, alts, at, c, Filter(alts, at, c), t);
    case Obj(_, _, _, _, _) => ObjStays(nodes, f, c, t);
    case Arr(_, _) => ArrStays(nodes, f, c, t);
  }

  lemma StringMoves(nodes: Arena, escape: nat, len: nat, c: char, t: string)
    requires StrMove(escape, len, c).Stay? && FrameTail(nodes, StrMove(escape, len, c).top, t)
    ensures StringTail(escape, [c] + t)
  {
    StringStays(escape, len, c, t);
  }

  lemma NumberMoves(nodes: Arena, f: Frame, c: char, t: string)
    requires f.Num? && (f.expDigit ==> f.seenExp) && NumMove(f, c).Stay? && FrameTail(nodes, NumMove(f, c).top, t)
    ensures NumberTail(f, [c] + t)
  {
    NumberStays(f, c, t);
  }

  lemma MoveCloses(nodes: Arena, f: Frame, c: char)
    requires MoveOf(nodes, f, c).Close?
    ensures FrameTail(nodes, f, [c])
  {
    match f
    case Value(id) => StartCloses(nodes, id, c);
    case Word(alts, at) => WordEnds(alts, at, c, Filter(alts, at, c), nodes);
    case Str(escape, len) =>
    case Num(_, _, _, _, _, _, _) =>
    case Obj(_, _, _, _, _) => assert [c] == "}";
    case Arr(_, _) => assert [c] == "]";
  }

  // ------------------------------------------------------- the stack, one move

  lemma StackStays(nodes: Arena, below: seq<Frame>, f: Frame, g: Frame, c: char, t: string)
    requires StackTail(nodes, below + [g], t) && forall u :: FrameTail(nodes, g, u) ==> FrameTail(nodes, f, [c] + u)
    ensures StackTail(nodes, below + [f], [c] + t)
  {
    hide FrameTail, StackTail;
    var k := StackSplit(nodes, below, g, t);
    var s := [c] + t;
    assert s[..k + 1] == [c] + t[..k] && s[k + 1..] == t[k..];
    StackJoin(nodes, below, f, s, k + 1);
  }

  lemma StackCloses(nodes: Arena, below: seq<Frame>, f: Frame, c: char, t: string)
    requires Resume(below).Some? && StackTail(nodes, Resume(below).value, t) && FrameTail(nodes, f, [c])
    ensures StackTail(nodes, below + [f], [c] + t)
  {
    hide FrameTail, StackTail;
    var s := [c] + t;
    assert s[..1] == [c] && s[1..] == t;
    StackJoin(nodes, below, f, s, 1);
  }

  lemma ResumeLast(below: seq<Frame>, f: Frame)
    requires Container(f)
    ensures Resume(below + [f]) == Some(below + [if f.Obj? then f.(ostate := ONext) else f.(astate := ANext)])
  {
    var s := below + [f];
    assert s[..|s| - 1] == below;
  }

  /** A value inside a container, and what follows it there. */
  lemma InnerSplit(nodes: Arena, below: seq<Frame>, f: Frame, g: Frame, t: string) returns (k: nat, l: nat)
    requires Container(f) && StackTail(nodes, below + [f, g], t)
    ensures var next := if f.Obj? then f.(ostate := ONext) else f.(astate := ANext);
      k <= l <= |t| && FrameTail(nodes, g, t[..k]) && FrameTail(nodes, next, t[k..l])
      && Resume(below).Some? && StackTail(nodes, Resume(below).value, t[l..])
  {
    hide FrameTail, StackTail;
    assert below + [f, g] == (below + [f]) + [g];
    k := StackSplit(nodes, below + [f], g, t);
    ResumeLast(below, f);
    var next := if f.Obj? then f.(ostate := ONext) else f.(astate := ANext);
    var j := StackSplit(nodes, below, next, t[k..]);
    l := k + j;
    assert t[k..][..j] == t[k..l] && t[k..][j..] == t[l..];
  }

  lemma MemberJoin(nodes: Arena, node: nat, seen: seq<nat>, key: string, n: nat, t: string, k: nat)
    requires ValueNode(nodes, node, key) == Some(n) && k <= |t| && SpacedValue(nodes, n, t[..k]) && ObjectNext(nodes, node, seen, t[k..])
    ensures ObjectColon(nodes, node, seen, key, [':'] + t)
  {
    assert MemberRest(nodes, node, seen, key, t);
    ConsParts(':', t);
  }

  lemma StackOpens(nodes: Arena, below: seq<Frame>, f: Frame, c: char, t: string)
    requires f.Obj? && ObjMove(nodes, f, c).Open? && StackTail(nodes, below + [ObjMove(nodes, f, c).top, ObjMove(nodes, f, c).inner], t)
    ensures StackTail(nodes, below + [f], [c] + t)
  {
    hide *;
    OpenIs(nodes, f, c);
    var n := ValueNode(nodes, f.node, f.key).value;
    var g := f.(ostate := OValue);
    ContainerObj(g);
    var k, l := InnerSplit(nodes, below, g, Value(n), t);
    var u := t[..l];
    assert u[..k] == t[..k] && u[k..] == t[k..l];
    ColonTails(nodes, f, n, u, k);
    var s := [c] + t;
    assert s[..l + 1] == [':'] + u && s[l + 1..] == t[l..];
    StackJoin(nodes, below, f, s, l + 1);
  }

  lemma OpenIs(nodes: Arena, f: Frame, c: char)
    requires f.Obj? && ObjMove(nodes, f, c).Open?
    ensures f.ostate == OColon && c == ':' && ValueNode(nodes, f.node, f.key).Some?
    ensures ObjMove(nodes, f, c) == Move.Open(f.(ostate := OValue), Value(ValueNode(nodes, f.node, f.key).value))
  {
    hide CanClose, CheckKey, KeyPossible;
  }

  lemma ContainerObj(f: Frame)
    requires f.Obj?
    ensures Container(f)
  {}

  lemma ColonTails(nodes: Arena, f: Frame, n: nat, u: string, k: nat)
    requires f.Obj? && f.ostate == OColon && ValueNode(nodes, f.node, f.key) == Some(n) && k <= |u|
    requires FrameTail(nodes, Value(n), u[..k]) && FrameTail(nodes, f.(ostate := ONext), u[k..])
    ensures FrameTail(nodes, f, [':'] + u)
  {
    hide ObjectNext, SpacedValue, ObjectColon, ValueNode;
    MemberJoin(nodes, f.node, f.seen, f.key, n, u, k);
  }

  lemma ElementJoin(nodes: Arena, f: Frame, t: string, k: nat)
    requires f.Arr? && (f.astate == AStart || f.astate == AValueExpected) && 0 < |t| && !IsWs(t[0])
    requires k <= |t| && SpacedValue(nodes, Element(nodes, f.items), t[..k]) && ArrayNext(nodes, f.items, t[k..])
    ensures FrameTail(nodes, f, t)
  {
    assert t[..k] != "" ==> t[..k][0] == t[0];
    assert IsValue(nodes, Element(nodes, f.items), t[..k]);
    assert ElementRest(nodes, f.items, t);
  }

  /** An array opening an element: the element's own text is the array's. */
  lemma StackOpensElement(nodes: Arena, below: seq<Frame>, f: Frame, s: string)
    requires f.Arr? && (f.astate == AStart || f.astate == AValueExpected) && s != "" && !IsWs(s[0])
    requires StackTail(nodes, below + [f.(astate := AValue), Value(Element(nodes, f.items))], s)
    ensures StackTail(nodes, below + [f], s)
  {
    hide StackTail, SpacedValue, ArrayNext;
    var k, l := InnerSplit(nodes, below, f.(astate := AValue), Value(Element(nodes, f.items)), s);
    var u := s[..l];
    assert u[..k] == s[..k] && u[k..] == s[k..l];
    SpacedNonempty(nodes, Element(nodes, f.items), s[..k]);
    assert k > 0;
    ElementJoin(nodes, f, u, k);
    StackJoin(nodes, below, f, s, l);
  }

  lemma SpacedNonempty(nodes: Arena, id: nat, t: string)
    requires SpacedValue(nodes, id, t)
    ensures t != ""
  {}

  // ------------------------------------------------------------ one character

  lemma ApplyTail(nodes: Arena, m: Machine, c: char, t: string)
    requires m.stack != [] && Sound(nodes, Top(m)) && Apply(m, MoveOf(nodes, Top(m), c)).Alive? && StackTail(nodes, Apply(m, MoveOf(nodes, Top(m), c)).m.stack, t)
    ensures StackTail(nodes, m.stack, [c] + t)
  {
    var f, below, move := Top(m), Below(m), MoveOf(nodes, Top(m), c);
    assert m.stack == below + [f];
    hide StackTail, MoveOf, FrameTail, Sound;
    match move
    case Stay(g) =>
      forall u | FrameTail(nodes, g, u) ensures FrameTail(nodes, f, [c] + u) {
        MoveStays(nodes, f, c, u);
      }
      StackStays(nodes, below, f, g, c, t);
    case Close =>
      MoveCloses(nodes, f, c);
      StackCloses(nodes, below, f, c, t);
    case Open(g, inner) =>
      OnlyObjectsOpen(nodes, f, c);
      StackOpens(nodes, below, f, c, t);
  }

  lemma OnlyObjectsOpen(nodes: Arena, f: Frame, c: char)
    requires MoveOf(nodes, f, c).Open?
    ensures f.Obj? && MoveOf(nodes, f, c) == ObjMove(nodes, f, c)
  {
    if f.Value? {
      StartNeverOpens(nodes, c, f);
    }
  }

  lemma StartNeverOpens(nodes: Arena, c: char, f: Frame)
    requires f.Value?
    ensures !StartMove(nodes, f.id, c).Open?
  {}

  lemma OnceTail(nodes: Arena, m: Machine, c: char, t: string)
    requires (m.done <==> m.stack == []) && (m.stack != [] ==> Sound(nodes, Top(m))) && Once(nodes, m, c).Alive? && StackTail(nodes, Once(nodes, m, c).m.stack, t)
    ensures StackTail(nodes, m.stack, [c] + t)
  {
    hide StackTail, MoveOf, Apply, Sound;
    var x := Count(m, c).value;
    if x.done {
      EndTail(nodes, c, t);
    } else {
      ApplyTail(nodes, x, c, t);
    }
  }

  lemma EndTail(nodes: Arena, c: char, t: string)
    requires IsWs(c) && StackTail(nodes, [], t)
    ensures StackTail(nodes, [], [c] + t)
  {
    ConsParts(c, t);
  }

  lemma AgainTail(nodes: Arena, m: Machine, c: char, t: string)
    requires Sane(nodes, m) && Once(nodes, m, c).Again? && StackTail(nodes, Once(nodes, m, c).m.stack, [c] + t)
    ensures StackTail(nodes, m.stack, [c] + t)
  {
    var x := Count(m, c).value;
    var f, below := Top(x), Below(x);
    assert m.stack == below + [f];
    AgainMoves(nodes, f, c);
    AgainParts(nodes, f, c);
    hide StackTail, MoveOf, Sane;
    if f.Num? {
      NumberEnds(f);
      var s := [c] + t;
      assert s[..0] == "" && s[0..] == s;
      StackJoin(nodes, below, f, s, 0);
    } else {
      ConsParts(c, t);
      StackOpensElement(nodes, below, f, [c] + t);
    }
  }

  lemma AgainParts(nodes: Arena, f: Frame, c: char)
    requires MoveOf(nodes, f, c).CloseThen? || MoveOf(nodes, f, c).OpenThen?
    ensures f.Num? ==> NumComplete(f) && MoveOf(nodes, f, c).CloseThen?
    ensures !f.Num? ==> f.Arr? && MoveOf(nodes, f, c) == OpenThen(f.(astate := AValue), Value(Element(nodes, f.items))) && !IsWs(c)
  {
    AgainMoves(nodes, f, c);
  }

  /** One accepted character is one sound step of the grammar: whatever completes the state after it completes the
      state before it once the character is put in front. */
  lemma PushCharTail(nodes: Arena, m: Machine, c: char, t: string)
    requires Sane(nodes, m) && PushChar(nodes, m, c).Some? && StackTail(nodes, PushChar(nodes, m, c).value.stack, t)
    ensures StackTail(nodes, m.stack, [c] + t)
  {
    OnceSane(nodes, m, c);
    assert (m.done <==> m.stack == []) && (m.stack != [] ==> Sound(nodes, Top(m)));
    var out := Once(nodes, m, c);
    assert !out.Dead? ==> (out.m.done <==> out.m.stack == []) && (out.m.stack != [] ==> Sound(nodes, Top(out.m)));
    hide Sane, Once, StackTail;
    if out.Again? {
      OnceTail(nodes, out.m, c, t);
      AgainTail(nodes, m, c, t);
    } else {
      OnceTail(nodes, m, c, t);
    }
  }

  lemma CompleteTail(nodes: Arena, m: Machine)
    requires Sane(nodes, m) && Complete(m)
    ensures StackTail(nodes, m.stack, "")
  {
    if m.stack != [] {
      var f := m.stack[0];
      NumberEnds(f);
      assert m.stack == [] + [f] && Resume([]) == Some([]);
      assert ""[..0] == "" && ""[0..] == "";
      StackJoin(nodes, [], f, "", 0);
    }
  }

  lemma {:induction false} PushTail(nodes: Arena, m: Machine, text: string)
    requires Sane(nodes, m) && Push(nodes, m, text).Some? && Complete(Push(nodes, m, text).value)
    ensures StackTail(nodes, m.stack, text)
    decreases |text|
  {
    hide Sane, Complete, StackTail, PushChar;
    if text == "" {
      CompleteTail(nodes, m);
    } else {
      var x := PushChar(nodes, m, text[0]).value;
      PushCharSane(nodes, m, text[0]);
      PushTail(nodes, x, text[1..]);
      PushCharTail(nodes, m, text[0], text[1..]);
      assert text == [text[0]] + text[1..];
    }
  }

  lemma NoLeadingSpace(nodes: Arena, text: string)
    requires text != "" && Push(nodes, NewMachine(), text).Some?
    ensures !IsWs(text[0])
  {}

  /** Whatever a machine accepts as complete is a document of the arena it reads. */
  lemma AcceptedIsRead(nodes: Arena, text: string)
    requires Push(nodes, NewMachine(), text).Some? && Complete(Push(nodes, NewMachine(), text).value)
    ensures IsDocument(nodes, text)
  {
    NewMachineSane(nodes);
    PushTail(nodes, NewMachine(), text);
    assert NewMachine().stack == [] + [Value(0)];
    var k := StackSplit(nodes, [], Value(0), text);
    assert Resume([]) == Some([]);
    SpacedNonempty(nodes, 0, text[..k]);
    NoLeadingSpace(nodes, text);
    assert text[..k][0] == text[0];
    hide Push, IsValue;
    assert IsValue(nodes, 0, text[..k]);
  }

  /** Soundness: what the program accepts as complete is a document of the schema as it is read, so a document of the
      schema itself if the values of its enumerations are ASCII. */
  lemma AcceptedIsDocument(nodes: Arena, text: string)
    requires Push(Readable(nodes), NewMachine(), text).Some? && Complete(Push(Readable(nodes), NewMachine(), text).value)
    ensures IsDocument(Readable(nodes), text)
    ensures AsciiOptions(nodes) ==> IsDocument(nodes, text)
  {
    hide Push, IsDocument, Complete;
    AcceptedIsRead(Readable(nodes), text);
    if AsciiOptions(nodes) {
      AsciiReadable(nodes);
    }
  }
}
