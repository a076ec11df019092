/** Arrays and objects of the grammar as lists of elements and of members, in both directions. */
module Texts {
  import opened Prelude
  import opened Machines
  import opened Grammar
  import opened Documents

  // ------------------------------------------------------------ written arrays

  /** `t` closes an array, after the elements `es` and a comma before each. */
  ghost predicate WritesOn(es: seq<string>, t: string)
    decreases |es|
  {
    if es == [] then exists a :: AllWs(a) && t == a + "]"
    else exists a, b, rest :: AllWs(a) && AllWs(b) && t == a + ("," + (b + (es[0] + rest))) && WritesOn(es[1..], rest)
  }

  /** `t` is what follows the opening bracket of an array of the elements `es`. */
  ghost predicate WritesElements(es: seq<string>, t: string) {
    if es == [] then WritesOn([], t)
    else exists b, rest :: AllWs(b) && t == b + (es[0] + rest) && WritesOn(es[1..], rest)
  }

  ghost predicate WritesArray(es: seq<string>, t: string) { t != "" && t[0] == '[' && WritesElements(es, t[1..]) }

  ghost predicate WritesObject(ms: seq<Member>, t: string) { t != "" && t[0] == '{' && WritesMembers(ms, t[1..]) }

  /** Every element is a value of the node. */
  ghost predicate ElementsOk(nodes: Arena, items: nat, es: seq<string>) {
    forall i :: 0 <= i < |es| ==> IsValue(nodes, Element(nodes, items), es[i])
  }

  lemma OnSpaced(es: seq<string>, c: char, t: string)
    requires IsWs(c) && WritesOn(es, t)
    ensures WritesOn(es, [c] + t)
  {
    if es == [] {
      var a :| AllWs(a) && t == a + "]";
      SpaceMore(c, a);
      assert [c] + t == ([c] + a) + "]";
    } else {
      var a, b, rest :| AllWs(a) && AllWs(b) && t == a + ("," + (b + (es[0] + rest))) && WritesOn(es[1..], rest);
      SpaceMore(c, a);
      Longer(c, a, "," + (b + (es[0] + rest)));
    }
  }

  lemma ElementsSpaced(es: seq<string>, c: char, t: string)
    requires IsWs(c) && WritesElements(es, t)
    ensures WritesElements(es, [c] + t)
  {
    hide WritesOn;
    if es == [] {
      OnSpaced([], c, t);
    } else {
      var b, rest :| AllWs(b) && t == b + (es[0] + rest) && WritesOn(es[1..], rest);
      SpaceMore(c, b);
      Longer(c, b, es[0] + rest);
    }
  }

  /** A comma and then elements is more of the rest. */
  lemma OnAfterComma(es: seq<string>, t: string)
    requires es != [] && WritesElements(es, t)
    ensures WritesOn(es, "," + t)
  {
    var b, rest :| AllWs(b) && t == b + (es[0] + rest) && WritesOn(es[1..], rest);
    var none := "";
    assert AllWs(none) && "," + t == none + ("," + (b + (es[0] + rest)));
  }

  lemma FirstElement(e: string, es: seq<string>, rest: string)
    requires WritesOn(es, rest)
    ensures WritesElements([e] + es, e + rest)
  {
    hide WritesOn;
    var none := "";
    assert ([e] + es)[1..] == es && AllWs(none) && e + rest == none + (e + rest);
  }

  lemma OneMore(nodes: Arena, items: nat, e: string, es: seq<string>)
    requires IsValue(nodes, Element(nodes, items), e) && ElementsOk(nodes, items, es)
    ensures ElementsOk(nodes, items, [e] + es)
  {
    hide IsValue, Element;
  }

  // ------------------------------------------------- an array is its elements

  lemma RestElements(nodes: Arena, items: nat, t: string) returns (es: seq<string>)
    requires ElementRest(nodes, items, t)
    ensures es != [] && WritesElements(es, t) && ElementsOk(nodes, items, es)
    decreases |t|, 0
  {
    hide IsValue, ArrayNext, WritesElements, WritesOn, ElementsOk, Element;
    var k: nat :| k <= |t| && IsValue(nodes, Element(nodes, items), t[..k]) && ArrayNext(nodes, items, t[k..]);
    NotEmpty(nodes, Element(nodes, items), t[..k]);
    var others := NextElements(nodes, items, t[k..]);
    es := [t[..k]] + others;
    FirstElement(t[..k], others, t[k..]);
    assert t == t[..k] + t[k..];
    OneMore(nodes, items, t[..k], others);
  }

  lemma NotEmpty(nodes: Arena, id: nat, t: string)
    requires IsValue(nodes, id, t)
    ensures t != "" && id < |nodes|
  {}

  lemma {:induction false} NextElements(nodes: Arena, items: nat, t: string) returns (es: seq<string>)
    requires ArrayNext(nodes, items, t)
    ensures WritesOn(es, t) && ElementsOk(nodes, items, es)
    decreases |t|, 0
  {
    Cons(t);
    hide WritesOn, WritesElements, ElementRest;
    if IsWs(t[0]) {
      es := NextElements(nodes, items, t[1..]);
      OnSpaced(es, t[0], t[1..]);
    } else if t[0] == ',' {
      es := MoreElements(nodes, items, t[1..]);
      OnAfterComma(es, t[1..]);
      assert t == "," + t[1..];
    } else {
      es := [];
      ArrayOver();
    }
  }

  lemma ArrayOver()
    ensures WritesOn([], "]")
  {
    var none := "";
    assert AllWs(none) && "]" == none + "]";
  }

  lemma {:induction false} MoreElements(nodes: Arena, items: nat, t: string) returns (es: seq<string>)
    requires ArrayElement(nodes, items, t)
    ensures es != [] && WritesElements(es, t) && ElementsOk(nodes, items, es)
    decreases |t|, 1
  {
    Cons(t);
    hide WritesElements, ElementRest, ElementsOk;
    if IsWs(t[0]) {
      es := MoreElements(nodes, items, t[1..]);
      ElementsSpaced(es, t[0], t[1..]);
    } else {
      es := RestElements(nodes, items, t);
    }
  }

  lemma {:induction false} StartElements(nodes: Arena, items: nat, t: string) returns (es: seq<string>)
    requires ArrayStart(nodes, items, t)
    ensures WritesElements(es, t) && ElementsOk(nodes, items, es)
    decreases |t|, 1
  {
    Cons(t);
    hide WritesOn, ElementRest;
    if IsWs(t[0]) {
      es := StartElements(nodes, items, t[1..]);
      ElementsSpaced(es, t[0], t[1..]);
    } else if t == "]" {
      es := [];
      ArrayOver();
    } else {
      es := RestElements(nodes, items, t);
    }
  }

  // ------------------------------------------------------- and the other way

  /** No option begins with whitespace; a JSON text never does. */
  predicate Unspaced(nodes: Arena) {
    forall i :: 0 <= i < |nodes| && nodes[i].Choice? ==> forall o :: o in nodes[i].options ==> o == "" || !IsWs(o[0])
  }

  lemma ValueUnspaced(nodes: Arena, id: nat, t: string)
    requires Unspaced(nodes) && IsValue(nodes, id, t)
    ensures t != "" && !IsWs(t[0])
  {
    hide StringTail, ObjectStart, ArrayStart;
    if nodes[id].Number? {
      NumberUnspaced(nodes[id].integer, t);
    } else if nodes[id].Any? && IsNumber(false, t) {
      NumberUnspaced(false, t);
    }
  }

  lemma NumberUnspaced(integer: bool, t: string)
    requires IsNumber(integer, t)
    ensures t != "" && !IsWs(t[0])
  {}

  lemma SpaceParts(a: string, t: string)
    requires AllWs(a) && a != ""
    ensures (a + t)[0] == a[0] && (a + t)[1..] == a[1..] + t && a + t != "" && IsWs(a[0]) && AllWs(a[1..])
  {}

  lemma {:induction false} SkipOn(nodes: Arena, items: nat, a: string, t: string)
    requires AllWs(a) && ArrayNext(nodes, items, t)
    ensures ArrayNext(nodes, items, a + t)
    decreases |a|
  {
    if a == "" {
      assert a + t == t;
    } else {
      SpaceParts(a, t);
      SkipOn(nodes, items, a[1..], t);
    }
  }

  lemma {:induction false} SkipElement(nodes: Arena, items: nat, a: string, t: string)
    requires AllWs(a) && ArrayElement(nodes, items, t)
    ensures ArrayElement(nodes, items, a + t)
    decreases |a|
  {
    hide ElementRest;
    if a == "" {
      assert a + t == t;
    } else {
      SpaceParts(a, t);
      SkipElement(nodes, items, a[1..], t);
    }
  }

  lemma {:induction false} SkipStart(nodes: Arena, items: nat, a: string, t: string)
    requires AllWs(a) && ArrayStart(nodes, items, t)
    ensures ArrayStart(nodes, items, a + t)
    decreases |a|
  {
    hide ElementRest;
    if a == "" {
      assert a + t == t;
    } else {
      SpaceParts(a, t);
      SkipStart(nodes, items, a[1..], t);
    }
  }

  lemma ElementThen(nodes: Arena, items: nat, e: string, rest: string)
    requires Unspaced(nodes) && IsValue(nodes, Element(nodes, items), e) && ArrayNext(nodes, items, rest)
    ensures ArrayElement(nodes, items, e + rest) && ArrayStart(nodes, items, e + rest)
  {
    ValueUnspaced(nodes, Element(nodes, items), e);
    var t, k := e + rest, |e|;
    assert t[..k] == e && t[k..] == rest && t[0] == e[0];
    hide IsValue, ArrayNext, Element;
    assert ElementRest(nodes, items, t);
  }

  lemma CommaOn(nodes: Arena, items: nat, t: string)
    requires ArrayElement(nodes, items, t)
    ensures ArrayNext(nodes, items, "," + t)
  {
    assert ("," + t)[0] == ',' && ("," + t)[1..] == t;
  }

  lemma BracketOn(nodes: Arena, items: nat)
    ensures ArrayNext(nodes, items, "]") && ArrayStart(nodes, items, "]")
  {}

  lemma OnFirst(es: seq<string>, t: string) returns (a: string, b: string, rest: string)
    requires es != [] && WritesOn(es, t)
    ensures AllWs(a) && AllWs(b) && t == a + ("," + (b + (es[0] + rest))) && WritesOn(es[1..], rest)
  {
    a, b, rest :| AllWs(a) && AllWs(b) && t == a + ("," + (b + (es[0] + rest))) && WritesOn(es[1..], rest);
  }

  lemma OnNone(t: string) returns (a: string)
    requires WritesOn([], t)
    ensures AllWs(a) && t == a + "]"
  {
    a :| AllWs(a) && t == a + "]";
  }

  lemma ElementsParts(nodes: Arena, items: nat, es: seq<string>)
    requires es != [] && ElementsOk(nodes, items, es)
    ensures IsValue(nodes, Element(nodes, items), es[0]) && ElementsOk(nodes, items, es[1..])
  {
    hide IsValue, Element;
  }

  lemma {:induction false} OnRead(nodes: Arena, items: nat, es: seq<string>, t: string)
    requires Unspaced(nodes) && WritesOn(es, t) && ElementsOk(nodes, items, es)
    ensures ArrayNext(nodes, items, t)
    decreases |es|
  {
    hide *;
    if es == [] {
      var a := OnNone(t);
      BracketOn(nodes, items);
      SkipOn(nodes, items, a, "]");
    } else {
      var a, b, rest := OnFirst(es, t);
      ElementsParts(nodes, items, es);
      OnRead(nodes, items, es[1..], rest);
      ElementThen(nodes, items, es[0], rest);
      SkipElement(nodes, items, b, es[0] + rest);
      CommaOn(nodes, items, b + (es[0] + rest));
      SkipOn(nodes, items, a, "," + (b + (es[0] + rest)));
    }
  }

  lemma ElementsFirst(es: seq<string>, t: string) returns (b: string, rest: string)
    requires es != [] && WritesElements(es, t)
    ensures AllWs(b) && t == b + (es[0] + rest) && WritesOn(es[1..], rest)
  {
    b, rest :| AllWs(b) && t == b + (es[0] + rest) && WritesOn(es[1..], rest);
  }

  lemma ElementsNone(t: string)
    requires WritesElements([], t)
    ensures WritesOn([], t)
  {}

  lemma ElementsRead(nodes: Arena, items: nat, es: seq<string>, t: string)
    requires Unspaced(nodes) && WritesElements(es, t) && ElementsOk(nodes, items, es)
    ensures ArrayStart(nodes, items, t)
  {
    hide *;
    if es == [] {
      ElementsNone(t);
      var a := OnNone(t);
      BracketOn(nodes, items);
      SkipStart(nodes, items, a, "]");
    } else {
      var b, rest := ElementsFirst(es, t);
      ElementsParts(nodes, items, es);
      OnRead(nodes, items, es[1..], rest);
      ElementThen(nodes, items, es[0], rest);
      SkipStart(nodes, items, b, es[0] + rest);
    }
  }

  /** What follows an opening bracket, as the grammar reads it and as it is written. */
  lemma ArrayIff(nodes: Arena, items: nat, t: string)
    requires Unspaced(nodes)
    ensures ArrayStart(nodes, items, t) <==> exists es :: WritesElements(es, t) && ElementsOk(nodes, items, es)
  {
    hide *;
    if ArrayStart(nodes, items, t) {
      var es := StartElements(nodes, items, t);
    }
    if es :| WritesElements(es, t) && ElementsOk(nodes, items, es) {
      ElementsRead(nodes, items, es, t);
    }
  }

  // --------------------------------------------------------- objects from members

  lemma {:induction false} SkipValue(nodes: Arena, id: nat, a: string, t: string)
    requires AllWs(a) && SpacedValue(nodes, id, t)
    ensures SpacedValue(nodes, id, a + t)
    decreases |a|
  {
    hide IsValue;
    if a == "" {
      assert a + t == t;
    } else {
      SpaceParts(a, t);
      SkipValue(nodes, id, a[1..], t);
    }
  }

  lemma {:induction false} SkipOpen(nodes: Arena, node: nat, seen: seq<nat>, a: string, t: string)
    requires AllWs(a) && ObjectStart(nodes, node, seen, t)
    ensures ObjectStart(nodes, node, seen, a + t)
    decreases |a|
  {
    hide KeyRest, CanClose;
    if a == "" {
      assert a + t == t;
    } else {
      SpaceParts(a, t);
      SkipOpen(nodes, node, seen, a[1..], t);
    }
  }

  lemma {:induction false} SkipKey(nodes: Arena, node: nat, seen: seq<nat>, a: string, t: string)
    requires AllWs(a) && ObjectKey(nodes, node, seen, t)
    ensures ObjectKey(nodes, node, seen, a + t)
    decreases |a|
  {
    hide KeyRest;
    if a == "" {
      assert a + t == t;
    } else {
      SpaceParts(a, t);
      SkipKey(nodes, node, seen, a[1..], t);
    }
  }

  lemma {:induction false} SkipColon(nodes: Arena, node: nat, seen: seq<nat>, key: string, a: string, t: string)
    requires AllWs(a) && ObjectColon(nodes, node, seen, key, t)
    ensures ObjectColon(nodes, node, seen, key, a + t)
    decreases |a|
  {
    hide MemberRest;
    if a == "" {
      assert a + t == t;
    } else {
      SpaceParts(a, t);
      SkipColon(nodes, node, seen, key, a[1..], t);
    }
  }

  lemma {:induction false} SkipNext(nodes: Arena, node: nat, seen: seq<nat>, a: string, t: string)
    requires AllWs(a) && ObjectNext(nodes, node, seen, t)
    ensures ObjectNext(nodes, node, seen, a + t)
    decreases |a|
  {
    hide ObjectKey, CanClose;
    if a == "" {
      assert a + t == t;
    } else {
      SpaceParts(a, t);
      SkipNext(nodes, node, seen, a[1..], t);
    }
  }

  lemma SpacedOne(nodes: Arena, id: nat, value: string)
    requires IsValue(nodes, id, value) && value != "" && !IsWs(value[0])
    ensures SpacedValue(nodes, id, value)
  {
    hide IsValue;
  }

  lemma MemberThen(nodes: Arena, node: nat, seen: seq<nat>, key: string, n: nat, value: string, rest: string)
    requires ValueNode(nodes, node, key) == Some(n) && SpacedValue(nodes, n, value) && ObjectNext(nodes, node, seen, rest)
    ensures ObjectColon(nodes, node, seen, key, ":" + (value + rest))
  {
    var t, k := value + rest, |value|;
    assert t[..k] == value && t[k..] == rest;
    hide SpacedValue, ObjectNext, ValueNode;
    assert MemberRest(nodes, node, seen, key, t);
    assert (":" + t)[0] == ':' && (":" + t)[1..] == t;
  }

  lemma ColonThen(nodes: Arena, node: nat, seen: seq<nat>, key: string, b: string, c: string, value: string, rest: string)
    requires Unspaced(nodes) && ValueNode(nodes, node, key).Some? && IsValue(nodes, ValueNode(nodes, node, key).value, value)
    requires AllWs(b) && AllWs(c) && ObjectNext(nodes, node, seen, rest)
    ensures ObjectColon(nodes, node, seen, key, b + (":" + ((c + value) + rest)))
  {
    hide *;
    var n := ValueNode(nodes, node, key).value;
    ValueUnspaced(nodes, n, value);
    SpacedOne(nodes, n, value);
    SkipValue(nodes, n, c, value);
    MemberThen(nodes, node, seen, key, n, c + value, rest);
    SkipColon(nodes, node, seen, key, b, ":" + ((c + value) + rest));
  }

  lemma NameThen(nodes: Arena, node: nat, seen: seq<nat>, key: string, u: string)
    requires StringTail(0, key + "\"") && CheckKey(nodes, node, seen, key).Some?
    requires ObjectColon(nodes, node, CheckKey(nodes, node, seen, key).value, key, u)
    ensures KeyRest(nodes, node, seen, "", 0, (key + "\"") + u)
  {
    var t, k := (key + "\"") + u, |key| + 1;
    assert t[..k] == key + "\"" && t[k..] == u && "" + t[..k - 1] == key;
    hide StringTail, CheckKey, ObjectColon;
    assert StringTail(0, t[..k]);
  }

  lemma QuoteThen(nodes: Arena, node: nat, seen: seq<nat>, t: string)
    requires KeyRest(nodes, node, seen, "", 0, t)
    ensures ObjectKey(nodes, node, seen, "\"" + t) && ObjectStart(nodes, node, seen, "\"" + t)
  {
    assert ("\"" + t)[0] == '"' && ("\"" + t)[1..] == t;
    hide KeyRest;
  }

  lemma Regrouped(a: string, key: string, b: string, c: string, value: string, rest: string)
    ensures (a + "\"" + key + "\"" + b + ":" + c + value) + rest == a + ("\"" + ((key + "\"") + (b + (":" + ((c + value) + rest)))))
  {}

  /** A written member, and after it what may follow one. */
  lemma MemberRead(nodes: Arena, node: nat, seen: seq<nat>, m: Member, head: string, rest: string)
    requires Unspaced(nodes) && WritesMember(m, head) && StringTail(0, m.key + "\"")
    requires CheckKey(nodes, node, seen, m.key).Some? && ValueNode(nodes, node, m.key).Some?
    requires IsValue(nodes, MemberNode(nodes, node, m.key), m.value)
    requires ObjectNext(nodes, node, CheckKey(nodes, node, seen, m.key).value, rest)
    ensures ObjectKey(nodes, node, seen, head + rest) && ObjectStart(nodes, node, seen, head + rest)
  {
    hide *;
    var a, b, c := MemberIs(m, head);
    var now := CheckKey(nodes, node, seen, m.key).value;
    MemberNodeIs(nodes, node, m.key);
    ColonThen(nodes, node, now, m.key, b, c, m.value, rest);
    var u := b + (":" + ((c + m.value) + rest));
    NameThen(nodes, node, seen, m.key, u);
    QuoteThen(nodes, node, seen, (m.key + "\"") + u);
    SkipKey(nodes, node, seen, a, "\"" + ((m.key + "\"") + u));
    SkipOpen(nodes, node, seen, a, "\"" + ((m.key + "\"") + u));
    Regrouped(a, m.key, b, c, m.value, rest);
  }

  lemma MemberIs(m: Member, t: string) returns (a: string, b: string, c: string)
    requires WritesMember(m, t)
    ensures AllWs(a) && AllWs(b) && AllWs(c) && t == a + "\"" + m.key + "\"" + b + ":" + c + m.value
  {
    a, b, c :| AllWs(a) && AllWs(b) && AllWs(c) && t == a + "\"" + m.key + "\"" + b + ":" + c + m.value;
  }

  lemma MemberNodeIs(nodes: Arena, node: nat, key: string)
    requires ValueNode(nodes, node, key).Some?
    ensures MemberNode(nodes, node, key) == ValueNode(nodes, node, key).value
  {}

  lemma AdmittedFirst(nodes: Arena, node: nat, seen: seq<nat>, ms: seq<Member>)
    requires ms != [] && Admitted(nodes, node, seen, ms)
    ensures StringTail(0, ms[0].key + "\"") && CheckKey(nodes, node, seen, ms[0].key).Some? && ValueNode(nodes, node, ms[0].key).Some?
    ensures IsValue(nodes, MemberNode(nodes, node, ms[0].key), ms[0].value)
    ensures Admitted(nodes, node, CheckKey(nodes, node, seen, ms[0].key).value, ms[1..])
  {}

  lemma AdmittedNone(nodes: Arena, node: nat, seen: seq<nat>)
    requires Admitted(nodes, node, seen, [])
    ensures ObjectNext(nodes, node, seen, "}") && ObjectStart(nodes, node, seen, "}")
  {}

  lemma RestFirst(ms: seq<Member>, t: string) returns (a: string, head: string, rest: string)
    requires ms != [] && WritesRest(ms, t)
    ensures AllWs(a) && t == a + ("," + (head + rest)) && WritesMember(ms[0], head) && WritesRest(ms[1..], rest)
  {
    hide WritesMember;
    a, head, rest :| AllWs(a) && t == a + ("," + head + rest) && WritesMember(ms[0], head) && WritesRest(ms[1..], rest);
    hide *;
    Commas(head, rest);
  }

  lemma Commas(head: string, rest: string)
    ensures "," + head + rest == "," + (head + rest)
  {}

  lemma RestNone(t: string) returns (a: string)
    requires WritesRest([], t)
    ensures AllWs(a) && t == a + "}"
  {
    a :| AllWs(a) && t == a + "}";
  }

  lemma CommaNext(nodes: Arena, node: nat, seen: seq<nat>, t: string)
    requires ObjectKey(nodes, node, seen, t)
    ensures ObjectNext(nodes, node, seen, "," + t)
  {
    assert ("," + t)[0] == ',' && ("," + t)[1..] == t;
  }

  lemma {:induction false} RestRead(nodes: Arena, node: nat, seen: seq<nat>, ms: seq<Member>, t: string)
    requires Unspaced(nodes) && WritesRest(ms, t) && Admitted(nodes, node, seen, ms)
    ensures ObjectNext(nodes, node, seen, t)
    decreases |ms|
  {
    hide *;
    if ms == [] {
      var a := RestNone(t);
      AdmittedNone(nodes, node, seen);
      SkipNext(nodes, node, seen, a, "}");
    } else {
      var a, head, rest := RestFirst(ms, t);
      AdmittedFirst(nodes, node, seen, ms);
      RestRead(nodes, node, CheckKey(nodes, node, seen, ms[0].key).value, ms[1..], rest);
      MemberRead(nodes, node, seen, ms[0], head, rest);
      CommaNext(nodes, node, seen, head + rest);
      SkipNext(nodes, node, seen, a, "," + (head + rest));
    }
  }

  lemma MembersFirstIs(ms: seq<Member>, t: string) returns (head: string, rest: string)
    requires ms != [] && WritesMembers(ms, t)
    ensures t == head + rest && WritesMember(ms[0], head) && WritesRest(ms[1..], rest)
  {
    head, rest :| t == head + rest && WritesMember(ms[0], head) && WritesRest(ms[1..], rest);
  }

  lemma MembersNone(t: string)
    requires WritesMembers([], t)
    ensures WritesRest([], t)
  {}

  lemma MembersRead(nodes: Arena, node: nat, seen: seq<nat>, ms: seq<Member>, t: string)
    requires Unspaced(nodes) && WritesMembers(ms, t) && Admitted(nodes, node, seen, ms)
    ensures ObjectStart(nodes, node, seen, t)
  {
    hide *;
    if ms == [] {
      MembersNone(t);
      var a := RestNone(t);
      AdmittedNone(nodes, node, seen);
      SkipOpen(nodes, node, seen, a, "}");
    } else {
      var head, rest := MembersFirstIs(ms, t);
      AdmittedFirst(nodes, node, seen, ms);
      RestRead(nodes, node, CheckKey(nodes, node, seen, ms[0].key).value, ms[1..], rest);
      MemberRead(nodes, node, seen, ms[0], head, rest);
    }
  }

  // ------------------------------------------------ members in turn, and at once

  /** Required indices name the first property of their name, as the compiler makes them. */
  ghost predicate RequiredFirst(o: Node)
    requires o.Object?
  {
    forall r :: r in o.required ==> r < |o.properties| && Find(o.properties, o.properties[r].0) == Some(r)
  }

  lemma {:induction false} AdmittedFrom(nodes: Arena, id: nat, seen: seq<nat>, ms: seq<Member>)
    requires id < |nodes| && id != Free && nodes[id].Object? && RequiredFirst(nodes[id]) && MembersAfter(nodes, id, seen, ms)
    ensures Admitted(nodes, id, seen, ms)
    decreases |ms|
  {
    if ms == [] {
      NothingRequired(nodes, id, seen);
    } else {
      var key := ms[0].key;
      KeyOpen(nodes, id, seen, ms);
      KeyTaken(nodes[id], seen, key, nodes, id);
      var now := CheckKey(nodes, id, seen, key).value;
      hide StringTail, IsValue, CheckKey, ValueNode, MemberNode, Find, MembersAfter, RequiredFirst;
      MembersShrink(nodes, id, seen, now, ms);
      AdmittedFrom(nodes, id, now, ms[1..]);
      FirstOk(nodes, id, seen, ms);
    }
  }

  lemma NothingRequired(nodes: Arena, id: nat, seen: seq<nat>)
    requires id < |nodes| && nodes[id].Object? && RequiredFirst(nodes[id]) && MembersAfter(nodes, id, seen, [])
    ensures Admitted(nodes, id, seen, [])
  {
    hide Find;
    forall r | r in nodes[id].required ensures r in seen {
      assert !Present([], nodes[id].properties[r].0);
    }
  }

  lemma FirstOk(nodes: Arena, id: nat, seen: seq<nat>, ms: seq<Member>)
    requires id < |nodes| && nodes[id].Object? && ms != [] && MembersAfter(nodes, id, seen, ms)
    ensures StringTail(0, ms[0].key + "\"") && IsValue(nodes, MemberNode(nodes, id, ms[0].key), ms[0].value)
  {
    hide StringTail, IsValue, MemberNode, Find, Declared, Present;
  }

  lemma KeyOpen(nodes: Arena, id: nat, seen: seq<nat>, ms: seq<Member>)
    requires id < |nodes| && id != Free && nodes[id].Object? && ms != [] && MembersAfter(nodes, id, seen, ms)
    ensures CheckKey(nodes, id, seen, ms[0].key).Some? && ValueNode(nodes, id, ms[0].key).Some?
  {
    FindDeclared(nodes[id].properties, ms[0].key);
    hide StringTail, IsValue, Find, Declared, Present, MemberNode;
  }

  lemma MembersShrink(nodes: Arena, id: nat, seen: seq<nat>, now: seq<nat>, ms: seq<Member>)
    requires id < |nodes| && nodes[id].Object? && RequiredFirst(nodes[id]) && ms != [] && MembersAfter(nodes, id, seen, ms)
    requires FirstTaken(nodes[id], seen, now, ms[0].key)
    ensures MembersAfter(nodes, id, now, ms[1..])
  {
    var o, rest := nodes[id], ms[1..];
    hide StringTail, IsValue, MemberNode, Find, Declared, Present;
    assert forall i :: 0 <= i < |rest| ==> rest[i] == ms[i + 1];
    forall i | 0 <= i < |rest| && Find(o.properties, rest[i].key).Some? ensures Find(o.properties, rest[i].key).value !in now {
      StillOpenKey(nodes, id, seen, now, ms, i + 1);
    }
    forall r | r in o.required && r < |o.properties| ensures r in now || Present(rest, o.properties[r].0) {
      StillRequired(nodes, id, seen, now, ms, r);
    }
  }

  lemma StillOpenKey(nodes: Arena, id: nat, seen: seq<nat>, now: seq<nat>, ms: seq<Member>, i: nat)
    requires id < |nodes| && nodes[id].Object? && 0 < i < |ms| && MembersAfter(nodes, id, seen, ms)
    requires FirstTaken(nodes[id], seen, now, ms[0].key) && Find(nodes[id].properties, ms[i].key).Some?
    ensures Find(nodes[id].properties, ms[i].key).value !in now
  {
    var props := nodes[id].properties;
    FindDeclared(props, ms[0].key);
    Documents.FindNames(props, ms[0].key);
    Documents.FindNames(props, ms[i].key);
    hide StringTail, IsValue, MemberNode, Find, Declared, Present;
  }

  lemma StillRequired(nodes: Arena, id: nat, seen: seq<nat>, now: seq<nat>, ms: seq<Member>, r: nat)
    requires id < |nodes| && nodes[id].Object? && RequiredFirst(nodes[id]) && ms != [] && MembersAfter(nodes, id, seen, ms)
    requires FirstTaken(nodes[id], seen, now, ms[0].key) && r in nodes[id].required && r < |nodes[id].properties|
    ensures r in now || Present(ms[1..], nodes[id].properties[r].0)
  {
    hide StringTail, IsValue, MemberNode, Find, Declared;
    var name := nodes[id].properties[r].0;
    if r !in seen && ms[0].key != name {
      var i :| 0 <= i < |ms| && ms[i].key == name;
      assert ms[1..][i - 1].key == name;
    }
  }

  /** An object of that node, as the grammar reads it and as its members say. */
  lemma ObjectIff(nodes: Arena, id: nat, t: string)
    requires Unspaced(nodes) && id < |nodes| <= Free && nodes[id].Object? && RequiredFirst(nodes[id])
    ensures ObjectStart(nodes, id, [], t) <==> exists ms :: WritesMembers(ms, t) && MembersOk(nodes, id, ms)
  {
    hide *;
    if ObjectStart(nodes, id, [], t) {
      var ms := StartMembers(nodes, id, [], t);
      AdmittedMeans(nodes, id, [], ms);
      MembersFromNone(nodes, id, ms);
    }
    if ms :| WritesMembers(ms, t) && MembersOk(nodes, id, ms) {
      MembersToNone(nodes, id, ms);
      AdmittedFrom(nodes, id, [], ms);
      MembersRead(nodes, id, [], ms, t);
    }
  }

  lemma MembersToNone(nodes: Arena, id: nat, ms: seq<Member>)
    requires id < |nodes| && nodes[id].Object? && MembersOk(nodes, id, ms)
    ensures MembersAfter(nodes, id, [], ms)
  {
    hide StringTail, IsValue, MemberNode, Find, Present, Declared;
  }

  // ------------------------------------------------------------ free-form objects

  /** Any members whatever. */
  ghost predicate FreeMembers(nodes: Arena, ms: seq<Member>) {
    forall i :: 0 <= i < |ms| ==> StringTail(0, ms[i].key + "\"") && IsValue(nodes, AnyNode(nodes), ms[i].value)
  }

  lemma {:induction false} FreeAdmitted(nodes: Arena, ms: seq<Member>)
    ensures Admitted(nodes, Free, [], ms) <==> FreeMembers(nodes, ms)
    decreases |ms|
  {
    hide StringTail, IsValue, AnyNode;
    if ms != [] {
      FreeAdmitted(nodes, ms[1..]);
      FreeFirst(nodes, ms);
      assert CheckKey(nodes, Free, [], ms[0].key) == Some([]) && ValueNode(nodes, Free, ms[0].key) == Some(AnyNode(nodes));
      hide FreeMembers;
    }
  }

  lemma FreeFirst(nodes: Arena, ms: seq<Member>)
    requires ms != []
    ensures FreeMembers(nodes, ms) <==>
      StringTail(0, ms[0].key + "\"") && IsValue(nodes, AnyNode(nodes), ms[0].value) && FreeMembers(nodes, ms[1..])
  {
    hide StringTail, IsValue, AnyNode;
    assert forall i :: 0 < i < |ms| ==> ms[i] == ms[1..][i - 1];
  }

  lemma FreeObjectIff(nodes: Arena, t: string)
    requires Unspaced(nodes)
    ensures ObjectStart(nodes, Free, [], t) <==> exists ms :: WritesMembers(ms, t) && FreeMembers(nodes, ms)
  {
    hide *;
    if ObjectStart(nodes, Free, [], t) {
      var ms := StartMembers(nodes, Free, [], t);
      FreeAdmitted(nodes, ms);
    }
    if ms :| WritesMembers(ms, t) && FreeMembers(nodes, ms) {
      FreeAdmitted(nodes, ms);
      MembersRead(nodes, Free, [], ms, t);
    }
  }
}
