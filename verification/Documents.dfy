/** An object of the grammar, unfolded into its members: what the rules that thread `seen` amount to. */
module Documents {
  import opened Prelude
  import opened Machines
  import opened Grammar

  /** A name as it is spelled between its quotes, and the text of a value. */
  datatype Member = Member(key: string, value: string)

  // ------------------------------------------------------------ written members

  /** `t` is the member, with whitespace where section 2 of RFC 8259 allows it. */
  ghost predicate WritesMember(m: Member, t: string) {
    exists a, b, c :: AllWs(a) && AllWs(b) && AllWs(c) && t == a + "\"" + m.key + "\"" + b + ":" + c + m.value
  }

  /** `t` closes an object, after the members `ms` and a comma before each. */
  ghost predicate WritesRest(ms: seq<Member>, t: string)
    decreases |ms|
  {
    if ms == [] then exists a :: AllWs(a) && t == a + "}"
    else exists a, head, rest :: AllWs(a) && t == a + ("," + head + rest) && WritesMember(ms[0], head) && WritesRest(ms[1..], rest)
  }

  /** `t` is what follows the opening brace of an object with the members `ms`. */
  ghost predicate WritesMembers(ms: seq<Member>, t: string) {
    if ms == [] then WritesRest([], t)
    else exists head, rest :: t == head + rest && WritesMember(ms[0], head) && WritesRest(ms[1..], rest)
  }

  lemma MemberSpaced(m: Member, c: char, t: string)
    requires IsWs(c) && WritesMember(m, t)
    ensures WritesMember(m, [c] + t)
  {
    var a, b, d :| AllWs(a) && AllWs(b) && AllWs(d) && t == a + "\"" + m.key + "\"" + b + ":" + d + m.value;
    assert AllWs([c] + a);
    assert [c] + t == ([c] + a) + "\"" + m.key + "\"" + b + ":" + d + m.value;
  }

  lemma RestSpaced(ms: seq<Member>, c: char, t: string)
    requires IsWs(c) && WritesRest(ms, t)
    ensures WritesRest(ms, [c] + t)
  {
    if ms == [] {
      var a :| AllWs(a) && t == a + "}";
      assert AllWs([c] + a) && [c] + t == ([c] + a) + "}";
    } else {
      var a, head, rest :| AllWs(a) && t == a + ("," + head + rest) && WritesMember(ms[0], head) && WritesRest(ms[1..], rest);
      SpaceMore(c, a);
      Longer(c, a, "," + head + rest);
      hide WritesMember;
    }
  }

  lemma MembersSpaced(ms: seq<Member>, c: char, t: string)
    requires IsWs(c) && WritesMembers(ms, t)
    ensures WritesMembers(ms, [c] + t)
  {
    hide WritesMember, WritesRest;
    if ms == [] {
      RestSpaced([], c, t);
    } else {
      var head, rest :| t == head + rest && WritesMember(ms[0], head) && WritesRest(ms[1..], rest);
      MemberSpaced(ms[0], c, head);
      assert [c] + t == ([c] + head) + rest;
    }
  }

  /** A comma and then members is more of the rest. */
  lemma RestAfterComma(ms: seq<Member>, t: string)
    requires ms != [] && WritesMembers(ms, t)
    ensures WritesRest(ms, "," + t)
  {
    hide WritesMember;
    var head, rest :| t == head + rest && WritesMember(ms[0], head) && WritesRest(ms[1..], rest);
    var none := "";
    NoBlankComma(head, rest);
    assert AllWs(none) && "," + t == none + ("," + head + rest);
  }

  lemma NoBlankComma(head: string, rest: string)
    ensures "," + (head + rest) == "" + ("," + head + rest)
  {}

  // ---------------------------------------------------- members one may have

  /** The node a member's value must satisfy. */
  function MemberNode(nodes: Arena, node: nat, key: string): nat {
    match ValueNode(nodes, node, key)
    case None => Free
    case Some(id) => id
  }

  /** The members, in turn, with `seen` before the first of them. */
  ghost predicate Admitted(nodes: Arena, node: nat, seen: seq<nat>, ms: seq<Member>)
    decreases |ms|
  {
    if ms == [] then CanClose(nodes, node, seen)
    else
      StringTail(0, ms[0].key + "\"")
      && CheckKey(nodes, node, seen, ms[0].key).Some? && ValueNode(nodes, node, ms[0].key).Some?
      && IsValue(nodes, MemberNode(nodes, node, ms[0].key), ms[0].value)
      && Admitted(nodes, node, CheckKey(nodes, node, seen, ms[0].key).value, ms[1..])
  }

  // ----------------------------------------------------- unfolding the grammar

  lemma Cons(t: string)
    requires t != ""
    ensures t == [t[0]] + t[1..]
  {}

  lemma {:induction false} TailEnds(escape: nat, t: string)
    requires StringTail(escape, t)
    ensures t != "" && t[|t| - 1] == '"'
    decreases |t|
  {
    if |t| > 1 {
      TailEnds(if escape == 5 then if t[0] == 'u' then 4 else 0 else if escape > 0 then escape - 1 else if t[0] == '\\' then 5 else 0, t[1..]);
      assert t[1..][|t[1..]| - 1] == t[|t| - 1];
    }
  }

  lemma {:induction false} ValueAfterSpace(nodes: Arena, id: nat, t: string) returns (c: string, value: string)
    requires SpacedValue(nodes, id, t)
    ensures AllWs(c) && t == c + value && IsValue(nodes, id, value)
    decreases |t|
  {
    Cons(t);
    if IsWs(t[0]) {
      var rest;
      rest, value := ValueAfterSpace(nodes, id, t[1..]);
      c := [t[0]] + rest;
      assert c + value == [t[0]] + (rest + value);
    } else {
      c, value := "", t;
    }
  }

  /** From the colon on: whitespace, the colon, whitespace, the value, and the other members. */
  lemma {:induction false} ColonParts(nodes: Arena, node: nat, seen: seq<nat>, key: string, t: string)
      returns (b: string, c: string, value: string, rest: string)
    requires ObjectColon(nodes, node, seen, key, t)
    ensures AllWs(b) && AllWs(c) && t == b + ":" + c + value + rest && |rest| < |t|
    ensures ValueNode(nodes, node, key).Some? && IsValue(nodes, MemberNode(nodes, node, key), value) && ObjectNext(nodes, node, seen, rest)
    decreases |t|
  {
    hide SpacedValue, IsValue, ObjectNext, KeyRest;
    Cons(t);
    if IsWs(t[0]) {
      var more;
      more, c, value, rest := ColonParts(nodes, node, seen, key, t[1..]);
      b := [t[0]] + more;
      hide *;
      Longer(t[0], more, ":" + c + value + rest);
      Colons(more, c, value, rest);
      Colons(b, c, value, rest);
      SpaceMore(t[0], more);
    } else {
      b := "";
      c, value, rest := ValueParts(nodes, node, seen, key, t[1..]);
      hide *;
      NoSpace(t, c + value + rest);
      Colons("", c, value, rest);
      NoBlank(c, value, rest);
    }
  }

  lemma ValueParts(nodes: Arena, node: nat, seen: seq<nat>, key: string, u: string) returns (c: string, value: string, rest: string)
    requires MemberRest(nodes, node, seen, key, u)
    ensures AllWs(c) && u == c + value + rest && |rest| <= |u|
    ensures ValueNode(nodes, node, key).Some? && IsValue(nodes, MemberNode(nodes, node, key), value) && ObjectNext(nodes, node, seen, rest)
  {
    hide SpacedValue, IsValue, ObjectNext, ValueNode;
    var k: nat :| k <= |u| && SpacedValue(nodes, ValueNode(nodes, node, key).value, u[..k]) && ObjectNext(nodes, node, seen, u[k..]);
    c, value := ValueAfterSpace(nodes, ValueNode(nodes, node, key).value, u[..k]);
    rest := u[k..];
    assert u == u[..k] + rest;
  }

  lemma NoSpace(t: string, x: string)
    requires t != "" && t[0] == ':' && t[1..] == x
    ensures t == ":" + x
  {}

  lemma NoBlank(c: string, value: string, rest: string)
    ensures "" + (":" + c + value + rest) == ":" + (c + value + rest)
  {}

  lemma Longer(c: char, a: string, x: string)
    ensures [c] + (a + x) == ([c] + a) + x
  {}

  lemma Colons(b: string, c: string, value: string, rest: string)
    ensures b + ":" + c + value + rest == b + (":" + c + value + rest)
  {}

  lemma SpaceMore(c: char, a: string)
    requires IsWs(c) && AllWs(a)
    ensures AllWs([c] + a)
  {}

  /** After a key's opening quote. */
  lemma KeyMembers(nodes: Arena, node: nat, seen: seq<nat>, t: string) returns (ms: seq<Member>)
    requires KeyRest(nodes, node, seen, "", 0, t)
    ensures ms != [] && WritesMembers(ms, "\"" + t) && Admitted(nodes, node, seen, ms)
    decreases |t|
  {
    var k: nat :| 0 < k <= |t| && StringTail(0, t[..k])
      && CheckKey(nodes, node, seen, "" + t[..k - 1]).Some?
      && ObjectColon(nodes, node, CheckKey(nodes, node, seen, "" + t[..k - 1]).value, "" + t[..k - 1], t[k..]);
    var key := t[..k - 1];
    assert "" + key == key;
    var now := CheckKey(nodes, node, seen, key).value;
    TailEnds(0, t[..k]);
    assert t[..k] == key + "\"";
    hide StringTail, CheckKey, IsValue;
    var b, c, value, rest := ColonParts(nodes, node, now, key, t[k..]);
    var others := NextMembers(nodes, node, now, rest);
    ms := [Member(key, value)] + others;
    KeyWrites(key, b, c, value, rest, t, k, others);
  }

  lemma KeyWrites(key: string, b: string, c: string, value: string, rest: string, t: string, k: nat, others: seq<Member>)
    requires AllWs(b) && AllWs(c) && k <= |t| && t[..k] == key + "\"" && t[k..] == b + ":" + c + value + rest && WritesRest(others, rest)
    ensures WritesMembers([Member(key, value)] + others, "\"" + t)
  {
    hide *;
    var x := b + ":" + c + value;
    var head := "\"" + key + "\"" + x;
    Quoted(key, x, rest, t, k);
    Flatten("\"" + key + "\"", b, c, value);
    MemberWritten(key, b, c, value, head);
    MembersFirst(Member(key, value), others, head, rest);
  }

  lemma Quoted(key: string, x: string, rest: string, t: string, k: nat)
    requires k <= |t| && t[..k] == key + "\"" && t[k..] == x + rest
    ensures "\"" + t == ("\"" + key + "\"" + x) + rest
  {
    assert t == t[..k] + t[k..];
  }

  lemma Flatten(p: string, b: string, c: string, value: string)
    ensures p + (b + ":" + c + value) == p + b + ":" + c + value
  {}

  lemma MemberWritten(key: string, b: string, c: string, value: string, head: string)
    requires AllWs(b) && AllWs(c) && head == "\"" + key + "\"" + b + ":" + c + value
    ensures WritesMember(Member(key, value), head)
  {
    var none := "";
    assert none + "\"" == "\"";
    assert AllWs(none) && head == none + "\"" + key + "\"" + b + ":" + c + value;
  }

  lemma MembersFirst(m: Member, others: seq<Member>, head: string, rest: string)
    requires WritesMember(m, head) && WritesRest(others, rest)
    ensures WritesMembers([m] + others, head + rest)
  {
    hide WritesMember, WritesRest;
    assert ([m] + others)[1..] == others;
  }

  lemma {:induction false} NextMembers(nodes: Arena, node: nat, seen: seq<nat>, t: string) returns (ms: seq<Member>)
    requires ObjectNext(nodes, node, seen, t)
    ensures WritesRest(ms, t) && Admitted(nodes, node, seen, ms)
    decreases |t|
  {
    Cons(t);
    hide WritesRest, WritesMembers, Admitted, KeyRest;
    if IsWs(t[0]) {
      ms := NextMembers(nodes, node, seen, t[1..]);
      RestSpaced(ms, t[0], t[1..]);
    } else if t[0] == ',' {
      ms := MoreMembers(nodes, node, seen, t[1..]);
      RestAfterComma(ms, t[1..]);
      assert t == "," + t[1..];
    } else {
      ms := [];
      NothingLeft(nodes, node, seen);
    }
  }

  lemma NothingLeft(nodes: Arena, node: nat, seen: seq<nat>)
    requires CanClose(nodes, node, seen)
    ensures WritesRest([], "}") && Admitted(nodes, node, seen, [])
  {
    var none := "";
    assert AllWs(none) && "}" == none + "}";
  }

  lemma {:induction false} MoreMembers(nodes: Arena, node: nat, seen: seq<nat>, t: string) returns (ms: seq<Member>)
    requires ObjectKey(nodes, node, seen, t)
    ensures ms != [] && WritesMembers(ms, t) && Admitted(nodes, node, seen, ms)
    decreases |t|
  {
    Cons(t);
    hide WritesMembers, Admitted, KeyRest;
    if IsWs(t[0]) {
      ms := MoreMembers(nodes, node, seen, t[1..]);
      MembersSpaced(ms, t[0], t[1..]);
    } else {
      ms := KeyMembers(nodes, node, seen, t[1..]);
      assert t == "\"" + t[1..];
    }
  }

  lemma {:induction false} StartMembers(nodes: Arena, node: nat, seen: seq<nat>, t: string) returns (ms: seq<Member>)
    requires ObjectStart(nodes, node, seen, t)
    ensures WritesMembers(ms, t) && Admitted(nodes, node, seen, ms)
    decreases |t|
  {
    Cons(t);
    hide WritesMember, WritesRest, Admitted, KeyRest;
    if IsWs(t[0]) {
      ms := StartMembers(nodes, node, seen, t[1..]);
      MembersSpaced(ms, t[0], t[1..]);
    } else if t == "}" && CanClose(nodes, node, seen) {
      ms := [];
      NothingLeft(nodes, node, seen);
    } else {
      ms := KeyMembers(nodes, node, seen, t[1..]);
      assert t == "\"" + t[1..];
    }
  }

  // ----------------------------------------------------- what it all amounts to

  ghost predicate Declared(props: seq<(string, nat)>, key: string) {
    exists i :: 0 <= i < |props| && props[i].0 == key
  }

  /** The members an object of that node may have, without reference to how they were read. */
  ghost predicate MembersOk(nodes: Arena, id: nat, ms: seq<Member>)
    requires id < |nodes| && nodes[id].Object?
  {
    var o := nodes[id];
    (forall i :: 0 <= i < |ms| ==> StringTail(0, ms[i].key + "\"") && IsValue(nodes, MemberNode(nodes, id, ms[i].key), ms[i].value))
    && (forall i, j :: 0 <= i < j < |ms| && ms[i].key == ms[j].key ==> !Declared(o.properties, ms[i].key))
    && (!o.additional ==> forall i :: 0 <= i < |ms| ==> Declared(o.properties, ms[i].key))
    && (forall r :: r in o.required && r < |o.properties| ==> Present(ms, o.properties[r].0))
  }

  ghost predicate Present(ms: seq<Member>, key: string) {
    exists i :: 0 <= i < |ms| && ms[i].key == key
  }

  /** With `seen` already read: no member repeats one of those either, and they count as present. */
  ghost predicate MembersAfter(nodes: Arena, id: nat, seen: seq<nat>, ms: seq<Member>)
    requires id < |nodes| && nodes[id].Object?
  {
    var o := nodes[id];
    (forall i :: 0 <= i < |ms| ==> StringTail(0, ms[i].key + "\"") && IsValue(nodes, MemberNode(nodes, id, ms[i].key), ms[i].value))
    && (forall i, j :: 0 <= i < j < |ms| && ms[i].key == ms[j].key ==> !Declared(o.properties, ms[i].key))
    && (forall i :: 0 <= i < |ms| && Find(o.properties, ms[i].key).Some? ==> Find(o.properties, ms[i].key).value !in seen)
    && (!o.additional ==> forall i :: 0 <= i < |ms| ==> Declared(o.properties, ms[i].key))
    && (forall r :: r in o.required && r < |o.properties| ==> r in seen || Present(ms, o.properties[r].0))
  }

  lemma FindDeclared(props: seq<(string, nat)>, key: string)
    ensures Find(props, key).Some? <==> Declared(props, key)
  {}

  lemma {:induction false} AdmittedMeans(nodes: Arena, id: nat, seen: seq<nat>, ms: seq<Member>)
    requires id < |nodes| && id != Free && nodes[id].Object? && Admitted(nodes, id, seen, ms)
    ensures MembersAfter(nodes, id, seen, ms)
    decreases |ms|
  {
    if ms != [] {
      var key := ms[0].key;
      var now := CheckKey(nodes, id, seen, key).value;
      AdmittedMeans(nodes, id, now, ms[1..]);
      KeyTaken(nodes[id], seen, key, nodes, id);
      hide StringTail, IsValue, Admitted, CheckKey, ValueNode, MemberNode, Find, MembersAfter;
      MembersGrow(nodes, id, seen, now, ms);
    }
  }

  /** What an accepted key says of itself and leaves in `seen`. */
  lemma KeyTaken(o: Node, seen: seq<nat>, key: string, nodes: Arena, id: nat)
    requires id < |nodes| && id != Free && nodes[id] == o && o.Object? && CheckKey(nodes, id, seen, key).Some?
    ensures var now := CheckKey(nodes, id, seen, key).value;
      (Find(o.properties, key).None? ==> o.additional && now == seen)
      && (Find(o.properties, key).Some? ==> Find(o.properties, key).value !in seen && now == seen + [Find(o.properties, key).value])
  {}

  /** `MembersAfter`, clause by clause. */
  lemma AfterIs(nodes: Arena, id: nat, seen: seq<nat>, ms: seq<Member>)
    requires id < |nodes| && nodes[id].Object?
    ensures MembersAfter(nodes, id, seen, ms) <==>
      (forall i :: 0 <= i < |ms| ==> MemberFits(nodes, id, seen, ms[i]))
      && (forall i, j :: 0 <= i < j < |ms| && ms[i].key == ms[j].key ==> !Declared(nodes[id].properties, ms[i].key))
      && (forall r :: r in nodes[id].required && r < |nodes[id].properties| ==> r in seen || Present(ms, nodes[id].properties[r].0))
  {
    hide StringTail, IsValue, MemberNode, Find, Declared, Present;
  }

  /** What each member satisfies by itself. */
  ghost predicate MemberFits(nodes: Arena, id: nat, seen: seq<nat>, m: Member)
    requires id < |nodes| && nodes[id].Object?
  {
    StringTail(0, m.key + "\"") && IsValue(nodes, MemberNode(nodes, id, m.key), m.value)
    && (Find(nodes[id].properties, m.key).Some? ==> Find(nodes[id].properties, m.key).value !in seen)
    && (!nodes[id].additional ==> Declared(nodes[id].properties, m.key))
  }

  lemma FirstFits(nodes: Arena, id: nat, seen: seq<nat>, now: seq<nat>, m: Member)
    requires id < |nodes| && nodes[id].Object? && FirstTaken(nodes[id], seen, now, m.key)
    requires StringTail(0, m.key + "\"") && IsValue(nodes, MemberNode(nodes, id, m.key), m.value)
    ensures MemberFits(nodes, id, seen, m)
  {
    FindDeclared(nodes[id].properties, m.key);
    hide StringTail, IsValue, MemberNode, Find, Declared;
  }

  lemma FitsSooner(nodes: Arena, id: nat, seen: seq<nat>, now: seq<nat>, m: Member, key: string)
    requires id < |nodes| && nodes[id].Object? && FirstTaken(nodes[id], seen, now, key) && MemberFits(nodes, id, now, m)
    ensures MemberFits(nodes, id, seen, m)
  {
    hide StringTail, IsValue, MemberNode, Find, Declared;
  }

  lemma MembersGrow(nodes: Arena, id: nat, seen: seq<nat>, now: seq<nat>, ms: seq<Member>)
    requires id < |nodes| && nodes[id].Object? && ms != [] && MembersAfter(nodes, id, now, ms[1..])
    requires StringTail(0, ms[0].key + "\"") && IsValue(nodes, MemberNode(nodes, id, ms[0].key), ms[0].value)
    requires FirstTaken(nodes[id], seen, now, ms[0].key)
    ensures MembersAfter(nodes, id, seen, ms)
  {
    hide *;
    var o := nodes[id];
    AfterIs(nodes, id, now, ms[1..]);
    AfterIs(nodes, id, seen, ms);
    forall i | 0 <= i < |ms| ensures MemberFits(nodes, id, seen, ms[i]) {
      if i == 0 {
        FirstFits(nodes, id, seen, now, ms[0]);
      } else {
        assert ms[i] == ms[1..][i - 1];
        FitsSooner(nodes, id, seen, now, ms[i], ms[0].key);
      }
    }
    forall i, j | 0 <= i < j < |ms| && ms[i].key == ms[j].key ensures !Declared(o.properties, ms[i].key) {
      NoRepeat(nodes, id, seen, now, ms, i, j);
    }
    forall r | r in o.required && r < |o.properties| ensures r in seen || Present(ms, o.properties[r].0) {
      StillPresent(nodes, id, seen, now, ms, r);
    }
  }

  ghost predicate FirstTaken(o: Node, seen: seq<nat>, now: seq<nat>, key: string)
    requires o.Object?
  {
    var f := Find(o.properties, key);
    (f.None? ==> o.additional && now == seen) && (f.Some? ==> f.value !in seen && now == seen + [f.value])
  }

  lemma NoRepeat(nodes: Arena, id: nat, seen: seq<nat>, now: seq<nat>, ms: seq<Member>, i: nat, j: nat)
    requires id < |nodes| && nodes[id].Object? && ms != [] && MembersAfter(nodes, id, now, ms[1..])
    requires FirstTaken(nodes[id], seen, now, ms[0].key) && i < j < |ms| && ms[i].key == ms[j].key
    ensures !Declared(nodes[id].properties, ms[i].key)
  {
    var rest := ms[1..];
    FindDeclared(nodes[id].properties, ms[i].key);
    hide StringTail, IsValue, MemberNode, Find, Declared, Present;
    assert ms[j] == rest[j - 1];
    if i > 0 {
      assert ms[i] == rest[i - 1];
    }
  }

  lemma StillPresent(nodes: Arena, id: nat, seen: seq<nat>, now: seq<nat>, ms: seq<Member>, r: nat)
    requires id < |nodes| && nodes[id].Object? && ms != [] && MembersAfter(nodes, id, now, ms[1..])
    requires FirstTaken(nodes[id], seen, now, ms[0].key) && r in nodes[id].required && r < |nodes[id].properties|
    ensures r in seen || Present(ms, nodes[id].properties[r].0)
  {
    var o, rest := nodes[id], ms[1..];
    hide StringTail, IsValue, MemberNode, Find, Declared;
    FindNames(o.properties, ms[0].key);
    if r !in now {
      var i :| 0 <= i < |rest| && rest[i].key == o.properties[r].0;
      assert ms[i + 1].key == o.properties[r].0;
    }
  }

  lemma FindNames(props: seq<(string, nat)>, key: string)
    ensures Find(props, key).Some? ==> Find(props, key).value < |props| && props[Find(props, key).value].0 == key
  {}

  /** An object of the grammar is a list of members: each name a well-formed string, each value a value of its name's
      node, no declared name twice, none undeclared where that is refused, every required name there. */
  lemma ObjectIsItsMembers(nodes: Arena, id: nat, t: string)
    requires id < |nodes| <= Free && nodes[id].Object? && IsValue(nodes, id, t)
    ensures t != "" && t[0] == '{' && exists ms :: WritesMembers(ms, t[1..]) && MembersOk(nodes, id, ms)
  {
    var ms := StartMembers(nodes, id, [], t[1..]);
    hide WritesMembers, IsValue;
    AdmittedMeans(nodes, id, [], ms);
    MembersFromNone(nodes, id, ms);
  }

  lemma MembersFromNone(nodes: Arena, id: nat, ms: seq<Member>)
    requires id < |nodes| && nodes[id].Object? && MembersAfter(nodes, id, [], ms)
    ensures MembersOk(nodes, id, ms)
  {
    hide StringTail, IsValue, MemberNode, Find, Present, Declared;
  }
}
