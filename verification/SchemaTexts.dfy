/** What a schema document says of a text, keyword by keyword and without an arena; and that the documents of the compiled
    arena are exactly those texts. */
module SchemaTexts {
  import opened Prelude
  import opened Machines
  import opened Grammar
  import opened Documents
  import opened Texts
  import opened Schemas

  // ------------------------------------------------------------------ any value

  predicate WellNamed(key: string) { StringTail(0, key + "\"") }

  /** A JSON value. */
  ghost predicate JsonText(t: string)
    decreases |t|
  {
    IsString(t) || IsNumber(false, t) || t == "true" || t == "false" || t == "null"
    || (exists ms: seq<Member> :: WritesObject(ms, t) && forall i :: 0 <= i < |ms| ==> WellNamed(ms[i].key) && |ms[i].value| < |t| && JsonText(ms[i].value))
    || (exists es: seq<string> :: WritesArray(es, t) && forall i :: 0 <= i < |es| ==> |es[i]| < |t| && JsonText(es[i]))
  }

  lemma MemberShorter(m: Member, t: string)
    requires WritesMember(m, t)
    ensures |m.value| < |t|
  {}

  lemma {:induction false} RestShorter(ms: seq<Member>, t: string, i: nat)
    requires WritesRest(ms, t) && i < |ms|
    ensures |ms[i].value| <= |t|
    decreases |ms|
  {
    hide WritesMember;
    var a, head, rest := RestFirst(ms, t);
    if i == 0 {
      MemberShorter(ms[0], head);
    } else {
      RestShorter(ms[1..], rest, i - 1);
    }
  }

  lemma MembersShorter(ms: seq<Member>, t: string, i: nat)
    requires WritesMembers(ms, t) && i < |ms|
    ensures |ms[i].value| <= |t|
  {
    hide WritesMember, WritesRest;
    var head, rest := MembersFirstIs(ms, t);
    if i == 0 {
      MemberShorter(ms[0], head);
    } else {
      RestShorter(ms[1..], rest, i - 1);
    }
  }

  lemma {:induction false} OnShorter(es: seq<string>, t: string, i: nat)
    requires WritesOn(es, t) && i < |es|
    ensures |es[i]| <= |t|
    decreases |es|
  {
    var a, b, rest := OnFirst(es, t);
    hide WritesOn;
    if i > 0 {
      OnShorter(es[1..], rest, i - 1);
    }
  }

  lemma ElementsShorter(es: seq<string>, t: string, i: nat)
    requires WritesElements(es, t) && i < |es|
    ensures |es[i]| <= |t|
  {
    hide WritesOn;
    var b, rest := ElementsFirst(es, t);
    if i > 0 {
      OnShorter(es[1..], rest, i - 1);
    }
  }

  /** An arena with a node for free-form values, none of whose options begins with whitespace. */
  ghost predicate Furnished(nodes: Arena) {
    FirstAny(nodes).Some? && |nodes| <= Free && Unspaced(nodes)
  }

  lemma AnyOf(nodes: Arena)
    requires Furnished(nodes)
    ensures AnyNode(nodes) < |nodes| <= Free && nodes[AnyNode(nodes)].Any? && Unspaced(nodes)
  {}

  lemma AnyValueIs(nodes: Arena, id: nat, t: string)
    requires id < |nodes| && nodes[id].Any?
    ensures IsValue(nodes, id, t) <==>
      IsString(t) || IsNumber(false, t) || t == "true" || t == "false" || t == "null"
      || (t != "" && t[0] == '{' && ObjectStart(nodes, Free, [], t[1..])) || (t != "" && t[0] == '[' && ArrayStart(nodes, Free, t[1..]))
  {
    hide StringTail, Magnitude, ObjectStart, ArrayStart;
  }

  lemma JsonTextIs(t: string)
    ensures JsonText(t) <==>
      IsString(t) || IsNumber(false, t) || t == "true" || t == "false" || t == "null"
      || (exists ms: seq<Member> :: WritesObject(ms, t) && JsonMembers(ms, |t|)) || (exists es: seq<string> :: WritesArray(es, t) && JsonElements(es, |t|))
  {
    hide IsString, IsNumber, WritesObject, WritesArray, WellNamed;
    if exists ms: seq<Member> :: WritesObject(ms, t) && JsonMembers(ms, |t|) {
      var ms: seq<Member> :| WritesObject(ms, t) && JsonMembers(ms, |t|);
      assert WritesObject(ms, t);
    }
    if exists es: seq<string> :: WritesArray(es, t) && JsonElements(es, |t|) {
      var es: seq<string> :| WritesArray(es, t) && JsonElements(es, |t|);
      assert WritesArray(es, t);
    }
    if exists ms: seq<Member> :: WritesObject(ms, t) && forall i :: 0 <= i < |ms| ==> WellNamed(ms[i].key) && |ms[i].value| < |t| && JsonText(ms[i].value) {
      var ms: seq<Member> :| WritesObject(ms, t) && forall i :: 0 <= i < |ms| ==> WellNamed(ms[i].key) && |ms[i].value| < |t| && JsonText(ms[i].value);
      assert JsonMembers(ms, |t|);
    }
    if exists es: seq<string> :: WritesArray(es, t) && forall i :: 0 <= i < |es| ==> |es[i]| < |t| && JsonText(es[i]) {
      var es: seq<string> :| WritesArray(es, t) && forall i :: 0 <= i < |es| ==> |es[i]| < |t| && JsonText(es[i]);
      assert JsonElements(es, |t|);
    }
  }

  ghost predicate JsonMembers(ms: seq<Member>, n: nat) {
    forall i :: 0 <= i < |ms| ==> WellNamed(ms[i].key) && |ms[i].value| < n && JsonText(ms[i].value)
  }

  ghost predicate JsonElements(es: seq<string>, n: nat) {
    forall i :: 0 <= i < |es| ==> |es[i]| < n && JsonText(es[i])
  }

  /** What the arena's node for free-form values holds is any JSON value. */
  lemma {:induction false} AnyIsJson(nodes: Arena, id: nat, t: string)
    requires Furnished(nodes) && id < |nodes| && nodes[id].Any?
    ensures IsValue(nodes, id, t) <==> JsonText(t)
    decreases |t|, 1
  {
    hide *;
    AnyOf(nodes);
    AnyValueIs(nodes, id, t);
    JsonTextIs(t);
    if t != "" {
      ArrayIff(nodes, Free, t[1..]);
      FreeObjectIff(nodes, t[1..]);
      forall ms: seq<Member> | WritesMembers(ms, t[1..]) ensures FreeMembers(nodes, ms) <==> JsonMembers(ms, |t|) {
        AnyMembers(nodes, ms, t);
      }
      forall es: seq<string> | WritesElements(es, t[1..]) ensures ElementsOk(nodes, Free, es) <==> JsonElements(es, |t|) {
        AnyElements(nodes, es, t);
      }
    }
    ContainersAre(t);
  }

  lemma ContainersAre(t: string)
    ensures forall ms: seq<Member> :: WritesObject(ms, t) <==> t != "" && t[0] == '{' && WritesMembers(ms, t[1..])
    ensures forall es: seq<string> :: WritesArray(es, t) <==> t != "" && t[0] == '[' && WritesElements(es, t[1..])
  {
    hide WritesMembers, WritesElements;
  }

  lemma {:induction false} AnyMembers(nodes: Arena, ms: seq<Member>, t: string)
    requires Furnished(nodes) && t != "" && WritesMembers(ms, t[1..])
    ensures FreeMembers(nodes, ms) <==> JsonMembers(ms, |t|)
    decreases |t|, 0
  {
    AnyOf(nodes);
    hide Furnished, IsValue, JsonText, WritesMembers, AnyNode, Unspaced, StringTail;
    forall i: nat | i < |ms| ensures |ms[i].value| < |t| && (IsValue(nodes, AnyNode(nodes), ms[i].value) <==> JsonText(ms[i].value)) {
      MembersShorter(ms, t[1..], i);
      AnyIsJson(nodes, AnyNode(nodes), ms[i].value);
    }
  }

  lemma {:induction false} AnyElements(nodes: Arena, es: seq<string>, t: string)
    requires Furnished(nodes) && t != "" && WritesElements(es, t[1..])
    ensures ElementsOk(nodes, Free, es) <==> JsonElements(es, |t|)
    decreases |t|, 0
  {
    AnyOf(nodes);
    hide Furnished, IsValue, JsonText, WritesElements, AnyNode, Unspaced;
    forall i: nat | i < |es| ensures |es[i]| < |t| && (IsValue(nodes, AnyNode(nodes), es[i]) <==> JsonText(es[i])) {
      ElementsShorter(es, t[1..], i);
      AnyIsJson(nodes, AnyNode(nodes), es[i]);
    }
  }

  // ------------------------------------------------------- what a document says

  /** The object says `v` under `name`: the first member of that name. */
  ghost predicate Says(members: seq<Field>, name: string, v: Json) {
    exists i :: 0 <= i < |members| && members[i] == Field(name, v) && SilentTo(members, name, i)
  }

  predicate SilentTo(members: seq<Field>, name: string, n: nat) {
    forall j :: 0 <= j < n && j < |members| ==> members[j].name != name
  }

  predicate Silent(members: seq<Field>, name: string) { SilentTo(members, name, |members|) }

  lemma SaysOnce(members: seq<Field>, name: string, v: Json, w: Json)
    requires Says(members, name, v) && Says(members, name, w)
    ensures v == w
  {
    var i :| 0 <= i < |members| && members[i] == Field(name, v) && SilentTo(members, name, i);
    var j :| 0 <= j < |members| && members[j] == Field(name, w) && SilentTo(members, name, j);
    assert members[i].name == name && members[j].name == name;
  }

  lemma SaysOrNot(members: seq<Field>, name: string, v: Json)
    requires Says(members, name, v)
    ensures !Silent(members, name)
  {
    var i :| 0 <= i < |members| && members[i] == Field(name, v) && SilentTo(members, name, i);
    assert members[i].name == name;
  }

  lemma SaysLater(m: Field, members: seq<Field>, name: string, v: Json)
    requires Says(members, name, v) && m.name != name
    ensures Says([m] + members, name, v)
  {
    var i :| 0 <= i < |members| && members[i] == Field(name, v) && SilentTo(members, name, i);
    var all := [m] + members;
    forall j | 0 <= j < i + 1 ensures all[j].name != name {
      if j > 0 {
        assert all[j] == members[j - 1];
      }
    }
    assert all[i + 1] == Field(name, v) && SilentTo(all, name, i + 1);
  }

  lemma {:induction false} GetSays(members: seq<Field>, name: string)
    ensures match Get(members, name)
      case Some(v) => Says(members, name, v)
      case None => Silent(members, name)
  {
    if members != [] {
      if members[0].name == name {
        assert members[0] == Field(name, members[0].value) && SilentTo(members, name, 0);
      } else {
        GetSays(members[1..], name);
        assert members == [members[0]] + members[1..];
        hide Says;
        if Get(members[1..], name).Some? {
          SaysLater(members[0], members[1..], name, Get(members[1..], name).value);
        } else {
          assert forall j :: 0 < j < |members| ==> members[j] == members[1..][j - 1];
        }
      }
    }
  }

  /** The compiler's lookup finds what the object says. */
  lemma GetIff(members: seq<Field>, name: string)
    ensures forall v :: Says(members, name, v) <==> Get(members, name) == Some(v)
    ensures Silent(members, name) <==> Get(members, name).None?
  {
    GetSays(members, name);
    hide Silent, Says, Get;
    forall v | Says(members, name, v) ensures Get(members, name) == Some(v) {
      SaysOrNot(members, name, v);
      SaysOnce(members, name, v, Get(members, name).value);
    }
    if Get(members, name).Some? {
      SaysOrNot(members, name, Get(members, name).value);
    }
  }

  // --------------------------------------------------- what an object schema says

  /** The object schema declares the property `key`, with the schema `sub`. */
  ghost predicate Declares(members: seq<Field>, key: string, sub: Json) {
    exists fields :: Says(members, "properties", JObject(fields)) && Says(fields, key, sub)
  }

  ghost predicate HasProperty(members: seq<Field>, key: string) {
    exists sub :: Declares(members, key, sub)
  }

  ghost predicate Requires(members: seq<Field>, name: string) {
    exists names :: Says(members, "required", JArray(names)) && JString(name) in names
  }

  /** Undeclared properties are allowed: said so, or nothing said and no property declared. */
  ghost predicate AllowsOthers(members: seq<Field>) {
    Says(members, "additionalProperties", JBool(true))
    || (Silent(members, "additionalProperties") && forall key :: !HasProperty(members, key))
  }

  lemma SaysLower(members: seq<Field>, name: string, v: Json)
    requires Says(members, name, v)
    ensures Height(v) < Height(JObject(members))
  {
    GetIff(members, name);
    GetLower(members, name);
  }

  lemma DeclaresLower(members: seq<Field>, key: string, sub: Json)
    requires Declares(members, key, sub)
    ensures Height(sub) < Height(JObject(members))
  {
    hide Says;
    var fields :| Says(members, "properties", JObject(fields)) && Says(fields, key, sub);
    SaysLower(members, "properties", JObject(fields));
    SaysLower(fields, key, sub);
  }

  lemma AllLower(members: seq<Field>)
    ensures forall name, v :: Says(members, name, v) ==> Height(v) < Height(JObject(members))
    ensures forall key, sub :: Declares(members, key, sub) ==> Height(sub) < Height(JObject(members))
  {
    hide *;
    forall name, v | Says(members, name, v) ensures Height(v) < Height(JObject(members)) {
      SaysLower(members, name, v);
    }
    forall key, sub | Declares(members, key, sub) ensures Height(sub) < Height(JObject(members)) {
      DeclaresLower(members, key, sub);
    }
  }

  // --------------------------------------------------------- what a schema admits

  /** The text is a value of the schema. */
  ghost predicate Admits(write: Writer, schema: Json, t: string)
    decreases Height(schema), 2
  {
    match schema
    case JBool(b) => b && JsonText(t)
    case JObject(members) =>
      if !Silent(members, "const") then exists v :: Says(members, "const", v) && t == write(v)
      else if !Silent(members, "enum") then exists items, v :: Says(members, "enum", JArray(items)) && v in items && t == write(v)
      else if Silent(members, "type") then JsonText(t)
      else if Says(members, "type", JString("string")) then IsString(t)
      else if Says(members, "type", JString("integer")) then IsNumber(true, t)
      else if Says(members, "type", JString("number")) then IsNumber(false, t)
      else if Says(members, "type", JString("boolean")) then t == "true" || t == "false"
      else if Says(members, "type", JString("null")) then t == "null"
      else if Says(members, "type", JString("array")) then exists es :: WritesArray(es, t) && ItemsAdmitted(write, members, es)
      else if Says(members, "type", JString("object")) then exists ms :: WritesObject(ms, t) && MembersAdmitted(write, members, ms)
      else false
    case _ => false
  }

  /** Every element is a value of the schema of the items; any value where nothing is said of them. */
  ghost predicate ItemsAdmitted(write: Writer, members: seq<Field>, es: seq<string>)
    decreases Height(JObject(members)), 0
  {
    AllLower(members);
    forall i :: 0 <= i < |es| ==>
      if Silent(members, "items") then JsonText(es[i]) else exists sub :: Says(members, "items", sub) && Admits(write, sub, es[i])
  }

  /** A value of its schema under a declared name; any value under another, where others are allowed. */
  ghost predicate MemberAdmitted(write: Writer, members: seq<Field>, m: Member)
    decreases Height(JObject(members)), 0
  {
    AllLower(members);
    if HasProperty(members, m.key) then exists sub :: Declares(members, m.key, sub) && Admits(write, sub, m.value)
    else AllowsOthers(members) && JsonText(m.value)
  }

  /** Names that are strings, no declared one twice; the value each allows; and every required name. */
  ghost predicate MembersAdmitted(write: Writer, members: seq<Field>, ms: seq<Member>)
    decreases Height(JObject(members)), 1
  {
    (forall i :: 0 <= i < |ms| ==> WellNamed(ms[i].key) && MemberAdmitted(write, members, ms[i]))
    && (forall i, j :: 0 <= i < j < |ms| && ms[i].key == ms[j].key ==> !HasProperty(members, ms[i].key))
    && (forall name :: Requires(members, name) ==> Present(ms, name))
  }

  /** A document of the schema: a value of it, and trailing whitespace. */
  ghost predicate IsText(write: Writer, schema: Json, text: string) {
    exists k: nat :: k <= |text| && Admits(write, schema, text[..k]) && AllWs(text[k..])
  }

  // -------------------------------------------------- the head of a schema object

  /** The writer's texts are JSON texts without space around them: never empty, and begun neither by whitespace nor by a
      closing bracket. */
  ghost predicate Compact(write: Writer) {
    forall v {:trigger write(v)} :: Begins(write(v))
  }

  predicate Begins(o: string) { o != "" && !IsWs(o[0]) && o[0] != ']' }

  lemma CompactAt(write: Writer, v: Json)
    requires Compact(write)
    ensures write(v) != "" && Begins(write(v))
  {}

  function FieldsOf(members: seq<Field>): seq<Field> {
    match Get(members, "properties")
    case Some(JObject(fields)) => fields
    case _ => []
  }

  lemma HeadPinned(write: Writer, members: seq<Field>)
    requires !HeadOf(write, members).Wrong?
    ensures var c, e := Get(members, "const"), Get(members, "enum");
      (c.Some? ==> HeadOf(write, members) == Leaf(Choice([write(c.value)])))
      && (c.None? && e.Some? ==> e.value.JArray? && e.value.items != [] && HeadOf(write, members) == Leaf(Choice(Written(write, e.value.items))))
      && (c.None? && e.None? ==> Get(members, "type").None? ==> HeadOf(write, members) == Leaf(Any))
      && (c.None? && e.None? ==> Get(members, "type").Some? ==> Get(members, "type").value.JString?)
  {
    hide Get, Written, Supported;
  }

  lemma HeadTyped(write: Writer, members: seq<Field>, name: string)
    requires !HeadOf(write, members).Wrong? && Get(members, "const").None? && Get(members, "enum").None? && Get(members, "type") == Some(JString(name))
    ensures var h := HeadOf(write, members);
      if name == "string" then h == Leaf(StringNode)
      else if name == "integer" then h == Leaf(Number(true))
      else if name == "number" then h == Leaf(Number(false))
      else if name == "boolean" then h == Leaf(Bool)
      else if name == "null" then h == Leaf(Null)
      else if name == "array" then h == ArrayOf(Get(members, "items"))
      else (name == "object" && h == ObjectOf(FieldsOf(members))
            && (Get(members, "properties").Some? ==> Get(members, "properties").value.JObject?))
  {
    hide Get, Written, Supported;
  }

  lemma AdmitsConst(write: Writer, members: seq<Field>, v: Json, t: string)
    requires Get(members, "const") == Some(v)
    ensures Admits(write, JObject(members), t) <==> t == write(v)
  {
    GetIff(members, "const");
    hide Says, Silent, Get, JsonText, ItemsAdmitted, MembersAdmitted, IsString, IsNumber;
    assert Says(members, "const", v);
  }

  lemma AdmitsEnum(write: Writer, members: seq<Field>, items: seq<Json>, t: string)
    requires Get(members, "const").None? && Get(members, "enum") == Some(JArray(items))
    ensures Admits(write, JObject(members), t) <==> exists v :: v in items && t == write(v)
  {
    GetIff(members, "const");
    GetIff(members, "enum");
    hide Says, Silent, Get, JsonText, ItemsAdmitted, MembersAdmitted, IsString, IsNumber;
    assert Says(members, "enum", JArray(items));
    if Admits(write, JObject(members), t) {
      var xs, v :| Says(members, "enum", JArray(xs)) && v in xs && t == write(v);
      assert xs == items;
    }
    if exists v :: v in items && t == write(v) {
      var v :| v in items && t == write(v);
      assert Says(members, "enum", JArray(items)) && v in items && t == write(v);
    }
  }

  lemma AdmitsUntyped(write: Writer, members: seq<Field>, t: string)
    requires Get(members, "const").None? && Get(members, "enum").None? && Get(members, "type").None?
    ensures Admits(write, JObject(members), t) <==> JsonText(t)
  {
    GetIff(members, "const");
    GetIff(members, "enum");
    GetIff(members, "type");
    hide Says, Silent, Get, JsonText, ItemsAdmitted, MembersAdmitted, IsString, IsNumber;
  }

  lemma AdmitsTyped(write: Writer, members: seq<Field>, name: string, t: string)
    requires Get(members, "const").None? && Get(members, "enum").None? && Get(members, "type") == Some(JString(name))
    ensures Admits(write, JObject(members), t) <==>
      if name == "string" then IsString(t)
      else if name == "integer" then IsNumber(true, t)
      else if name == "number" then IsNumber(false, t)
      else if name == "boolean" then t == "true" || t == "false"
      else if name == "null" then t == "null"
      else if name == "array" then exists es :: WritesArray(es, t) && ItemsAdmitted(write, members, es)
      else name == "object" && exists ms :: WritesObject(ms, t) && MembersAdmitted(write, members, ms)
  {
    GetIff(members, "const");
    GetIff(members, "enum");
    GetIff(members, "type");
    hide Says, Silent, Get, JsonText, ItemsAdmitted, MembersAdmitted, IsString, IsNumber, WritesArray, WritesObject;
  }

  // ------------------------------------------------------------------- scalars

  lemma ChoiceIs(nodes: Arena, id: nat, options: seq<string>, t: string)
    requires id < |nodes| && nodes[id] == Choice(options)
    ensures IsValue(nodes, id, t) <==> t != "" && t in options
  {}

  lemma ScalarIs(nodes: Arena, id: nat, t: string)
    requires id < |nodes|
    ensures nodes[id] == StringNode ==> (IsValue(nodes, id, t) <==> IsString(t))
    ensures nodes[id].Number? ==> (IsValue(nodes, id, t) <==> IsNumber(nodes[id].integer, t))
    ensures nodes[id] == Bool ==> (IsValue(nodes, id, t) <==> t == "true" || t == "false")
    ensures nodes[id] == Null ==> (IsValue(nodes, id, t) <==> t == "null")
  {
    hide StringTail, Magnitude;
  }

  lemma WrittenHas(write: Writer, items: seq<Json>, t: string)
    ensures t in Written(write, items) <==> exists v :: v in items && t == write(v)
  {
    if t in Written(write, items) {
      var k :| 0 <= k < |items| && Written(write, items)[k] == t;
      assert items[k] in items && t == write(items[k]);
    }
    if exists v :: v in items && t == write(v) {
      var v :| v in items && t == write(v);
      var k :| 0 <= k < |items| && items[k] == v;
      assert Written(write, items)[k] == t;
    }
  }

  /** A schema without sub-schemas. */
  lemma LeafMeans(write: Writer, members: seq<Field>, nodes: Arena, id: nat, t: string)
    requires Compact(write) && Furnished(nodes) && id < |nodes| && HeadOf(write, members).Leaf? && nodes[id] == HeadOf(write, members).node
    ensures IsValue(nodes, id, t) <==> Admits(write, JObject(members), t)
  {
    hide *;
    HeadPinned(write, members);
    var c, e, ty := Get(members, "const"), Get(members, "enum"), Get(members, "type");
    if c.Some? {
      AdmitsConst(write, members, c.value, t);
      ChoiceIs(nodes, id, [write(c.value)], t);
      CompactAt(write, c.value);
    } else if e.Some? {
      AdmitsEnum(write, members, e.value.items, t);
      ChoiceIs(nodes, id, Written(write, e.value.items), t);
      WrittenHas(write, e.value.items, t);
      if v :| v in e.value.items && t == write(v) {
        CompactAt(write, v);
      }
    } else if ty.None? {
      AdmitsUntyped(write, members, t);
      AnyIsJson(nodes, id, t);
    } else {
      HeadTyped(write, members, ty.value.chars);
      AdmitsTyped(write, members, ty.value.chars, t);
      ScalarIs(nodes, id, t);
    }
  }

  // -------------------------------------------------------- arrays and objects

  lemma ArrayValueIs(nodes: Arena, id: nat, t: string)
    requires Furnished(nodes) && id < |nodes| && nodes[id].Array?
    ensures IsValue(nodes, id, t) <==> exists es :: WritesArray(es, t) && ElementsOk(nodes, nodes[id].items, es)
  {
    AnyOf(nodes);
    if t != "" {
      ArrayIff(nodes, nodes[id].items, t[1..]);
    }
    ContainersAre(t);
    hide ArrayStart, WritesArray, WritesElements, ElementsOk, ObjectStart;
  }

  lemma ObjectValueIs(nodes: Arena, id: nat, t: string)
    requires Furnished(nodes) && id < |nodes| && nodes[id].Object? && RequiredFirst(nodes[id])
    ensures IsValue(nodes, id, t) <==> exists ms :: WritesObject(ms, t) && MembersOk(nodes, id, ms)
  {
    AnyOf(nodes);
    if t != "" {
      ObjectIff(nodes, id, t[1..]);
    }
    ContainersAre(t);
    hide ArrayStart, WritesObject, WritesMembers, MembersOk, ObjectStart;
  }

  /** What the induction gives of a sub-schema: its values are those of the node that denotes it. */
  ghost predicate Same(write: Writer, nodes: Arena, id: nat, sub: Json) {
    forall t :: IsValue(nodes, id, t) <==> Admits(write, sub, t)
  }

  ghost predicate SameAsAny(nodes: Arena, id: nat) {
    forall t :: IsValue(nodes, id, t) <==> JsonText(t)
  }

  lemma ItemsSame(write: Writer, members: seq<Field>, nodes: Arena, items: nat, es: seq<string>)
    requires items < |nodes| <= Free
    requires match Get(members, "items") case None => SameAsAny(nodes, items) case Some(sub) => Same(write, nodes, items, sub)
    ensures ElementsOk(nodes, items, es) <==> ItemsAdmitted(write, members, es)
  {
    GetIff(members, "items");
    assert Element(nodes, items) == items;
    hide Says, Silent, Get, JsonText, IsValue, Admits, Element;
    match Get(members, "items")
    case None =>
    case Some(sub) =>
      assert Says(members, "items", sub);
      forall i | 0 <= i < |es| ensures IsValue(nodes, items, es[i]) <==> exists s :: Says(members, "items", s) && Admits(write, s, es[i]) {
        if exists s :: Says(members, "items", s) && Admits(write, s, es[i]) {
          var s :| Says(members, "items", s) && Admits(write, s, es[i]);
          assert s == sub;
        }
      }
  }

  lemma ArrayMeans(write: Writer, members: seq<Field>, nodes: Arena, id: nat, t: string)
    requires Furnished(nodes) && id < |nodes| && nodes[id].Array? && nodes[id].items < |nodes| && HeadOf(write, members).ArrayOf?
    requires match Get(members, "items") case None => SameAsAny(nodes, nodes[id].items) case Some(sub) => Same(write, nodes, nodes[id].items, sub)
    ensures IsValue(nodes, id, t) <==> Admits(write, JObject(members), t)
  {
    hide *;
    AnyOf(nodes);
    HeadPinned(write, members);
    HeadTyped(write, members, Get(members, "type").value.chars);
    AdmitsTyped(write, members, Get(members, "type").value.chars, t);
    ArrayValueIs(nodes, id, t);
    forall es ensures ElementsOk(nodes, nodes[id].items, es) <==> ItemsAdmitted(write, members, es) {
      ItemsSame(write, members, nodes, nodes[id].items, es);
    }
  }

  // ------------------------------------------------------ what the helpers mean

  lemma {:induction false} FindSays(props: seq<(string, nat)>, fields: seq<Field>, key: string)
    requires |props| == |fields| && forall i :: 0 <= i < |props| ==> props[i].0 == fields[i].name
    ensures match Find(props, key)
      case Some(i) => Says(fields, key, fields[i].value)
      case None => Silent(fields, key)
  {
    if props != [] {
      if props[0].0 == key {
        assert fields[0] == Field(key, fields[0].value) && SilentTo(fields, key, 0);
      } else {
        forall i | 0 <= i < |props[1..]| ensures props[1..][i].0 == fields[1..][i].name {
          assert props[i + 1].0 == fields[i + 1].name;
        }
        FindSays(props[1..], fields[1..], key);
        assert fields == [fields[0]] + fields[1..];
        hide Says;
        if Find(props[1..], key).Some? {
          SaysLater(fields[0], fields[1..], key, fields[1..][Find(props[1..], key).value].value);
        } else {
          assert forall j :: 0 < j < |fields| ==> fields[j] == fields[1..][j - 1];
        }
      }
    }
  }

  lemma {:induction false} PositionsMean(names: seq<Json>, props: seq<(string, nat)>)
    requires Positions(names, props).Ok?
    ensures forall r :: r in Positions(names, props).value ==> exists name :: JString(name) in names && Find(props, name) == Some(r)
    ensures forall name :: JString(name) in names ==> Find(props, name).Some? && Find(props, name).value in Positions(names, props).value
  {
    if names != [] {
      var rest := names[1..];
      PositionsMean(rest, props);
      var got := Positions(names, props).value;
      assert names == [names[0]] + rest;
      assert got == [Find(props, names[0].chars).value] + Positions(rest, props).value;
      hide Positions, Find;
      forall r | r in got ensures exists name :: JString(name) in names && Find(props, name) == Some(r) {
        if r in Positions(rest, props).value {
          var name :| JString(name) in rest && Find(props, name) == Some(r);
          assert JString(name) in names;
        } else {
          assert JString(names[0].chars) in names;
        }
      }
    }
  }

  lemma RequiredMeans(members: seq<Field>, props: seq<(string, nat)>)
    requires RequiredOf(members, props).Ok?
    ensures forall r :: r in RequiredOf(members, props).value ==> exists name :: Requires(members, name) && Find(props, name) == Some(r)
    ensures forall name :: Requires(members, name) ==> Find(props, name).Some? && Find(props, name).value in RequiredOf(members, props).value
  {
    GetIff(members, "required");
    var got := RequiredOf(members, props).value;
    match Get(members, "required")
    case Some(JArray(names)) =>
      PositionsMean(names, props);
      assert got == Positions(names, props).value;
      hide Positions, Find, Get, Says, RequiredOf;
      forall r | r in got ensures exists name :: Requires(members, name) && Find(props, name) == Some(r) {
        var name :| JString(name) in names && Find(props, name) == Some(r);
        assert Says(members, "required", JArray(names)) && Requires(members, name);
      }
      forall name | Requires(members, name) ensures Find(props, name).Some? && Find(props, name).value in got {
        var xs :| Says(members, "required", JArray(xs)) && JString(name) in xs;
        assert xs == names;
      }
    case _ =>
  }

  /** Under a name, the properties' schemas; nothing without them. */
  lemma DeclaredIs(members: seq<Field>, key: string, sub: Json)
    ensures Declares(members, key, sub) <==> Says(FieldsOf(members), key, sub)
  {
    GetIff(members, "properties");
    GetIff(FieldsOf(members), key);
    hide Says, Silent;
    if Declares(members, key, sub) {
      var fields :| Says(members, "properties", JObject(fields)) && Says(fields, key, sub);
      assert FieldsOf(members) == fields;
    }
    if Says(FieldsOf(members), key, sub) && FieldsOf(members) != [] {
      assert Says(members, "properties", JObject(FieldsOf(members)));
    }
  }

  /** The property of a name and its schema. */
  lemma PropertyIs(members: seq<Field>, props: seq<(string, nat)>, key: string)
    requires var fields := FieldsOf(members); |props| == |fields| && forall i :: 0 <= i < |props| ==> props[i].0 == fields[i].name
    ensures match Find(props, key)
      case Some(i) => Declares(members, key, FieldsOf(members)[i].value) && forall sub :: Declares(members, key, sub) ==> sub == FieldsOf(members)[i].value
      case None => !HasProperty(members, key)
  {
    var fields := FieldsOf(members);
    FindSays(props, fields, key);
    hide Says, Silent, Find, FieldsOf, Declares;
    match Find(props, key)
    case Some(i) =>
      DeclaredIs(members, key, fields[i].value);
      forall sub | Declares(members, key, sub) ensures sub == fields[i].value {
        DeclaredIs(members, key, sub);
        SaysOnce(fields, key, sub, fields[i].value);
      }
    case None =>
      forall sub ensures !Declares(members, key, sub) {
        DeclaredIs(members, key, sub);
        if Says(fields, key, sub) {
          SaysOrNot(fields, key, sub);
        }
      }
  }

  lemma AdditionalMeans(members: seq<Field>, props: seq<(string, nat)>)
    requires var fields := FieldsOf(members); |props| == |fields| && forall i :: 0 <= i < |props| ==> props[i].0 == fields[i].name
    requires AdditionalOf(members, props == []).Ok?
    ensures AdditionalOf(members, props == []).value <==> AllowsOthers(members)
  {
    GetIff(members, "additionalProperties");
    hide Says, Silent, Get, FieldsOf, Declares;
    if props == [] {
      forall key ensures !HasProperty(members, key) {
        PropertyIs(members, props, key);
      }
    } else {
      PropertyIs(members, props, props[0].0);
      hide Find;
      assert HasProperty(members, props[0].0);
    }
  }

  // -------------------------------------------------------------------- objects

  /** Node `id` is the object node of the schema, and each property's node has the values of the property's schema. */
  ghost predicate MadeOf(write: Writer, members: seq<Field>, nodes: Arena, id: nat) {
    var fields := FieldsOf(members);
    id < |nodes| && nodes[id].Object? && ObjectNode(members, nodes[id].properties) == Ok(nodes[id]) && |nodes[id].properties| == |fields|
    && forall i :: 0 <= i < |fields| ==> nodes[id].properties[i].0 == fields[i].name && Same(write, nodes, nodes[id].properties[i].1, fields[i].value)
  }

  lemma MadeParts(write: Writer, members: seq<Field>, nodes: Arena, id: nat)
    requires MadeOf(write, members, nodes, id)
    ensures id < |nodes| && nodes[id].Object?
    ensures RequiredOf(members, nodes[id].properties) == Ok(nodes[id].required)
    ensures AdditionalOf(members, nodes[id].properties == []) == Ok(nodes[id].additional)
    ensures |nodes[id].properties| == |FieldsOf(members)|
    ensures forall i :: 0 <= i < |FieldsOf(members)| ==> nodes[id].properties[i].0 == FieldsOf(members)[i].name
    ensures forall i :: 0 <= i < |FieldsOf(members)| ==> Same(write, nodes, nodes[id].properties[i].1, FieldsOf(members)[i].value)
  {
    hide RequiredOf, AdditionalOf, FieldsOf, Same;
  }

  lemma MadeRequired(write: Writer, members: seq<Field>, nodes: Arena, id: nat)
    requires MadeOf(write, members, nodes, id)
    ensures id < |nodes| && nodes[id].Object? && RequiredFirst(nodes[id])
  {
    MadeParts(write, members, nodes, id);
    hide MadeOf, RequiredOf, Find, FieldsOf, Same;
    RequiredMeans(members, nodes[id].properties);
  }

  /** The value under one name. */
  lemma MemberSame(write: Writer, members: seq<Field>, nodes: Arena, id: nat, m: Member)
    requires Furnished(nodes) && MadeOf(write, members, nodes, id)
    ensures HasProperty(members, m.key) <==> Declared(nodes[id].properties, m.key)
    ensures !HasProperty(members, m.key) && MemberAdmitted(write, members, m) ==> nodes[id].additional
    ensures IsValue(nodes, MemberNode(nodes, id, m.key), m.value) <==> MemberAdmitted(write, members, m)
  {
    hide *;
    MemberAdmittedIs(write, members, m);
    MadeParts(write, members, nodes, id);
    AnyOf(nodes);
    var props := nodes[id].properties;
    FindDeclared(props, m.key);
    PropertyIs(members, props, m.key);
    AdditionalMeans(members, props);
    MemberNodes(nodes, id, m.key);
    match Find(props, m.key)
    case Some(i) =>
      FindInside(props, m.key);
      var sub := FieldsOf(members)[i].value;
      HasIt(members, m.key, sub);
      SameAt(write, nodes, props[i].1, sub, m.value);
    case None =>
      if nodes[id].additional {
        AnyIsJson(nodes, AnyNode(nodes), m.value);
      } else {
        NothingOutside(nodes, m.value);
      }
  }

  lemma MemberAdmittedIs(write: Writer, members: seq<Field>, m: Member)
    ensures HasProperty(members, m.key) ==> (MemberAdmitted(write, members, m) <==> exists sub :: Declares(members, m.key, sub) && Admits(write, sub, m.value))
    ensures !HasProperty(members, m.key) ==> (MemberAdmitted(write, members, m) <==> AllowsOthers(members) && JsonText(m.value))
  {
    hide Admits, JsonText, AllowsOthers, Declares, HasProperty;
  }

  lemma HasIt(members: seq<Field>, key: string, sub: Json)
    requires Declares(members, key, sub)
    ensures HasProperty(members, key)
  {
    hide Declares;
  }

  lemma SameAt(write: Writer, nodes: Arena, id: nat, sub: Json, t: string)
    requires Same(write, nodes, id, sub)
    ensures IsValue(nodes, id, t) <==> Admits(write, sub, t)
  {}

  lemma FindInside(props: seq<(string, nat)>, key: string)
    ensures Find(props, key).Some? ==> Find(props, key).value < |props|
  {
    hide Find;
  }

  lemma MemberNodes(nodes: Arena, id: nat, key: string)
    requires id < |nodes| <= Free && nodes[id].Object?
    ensures Find(nodes[id].properties, key).Some? ==> MemberNode(nodes, id, key) == nodes[id].properties[Find(nodes[id].properties, key).value].1
    ensures Find(nodes[id].properties, key).None? ==> MemberNode(nodes, id, key) == if nodes[id].additional then AnyNode(nodes) else Free
  {
    hide Find, AnyNode;
  }

  lemma NothingOutside(nodes: Arena, t: string)
    requires |nodes| <= Free
    ensures !IsValue(nodes, Free, t)
  {}

  /** Members an object node accepts are those the schema admits. */
  lemma MembersSame(write: Writer, members: seq<Field>, nodes: Arena, id: nat, ms: seq<Member>)
    requires Furnished(nodes) && MadeOf(write, members, nodes, id)
    ensures MembersOk(nodes, id, ms) <==> MembersAdmitted(write, members, ms)
  {
    hide *;
    MadeParts(write, members, nodes, id);
    var props := nodes[id].properties;
    RequiredMeans(members, props);
    AdditionalMeans(members, props);
    forall i | 0 <= i < |ms|
      ensures HasProperty(members, ms[i].key) <==> Declared(props, ms[i].key)
      ensures !HasProperty(members, ms[i].key) && MemberAdmitted(write, members, ms[i]) ==> nodes[id].additional
      ensures IsValue(nodes, MemberNode(nodes, id, ms[i].key), ms[i].value) <==> MemberAdmitted(write, members, ms[i])
    {
      MemberSame(write, members, nodes, id, ms[i]);
    }
    RequiredPresent(members, props, nodes[id].required, ms);
    MembersOkIs(nodes, id, ms);
    AdmittedIs(write, members, ms);
  }

  lemma RequiredPresent(members: seq<Field>, props: seq<(string, nat)>, required: seq<nat>, ms: seq<Member>)
    requires forall r :: r in required ==> exists name :: Requires(members, name) && Find(props, name) == Some(r)
    requires forall name :: Requires(members, name) ==> Find(props, name).Some? && Find(props, name).value in required
    ensures (forall r :: r in required && r < |props| ==> Present(ms, props[r].0)) <==> forall name :: Requires(members, name) ==> Present(ms, name)
  {
    hide Find, Requires, Present;
    if forall r :: r in required && r < |props| ==> Present(ms, props[r].0) {
      forall name | Requires(members, name) ensures Present(ms, name) {
        var r := Find(props, name).value;
        assert props[r].0 == name;
      }
    }
    if forall name :: Requires(members, name) ==> Present(ms, name) {
      forall r | r in required && r < |props| ensures Present(ms, props[r].0) {
        var name :| Requires(members, name) && Find(props, name) == Some(r);
      }
    }
  }

  /** `MembersOk`, clause by clause. */
  lemma MembersOkIs(nodes: Arena, id: nat, ms: seq<Member>)
    requires id < |nodes| && nodes[id].Object?
    ensures MembersOk(nodes, id, ms) <==>
      (forall i :: 0 <= i < |ms| ==> WellNamed(ms[i].key) && IsValue(nodes, MemberNode(nodes, id, ms[i].key), ms[i].value))
      && (forall i, j :: 0 <= i < j < |ms| && ms[i].key == ms[j].key ==> !Declared(nodes[id].properties, ms[i].key))
      && (!nodes[id].additional ==> forall i :: 0 <= i < |ms| ==> Declared(nodes[id].properties, ms[i].key))
      && (forall r :: r in nodes[id].required && r < |nodes[id].properties| ==> Present(ms, nodes[id].properties[r].0))
  {
    hide IsValue, MemberNode, Declared, Present, StringTail;
  }

  lemma AdmittedIs(write: Writer, members: seq<Field>, ms: seq<Member>)
    ensures MembersAdmitted(write, members, ms) <==>
      (forall i :: 0 <= i < |ms| ==> WellNamed(ms[i].key) && MemberAdmitted(write, members, ms[i]))
      && (forall i, j :: 0 <= i < j < |ms| && ms[i].key == ms[j].key ==> !HasProperty(members, ms[i].key))
      && (forall name :: Requires(members, name) ==> Present(ms, name))
  {
    hide MemberAdmitted, HasProperty, Requires, Present, WellNamed;
  }

  lemma ObjectAdmits(write: Writer, members: seq<Field>, nodes: Arena, id: nat, t: string)
    requires Furnished(nodes) && MadeOf(write, members, nodes, id) && HeadOf(write, members).ObjectOf?
    ensures IsValue(nodes, id, t) <==> Admits(write, JObject(members), t)
  {
    hide *;
    HeadPinned(write, members);
    HeadTyped(write, members, Get(members, "type").value.chars);
    AdmitsTyped(write, members, Get(members, "type").value.chars, t);
    MadeRequired(write, members, nodes, id);
    ObjectValueIs(nodes, id, t);
    forall ms ensures MembersOk(nodes, id, ms) <==> MembersAdmitted(write, members, ms) {
      MembersSame(write, members, nodes, id, ms);
    }
  }

  // ------------------------------------------------------------ the whole schema

  lemma {:induction false} MeaningsAt(write: Writer, fields: seq<Field>, depth: nat, i: nat)
    requires Meanings(write, fields, depth).Ok? && i < |fields|
    ensures var props := Meanings(write, fields, depth).value;
      |props| == |fields| && Meaning(write, fields[i].value, depth) == Ok(props[i].shape) && props[i].name == fields[i].name
    decreases |fields|
  {
    MeaningsLength(write, fields, depth);
    hide Meaning;
    if i > 0 {
      MeaningsAt(write, fields[1..], depth, i - 1);
    }
  }

  lemma {:induction false} MeaningsLength(write: Writer, fields: seq<Field>, depth: nat)
    requires Meanings(write, fields, depth).Ok?
    ensures |Meanings(write, fields, depth).value| == |fields|
    decreases |fields|
  {
    hide Meaning;
    if fields != [] {
      MeaningsLength(write, fields[1..], depth);
    }
  }

  /** The meaning of an object schema, in its parts. */
  lemma MeaningObject(write: Writer, members: seq<Field>, depth: nat)
    requires HeadOf(write, members).ObjectOf? && Meaning(write, JObject(members), depth).Ok?
    ensures var fields, shape := HeadOf(write, members).properties, Meaning(write, JObject(members), depth).value;
      Meanings(write, fields, depth + 1).Ok? && shape.SObject? && shape.properties == Meanings(write, fields, depth + 1).value
      && ObjectNode(members, Names(shape.properties)) == Ok(Object(Names(shape.properties), shape.required, shape.additional))
  {
    hide HeadOf, RequiredOf, AdditionalOf, Meanings;
  }

  lemma MeaningArray(write: Writer, members: seq<Field>, depth: nat)
    requires HeadOf(write, members).ArrayOf? && Meaning(write, JObject(members), depth).Ok?
    ensures var items, shape := HeadOf(write, members).items, Meaning(write, JObject(members), depth).value;
      shape.SArray? && (items.None? ==> shape.items == SLeaf(Any))
      && (items.Some? ==> Meaning(write, items.value, depth + 1) == Ok(shape.items))
  {
    hide HeadOf;
  }

  lemma MeaningRest(write: Writer, members: seq<Field>, depth: nat)
    requires Meaning(write, JObject(members), depth).Ok?
    ensures !HeadOf(write, members).Wrong?
    ensures HeadOf(write, members).Leaf? ==> Meaning(write, JObject(members), depth).value == SLeaf(HeadOf(write, members).node)
  {
    hide HeadOf;
  }

  lemma NodeNamed(members: seq<Field>, props: seq<(string, nat)>, means: seq<Property>, required: seq<nat>, additional: bool)
    requires |props| == |means| && forall i :: 0 <= i < |props| ==> props[i].0 == means[i].name
    requires ObjectNode(members, Names(means)) == Ok(Object(Names(means), required, additional))
    ensures ObjectNode(members, props) == Ok(Object(props, required, additional))
  {
    hide ObjectNode;
    ObjectNodeNames(members, props, Names(means));
  }

  lemma DenotesLeaf(nodes: Arena, id: nat, node: Node)
    requires Denotes(nodes, id, SLeaf(node))
    ensures id < |nodes| && nodes[id] == node
  {}

  lemma DenotesArray(nodes: Arena, id: nat, items: Shape)
    requires Denotes(nodes, id, SArray(items))
    ensures id < |nodes| && nodes[id].Array? && nodes[id].items < |nodes| && Denotes(nodes, nodes[id].items, items)
  {}

  lemma DenotesObject(nodes: Arena, id: nat, props: seq<Property>, required: seq<nat>, additional: bool)
    requires Denotes(nodes, id, SObject(props, required, additional))
    ensures id < |nodes| && nodes[id].Object? && nodes[id] == Object(nodes[id].properties, required, additional)
    ensures |nodes[id].properties| == |props|
    ensures forall i :: 0 <= i < |props| ==> nodes[id].properties[i].0 == props[i].name && Denotes(nodes, nodes[id].properties[i].1, props[i].shape)
  {}

  /** A node that denotes what a schema means has exactly the schema's values. */
  lemma {:induction false} SchemaMeans(write: Writer, schema: Json, depth: nat, nodes: Arena, id: nat)
    requires Compact(write) && Furnished(nodes) && Meaning(write, schema, depth).Ok? && Denotes(nodes, id, Meaning(write, schema, depth).value)
    ensures Same(write, nodes, id, schema)
    decreases Height(schema), 1
  {
    hide *;
    if !schema.JObject? {
      BooleanMeans(write, schema, depth, nodes, id);
    } else {
      var members := schema.members;
      var shape := Meaning(write, schema, depth).value;
      MeaningRest(write, members, depth);
      var h := HeadOf(write, members);
      HeadLower(write, members);
      match h
      case Leaf(node) =>
        DenotesLeaf(nodes, id, node);
        forall t ensures IsValue(nodes, id, t) <==> Admits(write, schema, t) {
          LeafMeans(write, members, nodes, id, t);
        }
        IsSame(write, nodes, id, schema);
      case ArrayOf(items) =>
        MeaningArray(write, members, depth);
        DenotesArray(nodes, id, shape.items);
        HeadParts(write, members);
        if items.Some? {
          SchemaMeans(write, items.value, depth + 1, nodes, nodes[id].items);
        } else {
          NoItems(nodes, nodes[id].items);
        }
        forall t ensures IsValue(nodes, id, t) <==> Admits(write, schema, t) {
          ArrayMeans(write, members, nodes, id, t);
        }
        IsSame(write, nodes, id, schema);
      case ObjectOf(fields) =>
        PropertiesMean(write, members, depth, nodes, id);
        forall t ensures IsValue(nodes, id, t) <==> Admits(write, schema, t) {
          ObjectAdmits(write, members, nodes, id, t);
        }
        IsSame(write, nodes, id, schema);
      case Wrong(_) =>
    }
  }

  lemma IsSame(write: Writer, nodes: Arena, id: nat, schema: Json)
    requires forall t :: IsValue(nodes, id, t) <==> Admits(write, schema, t)
    ensures Same(write, nodes, id, schema)
  {
    hide IsValue, Admits;
  }

  lemma BooleanMeans(write: Writer, schema: Json, depth: nat, nodes: Arena, id: nat)
    requires !schema.JObject? && Furnished(nodes) && Meaning(write, schema, depth).Ok? && Denotes(nodes, id, Meaning(write, schema, depth).value)
    ensures Same(write, nodes, id, schema)
  {
    hide Furnished, IsValue, JsonText;
    forall t ensures IsValue(nodes, id, t) <==> Admits(write, schema, t) {
      AnyIsJson(nodes, id, t);
    }
  }

  lemma NoItems(nodes: Arena, id: nat)
    requires Furnished(nodes) && Denotes(nodes, id, SLeaf(Any))
    ensures SameAsAny(nodes, id)
  {
    hide *;
    DenotesLeaf(nodes, id, Any);
    forall t ensures IsValue(nodes, id, t) <==> JsonText(t) {
      AnyIsJson(nodes, id, t);
    }
    IsAny(nodes, id);
  }

  lemma IsAny(nodes: Arena, id: nat)
    requires forall t :: IsValue(nodes, id, t) <==> JsonText(t)
    ensures SameAsAny(nodes, id)
  {
    hide IsValue, JsonText;
  }

  lemma {:induction false} PropertiesMean(write: Writer, members: seq<Field>, depth: nat, nodes: Arena, id: nat)
    requires Compact(write) && Furnished(nodes) && HeadOf(write, members).ObjectOf?
    requires Meaning(write, JObject(members), depth).Ok? && Denotes(nodes, id, Meaning(write, JObject(members), depth).value)
    ensures MadeOf(write, members, nodes, id)
    decreases Height(JObject(members)), 0
  {
    hide *;
    var shape := Meaning(write, JObject(members), depth).value;
    var fields := HeadOf(write, members).properties;
    MeaningObject(write, members, depth);
    HeadPinned(write, members);
    HeadTyped(write, members, Get(members, "type").value.chars);
    DenotesObject(nodes, id, shape.properties, shape.required, shape.additional);
    MeaningsLength(write, fields, depth + 1);
    var props := nodes[id].properties;
    forall i: nat | i < |fields| ensures props[i].0 == fields[i].name && Same(write, nodes, props[i].1, fields[i].value) {
      MeaningsAt(write, fields, depth + 1, i);
      FieldLower(fields, i);
      HeadLower(write, members);
      SchemaMeans(write, fields[i].value, depth + 1, nodes, props[i].1);
    }
    NodeNamed(members, props, shape.properties, shape.required, shape.additional);
    IsMade(write, members, nodes, id);
  }

  lemma IsMade(write: Writer, members: seq<Field>, nodes: Arena, id: nat)
    requires id < |nodes| && nodes[id].Object? && ObjectNode(members, nodes[id].properties) == Ok(nodes[id])
    requires |nodes[id].properties| == |FieldsOf(members)|
    requires forall i: nat :: i < |FieldsOf(members)| ==>
      nodes[id].properties[i].0 == FieldsOf(members)[i].name && Same(write, nodes, nodes[id].properties[i].1, FieldsOf(members)[i].value)
    ensures MadeOf(write, members, nodes, id)
  {
    hide ObjectNode, FieldsOf, Same;
  }

  lemma {:induction false} FieldLower(fields: seq<Field>, i: nat)
    requires i < |fields|
    ensures Height(fields[i].value) < 1 + HeightFields(fields)
    decreases |fields|
  {
    if i > 0 {
      FieldLower(fields[1..], i - 1);
    }
  }

  // ------------------------------------------------------- where options come from

  /** Every option of the arena begins as a JSON text does. */
  ghost predicate Lettered(nodes: Arena) {
    forall i: nat :: i < |nodes| ==> NodeLettered(nodes[i])
  }

  ghost predicate NodeLettered(n: Node) {
    n.Choice? ==> forall o :: o in n.options ==> Begins(o)
  }

  lemma LetteredGrows(nodes: Arena, node: Node)
    requires Lettered(nodes) && NodeLettered(node)
    ensures Lettered(nodes + [node])
  {
    hide NodeLettered;
  }

  lemma HeadLettered(write: Writer, members: seq<Field>)
    requires Compact(write) && HeadOf(write, members).Leaf?
    ensures NodeLettered(HeadOf(write, members).node)
  {
    hide *;
    HeadPinned(write, members);
    var c, e, ty := Get(members, "const"), Get(members, "enum"), Get(members, "type");
    if c.Some? {
      CompactAt(write, c.value);
      OptionsLettered([write(c.value)]);
    } else if e.Some? {
      forall o | o in Written(write, e.value.items) ensures Begins(o) {
        WrittenHas(write, e.value.items, o);
        var v :| v in e.value.items && o == write(v);
        CompactAt(write, v);
      }
      OptionsLettered(Written(write, e.value.items));
    } else {
      if ty.Some? {
        HeadTyped(write, members, ty.value.chars);
      }
      PlainLettered(HeadOf(write, members).node);
    }
  }

  lemma OptionsLettered(options: seq<string>)
    requires forall o :: o in options ==> Begins(o)
    ensures NodeLettered(Choice(options))
  {
    hide Begins;
  }

  lemma PlainLettered(n: Node)
    requires !n.Choice?
    ensures NodeLettered(n)
  {}

  lemma {:induction false} CompileLettered(write: Writer, schema: Json, nodes: Arena, depth: nat)
    requires Compact(write) && Lettered(nodes) && CompileNode(write, schema, nodes, depth).Ok?
    ensures Lettered(CompileNode(write, schema, nodes, depth).value.0)
    decreases Height(schema), 0
  {
    hide *;
    if depth > MaxDepth || !schema.JObject? {
      CompileBase(write, schema, nodes, depth);
      PlainLettered(Any);
      LetteredGrows(nodes, Any);
    } else {
      var members := schema.members;
      HeadLower(write, members);
      CompileIs(write, members, nodes, depth);
      var h := HeadOf(write, members);
      match h
      case Leaf(node) =>
        HeadLettered(write, members);
        LetteredGrows(nodes, node);
      case ArrayOf(None) =>
        PlainLettered(Any);
        PlainLettered(Array(|nodes|));
        LetteredGrows(nodes, Any);
        LetteredGrows(nodes + [Any], Array(|nodes|));
        assert nodes + [Any] + [Array(|nodes|)] == nodes + [Any, Array(|nodes|)];
      case ArrayOf(Some(sub)) =>
        CompileLettered(write, sub, nodes, depth + 1);
        var got := CompileNode(write, sub, nodes, depth + 1).value;
        PlainLettered(Array(got.1));
        LetteredGrows(got.0, Array(got.1));
      case ObjectOf(fields) =>
        ObjectFieldsOk(write, members, fields, nodes, depth);
        FieldsLettered(write, fields, nodes, depth + 1);
        ObjectLettered(write, members, fields, nodes, depth);
      case Wrong(_) =>
    }
  }

  lemma ObjectLettered(write: Writer, members: seq<Field>, fields: seq<Field>, nodes: Arena, depth: nat)
    requires depth <= MaxDepth && HeadOf(write, members) == ObjectOf(fields) && CompileNode(write, JObject(members), nodes, depth).Ok?
    requires CompileFields(write, fields, nodes, depth + 1).Ok? && Lettered(CompileFields(write, fields, nodes, depth + 1).value.0)
    ensures Lettered(CompileNode(write, JObject(members), nodes, depth).value.0)
  {
    hide HeadOf, CompileFields, RequiredOf, AdditionalOf, Lettered, NodeLettered;
    var (grown, props) := CompileFields(write, fields, nodes, depth + 1).value;
    var node := ObjectNode(members, props).value;
    PlainLettered(node);
    LetteredGrows(grown, node);
  }

  lemma {:induction false} FieldsLettered(write: Writer, fields: seq<Field>, nodes: Arena, depth: nat)
    requires Compact(write) && Lettered(nodes) && CompileFields(write, fields, nodes, depth).Ok?
    ensures Lettered(CompileFields(write, fields, nodes, depth).value.0)
    decreases HeightFields(fields), 1
  {
    hide Lettered, CompileNode, Compact;
    if fields != [] {
      CompileLettered(write, fields[0].value, nodes, depth);
      FieldsLettered(write, fields[1..], CompileNode(write, fields[0].value, nodes, depth).value.0, depth);
    }
  }

  lemma RootedLettered(nodes: Arena, root: nat)
    requires root < |nodes| && Lettered(nodes)
    ensures Lettered(Rooted(nodes, root))
  {
    forall i: nat | i < |nodes| ensures NodeLettered(Rooted(nodes, root)[i]) {
      assert NodeLettered(nodes[Swapped(i, root)]);
    }
  }

  lemma ArenaLettered(write: Writer, schema: Json)
    requires Compact(write) && CompileSchema(write, schema).Ok?
    ensures Lettered(WithAny(CompileSchema(write, schema).value))
  {
    CompileMeans(write, schema, [], 0);
    CompileLettered(write, schema, [], 0);
    var (nodes, root) := CompileNode(write, schema, [], 0).value;
    hide CompileNode, Compact, Lettered, FirstAny;
    RootedLettered(nodes, root);
    var arena := CompileSchema(write, schema).value;
    PlainLettered(Any);
    LetteredGrows(arena, Any);
  }

  lemma LetteredFurnished(nodes: Arena)
    requires Lettered(nodes) && FirstAny(nodes).Some? && |nodes| <= Free
    ensures Furnished(nodes)
  {
    hide FirstAny;
    forall i | 0 <= i < |nodes| && nodes[i].Choice? ensures forall o :: o in nodes[i].options ==> o == "" || !IsWs(o[0]) {
      assert NodeLettered(nodes[i]);
    }
  }

  lemma ArenaFurnished(write: Writer, schema: Json)
    requires Compact(write) && CompileSchema(write, schema).Ok? && |CompileSchema(write, schema).value| < Free
    ensures Furnished(WithAny(CompileSchema(write, schema).value))
  {
    hide *;
    ArenaLettered(write, schema);
    WithAnySize(CompileSchema(write, schema).value);
    LetteredFurnished(WithAny(CompileSchema(write, schema).value));
  }

  lemma WithAnySize(nodes: Arena)
    ensures |WithAny(nodes)| <= |nodes| + 1
  {}

  // ---------------------------------------------------------- the main statement

  lemma DocumentIs(nodes: Arena, text: string)
    ensures IsDocument(nodes, text) <==> exists k: nat :: k <= |text| && IsValue(nodes, 0, text[..k]) && AllWs(text[k..])
  {
    hide IsValue, AllWs;
  }

  lemma TextIs(write: Writer, schema: Json, text: string)
    ensures IsText(write, schema, text) <==> exists k: nat :: k <= |text| && Admits(write, schema, text[..k]) && AllWs(text[k..])
  {
    hide Admits, AllWs;
  }

  /** The documents of a compiled schema are the texts of the schema: what its keywords say, nothing of the arena. */
  lemma CompiledTexts(write: Writer, schema: Json, text: string)
    requires Compact(write) && CompileSchema(write, schema).Ok? && |CompileSchema(write, schema).value| < Free
    ensures IsDocument(WithAny(CompileSchema(write, schema).value), text) <==> IsText(write, schema, text)
  {
    hide *;
    var nodes := WithAny(CompileSchema(write, schema).value);
    CompilePreservesMeaning(write, schema);
    ArenaFurnished(write, schema);
    SchemaMeans(write, schema, 0, nodes, 0);
    DocumentIs(nodes, text);
    TextIs(write, schema, text);
    forall k: nat | k <= |text| ensures IsValue(nodes, 0, text[..k]) <==> Admits(write, schema, text[..k]) {
      SameAt(write, nodes, 0, schema, text[..k]);
    }
  }
}
