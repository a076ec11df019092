/** Which schema documents compile, said keyword by keyword. */
module Compilable {
  import opened Prelude
  import opened Machines
  import opened Schemas
  import opened SchemaTexts

  const Scalars: seq<string> := ["string", "integer", "number", "boolean", "null"]

  lemma FieldsLower(members: seq<Field>)
    ensures forall fields: seq<Field> :: Says(members, "properties", JObject(fields)) ==>
      forall i :: 0 <= i < |fields| ==> Height(fields[i].value) < Height(JObject(members))
  {
    forall fields: seq<Field> | Says(members, "properties", JObject(fields))
      ensures forall i :: 0 <= i < |fields| ==> Height(fields[i].value) < Height(JObject(members))
    {
      hide Says;
      SaysLower(members, "properties", JObject(fields));
      forall i | 0 <= i < |fields| ensures Height(fields[i].value) < Height(JObject(members)) {
        FieldLower(fields, i);
      }
    }
  }

  /** The document is a schema the compiler supports, no deeper than its limit. */
  ghost predicate WellSaid(schema: Json, depth: nat)
    decreases Height(schema), 1
  {
    depth <= MaxDepth
    && match schema
       case JBool(b) => b
       case JObject(members) =>
         (forall i :: 0 <= i < |members| ==> members[i].name in Supported)
         && if !Silent(members, "const") then true
            else if !Silent(members, "enum") then exists items :: Says(members, "enum", JArray(items)) && items != []
            else Silent(members, "type") || exists name :: Says(members, "type", JString(name)) && TypeWellSaid(members, name, depth)
       case _ => false
  }

  /** The keywords that go with a type. */
  ghost predicate TypeWellSaid(members: seq<Field>, name: string, depth: nat)
    decreases Height(JObject(members)), 0
  {
    AllLower(members);
    FieldsLower(members);
    if name == "array" then Silent(members, "items") || exists sub :: Says(members, "items", sub) && WellSaid(sub, depth + 1)
    else if name == "object" then
      (Silent(members, "properties")
       || exists fields: seq<Field> :: Says(members, "properties", JObject(fields)) && forall i :: 0 <= i < |fields| ==> WellSaid(fields[i].value, depth + 1))
      && RequiredWellSaid(members) && OthersWellSaid(members)
    else name in Scalars
  }

  /** Required names are strings, each of them declared. */
  ghost predicate RequiredWellSaid(members: seq<Field>) {
    Silent(members, "required")
    || exists names: seq<Json> :: Says(members, "required", JArray(names)) && forall k :: 0 <= k < |names| ==> names[k].JString? && HasProperty(members, names[k].chars)
  }

  /** Yes or no, and not an object that could only be empty. */
  ghost predicate OthersWellSaid(members: seq<Field>) {
    (Silent(members, "additionalProperties") || exists b :: Says(members, "additionalProperties", JBool(b)))
    && (AllowsOthers(members) || exists key :: HasProperty(members, key))
  }

  // ------------------------------------------------------------ head by head

  lemma HeadSupported(write: Writer, members: seq<Field>)
    requires !HeadOf(write, members).Wrong?
    ensures forall i :: 0 <= i < |members| ==> members[i].name in Supported
  {
    hide Get, Written, Supported;
  }

  lemma HeadUntyped(write: Writer, members: seq<Field>)
    requires forall i :: 0 <= i < |members| ==> members[i].name in Supported
    ensures var c, e, ty := Get(members, "const"), Get(members, "enum"), Get(members, "type");
      (c.Some? ==> !HeadOf(write, members).Wrong?)
      && (c.None? && e.Some? ==> (!HeadOf(write, members).Wrong? <==> e.value.JArray? && e.value.items != []))
      && (c.None? && e.None? && (ty.None? || !ty.value.JString?) ==> (!HeadOf(write, members).Wrong? <==> ty.None?))
  {
    hide Get, Written, Supported;
  }

  lemma NamesKnown(name: string)
    ensures name in Scalars <==> name == "string" || name == "integer" || name == "number" || name == "boolean" || name == "null"
  {
    assert Scalars[0] == "string" && Scalars[1] == "integer" && Scalars[2] == "number" && Scalars[3] == "boolean" && Scalars[4] == "null";
  }

  lemma HeadUnknown(write: Writer, members: seq<Field>, name: string)
    requires (forall i :: 0 <= i < |members| ==> members[i].name in Supported) && HeadOf(write, members).Wrong?
    requires Get(members, "const").None? && Get(members, "enum").None? && Get(members, "type") == Some(JString(name))
    ensures name != "string" && name != "integer" && name != "number" && name != "boolean" && name != "null" && name != "array"
    ensures name == "object" ==> Get(members, "properties").Some? && !Get(members, "properties").value.JObject?
  {
    hide Get, Written, Supported;
  }

  lemma HeadKnown(write: Writer, members: seq<Field>, name: string)
    requires forall i :: 0 <= i < |members| ==> members[i].name in Supported
    requires Get(members, "const").None? && Get(members, "enum").None? && Get(members, "type") == Some(JString(name))
    ensures !HeadOf(write, members).Wrong? <==> NameKnown(members, name)
  {
    hide *;
    NamesKnown(name);
    ScalarsKnown(members, name);
    if HeadOf(write, members).Wrong? {
      HeadUnknown(write, members, name);
    } else {
      HeadTyped(write, members, name);
    }
  }

  lemma HeadWrong(write: Writer, members: seq<Field>)
    ensures var c, e, ty := Get(members, "const"), Get(members, "enum"), Get(members, "type");
      !HeadOf(write, members).Wrong? <==>
        (forall i :: 0 <= i < |members| ==> members[i].name in Supported)
        && (c.Some?
            || (e.Some? && e.value.JArray? && e.value.items != [])
            || (e.None? && (ty.None? || (ty.value.JString? && NameKnown(members, ty.value.chars)))))
  {
    hide *;
    if !HeadOf(write, members).Wrong? {
      HeadSupported(write, members);
    }
    if forall i :: 0 <= i < |members| ==> members[i].name in Supported {
      HeadUntyped(write, members);
      var c, e, ty := Get(members, "const"), Get(members, "enum"), Get(members, "type");
      if c.None? && e.None? && ty.Some? && ty.value.JString? {
        HeadKnown(write, members, ty.value.chars);
      }
    }
  }

  predicate NameKnown(members: seq<Field>, name: string) {
    name in Scalars || name == "array"
    || (name == "object" && (Get(members, "properties").None? || Get(members, "properties").value.JObject?))
  }

  lemma TypedHead(write: Writer, members: seq<Field>, name: string)
    requires !HeadOf(write, members).Wrong? && Get(members, "const").None? && Get(members, "enum").None? && Get(members, "type") == Some(JString(name))
    ensures name == "array" ==> HeadOf(write, members) == ArrayOf(Get(members, "items"))
    ensures name == "object" ==> HeadOf(write, members) == ObjectOf(FieldsOf(members))
    ensures name != "array" && name != "object" ==> HeadOf(write, members).Leaf? && name in Scalars
  {
    HeadTyped(write, members, name);
    hide HeadOf, Get, FieldsOf;
    assert Scalars[0] == "string" && Scalars[1] == "integer" && Scalars[2] == "number" && Scalars[3] == "boolean" && Scalars[4] == "null";
  }

  lemma {:induction false} PositionsOk(names: seq<Json>, props: seq<(string, nat)>)
    ensures Positions(names, props).Ok? <==> forall k :: 0 <= k < |names| ==> names[k].JString? && Find(props, names[k].chars).Some?
  {
    hide Find;
    if names != [] {
      PositionsOk(names[1..], props);
      assert forall k :: 0 < k < |names| ==> names[k] == names[1..][k - 1];
      if Positions(names[1..], props).Err? {
        var k :| 0 <= k < |names[1..]| && !(names[1..][k].JString? && Find(props, names[1..][k].chars).Some?);
        assert names[k + 1] == names[1..][k];
      }
    }
  }

  ghost predicate Named(props: seq<(string, nat)>, fields: seq<Field>) {
    |props| == |fields| && forall i :: 0 <= i < |props| ==> props[i].0 == fields[i].name
  }

  lemma FoundIff(members: seq<Field>, props: seq<(string, nat)>, key: string)
    requires Named(props, FieldsOf(members))
    ensures Find(props, key).Some? <==> HasProperty(members, key)
  {
    PropertyIs(members, props, key);
    hide Find, FieldsOf, Declares;
  }

  lemma RequiredIff(members: seq<Field>, props: seq<(string, nat)>)
    requires Named(props, FieldsOf(members))
    ensures RequiredOf(members, props).Ok? <==> RequiredWellSaid(members)
  {
    GetIff(members, "required");
    hide Says, Silent, Get, Named, FieldsOf, HasProperty, Find, Positions;
    match Get(members, "required")
    case Some(JArray(names)) =>
      PositionsOk(names, props);
      forall k | 0 <= k < |names| && names[k].JString? ensures Find(props, names[k].chars).Some? <==> HasProperty(members, names[k].chars) {
        FoundIff(members, props, names[k].chars);
      }
      assert Says(members, "required", JArray(names));
      if RequiredWellSaid(members) {
        var xs: seq<Json> :| Says(members, "required", JArray(xs)) && forall k :: 0 <= k < |xs| ==> xs[k].JString? && HasProperty(members, xs[k].chars);
        assert xs == names;
      }
    case _ =>
  }

  lemma OthersIff(members: seq<Field>, props: seq<(string, nat)>)
    requires Named(props, FieldsOf(members))
    ensures OthersWellSaid(members) <==>
      AdditionalOf(members, props == []).Ok? && !(props == [] && !AdditionalOf(members, props == []).value)
  {
    GetIff(members, "additionalProperties");
    hide Says, Silent, Get, FieldsOf, HasProperty, AllowsOthers;
    var a := Get(members, "additionalProperties");
    if a.Some? && a.value.JBool? {
      assert Says(members, "additionalProperties", JBool(a.value.value));
    }
    if AdditionalOf(members, props == []).Ok? {
      AdditionalMeans(members, props);
    }
    if props == [] {
      forall key ensures !HasProperty(members, key) {
        FoundIff(members, props, key);
      }
    } else {
      FoundIff(members, props, props[0].0);
      FindFirst(props);
    }
  }

  lemma FindFirst(props: seq<(string, nat)>)
    requires props != []
    ensures Find(props, props[0].0).Some?
  {}

  lemma ObjectNodeOk(members: seq<Field>, props: seq<(string, nat)>)
    requires Named(props, FieldsOf(members))
    ensures ObjectNode(members, props).Ok? <==> RequiredWellSaid(members) && OthersWellSaid(members)
    ensures ObjectNode(members, props).Ok? ==> ObjectNode(members, props).value.Object?
  {
    RequiredIff(members, props);
    OthersIff(members, props);
    hide RequiredOf, AdditionalOf, RequiredWellSaid, OthersWellSaid, FieldsOf;
  }

  // ------------------------------------------------------------- the whole schema

  lemma {:induction false} MeaningsOk(write: Writer, fields: seq<Field>, depth: nat)
    ensures Meanings(write, fields, depth).Ok? <==> forall i :: 0 <= i < |fields| ==> Meaning(write, fields[i].value, depth).Ok?
    decreases |fields|
  {
    hide Meaning;
    if fields != [] {
      MeaningsOk(write, fields[1..], depth);
      assert forall i :: 0 < i < |fields| ==> fields[i] == fields[1..][i - 1];
      if Meanings(write, fields[1..], depth).Err? {
        var i :| 0 <= i < |fields[1..]| && !Meaning(write, fields[1..][i].value, depth).Ok?;
        assert fields[i + 1] == fields[1..][i];
      }
    }
  }

  lemma MeaningOk(write: Writer, members: seq<Field>, depth: nat)
    ensures var h := HeadOf(write, members);
      Meaning(write, JObject(members), depth).Ok? <==>
        depth <= MaxDepth && !h.Wrong?
        && (h.ArrayOf? && h.items.Some? ==> Meaning(write, h.items.value, depth + 1).Ok?)
        && (h.ObjectOf? ==>
              Meanings(write, h.properties, depth + 1).Ok? && ObjectNode(members, Names(Meanings(write, h.properties, depth + 1).value)).Ok?)
  {
    hide HeadOf, Meanings, ObjectNode;
  }

  lemma ArraySaid(members: seq<Field>, depth: nat)
    ensures match Get(members, "items")
      case None => TypeWellSaid(members, "array", depth)
      case Some(sub) => TypeWellSaid(members, "array", depth) <==> WellSaid(sub, depth + 1)
  {
    GetIff(members, "items");
    hide Says, Silent, Get, WellSaid, RequiredWellSaid, OthersWellSaid;
    match Get(members, "items")
    case Some(sub) => assert Says(members, "items", sub);
    case None =>
  }

  lemma ObjectSaid(members: seq<Field>, depth: nat)
    ensures TypeWellSaid(members, "object", depth) <==>
      (Get(members, "properties").Some? ==> Get(members, "properties").value.JObject?)
      && (forall i :: 0 <= i < |FieldsOf(members)| ==> WellSaid(FieldsOf(members)[i].value, depth + 1))
      && RequiredWellSaid(members) && OthersWellSaid(members)
  {
    GetIff(members, "properties");
    hide Says, Silent, Get, WellSaid, RequiredWellSaid, OthersWellSaid;
    NotArray();
    match Get(members, "properties")
    case Some(JObject(fields)) =>
      assert Says(members, "properties", JObject(fields)) && FieldsOf(members) == fields;
    case _ =>
  }

  lemma NotArray()
    ensures "object" != "array"
  {
    assert "object"[0] != "array"[0];
  }

  lemma ScalarSaid(members: seq<Field>, name: string, depth: nat)
    requires name != "array" && name != "object"
    ensures TypeWellSaid(members, name, depth) <==> name in Scalars
  {}

  lemma SaidIs(members: seq<Field>, depth: nat)
    ensures var c, e, ty := Get(members, "const"), Get(members, "enum"), Get(members, "type");
      WellSaid(JObject(members), depth) <==>
        depth <= MaxDepth && (forall i :: 0 <= i < |members| ==> members[i].name in Supported)
        && (c.Some?
            || (e.Some? && e.value.JArray? && e.value.items != [])
            || (e.None? && (ty.None? || (ty.value.JString? && TypeWellSaid(members, ty.value.chars, depth)))))
  {
    GetIff(members, "const");
    GetIff(members, "enum");
    GetIff(members, "type");
    hide Says, Silent, Get, TypeWellSaid, Supported;
    var e, ty := Get(members, "enum"), Get(members, "type");
    if e.Some? {
      assert Says(members, "enum", e.value);
    }
    if ty.Some? {
      assert Says(members, "type", ty.value);
    }
  }

  lemma ScalarsKnown(members: seq<Field>, name: string)
    ensures NameKnown(members, name) <==> name in Scalars || name == "array" || (name == "object" && (Get(members, "properties").Some? ==> Get(members, "properties").value.JObject?))
  {
    hide Get;
  }

  lemma NoContainers()
    ensures "array" !in Scalars && "object" !in Scalars
  {
    forall i | 0 <= i < |Scalars| ensures Scalars[i] != "array" && Scalars[i] != "object" {
      assert Scalars[i][0] != 'a' && Scalars[i][0] != 'o';
    }
  }

  /** A schema object that says a type. */
  lemma {:induction false} TypedOk(write: Writer, members: seq<Field>, name: string, depth: nat)
    requires depth <= MaxDepth && Get(members, "const").None? && Get(members, "enum").None? && Get(members, "type") == Some(JString(name))
    requires forall i :: 0 <= i < |members| ==> members[i].name in Supported
    ensures Meaning(write, JObject(members), depth).Ok? <==> TypeWellSaid(members, name, depth)
    decreases Height(JObject(members)), 0
  {
    hide *;
    HeadWrong(write, members);
    MeaningOk(write, members, depth);
    ScalarsKnown(members, name);
    NoContainers();
    HeadLower(write, members);
    if !HeadOf(write, members).Wrong? {
      TypedHead(write, members, name);
    }
    if name == "array" {
      ArraySaid(members, depth);
      if Get(members, "items").Some? {
        CompilesIff(write, Get(members, "items").value, depth + 1);
      }
    } else if name == "object" {
      ObjectSaid(members, depth);
      if !HeadOf(write, members).Wrong? {
        PropertiesOk(write, members, depth);
      }
    } else {
      ScalarSaid(members, name, depth);
    }
  }

  lemma {:induction false} PropertiesOk(write: Writer, members: seq<Field>, depth: nat)
    requires HeadOf(write, members) == ObjectOf(FieldsOf(members))
    ensures var fields := FieldsOf(members);
      (Meanings(write, fields, depth + 1).Ok? <==> forall i :: 0 <= i < |fields| ==> WellSaid(fields[i].value, depth + 1))
      && (Meanings(write, fields, depth + 1).Ok? ==>
            (ObjectNode(members, Names(Meanings(write, fields, depth + 1).value)).Ok? <==> RequiredWellSaid(members) && OthersWellSaid(members)))
    decreases Height(JObject(members)), -1
  {
    hide *;
    var fields := FieldsOf(members);
    MeaningsOk(write, fields, depth + 1);
    HeadLower(write, members);
    forall i | 0 <= i < |fields| ensures Meaning(write, fields[i].value, depth + 1).Ok? <==> WellSaid(fields[i].value, depth + 1) {
      FieldLower(fields, i);
      CompilesIff(write, fields[i].value, depth + 1);
    }
    if Meanings(write, fields, depth + 1).Ok? {
      NamesNamed(write, fields, depth + 1);
      ObjectNodeOk(members, Names(Meanings(write, fields, depth + 1).value));
    }
  }

  lemma NamesNamed(write: Writer, fields: seq<Field>, depth: nat)
    requires Meanings(write, fields, depth).Ok?
    ensures Named(Names(Meanings(write, fields, depth).value), fields)
  {
    MeaningsLength(write, fields, depth);
    var props := Meanings(write, fields, depth).value;
    hide Meanings, Meaning;
    forall i: nat | i < |fields| ensures Names(props)[i].0 == fields[i].name {
      MeaningsAt(write, fields, depth, i);
    }
  }

  lemma {:induction false} CompilesIff(write: Writer, schema: Json, depth: nat)
    ensures Meaning(write, schema, depth).Ok? <==> WellSaid(schema, depth)
    decreases Height(schema), 1
  {
    hide *;
    if schema.JObject? {
      var members := schema.members;
      SaidIs(members, depth);
      MeaningOk(write, members, depth);
      HeadWrong(write, members);
      var c, e, ty := Get(members, "const"), Get(members, "enum"), Get(members, "type");
      if c.None? && e.None? && ty.Some? && ty.value.JString? {
        if depth <= MaxDepth && forall i :: 0 <= i < |members| ==> members[i].name in Supported {
          TypedOk(write, members, ty.value.chars, depth);
        }
      } else if !HeadOf(write, members).Wrong? {
        PinnedLeaf(write, members);
      }
    } else {
      NotObject(write, schema, depth);
    }
  }

  lemma PinnedLeaf(write: Writer, members: seq<Field>)
    requires !HeadOf(write, members).Wrong?
    requires Get(members, "const").Some? || Get(members, "enum").Some? || Get(members, "type").None?
    ensures HeadOf(write, members).Leaf?
  {
    hide *;
    HeadPinned(write, members);
  }

  lemma NotObject(write: Writer, schema: Json, depth: nat)
    requires !schema.JObject?
    ensures Meaning(write, schema, depth).Ok? <==> WellSaid(schema, depth)
  {}

  /** A schema compiles if and only if its document is well said: supported keywords, at most thirty-two levels, a
      nonempty array of values, a known type, properties that are schemas, required names that are declared, additional
      properties allowed or not, and not an object that could only be empty. */
  lemma CompiledIff(write: Writer, schema: Json)
    ensures CompileSchema(write, schema).Ok? <==> WellSaid(schema, 0)
  {
    hide *;
    CompilePreservesMeaning(write, schema);
    CompilesIff(write, schema, 0);
  }
}
