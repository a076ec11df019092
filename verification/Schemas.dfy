/** Schema compilation (crates/vapi-engine/src/structured.rs): a JSON Schema document flattened into an arena, its root
    swapped to index 0. The arena means what the document means. */
module Schemas {
  import opened Prelude
  import opened Machines
  import opened Closing

  // ------------------------------------------------------------- the document

  datatype Json =
    | JNull
    | JBool(value: bool)
    | JNumber(text: string)
    | JString(chars: string)
    | JArray(items: seq<Json>)
    | JObject(members: seq<Field>)

  datatype Field = Field(name: string, value: Json)

  datatype SchemaError =
    | TooDeep
    | NotAnObject
    | UnknownKeyword
    | BadEnum
    | BadType
    | BadProperties
    | BadRequired
    | BadAdditional
    | OnlyEmpty

  datatype Result<+T> = Ok(value: T) | Err(error: SchemaError)

  const MaxDepth: nat := 32

  const Supported: seq<string> :=
    ["type", "properties", "required", "additionalProperties", "items", "enum", "const", "title", "description", "$schema", "default", "examples"]

  function Get(members: seq<Field>, name: string): (r: Option<Json>)
    ensures r.Some? ==> exists i :: 0 <= i < |members| && members[i].name == name && members[i].value == r.value
  {
    if members == [] then None
    else if members[0].name == name then Some(members[0].value)
    else Get(members[1..], name)
  }

  /** A value written the one way the machine accepts it: the JSON writer, taken as given. */
  type Writer = Json -> string

  function Written(write: Writer, items: seq<Json>): (r: seq<string>)
    ensures |r| == |items| && forall i :: 0 <= i < |r| ==> r[i] == write(items[i])
  {
    seq(|items|, (i: nat) requires i < |items| => write(items[i]))
  }

  /** `required`, as indices into the declared properties. */
  function RequiredOf(members: seq<Field>, props: seq<(string, nat)>): (r: Result<seq<nat>>)
    ensures r.Ok? ==> forall i :: i in r.value ==> i < |props|
  {
    match Get(members, "required")
    case None => Ok([])
    case Some(JArray(names)) => Positions(names, props)
    case Some(_) => Err(BadRequired)
  }

  function Positions(names: seq<Json>, props: seq<(string, nat)>): (r: Result<seq<nat>>)
    ensures r.Ok? ==> forall i :: i in r.value ==> i < |props|
  {
    if names == [] then Ok([])
    else if !names[0].JString? then Err(BadRequired)
    else
      match Find(props, names[0].chars)
      case None => Err(BadRequired)
      case Some(i) =>
        match Positions(names[1..], props)
        case Err(e) => Err(e)
        case Ok(rest) => Ok([i] + rest)
  }

  function AdditionalOf(members: seq<Field>, none: bool): Result<bool> {
    match Get(members, "additionalProperties")
    case None => Ok(none)
    case Some(JBool(b)) => Ok(b)
    case Some(_) => Err(BadAdditional)
  }

  /** The object node, once its properties are compiled. */
  function ObjectNode(members: seq<Field>, props: seq<(string, nat)>): Result<Node> {
    match RequiredOf(members, props)
    case Err(e) => Err(e)
    case Ok(required) =>
      match AdditionalOf(members, props == [])
      case Err(e) => Err(e)
      case Ok(additional) =>
        if props == [] && !additional then Err(OnlyEmpty) else Ok(Object(props, required, additional))
  }

  /** What a schema object says apart from its sub-schemas. */
  datatype Head =
    | Wrong(error: SchemaError)
    | Leaf(node: Node)
    | ArrayOf(items: Option<Json>)
    | ObjectOf(properties: seq<Field>)

  function HeadOf(write: Writer, members: seq<Field>): (h: Head)
    ensures h.Leaf? ==> !h.node.Object? && !h.node.Array?
  {
    if exists i :: 0 <= i < |members| && members[i].name !in Supported then Wrong(UnknownKeyword)
    else match Get(members, "const")
      case Some(c) => Leaf(Choice([write(c)]))
      case None =>
        match Get(members, "enum")
        case Some(JArray(items)) => if items == [] then Wrong(BadEnum) else Leaf(Choice(Written(write, items)))
        case Some(_) => Wrong(BadEnum)
        case None =>
          match Get(members, "type")
          case None => Leaf(Any)
          case Some(JString(name)) =>
            if name == "string" then Leaf(StringNode)
            else if name == "integer" then Leaf(Number(true))
            else if name == "number" then Leaf(Number(false))
            else if name == "boolean" then Leaf(Bool)
            else if name == "null" then Leaf(Null)
            else if name == "array" then ArrayOf(Get(members, "items"))
            else if name == "object" then
              (match Get(members, "properties")
               case None => ObjectOf([])
               case Some(JObject(fields)) => ObjectOf(fields)
               case Some(_) => Wrong(BadProperties))
            else Wrong(BadType)
          case Some(_) => Wrong(BadType)
  }

  // -------------------------------------------------------------- compilation

  function Height(j: Json): nat {
    match j
    case JArray(items) => 1 + HeightAll(items)
    case JObject(members) => 1 + HeightFields(members)
    case _ => 1
  }

  function HeightAll(items: seq<Json>): nat {
    if items == [] then 0 else Height(items[0]) + HeightAll(items[1..])
  }

  function HeightFields(members: seq<Field>): nat {
    if members == [] then 0 else 1 + Height(members[0].value) + HeightFields(members[1..])
  }

  lemma {:induction false} GetLower(members: seq<Field>, name: string)
    ensures Get(members, name).Some? ==> Height(Get(members, name).value) < 1 + HeightFields(members)
  {
    if members != [] && members[0].name != name {
      GetLower(members[1..], name);
    }
  }

  lemma HeadParts(write: Writer, members: seq<Field>)
    ensures var h := HeadOf(write, members);
      (h.ArrayOf? ==> h.items == Get(members, "items"))
      && (h.ObjectOf? ==> h.properties == [] || Get(members, "properties") == Some(JObject(h.properties)))
  {
    hide Get, Written, Supported;
  }

  /** The sub-schemas a head names are smaller than the schema. */
  lemma HeadLower(write: Writer, members: seq<Field>)
    ensures var h := HeadOf(write, members);
      (h.ArrayOf? && h.items.Some? ==> Height(h.items.value) < Height(JObject(members)))
      && (h.ObjectOf? ==> HeightFields(h.properties) < Height(JObject(members)))
  {
    HeadParts(write, members);
    hide HeadOf, Get;
    GetLower(members, "items");
    GetLower(members, "properties");
  }

  /** `compile_node`: the arena grown by the schema's nodes, children first, and the schema's own index. */
  function CompileNode(write: Writer, schema: Json, nodes: Arena, depth: nat): Result<(Arena, nat)>
    decreases Height(schema), 0
  {
    if depth > MaxDepth then Err(TooDeep)
    else match schema
      case JBool(b) => if b then Ok((nodes + [Any], |nodes|)) else Err(NotAnObject)
      case JObject(members) =>
        HeadLower(write, members);
        (match HeadOf(write, members)
         case Wrong(e) => Err(e)
         case Leaf(node) => Ok((nodes + [node], |nodes|))
         case ArrayOf(None) => Ok((nodes + [Any, Array(|nodes|)], |nodes| + 1))
         case ArrayOf(Some(sub)) =>
           (match CompileNode(write, sub, nodes, depth + 1)
            case Err(e) => Err(e)
            case Ok((grown, id)) => Ok((grown + [Array(id)], |grown|)))
         case ObjectOf(fields) =>
           match CompileFields(write, fields, nodes, depth + 1)
           case Err(e) => Err(e)
           case Ok((grown, props)) =>
             match ObjectNode(members, props)
             case Err(e) => Err(e)
             case Ok(node) => Ok((grown + [node], |grown|)))
      case _ => Err(NotAnObject)
  }

  function CompileFields(write: Writer, fields: seq<Field>, nodes: Arena, depth: nat): Result<(Arena, seq<(string, nat)>)>
    decreases HeightFields(fields), 1
  {
    if fields == [] then Ok((nodes, []))
    else match CompileNode(write, fields[0].value, nodes, depth)
      case Err(e) => Err(e)
      case Ok((grown, id)) =>
        match CompileFields(write, fields[1..], grown, depth)
        case Err(e) => Err(e)
        case Ok((all, rest)) => Ok((all, [(fields[0].name, id)] + rest))
  }

  function Swapped(i: nat, root: nat): nat {
    if i == 0 then root else if i == root then 0 else i
  }

  /** `remap` on one node. */
  function Remapped(n: Node, root: nat): Node {
    match n
    case Object(props, required, additional) =>
      Object(seq(|props|, (i: nat) requires i < |props| => (props[i].0, Swapped(props[i].1, root))), required, additional)
    case Array(items) => Array(Swapped(items, root))
    case _ => n
  }

  /** The root moved to index 0, every reference following. */
  function Rooted(nodes: Arena, root: nat): (r: Arena)
    requires root < |nodes|
    ensures |r| == |nodes| && forall i :: 0 <= i < |r| ==> r[i] == Remapped(nodes[Swapped(i, root)], root)
  {
    seq(|nodes|, (i: nat) requires i < |nodes| => Remapped(nodes[Swapped(i, root)], root))
  }

  /** `Schema::compile`. */
  function CompileSchema(write: Writer, schema: Json): Result<Arena> {
    match CompileNode(write, schema, [], 0)
    case Err(e) => Err(e)
    case Ok((nodes, root)) => if root == 0 || root >= |nodes| then Ok(nodes) else Ok(Rooted(nodes, root))
  }

  /** `with_any_node`. */
  function WithAny(nodes: Arena): (r: Arena)
    ensures FirstAny(r).Some? && nodes <= r
  {
    if FirstAny(nodes).Some? then nodes
    else
      var r := nodes + [Any];
      assert r[|nodes|].Any?;
      r
  }

  // ----------------------------------------------------------------- meaning

  /** What a schema means: a finite tree, no arena. */
  datatype Shape =
    | SLeaf(node: Node)
    | SArray(items: Shape)
    | SObject(properties: seq<Property>, required: seq<nat>, additional: bool)

  datatype Property = Property(name: string, shape: Shape)

  function Meaning(write: Writer, schema: Json, depth: nat): Result<Shape>
    decreases Height(schema), 0
  {
    if depth > MaxDepth then Err(TooDeep)
    else match schema
      case JBool(b) => if b then Ok(SLeaf(Any)) else Err(NotAnObject)
      case JObject(members) =>
        HeadLower(write, members);
        (match HeadOf(write, members)
         case Wrong(e) => Err(e)
         case Leaf(node) => Ok(SLeaf(node))
         case ArrayOf(None) => Ok(SArray(SLeaf(Any)))
         case ArrayOf(Some(sub)) =>
           (match Meaning(write, sub, depth + 1)
            case Err(e) => Err(e)
            case Ok(items) => Ok(SArray(items)))
         case ObjectOf(fields) =>
           match Meanings(write, fields, depth + 1)
           case Err(e) => Err(e)
           case Ok(props) =>
             match ObjectNode(members, Names(props))
             case Err(e) => Err(e)
             case Ok(node) => if node.Object? then Ok(SObject(props, node.required, node.additional)) else Ok(SLeaf(node)))
      case _ => Err(NotAnObject)
  }

  function Meanings(write: Writer, fields: seq<Field>, depth: nat): Result<seq<Property>>
    decreases HeightFields(fields), 1
  {
    if fields == [] then Ok([])
    else match Meaning(write, fields[0].value, depth)
      case Err(e) => Err(e)
      case Ok(shape) =>
        match Meanings(write, fields[1..], depth)
        case Err(e) => Err(e)
        case Ok(rest) => Ok([Property(fields[0].name, shape)] + rest)
  }

  /** The names alone, with nothing to refer to. */
  function Names(props: seq<Property>): (r: seq<(string, nat)>)
    ensures |r| == |props| && forall i :: 0 <= i < |r| ==> r[i].0 == props[i].name
  {
    seq(|props|, (i: nat) requires i < |props| => (props[i].name, 0))
  }

  /** Node `id` of the arena is that tree. */
  ghost predicate Denotes(nodes: Arena, id: nat, shape: Shape)
    decreases shape
  {
    id < |nodes|
    && match shape
       case SLeaf(node) => nodes[id] == node && !node.Object? && !node.Array?
       case SArray(items) => nodes[id].Array? && Denotes(nodes, nodes[id].items, items)
       case SObject(props, required, additional) =>
         nodes[id].Object? && nodes[id].required == required && nodes[id].additional == additional
         && |nodes[id].properties| == |props|
         && forall i :: 0 <= i < |props| ==> nodes[id].properties[i].0 == props[i].name && Denotes(nodes, nodes[id].properties[i].1, props[i].shape)
  }

  lemma {:induction false} DenotesMore(nodes: Arena, more: Arena, id: nat, shape: Shape)
    requires nodes <= more && Denotes(nodes, id, shape)
    ensures Denotes(more, id, shape)
    decreases shape
  {
    match shape
    case SLeaf(_) =>
    case SArray(items) => DenotesMore(nodes, more, nodes[id].items, items);
    case SObject(props, _, _) =>
      forall i | 0 <= i < |props| ensures Denotes(more, nodes[id].properties[i].1, props[i].shape) {
        DenotesMore(nodes, more, nodes[id].properties[i].1, props[i].shape);
      }
  }

  // ---------------------------------------- the arena means what the document does

  lemma {:induction false} FindNames(a: seq<(string, nat)>, b: seq<(string, nat)>, key: string)
    requires |a| == |b| && forall i :: 0 <= i < |a| ==> a[i].0 == b[i].0
    ensures Find(a, key) == Find(b, key)
  {
    if a != [] {
      assert a[0].0 == b[0].0;
      forall i | 0 <= i < |a[1..]| ensures a[1..][i].0 == b[1..][i].0 {
        assert a[i + 1].0 == b[i + 1].0;
      }
      FindNames(a[1..], b[1..], key);
    }
  }

  lemma {:induction false} PositionsNames(names: seq<Json>, a: seq<(string, nat)>, b: seq<(string, nat)>)
    requires |a| == |b| && forall i :: 0 <= i < |a| ==> a[i].0 == b[i].0
    ensures Positions(names, a) == Positions(names, b)
  {
    if names != [] {
      if names[0].JString? {
        FindNames(a, b, names[0].chars);
      }
      PositionsNames(names[1..], a, b);
    }
  }

  /** The object node depends on the names of its properties only. */
  lemma ObjectNodeNames(members: seq<Field>, a: seq<(string, nat)>, b: seq<(string, nat)>)
    requires |a| == |b| && forall i :: 0 <= i < |a| ==> a[i].0 == b[i].0
    ensures ObjectNode(members, a).Err? ==> ObjectNode(members, a) == ObjectNode(members, b)
    ensures ObjectNode(members, a).Ok? ==>
      ObjectNode(members, b).Ok? && ObjectNode(members, a).value.Object? && ObjectNode(members, b).value.Object?
      && ObjectNode(members, a).value == ObjectNode(members, b).value.(properties := a)
  {
    if Get(members, "required").Some? && Get(members, "required").value.JArray? {
      PositionsNames(Get(members, "required").value.items, a, b);
    }
    hide Get;
  }

  /** One node compiled: the same error, or a larger arena whose last node is the schema's meaning. */
  ghost predicate Compiled(nodes: Arena, got: Result<(Arena, nat)>, means: Result<Shape>) {
    match got
    case Err(e) => means == Err(e)
    case Ok((grown, id)) => means.Ok? && nodes <= grown && id + 1 == |grown| && Denotes(grown, id, means.value)
  }

  ghost predicate CompiledFields(nodes: Arena, got: Result<(Arena, seq<(string, nat)>)>, means: Result<seq<Property>>) {
    match got
    case Err(e) => means == Err(e)
    case Ok((grown, props)) =>
      means.Ok? && nodes <= grown && |props| == |means.value|
      && forall i :: 0 <= i < |props| ==> props[i].0 == means.value[i].name && Denotes(grown, props[i].1, means.value[i].shape)
  }

  lemma ArrayDenotes(grown: Arena, id: nat, items: Shape)
    requires Denotes(grown, id, items)
    ensures Denotes(grown + [Array(id)], |grown|, SArray(items))
  {
    DenotesMore(grown, grown + [Array(id)], id, items);
  }

  lemma ObjectDenotes(grown: Arena, node: Node, props: seq<Property>)
    requires node.Object? && |node.properties| == |props|
    requires forall i :: 0 <= i < |props| ==> node.properties[i].0 == props[i].name && Denotes(grown, node.properties[i].1, props[i].shape)
    ensures Denotes(grown + [node], |grown|, SObject(props, node.required, node.additional))
  {
    forall i | 0 <= i < |props| ensures Denotes(grown + [node], node.properties[i].1, props[i].shape) {
      DenotesMore(grown, grown + [node], node.properties[i].1, props[i].shape);
    }
  }

  /** `compile_node` and the meaning, case by case. */
  lemma CompileIs(write: Writer, members: seq<Field>, nodes: Arena, depth: nat)
    requires depth <= MaxDepth
    ensures var h, got, means := HeadOf(write, members), CompileNode(write, JObject(members), nodes, depth), Meaning(write, JObject(members), depth);
      (h.Wrong? ==> got == Err(h.error) && means == Err(h.error))
      && (h.Leaf? ==> got == Ok((nodes + [h.node], |nodes|)) && means == Ok(SLeaf(h.node)))
      && (h == ArrayOf(None) ==> got == Ok((nodes + [Any, Array(|nodes|)], |nodes| + 1)) && means == Ok(SArray(SLeaf(Any))))
      && (h.ArrayOf? && h.items.Some? ==>
            var sub, shape := CompileNode(write, h.items.value, nodes, depth + 1), Meaning(write, h.items.value, depth + 1);
            got == (match sub case Err(e) => Err(e) case Ok((grown, id)) => Ok((grown + [Array(id)], |grown|)))
            && means == (match shape case Err(e) => Err(e) case Ok(items) => Ok(SArray(items))))
  {
    hide HeadOf;
  }

  lemma LeafCompiled(nodes: Arena, node: Node)
    requires !node.Object? && !node.Array?
    ensures Compiled(nodes, Ok((nodes + [node], |nodes|)), Ok(SLeaf(node)))
  {}

  lemma AnyArrayCompiled(nodes: Arena)
    ensures Compiled(nodes, Ok((nodes + [Any, Array(|nodes|)], |nodes| + 1)), Ok(SArray(SLeaf(Any))))
  {
    ArrayDenotes(nodes + [Any], |nodes|, SLeaf(Any));
    assert nodes + [Any] + [Array(|nodes|)] == nodes + [Any, Array(|nodes|)];
  }

  lemma ArrayCompiled(nodes: Arena, grown: Arena, id: nat, items: Shape)
    requires Compiled(nodes, Ok((grown, id)), Ok(items))
    ensures Compiled(nodes, Ok((grown + [Array(id)], |grown|)), Ok(SArray(items)))
  {
    ArrayDenotes(grown, id, items);
  }

  lemma CompiledAgree(nodes: Arena, got: Result<(Arena, nat)>, means: Result<Shape>)
    requires Compiled(nodes, got, means)
    ensures got.Ok? <==> means.Ok?
    ensures got.Err? ==> means == Err(got.error)
    ensures got.Ok? ==> nodes <= got.value.0 && got.value.1 + 1 == |got.value.0|
  {}

  lemma {:induction false} CompileMeans(write: Writer, schema: Json, nodes: Arena, depth: nat)
    ensures Compiled(nodes, CompileNode(write, schema, nodes, depth), Meaning(write, schema, depth))
    decreases Height(schema), 0
  {
    hide *;
    if depth > MaxDepth || !schema.JObject? {
      CompileBase(write, schema, nodes, depth);
    } else {
      var members := schema.members;
      HeadLower(write, members);
      CompileIs(write, members, nodes, depth);
      var h := HeadOf(write, members);
      HeadLeaf(write, members);
      match h
      case Wrong(e) => ErrCompiled(nodes, e);
      case Leaf(node) => LeafCompiled(nodes, node);
      case ArrayOf(None) => AnyArrayCompiled(nodes);
      case ArrayOf(Some(sub)) =>
        CompileMeans(write, sub, nodes, depth + 1);
        var got, means := CompileNode(write, sub, nodes, depth + 1), Meaning(write, sub, depth + 1);
        CompiledAgree(nodes, got, means);
        if got.Ok? {
          ArrayCompiled(nodes, got.value.0, got.value.1, means.value);
        } else {
          ErrCompiled(nodes, got.error);
        }
      case ObjectOf(fields) =>
        CompileFieldsMean(write, fields, nodes, depth + 1);
        ObjectMeans(write, members, fields, nodes, depth);
    }
  }

  lemma CompileBase(write: Writer, schema: Json, nodes: Arena, depth: nat)
    requires depth > MaxDepth || !schema.JObject?
    ensures Compiled(nodes, CompileNode(write, schema, nodes, depth), Meaning(write, schema, depth))
    ensures CompileNode(write, schema, nodes, depth).Ok? ==> CompileNode(write, schema, nodes, depth).value.0 == nodes + [Any]
  {}

  lemma HeadLeaf(write: Writer, members: seq<Field>)
    ensures HeadOf(write, members).Leaf? ==> !HeadOf(write, members).node.Object? && !HeadOf(write, members).node.Array?
  {
    hide HeadOf;
  }

  lemma ErrCompiled(nodes: Arena, e: SchemaError)
    ensures Compiled(nodes, Err(e), Err(e))
  {}

  lemma ObjectMeans(write: Writer, members: seq<Field>, fields: seq<Field>, nodes: Arena, depth: nat)
    requires depth <= MaxDepth && HeadOf(write, members) == ObjectOf(fields)
    requires CompiledFields(nodes, CompileFields(write, fields, nodes, depth + 1), Meanings(write, fields, depth + 1))
    ensures Compiled(nodes, CompileNode(write, JObject(members), nodes, depth), Meaning(write, JObject(members), depth))
  {
    hide HeadOf, ObjectNode;
    var got := CompileFields(write, fields, nodes, depth + 1);
    if got.Ok? {
      var (grown, props) := got.value;
      var means := Meanings(write, fields, depth + 1).value;
      ObjectNodeNames(members, props, Names(means));
      var node := ObjectNode(members, props);
      if node.Ok? {
        ObjectDenotes(grown, node.value, means);
      }
    }
  }

  lemma {:induction false} CompileFieldsMean(write: Writer, fields: seq<Field>, nodes: Arena, depth: nat)
    ensures CompiledFields(nodes, CompileFields(write, fields, nodes, depth), Meanings(write, fields, depth))
    decreases HeightFields(fields), 1
  {
    if fields != [] {
      CompileMeans(write, fields[0].value, nodes, depth);
      var got := CompileNode(write, fields[0].value, nodes, depth);
      if got.Ok? {
        var (grown, id) := got.value;
        CompileFieldsMean(write, fields[1..], grown, depth);
        FieldsJoin(write, fields, nodes, depth, grown, id);
      }
    }
  }

  lemma FieldsJoin(write: Writer, fields: seq<Field>, nodes: Arena, depth: nat, grown: Arena, id: nat)
    requires fields != [] && CompileNode(write, fields[0].value, nodes, depth) == Ok((grown, id))
    requires Compiled(nodes, Ok((grown, id)), Meaning(write, fields[0].value, depth))
    requires CompiledFields(grown, CompileFields(write, fields[1..], grown, depth), Meanings(write, fields[1..], depth))
    ensures CompiledFields(nodes, CompileFields(write, fields, nodes, depth), Meanings(write, fields, depth))
  {
    var rest := CompileFields(write, fields[1..], grown, depth);
    hide Denotes;
    if rest.Ok? {
      DenotesMore(grown, rest.value.0, id, Meaning(write, fields[0].value, depth).value);
    }
  }

  // ------------------------------------------------------------- moving the root

  lemma SwappedTwice(i: nat, root: nat)
    ensures Swapped(Swapped(i, root), root) == i
  {}

  lemma {:induction false} RootedDenotes(nodes: Arena, root: nat, id: nat, shape: Shape)
    requires root < |nodes| && Denotes(nodes, id, shape)
    ensures Denotes(Rooted(nodes, root), Swapped(id, root), shape)
    decreases shape
  {
    SwappedTwice(id, root);
    match shape
    case SLeaf(_) =>
    case SArray(items) => RootedDenotes(nodes, root, nodes[id].items, items);
    case SObject(props, _, _) =>
      forall i | 0 <= i < |props| ensures Denotes(Rooted(nodes, root), Swapped(nodes[id].properties[i].1, root), props[i].shape) {
        RootedDenotes(nodes, root, nodes[id].properties[i].1, props[i].shape);
      }
  }

  /** Compilation preserves meaning: it fails exactly when, and as, the document has none, and otherwise node 0 of the
      arena, before and after an `Any` node is appended, is the document's meaning. */
  lemma CompilePreservesMeaning(write: Writer, schema: Json)
    ensures Meaning(write, schema, 0).Err? ==> CompileSchema(write, schema) == Err(Meaning(write, schema, 0).error)
    ensures Meaning(write, schema, 0).Ok? ==>
      CompileSchema(write, schema).Ok?
      && Denotes(CompileSchema(write, schema).value, 0, Meaning(write, schema, 0).value)
      && Denotes(WithAny(CompileSchema(write, schema).value), 0, Meaning(write, schema, 0).value)
  {
    CompileMeans(write, schema, [], 0);
    var got := CompileNode(write, schema, [], 0);
    if got.Ok? {
      var (nodes, root) := got.value;
      var shape := Meaning(write, schema, 0).value;
      RootedDenotes(nodes, root, root, shape);
      var arena := CompileSchema(write, schema).value;
      DenotesMore(arena, WithAny(arena), 0, shape);
    }
  }

  // -------------------------------------------- compiled arenas are well formed

  /** References point to earlier nodes: children first. */
  ghost predicate ChildrenFirst(nodes: Arena, i: nat)
    requires i < |nodes|
  {
    match nodes[i]
    case Object(props, required, _) =>
      (forall j :: 0 <= j < |props| ==> props[j].1 < i) && (forall r :: r in required ==> r < |props|)
    case Array(items) => items < i
    case _ => true
  }

  /** An arena in the order of compilation, of a schema whose names can be written if `plain`. */
  ghost predicate PostOrder(nodes: Arena, plain: bool) {
    forall i: nat :: i < |nodes| ==> ChildrenFirst(nodes, i) && (plain ==> SpellOk(nodes[i]))
  }

  ghost predicate DistinctFields(fields: seq<Field>) {
    forall i, j :: 0 <= i < j < |fields| ==> fields[i].name != fields[j].name
  }

  /** Names that can be written between quotes, each once. */
  ghost predicate PlainSchema(write: Writer, schema: Json)
    decreases Height(schema), 0
  {
    schema.JObject? ==>
      (HeadLower(write, schema.members);
       var h := HeadOf(write, schema.members);
       (h.ArrayOf? && h.items.Some? ==> PlainSchema(write, h.items.value))
       && (h.ObjectOf? ==> DistinctFields(h.properties) && PlainFields(write, h.properties)))
  }

  ghost predicate PlainFields(write: Writer, fields: seq<Field>)
    decreases HeightFields(fields), 1
  {
    fields == [] || (PlainName(fields[0].name) && PlainSchema(write, fields[0].value) && PlainFields(write, fields[1..]))
  }

  lemma PostOrderGrows(nodes: Arena, node: Node, plain: bool)
    requires PostOrder(nodes, plain) && ChildrenFirst(nodes + [node], |nodes|) && (plain ==> SpellOk(node))
    ensures PostOrder(nodes + [node], plain)
  {
    var more := nodes + [node];
    forall i: nat | i < |more| ensures ChildrenFirst(more, i) && (plain ==> SpellOk(more[i])) {
      if i < |nodes| {
        assert more[i] == nodes[i] && ChildrenFirst(nodes, i);
      }
    }
  }

  lemma LeafPostOrder(write: Writer, members: seq<Field>, nodes: Arena, plain: bool)
    requires PostOrder(nodes, plain) && HeadOf(write, members).Leaf?
    ensures PostOrder(nodes + [HeadOf(write, members).node], plain)
  {
    HeadLeaf(write, members);
    hide HeadOf;
    PostOrderGrows(nodes, HeadOf(write, members).node, plain);
  }

  lemma PlainParts(write: Writer, members: seq<Field>)
    requires PlainSchema(write, JObject(members))
    ensures var h := HeadOf(write, members);
      (h.ArrayOf? && h.items.Some? ==> PlainSchema(write, h.items.value))
      && (h.ObjectOf? ==> DistinctFields(h.properties) && PlainFields(write, h.properties))
  {
    hide HeadOf;
  }

  lemma ArrayPostOrder(nodes: Arena, id: nat, plain: bool)
    requires PostOrder(nodes, plain) && id < |nodes|
    ensures PostOrder(nodes + [Array(id)], plain)
  {
    PostOrderGrows(nodes, Array(id), plain);
  }

  lemma AnyPostOrder(nodes: Arena, plain: bool)
    requires PostOrder(nodes, plain)
    ensures PostOrder(nodes + [Any], plain)
  {
    PostOrderGrows(nodes, Any, plain);
  }

  lemma {:induction false} CompileIsPostOrder(write: Writer, schema: Json, nodes: Arena, depth: nat, plain: bool)
    requires PostOrder(nodes, plain) && (plain ==> PlainSchema(write, schema)) && CompileNode(write, schema, nodes, depth).Ok?
    ensures PostOrder(CompileNode(write, schema, nodes, depth).value.0, plain)
    decreases Height(schema), 0
  {
    hide *;
    if depth > MaxDepth || !schema.JObject? {
      CompileBase(write, schema, nodes, depth);
      AnyPostOrder(nodes, plain);
    } else {
      var members := schema.members;
      HeadLower(write, members);
      if plain {
        PlainParts(write, members);
      }
      CompileIs(write, members, nodes, depth);
      var h := HeadOf(write, members);
      match h
      case Leaf(_) => LeafPostOrder(write, members, nodes, plain);
      case ArrayOf(None) =>
        AnyPostOrder(nodes, plain);
        ArrayPostOrder(nodes + [Any], |nodes|, plain);
        assert nodes + [Any] + [Array(|nodes|)] == nodes + [Any, Array(|nodes|)];
      case ArrayOf(Some(sub)) =>
        CompileIsPostOrder(write, sub, nodes, depth + 1, plain);
        CompileMeans(write, sub, nodes, depth + 1);
        var got := CompileNode(write, sub, nodes, depth + 1);
        CompiledAgree(nodes, got, Meaning(write, sub, depth + 1));
        ArrayPostOrder(got.value.0, got.value.1, plain);
      case ObjectOf(fields) =>
        ObjectFieldsOk(write, members, fields, nodes, depth);
        CompileFieldsPostOrder(write, fields, nodes, depth + 1, plain);
        ObjectPostOrder(write, members, fields, nodes, depth, plain);
      case Wrong(_) =>
    }
  }

  lemma ObjectFieldsOk(write: Writer, members: seq<Field>, fields: seq<Field>, nodes: Arena, depth: nat)
    requires depth <= MaxDepth && HeadOf(write, members) == ObjectOf(fields) && CompileNode(write, JObject(members), nodes, depth).Ok?
    ensures CompileFields(write, fields, nodes, depth + 1).Ok?
  {
    hide HeadOf, ObjectNode;
  }

  lemma ObjectPostOrder(write: Writer, members: seq<Field>, fields: seq<Field>, nodes: Arena, depth: nat, plain: bool)
    requires depth <= MaxDepth && HeadOf(write, members) == ObjectOf(fields) && CompileNode(write, JObject(members), nodes, depth).Ok?
    requires (plain ==> DistinctFields(fields)) && CompileFields(write, fields, nodes, depth + 1).Ok?
    requires FieldsPlaced(fields, CompileFields(write, fields, nodes, depth + 1).value, plain)
    ensures PostOrder(CompileNode(write, JObject(members), nodes, depth).value.0, plain)
  {
    hide HeadOf, PlainName, CompileFields;
    var (grown, props) := CompileFields(write, fields, nodes, depth + 1).value;
    var node := ObjectNode(members, props).value;
    assert node.Object? && node.properties == props && forall r :: r in node.required ==> r < |props|;
    hide ObjectNode;
    PostOrderGrows(grown, node, plain);
  }

  /** Properties named as the fields are, all inside the arena. */
  ghost predicate FieldsPlaced(fields: seq<Field>, got: (Arena, seq<(string, nat)>), plain: bool) {
    PostOrder(got.0, plain) && |got.1| == |fields|
    && forall i :: 0 <= i < |fields| ==> got.1[i].0 == fields[i].name && got.1[i].1 < |got.0| && (plain ==> PlainName(fields[i].name))
  }

  lemma {:induction false} CompileFieldsPostOrder(write: Writer, fields: seq<Field>, nodes: Arena, depth: nat, plain: bool)
    requires PostOrder(nodes, plain) && (plain ==> PlainFields(write, fields)) && CompileFields(write, fields, nodes, depth).Ok?
    ensures FieldsPlaced(fields, CompileFields(write, fields, nodes, depth).value, plain)
    decreases HeightFields(fields), 1
  {
    if fields != [] {
      CompileMeans(write, fields[0].value, nodes, depth);
      CompileIsPostOrder(write, fields[0].value, nodes, depth, plain);
      var (grown, id) := CompileNode(write, fields[0].value, nodes, depth).value;
      CompileFieldsMean(write, fields[1..], grown, depth);
      CompileFieldsPostOrder(write, fields[1..], grown, depth, plain);
      hide PostOrder, PlainName, Denotes, PlainSchema;
      assert forall i :: 0 < i < |fields| ==> fields[i] == fields[1..][i - 1];
    }
  }

  /** The rank under which references fall: the place a node had when it was appended. */
  function RankOf(n: nat, root: nat): (r: seq<nat>)
    ensures |r| == n && forall i :: 0 <= i < n ==> r[i] == Swapped(i, root)
  {
    seq(n, (i: nat) => Swapped(i, root))
  }

  lemma RootedRefsOk(nodes: Arena, root: nat, i: nat, plain: bool)
    requires PostOrder(nodes, plain) && root < |nodes| && i < |nodes|
    ensures RefsOk(Rooted(nodes, root), RankOf(|nodes|, root), i)
    ensures plain ==> SpellOk(Rooted(nodes, root)[i])
  {
    var was := Swapped(i, root);
    assert ChildrenFirst(nodes, was) && (plain ==> SpellOk(nodes[was]));
    hide PlainName;
    var n := Rooted(nodes, root)[i];
    match nodes[was]
    case Object(props, _, _) =>
      forall j | 0 <= j < |props| ensures n.properties[j].1 < |nodes| && Swapped(n.properties[j].1, root) < was {
        SwappedTwice(props[j].1, root);
      }
    case Array(items) => SwappedTwice(items, root);
    case _ =>
  }

  lemma RootedAtZero(nodes: Arena)
    requires 0 < |nodes|
    ensures Rooted(nodes, 0) == nodes
  {
    forall i: nat | i < |nodes| ensures Remapped(nodes[i], 0) == nodes[i] {
      if nodes[i].Object? {
        assert Remapped(nodes[i], 0).properties == nodes[i].properties;
      }
    }
  }

  lemma AppendedOk(nodes: Arena, rank: seq<nat>, i: nat)
    requires i < |nodes| == |rank| && RefsOk(nodes, rank, i)
    ensures RefsOk(nodes + [Any], rank + [0], i)
  {}

  lemma WithAnyLinked(nodes: Arena, rank: seq<nat>) returns (r: seq<nat>)
    requires 0 < |nodes| == |rank| && |nodes| < Free && forall i: nat :: i < |nodes| ==> RefsOk(nodes, rank, i)
    ensures Linked(WithAny(nodes), r)
  {
    r := rank;
    if FirstAny(nodes).None? {
      r := rank + [0];
      var more := nodes + [Any];
      hide RefsOk;
      forall i: nat | i < |more| ensures RefsOk(more, r, i) {
        if i < |nodes| {
          AppendedOk(nodes, rank, i);
        } else {
          AnyOk(more, r, i);
        }
      }
    }
  }

  lemma AnyOk(nodes: Arena, rank: seq<nat>, i: nat)
    requires i < |nodes| == |rank| && nodes[i].Any?
    ensures RefsOk(nodes, rank, i)
  {}

  lemma CompiledRank(write: Writer, schema: Json) returns (rank: seq<nat>)
    requires CompileSchema(write, schema).Ok? && |CompileSchema(write, schema).value| < Free
    ensures Linked(WithAny(CompileSchema(write, schema).value), rank)
    ensures PlainSchema(write, schema) ==> WellFormed(WithAny(CompileSchema(write, schema).value), rank)
  {
    var plain := PlainSchema(write, schema);
    CompileMeans(write, schema, [], 0);
    CompileIsPostOrder(write, schema, [], 0, plain);
    var (nodes, root) := CompileNode(write, schema, [], 0).value;
    RootedAtZero(nodes);
    var arena := Rooted(nodes, root);
    assert CompileSchema(write, schema).value == arena;
    hide PlainSchema, CompileNode, CompileSchema, RefsOk, SpellOk, Linked;
    forall i: nat | i < |nodes| ensures RefsOk(arena, RankOf(|nodes|, root), i) && (plain ==> SpellOk(arena[i])) {
      RootedRefsOk(nodes, root, i, plain);
    }
    rank := WithAnyLinked(arena, RankOf(|nodes|, root));
    AnySpelled();
  }

  /** Every schema that compiles, below the arena's size limit, is an acyclic arena with every reference inside it; if
      its names can be written, so can the arena's. */
  lemma CompiledIsLinked(write: Writer, schema: Json)
    requires CompileSchema(write, schema).Ok? && |CompileSchema(write, schema).value| < Free
    ensures exists rank :: Linked(WithAny(CompileSchema(write, schema).value), rank)
    ensures PlainSchema(write, schema) ==> exists rank :: WellFormed(WithAny(CompileSchema(write, schema).value), rank)
  {
    var rank := CompiledRank(write, schema);
    hide Linked, WellFormed, CompileSchema, PlainSchema;
  }

  lemma AnySpelled()
    ensures SpellOk(Any)
  {}

  /** The arena as it is read refers and names as the arena does. */
  lemma ReadableLinked(nodes: Arena, rank: seq<nat>)
    requires Linked(nodes, rank)
    ensures Linked(Readable(nodes), rank) && (Spelled(nodes) ==> Spelled(Readable(nodes)))
  {
    var read := Readable(nodes);
    hide DistinctNames, PlainName;
    forall i: nat | i < |read| ensures RefsOk(read, rank, i) && (Spelled(nodes) ==> SpellOk(read[i])) {
      assert RefsOk(nodes, rank, i) && (Spelled(nodes) ==> SpellOk(nodes[i]));
    }
    var any := FirstAny(nodes).value;
    assert read[any].Any?;
  }

  /** What the program's machine works on: the compiled arena, completed and as it is read. */
  function ProgramArena(write: Writer, schema: Json): Arena
    requires CompileSchema(write, schema).Ok?
  {
    Readable(WithAny(CompileSchema(write, schema).value))
  }

  lemma ProgramRank(write: Writer, schema: Json) returns (rank: seq<nat>)
    requires CompileSchema(write, schema).Ok? && |CompileSchema(write, schema).value| < Free
    ensures Linked(ProgramArena(write, schema), rank)
    ensures PlainSchema(write, schema) ==> WellFormed(ProgramArena(write, schema), rank)
  {
    rank := CompiledRank(write, schema);
    ReadableLinked(WithAny(CompileSchema(write, schema).value), rank);
    hide Linked, Spelled, CompileSchema, PlainSchema;
  }

  /** So the machine of any compiled schema, whatever its names and options, never steps outside its arena. */
  lemma CompiledIndicesInside(write: Writer, schema: Json, text: string, i: nat)
    requires CompileSchema(write, schema).Ok? && |CompileSchema(write, schema).value| < Free
    requires var got := Push(ProgramArena(write, schema), NewMachine(), text); got.Some? && i < |got.value.stack|
    ensures var nodes := ProgramArena(write, schema);
      var f := Push(nodes, NewMachine(), text).value.stack[i];
      (f.Value? ==> f.id < |nodes|)
      && (f.Obj? ==> f.node == Free || (f.node < |nodes| && nodes[f.node].Object?))
      && (f.Obj? && f.ostate == OColon ==> ValueNode(nodes, f.node, f.key).Some? && ValueNode(nodes, f.node, f.key).value < |nodes|)
      && (f.Arr? ==> f.items == Free || f.items < |nodes|)
      && AnyNode(nodes) < |nodes|
  {
    hide *;
    var rank := ProgramRank(write, schema);
    IndicesInside(ProgramArena(write, schema), rank, text, i);
  }
}
