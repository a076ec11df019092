/** From a schema document to the texts the program accepts for it. */
module Languages {
  import opened Prelude
  import opened Encoding
  import opened Machines
  import opened Grammar
  import opened Closing
  import opened Accepting
  import opened Trimming
  import opened Caps
  import opened Schemas
  import opened SchemaTexts

  /** The program accepts the text as complete. */
  predicate Accepts(write: Writer, schema: Json, text: string)
    requires CompileSchema(write, schema).Ok?
  {
    var got := Push(ProgramArena(write, schema), NewMachine(), text);
    got.Some? && Complete(got.value)
  }

  lemma AcceptsIs(write: Writer, schema: Json, text: string)
    requires CompileSchema(write, schema).Ok?
    ensures var got := Push(ProgramArena(write, schema), NewMachine(), text); Accepts(write, schema, text) <==> got.Some? && Complete(got.value)
  {
    hide CompileSchema, Push, ProgramArena;
  }

  lemma ReadBegins(o: string)
    requires Begins(o)
    ensures Begins(Reading(o))
  {
    EncodedLength(o);
  }

  lemma NodeRead(n: Node)
    requires NodeLettered(n)
    ensures NodeLettered(ReadNode(n))
  {
    hide Reading, Begins;
    if n.Choice? {
      forall t | t in Readings(n.options) ensures Begins(t) {
        var k :| 0 <= k < |n.options| && Readings(n.options)[k] == t;
        assert n.options[k] in n.options;
        ReadBegins(n.options[k]);
      }
    }
  }

  lemma ReadLettered(nodes: Arena)
    requires Lettered(nodes)
    ensures Lettered(Readable(nodes))
  {
    hide NodeLettered, ReadNode;
    forall i: nat | i < |nodes| ensures NodeLettered(Readable(nodes)[i]) {
      NodeRead(nodes[i]);
    }
  }

  lemma LetteredBracketless(nodes: Arena)
    requires Lettered(nodes)
    ensures Bracketless(nodes)
  {
    forall i | 0 <= i < |nodes| && nodes[i].Choice? ensures forall o :: o in nodes[i].options ==> o == "" || o[0] != ']' {
      assert NodeLettered(nodes[i]);
    }
  }

  /** For every schema that compiles, with names that can be written: the program accepts the documents of the arena it
      reads, but for those with an enumerated value out of reach, as far as the caps let it read them. */
  lemma CompiledAcceptsIff(write: Writer, schema: Json, text: string)
    requires Compact(write) && PlainSchema(write, schema) && CompileSchema(write, schema).Ok? && |CompileSchema(write, schema).value| < Free
    ensures Accepts(write, schema, text) <==>
      IsDocument(Trimmed(ProgramArena(write, schema)), text) && Permitted(ProgramArena(write, schema), NewMachine(), text)
  {
    hide *;
    var nodes := ProgramArena(write, schema);
    var rank := ProgramRank(write, schema);
    ArenaLettered(write, schema);
    ProgramIs(write, schema);
    ReadLettered(WithAny(CompileSchema(write, schema).value));
    LetteredBracketless(nodes);
    AcceptedIff(nodes, rank, text);
    AcceptsIs(write, schema, text);
  }

  lemma ProgramIs(write: Writer, schema: Json)
    requires CompileSchema(write, schema).Ok?
    ensures ProgramArena(write, schema) == Readable(WithAny(CompileSchema(write, schema).value))
  {
    hide CompileSchema;
  }

  /** Enumerated values of ASCII, none of them a proper prefix of another of the same enumeration. */
  ghost predicate PlainValues(write: Writer, schema: Json)
    requires CompileSchema(write, schema).Ok?
  {
    AsciiOptions(CompileSchema(write, schema).value) && OptionsApart(CompileSchema(write, schema).value)
  }

  lemma PlainIs(write: Writer, schema: Json)
    requires CompileSchema(write, schema).Ok? && PlainValues(write, schema)
    ensures var nodes := WithAny(CompileSchema(write, schema).value); AsciiOptions(nodes) && OptionsApart(nodes)
  {
    hide CompileSchema, FirstAny, Apart, AllAscii;
  }

  /** The program accepts exactly the texts of the schema, as far as the caps let it read them: all of them, if their runs
      are short. */
  lemma AcceptsItsTexts(write: Writer, schema: Json, text: string)
    requires Compact(write) && PlainSchema(write, schema) && CompileSchema(write, schema).Ok? && |CompileSchema(write, schema).value| < Free
    requires PlainValues(write, schema)
    ensures Accepts(write, schema, text) <==> IsText(write, schema, text) && Permitted(ProgramArena(write, schema), NewMachine(), text)
    ensures Modest(text) ==> (Accepts(write, schema, text) <==> IsText(write, schema, text))
  {
    hide *;
    var nodes := WithAny(CompileSchema(write, schema).value);
    var rank := ProgramRank(write, schema);
    PlainIs(write, schema);
    AsciiReadable(nodes);
    ProgramIs(write, schema);
    ArenaLettered(write, schema);
    LetteredBracketless(nodes);
    IsLinked(nodes, rank);
    LinkedBelow(nodes, rank);
    AreSuited(nodes);
    ReadIff(nodes, rank, text);
    AcceptsIs(write, schema, text);
    CompiledTexts(write, schema, text);
    if Modest(text) {
      ModestPermitted(nodes, text);
    }
  }

  lemma AreSuited(nodes: Arena)
    requires Spelled(nodes) && OptionsApart(nodes) && Bracketless(nodes) && |nodes| <= Free
    ensures Suits(nodes)
  {}

  // ------------------------------------------------------------------- an example

  /** `{"type": ...}`. */
  function OfType(name: string): Json { JObject([Field("type", JString(name))]) }

  lemma OfTypeCompiles(write: Writer, name: string)
    requires name == "number" || name == "integer"
    ensures CompileSchema(write, OfType(name)) == Ok([Number(name == "integer")])
    ensures PlainSchema(write, OfType(name))
  {
    var members := [Field("type", JString(name))];
    assert Supported[0] == "type" && members[0].name in Supported;
    assert members[1..] == [];
    assert Get(members, "type") == Some(JString(name));
    assert "type"[0] != "const"[0] && "type"[0] != "enum"[0];
    assert Get(members, "const") == None && Get(members, "enum") == None;
    assert "number"[0] != "integer"[0] && "number"[0] != "string"[0] && "integer"[0] != "string"[0];
    hide Get, Supported;
    assert HeadOf(write, members) == Leaf(Number(name == "integer"));
    hide HeadOf, Height;
    CompileIs(write, members, [], 0);
    var none: Arena := [];
    assert none + [Number(name == "integer")] == [Number(name == "integer")];
  }

  lemma NothingTrails(integer: bool, text: string)
    requires text != "" && !IsWs(text[|text| - 1])
    ensures (exists k: nat :: k <= |text| && IsNumber(integer, text[..k]) && AllWs(text[k..])) <==> IsNumber(integer, text)
  {
    hide IsNumber, IsWs;
    assert text[..|text|] == text && AllWs(text[|text|..]);
    forall k: nat | k < |text| ensures !AllWs(text[k..]) {
      assert text[k..][|text| - 1 - k] == text[|text| - 1];
    }
  }

  lemma DecimalText()
    ensures IsNumber(false, "3.1") && !IsNumber(true, "3.1") && Modest("3.1")
  {
    var t := "3.1";
    assert t[1..] == ".1" && t[1..][1..] == "1" && "1"[1..] == "";
    assert DigitRun("1") == 1 && DigitRun(".1") == 0 && DigitRun(t) == 1;
    assert "1"[1..] == "" && IsExponent("");
    assert IsFraction(".1");
    assert ShortRuns(IsWs, MaxWsRun - 1, 0, "") && ShortRuns(IsWs, MaxWsRun - 1, 0, "1") && ShortRuns(IsWs, MaxWsRun - 1, 0, ".1");
    assert ShortRuns(IsNumberChar, MaxNumberChars, 3, "") && ShortRuns(IsNumberChar, MaxNumberChars, 2, "1") && ShortRuns(IsNumberChar, MaxNumberChars, 1, ".1");
  }

  /** 3.1 is a number and no integer. */
  lemma DecimalsAccepted(write: Writer)
    requires Compact(write)
    ensures CompileSchema(write, OfType("number")).Ok? && Accepts(write, OfType("number"), "3.1")
    ensures CompileSchema(write, OfType("integer")).Ok? && !Accepts(write, OfType("integer"), "3.1")
  {
    assert "number"[0] != "integer"[0] && "3.1"[|"3.1"| - 1] == '1';
    hide *;
    DecimalText();
    OfTypeCompiles(write, "number");
    OfTypeCompiles(write, "integer");
    NumberTexts(write, "number", "3.1");
    NumberTexts(write, "integer", "3.1");
    NoSpaceLast();
    NothingTrails(false, "3.1");
    NothingTrails(true, "3.1");
  }

  lemma NoSpaceLast()
    ensures !IsWs('1')
  {}

  lemma NumberTexts(write: Writer, name: string, text: string)
    requires Compact(write) && (name == "number" || name == "integer") && Modest(text)
    requires CompileSchema(write, OfType(name)) == Ok([Number(name == "integer")]) && PlainSchema(write, OfType(name))
    ensures Accepts(write, OfType(name), text) <==> exists k: nat :: k <= |text| && IsNumber(name == "integer", text[..k]) && AllWs(text[k..])
  {
    hide *;
    NumberPlain(write, name);
    AcceptsItsTexts(write, OfType(name), text);
    CompiledTexts(write, OfType(name), text);
    var nodes := WithAny(CompileSchema(write, OfType(name)).value);
    NumberFirst(nodes, name == "integer");
    DocumentIs(nodes, text);
    forall k: nat | k <= |text| ensures IsValue(nodes, 0, text[..k]) <==> IsNumber(name == "integer", text[..k]) {
      ScalarIs(nodes, 0, text[..k]);
    }
  }

  lemma NumberPlain(write: Writer, name: string)
    requires CompileSchema(write, OfType(name)) == Ok([Number(name == "integer")])
    ensures PlainValues(write, OfType(name)) && |CompileSchema(write, OfType(name)).value| < Free
  {}

  lemma NumberFirst(nodes: Arena, integer: bool)
    requires nodes == WithAny([Number(integer)])
    ensures nodes != [] && nodes[0] == Number(integer)
  {}
}
