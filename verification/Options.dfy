/** Two consequences for a compiled schema: completability end to end, and which enumerated values can be produced. */
module Options {
  import opened Prelude
  import opened Encoding
  import opened Machines
  import opened Grammar
  import opened Closing
  import opened Schemas

  /** For every schema that compiles, with names that can be written: a state the machine reaches can be completed if and
      only if it is viable and not stranded by a cap. */
  lemma CompiledViabilityIsExact(write: Writer, schema: Json, rank: seq<nat>, text: string)
    requires PlainSchema(write, schema) && CompileSchema(write, schema).Ok? && |CompileSchema(write, schema).value| < Free
    requires Linked(ProgramArena(write, schema), rank) && Push(ProgramArena(write, schema), NewMachine(), text).Some?
    ensures var nodes := ProgramArena(write, schema);
      var m := Push(nodes, NewMachine(), text).value;
      (exists rest :: Push(nodes, m, rest).Some? && Complete(Push(nodes, m, rest).value)) <==>
        Viable(nodes, m) && !Stranded(nodes, rank, m)
  {
    hide *;
    var some := ProgramRank(write, schema);
    var nodes := ProgramArena(write, schema);
    IsLinked(nodes, some);
    WellFormedMade(nodes, rank);
    ViabilityIsExact(nodes, rank, text);
  }

  lemma WellFormedMade(nodes: Arena, rank: seq<nat>)
    requires Linked(nodes, rank) && Spelled(nodes)
    ensures WellFormed(nodes, rank)
  {}

  // ---------------------------------------------------------- what a word reads

  lemma NothingRead(nodes: Arena, m: Machine, below: seq<Frame>)
    requires |below| < |m.stack|
    ensures !Reads(nodes, m, below, "")
  {
    ResumeSize(below);
  }

  /** Once the first character is read and the value still open, the rest is read from there. */
  lemma ReadsTail(nodes: Arena, m: Machine, below: seq<Frame>, text: string, x: Machine)
    requires text != "" && Reads(nodes, m, below, text) && PushChar(nodes, m, text[0]) == Some(x)
    ensures |below| < |x.stack| ==> Reads(nodes, x, below, text[1..])
    ensures |below| >= |x.stack| ==> |text| == 1
  {
    var c, rest := text[0], text[1..];
    assert text == [c] + rest;
    hide PushChar, Push, Resume;
    PushCons(nodes, m, c, x, rest);
    if |text| > 1 {
      assert StillOpen(nodes, m, below, text[..1]) && text[..1] == [c];
      PushOne(nodes, m, c);
    }
    forall k | 0 <= k < |rest| && |below| < |x.stack| ensures StillOpen(nodes, x, below, rest[..k]) {
      assert text[..k + 1] == [c] + rest[..k];
      assert StillOpen(nodes, m, below, text[..k + 1]);
      PushCons(nodes, m, c, x, rest[..k]);
    }
  }

  lemma ReadsStarts(nodes: Arena, m: Machine, below: seq<Frame>, text: string)
    requires text != "" && Reads(nodes, m, below, text)
    ensures PushChar(nodes, m, text[0]).Some?
  {
    hide PushChar;
  }

  /** What a word reads, whitespace included. */
  lemma WordPush(nodes: Arena, m: Machine, below: seq<Frame>, alts: seq<string>, at: nat, c: char)
    requires m.stack == below + [Word(alts, at)] && !m.done && PushChar(nodes, m, c).Some?
    ensures Count(m, c).Some? && Count(m, c).value.stack == m.stack && !Count(m, c).value.done && Counts(m.wsRun, c, Count(m, c).value.wsRun)
    ensures WordMove(alts, at, c).Stay? || WordMove(alts, at, c).Close?
  {
    assert Top(m) == Word(alts, at);
    hide WordMove;
    WordOnly(alts, at, c);
  }

  lemma WordOnly(alts: seq<string>, at: nat, c: char)
    ensures WordMove(alts, at, c).Stay? || WordMove(alts, at, c).Close? || WordMove(alts, at, c).Stop?
    ensures WordMove(alts, at, c).Stay? ==> WordMove(alts, at, c) == Stay(Word(Filter(alts, at, c), at + 1))
    ensures WordMove(alts, at, c).Close? ==> exists a :: a in alts && |a| == at + 1 && a[at] == c
  {}

  /** A word reads the rest of one of its alternatives and nothing else. */
  lemma {:induction false} WordReads(nodes: Arena, m: Machine, below: seq<Frame>, alts: seq<string>, at: nat, text: string) returns (a: string)
    requires m.stack == below + [Word(alts, at)] && !m.done && Resume(below).Some? && Reads(nodes, m, below, text)
    ensures a in alts && at <= |a| && a[at..] == text && Spaced(m.wsRun, text)
    decreases |text|
  {
    hide *;
    if text == "" {
      LongerStack(m, below, alts, at);
      NothingRead(nodes, m, below);
      assert false;
    }
    var c, rest := text[0], text[1..];
    assert text == [c] + rest;
    ReadsStarts(nodes, m, below, text);
    WordPush(nodes, m, below, alts, at, c);
    WordOnly(alts, at, c);
    var x := Count(m, c).value;
    WordPushed(nodes, m, below, alts, at, c, x);
    var y := PushChar(nodes, m, c).value;
    ReadsTail(nodes, m, below, text, y);
    if WordMove(alts, at, c).Stay? {
      LongerStack(y, below, Filter(alts, at, c), at + 1);
      a := WordReads(nodes, y, below, Filter(alts, at, c), at + 1, rest);
      FilterAt(alts, at, c, a);
      assert a[at..] == [a[at]] + a[at + 1..];
    } else {
      ResumeSize(below);
      a :| a in alts && |a| == at + 1 && a[at] == c;
      assert rest == "" && a[at..] == [c];
      SpacedNothing(x.wsRun);
    }
    SpacedCons(m.wsRun, c, x.wsRun, rest);
  }

  lemma LongerStack(m: Machine, below: seq<Frame>, alts: seq<string>, at: nat)
    requires m.stack == below + [Word(alts, at)]
    ensures |below| < |m.stack|
  {}

  lemma FilterAt(alts: seq<string>, at: nat, c: char, a: string)
    requires a in Filter(alts, at, c)
    ensures a in alts && at < |a| && a[at] == c
  {}

  lemma SpacedNothing(run: nat)
    ensures Spaced(run, "")
  {}

  lemma SpacedCons(run: nat, c: char, now: nat, rest: string)
    requires Counts(run, c, now) && Spaced(now, rest)
    ensures Spaced(run, [c] + rest)
  {
    assert ([c] + rest)[0] == c && ([c] + rest)[1..] == rest;
  }

  /** A value of an enumeration is read as one of its options. */
  lemma ChoiceReads(nodes: Arena, m: Machine, below: seq<Frame>, id: nat, text: string)
    requires m.stack == below + [Value(id)] && !m.done && Resume(below).Some? && id < |nodes| && nodes[id].Choice?
    requires Reads(nodes, m, below, text) && (text == "" || !IsWs(text[0]))
    ensures text in nodes[id].options && Writable(text)
  {
    hide *;
    if text == "" {
      LongerValue(m, below, id);
      NothingRead(nodes, m, below);
      assert false;
    }
    var c, rest, options := text[0], text[1..], nodes[id].options;
    assert text == [c] + rest;
    ReadsStarts(nodes, m, below, text);
    ChoicePush(nodes, m, below, id, c);
    var y := PushChar(nodes, m, c).value;
    ReadsTail(nodes, m, below, text, y);
    StartOnly(options, c);
    if StartAlts(options, c).Stay? {
      var alts := Filter(options, 0, c);
      AtWord(below, alts);
      LongerStack(y, below, alts, 1);
      var a := WordReads(nodes, y, below, alts, 1, rest);
      FilterAt(options, 0, c, a);
      assert a == [a[0]] + a[1..];
      assert text == a;
    } else {
      ResumeSize(below);
      AtResumed(below);
      var a :| a in options && |a| == 1 && a[0] == c;
      assert rest == "" && a == [c];
      assert text == a;
      SpacedNothing(0);
    }
    WritableIs(text);
  }

  lemma LongerValue(m: Machine, below: seq<Frame>, id: nat)
    requires m.stack == below + [Value(id)]
    ensures |below| < |m.stack|
  {}

  lemma WritableIs(o: string)
    ensures Writable(o) <==> o != "" && !IsWs(o[0]) && Spaced(0, o[1..])
  {}

  lemma AtWord(below: seq<Frame>, alts: seq<string>)
    ensures var x := At(below + [Word(alts, 1)]); x.stack == below + [Word(alts, 1)] && !x.done && x.wsRun == 0
  {}

  lemma AtResumed(below: seq<Frame>)
    requires Resume(below).Some?
    ensures At(Resume(below).value).stack == Resume(below).value
  {}

  lemma StartOnly(options: seq<string>, c: char)
    ensures StartAlts(options, c).Stay? ==> StartAlts(options, c) == Stay(Word(Filter(options, 0, c), 1))
    ensures StartAlts(options, c).Close? ==> exists a :: a in options && |a| == 1 && a[0] == c
  {}

  lemma ChoicePush(nodes: Arena, m: Machine, below: seq<Frame>, id: nat, c: char)
    requires m.stack == below + [Value(id)] && !m.done && Resume(below).Some? && id < |nodes| && nodes[id].Choice? && !IsWs(c)
    requires PushChar(nodes, m, c).Some?
    ensures var move := StartAlts(nodes[id].options, c);
      (move.Stay? && PushChar(nodes, m, c) == Some(At(below + [Word(Filter(nodes[id].options, 0, c), 1)])))
      || (move.Close? && PushChar(nodes, m, c) == Some(At(Resume(below).value)))
  {
    var move := StartAlts(nodes[id].options, c);
    assert MoveOf(nodes, Value(id), c) == move;
    assert Top(m) == Value(id);
    StartOnly(nodes[id].options, c);
    hide MoveOf, StartAlts, Filter;
    if move.Stay? {
      StepStay(nodes, m, below, Value(id), c, Word(Filter(nodes[id].options, 0, c), 1));
    } else if move.Close? {
      StepClose(nodes, m, below, Value(id), c);
    }
  }

  // ----------------------------------------------------- options behind options

  /** Among the options that begin `o`, the shortest. */
  lemma {:induction false} FirstShadow(options: seq<string>, o: string, n: nat) returns (p: string)
    requires o in options && n == |o|
    ensures p in options && p <= o && Unshadowed(options, p) && (o != "" ==> p != "")
    decreases n
  {
    if Unshadowed(options, o) {
      p := o;
    } else {
      var a :| a in options && a != "" && a < o;
      p := FirstShadow(options, a, |a|);
    }
  }

  /** Where a value has just ended, no character that can go on a number is taken. */
  lemma NoNumberAfter(nodes: Arena, m: Machine, below: seq<Frame>, c: char)
    requires Resume(below).Some? && m.stack == Resume(below).value && (m.done <==> m.stack == []) && IsNumberChar(c)
    ensures PushChar(nodes, m, c).None?
  {
    assert !IsWs(c) && Count(m, c) == Some(m.(wsRun := 0, started := true));
    if m.stack != [] {
      assert (Top(m).Obj? && Top(m).ostate == ONext) || (Top(m).Arr? && Top(m).astate == ANext);
      NumberRefused(nodes, Top(m), c);
    }
    hide MoveOf, Resume, Count, IsNumberChar;
  }

  lemma NumberRefused(nodes: Arena, f: Frame, c: char)
    requires IsNumberChar(c) && ((f.Obj? && f.ostate == ONext) || (f.Arr? && f.astate == ANext))
    ensures MoveOf(nodes, f, c) == Stop
  {}

  /** Two JSON values, one of which begins the other, are numbers: the longer goes on as a number does. */
  ghost predicate PartAsNumbers(options: seq<string>) {
    forall a, b :: a in options && b in options && a < b ==> IsNumberChar(b[|a|])
  }

  lemma PrefixWritable(a: string, o: string)
    requires a != "" && a <= o && Writable(o)
    ensures Writable(a)
  {
    assert a[0] == o[0] && a[1..] <= o[1..];
    SpacedPrefix(0, a[1..], o[1..]);
  }

  /** The machine finishes a value at the first option it has read in full. So, wherever an enumeration stands, at the
      root, below a property or in an array, it reads exactly the options without a run of whitespace too long that no
      other option is a proper prefix of. */
  lemma TextReadIff(nodes: Arena, m: Machine, below: seq<Frame>, id: nat, options: seq<string>, text: string)
    requires m.stack == below + [Value(id)] && !m.done && Resume(below).Some? && id < |nodes| && nodes[id] == Choice(options)
    requires text == "" || !IsWs(text[0])
    ensures Reads(nodes, m, below, text) <==> text in options && Writable(text) && Unshadowed(options, text)
  {
    hide *;
    if text in options && Writable(text) && Unshadowed(options, text) {
      UnshadowedRead(nodes, m, below, id, options, text);
    }
    if Reads(nodes, m, below, text) {
      ChoiceReads(nodes, m, below, id, text);
      WritableIs(text);
      var p := FirstShadow(options, text, |text|);
      if p != text {
        assert p < text;
        PrefixWritable(p, text);
        UnshadowedRead(nodes, m, below, id, options, p);
        ShadowedIsNotRead(nodes, m, below, p, text);
      }
    }
  }

  // --------------------------------------------------------- options as written

  /** No option is a proper prefix of another. */
  ghost predicate PrefixFree(options: seq<string>) {
    forall a, b :: a in options && b in options ==> !(a < b)
  }

  lemma ReadingsHave(options: seq<string>, t: string)
    ensures t in Readings(options) <==> exists o :: o in options && Reading(o) == t
  {
    if t in Readings(options) {
      var k :| 0 <= k < |options| && Readings(options)[k] == t;
      assert options[k] in options;
    }
    if o :| o in options && Reading(o) == t {
      var k :| 0 <= k < |options| && options[k] == o;
      assert Readings(options)[k] == t;
    }
  }

  lemma AsciiReadings(options: seq<string>)
    requires forall o :: o in options ==> AllAscii(o)
    ensures Readings(options) == options
  {
    forall k: nat | k < |options| ensures Readings(options)[k] == options[k] {
      assert options[k] in options;
      ReadingIs(options[k]);
    }
  }

  /** A text beyond ASCII is the reading of a shorter one. */
  lemma {:induction false} ReadByShorter(options: seq<string>, o: string, n: nat)
    requires (forall a :: a in options ==> a in Readings(options)) && o in options && n == |o|
    ensures AllAscii(o)
    decreases n
  {
    hide AllAscii, Reading;
    ReadingsHave(options, o);
    var a :| a in options && Reading(a) == o;
    ReadingIs(a);
    if !AllAscii(a) {
      ReadByShorter(options, a, |a|);
    }
  }

  /** Where an enumeration stands, and the text it is offered. */
  ghost predicate Standing(nodes: Arena, m: Machine, below: seq<Frame>, id: nat, options: seq<string>) {
    m.stack == below + [Value(id)] && !m.done && Resume(below).Some? && id < |nodes| && nodes[id] == Choice(options)
  }

  lemma ReadStanding(nodes: Arena, m: Machine, below: seq<Frame>, id: nat, options: seq<string>, text: string)
    requires Standing(nodes, m, below, id, options) && (text == "" || !IsWs(text[0]))
    ensures Reads(Readable(nodes), m, below, text) <==> text in Readings(options) && Writable(text) && Unshadowed(Readings(options), text)
  {
    hide Reads, Unshadowed, Writable, Reading;
    assert Readable(nodes)[id] == Choice(Readings(options));
    TextReadIff(Readable(nodes), m, below, id, Readings(options), text);
  }

  /** An option is produced exactly when it is the reading of one, its own or another's, and nothing ends before it. In
      particular, among options of ASCII that part as numbers do, one that another begins is refused. */
  lemma OptionReachableIff(nodes: Arena, m: Machine, below: seq<Frame>, id: nat, options: seq<string>, o: string)
    requires Standing(nodes, m, below, id, options) && o in options && (o == "" || !IsWs(o[0]))
    ensures Reads(Readable(nodes), m, below, o) <==> o in Readings(options) && Writable(o) && Unshadowed(Readings(options), o)
    ensures (forall a :: a in options ==> AllAscii(a)) && Writable(o) && PartAsNumbers(options) ==>
      (Push(Readable(nodes), m, o).Some? <==> Unshadowed(options, o))
  {
    hide *;
    ReadStanding(nodes, m, below, id, options, o);
    if (forall a :: a in options ==> AllAscii(a)) && Writable(o) && PartAsNumbers(options) {
      AsciiReadings(options);
      var p := FirstShadow(options, o, |o|);
      if p == o {
        ReadsAll(Readable(nodes), m, below, o);
      } else {
        assert p < o;
        WritableIs(o);
        PrefixWritable(p, o);
        WritableIs(p);
        ReadStanding(nodes, m, below, id, options, p);
        IsShadowed(options, p, o);
        PartsAt(options, p, o);
        ShadowedIsRefused(Readable(nodes), m, below, p, o);
      }
    }
  }

  lemma ReadsAll(nodes: Arena, m: Machine, below: seq<Frame>, o: string)
    requires Reads(nodes, m, below, o)
    ensures Push(nodes, m, o).Some?
  {}

  lemma IsShadowed(options: seq<string>, p: string, o: string)
    requires p in options && p != "" && p < o
    ensures !Unshadowed(options, o)
  {}

  lemma PartsAt(options: seq<string>, p: string, o: string)
    requires PartAsNumbers(options) && p in options && o in options && p < o
    ensures IsNumberChar(o[|p|])
  {}

  /** Every option of an enumeration is read as itself if and only if all are ASCII, none holds a run of whitespace too
      long, and none is a proper prefix of another. */
  lemma EveryOptionReadIff(nodes: Arena, m: Machine, below: seq<Frame>, id: nat, options: seq<string>)
    requires Standing(nodes, m, below, id, options) && forall o :: o in options ==> o == "" || !IsWs(o[0])
    ensures (forall o :: o in options ==> Reads(Readable(nodes), m, below, o)) <==>
      (forall o :: o in options ==> AllAscii(o) && Writable(o)) && PrefixFree(options)
  {
    hide *;
    forall o | o in options
      ensures Reads(Readable(nodes), m, below, o) <==> o in Readings(options) && Writable(o) && Unshadowed(Readings(options), o)
    {
      ReadStanding(nodes, m, below, id, options, o);
    }
    if forall o :: o in options ==> Reads(Readable(nodes), m, below, o) {
      forall o | o in options ensures AllAscii(o) {
        ReadByShorter(options, o, |o|);
      }
      AsciiReadings(options);
      UnshadowedFree(options);
    }
    if (forall o :: o in options ==> AllAscii(o) && Writable(o)) && PrefixFree(options) {
      AsciiReadings(options);
      FreeUnshadowed(options);
    }
  }

  lemma UnshadowedFree(options: seq<string>)
    requires forall o :: o in options ==> Writable(o) && Unshadowed(options, o)
    ensures PrefixFree(options)
  {
    forall a, b | a in options && b in options ensures !(a < b) {
      assert Writable(a) && Unshadowed(options, b);
    }
  }

  lemma FreeUnshadowed(options: seq<string>)
    requires PrefixFree(options)
    ensures forall o :: o in options ==> Unshadowed(options, o)
  {}

  lemma ShadowedIsRefused(nodes: Arena, m: Machine, below: seq<Frame>, p: string, o: string)
    requires Reads(nodes, m, below, p) && p < o && IsNumberChar(o[|p|])
    ensures Push(nodes, m, o).None?
  {
    hide Push, PushChar, Resume, StillOpen;
    var x, rest := Push(nodes, m, p).value, o[|p| + 1..];
    assert o == p + ([o[|p|]] + rest);
    PushThen(nodes, m, p, x, [o[|p|]] + rest);
    NoNumberAfter(nodes, x, below, o[|p|]);
    PushRefused(nodes, x, o[|p|], rest);
  }

  lemma ShadowedIsNotRead(nodes: Arena, m: Machine, below: seq<Frame>, p: string, o: string)
    requires Reads(nodes, m, below, p) && p < o
    ensures !Reads(nodes, m, below, o)
  {
    hide Push;
    ResumeSize(below);
    assert o[..|p|] == p;
    assert !StillOpen(nodes, m, below, o[..|p|]);
  }

  lemma ResumeSize(below: seq<Frame>)
    ensures Resume(below).Some? ==> |Resume(below).value| == |below|
  {}

  lemma PushRefused(nodes: Arena, m: Machine, c: char, rest: string)
    requires PushChar(nodes, m, c).None?
    ensures Push(nodes, m, [c] + rest).None?
  {
    hide PushChar;
    assert ([c] + rest)[0] == c;
  }


  lemma StartStanding(nodes: Arena, options: seq<string>)
    requires nodes != [] && nodes[0] == Choice(options)
    ensures Standing(nodes, NewMachine(), [], 0, options)
  {
    assert NewMachine().stack == [] + [Value(0)];
  }

  /** `{"enum": [1, 12]}`: 12 can never be produced. */
  lemma TwelveIsShadowed()
    ensures Push(Readable([Choice(["1", "12"])]), NewMachine(), "12").None?
  {
    var options := ["1", "12"];
    assert Spaced(0, "1"[1..]) && "12"[1..] == "2" && "2"[1..] == "" && Spaced(0, "2");
    assert options[0] == "1" && options[1] == "12";
    assert options[0] < options[1] && options[0] in options && options[0] != "";
    assert !Unshadowed(options, options[1]);
    assert PartAsNumbers(options) && AllAscii("1") && AllAscii("12") && Writable("12");
    hide *;
    StartStanding([Choice(options)], options);
    OptionReachableIff([Choice(options)], NewMachine(), [], 0, options, "12");
  }

  // ------------------------------------------------------------- beyond ASCII

  const Accented: string := "\"\U{00E9}\""
  const Mangled: string := "\"\U{00C3}\U{00A9}\""

  lemma AccentedReading()
    ensures Reading(Accented) == Mangled
  {
    assert Accented[1..] == "\U{00E9}\"" && Accented[1..][1..] == "\"" && Accented[1..][1..][1..] == "";
    assert EncodeText("\"") == [0x22] + EncodeText("");
    assert EncodeText(Accented[1..]) == [0xC3, 0xA9] + [0x22];
    assert EncodeText(Accented) == [0x22] + ([0xC3, 0xA9] + [0x22]);
    assert EncodeText(Accented) == [0x22, 0xC3, 0xA9, 0x22];
  }

  lemma MangledWritable()
    ensures Writable(Mangled)
  {
    var t := Mangled[1..];
    assert t[1..][1..] == "\"" && t[1..][1..][1..] == "";
    assert Spaced(0, "") && Spaced(0, t[1..][1..]) && Spaced(0, t[1..]) && Spaced(0, t);
  }

  /** `{"enum": ["\U{00E9}"]}`, one character beyond ASCII: the machine refuses the value, and accepts as complete a text that
      is no document of the schema. */
  lemma AccentIsMangled()
    ensures var nodes := [Choice([Accented])];
      Push(Readable(nodes), NewMachine(), Accented).None?
      && Push(Readable(nodes), NewMachine(), Mangled).Some? && Complete(Push(Readable(nodes), NewMachine(), Mangled).value)
      && !IsDocument(nodes, Mangled)
  {
    var options := [Accented];
    var nodes := [Choice(options)];
    AccentedReading();
    MangledWritable();
    MangledNoDocument(nodes);
    assert Readings(options) == [Mangled] && Unshadowed([Mangled], Mangled);
    assert Readable(nodes) == [Choice([Mangled])];
    AccentRefused(Readable(nodes));
    hide Push, Writable, Reading, IsDocument, Unshadowed, Standing, Complete;
    StartStanding(nodes, options);
    ReadStanding(nodes, NewMachine(), [], 0, options, Mangled);
    ReadsComplete(Readable(nodes), NewMachine(), Mangled);
  }

  lemma ReadsComplete(nodes: Arena, m: Machine, text: string)
    requires Reads(nodes, m, [], text)
    ensures Push(nodes, m, text).Some? && Complete(Push(nodes, m, text).value)
  {}

  lemma AccentRefused(nodes: Arena)
    requires nodes == [Choice([Mangled])]
    ensures Push(nodes, NewMachine(), Accented).None?
  {
    var m, alts := NewMachine(), Filter([Mangled], 0, '"');
    assert [Mangled][1..] == [] && Filter([], 0, '"') == [] && Mangled[0] == '"';
    assert alts == [Mangled];
    assert m.stack == [] + [Value(0)];
    assert MoveOf(nodes, Value(0), '"') == Stay(Word(alts, 1));
    StepStay(nodes, m, [], Value(0), '"', Word(alts, 1));
    var x := At([] + [Word(alts, 1)]);
    var rest := "\U{00E9}\"";
    assert Accented == ['"'] + rest;
    assert Filter(alts, 1, '\U{00E9}') == [];
    assert PushChar(nodes, x, rest[0]).None? by {
      assert Top(x) == Word(alts, 1);
    }
    hide PushChar;
    PushCons(nodes, m, '"', x, rest);
  }

  lemma MangledNoDocument(nodes: Arena)
    requires nodes == [Choice([Accented])]
    ensures !IsDocument(nodes, Mangled)
  {
    forall k: nat | k <= |Mangled| ensures !IsValue(nodes, 0, Mangled[..k]) {
      if k > 1 {
        assert Mangled[..k][1] != Accented[1];
      }
    }
  }
}
