/** Viability is exact: from every reachable state that is viable, and not stranded by a cap, a document can be completed,
    and from no other. The closing text is constructed. */
module Closing {
  import opened Prelude
  import opened Machines

  // ------------------------------------------------------ well-formed schemas

  /** A name that can be spelled between quotes as it is. */
  predicate PlainName(s: string) {
    forall i :: 0 <= i < |s| ==> s[i] != '"' && s[i] != '\\' && !IsControl(s[i])
  }

  /** No run of whitespace in `s`, coming after `run` of it, is longer than the machine takes. */
  predicate Spaced(run: nat, s: string)
    decreases |s|
  {
    s == "" || if IsWs(s[0]) then run < MaxWsRun && Spaced(run + 1, s[1..]) else Spaced(0, s[1..])
  }

  /** An option the machine can read to its end: it does not begin with whitespace and holds no run too long. */
  predicate Writable(o: string) {
    o != "" && !IsWs(o[0]) && Spaced(0, o[1..])
  }

  lemma {:induction false} SpacedPrefix(run: nat, a: string, b: string)
    requires Spaced(run, b) && a <= b
    ensures Spaced(run, a)
    decreases |a|
  {
    if a != "" {
      assert a[0] == b[0] && a[1..] <= b[1..];
      SpacedPrefix(if IsWs(a[0]) then run + 1 else 0, a[1..], b[1..]);
    }
  }

  ghost predicate DistinctNames(props: seq<(string, nat)>) {
    forall i, j :: 0 <= i < j < |props| ==> props[i].0 != props[j].0
  }

  /** References stay inside the arena, and `rank` falls along each of them, of a property or of an array's items. */
  ghost predicate RefsOk(nodes: Arena, rank: seq<nat>, i: nat)
    requires i < |nodes| == |rank|
  {
    match nodes[i]
    case Object(props, required, _) =>
      (forall j :: 0 <= j < |props| ==> props[j].1 < |nodes| && rank[props[j].1] < rank[i])
      && (forall r :: r in required ==> r < |props|)
    case Array(items) => items < |nodes| && rank[items] < rank[i]
    case _ => true
  }

  /** An acyclic arena with every reference inside it and a node for free-form values. */
  ghost predicate Linked(nodes: Arena, rank: seq<nat>) {
    0 < |nodes| == |rank| && |nodes| <= Free && FirstAny(nodes).Some?
    && forall i: nat :: i < |nodes| ==> RefsOk(nodes, rank, i)
  }

  /** Names can be written. */
  ghost predicate SpellOk(n: Node) {
    match n
    case Object(props, _, _) => DistinctNames(props) && forall j :: 0 <= j < |props| ==> PlainName(props[j].0)
    case _ => true
  }

  ghost predicate Spelled(nodes: Arena) {
    forall i: nat :: i < |nodes| ==> SpellOk(nodes[i])
  }

  ghost predicate WellFormed(nodes: Arena, rank: seq<nat>) {
    Linked(nodes, rank) && Spelled(nodes)
  }

  lemma IsLinked(nodes: Arena, rank: seq<nat>)
    requires WellFormed(nodes, rank)
    ensures Linked(nodes, rank) && Spelled(nodes)
  {}

  lemma ObjectLinks(nodes: Arena, rank: seq<nat>, i: nat)
    requires Linked(nodes, rank) && i < |nodes| && nodes[i].Object?
    ensures i != Free
    ensures forall j :: 0 <= j < |nodes[i].properties| ==>
      nodes[i].properties[j].1 < |nodes| && rank[nodes[i].properties[j].1] < rank[i]
    ensures forall r :: r in nodes[i].required ==> r < |nodes[i].properties|
  {
    assert RefsOk(nodes, rank, i);
  }

  lemma ObjectParts(nodes: Arena, rank: seq<nat>, i: nat)
    requires WellFormed(nodes, rank) && i < |nodes| && nodes[i].Object?
    ensures i != Free && DistinctNames(nodes[i].properties)
    ensures forall j :: 0 <= j < |nodes[i].properties| ==>
      nodes[i].properties[j].1 < |nodes| && rank[nodes[i].properties[j].1] < rank[i] && PlainName(nodes[i].properties[j].0)
    ensures forall r :: r in nodes[i].required ==> r < |nodes[i].properties|
  {
    ObjectLinks(nodes, rank, i);
    assert SpellOk(nodes[i]);
  }

  // ------------------------------------------------ what reachable states satisfy

  predicate FrameOk(nodes: Arena, f: Frame) {
    match f
    case Value(id) => id < |nodes|
    case Str(escape, _) => escape <= 5
    case Num(_, seenDigit, _, seenExp, expDigit, _, _) => (expDigit ==> seenExp) && (seenExp ==> seenDigit)
    case Word(_, _) => true
    case Obj(node, state, seen, key, escape) =>
      escape <= 5
      && (state == OKey && escape > 0 ==> KeysFree(nodes, node))
      && (state == OColon ==> ValueNode(nodes, node, key).Some? && ValueNode(nodes, node, key).value < |nodes|)
    case Arr(items, _) => items == Free || items < |nodes|
  }

  /** Nothing but whitespace comes before a word, so the machine has started. */
  predicate WordOk(m: Machine) {
    m.stack != [] && Top(m).Word? ==> m.started
  }

  ghost predicate Workable(nodes: Arena, m: Machine) {
    Sane(nodes, m) && WordOk(m) && forall i :: 0 <= i < |m.stack| ==> FrameOk(nodes, m.stack[i])
  }

  ghost predicate MoveOk(nodes: Arena, move: Move) {
    match move
    case Stay(f) => FrameOk(nodes, f)
    case Open(f, g) => FrameOk(nodes, f) && FrameOk(nodes, g)
    case OpenThen(f, g) => FrameOk(nodes, f) && FrameOk(nodes, g)
    case _ => true
  }

  lemma AnyInside(nodes: Arena, rank: seq<nat>)
    requires Linked(nodes, rank)
    ensures AnyNode(nodes) < |nodes| && nodes[AnyNode(nodes)].Any? && AnyNode(nodes) != Free
  {}

  lemma StartOk(nodes: Arena, rank: seq<nat>, id: nat, c: char)
    requires Linked(nodes, rank) && id < |nodes|
    ensures MoveOk(nodes, StartMove(nodes, id, c))
  {
    assert RefsOk(nodes, rank, id);
    hide Linked, Filter;
  }

  lemma CheckedKey(nodes: Arena, rank: seq<nat>, f: Frame)
    requires Linked(nodes, rank) && f.Obj? && Sound(nodes, f) && CheckKey(nodes, f.node, f.seen, f.key).Some?
    ensures ValueNode(nodes, f.node, f.key).Some? && ValueNode(nodes, f.node, f.key).value < |nodes|
  {
    AnyInside(nodes, rank);
    if f.node != Free {
      ObjectLinks(nodes, rank, f.node);
    }
    hide Linked;
  }

  lemma KeyOk(nodes: Arena, rank: seq<nat>, f: Frame, c: char)
    requires Linked(nodes, rank) && f.Obj? && f.ostate == OKey && Sound(nodes, f) && FrameOk(nodes, f)
    ensures MoveOk(nodes, KeyMove(nodes, f, c))
  {
    hide Linked, CheckKey, ValueNode, KeyPossible, KeysFree;
    if f.keyEscape == 0 && c == '"' && CheckKey(nodes, f.node, f.seen, f.key).Some? {
      CheckedKey(nodes, rank, f);
    }
  }

  lemma ObjOk(nodes: Arena, rank: seq<nat>, f: Frame, c: char)
    requires Linked(nodes, rank) && f.Obj? && Sound(nodes, f) && FrameOk(nodes, f) && !Waiting(f)
    ensures MoveOk(nodes, ObjMove(nodes, f, c))
  {
    hide Linked, CheckKey, ValueNode, KeyPossible, KeysFree, KeyMove, CanClose;
    if f.ostate == OKey {
      KeyOk(nodes, rank, f, c);
    }
  }

  lemma MoveOfOk(nodes: Arena, rank: seq<nat>, f: Frame, c: char)
    requires Linked(nodes, rank) && Sound(nodes, f) && FrameOk(nodes, f) && !Waiting(f)
    ensures MoveOk(nodes, MoveOf(nodes, f, c))
  {
    AnyInside(nodes, rank);
    hide Linked, StartMove, ObjMove;
    match f
    case Value(id) => StartOk(nodes, rank, id, c);
    case Obj(_, _, _, _, _) => ObjOk(nodes, rank, f, c);
    case Arr(_, _) =>
    case Str(_, _) =>
    case Num(_, _, _, _, _, _, _) =>
    case Word(_, _) =>
  }

  lemma ApplyOk(nodes: Arena, m: Machine, move: Move)
    requires m.stack != [] && (forall i :: 0 <= i < |m.stack| ==> FrameOk(nodes, m.stack[i])) && MoveOk(nodes, move)
    ensures var out := Apply(m, move);
      !out.Dead? ==> forall i :: 0 <= i < |out.m.stack| ==> FrameOk(nodes, out.m.stack[i])
  {
    var below := Below(m);
    assert forall i :: 0 <= i < |below| ==> below[i] == m.stack[i];
    if below != [] {
      ResumeOk(nodes, below[|below| - 1]);
    }
    hide FrameOk;
  }

  lemma ResumeOk(nodes: Arena, f: Frame)
    requires FrameOk(nodes, f)
    ensures f.Obj? ==> FrameOk(nodes, f.(ostate := ONext))
    ensures f.Arr? ==> FrameOk(nodes, f.(astate := ANext))
  {}

  lemma FramesAfter(nodes: Arena, rank: seq<nat>, m: Machine, c: char)
    requires Linked(nodes, rank) && Sane(nodes, m) && forall i :: 0 <= i < |m.stack| ==> FrameOk(nodes, m.stack[i])
    ensures var out := Once(nodes, m, c);
      !out.Dead? ==> forall i :: 0 <= i < |out.m.stack| ==> FrameOk(nodes, out.m.stack[i])
  {
    if Count(m, c).Some? && m.stack != [] {
      var x := Count(m, c).value;
      assert x.stack == m.stack && Sound(nodes, Top(x)) && !Waiting(Top(x)) && FrameOk(nodes, Top(x));
      hide Linked, Sane, FrameOk, MoveOf, Apply, Sound;
      MoveOfOk(nodes, rank, Top(x), c);
      ApplyOk(nodes, x, MoveOf(nodes, Top(x), c));
    }
  }

  ghost predicate FramesOk(nodes: Arena, m: Machine) {
    Sane(nodes, m) && forall i :: 0 <= i < |m.stack| ==> FrameOk(nodes, m.stack[i])
  }

  lemma OnceFrames(nodes: Arena, rank: seq<nat>, m: Machine, c: char)
    requires Linked(nodes, rank) && FramesOk(nodes, m)
    ensures !Once(nodes, m, c).Dead? ==> FramesOk(nodes, Once(nodes, m, c).m)
  {
    hide Linked, FrameOk, Once, Sane;
    OnceSane(nodes, m, c);
    FramesAfter(nodes, rank, m, c);
  }

  lemma {:induction false} PushFrames(nodes: Arena, rank: seq<nat>, m: Machine, text: string)
    requires Linked(nodes, rank) && FramesOk(nodes, m)
    ensures Push(nodes, m, text).Some? ==> FramesOk(nodes, Push(nodes, m, text).value)
    decreases |text|
  {
    hide Linked, FramesOk, Once;
    if text != "" {
      OnceFrames(nodes, rank, m, text[0]);
      var out := Once(nodes, m, text[0]);
      if out.Again? {
        OnceFrames(nodes, rank, out.m, text[0]);
      }
      if PushChar(nodes, m, text[0]).Some? {
        PushFrames(nodes, rank, PushChar(nodes, m, text[0]).value, text[1..]);
      }
    }
  }

  /** Whatever the names and options: every index a reachable state holds, or goes on to when it opens a value, is
      inside the arena, so no step reads outside it. */
  lemma IndicesInside(nodes: Arena, rank: seq<nat>, text: string, i: nat)
    requires Linked(nodes, rank) && Push(nodes, NewMachine(), text).Some? && i < |Push(nodes, NewMachine(), text).value.stack|
    ensures var f := Push(nodes, NewMachine(), text).value.stack[i];
      (f.Value? ==> f.id < |nodes|)
      && (f.Obj? ==> f.node == Free || (f.node < |nodes| && nodes[f.node].Object?))
      && (f.Obj? && f.ostate == OColon ==> ValueNode(nodes, f.node, f.key).Some? && ValueNode(nodes, f.node, f.key).value < |nodes|)
      && (f.Arr? ==> f.items == Free || f.items < |nodes|)
    ensures AnyNode(nodes) < |nodes|
  {
    AnyInside(nodes, rank);
    PushFrames(nodes, rank, NewMachine(), text);
    hide Linked, Push;
    var m := Push(nodes, NewMachine(), text).value;
    assert Sound(nodes, m.stack[i]) && FrameOk(nodes, m.stack[i]);
  }

  lemma LiteralSpaced()
    ensures Spaced(0, "rue") && Spaced(0, "alse") && Spaced(0, "ull")
    ensures "true"[1..] == "rue" && "false"[1..] == "alse" && "null"[1..] == "ull"
  {
    assert Spaced(0, "") && Spaced(0, "e"[1..]) && Spaced(0, "l"[1..]);
    assert "e"[1..] == "" && "l"[1..] == "";
    assert "ue"[1..] == "e" && "rue"[1..] == "ue";
    assert "se"[1..] == "e" && "lse"[1..] == "se" && "alse"[1..] == "lse";
    assert "ll"[1..] == "l" && "ull"[1..] == "ll";
    assert Spaced(0, "e") && Spaced(0, "l");
    assert Spaced(0, "ue") && Spaced(0, "se") && Spaced(0, "ll");
    assert Spaced(0, "lse");
  }

  lemma WordAfter(nodes: Arena, m: Machine, c: char)
    requires !Once(nodes, m, c).Dead?
    ensures WordOk(Once(nodes, m, c).m)
  {
    hide MoveOf;
  }

  lemma OnceOpen(nodes: Arena, rank: seq<nat>, m: Machine, c: char)
    requires WellFormed(nodes, rank) && Workable(nodes, m)
    ensures !Once(nodes, m, c).Dead? ==> Workable(nodes, Once(nodes, m, c).m)
  {
    IsLinked(nodes, rank);
    hide WellFormed, Linked, FrameOk, WordOk, Once, Sane;
    OnceSane(nodes, m, c);
    FramesAfter(nodes, rank, m, c);
    if !Once(nodes, m, c).Dead? {
      WordAfter(nodes, m, c);
    }
  }

  lemma {:induction false} PushOpen(nodes: Arena, rank: seq<nat>, m: Machine, text: string)
    requires WellFormed(nodes, rank) && Workable(nodes, m)
    ensures Push(nodes, m, text).Some? ==> Workable(nodes, Push(nodes, m, text).value)
    decreases |text|
  {
    hide WellFormed, Workable, Once;
    if text != "" {
      OnceOpen(nodes, rank, m, text[0]);
      var out := Once(nodes, m, text[0]);
      if out.Again? {
        OnceOpen(nodes, rank, out.m, text[0]);
      }
      if PushChar(nodes, m, text[0]).Some? {
        PushOpen(nodes, rank, PushChar(nodes, m, text[0]).value, text[1..]);
      }
    }
  }

  lemma NewMachineOpen(nodes: Arena, rank: seq<nat>)
    requires WellFormed(nodes, rank)
    ensures Workable(nodes, NewMachine())
  {}

  // ------------------------------------------------------------- small steps

  /** A machine in mid-document, no whitespace just read. */
  function At(stack: seq<Frame>): Machine {
    Machine(stack, stack == [], true, 0)
  }

  lemma PushOne(nodes: Arena, m: Machine, c: char)
    ensures Push(nodes, m, [c]) == PushChar(nodes, m, c)
  {
    assert [c][1..] == "";
  }

  lemma PushThen(nodes: Arena, m: Machine, a: string, x: Machine, b: string)
    requires Push(nodes, m, a) == Some(x)
    ensures Push(nodes, m, a + b) == Push(nodes, x, b)
  {
    PushConcat(nodes, m, a, b);
  }

  lemma PushCons(nodes: Arena, m: Machine, c: char, x: Machine, b: string)
    requires PushChar(nodes, m, c) == Some(x)
    ensures Push(nodes, m, [c] + b) == Push(nodes, x, b)
  {
    PushOne(nodes, m, c);
    PushThen(nodes, m, [c], x, b);
  }

  lemma StepStay(nodes: Arena, m: Machine, below: seq<Frame>, f: Frame, c: char, g: Frame)
    requires !m.done && m.stack == below + [f] && MoveOf(nodes, f, c) == Stay(g)
    requires !IsWs(c) || f.Str? || (f.Obj? && f.ostate == OKey)
    ensures PushChar(nodes, m, c) == Some(At(below + [g]))
  {
    hide MoveOf;
    assert Below(m) == below && Top(m) == f;
  }

  lemma StepClose(nodes: Arena, m: Machine, below: seq<Frame>, f: Frame, c: char)
    requires !m.done && m.stack == below + [f] && MoveOf(nodes, f, c) == Close && Resume(below).Some? && !IsWs(c)
    ensures PushChar(nodes, m, c) == Some(At(Resume(below).value))
  {
    hide MoveOf;
    assert Below(m) == below && Top(m) == f;
  }

  lemma StepOpen(nodes: Arena, m: Machine, below: seq<Frame>, f: Frame, c: char, g: Frame, inner: Frame)
    requires !m.done && m.stack == below + [f] && MoveOf(nodes, f, c) == Move.Open(g, inner) && !IsWs(c)
    ensures PushChar(nodes, m, c) == Some(At(below + [g, inner]))
  {
    hide MoveOf;
    assert Below(m) == below && Top(m) == f;
  }

  // ---------------------------------------------------- after a finished value

  function Next(f: Frame): Frame
    requires Container(f)
  {
    if f.Obj? then f.(ostate := ONext) else f.(astate := ANext)
  }

  lemma ResumeNext(below: seq<Frame>, f: Frame)
    requires Container(f)
    ensures Resume(below + [f]) == Some(below + [Next(f)])
  {
    var s := below + [f];
    assert s[..|s| - 1] == below;
  }

  /** The value above `below` is over; a number may still be waiting for the character that ends it. */
  ghost predicate AtRest(below: seq<Frame>, x: Machine) {
    Resume(below).Some?
    && ((x.stack == Resume(below).value && (x.done <==> x.stack == []))
        || (x.stack != [] && NumComplete(Top(x)) && x.stack == below + [Top(x)] && !x.done))
  }

  lemma RestDone(x: Machine)
    requires AtRest([], x)
    ensures Complete(x)
  {}

  predicate Structural(c: char) { c == ',' || c == '}' || c == ']' }

  /** A structural character ends a pending number and is then read by the container. */
  lemma PendingEnds(nodes: Arena, below: seq<Frame>, f: Frame, x: Machine, c: char)
    requires Container(f) && AtRest(below + [f], x) && Structural(c)
    ensures PushChar(nodes, x, c) == PushChar(nodes, At(below + [Next(f)]), c)
  {
    ResumeNext(below, f);
    if x.stack == below + [Next(f)] {
      assert Count(x, c) == Count(At(below + [Next(f)]), c);
    } else {
      var n := Top(x);
      var full := below + [f];
      assert MoveOf(nodes, n, c) == CloseThen;
      var y := x.(wsRun := 0, started := true);
      assert Below(y) == full && Top(y) == n;
      assert Once(nodes, x, c) == Again(At(below + [Next(f)]));
      AgainSettles(nodes, x, c);
      hide MoveOf, Once;
    }
  }

  lemma RestStay(nodes: Arena, below: seq<Frame>, f: Frame, x: Machine, c: char, g: Frame)
    requires Container(f) && AtRest(below + [f], x) && Structural(c) && MoveOf(nodes, Next(f), c) == Stay(g)
    ensures PushChar(nodes, x, c) == Some(At(below + [g]))
  {
    PendingEnds(nodes, below, f, x, c);
    StepStay(nodes, At(below + [Next(f)]), below, Next(f), c, g);
  }

  lemma RestClose(nodes: Arena, below: seq<Frame>, f: Frame, x: Machine, c: char)
    requires Container(f) && AtRest(below + [f], x) && Structural(c) && MoveOf(nodes, Next(f), c) == Close && Resume(below).Some?
    ensures PushChar(nodes, x, c) == Some(At(Resume(below).value)) && AtRest(below, At(Resume(below).value))
  {
    PendingEnds(nodes, below, f, x, c);
    StepClose(nodes, At(below + [Next(f)]), below, Next(f), c);
  }

  // ---------------------------------------------------------- the closing text

  function Shortest(options: seq<string>): (r: string)
    requires options != []
    ensures r in options && forall o :: o in options ==> |r| <= |o|
  {
    if |options| == 1 then options[0]
    else
      var rest := Shortest(options[1..]);
      if |options[0]| <= |rest| then options[0] else rest
  }

  function Picked(options: seq<string>): (r: seq<string>)
    ensures forall o :: o in r <==> o in options && Writable(o)
  {
    if options == [] then []
    else (if Writable(options[0]) then [options[0]] else []) + Picked(options[1..])
  }

  /** Some value of node `id` can be written to its end. An enumeration of nothing but options with long runs of
      whitespace has none, nor has an object that requires such a one. */
  predicate Fillable(nodes: Arena, rank: seq<nat>, id: nat)
    decreases if id < |rank| then rank[id] else 0
  {
    id < |nodes| && id < |rank|
    && match nodes[id]
       case Choice(options) => Picked(options) != []
       case Object(props, required, _) => forall r :: 0 <= r < |props| && r in required ==> Lower(rank, props[r].1, id) && Fillable(nodes, rank, props[r].1)
       case _ => true
  }

  predicate Lower(rank: seq<nat>, child: nat, id: nat) {
    id < |rank| && child < |rank| && rank[child] < rank[id]
  }

  /** Every property still required can be filled. */
  predicate RestFillable(nodes: Arena, rank: seq<nat>, node: nat, seen: seq<nat>) {
    node != Free && node < |nodes| && nodes[node].Object? ==>
      forall r :: 0 <= r < |nodes[node].properties| && r in nodes[node].required && r !in seen ==> Fillable(nodes, rank, nodes[node].properties[r].1)
  }

  lemma FillableIs(nodes: Arena, rank: seq<nat>, id: nat)
    requires Linked(nodes, rank) && id < |nodes|
    ensures Fillable(nodes, rank, id) <==> match nodes[id]
      case Choice(options) => Picked(options) != []
      case Object(props, required, _) => RestFillable(nodes, rank, id, [])
      case _ => true
  {
    if nodes[id].Object? {
      ObjectLinks(nodes, rank, id);
    }
    hide Picked;
  }

  /** The shortest way to write a value of node `id`. */
  function Least(nodes: Arena, rank: seq<nat>, id: nat): string
    decreases if id < |rank| then rank[id] else 0, 1, 0
  {
    if id >= |nodes| || id >= |rank| then ""
    else match nodes[id]
      case Any => "null"
      case StringNode => "\"\""
      case Number(_) => "0"
      case Bool => "true"
      case Null => "null"
      case Array(_) => "[]"
      case Choice(options) => if Picked(options) == [] then "" else Shortest(Picked(options))
      case Object(props, required, _) => "{" + Members(nodes, rank, id, [], 0, true) + "}"
  }

  /** One member: property `i` of node `id`, least written. */
  function Member(nodes: Arena, rank: seq<nat>, id: nat, i: nat): string
    requires id < |nodes| && nodes[id].Object? && i < |nodes[id].properties|
    decreases if id < |rank| then rank[id] else 0, 0, 0
  {
    var child := nodes[id].properties[i].1;
    "\"" + nodes[id].properties[i].0 + "\":" + if id < |rank| && child < |rank| && rank[child] < rank[id] then Least(nodes, rank, child) else ""
  }

  /** The members still required, from property `i` on. */
  function Members(nodes: Arena, rank: seq<nat>, id: nat, seen: seq<nat>, i: nat, first: bool): string
    requires id < |nodes| && nodes[id].Object?
    decreases if id < |rank| then rank[id] else 0, 0, if i < |nodes[id].properties| then |nodes[id].properties| - i else 0
  {
    if i >= |nodes[id].properties| then ""
    else if i in nodes[id].required && i !in seen then
      (if first then "" else ",") + Member(nodes, rank, id, i) + Members(nodes, rank, id, seen + [i], i + 1, false)
    else Members(nodes, rank, id, seen, i + 1, first)
  }

  // ------------------------------------------------------ reading it: words

  lemma WordCounts(m: Machine, c: char, rest: string)
    requires m.stack != [] && Top(m).Word? && m.started && Spaced(m.wsRun, [c] + rest)
    ensures Count(m, c).Some? && Count(m, c).value.started && Spaced(Count(m, c).value.wsRun, rest)
    ensures Count(m, c).value.stack == m.stack && Count(m, c).value.done == m.done
  {
    assert ([c] + rest)[0] == c && ([c] + rest)[1..] == rest;
  }

  /** None of the alternatives left ends where `p` has not. */
  ghost predicate Tracking(alts: seq<string>, at: nat, p: string) {
    p in alts && at < |p| && forall a :: a in alts ==> at < |a| && !(a[at..] < p[at..])
  }

  lemma TrackStep(alts: seq<string>, at: nat, p: string)
    requires Tracking(alts, at, p)
    ensures at + 1 == |p| ==> WordMove(alts, at, p[at]) == Close
    ensures at + 1 < |p| ==> WordMove(alts, at, p[at]) == Stay(Word(Filter(alts, at, p[at]), at + 1)) && Tracking(Filter(alts, at, p[at]), at + 1, p)
  {
    var rest := Filter(alts, at, p[at]);
    assert p in rest;
    hide Filter;
    forall a | a in rest && at + 1 < |p| ensures at + 1 < |a| && !(a[at + 1..] < p[at + 1..]) {
      assert a[at..] == [p[at]] + a[at + 1..] && p[at..] == [p[at]] + p[at + 1..];
      if a[at + 1..] <= p[at + 1..] {
        assert a[at..] <= p[at..];
      }
    }
  }

  lemma OnceStays(nodes: Arena, m: Machine, below: seq<Frame>, f: Frame, c: char, x: Machine)
    requires m.stack == below + [f] && !m.done && Count(m, c) == Some(x) && x.stack == m.stack && !x.done
    ensures MoveOf(nodes, f, c).Stay? ==> PushChar(nodes, m, c) == Some(x.(stack := below + [MoveOf(nodes, f, c).top]))
    ensures MoveOf(nodes, f, c).Close? && Resume(below).Some? ==> PushChar(nodes, m, c) == Some(x.(stack := Resume(below).value, done := Resume(below).value == []))
  {
    hide MoveOf;
    assert Below(x) == below && Top(x) == f;
  }

  /** From `m` the value above `below` is read as `text`: still open before its last character, over after it. */
  ghost predicate Reads(nodes: Arena, m: Machine, below: seq<Frame>, text: string) {
    Resume(below).Some? && Push(nodes, m, text).Some?
    && var x := Push(nodes, m, text).value;
    x.stack == Resume(below).value && (x.done <==> x.stack == [])
    && forall k :: 0 <= k < |text| ==> StillOpen(nodes, m, below, text[..k])
  }

  ghost predicate StillOpen(nodes: Arena, m: Machine, below: seq<Frame>, text: string) {
    Push(nodes, m, text).Some? && |below| < |Push(nodes, m, text).value.stack|
  }

  lemma ReadsLast(nodes: Arena, m: Machine, below: seq<Frame>, c: char, x: Machine)
    requires Resume(below).Some? && |below| < |m.stack| && PushChar(nodes, m, c) == Some(x)
    requires x.stack == Resume(below).value && (x.done <==> x.stack == [])
    ensures Reads(nodes, m, below, [c])
  {
    PushOne(nodes, m, c);
    hide PushChar;
  }

  lemma ReadsMore(nodes: Arena, m: Machine, below: seq<Frame>, c: char, y: Machine, rest: string)
    requires |below| < |m.stack| && PushChar(nodes, m, c) == Some(y) && Reads(nodes, y, below, rest)
    ensures Reads(nodes, m, below, [c] + rest)
  {
    var text := [c] + rest;
    hide PushChar, Push;
    PushCons(nodes, m, c, y, rest);
    forall k | 0 <= k < |text| ensures StillOpen(nodes, m, below, text[..k]) {
      if k == 0 {
        PushNothing(nodes, m);
      } else {
        assert text[..k] == [c] + rest[..k - 1];
        PushCons(nodes, m, c, y, rest[..k - 1]);
        assert StillOpen(nodes, y, below, rest[..k - 1]);
      }
    }
  }

  /** Reading an option nothing ends in front of closes the word at its end, not before. */
  lemma {:induction false} TrackRead(nodes: Arena, m: Machine, below: seq<Frame>, alts: seq<string>, at: nat, p: string)
    requires m.stack == below + [Word(alts, at)] && !m.done && m.started && Resume(below).Some?
    requires Tracking(alts, at, p) && Spaced(m.wsRun, p[at..])
    ensures Reads(nodes, m, below, p[at..])
    decreases |p| - at
  {
    hide *;
    TrackAt(alts, at, p);
    var c, rest := p[at], p[at + 1..];
    assert p[at..] == [c] + rest;
    TopWord(m, below, alts, at);
    WordCounts(m, c, rest);
    var x := Count(m, c).value;
    WordPushed(nodes, m, below, alts, at, c, x);
    TrackStep(alts, at, p);
    if at + 1 == |p| {
      assert rest == "";
      assert p[at..] == [c];
      ReadsLast(nodes, m, below, c, x.(stack := Resume(below).value, done := Resume(below).value == []));
    } else {
      var y := x.(stack := below + [Word(Filter(alts, at, c), at + 1)]);
      TrackRead(nodes, y, below, Filter(alts, at, c), at + 1, p);
      ReadsMore(nodes, m, below, c, y, rest);
    }
  }

  lemma TrackAt(alts: seq<string>, at: nat, p: string)
    requires Tracking(alts, at, p)
    ensures at < |p|
  {}

  lemma TopWord(m: Machine, below: seq<Frame>, alts: seq<string>, at: nat)
    requires m.stack == below + [Word(alts, at)]
    ensures Top(m) == Word(alts, at)
  {}

  lemma WordPushed(nodes: Arena, m: Machine, below: seq<Frame>, alts: seq<string>, at: nat, c: char, x: Machine)
    requires m.stack == below + [Word(alts, at)] && !m.done && Count(m, c) == Some(x) && x.stack == m.stack && !x.done
    ensures WordMove(alts, at, c).Stay? ==> PushChar(nodes, m, c) == Some(x.(stack := below + [WordMove(alts, at, c).top]))
    ensures WordMove(alts, at, c).Close? && Resume(below).Some? ==>
      PushChar(nodes, m, c) == Some(x.(stack := Resume(below).value, done := Resume(below).value == []))
  {
    OnceStays(nodes, m, below, Word(alts, at), c, x);
    hide WordMove, Count;
  }

  /** No option is a proper prefix of `p`; the empty one is never read. */
  ghost predicate Unshadowed(options: seq<string>, p: string) {
    forall a :: a in options && a != "" ==> !(a < p)
  }

  lemma TrackStart(options: seq<string>, p: string)
    requires p in options && p != "" && Unshadowed(options, p)
    ensures |p| > 1 ==> StartAlts(options, p[0]) == Stay(Word(Filter(options, 0, p[0]), 1)) && Tracking(Filter(options, 0, p[0]), 1, p)
    ensures |p| == 1 ==> StartAlts(options, p[0]) == Close
  {
    var alts := Filter(options, 0, p[0]);
    assert p in alts;
    hide Filter;
    forall a | a in alts && |p| > 1 ensures 1 < |a| && !(a[1..] < p[1..]) {
      assert a == [p[0]] + a[1..] && p == [p[0]] + p[1..];
      if a[1..] <= p[1..] {
        assert a <= p;
      }
    }
  }

  function StartAlts(options: seq<string>, c: char): Move {
    var alts := Filter(options, 0, c);
    if alts == [] then Stop else Settle(alts, 1)
  }

  lemma UnshadowedRead(nodes: Arena, m: Machine, below: seq<Frame>, id: nat, options: seq<string>, p: string)
    requires m.stack == below + [Value(id)] && !m.done && Resume(below).Some? && id < |nodes| && nodes[id] == Choice(options)
    requires p in options && Writable(p) && Unshadowed(options, p)
    ensures Reads(nodes, m, below, p)
  {
    var c := p[0];
    TrackStart(options, p);
    assert MoveOf(nodes, Value(id), c) == StartAlts(options, c);
    assert p == [c] + p[1..];
    hide MoveOf, StartAlts, Filter, Tracking, Spaced, Reads, Resume;
    if |p| == 1 {
      StepClose(nodes, m, below, Value(id), c);
      ReadsLast(nodes, m, below, c, At(Resume(below).value));
      assert p == [c];
    } else {
      var alts := Filter(options, 0, c);
      StepStay(nodes, m, below, Value(id), c, Word(alts, 1));
      var x := At(below + [Word(alts, 1)]);
      TrackRead(nodes, x, below, alts, 1, p);
      ReadsMore(nodes, m, below, c, x, p[1..]);
    }
  }

  lemma ReadsRest(nodes: Arena, m: Machine, below: seq<Frame>, text: string)
    requires Reads(nodes, m, below, text)
    ensures Push(nodes, m, text).Some? && AtRest(below, Push(nodes, m, text).value)
  {}

  // ----------------------------------------------------- reading it: scalars

  lemma LiteralRead(nodes: Arena, m: Machine, below: seq<Frame>, id: nat, word: string)
    requires m.stack == below + [Value(id)] && !m.done && Resume(below).Some? && 2 <= |word| && !IsWs(word[0]) && Spaced(0, word[1..])
    requires StartMove(nodes, id, word[0]) == Stay(Word([word], 1))
    ensures Push(nodes, m, word).Some? && AtRest(below, Push(nodes, m, word).value)
  {
    hide StartMove;
    assert word == [word[0]] + word[1..];
    StepStay(nodes, m, below, Value(id), word[0], Word([word], 1));
    var x := At(below + [Word([word], 1)]);
    PushCons(nodes, m, word[0], x, word[1..]);
    TrackRead(nodes, x, below, [word], 1, word);
    ReadsRest(nodes, x, below, word[1..]);
  }

  /** No option ends inside the shortest that can be written. */
  lemma ShortestUnshadowed(options: seq<string>)
    requires Picked(options) != []
    ensures var o := Shortest(Picked(options)); o in options && Writable(o) && Unshadowed(options, o)
  {
    var o := Shortest(Picked(options));
    hide Picked, Shortest, Spaced;
    forall a | a in options && a != "" ensures !(a < o) {
      if a < o {
        PrefixPicked(options, a, o);
      }
    }
  }

  lemma PrefixPicked(options: seq<string>, a: string, o: string)
    requires a in options && a != "" && a <= o && Writable(o)
    ensures a in Picked(options)
  {
    assert a[0] == o[0] && a[1..] <= o[1..];
    SpacedPrefix(0, a[1..], o[1..]);
  }

  lemma ChoiceRead(nodes: Arena, m: Machine, below: seq<Frame>, id: nat)
    requires m.stack == below + [Value(id)] && !m.done && Resume(below).Some? && id < |nodes| && nodes[id].Choice?
    requires Picked(nodes[id].options) != []
    ensures var o := Shortest(Picked(nodes[id].options));
      Push(nodes, m, o).Some? && AtRest(below, Push(nodes, m, o).value)
  {
    hide *;
    var options := nodes[id].options;
    var o := Shortest(Picked(options));
    ShortestUnshadowed(options);
    UnshadowedRead(nodes, m, below, id, options, o);
    ReadsRest(nodes, m, below, o);
  }

  lemma StringRead(nodes: Arena, m: Machine, below: seq<Frame>, id: nat)
    requires m.stack == below + [Value(id)] && !m.done && Resume(below).Some? && id < |nodes| && nodes[id].StringNode?
    ensures Push(nodes, m, "\"\"").Some? && AtRest(below, Push(nodes, m, "\"\"").value)
  {
    assert "\"\"" == ['"'] + ['"'];
    StepStay(nodes, m, below, Value(id), '"', Str(0, 0));
    var x := At(below + [Str(0, 0)]);
    PushCons(nodes, m, '"', x, ['"']);
    StepClose(nodes, x, below, Str(0, 0), '"');
    PushOne(nodes, x, '"');
  }

  lemma NumberRead(nodes: Arena, m: Machine, below: seq<Frame>, id: nat)
    requires m.stack == below + [Value(id)] && !m.done && Resume(below).Some? && id < |nodes| && nodes[id].Number?
    ensures Push(nodes, m, "0").Some? && AtRest(below, Push(nodes, m, "0").value)
  {
    var g := NewNum(nodes[id].integer, '0');
    StepStay(nodes, m, below, Value(id), '0', g);
    PushOne(nodes, m, '0');
    assert "0" == ['0'];
    assert Top(At(below + [g])) == g;
  }

  lemma ArrayRead(nodes: Arena, m: Machine, below: seq<Frame>, id: nat)
    requires m.stack == below + [Value(id)] && !m.done && Resume(below).Some? && id < |nodes| && nodes[id].Array?
    ensures Push(nodes, m, "[]").Some? && AtRest(below, Push(nodes, m, "[]").value)
  {
    assert "[]" == ['['] + [']'];
    var f := Arr(nodes[id].items, AStart);
    StepStay(nodes, m, below, Value(id), '[', f);
    var x := At(below + [f]);
    PushCons(nodes, m, '[', x, [']']);
    StepClose(nodes, x, below, f, ']');
    PushOne(nodes, x, ']');
  }

  // ----------------------------------------------------- reading it: objects

  /** The characters of an unseen property's name, from `j` on. */
  lemma {:induction false} NameRead(nodes: Arena, m: Machine, below: seq<Frame>, f: Frame, i: nat, j: nat)
    requires f.Obj? && f.ostate == OKey && f.keyEscape == 0 && f.node < |nodes| && nodes[f.node].Object?
    requires i < |nodes[f.node].properties| && i !in f.seen && PlainName(nodes[f.node].properties[i].0)
    requires j <= |nodes[f.node].properties[i].0| && f.key == nodes[f.node].properties[i].0[..j]
    requires m.stack == below + [f] && !m.done
    ensures var name := nodes[f.node].properties[i].0;
      Push(nodes, m, name[j..]).Some? && Push(nodes, m, name[j..]).value.stack == below + [f.(key := name)] && !Push(nodes, m, name[j..]).value.done
    decreases |nodes[f.node].properties[i].0| - j
  {
    var props := nodes[f.node].properties;
    var name := props[i].0;
    if j == |name| {
      assert name[j..] == "" && name[..j] == name;
    } else {
      var c := name[j];
      var key := name[..j + 1];
      assert name[j..] == [c] + name[j + 1..] && f.key + [c] == key;
      assert Unseen(props, f.seen, key, i) by {
        assert key <= name;
      }
      assert KeyPossible(nodes, f.node, f.seen, key);
      var g := f.(key := key);
      assert MoveOf(nodes, f, c) == Stay(g);
      hide MoveOf, KeyPossible;
      StepStay(nodes, m, below, f, c, g);
      PushCons(nodes, m, c, At(below + [g]), name[j + 1..]);
      NameRead(nodes, At(below + [g]), below, g, i, j + 1);
      assert g.(key := name) == f.(key := name);
    }
  }

  lemma FindDistinct(props: seq<(string, nat)>, i: nat)
    requires DistinctNames(props) && i < |props|
    ensures Find(props, props[i].0) == Some(i)
  {
    var r := Find(props, props[i].0);
    assert r.Some?;
    hide Find;
    assert props[r.value].0 == props[i].0;
  }

  /** The frame once property `i` has been named and its value is on top. */
  function Named(f: Frame, name: string, i: nat): Frame
    requires f.Obj?
  {
    f.(ostate := OValue, seen := f.seen + [i], key := name, keyEscape := 0)
  }

  /** From the end of a name to the value: `":`. */
  lemma ColonRead(nodes: Arena, m: Machine, below: seq<Frame>, f: Frame, i: nat)
    requires f.Obj? && f.ostate == OKey && f.keyEscape == 0 && f.node < |nodes| && f.node != Free && nodes[f.node].Object?
    requires i < |nodes[f.node].properties| && i !in f.seen && DistinctNames(nodes[f.node].properties) && f.key == nodes[f.node].properties[i].0
    requires m.stack == below + [f] && !m.done
    ensures Push(nodes, m, "\":") == Some(At(below + [Named(f, f.key, i), Value(nodes[f.node].properties[i].1)]))
  {
    var props := nodes[f.node].properties;
    FindDistinct(props, i);
    var g := f.(ostate := OColon, seen := f.seen + [i]);
    assert MoveOf(nodes, f, '"') == Stay(g);
    assert MoveOf(nodes, g, ':') == Move.Open(g.(ostate := OValue), Value(props[i].1));
    assert "\":" == ['"'] + [':'];
    hide MoveOf, Find;
    StepStay(nodes, m, below, f, '"', g);
    PushCons(nodes, m, '"', At(below + [g]), [':']);
    StepOpen(nodes, At(below + [g]), below, g, ':', g.(ostate := OValue), Value(props[i].1));
    PushOne(nodes, At(below + [g]), ':');
    assert g.(ostate := OValue) == Named(f, f.key, i);
  }

  /** Where a member's key may begin. */
  predicate KeyPlace(f: Frame) { f.Obj? && (f.ostate == OStart || f.ostate == OKeyExpected) }

  /** A whole member up to its value. */
  lemma HeadRead(nodes: Arena, rank: seq<nat>, m: Machine, below: seq<Frame>, f: Frame, i: nat)
    requires WellFormed(nodes, rank) && KeyPlace(f) && f.node < |nodes| && nodes[f.node].Object?
    requires i < |nodes[f.node].properties| && i !in f.seen && m.stack == below + [f] && !m.done
    ensures var (name, child) := nodes[f.node].properties[i];
      Push(nodes, m, "\"" + name + "\":") == Some(At(below + [Named(f, name, i), Value(child)]))
  {
    ObjectParts(nodes, rank, f.node);
    hide WellFormed;
    var (name, child) := nodes[f.node].properties[i];
    var g := f.(ostate := OKey, key := "", keyEscape := 0);
    assert MoveOf(nodes, f, '"') == Stay(g);
    hide MoveOf;
    StepStay(nodes, m, below, f, '"', g);
    assert "\"" + name + "\":" == ['"'] + (name + "\":");
    PushCons(nodes, m, '"', At(below + [g]), name + "\":");
    assert name[..0] == "" && name[0..] == name;
    NameRead(nodes, At(below + [g]), below, g, i, 0);
    var x := Push(nodes, At(below + [g]), name).value;
    PushThen(nodes, At(below + [g]), name, x, "\":");
    ColonRead(nodes, x, below, g.(key := name), i);
    assert Named(g.(key := name), name, i) == Named(f, name, i);
  }

  /** In object `f`, either just opened or after a member. */
  ghost predicate InObject(below: seq<Frame>, f: Frame, first: bool, m: Machine) {
    f.Obj? && if first then m.stack == below + [f] && f.ostate == OStart && !m.done else AtRest(below + [f], m)
  }

  /** The comma between members, if one is needed. */
  lemma CommaRead(nodes: Arena, m: Machine, below: seq<Frame>, f: Frame, first: bool) returns (x: Machine, g: Frame)
    requires InObject(below, f, first, m)
    ensures Push(nodes, m, if first then "" else ",") == Some(x) && KeyPlace(g) && g.node == f.node && g.seen == f.seen && x.stack == below + [g] && !x.done
  {
    if first {
      x, g := m, f;
    } else {
      g := f.(ostate := OKeyExpected);
      RestStay(nodes, below, f, m, ',', g);
      PushOne(nodes, m, ',');
      assert "," == [','];
      x := At(below + [g]);
    }
  }

  lemma BraceRead(nodes: Arena, m: Machine, below: seq<Frame>, f: Frame, first: bool)
    requires InObject(below, f, first, m) && CanClose(nodes, f.node, f.seen) && Resume(below).Some?
    ensures Push(nodes, m, "}").Some? && AtRest(below, Push(nodes, m, "}").value)
  {
    assert "}" == ['}'];
    PushOne(nodes, m, '}');
    if first {
      StepClose(nodes, m, below, f, '}');
    } else {
      RestClose(nodes, below, f, m, '}');
    }
  }

  lemma LeastIs(nodes: Arena, rank: seq<nat>, id: nat)
    requires id < |nodes| && id < |rank|
    ensures Least(nodes, rank, id) == match nodes[id]
      case Any => "null"
      case StringNode => "\"\""
      case Number(_) => "0"
      case Bool => "true"
      case Null => "null"
      case Array(_) => "[]"
      case Choice(options) => if Picked(options) == [] then "" else Shortest(Picked(options))
      case Object(_, _, _) => "{" + Members(nodes, rank, id, [], 0, true) + "}"
  {}

  lemma MemberIs(nodes: Arena, rank: seq<nat>, id: nat, i: nat)
    requires id < |nodes| && nodes[id].Object? && i < |nodes[id].properties| && id < |rank| && nodes[id].properties[i].1 < |rank| && rank[nodes[id].properties[i].1] < rank[id]
    ensures Member(nodes, rank, id, i) == "\"" + nodes[id].properties[i].0 + "\":" + Least(nodes, rank, nodes[id].properties[i].1)
  {}

  lemma MembersIs(nodes: Arena, rank: seq<nat>, id: nat, seen: seq<nat>, i: nat, first: bool)
    requires id < |nodes| && nodes[id].Object?
    ensures i >= |nodes[id].properties| ==> Members(nodes, rank, id, seen, i, first) == ""
    ensures i < |nodes[id].properties| && i in nodes[id].required && i !in seen ==>
      Members(nodes, rank, id, seen, i, first) == (if first then "" else ",") + Member(nodes, rank, id, i) + Members(nodes, rank, id, seen + [i], i + 1, false)
    ensures i < |nodes[id].properties| && !(i in nodes[id].required && i !in seen) ==>
      Members(nodes, rank, id, seen, i, first) == Members(nodes, rank, id, seen, i + 1, first)
  {}

  lemma SizesAre(nodes: Arena, rank: seq<nat>)
    requires WellFormed(nodes, rank)
    ensures |nodes| == |rank|
  {}

  lemma LinkedSizes(nodes: Arena, rank: seq<nat>)
    requires Linked(nodes, rank)
    ensures |nodes| == |rank|
  {}

  /** What a fillable object needs of the properties it still requires. */
  lemma RestAt(nodes: Arena, rank: seq<nat>, node: nat, seen: seq<nat>, i: nat)
    requires RestFillable(nodes, rank, node, seen) && node != Free && node < |nodes| && nodes[node].Object? && i < |nodes[node].properties|
    ensures i in nodes[node].required && i !in seen ==> Fillable(nodes, rank, nodes[node].properties[i].1)
  {
    hide Fillable;
  }

  lemma RestMore(nodes: Arena, rank: seq<nat>, node: nat, seen: seq<nat>, more: seq<nat>)
    requires RestFillable(nodes, rank, node, seen) && forall s :: s in seen ==> s in more
    ensures RestFillable(nodes, rank, node, more)
  {
    hide Fillable;
  }

  /** The least text of a node is read as a whole value. */
  lemma {:induction false} LeastRead(nodes: Arena, rank: seq<nat>, m: Machine, below: seq<Frame>, id: nat)
    requires WellFormed(nodes, rank) && id < |nodes| && m.stack == below + [Value(id)] && !m.done && Resume(below).Some? && Fillable(nodes, rank, id)
    ensures Push(nodes, m, Least(nodes, rank, id)).Some? && AtRest(below, Push(nodes, m, Least(nodes, rank, id)).value)
    decreases if id < |rank| then rank[id] else 0, 1, 0
  {
    hide *;
    IsLinked(nodes, rank);
    LinkedSizes(nodes, rank);
    LeastIs(nodes, rank, id);
    FillableIs(nodes, rank, id);
    LiteralSpaced();
    LiteralsStart(nodes, id);
    match nodes[id]
    case Any => LiteralRead(nodes, m, below, id, "null");
    case StringNode => StringRead(nodes, m, below, id);
    case Number(_) => NumberRead(nodes, m, below, id);
    case Bool => LiteralRead(nodes, m, below, id, "true");
    case Null => LiteralRead(nodes, m, below, id, "null");
    case Array(_) => ArrayRead(nodes, m, below, id);
    case Choice(options) => ChoiceRead(nodes, m, below, id);
    case Object(_, _, _) =>
      ObjectRead(nodes, rank, m, below, id);
  }

  lemma LiteralsStart(nodes: Arena, id: nat)
    requires id < |nodes|
    ensures nodes[id].Any? || nodes[id].Null? ==> StartMove(nodes, id, "null"[0]) == Stay(Word(["null"], 1))
    ensures nodes[id].Bool? ==> StartMove(nodes, id, "true"[0]) == Stay(Word(["true"], 1))
    ensures !IsWs("null"[0]) && !IsWs("true"[0])
  {}

  lemma {:induction false} ObjectRead(nodes: Arena, rank: seq<nat>, m: Machine, below: seq<Frame>, id: nat)
    requires WellFormed(nodes, rank) && id < |nodes| && m.stack == below + [Value(id)] && !m.done && Resume(below).Some? && nodes[id].Object?
    requires RestFillable(nodes, rank, id, [])
    ensures var text := "{" + Members(nodes, rank, id, [], 0, true) + "}";
      Push(nodes, m, text).Some? && AtRest(below, Push(nodes, m, text).value)
    decreases if id < |rank| then rank[id] else 0, 0, |nodes[id].properties| + 3
  {
    var f := NewObj(id);
    assert MoveOf(nodes, Value(id), '{') == Stay(f);
    ObjectParts(nodes, rank, id);
    hide MoveOf, WellFormed, RestFillable, Fillable;
    StepStay(nodes, m, below, Value(id), '{', f);
    var members := Members(nodes, rank, id, [], 0, true);
    assert "{" + members + "}" == ['{'] + (members + "}");
    PushCons(nodes, m, '{', At(below + [f]), members + "}");
    var x, g, first := MembersRead(nodes, rank, At(below + [f]), below, f, 0, true);
    PushThen(nodes, At(below + [f]), members, x, "}");
    BraceRead(nodes, x, below, g, first);
  }

  /** Everything still required, read member by member. */
  lemma {:induction false} MembersRead(nodes: Arena, rank: seq<nat>, m: Machine, below: seq<Frame>, f: Frame, i: nat, first: bool)
      returns (x: Machine, g: Frame, still: bool)
    requires WellFormed(nodes, rank) && f.Obj? && f.node < |nodes| && nodes[f.node].Object? && InObject(below, f, first, m)
    requires RestFillable(nodes, rank, f.node, f.seen)
    ensures Push(nodes, m, Members(nodes, rank, f.node, f.seen, i, first)) == Some(x)
    ensures InObject(below, g, still, x) && g.node == f.node && (forall s :: s in f.seen ==> s in g.seen)
    ensures forall r :: r in nodes[f.node].required && i <= r ==> r in g.seen
    decreases if f.node < |rank| then rank[f.node] else 0, 0, 2 + if i < |nodes[f.node].properties| then |nodes[f.node].properties| - i else 0
  {
    hide *;
    var id := f.node;
    SizesAre(nodes, rank);
    ObjectParts(nodes, rank, id);
    MembersIs(nodes, rank, id, f.seen, i, first);
    if i >= |nodes[id].properties| {
      PushNothing(nodes, m);
      x, g, still := m, f, first;
    } else if i in nodes[id].required && i !in f.seen {
      RestAt(nodes, rank, id, f.seen, i);
      var y, h := MemberRead(nodes, rank, m, below, f, i, first);
      RestMore(nodes, rank, id, f.seen, h.seen);
      x, g, still := MembersRead(nodes, rank, y, below, h, i + 1, false);
      PushThen(nodes, m, (if first then "" else ",") + Member(nodes, rank, id, i), y, Members(nodes, rank, id, f.seen + [i], i + 1, false));
      assert i in h.seen;
    } else {
      x, g, still := MembersRead(nodes, rank, m, below, f, i + 1, first);
    }
  }

  lemma PushNothing(nodes: Arena, m: Machine)
    ensures Push(nodes, m, "") == Some(m)
  {}

  lemma RestAfter(below: seq<Frame>, f: Frame, first: bool, m: Machine)
    requires f.Obj? && AtRest(below + [f], m)
    ensures InObject(below, f, false, m)
  {}

  lemma NamedIs(f: Frame, name: string, i: nat)
    requires f.Obj?
    ensures Named(f, name, i).Obj? && Named(f, name, i).node == f.node && Named(f, name, i).seen == f.seen + [i] && Container(Named(f, name, i))
  {}

  lemma InObjectIs(below: seq<Frame>, f: Frame, first: bool, m: Machine)
    requires InObject(below, f, first, m)
    ensures f.Obj?
  {}

  lemma KeyPlaceIs(f: Frame)
    requires KeyPlace(f)
    ensures f.Obj?
  {}

  /** A member, from where its key may begin. */
  lemma {:induction false} MemberFrom(nodes: Arena, rank: seq<nat>, m: Machine, below: seq<Frame>, f: Frame, i: nat) returns (x: Machine, g: Frame)
    requires WellFormed(nodes, rank) && KeyPlace(f) && f.Obj? && f.node < |nodes| && nodes[f.node].Object? && m.stack == below + [f] && !m.done
    requires i < |nodes[f.node].properties| && i !in f.seen && Fillable(nodes, rank, nodes[f.node].properties[i].1)
    ensures Push(nodes, m, Member(nodes, rank, f.node, i)) == Some(x)
    ensures InObject(below, g, false, x) && g.Obj? && g.node == f.node && g.seen == f.seen + [i]
    decreases if f.node < |rank| then rank[f.node] else 0, 0, 0
  {
    hide *;
    SizesAre(nodes, rank);
    ObjectParts(nodes, rank, f.node);
    MemberIs(nodes, rank, f.node, i);
    var (name, child) := nodes[f.node].properties[i];
    HeadRead(nodes, rank, m, below, f, i);
    g := Named(f, name, i);
    NamedIs(f, name, i);
    var z := At(below + [g, Value(child)]);
    AtIs(below, g, Value(child));
    ResumeNext(below, g);
    LeastRead(nodes, rank, z, below + [g], child);
    x := Push(nodes, z, Least(nodes, rank, child)).value;
    PushThen(nodes, m, "\"" + name + "\":", z, Least(nodes, rank, child));
    RestAfter(below, g, false, x);
  }

  lemma {:induction false} MemberRead(nodes: Arena, rank: seq<nat>, m: Machine, below: seq<Frame>, f: Frame, i: nat, first: bool)
      returns (x: Machine, g: Frame)
    requires WellFormed(nodes, rank) && f.Obj? && f.node < |nodes| && nodes[f.node].Object? && InObject(below, f, first, m)
    requires i < |nodes[f.node].properties| && i !in f.seen && Fillable(nodes, rank, nodes[f.node].properties[i].1)
    ensures Push(nodes, m, (if first then "" else ",") + Member(nodes, rank, f.node, i)) == Some(x)
    ensures InObject(below, g, false, x) && g.Obj? && g.node == f.node && g.seen == f.seen + [i]
    decreases if f.node < |rank| then rank[f.node] else 0, 0, 1
  {
    hide *;
    var y, h := CommaRead(nodes, m, below, f, first);
    KeyPlaceIs(h);
    x, g := MemberFrom(nodes, rank, y, below, h, i);
    PushThen(nodes, m, if first then "" else ",", y, Member(nodes, rank, f.node, i));
  }

  lemma AtIs(below: seq<Frame>, f: Frame, g: Frame)
    ensures At(below + [f, g]).stack == (below + [f]) + [g] && !At(below + [f, g]).done
  {
    assert below + [f, g] == (below + [f]) + [g];
  }

  // --------------------------------------------------- finishing what is on top

  function Repeat(c: char, n: nat): string
    decreases n
  {
    if n == 0 then "" else [c] + Repeat(c, n - 1)
  }

  /** What ends an escape. A quote is a good escape character, and the one a full string still takes. */
  function EscapeEnd(escape: nat): string {
    if escape == 5 then "\"" else Repeat('0', escape)
  }

  /** Stuck by a length cap: an unfinished number, or an unfinished hexadecimal escape, with no room for what is missing. */
  predicate Capped(f: Frame) {
    match f
    case Num(_, _, _, _, _, _, chars) => !NumComplete(f) && chars >= MaxNumberChars
    case Str(escape, len) => 0 < escape < 5 && len + escape > MaxStringChars
    case _ => false
  }

  /** An alternative of a word that can still be read to its end. */
  predicate Fits(run: nat, at: nat, a: string) {
    at < |a| && Spaced(run, a[at..])
  }

  /** Some property may come next, its key beginning with `key`, and its value can be filled. */
  predicate Opens(nodes: Arena, rank: seq<nat>, node: nat, seen: seq<nat>, key: string) {
    KeysFree(nodes, node)
    || (node < |nodes| && nodes[node].Object?
        && exists i :: 0 <= i < |nodes[node].properties| && Unseen(nodes[node].properties, seen, key, i) && Fillable(nodes, rank, nodes[node].properties[i].1))
  }

  predicate StuckObject(nodes: Arena, rank: seq<nat>, f: Frame)
    requires f.Obj?
  {
    !RestFillable(nodes, rank, f.node, f.seen)
    || (f.ostate == OKeyExpected && KeyPossible(nodes, f.node, f.seen, "") && !Opens(nodes, rank, f.node, f.seen, ""))
    || (f.ostate == OKey && KeyPossible(nodes, f.node, f.seen, f.key) && !Opens(nodes, rank, f.node, f.seen, f.key))
    || (f.ostate == OColon && ValueNode(nodes, f.node, f.key).Some? && !Fillable(nodes, rank, ValueNode(nodes, f.node, f.key).value))
  }

  /** What frame `f` is waiting for cannot be written: a cap is in the way of it, or of everything it might be. */
  predicate Stuck(nodes: Arena, rank: seq<nat>, run: nat, f: Frame) {
    match f
    case Value(id) => !Fillable(nodes, rank, id)
    case Word(alts, at) => alts != [] && forall a :: a in alts ==> !Fits(run, at, a)
    case Obj(_, _, _, _, _) => StuckObject(nodes, rank, f)
    case Arr(_, state) => state == AValueExpected && !Fillable(nodes, rank, ElementNode(nodes, f))
    case _ => Capped(f)
  }

  /** Some frame of the state is stuck. */
  predicate Stranded(nodes: Arena, rank: seq<nat>, m: Machine) {
    exists i :: 0 <= i < |m.stack| && Stuck(nodes, rank, m.wsRun, m.stack[i])
  }

  lemma {:induction false} HexRead(nodes: Arena, m: Machine, below: seq<Frame>, escape: nat, len: nat)
    requires m.stack == below + [Str(escape, len)] && !m.done && escape < 5 && (escape > 0 ==> len + escape <= MaxStringChars)
    ensures Push(nodes, m, Repeat('0', escape)).Some?
    ensures var x := Push(nodes, m, Repeat('0', escape)).value;
      x.stack == below + [Str(0, len + escape)] && !x.done
    decreases escape
  {
    if escape > 0 {
      var g := Str(escape - 1, len + 1);
      StepStay(nodes, m, below, Str(escape, len), '0', g);
      PushCons(nodes, m, '0', At(below + [g]), Repeat('0', escape - 1));
      HexRead(nodes, At(below + [g]), below, escape - 1, len + 1);
    }
  }

  lemma StringEnds(nodes: Arena, m: Machine, below: seq<Frame>, escape: nat, len: nat)
    requires m.stack == below + [Str(escape, len)] && !m.done && escape <= 5 && !Capped(Str(escape, len)) && Resume(below).Some?
    ensures Push(nodes, m, EscapeEnd(escape) + "\"").Some? && AtRest(below, Push(nodes, m, EscapeEnd(escape) + "\"").value)
  {
    var x: Machine, l: nat;
    if escape == 5 {
      l := len + 1;
      x := At(below + [Str(0, l)]);
      StepStay(nodes, m, below, Str(5, len), '"', Str(0, l));
      PushOne(nodes, m, '"');
      assert "\"" == ['"'];
    } else {
      HexRead(nodes, m, below, escape, len);
      l := len + escape;
      x := Push(nodes, m, Repeat('0', escape)).value;
    }
    PushThen(nodes, m, EscapeEnd(escape), x, "\"");
    StepClose(nodes, x, below, Str(0, l), '"');
    PushOne(nodes, x, '"');
    assert "\"" == ['"'];
  }

  function NumberEnd(f: Frame): string {
    if NumComplete(f) then "" else "0"
  }

  lemma NumberFinishes(nodes: Arena, m: Machine, below: seq<Frame>, f: Frame)
    requires f.Num? && FrameOk(nodes, f) && m.stack == below + [f] && !m.done && !Capped(f) && Resume(below).Some?
    ensures Push(nodes, m, NumberEnd(f)).Some? && AtRest(below, Push(nodes, m, NumberEnd(f)).value)
  {
    assert Top(m) == f;
    if NumComplete(f) {
      PushNothing(nodes, m);
    } else {
      var g := NumMove(f, '0').top;
      assert NumComplete(g);
      StepStay(nodes, m, below, f, '0', g);
      PushOne(nodes, m, '0');
      assert "0" == ['0'] && Top(At(below + [g])) == g;
    }
  }

  // ------------------------------------------------------------- free-form keys

  function LongestName(props: seq<(string, nat)>): (n: nat)
    ensures forall i :: 0 <= i < |props| ==> |props[i].0| <= n
  {
    if props == [] then 0
    else
      var rest := LongestName(props[1..]);
      if |props[0].0| >= rest then |props[0].0| else rest
  }

  /** Enough to make a key longer than any declared name. */
  function Padding(nodes: Arena, node: nat): string {
    if node < |nodes| && nodes[node].Object? then Repeat('x', LongestName(nodes[node].properties) + 1) else ""
  }

  lemma {:induction false} PadRead(nodes: Arena, m: Machine, below: seq<Frame>, f: Frame, n: nat) returns (g: Frame)
    requires f.Obj? && f.ostate == OKey && f.keyEscape == 0 && KeysFree(nodes, f.node) && m.stack == below + [f] && !m.done
    ensures Push(nodes, m, Repeat('x', n)).Some? && Push(nodes, m, Repeat('x', n)).value.stack == below + [g] && !Push(nodes, m, Repeat('x', n)).value.done
    ensures g.Obj? && g == f.(key := g.key) && |g.key| == |f.key| + n
    decreases n
  {
    if n == 0 {
      g := f;
    } else {
      var h := f.(key := f.key + ['x']);
      assert MoveOf(nodes, f, 'x') == Stay(h);
      hide MoveOf;
      StepStay(nodes, m, below, f, 'x', h);
      PushCons(nodes, m, 'x', At(below + [h]), Repeat('x', n - 1));
      g := PadRead(nodes, At(below + [h]), below, h, n - 1);
    }
  }

  lemma {:induction false} KeyHexRead(nodes: Arena, m: Machine, below: seq<Frame>, f: Frame) returns (g: Frame)
    requires f.Obj? && f.ostate == OKey && f.keyEscape < 5 && m.stack == below + [f] && !m.done
    ensures Push(nodes, m, Repeat('0', f.keyEscape)).Some?
    ensures var x := Push(nodes, m, Repeat('0', f.keyEscape)).value;
      x.stack == below + [g] && !x.done
    ensures g.Obj? && g == f.(key := g.key, keyEscape := 0)
    decreases f.keyEscape
  {
    if f.keyEscape == 0 {
      g := f;
    } else {
      var h := f.(key := f.key + ['0'], keyEscape := f.keyEscape - 1);
      assert MoveOf(nodes, f, '0') == Stay(h);
      hide MoveOf;
      StepStay(nodes, m, below, f, '0', h);
      PushCons(nodes, m, '0', At(below + [h]), Repeat('0', f.keyEscape - 1));
      g := KeyHexRead(nodes, At(below + [h]), below, h);
    }
  }

  lemma KeyEscapeRead(nodes: Arena, m: Machine, below: seq<Frame>, f: Frame) returns (g: Frame)
    requires f.Obj? && f.ostate == OKey && f.keyEscape <= 5 && m.stack == below + [f] && !m.done
    ensures Push(nodes, m, EscapeEnd(f.keyEscape)).Some?
    ensures var x := Push(nodes, m, EscapeEnd(f.keyEscape)).value;
      x.stack == below + [g] && !x.done
    ensures g.Obj? && g == f.(key := g.key, keyEscape := 0)
  {
    if f.keyEscape == 5 {
      g := f.(key := f.key + ['"'], keyEscape := 0);
      assert MoveOf(nodes, f, '"') == Stay(g);
      hide MoveOf;
      StepStay(nodes, m, below, f, '"', g);
      PushOne(nodes, m, '"');
      assert "\"" == ['"'];
    } else {
      g := KeyHexRead(nodes, m, below, f);
    }
  }

  /** A key longer than every declared name, or any key of a free-form object, is one more member of any value. */
  lemma UndeclaredKey(nodes: Arena, node: nat, seen: seq<nat>, key: string)
    requires KeysFree(nodes, node)
    requires node != Free ==> node < |nodes| && nodes[node].Object? && |key| > LongestName(nodes[node].properties)
    ensures CheckKey(nodes, node, seen, key) == Some(seen) && ValueNode(nodes, node, key) == Some(AnyNode(nodes))
  {
    if node != Free {
      var props := nodes[node].properties;
      assert forall i :: 0 <= i < |props| ==> props[i].0 != key;
      assert Find(props, key).None?;
    }
  }

  function FreeKey(nodes: Arena, node: nat, escape: nat): string {
    EscapeEnd(escape) + Padding(nodes, node) + "\":null"
  }

  lemma FreeKeyRead(nodes: Arena, rank: seq<nat>, m: Machine, below: seq<Frame>, f: Frame) returns (x: Machine, g: Frame)
    requires WellFormed(nodes, rank) && f.Obj? && f.ostate == OKey && f.keyEscape <= 5 && KeysFree(nodes, f.node) && Sound(nodes, f) && m.stack == below + [f] && !m.done
    ensures Push(nodes, m, FreeKey(nodes, f.node, f.keyEscape)) == Some(x)
    ensures InObject(below, g, false, x) && g.Obj? && g.node == f.node && g.seen == f.seen
  {
    var h := KeyEscapeRead(nodes, m, below, f);
    var y := Push(nodes, m, EscapeEnd(f.keyEscape)).value;
    var n := |Padding(nodes, f.node)|;
    var k := PadAll(nodes, rank, y, below, h);
    var z := Push(nodes, y, Padding(nodes, f.node)).value;
    x, g := FreeColonRead(nodes, rank, z, below, k);
    hide *;
    PushThen(nodes, m, EscapeEnd(f.keyEscape), y, Padding(nodes, f.node) + "\":null");
    PushThen(nodes, y, Padding(nodes, f.node), z, "\":null");
    FreeKeyIs(nodes, f.node, f.keyEscape);
  }

  lemma FreeKeyIs(nodes: Arena, node: nat, escape: nat)
    ensures FreeKey(nodes, node, escape) == EscapeEnd(escape) + (Padding(nodes, node) + "\":null")
  {}

  lemma PadAll(nodes: Arena, rank: seq<nat>, m: Machine, below: seq<Frame>, f: Frame) returns (g: Frame)
    requires WellFormed(nodes, rank) && f.Obj? && f.ostate == OKey && f.keyEscape == 0 && KeysFree(nodes, f.node) && Sound(nodes, f) && m.stack == below + [f] && !m.done
    ensures Push(nodes, m, Padding(nodes, f.node)).Some?
    ensures var x := Push(nodes, m, Padding(nodes, f.node)).value;
      x.stack == below + [g] && !x.done
    ensures g.Obj? && g == f.(key := g.key) && CheckKey(nodes, g.node, g.seen, g.key) == Some(g.seen) && ValueNode(nodes, g.node, g.key) == Some(AnyNode(nodes))
  {
    hide WellFormed;
    if f.node < |nodes| && nodes[f.node].Object? {
      g := PadRead(nodes, m, below, f, LongestName(nodes[f.node].properties) + 1);
      UndeclaredKey(nodes, g.node, g.seen, g.key);
    } else {
      g := f;
      PushNothing(nodes, m);
      UndeclaredKey(nodes, g.node, g.seen, g.key);
    }
  }

  lemma FreeColonRead(nodes: Arena, rank: seq<nat>, m: Machine, below: seq<Frame>, f: Frame) returns (x: Machine, g: Frame)
    requires WellFormed(nodes, rank) && f.Obj? && f.ostate == OKey && f.keyEscape == 0 && m.stack == below + [f] && !m.done
    requires CheckKey(nodes, f.node, f.seen, f.key) == Some(f.seen) && ValueNode(nodes, f.node, f.key) == Some(AnyNode(nodes))
    ensures Push(nodes, m, "\":null") == Some(x)
    ensures InObject(below, g, false, x) && g.Obj? && g.node == f.node && g.seen == f.seen
  {
    var any := AnyNode(nodes);
    var h := f.(ostate := OColon);
    g := f.(ostate := OValue);
    assert MoveOf(nodes, f, '"') == Stay(h);
    assert MoveOf(nodes, h, ':') == Move.Open(g, Value(any));
    AnyInside(nodes, rank);
    SizesAre(nodes, rank);
    LeastIs(nodes, rank, any);
    IsLinked(nodes, rank);
    FillableIs(nodes, rank, any);
    hide MoveOf, WellFormed, Linked, AnyNode, Fillable;
    assert "\":null" == ['"'] + ([':'] + "null");
    StepStay(nodes, m, below, f, '"', h);
    PushCons(nodes, m, '"', At(below + [h]), [':'] + "null");
    StepOpen(nodes, At(below + [h]), below, h, ':', g, Value(any));
    var z := At(below + [g, Value(any)]);
    PushCons(nodes, At(below + [h]), ':', z, "null");
    AtIs(below, g, Value(any));
    ResumeNext(below, g);
    LeastRead(nodes, rank, z, below + [g], any);
    x := Push(nodes, z, "null").value;
  }

  // -------------------------------------------------------------- open objects

  function FirstOpen(nodes: Arena, rank: seq<nat>, props: seq<(string, nat)>, seen: seq<nat>, key: string, i: nat): (r: Option<nat>)
    ensures r.Some? ==> Unseen(props, seen, key, r.value) && Fillable(nodes, rank, props[r.value].1)
    ensures r.None? ==> forall j: nat :: i <= j < |props| ==> !(Unseen(props, seen, key, j) && Fillable(nodes, rank, props[j].1))
    decreases if i < |props| then |props| - i else 0
  {
    if i >= |props| then None
    else if Unseen(props, seen, key, i) && Fillable(nodes, rank, props[i].1) then Some(i)
    else FirstOpen(nodes, rank, props, seen, key, i + 1)
  }

  /** Everything from a point between members to the closing brace. */
  function ObjectEnd(nodes: Arena, rank: seq<nat>, node: nat, seen: seq<nat>, first: bool): string {
    if node != Free && node < |nodes| && nodes[node].Object? then Members(nodes, rank, node, seen, 0, first) + "}" else "}"
  }

  lemma ObjectEnds(nodes: Arena, rank: seq<nat>, m: Machine, below: seq<Frame>, f: Frame, first: bool)
    requires WellFormed(nodes, rank) && f.Obj? && Sound(nodes, f) && InObject(below, f, first, m) && Resume(below).Some?
    requires RestFillable(nodes, rank, f.node, f.seen)
    ensures Push(nodes, m, ObjectEnd(nodes, rank, f.node, f.seen, first)).Some?
    ensures AtRest(below, Push(nodes, m, ObjectEnd(nodes, rank, f.node, f.seen, first)).value)
  {
    if f.node != Free {
      var x, g, still := MembersRead(nodes, rank, m, below, f, 0, first);
      assert CanClose(nodes, g.node, g.seen);
      PushThen(nodes, m, Members(nodes, rank, f.node, f.seen, 0, first), x, "}");
      hide *;
      InObjectIs(below, g, still, x);
      BraceRead(nodes, x, below, g, still);
    } else {
      assert CanClose(nodes, f.node, f.seen);
      hide *;
      BraceRead(nodes, m, below, f, first);
    }
  }

  /** From inside a key to the end of its member; what has been seen then. */
  function KeyFinish(nodes: Arena, rank: seq<nat>, f: Frame): (string, seq<nat>)
    requires f.Obj?
  {
    if KeysFree(nodes, f.node) then (FreeKey(nodes, f.node, f.keyEscape), f.seen)
    else if f.node >= |nodes| || !nodes[f.node].Object? then ("", f.seen)
    else match FirstOpen(nodes, rank, nodes[f.node].properties, f.seen, f.key, 0)
      case None => ("", f.seen)
      case Some(i) =>
        var (name, child) := nodes[f.node].properties[i];
        (name[|f.key|..] + "\":" + Least(nodes, rank, child), f.seen + [i])
  }

  lemma KeyFinishRead(nodes: Arena, rank: seq<nat>, m: Machine, below: seq<Frame>, f: Frame) returns (x: Machine, g: Frame)
    requires WellFormed(nodes, rank) && f.Obj? && f.ostate == OKey && Sound(nodes, f) && FrameOk(nodes, f) && Opens(nodes, rank, f.node, f.seen, f.key) && m.stack == below + [f] && !m.done
    ensures Push(nodes, m, KeyFinish(nodes, rank, f).0) == Some(x)
    ensures InObject(below, g, false, x) && g.Obj? && g.node == f.node && g.seen == KeyFinish(nodes, rank, f).1
    ensures forall s :: s in f.seen ==> s in g.seen
  {
    if KeysFree(nodes, f.node) {
      x, g := FreeKeyRead(nodes, rank, m, below, f);
    } else {
      var props := nodes[f.node].properties;
      assert f.node != Free;
      var i := FirstOpen(nodes, rank, props, f.seen, f.key, 0).value;
      ObjectParts(nodes, rank, f.node);
      var (name, child) := props[i];
      assert f.key == name[..|f.key|];
      assert f.keyEscape == 0;
      hide WellFormed, FirstOpen, KeysFree, Fillable, Opens;
      NameRead(nodes, m, below, f, i, |f.key|);
      var y := Push(nodes, m, name[|f.key|..]).value;
      var h := f.(key := name);
      x, g := NamedValueRead(nodes, rank, y, below, h, i);
      PushThen(nodes, m, name[|f.key|..], y, "\":" + Least(nodes, rank, child));
      assert name[|f.key|..] + "\":" + Least(nodes, rank, child) == name[|f.key|..] + ("\":" + Least(nodes, rank, child));
    }
  }

  lemma NamedValueRead(nodes: Arena, rank: seq<nat>, m: Machine, below: seq<Frame>, f: Frame, i: nat) returns (x: Machine, g: Frame)
    requires WellFormed(nodes, rank) && f.Obj? && f.ostate == OKey && f.keyEscape == 0 && f.node < |nodes| && f.node != Free && nodes[f.node].Object?
    requires i < |nodes[f.node].properties| && i !in f.seen && f.key == nodes[f.node].properties[i].0 && m.stack == below + [f] && !m.done
    requires Fillable(nodes, rank, nodes[f.node].properties[i].1)
    ensures Push(nodes, m, "\":" + Least(nodes, rank, nodes[f.node].properties[i].1)) == Some(x)
    ensures InObject(below, g, false, x) && g.Obj? && g.node == f.node && g.seen == f.seen + [i]
  {
    hide *;
    ObjectParts(nodes, rank, f.node);
    var child := nodes[f.node].properties[i].1;
    ColonRead(nodes, m, below, f, i);
    g := Named(f, f.key, i);
    NamedIs(f, f.key, i);
    var z := At(below + [g, Value(child)]);
    AtIs(below, g, Value(child));
    ResumeNext(below, g);
    LeastRead(nodes, rank, z, below + [g], child);
    x := Push(nodes, z, Least(nodes, rank, child)).value;
    PushThen(nodes, m, "\":", z, Least(nodes, rank, child));
    RestAfter(below, g, false, x);
  }

  /** From where a key must begin to the end of its member. */
  function NextMember(nodes: Arena, rank: seq<nat>, f: Frame): (string, seq<nat>)
    requires f.Obj?
  {
    var (text, seen) := KeyFinish(nodes, rank, f.(ostate := OKey, key := "", keyEscape := 0));
    ("\"" + text, seen)
  }

  lemma NextMemberRead(nodes: Arena, rank: seq<nat>, m: Machine, below: seq<Frame>, f: Frame) returns (x: Machine, g: Frame)
    requires WellFormed(nodes, rank) && f.Obj? && f.ostate == OKeyExpected && Sound(nodes, f) && Opens(nodes, rank, f.node, f.seen, "") && m.stack == below + [f] && !m.done
    ensures Push(nodes, m, NextMember(nodes, rank, f).0) == Some(x)
    ensures InObject(below, g, false, x) && g.Obj? && g.node == f.node && g.seen == NextMember(nodes, rank, f).1
    ensures forall s :: s in f.seen ==> s in g.seen
  {
    var h := f.(ostate := OKey, key := "", keyEscape := 0);
    assert MoveOf(nodes, f, '"') == Stay(h);
    assert Sound(nodes, h) && FrameOk(nodes, h);
    var text := KeyFinish(nodes, rank, h).0;
    hide *;
    StepStay(nodes, m, below, f, '"', h);
    x, g := KeyFinishRead(nodes, rank, At(below + [h]), below, h) by { AtOne(below, h); }
    PushCons(nodes, m, '"', At(below + [h]), text);
    NextMemberIs(nodes, rank, f, h);
  }

  lemma NextMemberIs(nodes: Arena, rank: seq<nat>, f: Frame, h: Frame)
    requires f.Obj? && h == f.(ostate := OKey, key := "", keyEscape := 0)
    ensures NextMember(nodes, rank, f) == (['"'] + KeyFinish(nodes, rank, h).0, KeyFinish(nodes, rank, h).1)
  {
    assert "\"" == ['"'];
  }

  lemma AtOne(below: seq<Frame>, f: Frame)
    ensures At(below + [f]).stack == below + [f] && !At(below + [f]).done
  {}

  // ---------------------------------------------------------------- open arrays

  lemma LeastStarts(nodes: Arena, rank: seq<nat>, id: nat)
    requires Linked(nodes, rank) && id < |nodes| && Fillable(nodes, rank, id)
    ensures Least(nodes, rank, id) != "" && !IsWs(Least(nodes, rank, id)[0])
  {
    LinkedSizes(nodes, rank);
    LeastIs(nodes, rank, id);
    FillableIs(nodes, rank, id);
    if nodes[id].Choice? {
      ShortestUnshadowed(nodes[id].options);
    }
    hide Fillable, Linked, Least, Picked, Shortest, RestFillable, Spaced;
  }

  function ElementNode(nodes: Arena, f: Frame): nat
    requires f.Arr?
  {
    if f.items == Free then AnyNode(nodes) else f.items
  }

  lemma ElementOpens(nodes: Arena, m: Machine, below: seq<Frame>, f: Frame, c: char)
    requires f.Arr? && f.astate == AValueExpected && !IsWs(c) && m.stack == below + [f] && !m.done && ElementNode(nodes, f) != Free
    ensures PushChar(nodes, m, c) == PushChar(nodes, At(below + [f.(astate := AValue), Value(ElementNode(nodes, f))]), c)
  {
    var x := m.(wsRun := 0, started := true);
    assert Top(x) == f && Below(x) == below;
    var y := At(below + [f.(astate := AValue), Value(ElementNode(nodes, f))]);
    assert Once(nodes, m, c) == Again(y);
    AgainSettles(nodes, m, c);
    hide Once;
  }

  lemma ElementRead(nodes: Arena, rank: seq<nat>, m: Machine, below: seq<Frame>, f: Frame)
    requires WellFormed(nodes, rank) && f.Arr? && f.astate == AValueExpected && FrameOk(nodes, f) && m.stack == below + [f] && !m.done && Resume(below).Some?
    requires Fillable(nodes, rank, ElementNode(nodes, f))
    ensures var text := Least(nodes, rank, ElementNode(nodes, f)) + "]";
      Push(nodes, m, text).Some? && AtRest(below, Push(nodes, m, text).value)
  {
    AnyInside(nodes, rank);
    SizesAre(nodes, rank);
    var el, g := ElementNode(nodes, f), f.(astate := AValue);
    assert el < |nodes| && el != Free by {
      assert |nodes| <= Free;
    }
    var least := Least(nodes, rank, el);
    var y := At(below + [g, Value(el)]);
    LeastStarts(nodes, rank, el);
    ElementOpens(nodes, m, below, f, least[0]);
    assert least == [least[0]] + least[1..];
    assert Push(nodes, m, least) == Push(nodes, y, least);
    hide WellFormed, PushChar, Least, Fillable;
    AtIs(below, g, Value(el));
    ResumeNext(below, g);
    LeastRead(nodes, rank, y, below + [g], el);
    var x := Push(nodes, y, least).value;
    PushThen(nodes, m, least, x, "]");
    BracketRead(nodes, x, below, g);
  }

  lemma BracketRead(nodes: Arena, m: Machine, below: seq<Frame>, f: Frame)
    requires f.Arr? && AtRest(below + [f], m) && Resume(below).Some?
    ensures Push(nodes, m, "]").Some? && AtRest(below, Push(nodes, m, "]").value)
  {
    RestClose(nodes, below, f, m, ']');
    PushOne(nodes, m, ']');
    assert "]" == [']'];
  }

  // ------------------------------------------------------------ the closing text

  function FinishTop(nodes: Arena, rank: seq<nat>, wsRun: nat, f: Frame): string {
    match f
    case Value(id) => Least(nodes, rank, id)
    case Str(escape, _) => EscapeEnd(escape) + "\""
    case Num(_, _, _, _, _, _, _) => NumberEnd(f)
    case Word(alts, at) => if Fitting(wsRun, at, alts) == [] then "" else Shortest(Fitting(wsRun, at, alts))[at..]
    case Obj(node, state, seen, key, _) =>
      (match state
       case OStart => ObjectEnd(nodes, rank, node, seen, true)
       case ONext => ObjectEnd(nodes, rank, node, seen, false)
       case OKeyExpected => var (text, now) := NextMember(nodes, rank, f); text + ObjectEnd(nodes, rank, node, now, false)
       case OKey => var (text, now) := KeyFinish(nodes, rank, f); text + ObjectEnd(nodes, rank, node, now, false)
       case OColon =>
         (match ValueNode(nodes, node, key)
          case None => ""
          case Some(n) => ":" + Least(nodes, rank, n) + ObjectEnd(nodes, rank, node, seen, false))
       case OValue => "")
    case Arr(_, state) => if state == AValueExpected then Least(nodes, rank, ElementNode(nodes, f)) + "]" else "]"
  }

  lemma ColonFinish(nodes: Arena, rank: seq<nat>, m: Machine, below: seq<Frame>, f: Frame)
    requires WellFormed(nodes, rank) && f.Obj? && f.ostate == OColon && Sound(nodes, f) && FrameOk(nodes, f) && m.stack == below + [f] && !m.done && Resume(below).Some?
    requires RestFillable(nodes, rank, f.node, f.seen) && ValueNode(nodes, f.node, f.key).Some? && Fillable(nodes, rank, ValueNode(nodes, f.node, f.key).value)
    ensures Push(nodes, m, FinishTop(nodes, rank, m.wsRun, f)).Some? && AtRest(below, Push(nodes, m, FinishTop(nodes, rank, m.wsRun, f)).value)
  {
    var n, g := ValueNode(nodes, f.node, f.key).value, f.(ostate := OValue);
    var least, end := Least(nodes, rank, n), ObjectEnd(nodes, rank, f.node, f.seen, false);
    assert MoveOf(nodes, f, ':') == Move.Open(g, Value(n)) && Sound(nodes, g);
    assert FinishTop(nodes, rank, m.wsRun, f) == [':'] + (least + end) by {
      assert ":" + least + end == [':'] + (least + end);
    }
    hide MoveOf, WellFormed, ValueNode, FinishTop, Least, ObjectEnd, Fillable, RestFillable;
    StepOpen(nodes, m, below, f, ':', g, Value(n));
    var z := At(below + [g, Value(n)]);
    PushCons(nodes, m, ':', z, least + end);
    AtIs(below, g, Value(n));
    ResumeNext(below, g);
    LeastRead(nodes, rank, z, below + [g], n);
    var x := Push(nodes, z, least).value;
    PushThen(nodes, z, least, x, end);
    ObjectEnds(nodes, rank, x, below, g, false);
  }

  lemma MemberFinish(nodes: Arena, rank: seq<nat>, m: Machine, below: seq<Frame>, text: string, x: Machine, g: Frame)
    requires WellFormed(nodes, rank) && Push(nodes, m, text) == Some(x) && g.Obj? && Sound(nodes, g) && InObject(below, g, false, x) && Resume(below).Some?
    requires RestFillable(nodes, rank, g.node, g.seen)
    ensures var all := text + ObjectEnd(nodes, rank, g.node, g.seen, false);
      Push(nodes, m, all).Some? && AtRest(below, Push(nodes, m, all).value)
  {
    hide *;
    PushThen(nodes, m, text, x, ObjectEnd(nodes, rank, g.node, g.seen, false));
    ObjectEnds(nodes, rank, x, below, g, false);
  }

  lemma SameNodeSound(nodes: Arena, f: Frame, g: Frame)
    requires f.Obj? && g.Obj? && Sound(nodes, f) && g.node == f.node
    ensures Sound(nodes, g)
  {}

  lemma MoreIsPossible(nodes: Arena, f: Frame)
    requires f.Obj? && f.ostate == OKeyExpected && Sound(nodes, f) && FrameViable(nodes, f)
    ensures KeyPossible(nodes, f.node, f.seen, "")
  {
    if f.node != Free && !nodes[f.node].additional {
      var props := nodes[f.node].properties;
      var i :| 0 <= i < |props| && i !in f.seen;
      assert Unseen(props, f.seen, "", i);
    }
  }

  lemma ObjectFinish(nodes: Arena, rank: seq<nat>, m: Machine, below: seq<Frame>, f: Frame)
    requires WellFormed(nodes, rank) && f.Obj? && Sound(nodes, f) && FrameOk(nodes, f) && FrameViable(nodes, f) && !StuckObject(nodes, rank, f) && !Waiting(f)
    requires m.stack == below + [f] && !m.done && Resume(below).Some?
    ensures Push(nodes, m, FinishTop(nodes, rank, m.wsRun, f)).Some? && AtRest(below, Push(nodes, m, FinishTop(nodes, rank, m.wsRun, f)).value)
  {
    match f.ostate
    case OStart =>
      ObjectEnds(nodes, rank, m, below, f, true);
    case ONext =>
      ResumeNext(below, f);
      assert Next(f) == f;
      ObjectEnds(nodes, rank, m, below, f, false);
    case OKeyExpected =>
      MoreIsPossible(nodes, f);
      var x, g := NextMemberRead(nodes, rank, m, below, f);
      SameNodeSound(nodes, f, g);
      RestMore(nodes, rank, f.node, f.seen, g.seen);
      MemberFinish(nodes, rank, m, below, NextMember(nodes, rank, f).0, x, g);
    case OKey =>
      var x, g := KeyFinishRead(nodes, rank, m, below, f);
      SameNodeSound(nodes, f, g);
      RestMore(nodes, rank, f.node, f.seen, g.seen);
      MemberFinish(nodes, rank, m, below, KeyFinish(nodes, rank, f).0, x, g);
    case OColon =>
      ColonFinish(nodes, rank, m, below, f);
    case OValue =>
  }

  function Fitting(run: nat, at: nat, alts: seq<string>): (r: seq<string>)
    ensures forall a :: a in r <==> a in alts && Fits(run, at, a)
  {
    if alts == [] then []
    else (if Fits(run, at, alts[0]) then [alts[0]] else []) + Fitting(run, at, alts[1..])
  }

  /** No alternative ends inside the shortest that fits. */
  lemma FittingTracks(run: nat, at: nat, alts: seq<string>)
    requires Fitting(run, at, alts) != [] && forall a :: a in alts ==> at < |a|
    ensures var o := Shortest(Fitting(run, at, alts)); Tracking(alts, at, o) && Spaced(run, o[at..])
  {
    var o := Shortest(Fitting(run, at, alts));
    hide Fitting, Shortest, Spaced;
    forall a | a in alts ensures !(a[at..] < o[at..]) {
      if a[at..] < o[at..] {
        SpacedPrefix(run, a[at..], o[at..]);
      }
    }
  }

  lemma WordFinish(nodes: Arena, m: Machine, below: seq<Frame>, alts: seq<string>, at: nat)
    requires Workable(nodes, m) && m.stack == below + [Word(alts, at)] && !m.done && Resume(below).Some?
    requires exists a :: a in alts && Fits(m.wsRun, at, a)
    ensures Fitting(m.wsRun, at, alts) != []
    ensures var text := Shortest(Fitting(m.wsRun, at, alts))[at..];
      Push(nodes, m, text).Some? && AtRest(below, Push(nodes, m, text).value)
  {
    assert Top(m) == Word(alts, at) && Sound(nodes, Top(m)) && m.started;
    var a :| a in alts && Fits(m.wsRun, at, a);
    assert a in Fitting(m.wsRun, at, alts);
    hide *;
    FittingTracks(m.wsRun, at, alts);
    var o := Shortest(Fitting(m.wsRun, at, alts));
    TrackRead(nodes, m, below, alts, at, o);
    ReadsRest(nodes, m, below, o[at..]);
  }

  lemma TopFinish(nodes: Arena, rank: seq<nat>, m: Machine, below: seq<Frame>, f: Frame)
    requires WellFormed(nodes, rank) && Workable(nodes, m) && m.stack == below + [f] && !m.done && Resume(below).Some?
    requires Sound(nodes, f) && FrameOk(nodes, f) && FrameViable(nodes, f) && !Waiting(f) && !Stuck(nodes, rank, m.wsRun, f)
    ensures Push(nodes, m, FinishTop(nodes, rank, m.wsRun, f)).Some? && AtRest(below, Push(nodes, m, FinishTop(nodes, rank, m.wsRun, f)).value)
  {
    match f
    case Value(id) => LeastRead(nodes, rank, m, below, id);
    case Str(escape, len) => StringEnds(nodes, m, below, escape, len);
    case Num(_, _, _, _, _, _, _) => NumberFinishes(nodes, m, below, f);
    case Word(alts, at) => WordFinish(nodes, m, below, alts, at);
    case Obj(_, _, _, _, _) => ObjectFinish(nodes, rank, m, below, f);
    case Arr(_, state) =>
      if state == AValueExpected {
        ElementRead(nodes, rank, m, below, f);
      } else {
        StepClose(nodes, m, below, f, ']');
        PushOne(nodes, m, ']');
        assert "]" == [']'];
      }
  }

  /** Close what is below, innermost first. */
  function CloseAll(nodes: Arena, rank: seq<nat>, below: seq<Frame>): string
    decreases |below|
  {
    if below == [] then ""
    else
      var f := below[|below| - 1];
      (if f.Obj? then ObjectEnd(nodes, rank, f.node, f.seen, false) else "]") + CloseAll(nodes, rank, below[..|below| - 1])
  }

  lemma {:induction false} AllClose(nodes: Arena, rank: seq<nat>, below: seq<Frame>, m: Machine)
    requires WellFormed(nodes, rank) && AtRest(below, m)
    requires forall i :: 0 <= i < |below| ==> Waiting(below[i]) && Sound(nodes, below[i]) && (below[i].Obj? ==> RestFillable(nodes, rank, below[i].node, below[i].seen))
    ensures Push(nodes, m, CloseAll(nodes, rank, below)).Some? && Complete(Push(nodes, m, CloseAll(nodes, rank, below)).value)
    decreases |below|
  {
    if below == [] {
      PushNothing(nodes, m);
      RestDone(m);
    } else {
      var f, rest := below[|below| - 1], below[..|below| - 1];
      assert below == rest + [f];
      assert Resume(rest).Some?;
      var text := if f.Obj? then ObjectEnd(nodes, rank, f.node, f.seen, false) else "]";
      hide WellFormed, ObjectEnd, RestFillable;
      if f.Obj? {
        ObjectEnds(nodes, rank, m, rest, f, false);
      } else {
        BracketRead(nodes, m, rest, f);
      }
      hide AtRest;
      var x := Push(nodes, m, text).value;
      PushThen(nodes, m, text, x, CloseAll(nodes, rank, rest));
      AllClose(nodes, rank, rest, x);
    }
  }

  /** The text that completes a document from here. */
  function ClosingText(nodes: Arena, rank: seq<nat>, m: Machine): string {
    if m.stack == [] then "" else FinishTop(nodes, rank, m.wsRun, Top(m)) + CloseAll(nodes, rank, Below(m))
  }

  lemma ClosingTextCompletes(nodes: Arena, rank: seq<nat>, m: Machine)
    requires WellFormed(nodes, rank) && Workable(nodes, m) && Viable(nodes, m) && !Stranded(nodes, rank, m)
    ensures Push(nodes, m, ClosingText(nodes, rank, m)).Some? && Complete(Push(nodes, m, ClosingText(nodes, rank, m)).value)
  {
    if m.stack == [] {
      PushNothing(nodes, m);
    } else {
      var f, below := Top(m), Below(m);
      assert m.stack == below + [f] && !m.done;
      assert Sound(nodes, f) && FrameOk(nodes, f) && FrameViable(nodes, f) && !Waiting(f) && !Stuck(nodes, rank, m.wsRun, f);
      assert forall i :: 0 <= i < |below| ==> below[i] == m.stack[i] && Waiting(below[i]) && Sound(nodes, below[i]) && !Stuck(nodes, rank, m.wsRun, below[i]);
      assert Resume(below).Some?;
      hide WellFormed, Workable, Viable, Sound, FrameOk, FrameViable, Fillable, RestFillable, Stranded, FinishTop, CloseAll;
      TopFinish(nodes, rank, m, below, f);
      var x := Push(nodes, m, FinishTop(nodes, rank, m.wsRun, f)).value;
      AllClose(nodes, rank, below, x);
      PushThen(nodes, m, FinishTop(nodes, rank, m.wsRun, f), x, CloseAll(nodes, rank, below));
    }
  }

  // -------------------------------------------------------------- the converse

  lemma CappedMove(nodes: Arena, f: Frame, c: char)
    requires Capped(f)
    ensures MoveOf(nodes, f, c).Stop? || (MoveOf(nodes, f, c).Stay? && Capped(MoveOf(nodes, f, c).top))
  {}

  /** What a move leaves on top is stuck as well; `run` is the whitespace read before the character, `now` after it. */
  ghost predicate StillStuck(nodes: Arena, rank: seq<nat>, now: nat, move: Move) {
    match move
    case Stop => true
    case Stay(g) => Stuck(nodes, rank, now, g)
    case Open(g, h) => Stuck(nodes, rank, now, g) || Stuck(nodes, rank, now, h)
    case OpenThen(g, h) => Stuck(nodes, rank, now, g) || Stuck(nodes, rank, now, h)
    case _ => false
  }

  /** How the whitespace count moves. */
  predicate Counts(run: nat, c: char, now: nat) {
    if IsWs(c) then run < MaxWsRun && now == run + 1 else now == 0
  }

  lemma WordStuck(nodes: Arena, rank: seq<nat>, run: nat, alts: seq<string>, at: nat, c: char, now: nat)
    requires Stuck(nodes, rank, run, Word(alts, at)) && Counts(run, c, now) && forall a :: a in alts ==> at < |a|
    ensures StillStuck(nodes, rank, now, WordMove(alts, at, c))
  {
    var rest := Filter(alts, at, c);
    hide Filter;
    forall a | a in rest ensures at + 1 < |a| && !Fits(now, at + 1, a) {
      assert !Fits(run, at, a) && a[at..] == [c] + a[at + 1..];
      assert a[at..][1..] == a[at + 1..];
      assert !Spaced(now, a[at + 1..]);
    }
  }

  lemma ChoiceStuck(nodes: Arena, rank: seq<nat>, options: seq<string>, c: char)
    requires Picked(options) == [] && !IsWs(c)
    ensures StillStuck(nodes, rank, 0, StartAlts(options, c))
  {
    var alts := Filter(options, 0, c);
    hide Filter;
    forall a | a in alts ensures 1 < |a| && !Fits(0, 1, a) {
      assert !Writable(a) by {
        assert a !in Picked(options);
      }
      assert !Spaced(0, a[1..]);
    }
    hide Picked;
  }

  lemma ValueStuck(nodes: Arena, rank: seq<nat>, run: nat, id: nat, c: char, now: nat)
    requires Linked(nodes, rank) && id < |nodes| && Stuck(nodes, rank, run, Value(id)) && Counts(run, c, now)
    ensures StillStuck(nodes, rank, now, StartMove(nodes, id, c))
  {
    FillableIs(nodes, rank, id);
    hide Linked, Fillable, Picked, RestFillable, Filter;
    if !IsWs(c) && nodes[id].Choice? {
      ChoiceStuck(nodes, rank, nodes[id].options, c);
      assert StartMove(nodes, id, c) == StartAlts(nodes[id].options, c);
    }
  }

  /** A key that closes is a property that cannot be filled, or leaves one that is still required. */
  lemma KeyStuck(nodes: Arena, rank: seq<nat>, run: nat, f: Frame, c: char, now: nat)
    requires Linked(nodes, rank) && f.Obj? && f.ostate == OKey && Sound(nodes, f) && FrameOk(nodes, f) && StuckObject(nodes, rank, f)
    ensures StillStuck(nodes, rank, now, KeyMove(nodes, f, c))
  {
    hide Fillable, Linked;
    var props := if f.node < |nodes| && nodes[f.node].Object? then nodes[f.node].properties else [];
    if f.keyEscape == 0 && c == '"' {
      if CheckKey(nodes, f.node, f.seen, f.key).Some? {
        ClosedKeyStuck(nodes, rank, f, f.(ostate := OColon, seen := CheckKey(nodes, f.node, f.seen, f.key).value));
      }
    } else if RestFillable(nodes, rank, f.node, f.seen) {
      forall i | 0 <= i < |props| && Unseen(props, f.seen, f.key + [c], i) ensures Unseen(props, f.seen, f.key, i) {}
    }
  }

  lemma ClosedKeyStuck(nodes: Arena, rank: seq<nat>, f: Frame, g: Frame)
    requires f.Obj? && f.ostate == OKey && Sound(nodes, f) && StuckObject(nodes, rank, f) && CheckKey(nodes, f.node, f.seen, f.key).Some?
    requires g == f.(ostate := OColon, seen := CheckKey(nodes, f.node, f.seen, f.key).value)
    ensures StuckObject(nodes, rank, g)
  {
    hide Fillable;
    if f.node != Free {
      var props := nodes[f.node].properties;
      var i := Find(props, f.key);
      hide Find;
      if i.Some? {
        assert ValueNode(nodes, f.node, f.key) == Some(props[i.value].1);
        assert Unseen(props, f.seen, f.key, i.value);
        if !RestFillable(nodes, rank, f.node, f.seen) {
          var r :| 0 <= r < |props| && r in nodes[f.node].required && r !in f.seen && !Fillable(nodes, rank, props[r].1);
          assert r == i.value || r !in g.seen;
        }
      }
    }
  }

  lemma ObjStuck(nodes: Arena, rank: seq<nat>, run: nat, f: Frame, c: char, now: nat)
    requires Linked(nodes, rank) && f.Obj? && Sound(nodes, f) && FrameOk(nodes, f) && StuckObject(nodes, rank, f)
    ensures StillStuck(nodes, rank, now, ObjMove(nodes, f, c))
  {
    if f.ostate == OKey {
      KeyStuck(nodes, rank, run, f, c, now);
    } else if CanClose(nodes, f.node, f.seen) {
      ClosesFilled(nodes, rank, f.node, f.seen);
    }
    hide Fillable, Linked, RestFillable, CanClose, KeyMove, KeyPossible, Opens, ValueNode;
  }

  lemma ClosesFilled(nodes: Arena, rank: seq<nat>, node: nat, seen: seq<nat>)
    requires CanClose(nodes, node, seen)
    ensures RestFillable(nodes, rank, node, seen)
  {
    hide Fillable;
  }

  lemma FrameStuck(nodes: Arena, rank: seq<nat>, run: nat, f: Frame, c: char, now: nat)
    requires Linked(nodes, rank) && Sound(nodes, f) && FrameOk(nodes, f) && !Waiting(f) && Stuck(nodes, rank, run, f) && Counts(run, c, now)
    ensures StillStuck(nodes, rank, now, MoveOf(nodes, f, c))
  {
    hide Fillable, Linked, StartMove, ObjMove, WordMove, StuckObject;
    match f
    case Value(id) => ValueStuck(nodes, rank, run, id, c, now);
    case Word(alts, at) => WordStuck(nodes, rank, run, alts, at, c, now);
    case Obj(_, _, _, _, _) => ObjStuck(nodes, rank, run, f, c, now);
    case Arr(_, _) =>
    case _ => CappedMove(nodes, f, c);
  }

  /** A container below stays as stuck as it is, also once the value above it is over. */
  lemma WaitingStuck(nodes: Arena, rank: seq<nat>, run: nat, f: Frame, now: nat)
    requires Waiting(f) && Stuck(nodes, rank, run, f)
    ensures Stuck(nodes, rank, now, f) && f.Obj? && Stuck(nodes, rank, now, f.(ostate := ONext))
  {
    hide Fillable, RestFillable;
  }

  lemma StuckAt(nodes: Arena, rank: seq<nat>, m: Machine, i: nat)
    requires i < |m.stack| && Stuck(nodes, rank, m.wsRun, m.stack[i])
    ensures Stranded(nodes, rank, m)
  {}

  lemma CountIs(m: Machine, c: char, x: Machine)
    requires Count(m, c) == Some(x) && !InStringBody(m)
    ensures Counts(m.wsRun, c, x.wsRun)
  {}

  /** In a string or a key the count does not matter. */
  lemma RunFree(nodes: Arena, rank: seq<nat>, run: nat, now: nat, f: Frame)
    requires !f.Word?
    ensures Stuck(nodes, rank, run, f) == Stuck(nodes, rank, now, f)
  {}

  lemma TopStuck(nodes: Arena, rank: seq<nat>, m: Machine, c: char)
    requires Linked(nodes, rank) && FramesOk(nodes, m) && m.stack != [] && Stuck(nodes, rank, m.wsRun, Top(m)) && !Once(nodes, m, c).Dead?
    ensures Stranded(nodes, rank, Once(nodes, m, c).m)
  {
    var x, f := Count(m, c).value, Top(m);
    assert Sound(nodes, f) && FrameOk(nodes, f) && !Waiting(f) && Top(x) == f && !x.done;
    hide Fillable, Linked, FramesOk, MoveOf, Stuck, Sound, FrameOk;
    if InStringBody(m) {
      RunFree(nodes, rank, m.wsRun, if IsWs(c) then 0 else x.wsRun, f);
      StringStuck(nodes, rank, m.wsRun, f, c, x.wsRun);
    } else {
      CountIs(m, c, x);
      FrameStuck(nodes, rank, m.wsRun, f, c, x.wsRun);
    }
    hide Stranded;
    StillStranded(nodes, rank, x, MoveOf(nodes, f, c));
  }

  lemma StringStuck(nodes: Arena, rank: seq<nat>, run: nat, f: Frame, c: char, now: nat)
    requires Linked(nodes, rank) && Sound(nodes, f) && FrameOk(nodes, f) && Stuck(nodes, rank, run, f) && (f.Str? || (f.Obj? && f.ostate == OKey))
    ensures StillStuck(nodes, rank, now, MoveOf(nodes, f, c))
  {
    hide Fillable, Linked, KeyMove, StuckObject;
    if f.Str? {
      CappedMove(nodes, f, c);
    } else {
      KeyStuck(nodes, rank, run, f, c, now);
    }
  }

  lemma StillStranded(nodes: Arena, rank: seq<nat>, x: Machine, move: Move)
    requires x.stack != [] && StillStuck(nodes, rank, x.wsRun, move) && !Apply(x, move).Dead?
    ensures Stranded(nodes, rank, Apply(x, move).m)
  {
    hide Stuck, Stranded;
    var y := Apply(x, move).m;
    match move
    case Stay(g) => StuckAt(nodes, rank, y, |y.stack| - 1);
    case Open(g, h) => StuckAt(nodes, rank, y, if Stuck(nodes, rank, x.wsRun, g) then |y.stack| - 2 else |y.stack| - 1);
    case OpenThen(g, h) => StuckAt(nodes, rank, y, if Stuck(nodes, rank, x.wsRun, g) then |y.stack| - 2 else |y.stack| - 1);
    case _ =>
  }

  /** What is below the top stays, but that the container just below may go on. */
  lemma BelowStays(x: Machine, move: Move, i: nat)
    requires i + 1 < |x.stack| && x.stack[i].Obj? && !Apply(x, move).Dead?
    ensures var y := Apply(x, move).m;
      i < |y.stack| && (y.stack[i] == x.stack[i] || y.stack[i] == x.stack[i].(ostate := ONext)) && y.wsRun == x.wsRun
  {}

  lemma PassIs(nodes: Arena, m: Machine, c: char)
    requires Sane(nodes, m) && m.stack != [] && !Once(nodes, m, c).Dead?
    ensures Count(m, c).Some? && Count(m, c).value.stack == m.stack && Once(nodes, m, c) == Apply(Count(m, c).value, MoveOf(nodes, Top(m), c))
  {
    hide MoveOf;
  }

  lemma StuckObj(nodes: Arena, rank: seq<nat>, m: Machine, i: nat)
    requires Sane(nodes, m) && i + 1 < |m.stack| && Stuck(nodes, rank, m.wsRun, m.stack[i])
    ensures Waiting(m.stack[i]) && m.stack[i].Obj?
  {
    assert Waiting(m.stack[i]);
  }

  lemma BelowStuck(nodes: Arena, rank: seq<nat>, m: Machine, c: char, i: nat)
    requires Sane(nodes, m) && i + 1 < |m.stack| && Stuck(nodes, rank, m.wsRun, m.stack[i]) && !Once(nodes, m, c).Dead?
    ensures Stranded(nodes, rank, Once(nodes, m, c).m)
  {
    hide *;
    var y := Once(nodes, m, c).m;
    PassIs(nodes, m, c);
    StuckObj(nodes, rank, m, i);
    BelowStays(Count(m, c).value, MoveOf(nodes, Top(m), c), i);
    WaitingStuck(nodes, rank, m.wsRun, m.stack[i], y.wsRun);
    StuckAt(nodes, rank, y, i);
  }

  lemma OnceStranded(nodes: Arena, rank: seq<nat>, m: Machine, c: char)
    requires Linked(nodes, rank) && FramesOk(nodes, m) && Stranded(nodes, rank, m) && !Once(nodes, m, c).Dead?
    ensures Stranded(nodes, rank, Once(nodes, m, c).m)
  {
    var i :| 0 <= i < |m.stack| && Stuck(nodes, rank, m.wsRun, m.stack[i]);
    assert Sane(nodes, m);
    hide *;
    if i + 1 < |m.stack| {
      BelowStuck(nodes, rank, m, c, i);
    } else {
      LastIsTop(m, i);
      TopStuck(nodes, rank, m, c);
    }
  }

  lemma LastIsTop(m: Machine, i: nat)
    requires i < |m.stack| <= i + 1
    ensures m.stack != [] && Top(m) == m.stack[i]
  {}

  lemma CompleteFree(nodes: Arena, rank: seq<nat>, m: Machine)
    requires Sane(nodes, m) && Complete(m)
    ensures !Stranded(nodes, rank, m)
  {}

  /** From a stranded state nothing completes a document. */
  lemma {:induction false} StrandedForever(nodes: Arena, rank: seq<nat>, m: Machine, text: string)
    requires Linked(nodes, rank) && FramesOk(nodes, m) && Stranded(nodes, rank, m)
    ensures Push(nodes, m, text).Some? ==> !Complete(Push(nodes, m, text).value)
    decreases |text|
  {
    if text == "" {
      assert Sane(nodes, m);
      hide *;
      PushNothing(nodes, m);
      if Complete(m) {
        CompleteFree(nodes, rank, m);
      }
    } else if PushChar(nodes, m, text[0]).Some? {
      var x := PushChar(nodes, m, text[0]).value;
      hide Linked, FramesOk, Stranded, Once, Complete;
      CharStranded(nodes, rank, m, text[0]);
      hide PushChar;
      StrandedForever(nodes, rank, x, text[1..]);
    }
  }

  lemma CharStranded(nodes: Arena, rank: seq<nat>, m: Machine, c: char)
    requires Linked(nodes, rank) && FramesOk(nodes, m) && Stranded(nodes, rank, m) && PushChar(nodes, m, c).Some?
    ensures FramesOk(nodes, PushChar(nodes, m, c).value) && Stranded(nodes, rank, PushChar(nodes, m, c).value)
  {
    hide Linked, FramesOk, Stranded, Once;
    OnceFrames(nodes, rank, m, c);
    OnceStranded(nodes, rank, m, c);
    if Once(nodes, m, c).Again? {
      OnceFrames(nodes, rank, Once(nodes, m, c).m, c);
      OnceStranded(nodes, rank, Once(nodes, m, c).m, c);
    }
  }

  lemma CompleteViable(nodes: Arena, m: Machine)
    requires Complete(m)
    ensures Viable(nodes, m)
  {}

  /** Viability is exact: from a reachable state some text completes a document if and only if the state is viable and
      no cap has stranded it. */
  lemma ViabilityIsExact(nodes: Arena, rank: seq<nat>, text: string)
    requires WellFormed(nodes, rank) && Push(nodes, NewMachine(), text).Some?
    ensures var m := Push(nodes, NewMachine(), text).value;
      (exists rest :: Push(nodes, m, rest).Some? && Complete(Push(nodes, m, rest).value)) <==>
        Viable(nodes, m) && !Stranded(nodes, rank, m)
  {
    var m := Push(nodes, NewMachine(), text).value;
    NewMachineOpen(nodes, rank);
    PushOpen(nodes, rank, NewMachine(), text);
    IsLinked(nodes, rank);
    assert Sane(nodes, m) && FramesOk(nodes, m);
    hide WellFormed, Linked, Workable, FramesOk, Sane, Viable, Stranded, Complete, Push;
    if Viable(nodes, m) && !Stranded(nodes, rank, m) {
      ClosingTextCompletes(nodes, rank, m);
    }
    if rest :| Push(nodes, m, rest).Some? && Complete(Push(nodes, m, rest).value) {
      CompleteViable(nodes, Push(nodes, m, rest).value);
      if !Viable(nodes, m) {
        DoomPersistsAll(nodes, m, rest);
      }
      if Stranded(nodes, rank, m) {
        StrandedForever(nodes, rank, m, rest);
      }
    }
  }

  // ------------------------------------------------------ states the caps strand

  function DigitsSoFar(n: nat): Frame {
    Num(false, true, false, false, false, false, n)
  }

  lemma DigitRead(nodes: Arena, n: nat)
    requires n < MaxNumberChars
    ensures PushChar(nodes, At([DigitsSoFar(n)]), '1') == Some(At([DigitsSoFar(n + 1)]))
  {
    var m := At([DigitsSoFar(n)]);
    assert m.stack == [] + [DigitsSoFar(n)] && [] + [DigitsSoFar(n + 1)] == [DigitsSoFar(n + 1)];
    StepStay(nodes, m, [], DigitsSoFar(n), '1', DigitsSoFar(n + 1));
  }

  lemma RepeatIs(c: char, n: nat)
    ensures n == 0 ==> Repeat(c, n) == ""
    ensures n > 0 ==> Repeat(c, n) == [c] + Repeat(c, n - 1)
  {}

  lemma {:induction false} DigitsRead(nodes: Arena, n: nat, more: nat)
    requires n + more <= MaxNumberChars
    ensures Push(nodes, At([DigitsSoFar(n)]), Repeat('1', more)) == Some(At([DigitsSoFar(n + more)]))
    decreases more
  {
    hide *;
    RepeatIs('1', more);
    if more == 0 {
      PushNothing(nodes, At([DigitsSoFar(n)]));
    } else {
      DigitRead(nodes, n);
      PushCons(nodes, At([DigitsSoFar(n)]), '1', At([DigitsSoFar(n + 1)]), Repeat('1', more - 1));
      DigitsRead(nodes, n + 1, more - 1);
    }
  }

  lemma LetterRead(nodes: Arena, n: nat)
    requires n < MaxStringChars
    ensures PushChar(nodes, At([Str(0, n)]), 'a') == Some(At([Str(0, n + 1)]))
  {
    var m := At([Str(0, n)]);
    assert m.stack == [] + [Str(0, n)] && [] + [Str(0, n + 1)] == [Str(0, n + 1)];
    StepStay(nodes, m, [], Str(0, n), 'a', Str(0, n + 1));
  }

  lemma {:induction false} LettersRead(nodes: Arena, n: nat, more: nat)
    requires n + more <= MaxStringChars
    ensures Push(nodes, At([Str(0, n)]), Repeat('a', more)) == Some(At([Str(0, n + more)]))
    decreases more
  {
    hide *;
    RepeatIs('a', more);
    if more == 0 {
      PushNothing(nodes, At([Str(0, n)]));
    } else {
      LetterRead(nodes, n);
      PushCons(nodes, At([Str(0, n)]), 'a', At([Str(0, n + 1)]), Repeat('a', more - 1));
      LettersRead(nodes, n + 1, more - 1);
    }
  }

  /** Accepted and viable, yet nothing completes it. */
  ghost predicate DeadEnd(nodes: Arena, text: string) {
    Push(nodes, NewMachine(), text).Some?
    && var m := Push(nodes, NewMachine(), text).value;
    Viable(nodes, m) && forall rest :: Push(nodes, m, rest).Some? ==> !Complete(Push(nodes, m, rest).value)
  }

  lemma CappedIsDeadEnd(nodes: Arena, text: string, f: Frame)
    requires nodes == [Any] && Push(nodes, NewMachine(), text) == Some(At([f])) && Capped(f)
    ensures DeadEnd(nodes, text)
  {
    var m := At([f]);
    assert Viable(nodes, m);
    assert Linked(nodes, [0]);
    StuckAt(nodes, [0], m, 0);
    hide Push, Viable, Linked, Stranded;
    PushFrames(nodes, [0], NewMachine(), text);
    hide FramesOk;
    forall rest | Push(nodes, m, rest).Some? ensures !Complete(Push(nodes, m, rest).value) {
      StrandedForever(nodes, [0], m, rest);
    }
  }

  /** Thirty-one digits and an `e`: the number is at its cap and wants a digit. */
  lemma NumberCapStrands()
    ensures DeadEnd([Any], "1" + Repeat('1', 30) + "e")
  {
    assert MaxNumberChars == 32;
    hide *;
    var nodes, m := [Any], NewMachine();
    DigitBegins(nodes, m);
    DigitsRead(nodes, 1, 30);
    ExponentBegins(nodes);
    PushThen(nodes, m, "1", At([DigitsSoFar(1)]), Repeat('1', 30));
    PushThen(nodes, m, "1" + Repeat('1', 30), At([DigitsSoFar(31)]), "e");
    CappedIsDeadEnd(nodes, "1" + Repeat('1', 30) + "e", Num(false, true, false, true, false, false, 32));
  }

  lemma DigitBegins(nodes: Arena, m: Machine)
    requires nodes == [Any] && m == NewMachine()
    ensures Push(nodes, m, "1") == Some(At([DigitsSoFar(1)]))
  {
    assert m.stack == [] + [Value(0)] && [] + [DigitsSoFar(1)] == [DigitsSoFar(1)];
    StepStay(nodes, m, [], Value(0), '1', DigitsSoFar(1));
    PushOne(nodes, m, '1');
  }

  lemma ExponentBegins(nodes: Arena)
    ensures var f := Num(false, true, false, true, false, false, 32);
      Push(nodes, At([DigitsSoFar(31)]), "e") == Some(At([f])) && Capped(f)
  {
    var y, f := At([DigitsSoFar(31)]), Num(false, true, false, true, false, false, 32);
    assert y.stack == [] + [DigitsSoFar(31)] && [] + [f] == [f];
    StepStay(nodes, y, [], DigitsSoFar(31), 'e', f);
    PushOne(nodes, y, 'e');
  }

  /** A string whose `\u` comes two characters before the cap. */
  lemma StringCapStrands()
    ensures DeadEnd([Any], "\"" + Repeat('a', 8190) + "\\u")
  {
    var nodes, m := [Any], NewMachine();
    var x, y := At([Str(0, 0)]), At([Str(0, 8190)]);
    assert m.stack == [] + [Value(0)] && [] + [Str(0, 0)] == [Str(0, 0)];
    StepStay(nodes, m, [], Value(0), '"', Str(0, 0));
    PushOne(nodes, m, '"');
    LettersRead(nodes, 0, 8190);
    EscapeBegun(nodes);
    hide Push, PushChar, Repeat;
    PushThen(nodes, m, "\"", x, Repeat('a', 8190));
    PushThen(nodes, m, "\"" + Repeat('a', 8190), y, "\\u");
    CappedIsDeadEnd(nodes, "\"" + Repeat('a', 8190) + "\\u", Str(4, 8192));
  }

  lemma {:induction false} SpacesTooMany(run: nat, n: nat)
    requires run <= MaxWsRun < run + n
    ensures !Spaced(run, Repeat(' ', n) + "\"")
    decreases n
  {
    var s := Repeat(' ', n) + "\"";
    assert s[0] == ' ' && s[1..] == Repeat(' ', n - 1) + "\"";
    if run < MaxWsRun {
      SpacesTooMany(run + 1, n - 1);
    }
  }

  /** A value with a run of seventeen spaces, and no other to choose: nothing but the machine's own count is in the way. */
  lemma SpacesStrand()
    ensures DeadEnd([Choice(["\"" + Repeat(' ', 17) + "\""]), Any], "")
  {
    var o := "\"" + Repeat(' ', 17) + "\"";
    SpacesTooMany(0, 17);
    assert o[1..] == Repeat(' ', 17) + "\"";
    assert !Writable(o);
    hide *;
    UnwritableStrands([Choice([o]), Any], o);
  }

  lemma NothingPicked(o: string)
    requires !Writable(o)
    ensures Picked([o]) == []
  {
    hide Writable;
    assert forall x :: x in Picked([o]) ==> x in [o] && Writable(x);
  }

  lemma UnwritableStrands(nodes: Arena, o: string)
    requires nodes == [Choice([o]), Any] && !Writable(o)
    ensures DeadEnd(nodes, "")
  {
    var m := NewMachine();
    NothingPicked(o);
    LinkedTwo(nodes, o);
    FillableIs(nodes, [0, 0], 0);
    StuckAt(nodes, [0, 0], m, 0);
    assert Viable(nodes, m);
    NewMachineSane(nodes);
    assert FramesOk(nodes, m);
    PushNothing(nodes, m);
    hide Push, Viable, Linked, Stranded, FramesOk, Writable, Picked;
    forall rest | Push(nodes, m, rest).Some? ensures !Complete(Push(nodes, m, rest).value) {
      StrandedForever(nodes, [0, 0], m, rest);
    }
  }

  lemma LinkedTwo(nodes: Arena, o: string)
    requires nodes == [Choice([o]), Any]
    ensures Linked(nodes, [0, 0])
  {
    assert nodes[1].Any?;
  }

  lemma EscapeBegun(nodes: Arena)
    ensures Push(nodes, At([Str(0, 8190)]), "\\u") == Some(At([Str(4, 8192)]))
  {
    var m, x := At([Str(0, 8190)]), At([Str(5, 8191)]);
    assert m.stack == [] + [Str(0, 8190)] && x.stack == [] + [Str(5, 8191)] && [] + [Str(4, 8192)] == [Str(4, 8192)];
    StepStay(nodes, m, [], Str(0, 8190), '\\', Str(5, 8191));
    StepStay(nodes, x, [], Str(5, 8191), 'u', Str(4, 8192));
    assert "\\u" == ['\\'] + "u";
    hide Push, PushChar;
    PushCons(nodes, m, '\\', x, "u");
    PushOne(nodes, x, 'u');
  }
}
