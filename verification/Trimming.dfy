/** Exactly which texts the machine accepts. An enumerated value behind another is never read, so the arena without those
    values behaves alike; on it no option ends inside another, and the machine reads the grammar. */
module Trimming {
  import opened Prelude
  import opened Machines
  import opened Grammar
  import opened Closing
  import opened Accepting

  // ----------------------------------------------------------- fewer alternatives

  /** `few` are some of `all`, and each of `all` begins with one of them. */
  ghost predicate Covers(all: seq<string>, few: seq<string>) {
    (forall p :: p in few ==> p in all) && (forall a :: a in all && a != "" ==> Covered(few, a))
  }

  ghost predicate Covered(few: seq<string>, a: string) {
    exists p :: p in few && p != "" && p <= a
  }

  lemma FilterHas(alts: seq<string>, at: nat, c: char, a: string)
    requires a in alts && at < |a| && a[at] == c
    ensures a in Filter(alts, at, c)
  {
    hide Filter;
  }

  lemma CoverFilter(all: seq<string>, few: seq<string>, at: nat, c: char, a: string)
    requires Covered(few, a) && (forall b :: b in few && b != "" ==> at < |b|) && at < |a| && a[at] == c
    ensures Covered(Filter(few, at, c), a)
  {
    var p :| p in few && p != "" && p <= a;
    hide *;
    FilterHas(few, at, c, p);
    IsCovered(Filter(few, at, c), p, a);
  }

  lemma IsCovered(few: seq<string>, p: string, a: string)
    requires p in few && p != "" && p <= a
    ensures Covered(few, a)
  {}

  lemma CoversParts(all: seq<string>, few: seq<string>)
    ensures Covers(all, few) <==> (forall p :: p in few ==> p in all) && forall a :: a in all && a != "" ==> Covered(few, a)
  {
    hide Covered;
  }

  lemma CoversFilter(all: seq<string>, few: seq<string>, at: nat, c: char)
    requires Covers(all, few) && forall b :: b in all && b != "" ==> at < |b|
    ensures Covers(Filter(all, at, c), Filter(few, at, c))
    ensures Filter(all, at, c) == [] <==> Filter(few, at, c) == []
  {
    hide *;
    CoversParts(all, few);
    var more, rest := Filter(all, at, c), Filter(few, at, c);
    forall a | a in more ensures Covered(rest, a) {
      FilterIs(all, at, c, a);
      assert a != "";
      CoverFilter(all, few, at, c, a);
    }
    forall p | p in rest ensures p in more {
      FilterIs(few, at, c, p);
      FilterHas(all, at, c, p);
    }
    CoversParts(more, rest);
    if more != [] {
      NonEmptyCover(rest, more[0]);
    }
    if rest != [] {
      assert rest[0] in rest;
    }
  }

  lemma NonEmptyCover(few: seq<string>, a: string)
    requires Covered(few, a)
    ensures few != []
  {}

  lemma SettleEnds(alts: seq<string>, at: nat)
    ensures Settle(alts, at).Close? <==> exists a :: a in alts && |a| == at
  {}

  lemma CoverOf(few: seq<string>, a: string) returns (p: string)
    requires Covered(few, a)
    ensures p in few && p != "" && p <= a
  {
    p :| p in few && p != "" && p <= a;
  }

  /** The shortest of them end where the alternatives do. */
  lemma CoversEnds(all: seq<string>, few: seq<string>, at: nat)
    requires Covers(all, few) && at > 0 && forall b :: b in all ==> at <= |b|
    ensures Settle(all, at).Close? <==> Settle(few, at).Close?
  {
    hide *;
    CoversParts(all, few);
    SettleEnds(all, at);
    SettleEnds(few, at);
    if a :| a in all && |a| == at {
      var p := CoverOf(few, a);
      assert p in all;
    }
  }

  // ------------------------------------------------------------- states alike

  /** The same frame, but that a word may have fewer alternatives. */
  ghost predicate Like(f: Frame, g: Frame) {
    if f.Word? then g.Word? && g.at == f.at && Covers(f.alts, g.alts) else f == g
  }

  ghost predicate Alike(m: Machine, x: Machine) {
    |m.stack| == |x.stack| && m.done == x.done && m.started == x.started && m.wsRun == x.wsRun
    && forall i :: 0 <= i < |m.stack| ==> Like(m.stack[i], x.stack[i])
  }

  ghost predicate LikeNode(n: Node, k: Node) {
    if n.Choice? then k.Choice? && Covers(n.options, k.options) else n == k
  }

  ghost predicate LikeArena(nodes: Arena, few: Arena) {
    |nodes| == |few| && forall i: nat :: i < |nodes| ==> LikeNode(nodes[i], few[i])
  }

  ghost predicate LikeMove(a: Move, b: Move) {
    match a
    case Stop => b == Stop
    case Stay(f) => b.Stay? && Like(f, b.top)
    case Close => b == Close
    case CloseThen => b == CloseThen
    case Open(f, g) => b.Open? && Like(f, b.top) && Like(g, b.inner)
    case OpenThen(f, g) => b.OpenThen? && Like(f, b.top) && Like(g, b.inner)
  }

  lemma {:induction false} LikeAny(nodes: Arena, few: Arena)
    requires LikeArena(nodes, few)
    ensures FirstAny(nodes) == FirstAny(few)
    decreases |nodes|
  {
    if nodes != [] {
      assert LikeNode(nodes[0], few[0]);
      forall i: nat | i < |nodes[1..]| ensures LikeNode(nodes[1..][i], few[1..][i]) {
        assert LikeNode(nodes[i + 1], few[i + 1]);
      }
      hide LikeNode;
      LikeAny(nodes[1..], few[1..]);
      OnlyLikeAny(nodes[0], few[0]);
    }
  }

  lemma OnlyLikeAny(n: Node, k: Node)
    requires LikeNode(n, k)
    ensures n.Any? <==> k.Any?
  {}

  lemma LikeObject(nodes: Arena, few: Arena, node: nat)
    requires LikeArena(nodes, few)
    ensures node < |nodes| && (nodes[node].Object? || few[node].Object?) ==> nodes[node] == few[node]
  {
    assert node < |nodes| ==> LikeNode(nodes[node], few[node]);
  }

  lemma LikeKeys(nodes: Arena, few: Arena, node: nat, seen: seq<nat>, key: string)
    requires LikeArena(nodes, few)
    ensures KeysFree(nodes, node) == KeysFree(few, node)
    ensures KeyPossible(nodes, node, seen, key) == KeyPossible(few, node, seen, key)
    ensures CheckKey(nodes, node, seen, key) == CheckKey(few, node, seen, key)
    ensures ValueNode(nodes, node, key) == ValueNode(few, node, key)
    ensures CanClose(nodes, node, seen) == CanClose(few, node, seen)
  {
    LikeObject(nodes, few, node);
    LikeAny(nodes, few);
    hide LikeArena, FirstAny, Find;
  }

  lemma LikeStart(nodes: Arena, few: Arena, id: nat, c: char)
    requires LikeArena(nodes, few)
    ensures LikeMove(StartMove(nodes, id, c), StartMove(few, id, c))
  {
    if id < |nodes| && !IsWs(c) {
      assert LikeNode(nodes[id], few[id]);
      if nodes[id].Choice? {
        LikeChoice(nodes[id].options, few[id].options, c);
      } else {
        assert StartMove(nodes, id, c) == StartMove(few, id, c);
        LikeItself(StartMove(nodes, id, c));
      }
    }
  }

  lemma CoversItself(alts: seq<string>)
    ensures Covers(alts, alts)
  {
    forall a | a in alts && a != "" ensures Covered(alts, a) {
      assert a <= a;
    }
  }

  lemma LikeFrame(f: Frame)
    ensures Like(f, f)
  {
    if f.Word? {
      CoversItself(f.alts);
    }
  }

  lemma LikeItself(a: Move)
    ensures LikeMove(a, a)
  {
    hide Like;
    if a.Stay? || a.Open? || a.OpenThen? {
      LikeFrame(a.top);
    }
    if a.Open? || a.OpenThen? {
      LikeFrame(a.inner);
    }
  }

  lemma LikeChoice(all: seq<string>, few: seq<string>, c: char)
    requires Covers(all, few)
    ensures LikeMove(StartAlts(all, c), StartAlts(few, c))
  {
    CoversFilter(all, few, 0, c);
    var more := Filter(all, 0, c);
    assert forall b :: b in more ==> 1 <= |b|;
    hide Filter, Covers;
    if more != [] {
      CoversEnds(more, Filter(few, 0, c), 1);
      LikeSettled(more, Filter(few, 0, c), 1);
    }
  }

  lemma LikeSettled(all: seq<string>, few: seq<string>, at: nat)
    requires Covers(all, few) && (Settle(all, at).Close? <==> Settle(few, at).Close?)
    ensures LikeMove(Settle(all, at), Settle(few, at))
  {
    hide Covers;
  }

  lemma LikeWord(all: seq<string>, few: seq<string>, at: nat, c: char)
    requires Covers(all, few) && at > 0 && forall a :: a in all ==> at < |a|
    ensures LikeMove(WordMove(all, at, c), WordMove(few, at, c))
  {
    CoversFilter(all, few, at, c);
    var more := Filter(all, at, c);
    assert forall b :: b in more ==> at + 1 <= |b|;
    hide Filter, Covers;
    if more != [] {
      CoversEnds(more, Filter(few, at, c), at + 1);
      LikeSettled(more, Filter(few, at, c), at + 1);
    }
  }

  lemma LikeObj(nodes: Arena, few: Arena, f: Frame, c: char)
    requires LikeArena(nodes, few) && f.Obj?
    ensures ObjMove(nodes, f, c) == ObjMove(few, f, c)
  {
    LikeKeys(nodes, few, f.node, f.seen, f.key);
    LikeKeys(nodes, few, f.node, f.seen, f.key + [c]);
    hide LikeArena, CheckKey, KeyPossible, KeysFree, ValueNode, CanClose;
  }

  lemma LikeArr(nodes: Arena, few: Arena, f: Frame, c: char)
    requires LikeArena(nodes, few) && f.Arr?
    ensures ArrMove(nodes, f, c) == ArrMove(few, f, c)
  {
    LikeAny(nodes, few);
    hide LikeArena, FirstAny;
  }

  lemma LikeMoves(nodes: Arena, few: Arena, f: Frame, g: Frame, c: char)
    requires LikeArena(nodes, few) && Like(f, g) && Sound(nodes, f)
    ensures LikeMove(MoveOf(nodes, f, c), MoveOf(few, g, c))
  {
    hide LikeArena, LikeMove, StartMove, ObjMove, ArrMove, StrMove, NumMove, WordMove, Covers;
    match f
    case Value(id) => LikeStart(nodes, few, id, c);
    case Word(alts, at) => LikeWord(alts, g.alts, at, c);
    case Obj(_, _, _, _, _) =>
      LikeObj(nodes, few, f, c);
      LikeItself(ObjMove(nodes, f, c));
    case Arr(_, _) =>
      LikeArr(nodes, few, f, c);
      LikeItself(ArrMove(nodes, f, c));
    case Str(escape, len) => LikeItself(StrMove(escape, len, c));
    case Num(_, _, _, _, _, _, _) => LikeItself(NumMove(f, c));
  }

  // ----------------------------------------------------------- the machine alike

  ghost predicate LikeOut(a: Out, b: Out) {
    match a
    case Dead => b == Dead
    case Alive(m) => b.Alive? && Alike(m, b.m)
    case Again(m) => b.Again? && Alike(m, b.m)
  }

  lemma LikeFinish(m: Machine, x: Machine)
    requires Alike(m, x) && m.stack != []
    ensures FinishValue(m).Some? <==> FinishValue(x).Some?
    ensures FinishValue(m).Some? ==> Alike(FinishValue(m).value, FinishValue(x).value)
  {
    hide Covers;
  }

  lemma LikeApply(m: Machine, x: Machine, a: Move, b: Move)
    requires Alike(m, x) && m.stack != [] && LikeMove(a, b)
    ensures LikeOut(Apply(m, a), Apply(x, b))
  {
    if a.Close? || a.CloseThen? {
      LikeFinish(m, x);
    }
    hide Like, FinishValue;
  }

  lemma LikeCount(m: Machine, x: Machine, c: char)
    requires Alike(m, x)
    ensures Count(m, c).Some? <==> Count(x, c).Some?
    ensures Count(m, c).Some? ==> Alike(Count(m, c).value, Count(x, c).value) && Count(m, c).value.stack == m.stack && Count(m, c).value.done == m.done
  {
    assert m.stack != [] ==> Like(Top(m), Top(x));
    hide Covers;
  }

  lemma LikeOnce(nodes: Arena, few: Arena, m: Machine, x: Machine, c: char)
    requires LikeArena(nodes, few) && Alike(m, x) && Sane(nodes, m)
    ensures LikeOut(Once(nodes, m, c), Once(few, x, c))
  {
    LikeCount(m, x, c);
    if Count(m, c).Some? {
      var y, z := Count(m, c).value, Count(x, c).value;
      if !y.done && y.stack != [] {
        assert Sound(nodes, Top(y)) && Like(Top(y), Top(z));
        hide Like, Sound, Sane, LikeArena, LikeMove, MoveOf, Apply, LikeOut;
        LikeMoves(nodes, few, Top(y), Top(z), c);
        LikeApply(y, z, MoveOf(nodes, Top(y), c), MoveOf(few, Top(z), c));
      }
    }
  }

  lemma LikePushChar(nodes: Arena, few: Arena, m: Machine, x: Machine, c: char)
    requires LikeArena(nodes, few) && Alike(m, x) && Sane(nodes, m)
    ensures PushChar(nodes, m, c).Some? <==> PushChar(few, x, c).Some?
    ensures PushChar(nodes, m, c).Some? ==> Alike(PushChar(nodes, m, c).value, PushChar(few, x, c).value)
  {
    LikeOnce(nodes, few, m, x, c);
    OnceSane(nodes, m, c);
    var out := Once(nodes, m, c);
    hide Sane, Alike, LikeArena, Once;
    if out.Again? {
      LikeOnce(nodes, few, out.m, Once(few, x, c).m, c);
    }
  }

  lemma LikePermits(m: Machine, x: Machine, c: char)
    requires Alike(m, x)
    ensures Permits(m, c) <==> Permits(x, c)
  {
    assert m.stack != [] ==> Like(Top(m), Top(x));
    hide Covers;
  }

  lemma LikeComplete(m: Machine, x: Machine)
    requires Alike(m, x)
    ensures Complete(m) <==> Complete(x)
  {
    assert m.stack != [] ==> Like(m.stack[0], x.stack[0]);
    hide Covers;
  }

  /** The machine cannot tell the two arenas apart. */
  lemma {:induction false} LikePush(nodes: Arena, few: Arena, m: Machine, x: Machine, text: string)
    requires LikeArena(nodes, few) && Alike(m, x) && Sane(nodes, m)
    ensures Push(nodes, m, text).Some? <==> Push(few, x, text).Some?
    ensures Push(nodes, m, text).Some? ==> (Complete(Push(nodes, m, text).value) <==> Complete(Push(few, x, text).value))
    ensures Permitted(nodes, m, text) <==> Permitted(few, x, text)
    decreases |text|
  {
    hide LikeArena, Alike, Sane, PushChar, Complete, Permits;
    if text == "" {
      LikeComplete(m, x);
    } else {
      LikePermits(m, x, text[0]);
      LikePushChar(nodes, few, m, x, text[0]);
      PushCharSane(nodes, m, text[0]);
      if PushChar(nodes, m, text[0]).Some? {
        LikePush(nodes, few, PushChar(nodes, m, text[0]).value, PushChar(few, x, text[0]).value, text[1..]);
      }
    }
  }

  // --------------------------------------------------------------- the trimmed arena

  /** The options no other one is a proper prefix of. */
  ghost function Trim(options: seq<string>): (r: seq<string>)
    ensures forall p :: p in r <==> p in options && Unshadowed(options, p)
  {
    TrimFrom(options, options)
  }

  ghost function TrimFrom(options: seq<string>, from: seq<string>): (r: seq<string>)
    ensures forall p :: p in r <==> p in from && Unshadowed(options, p)
  {
    if from == [] then []
    else
      var rest := TrimFrom(options, from[1..]);
      if Unshadowed(options, from[0]) then [from[0]] + rest else rest
  }

  ghost function TrimNode(n: Node): Node {
    if n.Choice? then Choice(Trim(n.options)) else n
  }

  /** The arena without the enumerated values that are out of reach. */
  ghost function Trimmed(nodes: Arena): (r: Arena)
    ensures |r| == |nodes| && forall i :: 0 <= i < |r| ==> r[i] == TrimNode(nodes[i])
  {
    seq(|nodes|, (i: nat) requires i < |nodes| => TrimNode(nodes[i]))
  }

  /** Among the options that begin `o`, the shortest that is not empty. */
  lemma {:induction false} TrimCovers(options: seq<string>, o: string)
    requires o in options && o != ""
    ensures Covered(Trim(options), o)
    decreases |o|
  {
    hide Trim;
    if Unshadowed(options, o) {
      assert o <= o;
    } else {
      var a :| a in options && a != "" && a < o;
      TrimCovers(options, a);
      var p :| p in Trim(options) && p != "" && p <= a;
      assert p <= o;
    }
  }

  lemma TrimmedLike(nodes: Arena)
    ensures LikeArena(nodes, Trimmed(nodes))
  {
    hide Trim;
    forall i: nat | i < |nodes| ensures LikeNode(nodes[i], Trimmed(nodes)[i]) {
      if nodes[i].Choice? {
        forall o | o in nodes[i].options && o != "" ensures Covered(Trim(nodes[i].options), o) {
          TrimCovers(nodes[i].options, o);
        }
      }
    }
  }

  lemma TrimApart(options: seq<string>)
    ensures Apart(Trim(options), 0)
  {
    hide Trim;
    forall a, b | a in Trim(options) && b in Trim(options) && 0 < |a| && 0 < |b| ensures !(a[0..] < b[0..]) {
      assert a[0..] == a && b[0..] == b;
    }
  }

  lemma TrimmedSuits(nodes: Arena)
    requires Spelled(nodes) && Bracketless(nodes) && |nodes| <= Free
    ensures Suits(Trimmed(nodes))
  {
    var few := Trimmed(nodes);
    hide Trim, SpellOk, Apart;
    forall i: nat | i < |few| ensures SpellOk(few[i]) {
      assert SpellOk(nodes[i]);
      SpellTrimmed(nodes[i]);
    }
    forall i: nat | i < |few| && few[i].Choice? ensures Apart(few[i].options, 0) {
      TrimApart(nodes[i].options);
    }
    assert Bracketless(few);
  }

  lemma SpellTrimmed(n: Node)
    requires SpellOk(n)
    ensures SpellOk(TrimNode(n))
  {}

  lemma TrimmedLinked(nodes: Arena, rank: seq<nat>)
    requires Linked(nodes, rank)
    ensures Linked(Trimmed(nodes), rank)
  {
    var few := Trimmed(nodes);
    TrimmedLike(nodes);
    LikeAny(nodes, few);
    hide LikeArena, Trim, FirstAny;
    forall i: nat | i < |few| ensures RefsOk(few, rank, i) {
      assert RefsOk(nodes, rank, i);
    }
  }

  lemma NewAlike()
    ensures Alike(NewMachine(), NewMachine())
  {}

  /** What the machine accepts, exactly, on every well-formed arena none of whose options begins with a closing bracket:
      the documents without a value that is out of reach, as far as the caps let it read them. */
  lemma AcceptedIff(nodes: Arena, rank: seq<nat>, text: string)
    requires WellFormed(nodes, rank) && Bracketless(nodes)
    ensures Push(nodes, NewMachine(), text).Some? && Complete(Push(nodes, NewMachine(), text).value) <==>
      IsDocument(Trimmed(nodes), text) && Permitted(nodes, NewMachine(), text)
  {
    hide *;
    IsLinked(nodes, rank);
    LinkedBelow(nodes, rank);
    var few := Trimmed(nodes);
    TrimmedLike(nodes);
    TrimmedLinked(nodes, rank);
    TrimmedSuits(nodes);
    NewMachineSane(nodes);
    NewAlike();
    LikePush(nodes, few, NewMachine(), NewMachine(), text);
    ReadIff(few, rank, text);
  }

  lemma LinkedBelow(nodes: Arena, rank: seq<nat>)
    requires Linked(nodes, rank)
    ensures |nodes| <= Free
  {}
}
