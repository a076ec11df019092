/** The constrained-decoding machine of crates/vapi-engine/src/structured.rs: a stack of frames fed one character
    at a time.

    The program compares the first character of an enumerated value with a character, and every later byte of it with a
    character. The functions here compare characters throughout; the program's machine is theirs on the arena as it is
    read (`Readable`), which Validators proves. For values of ASCII the two arenas are one. */
module Machines {
  import opened Prelude
  import opened Encoding

  // ------------------------------------------------------------- the schema

  /** A compiled schema is a sequence of these; references are indices into it. */
  datatype Node =
    | Any
    | Object(properties: seq<(string, nat)>, required: seq<nat>, additional: bool)
    | Array(items: nat)
    | StringNode
    | Number(integer: bool)
    | Bool
    | Null
    | Choice(options: seq<string>)

  type Arena = seq<Node>

  /** The index standing for "no node": `u32::MAX`. */
  const Free: nat := 0xFFFF_FFFF

  // -------------------------------------------------- options as they are read

  /** Each byte as a character: `*b as char`. */
  function ByteChars(bytes: seq<byte>): (r: string)
    ensures |r| == |bytes| && forall i :: 0 <= i < |r| ==> r[i] == bytes[i] as char
  {
    seq(|bytes|, (i: nat) requires i < |bytes| => bytes[i] as char)
  }

  /** The text that reads an option: its first character, then its bytes from the second on. */
  function Reading(o: string): (r: string)
    ensures |r| == |EncodeText(o)|
  {
    if o == "" then "" else [o[0]] + ByteChars(EncodeText(o))[1..]
  }

  function Readings(options: seq<string>): (r: seq<string>)
    ensures |r| == |options| && forall i :: 0 <= i < |r| ==> r[i] == Reading(options[i])
  {
    seq(|options|, (i: nat) requires i < |options| => Reading(options[i]))
  }

  function ReadNode(n: Node): Node {
    if n.Choice? then Choice(Readings(n.options)) else n
  }

  /** The arena as the program reads it. */
  function Readable(nodes: Arena): (r: Arena)
    ensures |r| == |nodes| && forall i :: 0 <= i < |r| ==> r[i] == ReadNode(nodes[i])
  {
    seq(|nodes|, (i: nat) requires i < |nodes| => ReadNode(nodes[i]))
  }

  /** An option of ASCII is read as itself; any other takes more characters than it has. */
  lemma ReadingIs(o: string)
    ensures AllAscii(o) ==> Reading(o) == o
    ensures !AllAscii(o) ==> |Reading(o)| > |o|
  {
    EncodedLength(o);
    if AllAscii(o) && o != "" {
      AsciiEncoded(o);
      assert o == [o[0]] + o[1..];
      var r := Reading(o);
      forall i | 0 <= i < |o| ensures r[i] == o[i] {
        if i > 0 {
          assert ByteChars(EncodeText(o))[1..][i - 1] == ByteChars(EncodeText(o))[i];
        }
      }
    }
  }

  predicate AsciiOptions(nodes: Arena) {
    forall i :: 0 <= i < |nodes| && nodes[i].Choice? ==> forall o :: o in nodes[i].options ==> AllAscii(o)
  }

  lemma AsciiReadable(nodes: Arena)
    requires AsciiOptions(nodes)
    ensures Readable(nodes) == nodes
  {
    forall i: nat | i < |nodes| ensures ReadNode(nodes[i]) == nodes[i] {
      if nodes[i].Choice? {
        var options := nodes[i].options;
        forall k: nat | k < |options| ensures Readings(options)[k] == options[k] {
          assert options[k] in options;
          ReadingIs(options[k]);
        }
        assert Readings(options) == options;
      }
    }
  }

  // ------------------------------------------------------------- the frames

  datatype ObjState = OStart | OKey | OColon | OValue | ONext | OKeyExpected

  datatype ArrState = AStart | AValue | ANext | AValueExpected

  datatype Frame =
    | Value(id: nat)
    | Str(escape: nat, len: nat)
    | Num(integer: bool, seenDigit: bool, seenDot: bool, seenExp: bool, expDigit: bool, afterSign: bool, chars: nat)
    | Word(alts: seq<string>, at: nat)
    | Obj(node: nat, ostate: ObjState, seen: seq<nat>, key: string, keyEscape: nat)
    | Arr(items: nat, astate: ArrState)

  datatype Machine = Machine(stack: seq<Frame>, done: bool, started: bool, wsRun: nat)

  const MaxWsRun: nat := 16
  const MaxNumberChars: nat := 32
  const MaxStringChars: nat := 8192

  function NewMachine(): Machine {
    Machine([Value(0)], false, false, 0)
  }

  predicate IsWs(c: char) { c == ' ' || c == '\t' || c == '\n' || c == '\r' }

  predicate IsDigit(c: char) { '0' <= c <= '9' }

  predicate IsHex(c: char) { IsDigit(c) || 'a' <= c <= 'f' || 'A' <= c <= 'F' }

  /** The characters that may follow a backslash. */
  predicate IsEscape(c: char) {
    c == '"' || c == '\\' || c == '/' || c == 'b' || c == 'f' || c == 'n' || c == 'r' || c == 't' || c == 'u'
  }

  predicate IsControl(c: char) { c < ' ' }

  // -------------------------------------------------- what one frame decides

  /** What the top frame makes of a character: refuse it, go on as another frame, finish the value, or open a
      value on top of itself. `Then` marks the moves that feed the character once more to what is then on top. */
  datatype Move =
    | Stop
    | Stay(top: Frame)
    | Close
    | CloseThen
    | Open(top: Frame, inner: Frame)
    | OpenThen(top: Frame, inner: Frame)

  function Filter(options: seq<string>, at: nat, c: char): (r: seq<string>)
    ensures forall o :: o in r <==> o in options && at < |o| && o[at] == c
  {
    if options == [] then []
    else
      var rest := Filter(options[1..], at, c);
      if at < |options[0]| && options[0][at] == c then [options[0]] + rest else rest
  }

  /** `settle_word`: a word that has matched a whole option is a finished value. */
  function Settle(alts: seq<string>, at: nat): Move {
    if exists a :: a in alts && |a| == at then Close else Stay(Word(alts, at))
  }

  function NewObj(node: nat): Frame {
    Obj(node, OStart, [], "", 0)
  }

  function NewNum(integer: bool, c: char): Frame {
    Num(integer, c != '-', false, false, false, c == '-', 1)
  }

  /** `start_value`. An index outside the arena is a panic in the program; it is a refusal here. */
  function StartMove(nodes: Arena, id: nat, c: char): Move {
    if IsWs(c) then Stay(Value(id))
    else if id >= |nodes| then Stop
    else
      var n := nodes[id];
      if n.Choice? then
        var alts := Filter(n.options, 0, c);
        if alts == [] then Stop else Settle(alts, 1)
      else if n.Object? then if c == '{' then Stay(NewObj(id)) else Stop
      else if n.Array? then if c == '[' then Stay(Arr(n.items, AStart)) else Stop
      else if (n.Any? || n.StringNode?) && c == '"' then Stay(Str(0, 0))
      else if n.Any? && c == '{' then Stay(NewObj(Free))
      else if n.Any? && c == '[' then Stay(Arr(Free, AStart))
      else if (n.Any? || n.Number?) && (c == '-' || IsDigit(c)) then Stay(NewNum(n.Number? && n.integer, c))
      else if (n.Any? || n.Bool?) && (c == 't' || c == 'f') then Stay(Word([if c == 't' then "true" else "false"], 1))
      else if (n.Any? || n.Null?) && c == 'n' then Stay(Word(["null"], 1))
      else Stop
  }

  /** How many more characters an escape takes after `c`; 5 just after the backslash. */
  function NextEscape(escape: nat, c: char): Option<nat> {
    if escape == 5 then if !IsEscape(c) then None else Some(if c == 'u' then 4 else 0)
    else if IsHex(c) && escape > 0 then Some(escape - 1) else None
  }

  function StrMove(escape: nat, len: nat, c: char): Move {
    if len >= MaxStringChars && c != '"' then Stop
    else if escape > 0 then
      match NextEscape(escape, c)
      case None => Stop
      case Some(e) => Stay(Str(e, len + 1))
    else if c == '"' then Close
    else if c == '\\' then Stay(Str(5, len + 1))
    else if IsControl(c) then Stop
    else Stay(Str(0, len + 1))
  }

  predicate NumComplete(f: Frame) {
    f.Num? && f.seenDigit && (!f.seenExp || f.expDigit)
  }

  /** Every character a number can contain. */
  predicate IsNumberChar(c: char) {
    IsDigit(c) || c == '.' || c == 'e' || c == 'E' || c == '+' || c == '-'
  }

  function NumMove(f: Frame, c: char): Move
    requires f.Num?
  {
    var g := f.(chars := f.chars + 1);
    if f.chars >= MaxNumberChars && IsNumberChar(c) then Stop
    else if IsDigit(c) then
      Stay(if f.seenExp then g.(expDigit := true, afterSign := false) else g.(seenDigit := true, afterSign := false))
    else if c == '.' && !f.integer && !f.seenDot && !f.seenExp && f.seenDigit then Stay(g.(seenDot := true, seenDigit := false))
    else if (c == 'e' || c == 'E') && !f.integer && !f.seenExp && f.seenDigit then Stay(g.(seenExp := true, afterSign := false))
    else if (c == '+' || c == '-') && f.seenExp && !f.expDigit && !f.afterSign then Stay(g.(afterSign := true))
    else if NumComplete(f) then CloseThen
    else Stop
  }

  function WordMove(alts: seq<string>, at: nat, c: char): Move {
    var rest := Filter(alts, at, c);
    if rest == [] then Stop else Settle(rest, at + 1)
  }

  // --------------------------------------------------------------- objects

  predicate KeysFree(nodes: Arena, node: nat) {
    node == Free || (node < |nodes| && nodes[node].Object? && nodes[node].additional)
  }

  predicate Unseen(props: seq<(string, nat)>, seen: seq<nat>, key: string, i: nat) {
    i < |props| && i !in seen && key <= props[i].0
  }

  predicate KeyPossible(nodes: Arena, node: nat, seen: seq<nat>, key: string) {
    KeysFree(nodes, node)
    || (node < |nodes| && nodes[node].Object?
        && exists i :: 0 <= i < |nodes[node].properties| && Unseen(nodes[node].properties, seen, key, i))
  }

  /** `position`: the first property of that name. */
  function Find(props: seq<(string, nat)>, key: string): (r: Option<nat>)
    ensures r.Some? ==> r.value < |props| && props[r.value].0 == key
    ensures r.None? ==> forall i :: 0 <= i < |props| ==> props[i].0 != key
  {
    if props == [] then None
    else if props[0].0 == key then Some(0)
    else match Find(props[1..], key)
      case None => None
      case Some(i) => Some(i + 1)
  }

  /** `check_key`: what has been seen once the key is closed, if it may be. */
  function CheckKey(nodes: Arena, node: nat, seen: seq<nat>, key: string): Option<seq<nat>> {
    if node == Free then Some(seen)
    else if node >= |nodes| || !nodes[node].Object? then None
    else match Find(nodes[node].properties, key)
      case Some(i) => if i in seen then None else Some(seen + [i])
      case None => if nodes[node].additional then Some(seen) else None
  }

  function FirstAny(nodes: Arena): (r: Option<nat>)
    ensures r.Some? ==> r.value < |nodes| && nodes[r.value].Any?
    ensures r.None? ==> forall i :: 0 <= i < |nodes| ==> !nodes[i].Any?
  {
    if nodes == [] then None
    else if nodes[0].Any? then Some(0)
    else match FirstAny(nodes[1..])
      case None => None
      case Some(i) => Some(i + 1)
  }

  function AnyNode(nodes: Arena): nat {
    match FirstAny(nodes)
    case None => Free
    case Some(i) => i
  }

  function ValueNode(nodes: Arena, node: nat, key: string): Option<nat> {
    if node == Free then Some(AnyNode(nodes))
    else if node >= |nodes| || !nodes[node].Object? then None
    else match Find(nodes[node].properties, key)
      case Some(i) => Some(nodes[node].properties[i].1)
      case None => if nodes[node].additional then Some(AnyNode(nodes)) else None
  }

  predicate CanClose(nodes: Arena, node: nat, seen: seq<nat>) {
    node < |nodes| && nodes[node].Object? && node != Free ==> forall r :: r in nodes[node].required ==> r in seen
  }

  function KeyMove(nodes: Arena, f: Frame, c: char): Move
    requires f.Obj?
  {
    if f.keyEscape > 0 then
      match NextEscape(f.keyEscape, c)
      case None => Stop
      case Some(e) => Stay(f.(keyEscape := e, key := f.key + [c]))
    else if c == '"' then
      match CheckKey(nodes, f.node, f.seen, f.key)
      case None => Stop
      case Some(seen) => Stay(f.(ostate := OColon, seen := seen))
    else if c == '\\' then if KeysFree(nodes, f.node) then Stay(f.(keyEscape := 5, key := f.key + [c])) else Stop
    else if IsControl(c) then Stop
    else if KeyPossible(nodes, f.node, f.seen, f.key + [c]) then Stay(f.(key := f.key + [c]))
    else Stop
  }

  function ObjMove(nodes: Arena, f: Frame, c: char): Move
    requires f.Obj?
  {
    match f.ostate
    case OStart =>
      if IsWs(c) then Stay(f)
      else if c == '}' then if CanClose(nodes, f.node, f.seen) then Close else Stop
      else if c == '"' then Stay(f.(ostate := OKey, key := "", keyEscape := 0))
      else Stop
    case OKeyExpected =>
      if IsWs(c) then Stay(f)
      else if c == '"' then Stay(f.(ostate := OKey, key := "", keyEscape := 0))
      else Stop
    case OKey => KeyMove(nodes, f, c)
    case OColon =>
      if IsWs(c) then Stay(f)
      else if c != ':' then Stop
      else
        (match ValueNode(nodes, f.node, f.key)
         case None => Stop
         case Some(n) => Open(f.(ostate := OValue), Value(n)))
    case OValue => Stop
    case ONext =>
      if IsWs(c) then Stay(f)
      else if c == ',' then Stay(f.(ostate := OKeyExpected))
      else if c == '}' then if CanClose(nodes, f.node, f.seen) then Close else Stop
      else Stop
  }

  function ArrMove(nodes: Arena, f: Frame, c: char): Move
    requires f.Arr?
  {
    match f.astate
    case AValue => Stop
    case ANext =>
      if IsWs(c) then Stay(f)
      else if c == ',' then Stay(f.(astate := AValueExpected))
      else if c == ']' then Close
      else Stop
    case _ =>
      if IsWs(c) then Stay(f)
      else if c == ']' && f.astate == AStart then Close
      else
        var node := if f.items == Free then AnyNode(nodes) else f.items;
        if node == Free then Stop else OpenThen(f.(astate := AValue), Value(node))
  }

  function MoveOf(nodes: Arena, f: Frame, c: char): Move {
    match f
    case Value(id) => StartMove(nodes, id, c)
    case Str(escape, len) => StrMove(escape, len, c)
    case Num(_, _, _, _, _, _, _) => NumMove(f, c)
    case Word(alts, at) => WordMove(alts, at, c)
    case Obj(_, _, _, _, _) => ObjMove(nodes, f, c)
    case Arr(_, _) => ArrMove(nodes, f, c)
  }

  // ------------------------------------------------------------ the machine

  function Top(m: Machine): Frame
    requires m.stack != []
  {
    m.stack[|m.stack| - 1]
  }

  function Below(m: Machine): seq<Frame>
    requires m.stack != []
  {
    m.stack[..|m.stack| - 1]
  }

  /** `finish_value`, on the stack below the finished value: the container there moves on. */
  function Resume(below: seq<Frame>): Option<seq<Frame>> {
    if below == [] then Some([])
    else
      var n := |below| - 1;
      match below[n]
      case Obj(_, _, _, _, _) => Some(below[..n] + [below[n].(ostate := ONext)])
      case Arr(_, _) => Some(below[..n] + [below[n].(astate := ANext)])
      case _ => None
  }

  function FinishValue(m: Machine): Option<Machine>
    requires m.stack != []
  {
    match Resume(Below(m))
    case None => None
    case Some(stack) => Some(m.(stack := stack, done := stack == []))
  }

  datatype Out = Dead | Alive(m: Machine) | Again(m: Machine)

  function Apply(m: Machine, move: Move): Out
    requires m.stack != []
  {
    match move
    case Stop => Dead
    case Stay(f) => Alive(m.(stack := Below(m) + [f]))
    case Close => (match FinishValue(m) case None => Dead case Some(x) => Alive(x))
    case CloseThen => (match FinishValue(m) case None => Dead case Some(x) => Again(x))
    case Open(f, g) => Alive(m.(stack := Below(m) + [f, g]))
    case OpenThen(f, g) => Again(m.(stack := Below(m) + [f, g]))
  }

  /** Where whitespace is just a character. */
  predicate InStringBody(m: Machine) {
    m.stack != [] && (Top(m).Str? || (Top(m).Obj? && Top(m).ostate == OKey))
  }

  /** The whitespace count, before anything else. */
  function Count(m: Machine, c: char): Option<Machine> {
    if IsWs(c) && !InStringBody(m) then
      if !m.started || m.wsRun >= MaxWsRun then None else Some(m.(wsRun := m.wsRun + 1))
    else Some(m.(wsRun := 0, started := true))
  }

  /** One pass of `push_char`. */
  function Once(nodes: Arena, m: Machine, c: char): Out {
    match Count(m, c)
    case None => Dead
    case Some(x) =>
      if x.done then if IsWs(c) then Alive(x) else Dead
      else if x.stack == [] then Dead
      else Apply(x, MoveOf(nodes, Top(x), c))
  }

  /** `push_char`. It calls itself at most once more (AgainSettles). */
  function PushChar(nodes: Arena, m: Machine, c: char): Option<Machine> {
    match Once(nodes, m, c)
    case Dead => None
    case Alive(x) => Some(x)
    case Again(x) =>
      match Once(nodes, x, c)
      case Alive(y) => Some(y)
      case _ => None
  }

  /** `push`. */
  function Push(nodes: Arena, m: Machine, text: string): Option<Machine>
    decreases |text|
  {
    if text == "" then Some(m)
    else match PushChar(nodes, m, text[0])
      case None => None
      case Some(x) => Push(nodes, x, text[1..])
  }

  predicate Complete(m: Machine) {
    m.done || (|m.stack| == 1 && NumComplete(m.stack[0]))
  }

  // -------------------------------------------------------------- viability

  predicate MorePossible(nodes: Arena, node: nat, seen: seq<nat>)
    requires node < |nodes| && nodes[node].Object?
  {
    nodes[node].additional || exists i :: 0 <= i < |nodes[node].properties| && i !in seen
  }

  predicate FrameViable(nodes: Arena, f: Frame) {
    match f
    case Word(alts, _) => alts != []
    case Obj(node, state, seen, key, _) =>
      node == Free
      || (node < |nodes| && nodes[node].Object?
          && match state
             case OStart => CanClose(nodes, node, seen) || MorePossible(nodes, node, seen)
             case ONext => CanClose(nodes, node, seen) || MorePossible(nodes, node, seen)
             case OKeyExpected => MorePossible(nodes, node, seen)
             case OKey => KeyPossible(nodes, node, seen, key)
             case _ => true)
    case _ => true
  }

  predicate Viable(nodes: Arena, m: Machine) {
    m.done || forall i :: 0 <= i < |m.stack| ==> FrameViable(nodes, m.stack[i])
  }

  predicate Allows(nodes: Arena, m: Machine, text: string) {
    match Push(nodes, m, text)
    case None => false
    case Some(x) => Viable(nodes, x)
  }

  predicate Container(f: Frame) { f.Obj? || f.Arr? }

  function OpenContainers(stack: seq<Frame>): nat {
    if stack == [] then 0 else OpenContainers(stack[..|stack| - 1]) + if Container(stack[|stack| - 1]) then 1 else 0
  }

  /** `depth`. */
  function Depth(m: Machine): nat { OpenContainers(m.stack) }

  // ------------------------------------------------- what every state satisfies

  /** A container whose value is on top of it. */
  predicate Waiting(f: Frame) { (f.Obj? && f.ostate == OValue) || (f.Arr? && f.astate == AValue) }

  /** A frame that refers to what it should. */
  predicate Sound(nodes: Arena, f: Frame) {
    match f
    case Num(_, _, _, seenExp, expDigit, _, _) => expDigit ==> seenExp
    case Word(alts, at) => alts != [] && at > 0 && forall a :: a in alts ==> at < |a|
    case Obj(node, _, _, _, _) => node == Free || (node < |nodes| && nodes[node].Object?)
    case _ => true
  }

  ghost predicate Sane(nodes: Arena, m: Machine) {
    (m.done <==> m.stack == [])
    && (forall i :: 0 <= i < |m.stack| ==> Sound(nodes, m.stack[i]))
    && (forall i :: 0 <= i < |m.stack| ==> (Waiting(m.stack[i]) <==> i < |m.stack| - 1))
  }

  lemma NewMachineSane(nodes: Arena)
    ensures Sane(nodes, NewMachine())
  {}

  /** What a move of a sound frame puts in its place. */
  ghost predicate MoveSane(nodes: Arena, move: Move) {
    match move
    case Stay(f) => Sound(nodes, f) && !Waiting(f)
    case Open(f, g) => Sound(nodes, f) && Waiting(f) && g.Value?
    case OpenThen(f, g) => Sound(nodes, f) && Waiting(f) && g.Value?
    case _ => true
  }

  lemma SettleSane(nodes: Arena, alts: seq<string>, at: nat)
    requires alts != [] && at > 0 && forall a :: a in alts ==> at <= |a|
    ensures MoveSane(nodes, Settle(alts, at))
  {}

  lemma StartSane(nodes: Arena, id: nat, c: char)
    ensures MoveSane(nodes, StartMove(nodes, id, c))
  {
    if !IsWs(c) && id < |nodes| && nodes[id].Choice? {
      var alts := Filter(nodes[id].options, 0, c);
      if alts != [] {
        SettleSane(nodes, alts, 1);
      }
    }
  }

  lemma KeySane(nodes: Arena, f: Frame, c: char)
    requires f.Obj? && Sound(nodes, f) && f.ostate == OKey
    ensures MoveSane(nodes, KeyMove(nodes, f, c)) && !KeyMove(nodes, f, c).Open? && !KeyMove(nodes, f, c).OpenThen?
  {}

  lemma MoveOfSane(nodes: Arena, f: Frame, c: char)
    requires Sound(nodes, f) && !Waiting(f)
    ensures MoveSane(nodes, MoveOf(nodes, f, c))
  {
    match f
    case Value(id) => StartSane(nodes, id, c);
    case Word(alts, at) =>
      var rest := Filter(alts, at, c);
      if rest != [] {
        SettleSane(nodes, rest, at + 1);
      }
    case Obj(_, state, _, _, _) =>
      if state == OKey {
        KeySane(nodes, f, c);
      }
    case _ =>
  }

  lemma ApplySane(nodes: Arena, m: Machine, move: Move)
    requires Sane(nodes, m) && m.stack != [] && MoveSane(nodes, move)
    ensures !Apply(m, move).Dead? ==> Sane(nodes, Apply(m, move).m)
  {
    assert (move.Open? || move.OpenThen?) ==> Sound(nodes, move.inner) && !Waiting(move.inner);
    hide Sound;
    var below := Below(m);
    assert forall i :: 0 <= i < |below| ==> below[i] == m.stack[i] && Waiting(below[i]);
    if move.Close? || move.CloseThen? {
      if below != [] {
        var n := |below| - 1;
        ResumeSound(nodes, below[n]);
      }
    }
  }

  lemma ResumeSound(nodes: Arena, f: Frame)
    requires Sound(nodes, f)
    ensures f.Obj? ==> Sound(nodes, f.(ostate := ONext))
    ensures f.Arr? ==> Sound(nodes, f.(astate := ANext))
  {}

  lemma OnceSane(nodes: Arena, m: Machine, c: char)
    requires Sane(nodes, m)
    ensures !Once(nodes, m, c).Dead? ==> Sane(nodes, Once(nodes, m, c).m)
  {
    if Count(m, c).Some? && m.stack != [] {
      var x := Count(m, c).value;
      assert Sane(nodes, x) && Sound(nodes, Top(x)) && !Waiting(Top(x));
      hide Sound, MoveSane, Apply, MoveOf, Sane;
      MoveOfSane(nodes, Top(x), c);
      ApplySane(nodes, x, MoveOf(nodes, Top(x), c));
    }
  }

  lemma PushCharSane(nodes: Arena, m: Machine, c: char)
    requires Sane(nodes, m)
    ensures PushChar(nodes, m, c).Some? ==> Sane(nodes, PushChar(nodes, m, c).value)
  {
    hide Sane, Once;
    OnceSane(nodes, m, c);
    if Once(nodes, m, c).Again? {
      OnceSane(nodes, Once(nodes, m, c).m, c);
    }
  }

  lemma {:induction false} PushSane(nodes: Arena, m: Machine, text: string)
    requires Sane(nodes, m)
    ensures Push(nodes, m, text).Some? ==> Sane(nodes, Push(nodes, m, text).value)
    decreases |text|
  {
    hide Sane, PushChar;
    if text != "" {
      PushCharSane(nodes, m, text[0]);
      if PushChar(nodes, m, text[0]).Some? {
        PushSane(nodes, PushChar(nodes, m, text[0]).value, text[1..]);
      }
    }
  }

  // ------------------------------------------------------------- at most twice

  lemma AgainMoves(nodes: Arena, f: Frame, c: char)
    ensures MoveOf(nodes, f, c).CloseThen? ==> f.Num?
    ensures MoveOf(nodes, f, c).OpenThen? ==> f.Arr? && (f.astate == AStart || f.astate == AValueExpected) && MoveOf(nodes, f, c).inner.Value?
  {
    hide KeyMove;
    match f
    case Value(id) => StartOpens(nodes, id, c);
    case Obj(_, _, _, _, _) =>
      ObjOpens(nodes, f, c);
    case _ =>
  }

  lemma StartOpens(nodes: Arena, id: nat, c: char)
    ensures !StartMove(nodes, id, c).CloseThen? && !StartMove(nodes, id, c).OpenThen?
  {}

  lemma ObjOpens(nodes: Arena, f: Frame, c: char)
    requires f.Obj?
    ensures !ObjMove(nodes, f, c).CloseThen? && !ObjMove(nodes, f, c).OpenThen?
  {}

  /** The character is handed on at most once: a number ends at a container that has just finished a value, and an
      array opens a value, and neither of those hands a character on. */
  lemma AgainSettles(nodes: Arena, m: Machine, c: char)
    requires Once(nodes, m, c).Again?
    ensures !Once(nodes, Once(nodes, m, c).m, c).Again?
  {
    var x := Count(m, c).value;
    AgainMoves(nodes, Top(x), c);
    var y := Once(nodes, m, c).m;
    hide MoveOf;
    if y.stack != [] {
      AgainMoves(nodes, Top(y), c);
      assert Top(y).Value? || (Top(y).Obj? && Top(y).ostate == ONext) || (Top(y).Arr? && Top(y).astate == ANext);
    }
  }

  // -------------------------------------------------- nothing revives the doomed

  /** A doomed object frame only moves to doomed object frames. */
  lemma DoomedMove(nodes: Arena, f: Frame, c: char)
    requires f.Obj? && Sound(nodes, f) && !Waiting(f) && !FrameViable(nodes, f)
    ensures MoveOf(nodes, f, c).Stop? || (MoveOf(nodes, f, c).Stay? && !FrameViable(nodes, MoveOf(nodes, f, c).top))
  {
    if f.ostate == OKey {
      DoomedKey(nodes, f, c);
    } else if (f.ostate == OStart || f.ostate == OKeyExpected) && c == '"' {
      var g := f.(ostate := OKey, key := "", keyEscape := 0);
      assert !KeyPossible(nodes, g.node, g.seen, "");
    }
  }

  lemma DoomedKey(nodes: Arena, f: Frame, c: char)
    requires f.Obj? && Sound(nodes, f) && f.ostate == OKey && !FrameViable(nodes, f)
    ensures KeyMove(nodes, f, c).Stop? || (KeyMove(nodes, f, c).Stay? && !FrameViable(nodes, KeyMove(nodes, f, c).top))
  {
    var props := nodes[f.node].properties;
    assert forall i: nat :: i < |props| ==> !Unseen(props, f.seen, f.key, i);
    assert !KeyPossible(nodes, f.node, f.seen, f.key + [c]) by {
      forall i: nat | i < |props| ensures !Unseen(props, f.seen, f.key + [c], i) {
        assert !Unseen(props, f.seen, f.key, i);
      }
    }
    if c == '"' && f.keyEscape == 0 {
      var i := Find(props, f.key);
      assert i.Some? ==> !Unseen(props, f.seen, f.key, i.value);
    }
  }

  lemma DoomedTop(nodes: Arena, m: Machine)
    requires Sane(nodes, m) && !Viable(nodes, m)
    ensures m.stack != [] && Top(m).Obj? && !FrameViable(nodes, Top(m)) && !m.done && Sound(nodes, Top(m)) && !Waiting(Top(m))
  {
    var i :| 0 <= i < |m.stack| && !FrameViable(nodes, m.stack[i]);
    assert Sound(nodes, m.stack[i]);
    assert i == |m.stack| - 1;
  }

  /** Non-viability persists under every accepted character. */
  lemma DoomPersists(nodes: Arena, m: Machine, c: char)
    requires Sane(nodes, m) && !Viable(nodes, m)
    ensures PushChar(nodes, m, c).Some? ==> !Viable(nodes, PushChar(nodes, m, c).value)
  {
    DoomedTop(nodes, m);
    DoomedMove(nodes, Top(m), c);
    hide MoveOf, FrameViable, Sane, Sound;
    if Count(m, c).Some? {
      var x := Count(m, c).value;
      assert x.stack == m.stack;
      if MoveOf(nodes, Top(x), c).Stay? {
        var y := Once(nodes, m, c).m;
        assert y.stack[|y.stack| - 1] == MoveOf(nodes, Top(x), c).top;
      }
    }
  }

  lemma {:induction false} DoomPersistsAll(nodes: Arena, m: Machine, text: string)
    requires Sane(nodes, m) && !Viable(nodes, m)
    ensures Push(nodes, m, text).Some? ==> !Viable(nodes, Push(nodes, m, text).value)
    decreases |text|
  {
    hide Sane, PushChar, Viable;
    if text != "" {
      DoomPersists(nodes, m, text[0]);
      PushCharSane(nodes, m, text[0]);
      if PushChar(nodes, m, text[0]).Some? {
        DoomPersistsAll(nodes, PushChar(nodes, m, text[0]).value, text[1..]);
      }
    }
  }

  lemma {:induction false} PushConcat(nodes: Arena, m: Machine, a: string, b: string)
    ensures Push(nodes, m, a + b) == match Push(nodes, m, a) case None => None case Some(x) => Push(nodes, x, b)
    decreases |a|
  {
    hide PushChar;
    if a == "" {
      assert a + b == b;
    } else {
      assert (a + b)[0] == a[0] && (a + b)[1..] == a[1..] + b;
      if PushChar(nodes, m, a[0]).Some? {
        PushConcat(nodes, PushChar(nodes, m, a[0]).value, a[1..], b);
      }
    }
  }

  /** Whatever is allowed is allowed character by character: every prefix of an allowed text is allowed. */
  lemma AllowsPrefix(nodes: Arena, m: Machine, a: string, b: string)
    requires Sane(nodes, m) && Allows(nodes, m, a + b)
    ensures Allows(nodes, m, a)
  {
    PushConcat(nodes, m, a, b);
    hide Push, Viable, Sane;
    PushSane(nodes, m, a);
    var x := Push(nodes, m, a).value;
    if !Viable(nodes, x) {
      DoomPersistsAll(nodes, x, b);
    }
  }

  // ------------------------------------------------------------------- depth

  lemma {:induction false} AllOpen(stack: seq<Frame>)
    requires forall i :: 0 <= i < |stack| ==> Container(stack[i])
    ensures OpenContainers(stack) == |stack|
    decreases |stack|
  {
    if stack != [] {
      AllOpen(stack[..|stack| - 1]);
    }
  }

  /** The depth is how many containers are open: all frames, but for the one on top when that is a value. */
  lemma DepthIs(nodes: Arena, m: Machine)
    requires Sane(nodes, m)
    ensures m.stack == [] ==> Depth(m) == 0
    ensures m.stack != [] ==> Depth(m) == |m.stack| - (if Container(Top(m)) then 0 else 1)
    ensures forall i :: 0 <= i < |m.stack| - 1 ==> Container(m.stack[i])
  {
    forall i | 0 <= i < |m.stack| - 1 ensures Container(m.stack[i]) {
      assert Waiting(m.stack[i]);
    }
    if m.stack != [] {
      AllOpen(Below(m));
    }
  }
}
