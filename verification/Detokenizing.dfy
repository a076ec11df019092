/** Streaming text out of tokens (crates/vapi-engine/src/detokenize.rs), over a decoder that concatenates the tokens'
    bytes and reads them as UTF-8, replacing what is not (crates/vapi-tokenize/src/bytes.rs). */
module Detokenizing {
  import opened Prelude
  import opened Encoding

  // -------------------------------------------------------------- lossy UTF-8

  const Replacement: char := '\U{FFFD}'

  /** Between characters, or inside one: how many bytes are missing, what the next may be, and the bits so far. */
  datatype Utf8 = Start | Inside(need: nat, lower: nat, upper: nat, code: nat)

  /** The character of a code point that well-formed UTF-8 can spell. */
  function CharOf(code: nat): char {
    if code < 0xD800 || 0xE000 <= code < 0x11_0000 then code as char else Replacement
  }

  /** A byte where a character may begin. */
  function Begin(b: byte): (Utf8, string) {
    if b < 0x80 then (Start, [CharOf(b)])
    else if 0xC2 <= b <= 0xDF then (Inside(1, 0x80, 0xBF, b - 0xC0), "")
    else if 0xE0 <= b <= 0xEF then (Inside(2, if b == 0xE0 then 0xA0 else 0x80, if b == 0xED then 0x9F else 0xBF, b - 0xE0), "")
    else if 0xF0 <= b <= 0xF4 then (Inside(3, if b == 0xF0 then 0x90 else 0x80, if b == 0xF4 then 0x8F else 0xBF, b - 0xF0), "")
    else (Start, [Replacement])
  }

  /** One byte. A byte that cannot continue a character ends it with a replacement and begins the next. */
  function Feed(u: Utf8, b: byte): (Utf8, string) {
    match u
    case Start => Begin(b)
    case Inside(need, lower, upper, code) =>
      if lower <= b <= upper && b >= 0x80 then
        var more := code * 0x40 + (b - 0x80);
        if need <= 1 then (Start, [CharOf(more)]) else (Inside(need - 1, 0x80, 0xBF, more), "")
      else
        var (next, text) := Begin(b);
        (next, [Replacement] + text)
  }

  function After(u: Utf8, bytes: seq<byte>): Utf8
    decreases |bytes|
  {
    if bytes == [] then u else After(Feed(u, bytes[0]).0, bytes[1..])
  }

  /** The text of the characters completed so far. */
  function Out(u: Utf8, bytes: seq<byte>): string
    decreases |bytes|
  {
    if bytes == [] then "" else Feed(u, bytes[0]).1 + Out(Feed(u, bytes[0]).0, bytes[1..])
  }

  /** `from_utf8_lossy`: an unfinished character at the end is replaced. */
  function Lossy(bytes: seq<byte>): string {
    Out(Start, bytes) + if After(Start, bytes).Start? then "" else [Replacement]
  }

  lemma {:induction false} OutConcat(u: Utf8, a: seq<byte>, b: seq<byte>)
    ensures Out(u, a + b) == Out(u, a) + Out(After(u, a), b) && After(u, a + b) == After(After(u, a), b)
    decreases |a|
  {
    hide Feed;
    if a == [] {
      assert a + b == b;
    } else {
      assert (a + b)[0] == a[0] && (a + b)[1..] == a[1..] + b;
      OutConcat(Feed(u, a[0]).0, a[1..], b);
    }
  }

  predicate EndsReplaced(s: string) { s != "" && s[|s| - 1] == Replacement }

  /** Ends between two characters. */
  predicate Clean(bytes: seq<byte>) { After(Start, bytes).Start? }

  /** Text that does not end in a replacement character comes from bytes that end between two characters. */
  lemma UnreplacedIsClean(bytes: seq<byte>)
    requires !EndsReplaced(Lossy(bytes))
    ensures Clean(bytes)
  {
    assert Clean(bytes) || Lossy(bytes) == Out(Start, bytes) + [Replacement];
  }

  /** From there on, decoding goes on as if from the beginning. */
  lemma CleanConcat(a: seq<byte>, b: seq<byte>)
    requires Clean(a)
    ensures Lossy(a + b) == Lossy(a) + Lossy(b) && (Clean(a + b) <==> Clean(b))
  {
    OutConcat(Start, a, b);
    assert After(Start, a) == Start;
  }

  // ------------------------------------------------------------------ decoders

  /** The bytes of each token. */
  type Table = u32 -> seq<byte>

  function BytesOf(table: Table, ids: seq<u32>): seq<byte> {
    if ids == [] then [] else table(ids[0]) + BytesOf(table, ids[1..])
  }

  function Decode(table: Table, ids: seq<u32>): string {
    Lossy(BytesOf(table, ids))
  }

  lemma {:induction false} BytesConcat(table: Table, a: seq<u32>, b: seq<u32>)
    ensures BytesOf(table, a + b) == BytesOf(table, a) + BytesOf(table, b)
  {
    if a == [] {
      assert a + b == b;
    } else {
      assert (a + b)[0] == a[0] && (a + b)[1..] == a[1..] + b;
      BytesConcat(table, a[1..], b);
    }
  }

  predicate CleanIds(table: Table, ids: seq<u32>) { Clean(BytesOf(table, ids)) }

  lemma DecodeConcat(table: Table, a: seq<u32>, b: seq<u32>)
    requires CleanIds(table, a)
    ensures Decode(table, a + b) == Decode(table, a) + Decode(table, b) && (CleanIds(table, a + b) <==> CleanIds(table, b))
  {
    BytesConcat(table, a, b);
    CleanConcat(BytesOf(table, a), BytesOf(table, b));
  }

  // ------------------------------------------------------------- byte lengths

  function Utf8Length(c: char): nat {
    var n := c as nat;
    if n < 0x80 then 1 else if n < 0x800 then 2 else if n < 0x1_0000 then 3 else 4
  }

  /** `String::len`. */
  function ByteLength(s: string): nat {
    if s == "" then 0 else Utf8Length(s[0]) + ByteLength(s[1..])
  }

  /** `s[n..]`, by bytes. */
  function ByteSlice(s: string, n: nat): string {
    if n == 0 || s == "" then s
    else ByteSlice(s[1..], if n >= Utf8Length(s[0]) then n - Utf8Length(s[0]) else 0)
  }

  lemma {:induction false} SliceAfter(a: string, b: string)
    ensures ByteLength(a + b) == ByteLength(a) + ByteLength(b) && ByteSlice(a + b, ByteLength(a)) == b
    decreases |a|
  {
    if a == "" {
      assert a + b == b;
    } else {
      assert (a + b)[0] == a[0] && (a + b)[1..] == a[1..] + b;
      SliceAfter(a[1..], b);
    }
  }

  lemma LengthZero(s: string)
    ensures ByteLength(s) == 0 <==> s == ""
  {}

  // -------------------------------------------------------------- the stream

  /** What is known between two pushes: the emitted text is the decoding of the generated tokens up to `read`, and
      both offsets lie between characters. */
  ghost predicate Streaming(table: Table, tokens: seq<u32>, prompt: nat, prefix: nat, read: nat, emitted: string) {
    prompt <= prefix <= read <= |tokens|
    && CleanIds(table, tokens[prompt..prefix]) && CleanIds(table, tokens[prefix..read])
    && emitted == Decode(table, tokens[prompt..read])
  }

  /** Either the generated tokens end inside a character, or everything they spell has been emitted. */
  ghost predicate Exact(table: Table, tokens: seq<u32>, prompt: nat, emitted: string)
    requires prompt <= |tokens|
  {
    EndsReplaced(Decode(table, tokens[prompt..])) || emitted == Decode(table, tokens[prompt..])
  }

  lemma Pieces(tokens: seq<u32>, a: nat, b: nat, c: nat)
    requires a <= b <= c <= |tokens|
    ensures tokens[a..c] == tokens[a..b] + tokens[b..c]
  {}

  /** How the text splits at the two offsets. */
  lemma Splits(table: Table, tokens: seq<u32>, prompt: nat, prefix: nat, read: nat, emitted: string)
    requires Streaming(table, tokens, prompt, prefix, read, emitted)
    ensures var n := |tokens|;
      Decode(table, tokens[prefix..]) == Decode(table, tokens[prefix..read]) + Decode(table, tokens[read..])
      && Decode(table, tokens[prompt..]) == emitted + Decode(table, tokens[read..])
      && Decode(table, tokens[prompt..]) == Decode(table, tokens[prompt..prefix]) + Decode(table, tokens[prefix..])
      && CleanIds(table, tokens[prompt..read])
  {
    var n := |tokens|;
    Pieces(tokens, prefix, read, n);
    Pieces(tokens, prompt, prefix, n);
    Pieces(tokens, prompt, prefix, read);
    Pieces(tokens, prompt, read, n);
    assert tokens[prefix..] == tokens[prefix..n] && tokens[read..] == tokens[read..n] && tokens[prompt..] == tokens[prompt..n];
    DecodeConcat(table, tokens[prefix..read], tokens[read..n]);
    DecodeConcat(table, tokens[prompt..prefix], tokens[prefix..n]);
    DecodeConcat(table, tokens[prompt..prefix], tokens[prefix..read]);
    DecodeConcat(table, tokens[prompt..read], tokens[read..n]);
  }

  lemma EndsWith(a: string, b: string)
    ensures b != "" ==> (EndsReplaced(a + b) <==> EndsReplaced(b))
  {}

  lemma HeldBack(table: Table, tokens: seq<u32>, prompt: nat, prefix: nat, read: nat, emitted: string)
    requires Streaming(table, tokens, prompt, prefix, read, emitted)
    requires var was, now := Decode(table, tokens[prefix..read]), Decode(table, tokens[prefix..]);
      ByteLength(now) <= ByteLength(was) || EndsReplaced(now)
    ensures Exact(table, tokens, prompt, emitted)
  {
    Splits(table, tokens, prompt, prefix, read, emitted);
    hide Decode, Streaming;
    var rest, now := Decode(table, tokens[read..]), Decode(table, tokens[prefix..]);
    if EndsReplaced(now) {
      EndsWith(Decode(table, tokens[prompt..prefix]), now);
    } else {
      SliceAfter(Decode(table, tokens[prefix..read]), rest);
      LengthZero(rest);
      assert emitted + "" == emitted;
    }
  }

  lemma Released(table: Table, tokens: seq<u32>, prompt: nat, prefix: nat, read: nat, emitted: string)
    requires Streaming(table, tokens, prompt, prefix, read, emitted)
    requires var was, now := Decode(table, tokens[prefix..read]), Decode(table, tokens[prefix..]);
      ByteLength(now) > ByteLength(was) && !EndsReplaced(now)
    ensures var was, now := Decode(table, tokens[prefix..read]), Decode(table, tokens[prefix..]);
      var delta := ByteSlice(now, ByteLength(was));
      Streaming(table, tokens, prompt, read, |tokens|, emitted + delta) && emitted + delta == Decode(table, tokens[prompt..]) && delta != ""
  {
    Splits(table, tokens, prompt, prefix, read, emitted);
    DecodedClean(table, tokens[read..]);
    assert prompt <= prefix <= read <= |tokens|;
    assert tokens[read..] == tokens[read..|tokens|] && tokens[prompt..] == tokens[prompt..|tokens|];
    hide Decode, CleanIds;
    var rest := Decode(table, tokens[read..]);
    SliceAfter(Decode(table, tokens[prefix..read]), rest);
    hide ByteLength, ByteSlice;
    LengthZero(rest);
    EndsWith(Decode(table, tokens[prefix..read]), rest);
  }

  lemma DecodedClean(table: Table, ids: seq<u32>)
    ensures !EndsReplaced(Decode(table, ids)) ==> CleanIds(table, ids)
  {
    if !EndsReplaced(Decode(table, ids)) {
      UnreplacedIsClean(BytesOf(table, ids));
    }
  }

  class IncrementalDetokenizer {
    const table: Table
    const prompt: nat
    var tokens: seq<u32>
    var prefixOffset: nat
    var readOffset: nat
    var emitted: string

    ghost predicate Valid()
      reads this
    {
      Streaming(table, tokens, prompt, prefixOffset, readOffset, emitted)
    }

    /** Prompt tokens are decoded but never emitted. */
    constructor (table: Table, promptTokens: seq<u32>)
      ensures Valid() && prompt == |promptTokens| && tokens == promptTokens && emitted == ""
    {
      this.table := table;
      prompt := |promptTokens|;
      tokens := promptTokens;
      prefixOffset := |promptTokens|;
      readOffset := |promptTokens|;
      emitted := "";
    }

    /** `push`: what has been emitted is never retracted, is always a beginning of what the generated tokens spell,
        and is all of it unless they end inside a character. */
    method Push(token: u32) returns (delta: string)
      requires Valid()
      modifies this`tokens, this`prefixOffset, this`readOffset, this`emitted
      ensures Valid() && tokens == old(tokens) + [token] && emitted == old(emitted) + delta
      ensures Exact(table, tokens, prompt, emitted) && emitted <= Decode(table, tokens[prompt..])
    {
      Grows(table, tokens, prompt, prefixOffset, readOffset, emitted, token);
      tokens := tokens + [token];
      var prefixText := Decode(table, tokens[prefixOffset..readOffset]);
      var newText := Decode(table, tokens[prefixOffset..]);
      Splits(table, tokens, prompt, prefixOffset, readOffset, emitted);
      if ByteLength(newText) <= ByteLength(prefixText) || EndsReplaced(newText) {
        HeldBack(table, tokens, prompt, prefixOffset, readOffset, emitted);
        return "";
      }
      Released(table, tokens, prompt, prefixOffset, readOffset, emitted);
      delta := ByteSlice(newText, ByteLength(prefixText));
      prefixOffset := readOffset;
      readOffset := |tokens|;
      emitted := emitted + delta;
    }
  }

  lemma Grows(table: Table, tokens: seq<u32>, prompt: nat, prefix: nat, read: nat, emitted: string, token: u32)
    requires Streaming(table, tokens, prompt, prefix, read, emitted)
    ensures Streaming(table, tokens + [token], prompt, prefix, read, emitted)
  {
    var more := tokens + [token];
    assert more[prompt..prefix] == tokens[prompt..prefix] && more[prefix..read] == tokens[prefix..read] && more[prompt..read] == tokens[prompt..read];
  }

  // ---------------------------------------------------------------- round trip

  lemma Step(u: Utf8, b: byte, rest: seq<byte>)
    ensures After(u, [b] + rest) == After(Feed(u, b).0, rest) && Out(u, [b] + rest) == Feed(u, b).1 + Out(Feed(u, b).0, rest)
  {
    assert ([b] + rest)[0] == b && ([b] + rest)[1..] == rest;
  }

  lemma Ended(u: Utf8)
    ensures After(u, []) == u && Out(u, []) == ""
  {}

  lemma CharRange(c: char)
    ensures CharOf(c as nat) == c
  {}

  /** The bits of a code point, six at a time. */
  lemma Sixes(n: nat)
    ensures n / 0x40 * 0x40 + n % 0x40 == n
    ensures n / 0x1000 * 0x40 + n / 0x40 % 0x40 == n / 0x40
    ensures n / 0x4_0000 * 0x40 + n / 0x1000 % 0x40 == n / 0x1000
  {}

  lemma EncodedTwo(c: char)
    requires 0x80 <= c as nat < 0x800
    ensures Out(Start, Encode(c)) == [c] && After(Start, Encode(c)) == Start
  {
    var n := c as nat;
    var e := Encode(c);
    Sixes(n);
    CharRange(c);
    var u := Feed(Start, e[0]).0;
    assert e == [e[0]] + ([e[1]] + []);
    Step(Start, e[0], [e[1]] + []);
    Step(u, e[1], []);
    Ended(Start);
    hide Out, After;
  }

  lemma EncodedThree(c: char)
    requires 0x800 <= c as nat < 0x1_0000
    ensures Out(Start, Encode(c)) == [c] && After(Start, Encode(c)) == Start
  {
    var n := c as nat;
    var e := Encode(c);
    Sixes(n);
    CharRange(c);
    hide Out, After;
    var u := Feed(Start, e[0]).0;
    var v := Feed(u, e[1]).0;
    assert e == [e[0]] + ([e[1]] + ([e[2]] + []));
    Step(Start, e[0], [e[1]] + ([e[2]] + []));
    Step(u, e[1], [e[2]] + []);
    Step(v, e[2], []);
    Ended(Start);
  }

  lemma EncodedFour(c: char)
    requires 0x1_0000 <= c as nat
    ensures Out(Start, Encode(c)) == [c] && After(Start, Encode(c)) == Start
  {
    var n := c as nat;
    var e := Encode(c);
    Sixes(n);
    CharRange(c);
    hide Out, After;
    var u := Feed(Start, e[0]).0;
    var v := Feed(u, e[1]).0;
    var w := Feed(v, e[2]).0;
    assert e == [e[0]] + ([e[1]] + ([e[2]] + ([e[3]] + [])));
    Step(Start, e[0], [e[1]] + ([e[2]] + ([e[3]] + [])));
    Step(u, e[1], [e[2]] + ([e[3]] + []));
    Step(v, e[2], [e[3]] + []);
    Step(w, e[3], []);
    Ended(Start);
  }

  lemma EncodedChar(c: char)
    ensures Out(Start, Encode(c)) == [c] && After(Start, Encode(c)) == Start
  {
    var n := c as nat;
    if n < 0x80 {
      CharRange(c);
      assert Encode(c) == [n] + [];
      Step(Start, n, []);
    } else if n < 0x800 {
      EncodedTwo(c);
    } else if n < 0x1_0000 {
      EncodedThree(c);
    } else {
      EncodedFour(c);
    }
  }

  /** Text that was encoded decodes to itself. */
  lemma {:induction false} EncodedTextDecodes(s: string)
    ensures Lossy(EncodeText(s)) == s && Clean(EncodeText(s))
  {
    if s != "" {
      EncodedChar(s[0]);
      EncodedTextDecodes(s[1..]);
      hide Out, After;
      CleanStart(Encode(s[0]));
      CleanConcat(Encode(s[0]), EncodeText(s[1..]));
      assert s == [s[0]] + s[1..];
    }
  }

  lemma CleanStart(bytes: seq<byte>)
    requires After(Start, bytes) == Start
    ensures Clean(bytes) && Lossy(bytes) == Out(Start, bytes)
  {}
}
