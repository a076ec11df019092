/** UTF-8 encoding. */
module Encoding {
  import opened Prelude

  function Encode(c: char): (r: seq<byte>)
    ensures 1 <= |r| <= 4 && (|r| == 1 <==> IsAscii(c)) && (forall i :: 0 <= i < |r| ==> (r[i] < 0x80 <==> IsAscii(c)))
    ensures IsAscii(c) ==> r == [c as nat]
  {
    var n := c as nat;
    if n < 0x80 then [n]
    else if n < 0x800 then [0xC0 + n / 0x40, 0x80 + n % 0x40]
    else if n < 0x1_0000 then [0xE0 + n / 0x1000, 0x80 + n / 0x40 % 0x40, 0x80 + n % 0x40]
    else [0xF0 + n / 0x4_0000, 0x80 + n / 0x1000 % 0x40, 0x80 + n / 0x40 % 0x40, 0x80 + n % 0x40]
  }

  predicate IsAscii(c: char) { (c as nat) < 0x80 }

  predicate AllAscii(s: string) { forall i :: 0 <= i < |s| ==> IsAscii(s[i]) }

  function EncodeText(s: string): (r: seq<byte>)
    ensures |s| <= |r|
  {
    if s == "" then [] else Encode(s[0]) + EncodeText(s[1..])
  }

  /** Exactly the texts beyond ASCII have more bytes than characters. */
  lemma {:induction false} EncodedLength(s: string)
    ensures |EncodeText(s)| == |s| <==> AllAscii(s)
  {
    if s != "" {
      EncodedLength(s[1..]);
      assert AllAscii(s) <==> IsAscii(s[0]) && AllAscii(s[1..]) by {
        assert forall i :: 0 < i < |s| ==> s[i] == s[1..][i - 1];
      }
    }
  }

  lemma {:induction false} AsciiEncoded(s: string)
    requires AllAscii(s)
    ensures |EncodeText(s)| == |s| && forall i :: 0 <= i < |s| ==> EncodeText(s)[i] == s[i] as nat
  {
    if s != "" {
      assert AllAscii(s[1..]) by {
        assert forall i :: 0 < i < |s| ==> s[i] == s[1..][i - 1];
      }
      AsciiEncoded(s[1..]);
      assert s == [s[0]] + s[1..];
    }
  }
}
