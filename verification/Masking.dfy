/** Which tokens the sampler is offered: `TokenMasker` of crates/vapi-engine/src/structured.rs. */
module Masking {
  import opened Prelude
  import Encoding
  import opened Machines

  /** A logit: negative infinity, or a score. */
  datatype Logit = NegInf | Score(value: real)

  // --------------------------------------------------------- the vocabulary

  /** First byte of a character's UTF-8 encoding. */
  function LeadByte(c: char): nat { Encoding.Encode(c)[0] }

  predicate IsAscii(b: nat) { b < 0x80 }

  lemma LeadByteAscii(c: char)
    ensures IsAscii(LeadByte(c)) ==> c as nat == LeadByte(c)
  {}

  function FirstByte(t: string): Option<nat> {
    if t == "" then None else Some(LeadByte(t[0]))
  }

  type Buckets = map<nat, seq<nat>>

  ghost predicate InBucket(texts: seq<string>, b: nat, ids: seq<nat>) {
    forall k :: 0 <= k < |ids| ==> ids[k] < |texts| && FirstByte(texts[ids[k]]) == Some(b)
  }

  /** Every token with a text is in the bucket of its first byte, and nothing else is in any bucket. */
  ghost predicate Indexed(texts: seq<string>, byFirst: Buckets) {
    (forall b :: b in byFirst ==> InBucket(texts, b, byFirst[b]))
    && (forall id: nat :: id < |texts| && texts[id] != "" ==> LeadByte(texts[id][0]) in byFirst && id in byFirst[LeadByte(texts[id][0])])
  }

  /** `TokenMasker::new`. */
  method BuildIndex(texts: seq<string>) returns (byFirst: Buckets)
    ensures Indexed(texts, byFirst)
  {
    hide LeadByte;
    byFirst := map[];
    for i := 0 to |texts|
      invariant forall b :: b in byFirst ==> InBucket(texts, b, byFirst[b])
      invariant forall id: nat :: id < i && texts[id] != "" ==> LeadByte(texts[id][0]) in byFirst && id in byFirst[LeadByte(texts[id][0])]
    {
      if texts[i] != "" {
        var b := LeadByte(texts[i][0]);
        var bucket := if b in byFirst then byFirst[b] else [];
        byFirst := byFirst[b := bucket + [i]];
      }
    }
  }

  // ----------------------------------------------------- the reference mask

  /** Try the token: the brute-force test. */
  predicate Allowed(nodes: Arena, m: Machine, texts: seq<string>, i: nat) {
    i < |texts| && texts[i] != "" && Allows(nodes, m, texts[i])
  }

  predicate DeadEnd(nodes: Arena, m: Machine, texts: seq<string>, n: nat) {
    forall i :: 0 <= i < n ==> !Allowed(nodes, m, texts, i)
  }

  /** Only the end of the turn is left. */
  predicate OnlyEos(nodes: Arena, m: Machine, texts: seq<string>, n: nat) {
    Complete(m) || DeadEnd(nodes, m, texts, n)
  }

  /** The mask: end of turn exactly when the document is complete or nothing can continue it, otherwise the tokens
      that keep it valid and completable. */
  function Masked(nodes: Arena, m: Machine, texts: seq<string>, eos: seq<nat>, logits: seq<Logit>): (r: seq<Logit>)
    ensures |r| == |logits|
  {
    var last := OnlyEos(nodes, m, texts, |logits|);
    seq(|logits|, (i: nat) requires i < |logits| =>
      if last then (if i in eos then logits[i] else NegInf)
      else if Allowed(nodes, m, texts, i) && i !in eos then logits[i] else NegInf)
  }

  // ---------------------------------------------------------- the bucket test

  /** A token is worth trying when its first byte is; no allowed token is lost that way. */
  lemma FirstCharAllowed(nodes: Arena, m: Machine, text: string)
    requires Sane(nodes, m) && text != "" && Allows(nodes, m, text)
    ensures Allows(nodes, m, [text[0]])
  {
    assert text == [text[0]] + text[1..];
    AllowsPrefix(nodes, m, [text[0]], text[1..]);
  }

  predicate WorthTrying(nodes: Arena, m: Machine, b: nat) {
    !IsAscii(b) || (b < 0x80 && Allows(nodes, m, [b as char]))
  }

  lemma NothingLost(nodes: Arena, m: Machine, texts: seq<string>, i: nat)
    requires Sane(nodes, m) && Allowed(nodes, m, texts, i)
    ensures WorthTrying(nodes, m, LeadByte(texts[i][0]))
  {
    var b := LeadByte(texts[i][0]);
    if IsAscii(b) {
      LeadByteAscii(texts[i][0]);
      assert b as char == texts[i][0];
      FirstCharAllowed(nodes, m, texts[i]);
    }
  }

  /** The closing test of `mask_closing`. */
  predicate Closes(nodes: Arena, m: Machine, text: string) {
    match Push(nodes, m, text)
    case None => false
    case Some(x) => Viable(nodes, x) && (Depth(x) < Depth(m) || Complete(x))
  }

  /** What closes is allowed, so at a dead end `mask_closing` adds nothing. */
  lemma ClosingAddsNothing(nodes: Arena, m: Machine, texts: seq<string>, n: nat, i: nat)
    requires DeadEnd(nodes, m, texts, n) && i < n && i < |texts| && texts[i] != ""
    ensures !Closes(nodes, m, texts[i])
  {
    assert !Allowed(nodes, m, texts, i);
    hide Push, Viable;
  }

  // -------------------------------------------------------------- the masker

  /** Within one bucket. */
  method TryBucket(nodes: Arena, m: Machine, texts: seq<string>, byFirst: Buckets, b: nat, allowed: array<bool>)
    requires Indexed(texts, byFirst) && b in byFirst
    modifies allowed
    ensures forall i :: 0 <= i < allowed.Length ==> (allowed[i] <==> old(allowed[i]) || (Allowed(nodes, m, texts, i) && LeadByte(texts[i][0]) == b))
  {
    hide LeadByte, Push, Viable;
    var ids := byFirst[b];
    assert InBucket(texts, b, ids);
    for k := 0 to |ids|
      invariant forall i :: 0 <= i < allowed.Length ==> (allowed[i] <==> old(allowed[i]) || (i in ids[..k] && i < |texts| && Allows(nodes, m, texts[i])))
    {
      var i := ids[k];
      assert i in ids;
      assert ids[..k + 1] == ids[..k] + [i];
      if i < allowed.Length && Allows(nodes, m, texts[i]) {
        allowed[i] := true;
      }
    }
    assert ids[..|ids|] == ids;
    hide Allows;
  }

  /** The bucketed pass finds exactly the tokens brute force would. */
  method FindAllowed(nodes: Arena, m: Machine, texts: seq<string>, byFirst: Buckets, n: nat) returns (allowed: array<bool>)
    requires Indexed(texts, byFirst) && Sane(nodes, m)
    ensures fresh(allowed) && allowed.Length == n
    ensures forall i :: 0 <= i < n ==> (allowed[i] <==> Allowed(nodes, m, texts, i))
  {
    allowed := new bool[n](_ => false);
    var left := byFirst.Keys;
    hide Allowed, WorthTrying, Sane;
    while left != {}
      invariant left <= byFirst.Keys && fresh(allowed) && allowed.Length == n
      invariant forall i :: 0 <= i < n ==> (allowed[i] <==> AllowedIn(nodes, m, texts, byFirst.Keys - left, i))
      decreases left
    {
      var b :| b in left;
      assert byFirst.Keys - (left - {b}) == (byFirst.Keys - left) + {b};
      AllowedMore(nodes, m, texts, byFirst.Keys - left, b);
      if WorthTrying(nodes, m, b) {
        TryBucket(nodes, m, texts, byFirst, b, allowed);
      } else {
        NotWorth(nodes, m, texts, b);
      }
      left := left - {b};
    }
    AllowedFound(nodes, m, texts, byFirst);
  }

  predicate AllowedIn(nodes: Arena, m: Machine, texts: seq<string>, visited: set<nat>, i: nat) {
    Allowed(nodes, m, texts, i) && LeadByte(texts[i][0]) in visited
  }

  lemma AllowedMore(nodes: Arena, m: Machine, texts: seq<string>, visited: set<nat>, b: nat)
    ensures forall i: nat :: AllowedIn(nodes, m, texts, visited + {b}, i) <==>
      AllowedIn(nodes, m, texts, visited, i) || (Allowed(nodes, m, texts, i) && LeadByte(texts[i][0]) == b)
    ensures forall i: nat :: !AllowedIn(nodes, m, texts, {}, i)
  {
    hide Allows;
  }

  lemma NotWorth(nodes: Arena, m: Machine, texts: seq<string>, b: nat)
    requires Sane(nodes, m) && !WorthTrying(nodes, m, b)
    ensures forall i: nat :: Allowed(nodes, m, texts, i) ==> i < |texts| && texts[i] != "" && LeadByte(texts[i][0]) != b
  {
    hide WorthTrying, Allows, Sane;
    forall i: nat | Allowed(nodes, m, texts, i) ensures LeadByte(texts[i][0]) != b {
      NothingLost(nodes, m, texts, i);
    }
  }

  lemma AllowedFound(nodes: Arena, m: Machine, texts: seq<string>, byFirst: Buckets)
    requires Indexed(texts, byFirst)
    ensures forall i: nat :: AllowedIn(nodes, m, texts, byFirst.Keys, i) <==> Allowed(nodes, m, texts, i)
  {
    hide Allows;
  }

  method Any(bits: array<bool>) returns (found: bool)
    ensures found <==> exists i :: 0 <= i < bits.Length && bits[i]
  {
    for i := 0 to bits.Length
      invariant forall k :: 0 <= k < i ==> !bits[k]
    {
      if bits[i] {
        return true;
      }
    }
    found := false;
  }

  /** `mask_closing`. */
  method MarkClosing(nodes: Arena, m: Machine, texts: seq<string>, byFirst: Buckets, allowed: array<bool>)
    requires Indexed(texts, byFirst)
    modifies allowed
    ensures forall i :: 0 <= i < allowed.Length ==> (allowed[i] <==> old(allowed[i]) || (i < |texts| && texts[i] != "" && Closes(nodes, m, texts[i])))
  {
    var left := byFirst.Keys;
    hide Closes;
    while left != {}
      invariant left <= byFirst.Keys
      invariant forall i :: 0 <= i < allowed.Length ==> (allowed[i] <==> old(allowed[i]) || ClosesIn(nodes, m, texts, byFirst.Keys - left, i))
      decreases left
    {
      var b :| b in left;
      assert byFirst.Keys - (left - {b}) == (byFirst.Keys - left) + {b};
      ClosesMore(nodes, m, texts, byFirst.Keys - left, b);
      MarkBucket(nodes, m, texts, byFirst, b, allowed);
      left := left - {b};
    }
    assert byFirst.Keys - left == byFirst.Keys;
  }

  predicate ClosesIn(nodes: Arena, m: Machine, texts: seq<string>, visited: set<nat>, i: nat) {
    i < |texts| && texts[i] != "" && Closes(nodes, m, texts[i]) && LeadByte(texts[i][0]) in visited
  }

  lemma ClosesMore(nodes: Arena, m: Machine, texts: seq<string>, visited: set<nat>, b: nat)
    ensures forall i: nat :: ClosesIn(nodes, m, texts, visited + {b}, i) <==>
      ClosesIn(nodes, m, texts, visited, i) || ClosesIn(nodes, m, texts, {b}, i)
  {
    hide Closes;
  }

  method MarkBucket(nodes: Arena, m: Machine, texts: seq<string>, byFirst: Buckets, b: nat, allowed: array<bool>)
    requires Indexed(texts, byFirst) && b in byFirst
    modifies allowed
    ensures forall i :: 0 <= i < allowed.Length ==> (allowed[i] <==> old(allowed[i]) || ClosesIn(nodes, m, texts, {b}, i))
  {
    hide LeadByte, Push, Viable;
    var ids := byFirst[b];
    assert InBucket(texts, b, ids);
    hide Closes;
    for k := 0 to |ids|
      invariant forall i :: 0 <= i < allowed.Length ==> (allowed[i] <==> old(allowed[i]) || (i in ids[..k] && i < |texts| && Closes(nodes, m, texts[i])))
    {
      var i := ids[k];
      assert i in ids;
      assert ids[..k + 1] == ids[..k] + [i];
      if i < allowed.Length && Closes(nodes, m, texts[i]) {
        allowed[i] := true;
      }
    }
    assert ids[..|ids|] == ids;
  }

  /** Leave only the end-of-turn tokens. */
  method KeepEos(eos: seq<nat>, logits: array<Logit>)
    modifies logits
    ensures forall i :: 0 <= i < logits.Length ==> logits[i] == if i in eos then old(logits[i]) else NegInf
  {
    var kept := logits[..];
    for i := 0 to logits.Length
      invariant forall k :: 0 <= k < i ==> logits[k] == NegInf
      invariant forall k :: i <= k < logits.Length ==> logits[k] == kept[k]
    {
      logits[i] := NegInf;
    }
    for j := 0 to |eos|
      invariant forall k :: 0 <= k < logits.Length ==> logits[k] == if k in eos[..j] then kept[k] else NegInf
    {
      assert eos[..j + 1] == eos[..j] + [eos[j]];
      if eos[j] < logits.Length {
        logits[eos[j]] := kept[eos[j]];
      }
    }
    assert eos[..|eos|] == eos;
  }

  /** Leave only the tokens marked, and never the end of the turn. */
  method KeepMarked(eos: seq<nat>, allowed: array<bool>, logits: array<Logit>)
    requires allowed.Length == logits.Length
    modifies logits
    ensures forall i :: 0 <= i < logits.Length ==> logits[i] == if allowed[i] && i !in eos then old(logits[i]) else NegInf
  {
    for i := 0 to logits.Length
      invariant forall k :: 0 <= k < i ==> logits[k] == if allowed[k] then old(logits[k]) else NegInf
      invariant forall k :: i <= k < logits.Length ==> logits[k] == old(logits[k])
    {
      if !allowed[i] {
        logits[i] := NegInf;
      }
    }
    for j := 0 to |eos|
      invariant forall k :: 0 <= k < logits.Length ==> logits[k] == if allowed[k] && k !in eos[..j] then old(logits[k]) else NegInf
    {
      assert eos[..j + 1] == eos[..j] + [eos[j]];
      if eos[j] < logits.Length {
        logits[eos[j]] := NegInf;
      }
    }
    assert eos[..|eos|] == eos;
  }

  lemma ClosingAtDeadEnd(nodes: Arena, m: Machine, texts: seq<string>, n: nat)
    requires DeadEnd(nodes, m, texts, n)
    ensures forall i :: 0 <= i < n && i < |texts| && texts[i] != "" ==> !Closes(nodes, m, texts[i])
  {
    hide Closes, DeadEnd;
    forall i: nat | i < n && i < |texts| && texts[i] != "" ensures !Closes(nodes, m, texts[i]) {
      ClosingAddsNothing(nodes, m, texts, n, i);
    }
  }

  /** `mask` is the brute-force mask. */
  method Mask(nodes: Arena, m: Machine, texts: seq<string>, byFirst: Buckets, eos: seq<nat>, logits: array<Logit>)
    requires Indexed(texts, byFirst) && Sane(nodes, m)
    modifies logits
    ensures logits[..] == Masked(nodes, m, texts, eos, old(logits[..]))
  {
    hide Allowed, Closes, Sane, Complete, Indexed;
    if Complete(m) {
      KeepEos(eos, logits);
      return;
    }
    var allowed := FindAllowed(nodes, m, texts, byFirst, logits.Length);
    var found := Any(allowed);
    if !found {
      assert DeadEnd(nodes, m, texts, logits.Length);
      ClosingAtDeadEnd(nodes, m, texts, logits.Length);
      MarkClosing(nodes, m, texts, byFirst, allowed);
      found := Any(allowed);
      if !found {
        KeepEos(eos, logits);
        return;
      }
    }
    KeepMarked(eos, allowed, logits);
  }

  // ---------------------------------------------------------------- finishing

  predicate Closer(nodes: Arena, m: Machine, texts: seq<string>, i: nat) {
    i < |texts| && texts[i] != "" && Closes(nodes, m, texts[i])
  }

  predicate NoCloser(nodes: Arena, m: Machine, texts: seq<string>, n: nat) {
    forall i :: 0 <= i < n ==> !Closer(nodes, m, texts, i)
  }

  /** The mask near the end of the budget: the tokens that close something, or the ordinary mask if none does. */
  function Finishing(nodes: Arena, m: Machine, texts: seq<string>, eos: seq<nat>, logits: seq<Logit>): (r: seq<Logit>)
    ensures |r| == |logits|
  {
    if Complete(m) || NoCloser(nodes, m, texts, |logits|) then Masked(nodes, m, texts, eos, logits)
    else
      seq(|logits|, (i: nat) requires i < |logits| => if Closer(nodes, m, texts, i) && i !in eos then logits[i] else NegInf)
  }

  /** `mask_finishing`. */
  method MaskFinishing(nodes: Arena, m: Machine, texts: seq<string>, byFirst: Buckets, eos: seq<nat>, logits: array<Logit>)
    requires Indexed(texts, byFirst) && Sane(nodes, m)
    modifies logits
    ensures logits[..] == Finishing(nodes, m, texts, eos, old(logits[..]))
  {
    hide Closes, Sane, Complete, Indexed, Masked;
    if Complete(m) {
      Mask(nodes, m, texts, byFirst, eos, logits);
      return;
    }
    var allowed := new bool[logits.Length](_ => false);
    assert forall i :: 0 <= i < allowed.Length ==> !allowed[i];
    MarkClosing(nodes, m, texts, byFirst, allowed);
    assert forall i :: 0 <= i < allowed.Length ==> (allowed[i] <==> Closer(nodes, m, texts, i));
    var found := Any(allowed);
    if !found {
      forall i | 0 <= i < logits.Length ensures !Closer(nodes, m, texts, i) {
        assert !allowed[i];
      }
      Mask(nodes, m, texts, byFirst, eos, logits);
      return;
    }
    KeepMarked(eos, allowed, logits);
  }

  /** Whatever it leaves, `mask` would have left too. */
  lemma FinishingWithinMask(nodes: Arena, m: Machine, texts: seq<string>, eos: seq<nat>, logits: seq<Logit>, i: nat)
    requires i < |logits| && Finishing(nodes, m, texts, eos, logits)[i] != NegInf
    ensures Masked(nodes, m, texts, eos, logits)[i] == Finishing(nodes, m, texts, eos, logits)[i] == logits[i]
  {
    if !Complete(m) && !NoCloser(nodes, m, texts, |logits|) {
      hide Push, Viable, Complete;
      assert Closer(nodes, m, texts, i);
      assert Allowed(nodes, m, texts, i);
    }
  }

  // --------------------------------------------------------------------- runs

  /** The sampler can only draw a token whose logit the mask leaves finite. */
  predicate Drawable(nodes: Arena, m: Machine, texts: seq<string>, eos: seq<nat>, logits: seq<Logit>, token: nat) {
    token < |logits| && Masked(nodes, m, texts, eos, logits)[token] != NegInf
  }

  /** One row of logits and one token drawn from it, not the end of the turn, per step. */
  ghost predicate DrawnRun(nodes: Arena, m: Machine, texts: seq<string>, eos: seq<nat>, rows: seq<seq<Logit>>, tokens: seq<nat>)
    decreases |tokens|
  {
    |rows| == |tokens|
    && (tokens == []
        || (Drawable(nodes, m, texts, eos, rows[0], tokens[0]) && tokens[0] !in eos
            && (tokens[0] < |texts| && Push(nodes, m, texts[tokens[0]]).Some? ==>
                  DrawnRun(nodes, Push(nodes, m, texts[tokens[0]]).value, texts, eos, rows[1..], tokens[1..]))))
  }

  function Spoken(texts: seq<string>, tokens: seq<nat>): string
    decreases |tokens|
  {
    if tokens == [] then "" else (if tokens[0] < |texts| then texts[tokens[0]] else "") + Spoken(texts, tokens[1..])
  }

  lemma DrawnAllowed(nodes: Arena, m: Machine, texts: seq<string>, eos: seq<nat>, logits: seq<Logit>, token: nat)
    requires Drawable(nodes, m, texts, eos, logits, token) && token !in eos
    ensures Allowed(nodes, m, texts, token) && !Complete(m)
  {
    hide Allowed, Complete;
  }

  /** Any run of unmasked tokens keeps an accepted, viable document; it ends only at the end of the turn. */
  lemma {:induction false} RunStaysViable(nodes: Arena, m: Machine, texts: seq<string>, eos: seq<nat>, rows: seq<seq<Logit>>, tokens: seq<nat>)
    requires Sane(nodes, m) && Viable(nodes, m) && DrawnRun(nodes, m, texts, eos, rows, tokens)
    ensures Push(nodes, m, Spoken(texts, tokens)).Some? && Viable(nodes, Push(nodes, m, Spoken(texts, tokens)).value)
    decreases |tokens|
  {
    hide Sane, Viable, Masked;
    if tokens != [] {
      DrawnAllowed(nodes, m, texts, eos, rows[0], tokens[0]);
      var text := texts[tokens[0]];
      PushSane(nodes, m, text);
      var x := Push(nodes, m, text).value;
      RunStaysViable(nodes, x, texts, eos, rows[1..], tokens[1..]);
      PushConcat(nodes, m, text, Spoken(texts, tokens[1..]));
    }
  }
}
