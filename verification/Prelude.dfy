/** Small definitions shared by every module of the model. */
module Prelude {

  datatype Option<+T> = None | Some(value: T)

  /** A machine word of 32 bits: a token id. */
  type u32 = x: int | 0 <= x < 0x1_0000_0000

  /** One byte. */
  type byte = x: int | 0 <= x < 256

  /** A string, as its UTF-8 bytes; its length fits a 64-bit word. */
  type Text = s: seq<byte> | |s| < 0x1_0000_0000_0000_0000 witness []

  ghost predicate NoDup<T>(s: seq<T>) {
    forall i, j :: 0 <= i < j < |s| ==> s[i] != s[j]
  }

  /** `Vec::retain(|y| y != x)`. */
  function Without<T(==)>(s: seq<T>, x: T): seq<T> {
    if s == [] then []
    else if s[0] == x then Without(s[1..], x)
    else [s[0]] + Without(s[1..], x)
  }

  lemma {:induction false} WithoutMembers<T>(s: seq<T>, x: T)
    ensures forall y :: y in Without(s, x) <==> y in s && y != x
  {
    if s != [] {
      WithoutMembers(s[1..], x);
      assert forall y :: y in s <==> y == s[0] || y in s[1..];
    }
  }

  lemma {:induction false} WithoutNoDup<T>(s: seq<T>, x: T)
    requires NoDup(s)
    ensures NoDup(Without(s, x))
    ensures |Without(s, x)| == if x in s then |s| - 1 else |s|
  {
    if s != [] {
      WithoutNoDup(s[1..], x);
      WithoutMembers(s[1..], x);
      assert x == s[0] ==> x !in s[1..];
      assert s[0] !in s[1..];
    }
  }

  /** Removing something that is not there changes nothing. */
  lemma {:induction false} WithoutAbsent<T>(s: seq<T>, x: T)
    requires x !in s
    ensures Without(s, x) == s
  {
    if s != [] {
      assert s[0] in s;
      assert forall y :: y in s[1..] ==> y in s;
      WithoutAbsent(s[1..], x);
      assert s == [s[0]] + s[1..];
    }
  }

  lemma {:induction false} WithoutConcat<T>(a: seq<T>, b: seq<T>, x: T)
    ensures Without(a + b, x) == Without(a, x) + Without(b, x)
  {
    if a == [] {
      assert a + b == b;
    } else {
      WithoutConcat(a[1..], b, x);
      assert (a + b)[1..] == a[1..] + b;
    }
  }

  lemma NoDupAppend<T>(s: seq<T>, x: T)
    requires NoDup(s) && x !in s
    ensures NoDup(s + [x])
  {}

  lemma NoDupSplit<T>(a: seq<T>, b: seq<T>)
    requires NoDup(a + b)
    ensures NoDup(a) && NoDup(b) && forall x :: x in a ==> x !in b
  {
    var c := a + b;
    assert forall i :: 0 <= i < |a| ==> c[i] == a[i];
    assert forall j :: 0 <= j < |b| ==> c[|a| + j] == b[j];
  }

  lemma NoDupJoin<T>(a: seq<T>, b: seq<T>)
    requires NoDup(a) && NoDup(b) && forall x :: x in a ==> x !in b
    ensures NoDup(a + b)
  {
    var c := a + b;
    forall i, j | 0 <= i < j < |c| ensures c[i] != c[j] {
      if i < |a| <= j {
        assert c[i] in a && c[j] in b;
      }
    }
  }

  /** Division facts, kept apart so that no other proof meets them. */
  lemma MulMono(a: int, b: int, d: int)
    requires a <= b && 0 <= d
    ensures a * d <= b * d
  {
    assert b * d - a * d == (b - a) * d;
  }

  lemma QuotientLe(a: int, b: int, d: int)
    requires d > 0 && a * d < b * d + d
    ensures a <= b
  {
    if a > b {
      MulMono(b + 1, a, d);
    }
  }

  lemma DivMono(a: int, b: int, d: int)
    requires d > 0 && a <= b
    ensures a / d <= b / d
  {
    QuotientLe(a / d, b / d, d);
  }

  lemma DivUnique(q: int, r: int, d: int)
    requires d > 0 && 0 <= r < d
    ensures (q * d + r) / d == q && (q * d + r) % d == r
  {
    var x := q * d + r;
    var q' := x / d;
    assert x == q' * d + x % d;
    QuotientLe(q, q', d);
    QuotientLe(q', q, d);
  }

  lemma DivLess(p: int, n: int, d: int)
    requires d > 0 && 0 <= p < n * d
    ensures 0 <= p / d < n
  {
    var q := p / d;
    assert p == q * d + p % d;
    assert (n - 1) * d + d == n * d;
    QuotientLe(q, n - 1, d);
  }
}
