/** Bytes, big-endian signed integers and UTF-8 strings. */
module Bytes {

  type Byte = b: int | 0 <= b < 256

  /** 256 to the power `w`: the number of values `w` bytes tell apart. */
  function Span(w: nat): (r: int)
    ensures r >= 1
  {
    if w == 0 then 1 else 256 * Span(w - 1)
  }

  lemma Spans()
    ensures Span(1) == 0x100 && Span(2) == 0x1_0000 && Span(4) == 0x1_0000_0000
    ensures Span(8) == 0x1_0000_0000_0000_0000
  {
    assert Span(3) == 0x100_0000 && Span(4) == 0x1_0000_0000;
    assert Span(6) == 0x1_0000_0000_0000 && Span(8) == 256 * (256 * Span(6));
  }

  /** `x` fits a signed integer of `w` bytes. */
  predicate Fits(x: int, w: nat) {
    -Span(w) <= 2 * x < Span(w)
  }

  function Unsigned(n: int, w: nat): (r: seq<Byte>)
    requires 0 <= n < Span(w)
    ensures |r| == w
  {
    if w == 0 then [] else Unsigned(n / 256, w - 1) + [n % 256]
  }

  function Value(b: seq<Byte>): (n: int)
    ensures 0 <= n < Span(|b|)
  {
    if b == [] then 0 else 256 * Value(b[..|b| - 1]) + b[|b| - 1]
  }

  /** Two's complement, big-endian. */
  function Put(x: int, w: nat): (r: seq<Byte>)
    requires Fits(x, w)
    ensures |r| == w
  {
    Unsigned(if x < 0 then x + Span(w) else x, w)
  }

  function Get(b: seq<Byte>): (x: int)
    ensures Fits(x, |b|)
  {
    var n := Value(b);
    if 2 * n < Span(|b|) then n else n - Span(|b|)
  }

  lemma {:induction false} ValueOfUnsigned(n: int, w: nat)
    requires 0 <= n < Span(w)
    ensures Value(Unsigned(n, w)) == n
  {
    if w > 0 {
      ValueOfUnsigned(n / 256, w - 1);
      assert Unsigned(n, w)[..w - 1] == Unsigned(n / 256, w - 1);
    }
  }

  lemma {:induction false} UnsignedOfValue(b: seq<Byte>)
    ensures Unsigned(Value(b), |b|) == b
  {
    if b != [] {
      var init, last := b[..|b| - 1], b[|b| - 1];
      UnsignedOfValue(init);
      assert Value(b) / 256 == Value(init) && Value(b) % 256 == last;
      assert init + [last] == b;
    }
  }

  /** Reading back what was written, and writing back what was read. */
  lemma GetPut(x: int, w: nat)
    requires Fits(x, w)
    ensures Get(Put(x, w)) == x
  {
    ValueOfUnsigned(if x < 0 then x + Span(w) else x, w);
  }

  lemma PutGet(b: seq<Byte>)
    ensures Put(Get(b), |b|) == b
  {
    UnsignedOfValue(b);
  }

  // ---- the digits of a number ----

  /** Byte `i` of a number is its digit of that weight in base 256, the greatest first; a negative
      number is written as its complement. */
  lemma {:induction false} DigitOf(n: int, w: nat, i: nat)
    requires 0 <= n < Span(w) && i < w
    ensures Unsigned(n, w)[i] == n / Span(w - 1 - i) % 256
    decreases w
  {
    if i == w - 1 {
      assert Span(0) == 1;
    } else {
      DigitOf(n / 256, w - 1, i);
      DividedBy256(n, Span(w - 2 - i));
    }
  }

  lemma DividedBy256(n: int, s: int)
    requires n >= 0 && s >= 1
    ensures n / 256 / s == n / (256 * s)
  {
    var q, r := n / (256 * s), n % (256 * s);
    assert n == 256 * (q * s) + r;
    assert 0 <= r / 256 < s;
    assert n / 256 == q * s + r / 256;
    QuotientIs(n / 256, s, q, r / 256);
  }

  lemma QuotientIs(n: int, s: int, q: int, r: int)
    requires s >= 1 && n == q * s + r && 0 <= r < s
    ensures n / s == q
  {
    OneQuotient(s, q, r, n / s, n % s);
  }

  lemma OneQuotient(s: int, q: int, r: int, q': int, r': int)
    requires q * s + r == q' * s + r' && 0 <= r < s && 0 <= r' < s
    ensures q == q'
  {
    var d := q' - q;
    assert d * s == r - r';
    assert d >= 1 ==> d * s >= s;
    assert d <= -1 ==> -d * s >= s;
  }

  lemma NumberBytes(x: int, w: nat, i: nat)
    requires Fits(x, w) && i < w
    ensures Put(x, w)[i] == (if x < 0 then x + Span(w) else x) / Span(w - 1 - i) % 256
  {
    DigitOf(if x < 0 then x + Span(w) else x, w, i);
  }

  // ---- text ----

  predicate Continuation(b: Byte) {
    0x80 <= b < 0xC0
  }

  /** Well-formed UTF-8 (table 3-7 of the Unicode Standard). */
  predicate Utf8(s: seq<Byte>) {
    if |s| == 0 then true
    else if s[0] < 0x80 then Utf8(s[1..])
    else if 0xC2 <= s[0] < 0xE0 then |s| >= 2 && Continuation(s[1]) && Utf8(s[2..])
    else if 0xE0 <= s[0] < 0xF0 then
      && |s| >= 3 && Continuation(s[1]) && Continuation(s[2])
      && (s[0] == 0xE0 ==> s[1] >= 0xA0) && (s[0] == 0xED ==> s[1] < 0xA0)
      && Utf8(s[3..])
    else if 0xF0 <= s[0] < 0xF5 then
      && |s| >= 4 && Continuation(s[1]) && Continuation(s[2]) && Continuation(s[3])
      && (s[0] == 0xF0 ==> s[1] >= 0x90) && (s[0] == 0xF4 ==> s[1] < 0x90)
      && Utf8(s[4..])
    else false
  }

  /** A string is its UTF-8 bytes. */
  type Str = s: seq<Byte> | Utf8(s)
}
