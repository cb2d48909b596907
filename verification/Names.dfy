/** The names that the builder mints. */
module Names {

  const DIGITS := "0123456789"

  /** Decimal digits, most significant first. */
  function Decimal(n: nat): (r: string)
    ensures |r| >= 1
  {
    if n < 10 then [DIGITS[n]] else Decimal(n / 10) + [DIGITS[n % 10]]
  }

  function Zeros(k: nat): (r: string)
    ensures |r| == k
  {
    if k == 0 then "" else "0" + Zeros(k - 1)
  }

  /** Zero-padded to ten digits. */
  function Padded(n: nat): string {
    var d := Decimal(n);
    if |d| < 10 then Zeros(10 - |d|) + d else d
  }

  function Name(prefix: string, index: nat): string {
    prefix + Padded(index)
  }

  class Builder {
    var index: nat
    /** The prefix of every name minted so far. */
    ghost var prefixes: seq<string>

    constructor ()
      ensures Valid() && index == 0
    {
      index, prefixes := 0, [];
    }

    ghost predicate Valid()
      reads this
    {
      index == |prefixes| && forall i :: 0 <= i < |prefixes| ==> Dashed(prefixes[i])
    }

    method NewProcessorName(prefix: string) returns (name: string)
      requires Valid() && Dashed(prefix)
      modifies this
      ensures Valid() && prefixes == old(prefixes) + [prefix]
      ensures name == Name(prefix, |old(prefixes)|)
      ensures forall i :: 0 <= i < |old(prefixes)| ==> name != Name(old(prefixes)[i], i)
    {
      name := Name(prefix, index);
      forall i | 0 <= i < |prefixes|
        ensures name != Name(prefixes[i], i)
      {
        NamesAreDistinct(prefix, index, prefixes[i], i);
      }
      index := index + 1;
      prefixes := prefixes + [prefix];
    }
  }

  // ---- reading a name back ----

  predicate Dashed(prefix: string) {
    prefix != "" && prefix[|prefix| - 1] == '-'
  }

  predicate Digit(c: char) {
    '0' <= c <= '9'
  }

  function DigitValue(c: char): nat {
    if Digit(c) then c as int - '0' as int else 0
  }

  /** The number that digits write. */
  function Number(s: string): nat {
    if s == "" then 0 else 10 * Number(s[..|s| - 1]) + DigitValue(s[|s| - 1])
  }

  lemma DigitOf(d: nat)
    requires d < 10
    ensures Digit(DIGITS[d]) && DigitValue(DIGITS[d]) == d
  {
  }

  lemma {:induction false} DecimalIsNumber(n: nat)
    ensures Number(Decimal(n)) == n
    ensures forall i :: 0 <= i < |Decimal(n)| ==> Digit(Decimal(n)[i])
    decreases n
  {
    DigitOf(n % 10);
    if n < 10 {
      assert Decimal(n)[..0] == "";
    } else {
      DecimalIsNumber(n / 10);
      assert Decimal(n)[..|Decimal(n)| - 1] == Decimal(n / 10);
    }
  }

  lemma {:induction false} ZerosAddNothing(k: nat, s: string)
    ensures Number(Zeros(k) + s) == Number(s)
    ensures forall i :: 0 <= i < k ==> Zeros(k)[i] == '0'
    decreases k, |s|
  {
    if s != "" {
      ZerosAddNothing(k, s[..|s| - 1]);
      assert (Zeros(k) + s)[..k + |s| - 1] == Zeros(k) + s[..|s| - 1];
    } else if k > 0 {
      assert Zeros(k) + s == "0" + Zeros(k - 1);
      LastZero(k);
      ZerosAddNothing(k - 1, "");
      assert (Zeros(k) + s)[..k - 1] == Zeros(k - 1) + "";
    }
  }

  lemma {:induction false} LastZero(k: nat)
    requires k > 0
    ensures Zeros(k) == Zeros(k - 1) + "0"
    decreases k
  {
    if k > 1 {
      LastZero(k - 1);
    }
  }

  lemma PaddedIsNumber(n: nat)
    ensures Number(Padded(n)) == n
    ensures forall i :: 0 <= i < |Padded(n)| ==> Digit(Padded(n)[i])
  {
    DecimalIsNumber(n);
    if |Decimal(n)| < 10 {
      ZerosAddNothing(10 - |Decimal(n)|, Decimal(n));
    }
  }

  /** A dashed prefix and the index can both be read off the name. */
  lemma NamesAreDistinct(p: string, i: nat, q: string, j: nat)
    requires Dashed(p) && Dashed(q)
    ensures Name(p, i) == Name(q, j) <==> p == q && i == j
  {
    PaddedIsNumber(i);
    PaddedIsNumber(j);
    if Name(p, i) == Name(q, j) {
      SamePrefix(p, Padded(i), q, Padded(j));
    }
  }

  lemma SamePrefix(p: string, a: string, q: string, b: string)
    requires Dashed(p) && Dashed(q) && p + a == q + b
    requires (forall i :: 0 <= i < |a| ==> Digit(a[i])) && (forall i :: 0 <= i < |b| ==> Digit(b[i]))
    ensures p == q && a == b
  {
    var s := p + a;
    assert s[|p| - 1] == '-' && s[|q| - 1] == '-';
    assert forall i :: |p| <= i < |s| ==> s[i] == a[i - |p|];
    assert forall i :: |q| <= i < |s| ==> s[i] == b[i - |q|];
    assert |p| == |q|;
    assert p == s[..|p|] && q == s[..|q|] && a == s[|p|..] && b == s[|q|..];
  }

  function Ten(k: nat): (r: nat)
    ensures r >= 1
  {
    if k == 0 then 1 else 10 * Ten(k - 1)
  }

  lemma {:induction false} DecimalOfTen(k: nat)
    ensures Decimal(Ten(k)) == "1" + Zeros(k)
    decreases k
  {
    if k > 0 {
      DecimalOfTen(k - 1);
      LastZero(k);
      assert Ten(k) / 10 == Ten(k - 1) && Ten(k) % 10 == 0;
      assert ("1" + Zeros(k - 1)) + "0" == "1" + Zeros(k);
    }
  }

  /** Without the dash, two prefixes can mint one name, when the index outgrows its ten digits. */
  lemma UndashedCollide(p: string)
    ensures Name(p, Ten(10)) == Name(p + "1", 0)
  {
    DecimalOfTen(10);
    LastZero(10);
    assert Decimal(0) == "0";
    assert Padded(Ten(10)) == "1" + Zeros(10) && Padded(0) == Zeros(10);
    assert p + ("1" + Zeros(10)) == (p + "1") + Zeros(10);
  }
}
