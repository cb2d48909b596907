/** The zigzag varint that carries a length. */
module Varint {
  import opened Common
  import opened Bytes

  const TWO_63 := 0x8000_0000_0000_0000

  datatype Read = Length(n: nat, consumed: nat) | Overflow | Truncated

  // ---- what is written ----

  /** Base 128, least significant group first, with the top bit set on all bytes but the last. */
  function Groups(v: nat): (r: seq<Byte>)
    ensures r != []
  {
    if v < 0x80 then [v] else [v % 0x80 + 0x80] + Groups(v / 0x80)
  }

  /** Shifting left by one drops the top bit of a 64-bit word. */
  function Zigzag(n: int): nat
    requires 0 <= n < TWO_64
  {
    2 * n % TWO_64
  }

  function Unzigzag(v: nat): nat
    requires v < TWO_64
  {
    if v % 2 == 0 then v / 2 else TWO_64 - 1 - v / 2
  }

  method WriteVarint(n: int, buffer: seq<Byte>) returns (out: seq<Byte>)
    requires 0 <= n < TWO_64
    ensures out == buffer + Groups(Zigzag(n))
  {
    out := buffer;
    var v := 2 * n % TWO_64;
    while v >= 0x80
      invariant v >= 0 && out + Groups(v) == buffer + Groups(Zigzag(n))
    {
      assert out + Groups(v) == (out + [v % 0x80 + 0x80]) + Groups(v / 0x80);
      out := out + [v % 0x80 + 0x80];
      v := v / 0x80;
    }
    out := out + [v];
  }

  // ---- what is read ----

  function Power(shift: nat): (r: nat)
    ensures r >= 1
  {
    if shift == 0 then 1 else 2 * Power(shift - 1)
  }

  /** Setting the seven bits of a group at `shift`, where the bits below are all that is set. */
  function Place(value: nat, group: nat, shift: nat): nat {
    value + group * Power(shift) % TWO_64
  }

  /** Reads on with the groups so far in the low `shift` bits of `value`. */
  function Scan(bytes: seq<Byte>, value: nat, shift: nat, consumed: nat): (r: Read)
    ensures r.Length? ==> consumed < r.consumed <= consumed + |bytes|
    ensures r.Length? ==> 7 * (r.consumed - consumed) + shift < 64 + 7
    decreases |bytes|
  {
    if bytes == [] then Truncated
    else
      var value' := Place(value, bytes[0] % 0x80, shift);
      if bytes[0] < 0x80 then
        if shift < 64 then Length(Unzigzag(value' % TWO_64), consumed + 1) else Overflow
      else if shift + 7 >= 64 then Overflow
      else Scan(bytes[1..], value', shift + 7, consumed + 1)
  }

  method ReadVarint(bytes: seq<Byte>) returns (r: Read)
    ensures r == Scan(bytes, 0, 0, 0)
  {
    var value: nat, shift: nat, consumed: nat := 0, 0, 0;
    while consumed < |bytes|
      invariant consumed <= |bytes| && shift < 64
      invariant Scan(bytes[consumed..], value, shift, consumed) == Scan(bytes, 0, 0, 0)
    {
      var b := bytes[consumed];
      assert bytes[consumed..][0] == b && bytes[consumed..][1..] == bytes[consumed + 1..];
      consumed := consumed + 1;
      value := Place(value, b % 0x80, shift);
      shift := shift + 7;
      if b < 0x80 {
        return Length(Unzigzag(value % TWO_64), consumed);
      }
      if shift >= 64 {
        return Overflow;
      }
    }
    r := Truncated;
  }

  // ---- the bytes of a length ----

  /** The number that seven bits of every byte make up, least significant first. */
  ghost function Weighed(bytes: seq<Byte>, shift: nat): int {
    if bytes == [] then 0 else bytes[0] % 0x80 * Power(shift) + Weighed(bytes[1..], shift + 7)
  }

  /** The shortest bytes that make up a number, where all but the last have the top bit set. */
  ghost predicate Encodes(bytes: seq<Byte>, v: int) {
    && bytes != [] && Weighed(bytes, 0) == v
    && (forall i :: 0 <= i < |bytes| - 1 ==> bytes[i] >= 0x80)
    && bytes[|bytes| - 1] < 0x80 && (|bytes| > 1 ==> bytes[|bytes| - 1] > 0)
  }

  lemma WeighedMore(low: nat, high: seq<Byte>, shift: nat)
    requires low < 0x80
    ensures Weighed([low + 0x80] + high, shift) == low * Power(shift) + Weighed(high, shift + 7)
  {
    assert ([low + 0x80] + high)[1..] == high && (low + 0x80) % 0x80 == low;
  }

  lemma {:induction false} GroupsWeigh(v: nat, shift: nat)
    ensures Weighed(Groups(v), shift) == v * Power(shift)
    decreases v
  {
    if v >= 0x80 {
      var low, high := v % 0x80, v / 0x80;
      GroupsWeigh(high, shift + 7);
      PowerSteps(shift);
      SplitGroup(v, low, high, Power(shift));
      WeighedMore(low, Groups(high), shift);
    } else {
      assert v % 0x80 == v && Groups(v)[1..] == [];
    }
  }

  lemma {:induction false} GroupsEnd(v: nat)
    ensures var g := Groups(v);
      && (forall i :: 0 <= i < |g| - 1 ==> g[i] >= 0x80)
      && g[|g| - 1] < 0x80 && (|g| > 1 || v > 0 ==> g[|g| - 1] > 0)
    decreases v
  {
    if v >= 0x80 {
      GroupsEnd(v / 0x80);
    }
  }

  lemma {:induction false} GroupsEncode(v: nat)
    ensures Encodes(Groups(v), v)
  {
    GroupsWeigh(v, 0);
    GroupsEnd(v);
  }

  /** A length is written as its double. */
  lemma {:induction false} LengthBytes(n: int)
    requires 0 <= n < TWO_63
    ensures Encodes(Groups(Zigzag(n)), 2 * n)
  {
    var v := Zigzag(n);
    assert v == 2 * n;
    GroupsEncode(v);
  }

  // ---- the round trip ----

  lemma PowerSteps(shift: nat)
    ensures Power(shift + 7) == 0x80 * Power(shift)
  {
    assert Power(shift + 4) == 16 * Power(shift) by {
      assert Power(shift + 2) == 4 * Power(shift);
    }
    assert Power(shift + 6) == 64 * Power(shift);
  }

  lemma PowerGrows(shift: nat, shift': nat)
    requires shift <= shift'
    ensures Power(shift) <= Power(shift')
    decreases shift' - shift
  {
    if shift < shift' {
      PowerGrows(shift, shift' - 1);
    }
  }

  lemma PowerOf64()
    ensures Power(64) == TWO_64
  {
    PowerSteps(0);
    PowerSteps(7);
    PowerSteps(14);
    PowerSteps(21);
    PowerSteps(28);
    PowerSteps(35);
    PowerSteps(42);
    PowerSteps(49);
    PowerSteps(56);
    assert Power(63) == TWO_63;
  }

  lemma ScanOn(bytes: seq<Byte>, value: nat, shift: nat, consumed: nat, value': nat)
    requires bytes != [] && bytes[0] >= 0x80 && shift + 7 < 64 && value' == Place(value, bytes[0] - 0x80, shift)
    ensures Scan(bytes, value, shift, consumed) == Scan(bytes[1..], value', shift + 7, consumed + 1)
  {
    assert bytes[0] % 0x80 == bytes[0] - 0x80;
  }

  lemma ScanLast(bytes: seq<Byte>, value: nat, shift: nat, consumed: nat, value': nat)
    requires bytes != [] && bytes[0] < 0x80 && shift < 64 && value' == Place(value, bytes[0], shift) && value' < TWO_64
    ensures Scan(bytes, value, shift, consumed) == Length(Unzigzag(value'), consumed + 1)
  {
    assert bytes[0] % 0x80 == bytes[0] && value' % TWO_64 == value';
  }

  lemma PlaceFits(value: nat, group: nat, shift: nat, p: nat)
    requires p == Power(shift) && group * p < TWO_64
    ensures Place(value, group, shift) == value + group * p
  {
  }

  /** What one group adds, and that the rest still fits. */
  lemma NextGroup(v: nat, low: nat, high: nat, value: nat, shift: nat, total: nat) returns (value': nat)
    requires v >= 0x80 && v == 0x80 * high + low && shift < 64 && total == value + v * Power(shift) < TWO_64
    ensures value' == Place(value, low, shift) && shift + 7 < 64 && total == value' + high * Power(shift + 7)
  {
    var p := Power(shift);
    SplitGroup(v, low, high, p);
    PowerSteps(shift);
    FitsBelow64(v, shift, p);
    PlaceFits(value, low, shift, p);
    value' := value + low * p;
  }

  lemma LastGroup(v: nat, value: nat, shift: nat, total: nat)
    requires total == value + v * Power(shift) < TWO_64
    ensures total == Place(value, v, shift)
  {
    PlaceFits(value, v, shift, Power(shift));
  }

  lemma GroupsSplit(v: nat, rest: seq<Byte>)
    requires v >= 0x80
    ensures var bytes := Groups(v) + rest; bytes[0] == v % 0x80 + 0x80 && bytes[1..] == Groups(v / 0x80) + rest
    ensures |Groups(v)| == 1 + |Groups(v / 0x80)|
  {
  }

  lemma {:induction false} ScanGroups(v: nat, rest: seq<Byte>, value: nat, shift: nat, consumed: nat, total: nat)
    requires shift < 64 && total == value + v * Power(shift) < TWO_64
    ensures Scan(Groups(v) + rest, value, shift, consumed) == Length(Unzigzag(total), consumed + |Groups(v)|)
    decreases v
  {
    var bytes := Groups(v) + rest;
    if v >= 0x80 {
      var value' := NextGroup(v, v % 0x80, v / 0x80, value, shift, total);
      GroupsSplit(v, rest);
      ScanOn(bytes, value, shift, consumed, value');
      ScanGroups(v / 0x80, rest, value', shift + 7, consumed + 1, total);
    } else {
      LastGroup(v, value, shift, total);
      ScanLast(bytes, value, shift, consumed, total);
    }
  }

  lemma SplitGroup(v: nat, low: nat, high: nat, p: nat)
    requires v == 0x80 * high + low
    ensures v * p == low * p + high * (0x80 * p) && low * p <= v * p
  {
    assert (0x80 * high + low) * p == high * (0x80 * p) + low * p;
    assert high * (0x80 * p) >= 0;
  }

  lemma Larger(v: nat, w: nat, p: nat)
    requires w <= v
    ensures w * p <= v * p
  {
  }

  lemma PowerBelow(shift: nat)
    requires Power(shift) < TWO_64
    ensures shift < 64
  {
    PowerOf64();
    if shift >= 64 {
      PowerGrows(64, shift);
      assert false;
    }
  }

  lemma FitsBelow64(v: nat, shift: nat, p: nat)
    requires v >= 0x80 && p == Power(shift) && v * p < TWO_64
    ensures shift + 7 < 64
  {
    PowerSteps(shift);
    Larger(v, 0x80, p);
    PowerBelow(shift + 7);
  }

  lemma ZigzagBack(n: int)
    requires 0 <= n < TWO_64
    ensures Unzigzag(Zigzag(n)) == n <==> n < TWO_63
  {
  }

  /** A length is read back, with the number of bytes it took, exactly when it is below 2^63. */
  lemma ReadsBack(n: int, rest: seq<Byte>)
    requires 0 <= n < TWO_64
    ensures var bytes := Groups(Zigzag(n));
      Scan(bytes + rest, 0, 0, 0) == Length(n, |bytes|) <==> n < TWO_63
  {
    ScanGroups(Zigzag(n), rest, 0, 0, 0, Zigzag(n));
    ZigzagBack(n);
  }
}
