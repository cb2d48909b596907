/** What several modules share. */
module Common {

  datatype Option<T> = None | Some(value: T)

  /** The range of 64-bit integers. */
  const I64_MAX := 0x7fff_ffff_ffff_ffff
  const I64_MIN := -0x8000_0000_0000_0000
  const TWO_64 := 0x1_0000_0000_0000_0000

  /** A sum of 64-bit integers in a build whose arithmetic wraps. */
  function Wrapped(x: int): (r: int)
    ensures I64_MIN <= r <= I64_MAX && (r - x) % TWO_64 == 0
    ensures I64_MIN <= x <= I64_MAX ==> r == x
  {
    (x - I64_MIN) % TWO_64 + I64_MIN
  }

  lemma Regroup<T>(a: seq<T>, b: seq<T>, c: seq<T>)
    ensures a + (b + c) == (a + b) + c
  {
  }
}
