/** The windows that a timestamp falls into. */
module Windows {
  import opened Common

  // ---- multiples of the advance ----

  predicate Multiple(advance: int, s: int)
    requires advance > 0
  {
    s % advance == 0
  }

  /** The greatest multiple that is not above `t`. */
  function Floor(advance: int, t: int): int
    requires advance > 0
  {
    t / advance * advance
  }

  lemma {:induction false} Scaled(k: int, k': int, advance: int)
    requires advance > 0 && k < k'
    ensures k * advance + advance <= k' * advance
    decreases k' - k
  {
    assert (k' - 1) * advance + advance == k' * advance;
    if k < k' - 1 {
      Scaled(k, k' - 1, advance);
    }
  }

  lemma NextMultiple(advance: int, s: int, s': int)
    requires advance > 0 && Multiple(advance, s) && Multiple(advance, s') && s < s'
    ensures s + advance <= s'
  {
    var k, k' := s / advance, s' / advance;
    assert s == k * advance && s' == k' * advance;
    if k' < k {
      Scaled(k', k, advance);
    } else if k < k' {
      Scaled(k, k', advance);
    }
  }

  lemma MultipleOf(k: int, advance: int)
    requires advance > 0
    ensures Multiple(advance, k * advance)
  {
    var q := k * advance / advance;
    if k < q {
      Scaled(k, q, advance);
    } else if q < k {
      Scaled(q, k, advance);
    }
  }

  lemma FloorIsMultiple(advance: int, t: int)
    requires advance > 0
    ensures Multiple(advance, Floor(advance, t)) && Floor(advance, t) <= t < Floor(advance, t) + advance
    ensures t >= 0 ==> Floor(advance, t) >= 0
  {
    MultipleOf(t / advance, advance);
    if t >= 0 {
      assert t / advance >= 0;
    }
  }

  lemma FloorIs(advance: int, t: int, s: int)
    requires advance > 0 && Multiple(advance, s) && s <= t < s + advance
    ensures Floor(advance, t) == s
  {
    var last := Floor(advance, t);
    FloorIsMultiple(advance, t);
    if last < s {
      NextMultiple(advance, last, s);
    } else if s < last {
      NextMultiple(advance, s, last);
    }
  }

  lemma StepIsMultiple(advance: int, s: int)
    requires advance > 0 && Multiple(advance, s)
    ensures Multiple(advance, s + advance) && Multiple(advance, s - advance)
  {
    var k := s / advance;
    assert s == k * advance;
    MultipleOf(k + 1, advance);
    MultipleOf(k - 1, advance);
    assert (k + 1) * advance == s + advance && (k - 1) * advance == s - advance;
  }

  // ---- the windows that hold an instant ----

  /** The start of a window that holds `t`. */
  predicate Holds(size: int, advance: int, t: int, s: int)
    requires advance > 0
  {
    s >= 0 && Multiple(advance, s) && s <= t < s + size
  }

  ghost predicate Rising(s: seq<int>) {
    forall i, j :: 0 <= i < j < |s| ==> s[i] < s[j]
  }

  /** Some sum leaves the range of 64-bit integers. */
  predicate Overflows(size: int, advance: int, t: int)
    requires advance > 0
  {
    t - size < I64_MIN || (t >= 0 && Floor(advance, t) + advance > I64_MAX)
  }

  function First(size: int, advance: int, t: int): int
    requires advance > 0
  {
    Floor(advance, if t - size + advance < 0 then 0 else t - size + advance)
  }

  lemma FirstIsFirst(size: int, advance: int, t: int, s: int)
    requires 0 < advance <= size && s >= 0 && Multiple(advance, s)
    ensures var first := First(size, advance, t);
      first >= 0 && Multiple(advance, first) && (s > t - size <==> s >= first) && (t >= 0 ==> first <= t)
  {
    var x := if t - size + advance < 0 then 0 else t - size + advance;
    var first := Floor(advance, x);
    FloorIsMultiple(advance, x);
    if s < first {
      NextMultiple(advance, s, first);
    } else if first < s {
      NextMultiple(advance, first, s);
    }
  }

  /** `out` lists the multiples of the advance from `first` up to `start`. */
  ghost predicate Lists(out: seq<int>, advance: int, first: int, start: int)
    requires advance > 0
  {
    && Rising(out)
    && (forall i :: 0 <= i < |out| ==> Listed(advance, first, start, out[i]))
    && (forall s :: Listed(advance, first, start, s) ==> s in out)
  }

  ghost predicate Listed(advance: int, first: int, start: int, s: int)
    requires advance > 0
  {
    Multiple(advance, s) && first <= s < start
  }

  lemma ListedMore(advance: int, first: int, start: int, s: int)
    requires advance > 0 && first <= start && Multiple(advance, start)
    ensures Listed(advance, first, start + advance, s) <==> Listed(advance, first, start, s) || s == start
  {
    if Multiple(advance, s) && start < s {
      NextMultiple(advance, start, s);
    }
  }

  lemma ListsMore(out: seq<int>, advance: int, first: int, start: int)
    requires advance > 0 && Lists(out, advance, first, start) && first <= start && Multiple(advance, start)
    ensures Lists(out + [start], advance, first, start + advance)
  {
    var end := start + advance;
    forall s
      ensures Listed(advance, first, end, s) <==> Listed(advance, first, start, s) || s == start
    {
      ListedMore(advance, first, start, s);
    }
  }

  /** The multiples of the advance from `first` to `t`, or none when a sum overflows. */
  method Collect(advance: int, first: int, t: int) returns (r: Option<seq<int>>)
    requires advance > 0 && Multiple(advance, first) && t <= I64_MAX
    ensures r.None? <==> first <= t && Floor(advance, t) + advance > I64_MAX
    ensures r.Some? ==> Lists(r.value, advance, first, t + 1)
  {
    var start, out := first, [];
    while start <= t
      invariant Multiple(advance, start) && start >= first
      invariant start > first ==> start - advance <= t && start <= I64_MAX
      invariant Lists(out, advance, first, start)
      decreases t - start
    {
      if start + advance > I64_MAX {
        FloorIs(advance, t, start);
        return None;
      }
      ListsMore(out, advance, first, start);
      StepIsMultiple(advance, start);
      out, start := out + [start], start + advance;
    }
    if start > first {
      StepIsMultiple(advance, start);
      FloorIs(advance, t, start - advance);
    }
    ListsTo(out, advance, first, start, t);
    r := Some(out);
  }

  lemma ListsTo(out: seq<int>, advance: int, first: int, start: int, t: int)
    requires advance > 0 && Lists(out, advance, first, start) && Multiple(advance, start) && t < start
    requires start > first ==> start - advance <= t
    ensures Lists(out, advance, first, t + 1)
  {
    var end := t + 1;
    forall s
      ensures Listed(advance, first, start, s) <==> Listed(advance, first, end, s)
    {
      if Multiple(advance, s) && t < s < start {
        NextMultiple(advance, s, start);
      }
    }
  }

  /** The starts of the windows that hold a timestamp, or none when a sum overflows. */
  method WindowsFor(size: int, advance: int, t: int) returns (r: Option<seq<int>>)
    requires 0 < advance <= size <= I64_MAX && I64_MIN <= t <= I64_MAX
    ensures r.None? <==> Overflows(size, advance, t)
    ensures r.Some? ==> Rising(r.value) && forall s :: s in r.value <==> Holds(size, advance, t, s)
  {
    if t - size < I64_MIN {
      return None;
    }
    var first := First(size, advance, t);
    FirstIsFirst(size, advance, t, 0);
    r := Collect(advance, first, t);
    if r.Some? {
      forall s
        ensures s in r.value <==> Holds(size, advance, t, s)
      {
        ListedHolds(size, advance, t, s);
      }
    }
  }

  lemma ListedHolds(size: int, advance: int, t: int, s: int)
    requires 0 < advance <= size
    ensures Listed(advance, First(size, advance, t), t + 1, s) <==> Holds(size, advance, t, s)
  {
    FirstIsFirst(size, advance, t, 0);
    if s >= 0 && Multiple(advance, s) {
      FirstIsFirst(size, advance, t, s);
    }
  }

  /** Up to one advance below the greatest integer, no sum overflows. */
  lemma InRange(size: int, advance: int, t: int)
    requires 0 < advance <= size <= I64_MAX && 0 <= t <= I64_MAX - advance
    ensures !Overflows(size, advance, t)
  {
    FloorIsMultiple(advance, t);
  }

  /** A tumbling window: every instant from zero on is in exactly one window. */
  lemma TumblingIsOne(size: int, t: int, r: seq<int>)
    requires 0 < size && t >= 0 && Rising(r) && forall s :: s in r <==> Holds(size, size, t, s)
    ensures r == [Floor(size, t)]
  {
    assert |r| > 1 ==> r[0] < r[1];
    var s := Floor(size, t);
    FloorIsMultiple(size, t);
    assert Holds(size, size, t, s) && s in r;
    forall i | 0 <= i < |r|
      ensures r[i] == s
    {
      assert r[i] in r;
      FloorIs(size, t, r[i]);
    }
  }
}
