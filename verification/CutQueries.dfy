/** Queries over the cached cuts of one barrier group. */
module CutQueries {
  import opened Common
  import opened BarrierLayout

  type Epochs = map<int, Cut>

  /** Every cut is under its own epoch, a 64-bit integer. */
  ghost predicate Keyed(m: Epochs) {
    forall e :: e in m ==> m[e].epoch == e && I64_MIN <= e <= I64_MAX
  }

  lemma Member<T>(s: set<T>) returns (x: T)
    requires s != {}
    ensures x in s
  {
    x :| x in s;
  }

  lemma {:induction false} HasLeast(s: set<int>)
    requires s != {}
    ensures exists x :: x in s && forall y :: y in s ==> x <= y
    decreases |s|
  {
    var x := Member(s);
    if s - {x} == {} {
      assert s == {x};
    } else {
      HasLeast(s - {x});
      var z :| z in s - {x} && forall y :: y in s - {x} ==> z <= y;
      var least := if x < z then x else z;
      assert least in s && forall y :: y in s ==> least <= y by {
        forall y | y in s
          ensures least <= y
        {
          assert y == x || y in s - {x};
        }
      }
    }
  }

  lemma HasGreatest(s: set<int>)
    requires s != {}
    ensures exists x :: x in s && forall y :: y in s ==> y <= x
  {
    var t := set x | x in s :: -x;
    var e := Member(s);
    assert -e in t;
    HasLeast(t);
    var z :| z in t && forall y :: y in t ==> z <= y;
    assert -z in s && forall y :: y in s ==> y <= -z by {
      forall y | y in s
        ensures y <= -z
      {
        assert -y in t;
      }
    }
  }

  /** The cut with the highest epoch. */
  method Newest(m: Epochs) returns (r: Option<Cut>)
    requires Keyed(m)
    ensures r.None? <==> m == map[]
    ensures r.Some? ==> r.value.epoch in m && m[r.value.epoch] == r.value && forall e :: e in m ==> e <= r.value.epoch
  {
    if m == map[] {
      return None;
    }
    HasGreatest(m.Keys);
    var e :| e in m && forall y :: y in m ==> y <= e;
    r := Some(m[e]);
  }

  /** The successor of a 64-bit integer, which wraps around. */
  function Successor(bound: int): int {
    if bound == I64_MAX then I64_MIN else bound + 1
  }

  ghost predicate Oldest(r: seq<Cut>) {
    forall i, j :: 0 <= i < j < |r| ==> r[i].epoch < r[j].epoch
  }

  /** The cuts from the bound's successor on, oldest first. */
  method NewerThan(m: Epochs, bound: int) returns (r: seq<Cut>)
    requires Keyed(m)
    ensures Oldest(r)
    ensures forall c: Cut :: c in r <==> c.epoch in m && m[c.epoch] == c && c.epoch >= Successor(bound)
  {
    r := [];
    var left := set e | e in m && e >= Successor(bound);
    ghost var all := left;
    while left != {}
      invariant left <= all && Oldest(r)
      invariant forall i, e :: 0 <= i < |r| && e in left ==> r[i].epoch < e
      invariant forall c: Cut :: c in r <==> c.epoch in all - left && m[c.epoch] == c
      decreases |left|
    {
      HasLeast(left);
      var e :| e in left && forall y :: y in left ==> e <= y;
      r := r + [m[e]];
      left := left - {e};
    }
  }

  /** The wrap-around shows for the greatest bound only: then everything is listed although nothing
      is newer, so what is listed is what is newer unless the bound is greatest and something held. */
  lemma ListsTheNewer(m: Epochs, bound: int)
    requires Keyed(m) && I64_MIN <= bound <= I64_MAX
    ensures (forall e :: e in m ==> (e >= Successor(bound) <==> e > bound)) <==> bound < I64_MAX || m == map[]
  {
    if m != map[] {
      var e := Member(m.Keys);
    }
  }
}
