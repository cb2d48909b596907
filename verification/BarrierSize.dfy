/** A declared count cannot make the reader hold more than the record's own bytes pay for. */
module BarrierSize {
  import opened Bytes
  import opened Parsing
  import opened BarrierLayout

  /** What the parser yields weighs at most the budget and the bytes it consumed. */
  ghost predicate Pays<T>(p: Parser<T>, weight: T -> int, budget: int) {
    forall d: seq<Byte> {:trigger Paid(p, weight, budget, d)} :: Paid(p, weight, budget, d)
  }

  ghost predicate Paid<T>(p: Parser<T>, weight: T -> int, budget: int, d: seq<Byte>) {
    p(d).Ok? ==> weight(p(d).value) + |p(d).rest| <= budget + |d|
  }

  lemma ThenPays<A(!new), B>(p: Parser<A>, w: A -> int, f: A -> Parser<B>, w': B -> int, budget: int)
    requires Pays(p, w, budget) && forall a: A :: Pays(f(a), w', w(a))
    ensures Pays(Then(p, f), w', budget)
  {
    forall d: seq<Byte>
      ensures Paid(Then(p, f), w', budget, d)
    {
      assert Paid(p, w, budget, d);
      if p(d).Ok? {
        assert Pays(f(p(d).value), w', w(p(d).value));
        assert Paid(f(p(d).value), w', w(p(d).value), p(d).rest);
      }
    }
  }

  lemma {:induction false} LoopPays<A(!new)>(n: nat, step: A -> Parser<A>, acc: A, w: A -> int)
    requires forall a: A :: Pays(step(a), w, w(a))
    ensures Pays(Loop(n, step, acc), w, w(acc))
    decreases n
  {
    if n > 0 {
      var f := (a: A) => Loop(n - 1, step, a);
      forall a: A
        ensures Pays(f(a), w, w(a))
      {
        LoopPays(n - 1, step, a, w);
      }
      ThenPays(step(acc), w, f, w, w(acc));
      forall d: seq<Byte>
        ensures Paid(Loop(n, step, acc), w, w(acc), d)
      {
        assert Paid(Then(step(acc), f), w, w(acc), d);
      }
    }
  }

  function Flat<T>(c: int): T -> int {
    (v: T) => c
  }

  lemma IntPays(w: nat, budget: int)
    ensures Pays(Int(w), Flat(budget + w), budget)
  {
  }

  lemma TextPays(budget: int)
    ensures Pays(Text(), Flat(budget + 2), budget)
  {
    IntPays(2, budget);
    forall n: int
      ensures Pays(TextOf(n), Flat(budget + 2), budget + 2)
    {
      if n >= 0 {
        forall b: seq<Byte>
          ensures Pays(Checked(b), Flat(budget + 2), budget + 2)
        {
        }
        ThenPays(Take(n), Flat(budget + 2), Checked, Flat(budget + 2), budget + 2);
      }
    }
    ThenPays(Int(2), Flat(budget + 2), TextOf, Flat(budget + 2), budget);
  }

  lemma CountPays(budget: int)
    ensures Pays(Count(), Flat(budget + 4), budget)
  {
    IntPays(4, budget);
    forall n: int
      ensures Pays(CountOf(n), Flat(budget + 4), budget + 4)
    {
    }
    ThenPays(Int(4), Flat(budget + 4), CountOf, Flat(budget + 4), budget);
  }

  // ---- marker offsets ----

  /** No offset costs more than its twelve bytes. */
  ghost predicate Entrywise(w: map<int, int> -> int) {
    forall m: map<int, int>, p: int, o: int :: Light(w, m, p, o)
  }

  ghost predicate Light(w: map<int, int> -> int, m: map<int, int>, p: int, o: int) {
    w(m[p := o]) <= w(m) + 12
  }

  lemma OffsetPays(w: map<int, int> -> int, m: map<int, int>, p: int)
    requires Entrywise(w)
    ensures Pays(OffsetOf(m, p), w, w(m) + 4)
  {
    IntPays(8, w(m) + 4);
    var f := (o: int) => Return(m[p := o]);
    forall o: int
      ensures Pays(f(o), w, w(m) + 12)
    {
      assert Light(w, m, p, o);
    }
    ThenPays(Int(8), Flat(w(m) + 12), f, w, w(m) + 4);
  }

  lemma EntryPays(w: map<int, int> -> int, m: map<int, int>)
    requires Entrywise(w)
    ensures Pays(Entry(m), w, w(m))
  {
    IntPays(4, w(m));
    forall p: int
      ensures Pays(OffsetOf(m, p), w, w(m) + 4)
    {
      OffsetPays(w, m, p);
    }
    ThenPays(Int(4), Flat(w(m) + 4), (p: int) => OffsetOf(m, p), w, w(m));
  }

  lemma EntriesPay(total: Position -> int, w: map<int, int> -> int, acc: Position, t: Str, n: nat)
    requires Entrywise(w) && forall m: map<int, int> :: total(acc[t := m]) <= w(m)
    ensures Pays(EntriesOf(acc, t, n), total, w(At(acc, t)))
  {
    var m := At(acc, t);
    forall m': map<int, int>
      ensures Pays(Entry(m'), w, w(m'))
    {
      EntryPays(w, m');
    }
    LoopPays(n, Entry, m, w);
    var f := (m': map<int, int>) => Return<Position>(acc[t := m']);
    forall m': map<int, int>
      ensures Pays(f(m'), total, w(m'))
    {
      assert total(acc[t := m']) <= w(m');
    }
    ThenPays(Loop(n, Entry, m), w, f, total, w(m));
  }

  /** A topic costs six bytes besides its offsets. */
  ghost predicate Topicwise(total: Position -> int) {
    forall acc: Position, t: Str, n: nat :: TopicPaid(total, acc, t, n)
  }

  ghost predicate TopicPaid(total: Position -> int, acc: Position, t: Str, n: nat) {
    Pays(EntriesOf(acc, t, n), total, total(acc) + 6)
  }

  lemma TopicOfPays(total: Position -> int, acc: Position, t: Str)
    requires Topicwise(total)
    ensures Pays(TopicOf(acc, t), total, total(acc) + 2)
  {
    CountPays(total(acc) + 2);
    var f := (n: nat) => EntriesOf(acc, t, n);
    forall n: nat
      ensures Pays(f(n), total, total(acc) + 6)
    {
      assert TopicPaid(total, acc, t, n);
    }
    ThenPays(Count(), Flat(total(acc) + 6), f, total, total(acc) + 2);
  }

  lemma TopicPays(total: Position -> int, acc: Position)
    requires forall t: Str :: Pays(TopicOf(acc, t), total, total(acc) + 2)
    ensures Pays(Topic(acc), total, total(acc))
  {
    TextPays(total(acc));
    var f := (t: Str) => TopicOf(acc, t);
    forall t: Str
      ensures Pays(f(t), total, total(acc) + 2)
    {
      assert Pays(TopicOf(acc, t), total, total(acc) + 2);
    }
    ThenPays(Text(), Flat(total(acc) + 2), f, total, total(acc));
  }

  lemma TopicwisePays(total: Position -> int, acc: Position)
    requires Topicwise(total)
    ensures Pays(Topic(acc), total, total(acc))
  {
    forall t: Str
      ensures Pays(TopicOf(acc, t), total, total(acc) + 2)
    {
      TopicOfPays(total, acc, t);
    }
    TopicPays(total, acc);
  }

  lemma OffsetsPay(total: Position -> int, budget: int)
    requires Topicwise(total) && total(map[]) == budget + 4
    ensures Pays(Offsets(), total, budget)
  {
    CountPays(budget);
    forall acc: Position
      ensures Pays(Topic(acc), total, total(acc))
    {
      TopicwisePays(total, acc);
    }
    forall n: nat
      ensures Pays(TopicsOf(n), total, budget + 4)
    {
      LoopPays<Position>(n, Topic, map[], total);
    }
    ThenPays(Count(), Flat(budget + 4), TopicsOf, total, budget);
  }

  // ---- partitions without a marker ----

  /** A missing partition costs six bytes. */
  ghost predicate Absentwise(w: set<TopicPartition> -> int) {
    forall acc: set<TopicPartition>, x: TopicPartition :: Small(w, acc, x)
  }

  ghost predicate Small(w: set<TopicPartition> -> int, acc: set<TopicPartition>, x: TopicPartition) {
    w(acc + {x}) <= w(acc) + 6
  }

  lemma AbsentAtPays(w: set<TopicPartition> -> int, acc: set<TopicPartition>, t: Str)
    requires Absentwise(w)
    ensures Pays(AbsentAt(acc, t), w, w(acc) + 2)
  {
    IntPays(4, w(acc) + 2);
    var f := (p: int) => Return(acc + {(t, p)});
    forall p: int
      ensures Pays(f(p), w, w(acc) + 6)
    {
      assert Small(w, acc, (t, p));
    }
    ThenPays(Int(4), Flat(w(acc) + 6), f, w, w(acc) + 2);
  }

  lemma AbsentPays(w: set<TopicPartition> -> int, acc: set<TopicPartition>)
    requires Absentwise(w)
    ensures Pays(Absent(acc), w, w(acc))
  {
    TextPays(w(acc));
    forall t: Str
      ensures Pays(AbsentAt(acc, t), w, w(acc) + 2)
    {
      AbsentAtPays(w, acc, t);
    }
    ThenPays(Text(), Flat(w(acc) + 2), (t: Str) => AbsentAt(acc, t), w, w(acc));
  }

  lemma MissingPays(w: set<TopicPartition> -> int, budget: int)
    requires Absentwise(w) && w({}) == budget + 4
    ensures Pays(Missing(), w, budget)
  {
    CountPays(budget);
    forall acc: set<TopicPartition>
      ensures Pays(Absent(acc), w, w(acc))
    {
      AbsentPays(w, acc);
    }
    forall n: nat
      ensures Pays(AbsentsOf(n), w, budget + 4)
    {
      LoopPays<set<TopicPartition>>(n, Absent, {}, w);
    }
    ThenPays(Count(), Flat(budget + 4), AbsentsOf, w, budget);
  }

  // ---- cut values ----

  /** Weights for positions, for missing partitions beside a position, and for cuts, that charge
      each part of a cut for its bytes. */
  ghost predicate Tariff(total: Position -> int, absent: Position -> set<TopicPartition> -> int, w: Cut -> int) {
    && Topicwise(total)
    && total(map[]) == 23
    && (forall o: Position :: Absentwise(absent(o)) && absent(o)({}) == total(o) + 4)
    && (forall cut: Cut :: w(cut) == absent(cut.offsets)(cut.missing))
  }

  lemma WithMissingPays(total: Position -> int, absent: Position -> set<TopicPartition> -> int, w: Cut -> int, cut: Cut)
    requires Tariff(total, absent, w)
    ensures Pays(WithMissing(cut), w, total(cut.offsets))
  {
    var a := absent(cut.offsets);
    MissingPays(a, total(cut.offsets));
    var f := (m: set<TopicPartition>) => Return(cut.(missing := m));
    forall m: set<TopicPartition>
      ensures Pays(f(m), w, a(m))
    {
      assert w(cut.(missing := m)) == a(m);
    }
    ThenPays(Missing(), a, f, w, total(cut.offsets));
  }

  lemma WithOffsetsPays(total: Position -> int, absent: Position -> set<TopicPartition> -> int, w: Cut -> int, cut: Cut)
    requires Tariff(total, absent, w)
    ensures Pays(WithOffsets(cut), w, 19)
  {
    OffsetsPay(total, 19);
    forall o: Position
      ensures Pays(WithMissing(cut.(offsets := o)), w, total(o))
    {
      WithMissingPays(total, absent, w, cut.(offsets := o));
    }
    ThenPays(Offsets(), total, (o: Position) => WithMissing(cut.(offsets := o)), w, 19);
  }

  lemma WithStatusPays(w: Cut -> int, cut: Cut)
    requires forall cut': Cut :: Pays(WithOffsets(cut'), w, 19)
    ensures Pays(WithStatus(cut), w, 18)
  {
    IntPays(1, 18);
    forall code: int
      ensures Pays(StatusOf(cut, code), w, 19)
    {
      var cut' := cut.(status := if code == 0 then Complete else Partial);
      assert Pays(WithOffsets(cut'), w, 19);
    }
    ThenPays(Int(1), Flat(19), (code: int) => StatusOf(cut, code), w, 18);
  }

  lemma ValuePays(w: Cut -> int, key: Key)
    requires forall cut: Cut :: Pays(WithStatus(cut), w, 18)
    ensures Pays(ValueLayout(key), w, 0)
  {
    IntPays(8, 10);
    forall cut: Cut
      ensures Pays(WithCompleted(cut), w, 10)
    {
      ThenPays(Int(8), Flat(18), (c: int) => WithStatus(cut.(completedAt := c)), w, 10);
    }
    IntPays(8, 2);
    forall cut: Cut
      ensures Pays(WithTriggered(cut), w, 2)
    {
      ThenPays(Int(8), Flat(10), (t: int) => WithCompleted(cut.(triggeredAt := t)), w, 2);
    }
    IntPays(2, 0);
    forall version: int
      ensures Pays(ValueBody(Blank(key), version), w, 2)
    {
      assert Pays(WithTriggered(Blank(key)), w, 2);
    }
    ThenPays(Int(2), Flat(2), (version: int) => ValueBody(Blank(key), version), w, 0);
  }

  // ---- the bytes of a record ----

  /** The partitions that a position names. */
  function Pairs(pos: Position): set<TopicPartition> {
    set t: Str, p: int | t in pos && p in pos[t] :: (t, p)
  }

  /** Twelve bytes an offset, six a topic, after the 23 bytes before the first topic. */
  function Weight(pos: Position): int {
    23 + 6 * |pos| + 12 * |Pairs(pos)|
  }

  /** The weight of a position, given the offsets of one of its topics. */
  function Under(acc: Position, t: Str): map<int, int> -> int {
    (m: map<int, int>) => 23 + 6 * |acc| + 6 + 12 * |Pairs(acc[t := m])|
  }

  function WithAbsent(o: Position): set<TopicPartition> -> int {
    (m: set<TopicPartition>) => Weight(o) + 4 + 6 * |m|
  }

  function CutWeight(cut: Cut): int {
    WithAbsent(cut.offsets)(cut.missing)
  }

  lemma SmallerSet<T>(a: set<T>, b: set<T>)
    requires a <= b
    ensures |a| <= |b|
  {
    var c := b - a;
    assert b == a + c;
  }

  lemma PairAdded(acc: Position, t: Str, m: map<int, int>, p: int, o: int)
    ensures Light(Under(acc, t), m, p, o)
  {
    SmallerSet(Pairs(acc[t := m[p := o]]), Pairs(acc[t := m]) + {(t, p)});
  }

  lemma UnderFits(acc: Position, t: Str, m: map<int, int>)
    ensures Weight(acc[t := m]) <= Under(acc, t)(m)
  {
    assert acc[t := m].Keys == acc.Keys + {t};
  }

  lemma UnderStarts(acc: Position, t: Str)
    ensures Under(acc, t)(At(acc, t)) == Weight(acc) + 6
  {
    assert Pairs(acc[t := At(acc, t)]) == Pairs(acc);
  }

  lemma UnderIsEntrywise(acc: Position, t: Str)
    ensures Entrywise(Under(acc, t))
  {
    forall m: map<int, int>, p: int, o: int
      ensures Light(Under(acc, t), m, p, o)
    {
      PairAdded(acc, t, m, p, o);
    }
  }

  lemma CoveredTopicPays(total: Position -> int, w: map<int, int> -> int, acc: Position, t: Str, n: nat)
    requires Entrywise(w) && (forall m: map<int, int> :: total(acc[t := m]) <= w(m)) && w(At(acc, t)) == total(acc) + 6
    ensures TopicPaid(total, acc, t, n)
  {
    EntriesPay(total, w, acc, t, n);
  }

  lemma WeighedEntriesPay(acc: Position, t: Str, n: nat)
    ensures TopicPaid(Weight, acc, t, n)
  {
    UnderIsEntrywise(acc, t);
    forall m: map<int, int>
      ensures Weight(acc[t := m]) <= Under(acc, t)(m)
    {
      UnderFits(acc, t, m);
    }
    UnderStarts(acc, t);
    CoveredTopicPays(Weight, Under(acc, t), acc, t, n);
  }

  lemma WeightIsTopicwise()
    ensures Topicwise(Weight)
  {
    forall acc: Position, t: Str, n: nat
      ensures TopicPaid(Weight, acc, t, n)
    {
      WeighedEntriesPay(acc, t, n);
    }
  }

  lemma WeightsAreTariff()
    ensures Tariff(Weight, WithAbsent, CutWeight)
  {
    WeightIsTopicwise();
    var none: Position := map[];
    assert Pairs(none) == {};
    forall o: Position
      ensures Absentwise(WithAbsent(o)) && WithAbsent(o)({}) == Weight(o) + 4
    {
      forall acc: set<TopicPartition>, x: TopicPartition
        ensures Small(WithAbsent(o), acc, x)
      {
        SmallerSet(acc, acc + {x});
      }
    }
  }

  lemma CutPays(total: Position -> int, absent: Position -> set<TopicPartition> -> int, w: Cut -> int, key: Key)
    requires Tariff(total, absent, w)
    ensures Pays(ValueLayout(key), w, 0)
  {
    forall cut: Cut
      ensures Pays(WithOffsets(cut), w, 19)
    {
      WithOffsetsPays(total, absent, w, cut);
    }
    forall cut: Cut
      ensures Pays(WithStatus(cut), w, 18)
    {
      WithStatusPays(w, cut);
    }
    ValuePays(w, key);
  }

  /** Everything a decoded cut holds is paid for by its own bytes, whatever counts they declare. */
  lemma EntriesBounded(key: Key, d: seq<Byte>)
    requires DecodeValue(key, d).Record?
    ensures var cut := DecodeValue(key, d).value;
      27 + 12 * |Pairs(cut.offsets)| + 6 * |cut.offsets| + 6 * |cut.missing| <= |d|
  {
    WeightsAreTariff();
    CutPays(Weight, WithAbsent, CutWeight, key);
    assert Paid(ValueLayout(key), CutWeight, 0, d);
  }
}
