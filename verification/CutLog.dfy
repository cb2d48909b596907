/** The log of cut records and what reading it leaves behind: each record's effect on the cached
    cuts, and the last-writer-wins meaning of a log prefix. */
module CutLog {
  import opened Common
  import opened Bytes
  import opened Parsing
  import opened BarrierLayout

  /** A barrier group and an epoch. */
  type CutKey = (Str, int)

  /** A record as fetched. */
  datatype Rec = Rec(offset: int, key: Option<seq<Byte>>, value: Option<seq<Byte>>)

  /** A record as read: its offset, the barrier group and epoch its key names, if it is the key of a
      cut, and what it asks for. */
  datatype Entry = Entry(offset: int, slot: Option<CutKey>, effect: Effect)

  datatype Effect =
    | Skip
    | Hold(cut: Cut)
    | Forget(group: Str, epoch: int)
    | Bad(part: Part, kind: Kind)

  /** What a record asks for. A complete cut is held; a partial one, and a tombstone or an empty
      value, drops its epoch. */
  function EffectOf(r: Rec): Effect {
    if r.key.None? then Skip
    else
      match DecodeKey(r.key.value)
      case Malformed(part, kind) => Bad(part, kind)
      case Record(k) =>
        if k.kind != CUT_KIND then Skip else CutEffect(k, r.value)
  }

  function CutEffect(k: Key, value: Option<seq<Byte>>): Effect {
    if value.None? || value.value == [] then Forget(k.group, k.epoch)
    else
      match DecodeValue(k, value.value)
      case Malformed(part, kind) => Bad(part, kind)
      case Record(cut) => if cut.status == Complete then Hold(cut) else Forget(k.group, k.epoch)
  }

  function SlotOf(r: Rec): Option<CutKey> {
    if r.key.None? then None
    else
      match DecodeKey(r.key.value)
      case Malformed(_, _) => None
      case Record(k) => if k.kind != CUT_KIND then None else Some((k.group, k.epoch))
  }

  function EntryOf(r: Rec): Entry {
    Entry(r.offset, SlotOf(r), EffectOf(r))
  }

  lemma EntryOfCut(rec: Rec, key: Key, cut: Cut)
    requires rec.key.Some? && DecodeKey(rec.key.value) == Record(key) && key.kind == CUT_KIND
    requires rec.value.Some? && rec.value.value != [] && DecodeValue(key, rec.value.value) == Record(cut)
    ensures EntryOf(rec) == Entry(rec.offset, Some((key.group, key.epoch)),
                                  if cut.status == Complete then Hold(cut) else Forget(key.group, key.epoch))
  {
  }

  lemma EntryOfTombstone(rec: Rec, key: Key)
    requires rec.key.Some? && DecodeKey(rec.key.value) == Record(key) && key.kind == CUT_KIND
    requires rec.value.None? || rec.value.value == []
    ensures EntryOf(rec) == Entry(rec.offset, Some((key.group, key.epoch)), Forget(key.group, key.epoch))
  {
  }

  /** The key an effect writes. */
  function Written(e: Effect): Option<CutKey> {
    match e
    case Hold(cut) => Some((cut.group, cut.epoch))
    case Forget(g, n) => Some((g, n))
    case _ => None
  }

  // ---- the cached cuts ----

  type Cuts = map<Str, map<int, Cut>>

  function Lookup(cuts: Cuts, k: CutKey): Option<Cut> {
    if k.0 in cuts && k.1 in cuts[k.0] then Some(cuts[k.0][k.1]) else None
  }

  function Of(cuts: Cuts, g: Str): map<int, Cut> {
    if g in cuts then cuts[g] else map[]
  }

  function Apply(cuts: Cuts, e: Effect): Cuts {
    match e
    case Hold(cut) => cuts[cut.group := Of(cuts, cut.group)[cut.epoch := cut]]
    case Forget(g, n) => if g in cuts then cuts[g := cuts[g] - {n}] else cuts
    case _ => cuts
  }

  /** The value an effect gives to the key it writes. */
  function Given(e: Effect): Option<Cut> {
    if e.Hold? then Some(e.cut) else None
  }

  lemma ApplyWrites(cuts: Cuts, e: Effect, k: CutKey)
    ensures Lookup(Apply(cuts, e), k) == if Written(e) == Some(k) then Given(e) else Lookup(cuts, k)
  {
  }

  function Replay(cuts: Cuts, recs: seq<Entry>): Cuts {
    if recs == [] then cuts
    else Apply(Replay(cuts, recs[..|recs| - 1]), recs[|recs| - 1].effect)
  }

  // ---- last writer wins ----

  predicate Writes(r: Entry, k: CutKey) {
    Written(r.effect) == Some(k)
  }

  /** What the last record that writes `k` gives it. */
  function Last(recs: seq<Entry>, k: CutKey): Option<Cut> {
    if recs == [] then None
    else if Writes(recs[|recs| - 1], k) then Given(recs[|recs| - 1].effect)
    else Last(recs[..|recs| - 1], k)
  }

  predicate Mentions(recs: seq<Entry>, k: CutKey) {
    exists i :: 0 <= i < |recs| && Writes(recs[i], k)
  }

  /** Replaying decides the keys it mentions and leaves the others. */
  lemma {:induction false} ReplayDecides(cuts: Cuts, recs: seq<Entry>, k: CutKey)
    ensures Lookup(Replay(cuts, recs), k) == if Mentions(recs, k) then Last(recs, k) else Lookup(cuts, k)
    decreases |recs|
  {
    if recs != [] {
      var init, last := recs[..|recs| - 1], recs[|recs| - 1];
      ReplayDecides(cuts, init, k);
      ApplyWrites(Replay(cuts, init), last.effect, k);
      MentionsLast(init, last, k);
      assert recs == init + [last];
    }
  }

  lemma MentionsLast(init: seq<Entry>, last: Entry, k: CutKey)
    ensures Mentions(init + [last], k) <==> Mentions(init, k) || Writes(last, k)
  {
    var recs := init + [last];
    if Mentions(init, k) {
      var i :| 0 <= i < |init| && Writes(init[i], k);
      assert recs[i] == init[i];
    }
    if Writes(last, k) {
      assert recs[|init|] == last;
    }
    if Mentions(recs, k) {
      var i :| 0 <= i < |recs| && Writes(recs[i], k);
      assert i < |init| ==> recs[i] == init[i];
    }
  }

  /** The last writer of a concatenation is the last one of its second part, if it has any. */
  lemma {:induction false} LastOfConcat(a: seq<Entry>, b: seq<Entry>, k: CutKey)
    ensures Last(a + b, k) == if Mentions(b, k) then Last(b, k) else Last(a, k)
    decreases |b|
  {
    if b == [] {
      assert a + b == a;
    } else {
      var init, last := b[..|b| - 1], b[|b| - 1];
      assert b == init + [last];
      assert (a + b)[..|a + b| - 1] == a + init;
      LastOfConcat(a, init, k);
      MentionsLast(init, last, k);
    }
  }

  /** A key that only the records from `lo` on leave alone means the same after them. */
  lemma LastUnmentioned(log: seq<Entry>, lo: nat, hi: nat, k: CutKey)
    requires lo <= hi <= |log| && !Mentions(log[lo..hi], k)
    ensures Last(log[..hi], k) == Last(log[..lo], k)
  {
    assert log[..hi] == log[..lo] + log[lo..hi];
    LastOfConcat(log[..lo], log[lo..hi], k);
  }

  // ---- what a log can give a key ----

  /** Only complete cuts are held, every epoch is a 64-bit integer, and a record of a cut's key writes
      that cut unless it is malformed. */
  ghost predicate Genuine(e: Entry) {
    && Permissible(e.effect)
    && (e.effect.Bad? || Written(e.effect) == e.slot)
  }

  ghost predicate Permissible(e: Effect) {
    match e
    case Hold(cut) => cut.status == Complete && Fits(cut.epoch, 8)
    case Forget(_, epoch) => Fits(epoch, 8)
    case _ => true
  }

  lemma CutEffectIsPermissible(key: Key, value: Option<seq<Byte>>)
    requires Fits(key.epoch, 8)
    ensures var e := CutEffect(key, value); Permissible(e) && (e.Bad? || Written(e) == Some((key.group, key.epoch)))
  {
    if value.Some? && DecodeValue(key, value.value).Record? {
      CutOfKey(key, value.value);
    }
  }

  lemma KeyedIsGenuine(r: Rec, key: Key)
    requires r.key.Some? && DecodeKey(r.key.value) == Record(key) && key.kind == CUT_KIND
    ensures Genuine(Entry(r.offset, Some((key.group, key.epoch)), CutEffect(key, r.value)))
  {
    EpochFits(r.key.value);
    CutEffectIsPermissible(key, r.value);
  }

  /** So it is with the entry of any record. */
  lemma RecordsAreGenuine(r: Rec)
    ensures Genuine(EntryOf(r))
  {
    if r.key.Some? && DecodeKey(r.key.value).Record? && DecodeKey(r.key.value).value.kind == CUT_KIND {
      KeyedIsGenuine(r, DecodeKey(r.key.value).value);
    }
  }

  ghost predicate Named(c: Option<Cut>, k: CutKey) {
    c.Some? ==> c.value.status == Complete && (c.value.group, c.value.epoch) == k && Fits(k.1, 8)
  }

  lemma {:induction false} LastIsNamed(log: seq<Entry>, k: CutKey)
    requires forall i :: 0 <= i < |log| ==> Genuine(log[i])
    ensures Named(Last(log, k), k)
    decreases |log|
  {
    if log != [] {
      assert Genuine(log[|log| - 1]);
      LastIsNamed(log[..|log| - 1], k);
    }
  }

  // ---- a compacted log ----

  /** A record of a cut's key is removed only when a later one, below `seen`, has its key. */
  ghost predicate Superseded(log: seq<Entry>, seen: nat, i: nat)
    requires i < seen <= |log|
  {
    log[i].slot.Some? ==> exists j: nat :: i < j < seen && log[j].slot == log[i].slot
  }

  ghost predicate Compacted(log: seq<Entry>, gone: nat -> bool, seen: nat)
    requires seen <= |log|
  {
    forall i: nat :: gone(i) ==> i < seen && Superseded(log, seen, i)
  }

  /** What is left of the records from `a` to `b`. */
  ghost function Kept(log: seq<Entry>, gone: nat -> bool, a: nat, b: nat): seq<Entry>
    requires b <= |log|
  {
    if b <= a then [] else Kept(log, gone, a, b - 1) + if gone(b - 1) then [] else [log[b - 1]]
  }

  /** A removed record has a successor that is left. */
  lemma {:induction false} Survivor(log: seq<Entry>, gone: nat -> bool, seen: nat, i: nat, k: CutKey) returns (j: nat)
    requires seen <= |log| && Compacted(log, gone, seen) && gone(i) && log[i].slot == Some(k)
    ensures i < j < seen && !gone(j) && log[j].slot == Some(k)
    decreases seen - i
  {
    assert Superseded(log, seen, i);
    j :| i < j < seen && log[j].slot == log[i].slot;
    if gone(j) {
      j := Survivor(log, gone, seen, j, k);
    }
  }

  /** The first `n` records that are left are those left up to some position, where the next one is. */
  lemma {:induction false} KeptPrefix(log: seq<Entry>, gone: nat -> bool, a: nat, b: nat, n: nat) returns (end: nat)
    requires a <= b <= |log| && n <= |Kept(log, gone, a, b)|
    ensures a <= end <= b && Kept(log, gone, a, b)[..n] == Kept(log, gone, a, end)
    ensures n == |Kept(log, gone, a, b)| ==> end == b
    ensures n < |Kept(log, gone, a, b)| ==> end < b && !gone(end) && Kept(log, gone, a, b)[n] == log[end]
    decreases b
  {
    var all := Kept(log, gone, a, b);
    if n == |all| {
      end := b;
    } else {
      var init := Kept(log, gone, a, b - 1);
      if n == |init| {
        end := b - 1;
      } else {
        end := KeptPrefix(log, gone, a, b - 1, n);
      }
      assert all[..n] == init[..n];
    }
  }

  lemma {:induction false} KeptHas(log: seq<Entry>, gone: nat -> bool, a: nat, b: nat, i: nat) returns (x: nat)
    requires a <= i < b <= |log| && !gone(i)
    ensures x < |Kept(log, gone, a, b)| && Kept(log, gone, a, b)[x] == log[i]
    decreases b
  {
    if i == b - 1 {
      x := |Kept(log, gone, a, b - 1)|;
    } else {
      x := KeptHas(log, gone, a, b - 1, i);
    }
  }

  /** The last of the records left that writes a key. */
  lemma {:induction false} KeptLast(log: seq<Entry>, gone: nat -> bool, a: nat, b: nat, k: CutKey) returns (y: nat)
    requires a <= b <= |log| && Mentions(Kept(log, gone, a, b), k)
    ensures a <= y < b && !gone(y) && Writes(log[y], k) && Last(Kept(log, gone, a, b), k) == Given(log[y].effect)
    ensures forall i: nat :: y < i < b && Writes(log[i], k) ==> gone(i)
    decreases b
  {
    var init := Kept(log, gone, a, b - 1);
    assert Kept(log, gone, a, b) == if gone(b - 1) then init else init + [log[b - 1]];
    if gone(b - 1) {
      y := KeptLast(log, gone, a, b - 1, k);
    } else {
      LastSnoc(init, log[b - 1], k);
      MentionsLast(init, log[b - 1], k);
      if Writes(log[b - 1], k) {
        y := b - 1;
      } else {
        y := KeptLast(log, gone, a, b - 1, k);
      }
    }
  }

  lemma LastSnoc(init: seq<Entry>, e: Entry, k: CutKey)
    ensures Last(init + [e], k) == if Writes(e, k) then Given(e.effect) else Last(init, k)
  {
    assert (init + [e])[..|init|] == init;
  }

  // ---- a reader between two positions of a log ----

  /** A record with the key lies ahead. */
  ghost predicate Ahead(log: seq<Entry>, k: CutKey, lo: nat, hi: nat)
    requires hi <= |log|
  {
    exists j: nat :: lo <= j < hi && log[j].slot == Some(k)
  }

  /** The cached cut of `k` is what some log prefix below `hi` means. It is not older than the
      position `lo`, unless a record with the key lies ahead: the reader may have begun to apply the
      records from `lo` on again, and it may have met a gap. */
  ghost predicate Between(cuts: Cuts, log: seq<Entry>, k: CutKey, lo: nat, hi: nat)
    requires hi <= |log|
  {
    exists m: nat :: m <= hi && Means(cuts, log, k, m) && (lo <= m || Ahead(log, k, lo, hi))
  }

  ghost predicate Means(cuts: Cuts, log: seq<Entry>, k: CutKey, m: nat)
    requires m <= |log|
  {
    Lookup(cuts, k) == Last(log[..m], k)
  }

  /** Where nothing lies ahead, the cached cut is up to date. */
  lemma NothingAhead(cuts: Cuts, log: seq<Entry>, k: CutKey, hi: nat)
    requires hi <= |log| && Between(cuts, log, k, hi, hi)
    ensures Means(cuts, log, k, hi)
  {
    var m: nat :| m <= hi && Means(cuts, log, k, m) && (hi <= m || Ahead(log, k, hi, hi));
  }

  /** The records up to `b` are sound where they are left. */
  ghost predicate Intact(log: seq<Entry>, gone: nat -> bool, b: nat)
    requires b <= |log|
  {
    forall i: nat :: i < b ==> Genuine(log[i]) && (log[i].effect.Bad? ==> gone(i))
  }

  /** A cut that no record left from `m` to `b` writes is as good at `b`, or is written ahead. */
  lemma Advance(cuts: Cuts, log: seq<Entry>, gone: nat -> bool, k: CutKey, m: nat, b: nat, seen: nat)
    requires m <= b <= seen <= |log| && Compacted(log, gone, seen) && Intact(log, gone, b) && Means(cuts, log, k, m)
    requires forall i: nat :: m <= i < b && Writes(log[i], k) ==> gone(i)
    ensures Between(cuts, log, k, b, seen)
  {
    if i: nat :| m <= i < b && Writes(log[i], k) {
      AheadOfGap(log, gone, k, m, b, seen, i);
    } else {
      LastUnmentioned(log, m, b, k);
      assert Means(cuts, log, k, b);
    }
  }

  /** Behind a record of the key that no record left from `a` to `b` follows, one lies ahead. */
  lemma AheadOfGap(log: seq<Entry>, gone: nat -> bool, k: CutKey, a: nat, b: nat, seen: nat, i: nat)
    requires a <= i < b <= seen <= |log| && Compacted(log, gone, seen) && Intact(log, gone, b) && log[i].slot == Some(k)
    requires forall i: nat :: a <= i < b && Writes(log[i], k) ==> gone(i)
    ensures Ahead(log, k, b, seen)
  {
    assert Genuine(log[i]) && gone(i);
    var j := Survivor(log, gone, seen, i, k);
    if j < b {
      assert Genuine(log[j]) && Writes(log[j], k);
    }
  }

  /** Replaying what is left of a run that starts at or below the position moves it to the run's
      end. */
  lemma RunAdvances(cuts: Cuts, log: seq<Entry>, gone: nat -> bool, k: CutKey, a: nat, b: nat, lo: nat, hi: nat,
      seen: nat)
    requires a <= lo <= b <= seen <= |log| && hi <= seen && Between(cuts, log, k, lo, hi)
    requires Compacted(log, gone, seen) && Intact(log, gone, b)
    ensures Between(Replay(cuts, Kept(log, gone, a, b)), log, k, b, seen)
  {
    var es := Kept(log, gone, a, b);
    ReplayDecides(cuts, es, k);
    if Mentions(es, k) {
      var y := KeptLast(log, gone, a, b, k);
      assert log[..y + 1][..y] == log[..y];
      assert Means(Replay(cuts, es), log, k, y + 1);
      Advance(Replay(cuts, es), log, gone, k, y + 1, b, seen);
    } else {
      Unmentioned(log, gone, a, b, k);
      UnmentionedAdvances(cuts, Replay(cuts, es), log, gone, k, a, b, lo, hi, seen);
    }
  }

  lemma Unmentioned(log: seq<Entry>, gone: nat -> bool, a: nat, b: nat, k: CutKey)
    requires a <= b <= |log| && !Mentions(Kept(log, gone, a, b), k)
    ensures forall i: nat :: a <= i < b && Writes(log[i], k) ==> gone(i)
  {
    forall i: nat | a <= i < b && Writes(log[i], k)
      ensures gone(i)
    {
      if !gone(i) {
        var x := KeptHas(log, gone, a, b, i);
      }
    }
  }

  lemma UnmentionedAdvances(cuts: Cuts, cuts': Cuts, log: seq<Entry>, gone: nat -> bool, k: CutKey, a: nat, b: nat,
      lo: nat, hi: nat, seen: nat)
    requires a <= lo <= b <= seen <= |log| && hi <= seen && Between(cuts, log, k, lo, hi)
    requires Compacted(log, gone, seen) && Intact(log, gone, b) && Lookup(cuts', k) == Lookup(cuts, k)
    requires forall i: nat :: a <= i < b && Writes(log[i], k) ==> gone(i)
    ensures Between(cuts', log, k, b, seen)
  {
    var m: nat :| m <= hi && Means(cuts, log, k, m) && (lo <= m || Ahead(log, k, lo, hi));
    assert Means(cuts', log, k, m);
    if lo <= m < b {
      Advance(cuts', log, gone, k, m, b, seen);
    } else if m < lo {
      var j: nat :| lo <= j < hi && log[j].slot == Some(k);
      if j < b {
        AheadOfGap(log, gone, k, a, b, seen, j);
      } else {
        assert Ahead(log, k, b, seen);
      }
    }
  }
}
