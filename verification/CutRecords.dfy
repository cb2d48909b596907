/** What cut records do to the cached cuts, told from their bytes. */
module CutRecords {
  import opened Common
  import opened Bytes
  import opened Parsing
  import opened BarrierLayout
  import opened BarrierEncode
  import opened BarrierRoundTrip
  import opened CutLog

  /** The record is the encoding of a cut. */
  ghost predicate Carries(rec: Rec, r: CutRecord) {
    && Encodable(r) && KeyFits(Key(2, r.group, r.epoch))
    && rec.key == Some(EncodeKey(Key(2, r.group, r.epoch))) && rec.value == Some(EncodeValue(r))
  }

  /** The record is a tombstone of a cut: its value is missing or empty. */
  ghost predicate Deletes(rec: Rec, k: CutKey) {
    && KeyFits(Key(2, k.0, k.1)) && rec.key == Some(EncodeKey(Key(2, k.0, k.1)))
    && (rec.value == None || rec.value == Some([]))
  }

  /** The record was written for a cut. */
  ghost predicate WellFormed(rec: Rec) {
    (exists r: CutRecord :: Carries(rec, r)) || exists k: CutKey :: Deletes(rec, k)
  }

  /** What a reader is to hold for a cut: the cut itself if it is complete, and nothing else. */
  function ToHold(r: CutRecord): Option<Cut> {
    if r.status == Complete then Some(ExpectedCut(r)) else None
  }

  /** The key `k` now has the value `now`, and every other key has what it had. */
  ghost predicate Stores(cuts: Cuts, cuts': Cuts, k: CutKey, now: Option<Cut>) {
    Lookup(cuts', k) == now && forall other: CutKey :: other != k ==> Lookup(cuts', other) == Lookup(cuts, other)
  }

  /** What the entry of a record comes to: it writes the key and gives it the value. */
  ghost predicate Gives(e: Entry, k: CutKey, now: Option<Cut>) {
    e.slot == Some(k) && !e.effect.Bad? && Written(e.effect) == Some(k) && Given(e.effect) == now
  }

  lemma ValueIsThere(r: CutRecord)
    requires Encodable(r)
    ensures EncodeValue(r) != []
  {
    assert |EncodeValue(r)| >= |Put(RECORD_VERSION, 2)|;
  }

  lemma CutGives(e: Entry, k: CutKey, cut: Cut)
    requires (cut.group, cut.epoch) == k
    requires e == Entry(e.offset, Some(k), if cut.status == Complete then Hold(cut) else Forget(k.0, k.1))
    ensures Gives(e, k, if cut.status == Complete then Some(cut) else None)
  {
  }

  lemma DecodedGives(rec: Rec, key: Key, cut: Cut)
    requires rec.key.Some? && DecodeKey(rec.key.value) == Record(key) && key.kind == CUT_KIND
    requires rec.value.Some? && rec.value.value != [] && DecodeValue(key, rec.value.value) == Record(cut)
    requires cut.group == key.group && cut.epoch == key.epoch
    ensures Gives(EntryOf(rec), (key.group, key.epoch), if cut.status == Complete then Some(cut) else None)
  {
    EntryOfCut(rec, key, cut);
    CutGives(EntryOf(rec), (key.group, key.epoch), cut);
  }

  lemma CarriedEntry(rec: Rec, r: CutRecord)
    requires Carries(rec, r)
    ensures Gives(EntryOf(rec), (r.group, r.epoch), ToHold(r))
  {
    var key := Key(2, r.group, r.epoch);
    KeyRoundTrip(key);
    ValueRoundTrip(r, key);
    ValueIsThere(r);
    DecodedGives(rec, key, ExpectedCut(r));
  }

  lemma DeletedEntry(rec: Rec, k: CutKey)
    requires Deletes(rec, k)
    ensures Gives(EntryOf(rec), k, None)
  {
    KeyRoundTrip(Key(2, k.0, k.1));
    TombstoneGives(rec, Key(2, k.0, k.1));
  }

  lemma TombstoneGives(rec: Rec, key: Key)
    requires rec.key.Some? && DecodeKey(rec.key.value) == Record(key) && key.kind == CUT_KIND
    requires rec.value.None? || rec.value.value == []
    ensures Gives(EntryOf(rec), (key.group, key.epoch), None)
  {
    EntryOfTombstone(rec, key);
  }

  lemma WrittenStores(cuts: Cuts, e: Effect, k: CutKey)
    requires Written(e) == Some(k)
    ensures Stores(cuts, Apply(cuts, e), k, Given(e))
  {
    forall other: CutKey
      ensures Lookup(Apply(cuts, e), other) == if other == k then Given(e) else Lookup(cuts, other)
    {
      ApplyWrites(cuts, e, other);
    }
  }

  /** What a reader that accepts the record then holds: the cut that the record carries, exactly if it
      is complete, and nothing for a tombstone. Every other key keeps what it had. */
  ghost predicate Accepted(rec: Rec, cuts: Cuts, cuts': Cuts) {
    && (forall r: CutRecord :: Carries(rec, r) ==> Stores(cuts, cuts', (r.group, r.epoch), ToHold(r)))
    && (forall k: CutKey :: Deletes(rec, k) ==> Stores(cuts, cuts', k, None))
  }

  /** The same of a decoded key and the value behind it. */
  ghost predicate ValueAccepted(key: Key, value: Option<seq<Byte>>, cuts: Cuts, cuts': Cuts) {
    && (forall r: CutRecord ::
          Encodable(r) && key == Key(2, r.group, r.epoch) && KeyFits(key) && value == Some(EncodeValue(r)) ==>
          Stores(cuts, cuts', (r.group, r.epoch), ToHold(r)))
    && (value.None? || value.value == [] ==> Stores(cuts, cuts', (key.group, key.epoch), None))
  }

  lemma EffectOfDecoded(key: Key, value: seq<Byte>, cut: Cut)
    requires value != [] && DecodeValue(key, value) == Record(cut) && cut.group == key.group && cut.epoch == key.epoch
    ensures var e := CutEffect(key, Some(value));
      && Written(e) == Some((key.group, key.epoch))
      && Given(e) == if cut.status == Complete then Some(cut) else None
  {
  }

  lemma EffectOfCut(key: Key, r: CutRecord)
    requires Encodable(r) && key.group == r.group && key.epoch == r.epoch
    ensures var e := CutEffect(key, Some(EncodeValue(r)));
      Written(e) == Some((r.group, r.epoch)) && Given(e) == ToHold(r)
  {
    ValueRoundTrip(r, key);
    ValueIsThere(r);
    EffectOfDecoded(key, EncodeValue(r), ExpectedCut(r));
  }

  lemma ValueStores(key: Key, value: Option<seq<Byte>>, cuts: Cuts)
    ensures ValueAccepted(key, value, cuts, Apply(cuts, CutEffect(key, value)))
  {
    var k, e := (key.group, key.epoch), CutEffect(key, value);
    forall r: CutRecord |
      Encodable(r) && key == Key(2, r.group, r.epoch) && KeyFits(key) && value == Some(EncodeValue(r))
      ensures Stores(cuts, Apply(cuts, e), (r.group, r.epoch), ToHold(r))
    {
      EffectOfCut(key, r);
      WrittenStores(cuts, e, k);
    }
    if value.None? || value.value == [] {
      WrittenStores(cuts, e, k);
    }
  }

  lemma GivenStores(rec: Rec, cuts: Cuts, k: CutKey, now: Option<Cut>)
    requires Gives(EntryOf(rec), k, now)
    ensures Stores(cuts, Apply(cuts, EntryOf(rec).effect), k, now)
  {
    WrittenStores(cuts, EntryOf(rec).effect, k);
  }

  lemma RecordsStore(rec: Rec, cuts: Cuts)
    ensures Accepted(rec, cuts, Apply(cuts, EntryOf(rec).effect))
  {
    forall r: CutRecord | Carries(rec, r)
      ensures Stores(cuts, Apply(cuts, EntryOf(rec).effect), (r.group, r.epoch), ToHold(r))
    {
      CarriedEntry(rec, r);
      GivenStores(rec, cuts, (r.group, r.epoch), ToHold(r));
    }
    forall k: CutKey | Deletes(rec, k)
      ensures Stores(cuts, Apply(cuts, EntryOf(rec).effect), k, None)
    {
      DeletedEntry(rec, k);
      GivenStores(rec, cuts, k, None);
    }
  }

  /** Entry `i` is `e`, and none from there up to `m` has the key. */
  ghost predicate LastBelow(log: seq<Entry>, m: nat, k: CutKey, i: nat, e: Entry)
    requires m <= |log|
  {
    i < m && log[i] == e && forall j: nat :: i < j < m ==> log[j].slot != Some(k)
  }

  /** The last record of the key below `m` carries the cut. */
  ghost predicate LastCarries(log: seq<Entry>, m: nat, k: CutKey, r: CutRecord)
    requires m <= |log|
  {
    k == (r.group, r.epoch) && exists i: nat, rec: Rec :: LastBelow(log, m, k, i, EntryOf(rec)) && Carries(rec, r)
  }

  /** The last record of the key below `m` is a tombstone, or there is none. */
  ghost predicate LastDeletes(log: seq<Entry>, m: nat, k: CutKey)
    requires m <= |log|
  {
    || (exists i: nat, rec: Rec :: LastBelow(log, m, k, i, EntryOf(rec)) && Deletes(rec, k))
    || forall i: nat :: i < m ==> log[i].slot != Some(k)
  }

  ghost predicate AllGenuine(log: seq<Entry>) {
    forall i: nat :: i < |log| ==> Genuine(log[i])
  }

  lemma LastIs(log: seq<Entry>, m: nat, k: CutKey, i: nat, e: Entry, now: Option<Cut>)
    requires m <= |log| && AllGenuine(log) && LastBelow(log, m, k, i, e) && Gives(e, k, now)
    ensures Last(log[..m], k) == now
  {
    assert forall j: nat :: i < j < m ==> Genuine(log[j]);
    LastSnoc(log[..i], log[i], k);
    assert log[..i] + [log[i]] == log[..i + 1];
    LastUnmentioned(log, i + 1, m, k);
  }

  lemma NoneIsLast(log: seq<Entry>, m: nat, k: CutKey)
    requires m <= |log| && AllGenuine(log) && forall i: nat :: i < m ==> log[i].slot != Some(k)
    ensures Last(log[..m], k) == None
  {
    assert forall j: nat :: j < m ==> Genuine(log[j]);
    assert log[..0] == [];
    LastUnmentioned(log, 0, m, k);
  }

  /** A cache that has what the last writers left holds each cut whose last record carries it, exactly
      if it is complete. */
  lemma UpToDate(cuts: Cuts, log: seq<Entry>, m: nat, k: CutKey, r: CutRecord)
    requires m <= |log| && AllGenuine(log) && Means(cuts, log, k, m) && LastCarries(log, m, k, r)
    ensures Lookup(cuts, k) == ToHold(r)
  {
    var i: nat, rec: Rec :| LastBelow(log, m, k, i, EntryOf(rec)) && Carries(rec, r);
    CarriedEntry(rec, r);
    LastIs(log, m, k, i, EntryOf(rec), ToHold(r));
  }

  /** And it holds nothing for a key whose last record is a tombstone or that has none. */
  lemma NothingLeft(cuts: Cuts, log: seq<Entry>, m: nat, k: CutKey)
    requires m <= |log| && AllGenuine(log) && Means(cuts, log, k, m) && LastDeletes(log, m, k)
    ensures Lookup(cuts, k) == None
  {
    if forall i: nat :: i < m ==> log[i].slot != Some(k) {
      NoneIsLast(log, m, k);
    } else {
      var i: nat, rec: Rec :| LastBelow(log, m, k, i, EntryOf(rec)) && Deletes(rec, k);
      DeletedEntry(rec, k);
      LastIs(log, m, k, i, EntryOf(rec), None);
    }
  }
}
