/** The wire form of a change: a new value, an old value, or both. */
module ChangedSerde {
  import opened Common
  import opened Bytes
  import opened Varint

  datatype Change<V> = Change(was: Option<V>, now: Option<V>)

  /** The serde of the values. */
  datatype Serde<!V> = Serde(serialize: V -> seq<Byte>, deserialize: seq<Byte> -> Option<V>)

  datatype Result<T> = Ok(value: T) | Err(error: Error)

  datatype Error = Empty | BadVarint(read: Read) | TooShort | UnknownFlag(flag: Byte) | BadValue

  ghost predicate Lossless<V(!new)>(s: Serde<V>) {
    forall v: V :: s.deserialize(s.serialize(v)) == Some(v)
  }

  /** A change with neither side has no wire form, and the length that is written when both sides
      are there must survive the varint. */
  predicate Writable<V>(s: Serde<V>, c: Change<V>) {
    && (c.was.Some? || c.now.Some?)
    && (c.was.Some? && c.now.Some? ==> |s.serialize(c.now.value)| < TWO_63)
  }

  /** Two values on the wire: twice the length of the new one as a varint, the new one, the old one. */
  ghost predicate HoldsBoth(buffer: seq<Byte>, now: seq<Byte>, was: seq<Byte>) {
    exists length: seq<Byte> :: Encodes(length, 2 * |now|) && buffer == length + now + was + [0x02]
  }

  lemma BothHeld(now: seq<Byte>, was: seq<Byte>)
    requires |now| < TWO_63
    ensures HoldsBoth(Groups(Zigzag(|now|)) + now + was + [0x02], now, was)
  {
    LengthBytes(|now|);
  }

  method Serialize<V>(s: Serde<V>, c: Change<V>) returns (buffer: seq<Byte>)
    requires Writable(s, c)
    ensures buffer == Written(s, c)
    ensures c.was.None? ==> buffer == s.serialize(c.now.value) + [0x01]
    ensures c.now.None? ==> buffer == s.serialize(c.was.value) + [0x00]
    ensures c.was.Some? && c.now.Some? ==> HoldsBoth(buffer, s.serialize(c.now.value), s.serialize(c.was.value))
  {
    if c.now.Some? && c.was.Some? {
      var now, was := s.serialize(c.now.value), s.serialize(c.was.value);
      buffer := WriteVarint(|now|, []);
      buffer := buffer + now;
      buffer := buffer + was;
      buffer := buffer + [0x02];
      BothHeld(now, was);
    } else if c.now.Some? {
      buffer := s.serialize(c.now.value);
      buffer := buffer + [0x01];
    } else {
      buffer := s.serialize(c.was.value);
      buffer := buffer + [0x00];
    }
  }

  function Written<V>(s: Serde<V>, c: Change<V>): seq<Byte>
    requires Writable(s, c)
  {
    if c.was.None? then s.serialize(c.now.value) + [0x01]
    else if c.now.None? then s.serialize(c.was.value) + [0x00]
    else
      var now := s.serialize(c.now.value);
      Groups(Zigzag(|now|)) + now + s.serialize(c.was.value) + [0x02]
  }

  function Deserialize<V>(s: Serde<V>, bytes: seq<Byte>): (r: Result<Change<V>>)
    ensures r.Ok? ==> r.value.was.Some? || r.value.now.Some?
  {
    if bytes == [] then Err(Empty)
    else
      var flag, payload := bytes[|bytes| - 1], bytes[..|bytes| - 1];
      if flag == 0x00 then
        match s.deserialize(payload)
        case None => Err(BadValue)
        case Some(was) => Ok(Change(Some(was), None))
      else if flag == 0x01 then
        match s.deserialize(payload)
        case None => Err(BadValue)
        case Some(now) => Ok(Change(None, Some(now)))
      else if flag == 0x02 then Both(s, payload)
      else Err(UnknownFlag(flag))
  }

  function Both<V>(s: Serde<V>, payload: seq<Byte>): (r: Result<Change<V>>)
    ensures r.Ok? ==> r.value.was.Some? && r.value.now.Some?
  {
    match Scan(payload, 0, 0, 0)
    case Overflow => Err(BadVarint(Overflow))
    case Truncated => Err(BadVarint(Truncated))
    case Length(n, consumed) =>
      var after := payload[consumed..];
      if |after| < n then Err(TooShort)
      else
        match s.deserialize(after[..n])
        case None => Err(BadValue)
        case Some(now) =>
          match s.deserialize(after[n..])
          case None => Err(BadValue)
          case Some(was) => Ok(Change(Some(was), Some(now)))
  }

  /** A change with at least one side is read back whole. */
  lemma RoundTrip<V(!new)>(s: Serde<V>, c: Change<V>)
    requires Lossless(s) && Writable(s, c)
    ensures Deserialize(s, Written(s, c)) == Ok(c)
  {
    var bytes := Written(s, c);
    if c.was.Some? && c.now.Some? {
      var now, was := s.serialize(c.now.value), s.serialize(c.was.value);
      var length := Groups(Zigzag(|now|));
      assert bytes[..|bytes| - 1] == length + (now + was);
      ReadsBack(|now|, now + was);
      var after := (length + (now + was))[|length|..];
      assert after == now + was && after[..|now|] == now && after[|now|..] == was;
    } else if c.now.Some? {
      assert bytes[..|bytes| - 1] == s.serialize(c.now.value);
    } else {
      assert bytes[..|bytes| - 1] == s.serialize(c.was.value);
    }
  }
}
