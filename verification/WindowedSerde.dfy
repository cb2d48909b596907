/** The wire forms of windowed keys. */
module WindowedSerde {
  import opened Common
  import opened Bytes
  import opened ChangedSerde

  datatype Window = Window(start: int, end: int)

  datatype Windowed<K> = Windowed(key: K, window: Window)

  // ---- session windows: both bounds on the wire ----

  function PutSession<K>(s: Serde<K>, w: Windowed<K>): seq<Byte>
    requires Fits(w.window.start, 8) && Fits(w.window.end, 8)
  {
    s.serialize(w.key) + Put(w.window.end, 8) + Put(w.window.start, 8)
  }

  function GetSession<K>(s: Serde<K>, bytes: seq<Byte>): Result<Windowed<K>> {
    if |bytes| < 16 then Err(TooShort)
    else
      var split := |bytes| - 16;
      match s.deserialize(bytes[..split])
      case None => Err(BadValue)
      case Some(key) => Ok(Windowed(key, Window(Get(bytes[split + 8..]), Get(bytes[split..split + 8]))))
  }

  lemma SessionRoundTrip<K(!new)>(s: Serde<K>, w: Windowed<K>)
    requires Lossless(s) && Fits(w.window.start, 8) && Fits(w.window.end, 8)
    ensures GetSession(s, PutSession(s, w)) == Ok(w)
  {
    var key, end, start := s.serialize(w.key), Put(w.window.end, 8), Put(w.window.start, 8);
    Parts(key, end, start);
    GetPut(w.window.end, 8);
    GetPut(w.window.start, 8);
  }

  /** The two's complement of a 64-bit integer. */
  function Complement(x: int): int {
    if x < 0 then x + TWO_64 else x
  }

  /** Behind the key come the end and the start, each of eight bytes, the greatest digit first. */
  lemma SessionBytes<K>(s: Serde<K>, w: Windowed<K>, i: nat)
    requires Fits(w.window.start, 8) && Fits(w.window.end, 8) && i < 8
    ensures var key, bytes := s.serialize(w.key), PutSession(s, w);
      && |bytes| == |key| + 16 && bytes[..|key|] == key
      && bytes[|key| + i] == Complement(w.window.end) / Span(7 - i) % 256
      && bytes[|key| + 8 + i] == Complement(w.window.start) / Span(7 - i) % 256
  {
    Spans();
    NumberBytes(w.window.end, 8, i);
    NumberBytes(w.window.start, 8, i);
  }

  lemma Parts(a: seq<Byte>, b: seq<Byte>, c: seq<Byte>)
    requires |b| == 8 && |c| == 8
    ensures var bytes := a + b + c; var split := |bytes| - 16;
      split >= 0 && bytes[..split] == a && bytes[split..split + 8] == b && bytes[split + 8..] == c
  {
  }

  // ---- time windows: only the start on the wire ----

  function PutTime<K>(s: Serde<K>, w: Windowed<K>): seq<Byte>
    requires Fits(w.window.start, 8)
  {
    s.serialize(w.key) + Put(w.window.start, 8)
  }

  /** Behind the key comes the start, of eight bytes, the greatest digit first. */
  lemma TimeBytes<K>(s: Serde<K>, w: Windowed<K>, i: nat)
    requires Fits(w.window.start, 8) && i < 8
    ensures var key, bytes := s.serialize(w.key), PutTime(s, w);
      && |bytes| == |key| + 8 && bytes[..|key|] == key
      && bytes[|key| + i] == Complement(w.window.start) / Span(7 - i) % 256
  {
    Spans();
    NumberBytes(w.window.start, 8, i);
  }

  /** The end is the start and the serde's own window size. */
  function GetTime<K>(s: Serde<K>, size: int, bytes: seq<Byte>): Result<Windowed<K>> {
    if |bytes| < 8 then Err(TooShort)
    else
      var split := |bytes| - 8;
      match s.deserialize(bytes[..split])
      case None => Err(BadValue)
      case Some(key) =>
        var start := Get(bytes[split..]);
        Ok(Windowed(key, Window(start, Wrapped(start + size))))
  }

  lemma WrappedExactly(x: int, y: int)
    requires I64_MIN <= y <= I64_MAX
    ensures Wrapped(x) == y <==> (y - x) % TWO_64 == 0
  {
  }

  /** A windowed key is read back exactly when its window has the serde's size, up to 2^64. Where
      the start and the size have a sum of 64 bits, that is the size itself. */
  lemma TimeRoundTrip<K(!new)>(s: Serde<K>, size: int, w: Windowed<K>)
    requires Lossless(s) && Fits(w.window.start, 8) && Fits(w.window.end, 8)
    ensures GetTime(s, size, PutTime(s, w)) == Ok(w) <==> (w.window.end - (w.window.start + size)) % TWO_64 == 0
    ensures Fits(w.window.start + size, 8) ==>
      (GetTime(s, size, PutTime(s, w)) == Ok(w) <==> w.window.end == w.window.start + size)
  {
    var key, start := s.serialize(w.key), Put(w.window.start, 8);
    var bytes := key + start;
    assert bytes[..|bytes| - 8] == key && bytes[|bytes| - 8..] == start;
    GetPut(w.window.start, 8);
    Spans();
    WrappedExactly(w.window.start + size, w.window.end);
  }
}
