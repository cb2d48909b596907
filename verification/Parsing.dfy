/** Parsers over byte sequences, and what makes a layout prefix-free. */
module Parsing {
  import opened Bytes

  datatype Kind =
    | Truncated
    | Trailing
    | UnsupportedVersion(version: int)
    | UnknownStatus(code: int)
    | NegativeLength(length: int)
    | NegativeCount(count: int)
    | NotUtf8

  datatype Parsed<T> = Ok(value: T, rest: seq<Byte>) | Err(kind: Kind)

  type Parser<!T> = seq<Byte> -> Parsed<T>

  function Return<T>(v: T): Parser<T> {
    (d: seq<Byte>) => Ok(v, d)
  }

  function Fail<T>(kind: Kind): Parser<T> {
    (d: seq<Byte>) => Err(kind)
  }

  /** Exactly `n` bytes. */
  function Take(n: nat): Parser<seq<Byte>> {
    (d: seq<Byte>) => if n <= |d| then Ok(d[..n], d[n..]) else Err(Truncated)
  }

  function Then<A, B>(p: Parser<A>, f: A -> Parser<B>): Parser<B> {
    (d: seq<Byte>) =>
      match p(d)
      case Err(kind) => Err(kind)
      case Ok(a, rest) => f(a)(rest)
  }

  /** `n` rounds, each updating an accumulator. */
  function Rounds<A>(n: nat, step: A -> Parser<A>, acc: A, d: seq<Byte>): Parsed<A> {
    if n == 0 then Ok(acc, d)
    else
      match step(acc)(d)
      case Err(kind) => Err(kind)
      case Ok(a, rest) => Rounds(n - 1, step, a, rest)
  }

  function Loop<A>(n: nat, step: A -> Parser<A>, acc: A): Parser<A> {
    (d: seq<Byte>) => Rounds(n, step, acc, d)
  }

  function Int(w: nat): Parser<int> {
    Then(Take(w), (b: seq<Byte>) => Return(Get(b)))
  }

  // ---- regular parsers ----

  /** On `used`, whatever follows, the parser yields `v` and consumes just that; on anything
      shorter it reports truncation. */
  ghost predicate Reads<T>(p: Parser<T>, used: seq<Byte>, v: T) {
    && (forall e: seq<Byte> {:trigger p(used + e)} :: p(used + e) == Ok(v, e))
    && (forall k {:trigger p(used[..k])} :: 0 <= k < |used| ==> p(used[..k]) == Err(Truncated))
  }

  /** Success depends on nothing but the bytes consumed. */
  ghost predicate Regular<T>(p: Parser<T>) {
    forall d: seq<Byte> {:trigger Consumes(p, d)} :: p(d).Ok? ==> Consumes(p, d)
  }

  ghost predicate Consumes<T>(p: Parser<T>, d: seq<Byte>)
    requires p(d).Ok?
  {
    exists used: seq<Byte> :: d == used + p(d).rest && Reads(p, used, p(d).value)
  }

  lemma ReturnReads<T>(v: T)
    ensures Reads(Return(v), [], v) && Regular(Return(v))
  {
    forall e: seq<Byte>
      ensures Return(v)([] + e) == Ok(v, e)
    {
      assert [] + e == e;
    }
    forall d: seq<Byte>
      ensures Consumes(Return(v), d)
    {
      assert d == [] + d;
    }
  }

  lemma FailRegular<T>(kind: Kind)
    ensures Regular<T>(Fail(kind))
  {
  }

  lemma TakeReads(b: seq<Byte>)
    ensures Reads(Take(|b|), b, b)
  {
    forall e: seq<Byte>
      ensures Take(|b|)(b + e) == Ok(b, e)
    {
      assert (b + e)[..|b|] == b && (b + e)[|b|..] == e;
    }
  }

  lemma TakeRegular(n: nat)
    ensures Regular(Take(n))
  {
    forall d: seq<Byte> | Take(n)(d).Ok?
      ensures Consumes(Take(n), d)
    {
      assert d == d[..n] + d[n..];
      TakeReads(d[..n]);
    }
  }

  lemma ThenReads<A, B>(p: Parser<A>, f: A -> Parser<B>, u: seq<Byte>, a: A, u': seq<Byte>, b: B)
    requires Reads(p, u, a) && Reads(f(a), u', b)
    ensures Reads(Then(p, f), u + u', b)
  {
    forall e: seq<Byte>
      ensures Then(p, f)((u + u') + e) == Ok(b, e)
    {
      assert (u + u') + e == u + (u' + e);
    }
    forall k | 0 <= k < |u + u'|
      ensures Then(p, f)((u + u')[..k]) == Err(Truncated)
    {
      if k < |u| {
        assert (u + u')[..k] == u[..k];
      } else {
        assert (u + u')[..k] == u + u'[..k - |u|];
      }
    }
  }

  lemma ThenRegular<A(!new), B>(p: Parser<A>, f: A -> Parser<B>)
    requires Regular(p) && forall a: A :: Regular(f(a))
    ensures Regular(Then(p, f))
  {
    forall d: seq<Byte> | Then(p, f)(d).Ok?
      ensures Consumes(Then(p, f), d)
    {
      ThenConsumes(p, f, d);
    }
  }

  lemma ThenConsumes<A, B>(p: Parser<A>, f: A -> Parser<B>, d: seq<Byte>)
    requires Regular(p) && Then(p, f)(d).Ok? && Regular(f(p(d).value))
    ensures Consumes(Then(p, f), d)
  {
    var a, rest := p(d).value, p(d).rest;
    var b, rest' := f(a)(rest).value, f(a)(rest).rest;
    assert Consumes(p, d) && Consumes(f(a), rest);
    var u: seq<Byte> :| d == u + rest && Reads(p, u, a);
    var u': seq<Byte> :| rest == u' + rest' && Reads(f(a), u', b);
    ThenReads(p, f, u, a, u', b);
    assert d == (u + u') + rest';
  }

  lemma SameReads<T>(p: Parser<T>, q: Parser<T>, used: seq<Byte>, v: T)
    requires Reads(p, used, v) && forall d: seq<Byte> :: p(d) == q(d)
    ensures Reads(q, used, v)
  {
  }

  lemma LoopReads<A>(n: nat, step: A -> Parser<A>, acc: A, u: seq<Byte>, a: A, u': seq<Byte>, b: A)
    requires Reads(step(acc), u, a) && Reads(Loop(n, step, a), u', b)
    ensures Reads(Loop(n + 1, step, acc), u + u', b)
  {
    var f := (a: A) => Loop(n, step, a);
    ThenReads(step(acc), f, u, a, u', b);
    SameReads(Then(step(acc), f), Loop(n + 1, step, acc), u + u', b);
  }

  lemma SameRegular<T>(p: Parser<T>, q: Parser<T>)
    requires Regular(p) && forall d: seq<Byte> :: p(d) == q(d)
    ensures Regular(q)
  {
    forall d: seq<Byte> | q(d).Ok?
      ensures Consumes(q, d)
    {
      assert p(d) == q(d) && Consumes(p, d);
      var used: seq<Byte> :| d == used + p(d).rest && Reads(p, used, p(d).value);
      assert Reads(q, used, q(d).value);
    }
  }

  lemma {:induction false} LoopRegular<A(!new)>(n: nat, step: A -> Parser<A>, acc: A)
    requires forall a: A :: Regular(step(a))
    ensures Regular(Loop(n, step, acc))
    decreases n
  {
    if n == 0 {
      ReturnReads(acc);
      SameRegular(Return(acc), Loop(n, step, acc));
    } else {
      var f := (a: A) => Loop(n - 1, step, a);
      forall a: A
        ensures Regular(f(a))
      {
        LoopRegular(n - 1, step, a);
      }
      ThenRegular(step(acc), f);
      SameRegular(Then(step(acc), f), Loop(n, step, acc));
    }
  }

  lemma IntReads(x: int, w: nat)
    requires Fits(x, w)
    ensures Reads(Int(w), Put(x, w), x)
  {
    var b := Put(x, w);
    var f := (b: seq<Byte>) => Return(Get(b));
    GetPut(x, w);
    TakeReads(b);
    ReturnReads(x);
    ThenReads(Take(w), f, b, b, [], x);
    assert b + [] == b;
  }

  lemma IntRegular(w: nat)
    ensures Regular(Int(w))
  {
    TakeRegular(w);
    var f := (b: seq<Byte>) => Return(Get(b));
    forall b: seq<Byte>
      ensures Regular(f(b))
    {
      ReturnReads(Get(b));
    }
    ThenRegular(Take(w), f);
  }

  // ---- whole records ----

  /** The part of a record that a decoder reads. */
  datatype Part = KeyPart | ValuePart

  datatype Decoded<T> = Record(value: T) | Malformed(part: Part, kind: Kind)

  /** A record is decoded when the parser consumes all of it. */
  function Whole<T>(part: Part, p: Parser<T>, d: seq<Byte>): Decoded<T> {
    match p(d)
    case Err(kind) => Malformed(part, kind)
    case Ok(v, rest) => if rest == [] then Record(v) else Malformed(part, Trailing)
  }

  /** A regular layout is prefix-free: cut a record short and it is truncated, extend it and it
      has trailing bytes. */
  lemma PrefixFree<T>(part: Part, p: Parser<T>, d: seq<Byte>)
    requires Regular(p) && Whole(part, p, d).Record?
    ensures forall k :: 0 <= k < |d| ==> Whole(part, p, d[..k]) == Malformed(part, Truncated)
    ensures forall e: seq<Byte> :: e != [] ==> Whole(part, p, d + e) == Malformed(part, Trailing)
  {
    assert Consumes(p, d);
    var used: seq<Byte> :| d == used + p(d).rest && Reads(p, used, p(d).value);
    assert used == d;
  }
}
