/** Canonical encodings (src/util/serialize.h:19-61): how a value becomes bytes, how bytes are read back,
    and why each object has exactly one encoding. Formats are values, put together from smaller ones. */
module Codecs {
  import opened Types
  import opened Arith

  type Bytes = seq<byte>

  /** What a reader returns: a value and the bytes it leaves, or nothing. */
  type Parsed<+T> = Option<(T, Bytes)>

  /** A format: the values within its limits, their bytes, and the reader. */
  datatype Codec<!T> = Codec(ok: T -> bool, enc: T -> Bytes, dec: Bytes -> Parsed<T>)

  /** Every value within limits reads back, whatever follows. */
  ghost predicate RoundTrips<T(!new)>(c: Codec<T>) {
    forall x, rest :: c.ok(x) ==> c.dec(c.enc(x) + rest) == Some((x, rest))
  }

  /** Everything accepted is within limits and re-encodes to exactly the bytes consumed. */
  ghost predicate Canonical<T(!new)>(c: Codec<T>) {
    forall bs :: c.dec(bs).Some? ==> c.ok(c.dec(bs).value.0) && bs == c.enc(c.dec(bs).value.0) + c.dec(bs).value.1
  }

  /** Hence equal bytes mean equal values, and no encoding is a prefix of another. */
  lemma OneEncoding<T(!new)>(c: Codec<T>, x: T, y: T, more: Bytes)
    requires RoundTrips(c) && c.ok(x) && c.ok(y) && c.enc(x) + more == c.enc(y)
    ensures x == y && more == []
  {
    assert c.dec(c.enc(x) + more) == Some((x, more));
    assert c.enc(y) + [] == c.enc(y);
    assert c.dec(c.enc(y) + []) == Some((y, []));
  }

  // ---------------------------------------------------------------- bytes and varints

  function ReadByte(bs: Bytes): Parsed<byte> { if bs == [] then None else Some((bs[0], bs[1..])) }

  function ByteC(): Codec<byte> { Codec(b => true, b => [b], bs => ReadByte(bs)) }

  lemma ByteGood()
    ensures RoundTrips(ByteC()) && Canonical(ByteC())
  {
    forall x: byte, rest: Bytes ensures ByteC().dec(ByteC().enc(x) + rest) == Some((x, rest)) {
      assert ([x] + rest)[1..] == rest;
    }
  }

  /** LEB128: seven bits a byte, low first. */
  function VarintBytes(v: nat): Bytes { if v < 0x80 then [v] else [v % 0x80 + 0x80] + VarintBytes(v / 0x80) }

  /** The reader, at its `i`-th byte: at most ten bytes, the last at most 1, and no needless zero byte. */
  function ReadVarintAt(bs: Bytes, i: nat): Parsed<nat>
    requires i <= 9
    decreases 9 - i
  {
    if bs == [] then None
    else
      var c := bs[0];
      if i == 9 && c > 1 then None
      else if c < 0x80 then if c == 0 && i > 0 then None else Some((c as nat, bs[1..]))
      else
        match ReadVarintAt(bs[1..], i + 1)
        case None => None
        case Some((v, rest)) => Some(((c - 0x80) + 0x80 * v, rest))
  }

  /** What a varint can still hold after `i` bytes. */
  function Room(i: nat): nat
    requires i <= 9
    decreases 9 - i
  {
    if i == 9 then 2 else 0x80 * Room(i + 1)
  }

  lemma RoomIs64()
    ensures Room(0) == TWO64
  {
    assert Room(8) == 0x100;
    assert Room(6) == 0x40_0000;
    assert Room(4) == 0x10_0000_0000;
    assert Room(2) == 0x4_0000_0000_0000;
  }

  lemma {:induction false} VarintReads(v: nat, i: nat, rest: Bytes)
    requires i <= 9 && v < Room(i) && (i > 0 ==> v > 0)
    ensures ReadVarintAt(VarintBytes(v) + rest, i) == Some((v, rest))
    decreases v
  {
    var bs := VarintBytes(v) + rest;
    if v < 0x80 {
      assert bs[1..] == rest;
    } else {
      assert bs[1..] == VarintBytes(v / 0x80) + rest;
      VarintReads(v / 0x80, i + 1, rest);
    }
  }

  lemma {:induction false} VarintCanonical(bs: Bytes, i: nat)
    requires i <= 9 && ReadVarintAt(bs, i).Some?
    ensures var (v, rest) := ReadVarintAt(bs, i).value; v < Room(i) && (i > 0 ==> v > 0) && bs == VarintBytes(v) + rest
    decreases 9 - i
  {
    if bs[0] >= 0x80 {
      VarintCanonical(bs[1..], i + 1);
      assert bs == [bs[0]] + bs[1..];
    } else {
      RoomAtLeast(i);
      assert bs == [bs[0]] + bs[1..];
    }
  }

  lemma {:induction false} RoomAtLeast(i: nat)
    requires i <= 9
    ensures Room(i) >= 2 && (i < 9 ==> Room(i) >= 0x80)
    decreases 9 - i
  {
    if i < 9 { RoomAtLeast(i + 1); }
  }

  function ReadVarintMax(bs: Bytes, max: nat): Parsed<nat> {
    match ReadVarintAt(bs, 0)
    case None => None
    case Some((v, rest)) => if v > max then None else Some((v, rest))
  }

  function VarintC(max: nat): Codec<nat> {
    Codec(v => v < TWO64 && v <= max, v => VarintBytes(v), bs => ReadVarintMax(bs, max))
  }

  lemma VarintGood(max: nat)
    ensures RoundTrips(VarintC(max)) && Canonical(VarintC(max))
  {
    RoomIs64();
    var c := VarintC(max);
    forall v: nat, rest: Bytes | c.ok(v) ensures c.dec(c.enc(v) + rest) == Some((v, rest)) {
      VarintReads(v, 0, rest);
    }
    forall bs: Bytes | c.dec(bs).Some?
      ensures c.ok(c.dec(bs).value.0) && bs == c.enc(c.dec(bs).value.0) + c.dec(bs).value.1
    {
      VarintCanonical(bs, 0);
    }
  }

  // ---------------------------------------------------------------- fixed-size numbers

  /** `k` bytes, most significant first. */
  function BigEndian(v: nat, k: nat): (bs: Bytes)
    ensures |bs| == k
  {
    if k == 0 then [] else BigEndian(v / 256, k - 1) + [v % 256]
  }

  function BigEndianValue(bs: Bytes): nat
  {
    if bs == [] then 0 else BigEndianValue(bs[..|bs| - 1]) * 256 + bs[|bs| - 1]
  }

  function Limit(k: nat): nat { if k == 0 then 1 else 256 * Limit(k - 1) }

  lemma {:induction false} BigEndianReads(v: nat, k: nat)
    requires v < Limit(k)
    ensures BigEndianValue(BigEndian(v, k)) == v
  {
    if k > 0 {
      BigEndianReads(v / 256, k - 1);
      var bs := BigEndian(v, k);
      assert bs[..k - 1] == BigEndian(v / 256, k - 1);
    }
  }

  lemma {:induction false} BigEndianCanonical(bs: Bytes)
    ensures BigEndianValue(bs) < Limit(|bs|) && BigEndian(BigEndianValue(bs), |bs|) == bs
  {
    if bs != [] {
      var n := |bs| - 1;
      BigEndianCanonical(bs[..n]);
      assert bs == bs[..n] + [bs[n]];
    }
  }

  function LittleEndian(v: nat, k: nat): (bs: Bytes)
    ensures |bs| == k
  {
    if k == 0 then [] else [v % 256] + LittleEndian(v / 256, k - 1)
  }

  function LittleEndianValue(bs: Bytes): nat { if bs == [] then 0 else bs[0] + 256 * LittleEndianValue(bs[1..]) }

  lemma {:induction false} LittleEndianReads(v: nat, k: nat)
    requires v < Limit(k)
    ensures LittleEndianValue(LittleEndian(v, k)) == v
  {
    if k > 0 {
      LittleEndianReads(v / 256, k - 1);
      assert LittleEndian(v, k)[1..] == LittleEndian(v / 256, k - 1);
    }
  }

  lemma {:induction false} LittleEndianCanonical(bs: Bytes)
    ensures LittleEndianValue(bs) < Limit(|bs|) && LittleEndian(LittleEndianValue(bs), |bs|) == bs
  {
    if bs != [] { LittleEndianCanonical(bs[1..]); }
  }

  function Take(bs: Bytes, k: nat): Parsed<Bytes> { if |bs| < k then None else Some((bs[..k], bs[k..])) }

  function RawC(k: nat): Codec<Bytes> { Codec(b => |b| == k, b => b, bs => Take(bs, k)) }

  lemma RawGood(k: nat)
    ensures RoundTrips(RawC(k)) && Canonical(RawC(k))
  {
    var c := RawC(k);
    forall b: Bytes, rest: Bytes | c.ok(b) ensures c.dec(c.enc(b) + rest) == Some((b, rest)) {
      assert (b + rest)[..k] == b && (b + rest)[k..] == rest;
    }
    forall bs: Bytes | c.dec(bs).Some?
      ensures c.ok(c.dec(bs).value.0) && bs == c.enc(c.dec(bs).value.0) + c.dec(bs).value.1
    {}
  }

  // ---------------------------------------------------------------- building formats

  function ReadPair<A, B>(a: Codec<A>, b: Codec<B>, bs: Bytes): Parsed<(A, B)> {
    match a.dec(bs)
    case None => None
    case Some((x, rest)) =>
      match b.dec(rest)
      case None => None
      case Some((y, rest')) => Some(((x, y), rest'))
  }

  function PairC<A, B>(a: Codec<A>, b: Codec<B>): Codec<(A, B)> {
    Codec((p: (A, B)) => a.ok(p.0) && b.ok(p.1), (p: (A, B)) => a.enc(p.0) + b.enc(p.1), bs => ReadPair(a, b, bs))
  }

  lemma PairRoundTrips<A(!new), B(!new)>(a: Codec<A>, b: Codec<B>)
    requires RoundTrips(a) && RoundTrips(b)
    ensures RoundTrips(PairC(a, b))
  {
    var c := PairC(a, b);
    forall p: (A, B), rest: Bytes | c.ok(p) ensures c.dec(c.enc(p) + rest) == Some((p, rest)) {
      assert c.enc(p) + rest == a.enc(p.0) + (b.enc(p.1) + rest);
    }
  }

  lemma PairCanonical<A(!new), B(!new)>(a: Codec<A>, b: Codec<B>)
    requires Canonical(a) && Canonical(b)
    ensures Canonical(PairC(a, b))
  {
    var c := PairC(a, b);
    forall bs: Bytes | c.dec(bs).Some?
      ensures c.ok(c.dec(bs).value.0) && bs == c.enc(c.dec(bs).value.0) + c.dec(bs).value.1
    {
      var (x, rest) := a.dec(bs).value;
      var (y, rest') := b.dec(rest).value;
      assert bs == a.enc(x) + rest && rest == b.enc(y) + rest';
      assert bs == (a.enc(x) + b.enc(y)) + rest';
    }
  }

  function ReadMap<A, B>(a: Codec<A>, to: A -> B, bs: Bytes): Parsed<B> {
    match a.dec(bs)
    case None => None
    case Some((x, rest)) => Some((to(x), rest))
  }

  /** The same bytes for another type: `has` says which of its values have this form. */
  function MapC<A, B>(a: Codec<A>, to: A -> B, from: B -> A, has: B -> bool): Codec<B> {
    Codec(y => has(y) && a.ok(from(y)), y => a.enc(from(y)), bs => ReadMap(a, to, bs))
  }

  lemma MapGood<A(!new), B(!new)>(a: Codec<A>, to: A -> B, from: B -> A, has: B -> bool)
    requires forall y :: has(y) ==> to(from(y)) == y
    ensures RoundTrips(a) ==> RoundTrips(MapC(a, to, from, has))
    ensures Canonical(a) && (forall x :: a.ok(x) ==> has(to(x)) && from(to(x)) == x) ==>
              Canonical(MapC(a, to, from, has))
  {}

  // ---------------------------------------------------------------- lists

  function EncodeAll<T>(c: Codec<T>, xs: seq<T>): Bytes
  {
    if xs == [] then [] else c.enc(xs[0]) + EncodeAll(c, xs[1..])
  }

  function ReadN<T>(c: Codec<T>, n: nat, bs: Bytes): Parsed<seq<T>> {
    if n == 0 then Some(([], bs))
    else
      match c.dec(bs)
      case None => None
      case Some((x, rest)) =>
        match ReadN(c, n - 1, rest)
        case None => None
        case Some((xs, rest')) => Some(([x] + xs, rest'))
  }

  predicate AllOk<T>(c: Codec<T>, xs: seq<T>) { forall i :: 0 <= i < |xs| ==> c.ok(xs[i]) }

  lemma {:induction false} AllRead<T(!new)>(c: Codec<T>, xs: seq<T>, rest: Bytes)
    requires RoundTrips(c) && AllOk(c, xs)
    ensures ReadN(c, |xs|, EncodeAll(c, xs) + rest) == Some((xs, rest))
  {
    if xs == [] {
      assert EncodeAll(c, xs) + rest == rest;
    } else {
      var tail := EncodeAll(c, xs[1..]);
      assert EncodeAll(c, xs) + rest == c.enc(xs[0]) + (tail + rest);
      AllRead(c, xs[1..], rest);
      assert [xs[0]] + xs[1..] == xs;
    }
  }

  lemma {:induction false} AllCanonical<T(!new)>(c: Codec<T>, n: nat, bs: Bytes)
    requires Canonical(c) && ReadN(c, n, bs).Some?
    ensures var (xs, rest) := ReadN(c, n, bs).value; |xs| == n && AllOk(c, xs) && bs == EncodeAll(c, xs) + rest
  {
    if n > 0 {
      var (x, rest) := c.dec(bs).value;
      AllCanonical(c, n - 1, rest);
      var (xs, rest') := ReadN(c, n - 1, rest).value;
      assert ([x] + xs)[1..] == xs;
      assert bs == (c.enc(x) + EncodeAll(c, xs)) + rest';
    }
  }

  function ReadList<T>(c: Codec<T>, max: nat, bs: Bytes): Parsed<seq<T>> {
    match ReadVarintMax(bs, max)
    case None => None
    case Some((n, rest)) => ReadN(c, n, rest)
  }

  /** A count, then so many elements. */
  function ListC<T>(c: Codec<T>, max: nat): Codec<seq<T>> {
    Codec((xs: seq<T>) => |xs| < TWO64 && |xs| <= max && AllOk(c, xs),
          (xs: seq<T>) => VarintBytes(|xs|) + EncodeAll(c, xs),
          bs => ReadList(c, max, bs))
  }

  lemma ListRoundTrips<T(!new)>(c: Codec<T>, max: nat)
    requires RoundTrips(c)
    ensures RoundTrips(ListC(c, max))
  {
    var l := ListC(c, max);
    forall xs: seq<T>, rest: Bytes | l.ok(xs) ensures l.dec(l.enc(xs) + rest) == Some((xs, rest)) {
      ListReads(c, max, xs, rest);
    }
  }

  lemma ListReads<T(!new)>(c: Codec<T>, max: nat, xs: seq<T>, rest: Bytes)
    requires RoundTrips(c) && |xs| < TWO64 && |xs| <= max && AllOk(c, xs)
    ensures ReadList(c, max, (VarintBytes(|xs|) + EncodeAll(c, xs)) + rest) == Some((xs, rest))
  {
    hide RoundTrips, VarintBytes;
    var tail := EncodeAll(c, xs) + rest;
    assert (VarintBytes(|xs|) + EncodeAll(c, xs)) + rest == VarintBytes(|xs|) + tail;
    RoomIs64();
    VarintReads(|xs|, 0, tail);
    AllRead(c, xs, rest);
  }

  lemma ListCanonical<T(!new)>(c: Codec<T>, max: nat)
    requires Canonical(c)
    ensures Canonical(ListC(c, max))
  {
    hide Canonical, ReadList, AllOk, EncodeAll, VarintBytes;
    var l := ListC(c, max);
    forall bs: Bytes | l.dec(bs).Some?
      ensures l.ok(l.dec(bs).value.0) && bs == l.enc(l.dec(bs).value.0) + l.dec(bs).value.1
    {
      ListExact(c, max, bs);
    }
    CanonicalIs(l);
  }

  lemma CanonicalIs<T(!new)>(c: Codec<T>)
    requires forall bs :: c.dec(bs).Some? ==>
               c.ok(c.dec(bs).value.0) && bs == c.enc(c.dec(bs).value.0) + c.dec(bs).value.1
    ensures Canonical(c)
  {}

  /** A list that was read is within limits and was read from its own encoding. */
  lemma ListExact<T(!new)>(c: Codec<T>, max: nat, bs: Bytes)
    requires Canonical(c) && ReadList(c, max, bs).Some?
    ensures var (xs, rest) := ReadList(c, max, bs).value;
            |xs| < TWO64 && |xs| <= max && AllOk(c, xs) && bs == (VarintBytes(|xs|) + EncodeAll(c, xs)) + rest
  {
    hide Canonical;
    var (n, rest) := ReadVarintMax(bs, max).value;
    VarintExact(max, bs);
    AllCanonical(c, n, rest);
  }

  lemma VarintExact(max: nat, bs: Bytes)
    requires ReadVarintMax(bs, max).Some?
    ensures var (n, rest) := ReadVarintMax(bs, max).value; n < TWO64 && n <= max && bs == VarintBytes(n) + rest
  {
    VarintGood(max);
    assert VarintC(max).dec(bs) == ReadVarintMax(bs, max);
  }
}
