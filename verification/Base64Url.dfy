/** Unpadded base64url (section 5 of RFC 4648, padding omitted as in section 3.2),
    as `URL_SAFE_NO_PAD` encodes and decodes it: no padding, no stray bits. */
module Base64Url {
  import opened Prelude

  newtype Sextet = v: int | 0 <= v < 64

  function Symbol(v: Sextet): char {
    var n := v as int;
    if n < 26 then ('A' as int + n) as char
    else if n < 52 then ('a' as int + (n - 26)) as char
    else if n < 62 then ('0' as int + (n - 52)) as char
    else if n == 62 then '-'
    else '_'
  }

  predicate IsSymbol(c: char) {
    'A' <= c <= 'Z' || 'a' <= c <= 'z' || '0' <= c <= '9' || c == '-' || c == '_'
  }

  function ValueOf(c: char): Sextet
    requires IsSymbol(c)
  {
    if 'A' <= c <= 'Z' then (c as int - 'A' as int) as Sextet
    else if 'a' <= c <= 'z' then (c as int - 'a' as int + 26) as Sextet
    else if '0' <= c <= '9' then (c as int - '0' as int + 52) as Sextet
    else if c == '-' then 62
    else 63
  }

  predicate AllSymbols(s: string) {
    forall i :: 0 <= i < |s| ==> IsSymbol(s[i])
  }

  function Symbols(vs: seq<Sextet>): (s: string)
    ensures |s| == |vs| && forall i :: 0 <= i < |s| ==> s[i] == Symbol(vs[i])
  {
    seq(|vs|, i requires 0 <= i < |vs| => Symbol(vs[i]))
  }

  function Values(s: string): (vs: seq<Sextet>)
    requires AllSymbols(s)
    ensures |vs| == |s| && forall i :: 0 <= i < |s| ==> vs[i] == ValueOf(s[i])
  {
    seq(|s|, i requires 0 <= i < |s| => ValueOf(s[i]))
  }

  /** Three bytes become four sextets; one or two left over become two or three. */
  function Pack(b: Bytes): seq<Sextet> {
    if |b| == 0 then []
    else if |b| == 1 then [First(b[0]), Second(b[0], 0)]
    else if |b| == 2 then [First(b[0]), Second(b[0], b[1]), Third(b[1], 0)]
    else [First(b[0]), Second(b[0], b[1]), Third(b[1], b[2]), Fourth(b[2])] + Pack(b[3..])
  }

  function First(x: Byte): Sextet {
    (x as int / 4) as Sextet
  }

  function Second(x: Byte, y: Byte): Sextet {
    (x as int % 4 * 16 + y as int / 16) as Sextet
  }

  function Third(y: Byte, z: Byte): Sextet {
    (y as int % 16 * 4 + z as int / 64) as Sextet
  }

  function Fourth(z: Byte): Sextet {
    (z as int % 64) as Sextet
  }

  /** Back to bytes. A lone last sextet, or unused bits that are not zero, are errors. */
  function Unpack(v: seq<Sextet>): Option<Bytes> {
    if |v| == 0 then Some([])
    else if |v| == 1 then None
    else if |v| == 2 then
      if v[1] as int % 16 != 0 then None else Some([Left(v[0], v[1])])
    else if |v| == 3 then
      if v[2] as int % 4 != 0 then None else Some([Left(v[0], v[1]), Middle(v[1], v[2])])
    else
      match Unpack(v[4..])
      case Some(rest) => Some([Left(v[0], v[1]), Middle(v[1], v[2]), Right(v[2], v[3])] + rest)
      case None => None
  }

  function Left(v: Sextet, w: Sextet): Byte {
    (v as int * 4 + w as int / 16) as Byte
  }

  function Middle(v: Sextet, w: Sextet): Byte {
    (v as int % 16 * 16 + w as int / 4) as Byte
  }

  function Right(v: Sextet, w: Sextet): Byte {
    (v as int % 4 * 64 + w as int) as Byte
  }

  function Encode(b: Bytes): string {
    Symbols(Pack(b))
  }

  function Decode(s: string): Option<Bytes> {
    if AllSymbols(s) then Unpack(Values(s)) else None
  }

  // ----- The alphabet -----

  lemma Capitals(n: nat)
    requires n < 26
    ensures "ABCDEFGHIJKLMNOPQRSTUVWXYZ"[n] == ('A' as int + n) as char
  {}

  lemma Smalls(n: nat)
    requires n < 26
    ensures "abcdefghijklmnopqrstuvwxyz"[n] == ('a' as int + n) as char
  {}

  lemma Digits(n: nat)
    requires n < 10
    ensures "0123456789"[n] == ('0' as int + n) as char
  {}

  /** Table 2 of RFC 4648: the URL and filename safe alphabet, in order. */
  lemma SymbolsAreTheAlphabet(v: Sextet)
    ensures Symbol(v) == ("ABCDEFGHIJKLMNOPQRSTUVWXYZ" + "abcdefghijklmnopqrstuvwxyz" + "0123456789" + "-_")[v as int]
  {
    var n := v as int;
    if n < 26 {
      Capitals(n);
    } else if n < 52 {
      Smalls(n - 26);
    } else if n < 62 {
      Digits(n - 52);
    } else {
      assert "-_"[0] == '-' && "-_"[1] == '_';
    }
  }

  // ----- Decoding inverts encoding, and nothing else decodes -----

  lemma Quotients(a: nat, b: nat)
    ensures b < 16 ==> (a * 16 + b) / 16 == a && (a * 16 + b) % 16 == b
    ensures b < 4 ==> (a * 4 + b) / 4 == a && (a * 4 + b) % 4 == b
  {}

  lemma GroupBack(x: Byte, y: Byte, z: Byte)
    ensures Left(First(x), Second(x, y)) == x
    ensures Middle(Second(x, y), Third(y, z)) == y
    ensures Right(Third(y, z), Fourth(z)) == z
    ensures Second(x, 0) as int % 16 == 0 && Third(y, 0) as int % 4 == 0
  {
    Quotients(x as nat % 4, y as nat / 16);
    Quotients(y as nat % 16, z as nat / 64);
  }

  lemma {:induction false} UnpackPack(b: Bytes)
    ensures Unpack(Pack(b)) == Some(b)
  {
    hide First, Second, Third, Fourth, Left, Middle, Right;
    if |b| == 1 {
      GroupBack(b[0], 0, 0);
      assert b == [b[0]];
    } else if |b| == 2 {
      GroupBack(b[0], b[1], 0);
      assert b == [b[0], b[1]];
    } else if |b| >= 3 {
      GroupBack(b[0], b[1], b[2]);
      UnpackPack(b[3..]);
      assert Pack(b)[4..] == Pack(b[3..]);
      assert b == [b[0], b[1], b[2]] + b[3..];
    }
  }

  lemma GroupForth(p: Sextet, q: Sextet, r: Sextet, s: Sextet)
    ensures First(Left(p, q)) == p
    ensures Second(Left(p, q), Middle(q, r)) == q
    ensures Third(Middle(q, r), Right(r, s)) == r
    ensures Fourth(Right(r, s)) == s
    ensures q as int % 16 == 0 ==> Second(Left(p, q), 0) == q
    ensures r as int % 4 == 0 ==> Third(Middle(q, r), 0) == r
  {}

  lemma {:induction false} PackUnpack(v: seq<Sextet>)
    requires Unpack(v).Some?
    ensures Pack(Unpack(v).value) == v
  {
    hide First, Second, Third, Fourth, Left, Middle, Right;
    if |v| == 2 {
      GroupForth(v[0], v[1], 0, 0);
    } else if |v| == 3 {
      GroupForth(v[0], v[1], v[2], 0);
    } else if |v| >= 4 {
      GroupForth(v[0], v[1], v[2], v[3]);
      PackUnpack(v[4..]);
      var rest := Unpack(v[4..]).value;
      assert Unpack(v).value[3..] == rest;
      assert v == [v[0], v[1], v[2], v[3]] + v[4..];
    }
  }

  lemma SymbolsInvert(s: string, vs: seq<Sextet>)
    ensures AllSymbols(Symbols(vs)) && Values(Symbols(vs)) == vs
    ensures AllSymbols(s) ==> Symbols(Values(s)) == s
  {}

  /** Every byte string, of every length modulo three, decodes from its own encoding
      and from no other text. */
  lemma DecodesOnlyItsEncoding(s: string, b: Bytes)
    ensures Decode(s) == Some(b) <==> s == Encode(b)
  {
    SymbolsInvert(s, Pack(b));
    UnpackPack(b);
    if Decode(s) == Some(b) {
      PackUnpack(Values(s));
    }
  }

  /** The texts that decode at all: symbols only, no lone last symbol, and no stray
      bits in the last one. */
  predicate Decodable(v: seq<Sextet>) {
    match |v| % 4
    case 0 => true
    case 1 => false
    case 2 => v[|v| - 1] as int % 16 == 0
    case _ => v[|v| - 1] as int % 4 == 0
  }

  lemma {:induction false} UnpacksWhenDecodable(v: seq<Sextet>)
    ensures Unpack(v).Some? <==> Decodable(v)
  {
    hide Left, Middle, Right;
    if |v| >= 4 {
      UnpacksWhenDecodable(v[4..]);
    }
  }

  lemma DecodesWhen(s: string)
    ensures Decode(s).Some? <==> AllSymbols(s) && Decodable(Values(s))
  {
    if AllSymbols(s) {
      UnpacksWhenDecodable(Values(s));
    }
  }

  // ----- What the encoding is: the same bits, six at a time -----

  function Pow2(n: nat): nat {
    if n == 0 then 1 else 2 * Pow2(n - 1)
  }

  /** The `n` low bits of `v`, highest first. */
  function Bits(v: nat, n: nat): (r: seq<nat>)
    ensures |r| == n
  {
    if n == 0 then [] else Bits(v / 2, n - 1) + [v % 2]
  }

  function ByteBits(b: Bytes): seq<nat> {
    if b == [] then [] else Bits(b[0] as nat, 8) + ByteBits(b[1..])
  }

  function SextetBits(v: seq<Sextet>): seq<nat> {
    if v == [] then [] else Bits(v[0] as nat, 6) + SextetBits(v[1..])
  }

  lemma Halves(t: nat, b: nat)
    ensures (2 * t + b) / 2 == t + b / 2 && (2 * t + b) % 2 == b % 2
  {}

  lemma Doubles(a: nat, b: nat, k: nat)
    requires k > 0 && b < Pow2(k)
    ensures a * Pow2(k) == 2 * (a * Pow2(k - 1)) && b / 2 < Pow2(k - 1)
  {}

  lemma LastBit(v: nat, n: nat)
    ensures Bits(v, n + 1) == Bits(v / 2, n) + [v % 2]
  {}

  lemma {:induction false} JoinBits(a: nat, n: nat, b: nat, k: nat)
    requires b < Pow2(k)
    ensures Bits(a * Pow2(k) + b, n + k) == Bits(a, n) + Bits(b, k)
  {
    if k == 0 {
      NoBits(b);
      assert a * Pow2(k) + b == a;
    } else {
      hide Bits, Pow2;
      var t := a * Pow2(k - 1);
      Doubles(a, b, k);
      Halves(t, b);
      JoinBits(a, n, b / 2, k - 1);
      LastBit(2 * t + b, n + k - 1);
      LastBit(b, k - 1);
    }
  }

  lemma NoBits(v: nat)
    ensures Bits(v, 0) == []
  {}

  lemma PowersOfTwo()
    ensures Pow2(2) == 4 && Pow2(4) == 16 && Pow2(6) == 64
  {
    assert Pow2(1) == 2;
    assert Pow2(3) == 8;
    assert Pow2(5) == 32;
  }

  lemma ByteCuts(x: Byte)
    ensures Bits(x as nat, 8) == Bits(x as nat / 4, 6) + Bits(x as nat % 4, 2)
    ensures Bits(x as nat, 8) == Bits(x as nat / 16, 4) + Bits(x as nat % 16, 4)
    ensures Bits(x as nat, 8) == Bits(x as nat / 64, 2) + Bits(x as nat % 64, 6)
  {
    PowersOfTwo();
    hide Bits, Pow2;
    var n := x as nat;
    JoinBits(n / 4, 6, n % 4, 2);
    JoinBits(n / 16, 4, n % 16, 4);
    JoinBits(n / 64, 2, n % 64, 6);
  }

  lemma SextetJoins(x: Byte, y: Byte)
    ensures Bits(Second(x, y) as nat, 6) == Bits(x as nat % 4, 2) + Bits(y as nat / 16, 4)
    ensures Bits(Third(x, y) as nat, 6) == Bits(x as nat % 16, 4) + Bits(y as nat / 64, 2)
  {
    PowersOfTwo();
    hide Bits, Pow2;
    JoinBits(x as nat % 4, 2, y as nat / 16, 4);
    JoinBits(x as nat % 16, 4, y as nat / 64, 2);
  }

  function ThreeBytesBits(x: Byte, y: Byte, z: Byte): seq<nat> {
    Bits(x as nat, 8) + Bits(y as nat, 8) + Bits(z as nat, 8)
  }

  function FourSextetsBits(p: Sextet, q: Sextet, r: Sextet, s: Sextet): seq<nat> {
    Bits(p as nat, 6) + Bits(q as nat, 6) + Bits(r as nat, 6) + Bits(s as nat, 6)
  }

  lemma Regroup<T>(a: seq<T>, b: seq<T>, c: seq<T>, d: seq<T>, e: seq<T>, f: seq<T>)
    ensures a + (b + c) + (d + e) + f == (a + b) + (c + d) + (e + f)
  {}

  lemma GroupBits(x: Byte, y: Byte, z: Byte)
    ensures FourSextetsBits(First(x), Second(x, y), Third(y, z), Fourth(z)) == ThreeBytesBits(x, y, z)
  {
    hide Bits, Second, Third;
    ByteCuts(x);
    ByteCuts(y);
    ByteCuts(z);
    SextetJoins(x, y);
    SextetJoins(y, z);
    Regroup(Bits(x as nat / 4, 6), Bits(x as nat % 4, 2), Bits(y as nat / 16, 4),
            Bits(y as nat % 16, 4), Bits(z as nat / 64, 2), Bits(z as nat % 64, 6));
  }

  /** How many zero bits fill up the last symbol. */
  function Fill(n: nat): nat {
    if n % 3 == 1 then 4 else if n % 3 == 2 then 2 else 0
  }

  lemma NextByte(b: Bytes)
    requires b != []
    ensures ByteBits(b) == Bits(b[0] as nat, 8) + ByteBits(b[1..])
  {}

  lemma NextSextet(v: seq<Sextet>)
    requires v != []
    ensures SextetBits(v) == Bits(v[0] as nat, 6) + SextetBits(v[1..])
  {}

  lemma Associate<T>(a: seq<T>, b: seq<T>, c: seq<T>, d: seq<T>, e: seq<T>)
    ensures a + (b + (c + d)) == (a + b + c) + d
    ensures a + (b + (c + (d + e))) == (a + b + c + d) + e
  {}

  lemma ThreeBytes(b: Bytes)
    requires |b| >= 3
    ensures ByteBits(b) == ThreeBytesBits(b[0], b[1], b[2]) + ByteBits(b[3..])
  {
    hide Bits, ByteBits;
    NextByte(b);
    NextByte(b[1..]);
    NextByte(b[2..]);
    assert b[1..][1..] == b[2..] && b[2..][1..] == b[3..];
    Associate(Bits(b[0] as nat, 8), Bits(b[1] as nat, 8), Bits(b[2] as nat, 8), ByteBits(b[3..]), []);
  }

  lemma FourSextets(v: seq<Sextet>)
    requires |v| >= 4
    ensures SextetBits(v) == FourSextetsBits(v[0], v[1], v[2], v[3]) + SextetBits(v[4..])
  {
    hide Bits, SextetBits;
    NextSextet(v);
    NextSextet(v[1..]);
    NextSextet(v[2..]);
    NextSextet(v[3..]);
    assert v[1..][1..] == v[2..] && v[2..][1..] == v[3..] && v[3..][1..] == v[4..];
    Associate(Bits(v[0] as nat, 6), Bits(v[1] as nat, 6), Bits(v[2] as nat, 6), Bits(v[3] as nat, 6), SextetBits(v[4..]));
  }

  lemma LastByte(x: Byte)
    ensures SextetBits([First(x), Second(x, 0)]) == ByteBits([x]) + Bits(0, 4)
  {
    hide Bits;
    ByteCuts(x);
    SextetJoins(x, 0);
    hide SextetBits, ByteBits;
    var v := [First(x), Second(x, 0)];
    NextByte([x]);
    NextSextet(v);
    NextSextet(v[1..]);
  }

  lemma LastTwoBytes(x: Byte, y: Byte)
    ensures SextetBits([First(x), Second(x, y), Third(y, 0)]) == ByteBits([x, y]) + Bits(0, 2)
  {
    hide Bits;
    ByteCuts(x);
    ByteCuts(y);
    SextetJoins(x, y);
    SextetJoins(y, 0);
    hide SextetBits, ByteBits;
    var v := [First(x), Second(x, y), Third(y, 0)];
    NextByte([x, y]);
    NextByte([x, y][1..]);
    NextSextet(v);
    NextSextet(v[1..]);
    NextSextet(v[2..]);
  }

  lemma NextGroup(b: Bytes)
    requires |b| >= 3
    ensures SextetBits(Pack(b)) == ThreeBytesBits(b[0], b[1], b[2]) + SextetBits(Pack(b[3..]))
  {
    hide Bits, SextetBits, FourSextetsBits, ThreeBytesBits;
    GroupBits(b[0], b[1], b[2]);
    FourSextets(Pack(b));
    assert Pack(b)[4..] == Pack(b[3..]);
  }

  lemma {:induction false} PackedLength(b: Bytes)
    ensures |Pack(b)| == (4 * |b| + 2) / 3
  {
    if |b| >= 3 {
      PackedLength(b[3..]);
    }
  }

  lemma {:induction false} PackedBits(b: Bytes)
    ensures SextetBits(Pack(b)) == ByteBits(b) + Bits(0, Fill(|b|))
  {
    hide Bits, SextetBits, ByteBits, ThreeBytesBits, First, Second, Third, Fourth;
    if b == [] {
      NothingLeft();
    } else if |b| == 1 {
      LastByte(b[0]);
      assert b == [b[0]];
    } else if |b| == 2 {
      LastTwoBytes(b[0], b[1]);
      assert b == [b[0], b[1]];
    } else {
      hide Pack;
      PackedBits(b[3..]);
      NextGroup(b);
      ThreeBytes(b);
    }
  }

  lemma NothingLeft()
    ensures Bits(0, 0) == [] && SextetBits([]) == [] && ByteBits([]) == []
  {}

  /** The encoding spells out the bits of the bytes, six to a symbol, with only as
      many zero bits added as fill the last symbol. */
  lemma {:induction false} EncodesTheBits(b: Bytes)
    ensures |Encode(b)| == (4 * |b| + 2) / 3
    ensures AllSymbols(Encode(b)) && SextetBits(Values(Encode(b))) == ByteBits(b) + Bits(0, Fill(|b|))
  {
    SymbolsInvert("", Pack(b));
    PackedLength(b);
    PackedBits(b);
  }
}
