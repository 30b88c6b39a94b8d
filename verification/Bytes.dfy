/** Byte strings, fixed-width integers and the few wrappers shared by every component. */
module Bytes {

  type Byte = x: int | 0 <= x < 256

  type Bytes = seq<Byte>

  const HASH_SIZE: nat := 32

  /** What SHA-256 returns: exactly HASH_SIZE bytes. */
  type Digest = d: Bytes | |d| == HASH_SIZE witness seq(HASH_SIZE, _ => 0)

  datatype Option<+T> = None | Some(value: T)

  datatype Result<+T, +E> = Ok(value: T) | Err(error: E)

  const TWO32: nat := 0x1_0000_0000
  const TWO64: nat := 0x1_0000_0000_0000_0000

  /** Big-endian encoding of the low 32 bits of n, as DataView.setUint32 and binary.BigEndian write it. */
  function U32(n: int): (b: Bytes)
    ensures |b| == 4
  {
    var n1 := n / 256;
    var n2 := n1 / 256;
    [(n2 / 256) % 256, n2 % 256, n1 % 256, n % 256]
  }

  function ReadU32(b: Bytes, offset: nat): (n: nat)
    requires offset + 4 <= |b|
    ensures n < TWO32
  {
    256 * (256 * (256 * (b[offset] as int) + b[offset + 1] as int) + b[offset + 2] as int) + b[offset + 3] as int
  }

  function U64(n: int): (b: Bytes)
    ensures |b| == 8
  {
    U32(n / TWO32) + U32(n)
  }

  lemma ModUnique(n: int, q: int, r: int, m: nat)
    requires m > 0 && 0 <= r < m && n == m * q + r
    ensures n % m == r && n / m == q
  {
    var d := n / m - q;
    assert m * d == r - n % m;
    MulWithin(m, d);
  }

  lemma MulWithin(m: int, d: int)
    requires -m < m * d < m
    ensures d == 0
  {
  }

  /** Reading back what U32 wrote yields the value modulo 2^32. */
  lemma ReadU32OfU32(n: int, rest: Bytes)
    ensures ReadU32(U32(n) + rest, 0) == n % TWO32
  {
    var b := U32(n) + rest;
    assert b[0] == U32(n)[0] && b[1] == U32(n)[1] && b[2] == U32(n)[2] && b[3] == U32(n)[3];
    var n1 := n / 256;
    var n2 := n1 / 256;
    var n3 := n2 / 256;
    var n4 := n3 / 256;
    ModUnique(n, n4, ReadU32(b, 0), TWO32);
  }

  lemma U32Injective(m: int, n: int)
    requires U32(m) == U32(n)
    ensures m % TWO32 == n % TWO32
  {
    ReadU32OfU32(m, []);
    ReadU32OfU32(n, []);
    assert U32(m) + [] == U32(m) && U32(n) + [] == U32(n);
  }

  /** Writing back what ReadU32 read reproduces the four bytes. */
  lemma U32OfReadU32(b: Bytes)
    requires |b| == 4
    ensures U32(ReadU32(b, 0)) == b
  {
    var n := ReadU32(b, 0);
    var n1 := n / 256;
    var n2 := n1 / 256;
    assert n1 == 256 * (256 * (b[0] as int) + b[1] as int) + b[2] as int;
    assert n2 == 256 * (b[0] as int) + b[1] as int;
    assert n2 / 256 == b[0];
  }

  lemma U64Injective(m: int, n: int)
    requires U64(m) == U64(n)
    ensures m % TWO64 == n % TWO64
  {
    SplitEqualPrefix(U32(m / TWO32), U32(n / TWO32), U32(m), U32(n));
    U32Injective(m / TWO32, n / TWO32);
    U32Injective(m, n);
    U64Residue(m);
    U64Residue(n);
  }

  lemma U64Residue(n: int)
    ensures n % TWO64 == ((n / TWO32) % TWO32) * TWO32 + n % TWO32
  {
    var hi := n / TWO32;
    ModUnique(n, hi / TWO32, (hi % TWO32) * TWO32 + n % TWO32, TWO64);
  }

  /** Two concatenations whose first parts are equally long agree part by part. */
  lemma SplitEqualPrefix(a: Bytes, b: Bytes, x: Bytes, y: Bytes)
    requires a + x == b + y && |a| == |b|
    ensures a == b && x == y
  {
    assert a == (a + x)[..|a|] && b == (b + y)[..|b|];
    assert x == (a + x)[|a|..] && y == (b + y)[|b|..];
  }

  function Elements<T>(s: seq<T>): set<T> {
    set x | x in s
  }

  lemma ElementsOfPrefix<T>(s: seq<T>, i: nat)
    requires i < |s|
    ensures Elements(s[..i + 1]) == Elements(s[..i]) + {s[i]}
  {
    assert s[..i + 1] == s[..i] + [s[i]];
  }

  lemma ElementsOfAppend<T>(s: seq<T>, x: T)
    ensures Elements(s + [x]) == Elements(s) + {x}
  {
  }
}
