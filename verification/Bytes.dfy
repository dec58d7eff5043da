/** Bytes, the big-endian fields of RTMP and FLV headers, and facts about byte sequences used everywhere. */
module Bytes {
  type Byte = b: int | 0 <= b < 256

  /** `uint8_t x[3]` members: a 24-bit big-endian field. */
  type Three = s: seq<Byte> | |s| == 3 witness [0, 0, 0]

  const TWO_TO_24 := 0x100_0000
  const TWO_TO_32 := 0x1_0000_0000

  /** Enough bytes of memory for any message, whatever they hold. */
  type Memory = s: seq<Byte> | |s| == TWO_TO_24 witness seq(TWO_TO_24, _ => 0)

  function Min(a: nat, b: nat): nat {
    if a < b then a else b
  }

  function U24(s: Three): (n: nat)
    ensures n < TWO_TO_24
  {
    s[0] as int * 65536 + s[1] as int * 256 + s[2] as int
  }

  function BE24(n: nat): Three
    requires n < TWO_TO_24
  {
    [n / 65536, n / 256 % 256, n % 256]
  }

  function U32(s: seq<Byte>): (n: nat)
    requires |s| == 4
    ensures n < TWO_TO_32
  {
    s[0] as int * 16777216 + s[1] as int * 65536 + s[2] as int * 256 + s[3] as int
  }

  function BE32(n: nat): (s: seq<Byte>)
    requires n < TWO_TO_32
    ensures |s| == 4
  {
    [n / 16777216, n / 65536 % 256, n / 256 % 256, n % 256]
  }

  lemma SecondByte(n: nat)
    ensures n / 256 == n / 65536 * 256 + n / 256 % 256
  {
  }

  lemma ThirdByte(n: nat)
    ensures n / 65536 == n / 16777216 * 256 + n / 65536 % 256
  {
  }

  lemma U24OfBE24(n: nat)
    requires n < TWO_TO_24
    ensures U24(BE24(n)) == n
  {
    SecondByte(n);
  }

  lemma FromFour(n: nat, a: nat, b: nat, c: nat, d: nat)
    requires n == d + 256 * (c + 256 * (b + 256 * a))
    ensures a * 16777216 + b * 65536 + c * 256 + d == n
  {
  }

  lemma U32OfBE32(n: nat)
    requires n < TWO_TO_32
    ensures U32(BE32(n)) == n
  {
    var s := BE32(n);
    assert s[0] == n / 16777216 && s[1] == n / 65536 % 256 && s[2] == n / 256 % 256 && s[3] == n % 256;
    assert U32(s) == s[0] as int * 16777216 + s[1] as int * 65536 + s[2] as int * 256 + s[3] as int;
    hide BE32, U32;
    SecondByte(n);
    ThirdByte(n);
    FromFour(n, s[0], s[1], s[2], s[3]);
  }

  lemma ModUnique(n: nat, q: nat, r: nat, m: nat)
    requires m > 0 && r < m && n == m * q + r
    ensures n % m == r
  {
    var d := n / m - q;
    assert m * d == r - n % m;
    assert d == 0 by {
      assert d >= 1 ==> m * d >= m;
      assert d <= -1 ==> m * d <= -(m as int);
    }
  }

  lemma ModAdd(a: nat, b: nat, m: nat)
    requires m > 0
    ensures (a % m + b) % m == (a + b) % m
  {
    var q, r := (a % m + b) / m, (a % m + b) % m;
    assert a + b == m * (a / m + q) + r;
    ModUnique(a + b, a / m + q, r, m);
  }

  lemma HighByte(q: nat, r: nat)
    requires r < TWO_TO_24
    ensures (q * TWO_TO_24 + r) / 65536 % 256 == r / 65536
  {
    assert (q * TWO_TO_24 + r) / 65536 == q * 256 + r / 65536;
    ModUnique(q * 256 + r / 65536, q, r / 65536, 256);
  }

  lemma MiddleByte(q: nat, r: nat)
    requires r < TWO_TO_24
    ensures (q * TWO_TO_24 + r) / 256 % 256 == r / 256 % 256
  {
    assert (q * TWO_TO_24 + r) / 256 == q * 65536 + r / 256;
    ModUnique(q * 65536 + r / 256, q * 256 + r / 256 / 256, r / 256 % 256, 256);
  }

  /** The three low bytes of a number, and the number modulo 2^24. */
  lemma LowBytes(n: nat)
    ensures [n / 65536 % 256, n / 256 % 256, n % 256] == BE24(n % TWO_TO_24)
  {
    var q, r := n / TWO_TO_24, n % TWO_TO_24;
    assert n == q * TWO_TO_24 + r;
    HighByte(q, r);
    MiddleByte(q, r);
    ModUnique(n, q * 65536 + r / 256, r % 256, 256);
  }

  // Facts about byte sequences, by name so that they are used only where they are needed.

  lemma Regroup3(a: seq<Byte>, b: seq<Byte>, c: seq<Byte>)
    ensures a + b + c == a + (b + c)
  {
  }

  lemma Regroup4(a: seq<Byte>, b: seq<Byte>, c: seq<Byte>, d: seq<Byte>)
    ensures a + b + c + d == a + (b + (c + d))
  {
  }

  lemma Regroup5(a: seq<Byte>, b: seq<Byte>, c: seq<Byte>, d: seq<Byte>, e: seq<Byte>)
    ensures a + b + c + d + e == a + (b + (c + (d + e)))
  {
  }

  lemma FrontAndRest(front: seq<Byte>, rest: seq<Byte>)
    ensures (front + rest)[..|front|] == front && (front + rest)[|front|..] == rest
  {
  }

  lemma SliceBehind(front: seq<Byte>, rest: seq<Byte>, i: nat, j: nat)
    requires i <= j <= |rest|
    ensures (front + rest)[|front| + i..|front| + j] == rest[i..j]
    ensures (front + rest)[|front| + j..] == rest[j..]
  {
  }

  lemma SliceWithin(s: seq<Byte>, ext: seq<Byte>, i: nat, j: nat)
    requires i <= j <= |s|
    ensures (s + ext)[i..j] == s[i..j]
    ensures (s + ext)[j..] == s[j..] + ext
  {
  }

  lemma SliceTwice(s: seq<Byte>, n: nat, k: nat)
    requires n + k <= |s|
    ensures s[n..][..k] == s[n..n + k] && s[n..][k..] == s[n + k..]
  {
  }

  lemma NothingInFront(s: seq<Byte>)
    ensures [] + s == s && s + [] == s
  {
  }

  /** All the byte strings of a list, in order. */
  function Concat(parts: seq<seq<Byte>>): seq<Byte> {
    if parts == [] then [] else parts[0] + Concat(parts[1..])
  }

  lemma {:induction false} ConcatAppend(a: seq<seq<Byte>>, b: seq<seq<Byte>>)
    ensures Concat(a + b) == Concat(a) + Concat(b)
  {
    if a == [] {
      assert a + b == b;
    } else {
      assert (a + b)[1..] == a[1..] + b;
      ConcatAppend(a[1..], b);
    }
  }

  /** The bytes of an ASCII string. */
  function Ascii(s: string): (b: seq<Byte>)
    ensures |b| == |s|
  {
    seq(|s|, i requires 0 <= i < |s| => s[i] as int % 256)
  }
}
