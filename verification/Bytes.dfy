/** Octets, C strings and big-endian numbers: the vocabulary of the wire formats. */
module Bytes {

  type byte = x: int | 0 <= x < 256

  datatype Option<+T> = None | Some(value: T)

  /** The C string stored at the start of `s`: everything before the first NUL. */
  function CString(s: seq<byte>): (r: seq<byte>)
    ensures r <= s
    ensures 0 !in r
    ensures |r| < |s| ==> s[|r|] == 0
  {
    if s == [] || s[0] == 0 then [] else [s[0]] + CString(s[1..])
  }

  lemma {:induction false} CStringOfNulFree(s: seq<byte>)
    requires 0 !in s
    ensures CString(s) == s
  {
    if s != [] {
      CStringOfNulFree(s[1..]);
    }
  }

  lemma {:induction false} CStringAt(s: seq<byte>, n: nat)
    requires n < |s| && s[n] == 0 && 0 !in s[..n]
    ensures CString(s) == s[..n]
  {
    if n > 0 {
      assert s[0] in s[..n] && s[1..][..n - 1] == s[..n][1..];
      CStringAt(s[1..], n - 1);
      assert s[..n] == [s[0]] + s[1..][..n - 1];
    }
  }

  /** What follows the terminator is invisible. */
  lemma {:induction false} CStringBeforeTerminator(s: seq<byte>, junk: seq<byte>)
    ensures CString(s + [0] + junk) == CString(s)
  {
    if s == [] {
      assert (s + [0] + junk)[0] == 0;
    } else {
      CStringBeforeTerminator(s[1..], junk);
      assert (s + [0] + junk)[1..] == s[1..] + [0] + junk;
    }
  }

  /** Four octets, most significant first, as one 32-bit number. */
  function FromBigEndian(b: seq<byte>): (n: nat)
    requires |b| == 4
    ensures n < 0x1_0000_0000
  {
    b[3] as int + 0x100 * (b[2] as int) + 0x1_0000 * (b[1] as int) + 0x100_0000 * (b[0] as int)
  }

  function ToBigEndian(n: nat): (b: seq<byte>)
    ensures |b| == 4
  {
    [n / 0x100_0000 % 0x100, n / 0x1_0000 % 0x100, n / 0x100 % 0x100, n % 0x100]
  }

  /** Shifting by 16 or 24 is shifting by 8 again and again. */
  lemma ShiftTwice(n: nat)
    ensures n / 0x1_0000 == n / 0x100 / 0x100
  {
  }

  lemma ShiftThrice(n: nat)
    ensures n / 0x100_0000 == n / 0x100 / 0x100 / 0x100
  {
    ShiftTwice(n);
    assert n / 0x100_0000 == n / 0x1_0000 / 0x100;
  }

  /** Four digits in base 256, least significant first. */
  lemma FourDigits(n: nat, d0: nat, n1: nat, d1: nat, n2: nat, d2: nat, n3: nat, d3: nat, top: nat)
    requires n == 0x100 * n1 + d0 && n1 == 0x100 * n2 + d1
    requires n2 == 0x100 * n3 + d2 && n3 == 0x100 * top + d3
    requires d0 < 0x100 && d1 < 0x100 && d2 < 0x100 && d3 < 0x100
    ensures n % 0x1_0000_0000 == d0 + 0x100 * d1 + 0x1_0000 * d2 + 0x100_0000 * d3
  {
    var low := d0 + 0x100 * d1 + 0x1_0000 * d2 + 0x100_0000 * d3;
    assert n == 0x1_0000_0000 * top + low && low < 0x1_0000_0000;
  }

  /** Only the low 32 bits of a number travel. */
  lemma BigEndianRoundTrip(n: nat)
    ensures FromBigEndian(ToBigEndian(n)) == n % 0x1_0000_0000
  {
    var n1 := n / 0x100;
    var n2 := n1 / 0x100;
    var n3 := n2 / 0x100;
    assert ToBigEndian(n) == [n3 % 0x100, n2 % 0x100, n1 % 0x100, n % 0x100] by {
      ShiftTwice(n);
      ShiftThrice(n);
    }
    FourDigits(n, n % 0x100, n1, n1 % 0x100, n2, n2 % 0x100, n3, n3 % 0x100, n3 / 0x100);
  }
}
