/**
  Fixed-width integers on the wire. Little endian is Python's struct code `<`,
  big endian is `!`. A byte is an int below 256, so masks and shifts are `/` and `%`.
 */
module Bytes {

  type byte = b: int | 0 <= b < 256

  /** 256 to the power of the field width. */
  function Range(width: nat): (r: nat)
    ensures r >= 1
  {
    if width == 0 then 1 else 256 * Range(width - 1)
  }

  /** The low `width` bytes of n, least significant first. */
  function Le(width: nat, n: nat): (bs: seq<byte>)
    ensures |bs| == width
  {
    if width == 0 then [] else [n % 256] + Le(width - 1, n / 256)
  }

  function FromLe(bs: seq<byte>): nat {
    if bs == [] then 0 else bs[0] + 256 * FromLe(bs[1..])
  }

  /** The low `width` bytes of n, most significant first. */
  function Be(width: nat, n: nat): (bs: seq<byte>)
    ensures |bs| == width
  {
    if width == 0 then [] else Be(width - 1, n / 256) + [n % 256]
  }

  function FromBe(bs: seq<byte>): nat {
    if bs == [] then 0 else FromBe(bs[..|bs| - 1]) * 256 + bs[|bs| - 1]
  }

  lemma {:induction false} LeRoundTrip(width: nat, n: nat)
    requires n < Range(width)
    ensures FromLe(Le(width, n)) == n
  {
    if width > 0 {
      LeRoundTrip(width - 1, n / 256);
      assert Le(width, n)[1..] == Le(width - 1, n / 256);
    }
  }

  lemma {:induction false} FromLeRoundTrip(bs: seq<byte>)
    ensures FromLe(bs) < Range(|bs|)
    ensures Le(|bs|, FromLe(bs)) == bs
  {
    if bs != [] {
      FromLeRoundTrip(bs[1..]);
      assert FromLe(bs) / 256 == FromLe(bs[1..]);
    }
  }

  lemma {:induction false} BeRoundTrip(width: nat, n: nat)
    requires n < Range(width)
    ensures FromBe(Be(width, n)) == n
  {
    if width > 0 {
      BeRoundTrip(width - 1, n / 256);
      assert Be(width, n)[..width - 1] == Be(width - 1, n / 256);
    }
  }

  /** The field widths that occur, as numbers. */
  lemma Ranges()
    ensures Range(1) == 0x100 && Range(2) == 0x1_0000
    ensures Range(4) == 0x1_0000_0000 && Range(8) == 0x1_0000_0000_0000_0000
  {
    assert Range(3) == 256 * Range(2);
    assert Range(4) == 256 * Range(3);
    assert Range(5) == 256 * Range(4);
    assert Range(6) == 256 * Range(5);
    assert Range(7) == 256 * Range(6);
  }

  lemma DivideTwice(n: nat, b: nat)
    requires b > 0
    ensures n / 256 / b == n / (256 * b)
  {
    var m := n / 256;
    var q := m / b;
    assert q * (256 * b) == 256 * (q * b);
    Quotient(n, q, 256 * b, n - 256 * (q * b));
  }

  lemma Quotient(n: nat, q: nat, d: nat, r: nat)
    requires d > 0 && n == q * d + r && r < d
    ensures n / d == q
  {
    var k := n / d;
    if k < q {
      LessEqual(k + 1, q, d);
    } else if k > q {
      LessEqual(q + 1, k, d);
    }
  }

  lemma LessEqual(a: nat, b: nat, d: nat)
    requires a <= b
    ensures a * d <= b * d
  {
  }

  /** Byte i, least significant first, is digit i of the number to base 256. */
  lemma {:induction false} LeDigit(width: nat, n: nat, i: nat)
    requires i < width
    ensures Le(width, n)[i] == n / Range(i) % 256
  {
    if i > 0 {
      LeDigit(width - 1, n / 256, i - 1);
      DivideTwice(n, Range(i - 1));
    }
  }

  /** Byte i, most significant first, is digit width - 1 - i. */
  lemma {:induction false} BeDigit(width: nat, n: nat, i: nat)
    requires i < width
    ensures Be(width, n)[i] == n / Range(width - 1 - i) % 256
  {
    if i < width - 1 {
      BeDigit(width - 1, n / 256, i);
      DivideTwice(n, Range(width - 2 - i));
    }
  }
}
