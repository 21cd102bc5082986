/**
 * Store-assigned document identifiers. A MongoDB ObjectId is a 12-byte value
 * whose text form is 24 lower-case hexadecimal digits; the model takes ids as
 * numbers below 16^24 and renders them with exactly that many digits.
 */
module ObjectIds {

  const ID_DIGITS: nat := 24
  const HEX_DIGITS: string := "0123456789abcdef"

  function Pow16(k: nat): (r: nat)
    ensures r >= 1
  {
    if k == 0 then 1 else 16 * Pow16(k - 1)
  }

  type ObjectId = n: nat | n < Pow16(ID_DIGITS)

  function HexDigit(d: nat): char
    requires d < 16
  {
    HEX_DIGITS[d]
  }

  /** The `width` low-order hexadecimal digits of `n`, most significant first. */
  function Hex(n: nat, width: nat): (r: string)
    ensures |r| == width && forall i :: 0 <= i < width ==> r[i] in HEX_DIGITS
  {
    if width == 0 then "" else Hex(n / 16, width - 1) + [HexDigit(n % 16)]
  }

  /** `id.toString()`: the 24-digit hexadecimal form of an ObjectId. */
  function IdText(id: ObjectId): (r: string)
    ensures |r| == ID_DIGITS && forall i :: 0 <= i < ID_DIGITS ==> r[i] in HEX_DIGITS
  {
    Hex(id, ID_DIGITS)
  }

  lemma HexDigitInjective(a: nat, b: nat)
    requires a < 16 && b < 16 && HexDigit(a) == HexDigit(b)
    ensures a == b
  {
    assert forall i, j :: 0 <= i < j < 16 ==> HEX_DIGITS[i] != HEX_DIGITS[j];
  }

  /** Two numbers that fit in `width` digits have the same digits only if they are equal. */
  lemma {:induction false} HexInjective(n: nat, m: nat, width: nat)
    requires n < Pow16(width) && m < Pow16(width)
    requires Hex(n, width) == Hex(m, width)
    ensures n == m
  {
    if width > 0 {
      var hn, hm := Hex(n, width), Hex(m, width);
      assert hn[width - 1] == HexDigit(n % 16);
      assert hm[width - 1] == HexDigit(m % 16);
      HexDigitInjective(n % 16, m % 16);
      assert hn[..width - 1] == Hex(n / 16, width - 1);
      assert hm[..width - 1] == Hex(m / 16, width - 1);
      assert n / 16 < Pow16(width - 1);
      assert m / 16 < Pow16(width - 1);
      HexInjective(n / 16, m / 16, width - 1);
    }
  }

  /** Distinct ids have distinct text forms, so channel names built from them never collide. */
  lemma IdTextInjective(a: ObjectId, b: ObjectId)
    ensures IdText(a) == IdText(b) <==> a == b
  {
    if IdText(a) == IdText(b) {
      HexInjective(a, b, ID_DIGITS);
    }
  }
}
