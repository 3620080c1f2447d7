/** The hexadecimal rendering the decoder works on: `String.format("%02X", b)` for
    every byte, appended to a `StringBuilder`, and Kotlin's `toInt(16)` applied to a
    one-character string. */
module Hex {
  import opened Wrappers
  import opened Bytes

  /** A character `%X` can print: a decimal digit or an upper-case letter A..F. */
  predicate IsUpperHexDigit(c: char) {
    ('0' <= c <= '9') || ('A' <= c <= 'F')
  }

  predicate IsUpperHex(s: string) {
    forall i :: 0 <= i < |s| ==> IsUpperHexDigit(s[i])
  }

  /** The digit `%X` prints for a nibble. */
  function HexDigit(n: Nibble): (c: char)
    ensures IsUpperHexDigit(c)
    ensures DigitValue(c) == Some(n)
  {
    if n < 10 then ('0' as int + n) as char else ('A' as int + (n - 10)) as char
  }

  /** `("" + c).toInt(16)`: the value of one hexadecimal digit of either case;
      `None` stands for the `NumberFormatException` any other character raises. */
  function DigitValue(c: char): (r: Option<Nibble>)
    ensures r.Some? <==> IsUpperHexDigit(c) || ('a' <= c <= 'f')
  {
    if '0' <= c <= '9' then Some(c as int - '0' as int)
    else if 'A' <= c <= 'F' then Some(c as int - 'A' as int + 10)
    else if 'a' <= c <= 'f' then Some(c as int - 'a' as int + 10)
    else None
  }

  /** `String.format("%02X", b)`: two digits, zero-padded, high nibble first. */
  function Format02X(b: Int8): (s: string)
    ensures |s| == 2 && IsUpperHex(s)
  {
    [HexDigit(HighNibble(b)), HexDigit(LowNibble(b))]
  }

  /** The string the builder holds after the bytes of `data` have been appended in order. */
  function HexString(data: seq<Int8>): (s: string)
    ensures |s| == 2 * |data|
  {
    if data == [] then "" else HexString(data[..|data| - 1]) + Format02X(data[|data| - 1])
  }

  /** The rendering has two upper-case digits per byte. */
  lemma {:induction false} HexStringShape(data: seq<Int8>)
    ensures |HexString(data)| == 2 * |data|
    ensures IsUpperHex(HexString(data))
  {
    if data != [] {
      HexStringShape(data[..|data| - 1]);
    }
  }

  /** Character 2k of the rendering is the high nibble of byte k, character 2k+1 its low nibble. */
  lemma {:induction false} HexStringAt(data: seq<Int8>, k: nat)
    requires k < |data|
    ensures |HexString(data)| == 2 * |data|
    ensures HexString(data)[2 * k] == HexDigit(HighNibble(data[k]))
    ensures HexString(data)[2 * k + 1] == HexDigit(LowNibble(data[k]))
  {
    var n := |data|;
    HexStringShape(data);
    HexStringShape(data[..n - 1]);
    if k < n - 1 {
      HexStringAt(data[..n - 1], k);
    }
  }

  /** Reading a digit of the rendering back gives the nibble it was printed from. */
  lemma HexStringNibbleAt(data: seq<Int8>, k: nat)
    requires k < |data|
    ensures |HexString(data)| == 2 * |data|
    ensures DigitValue(HexString(data)[2 * k]) == Some(HighNibble(data[k]))
    ensures DigitValue(HexString(data)[2 * k + 1]) == Some(LowNibble(data[k]))
  {
    HexStringAt(data, k);
  }

  /** The `StringBuilder` loop: one `%02X` rendering appended per byte, in order. */
  method FormatHex(data: seq<Int8>) returns (hex: string)
    ensures hex == HexString(data)
    ensures |hex| == 2 * |data| && IsUpperHex(hex)
    ensures forall k :: 0 <= k < |data| ==>
              hex[2 * k] == HexDigit(HighNibble(data[k])) && hex[2 * k + 1] == HexDigit(LowNibble(data[k]))
  {
    var builder := "";
    for i := 0 to |data|
      invariant builder == HexString(data[..i])
    {
      assert data[..i + 1][..i] == data[..i];
      builder := builder + Format02X(data[i]);
    }
    assert data[..|data|] == data;
    hex := builder;
    HexStringShape(data);
    forall k | 0 <= k < |data|
      ensures hex[2 * k] == HexDigit(HighNibble(data[k])) && hex[2 * k + 1] == HexDigit(LowNibble(data[k]))
    {
      HexStringAt(data, k);
    }
  }
}
