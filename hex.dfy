/** `hexToRgb` of script.js: a colour written as an optional `#` and six hex
    digits becomes an RGB triple; anything else becomes `null`.

    The source matches `/^#?([a-f\d]{2})([a-f\d]{2})([a-f\d]{2})$/i` and applies
    `parseInt(pair, 16)` to each captured pair. Without the `m` flag, `^` and `$`
    anchor at the two ends of the whole input; `\d` is ASCII `0-9`, and the `i`
    flag lets `[a-f]` match `A-F` as well. */
module Hex {

  datatype Option<T> = None | Some(value: T)

  /** An RGB triple; `hexToRgb` returns the channels as `red`, `green`, `blue`. */
  datatype Rgb = Rgb(red: nat, green: nat, blue: nat)

  /** The characters `[a-f\d]` matches under the `i` flag. */
  predicate IsHexDigit(ch: char) {
    '0' <= ch <= '9' || 'a' <= ch <= 'f' || 'A' <= ch <= 'F'
  }

  predicate AllHex(s: string) {
    forall k :: 0 <= k < |s| ==> IsHexDigit(s[k])
  }

  /** The language of the regular expression: six hex digits, with or without a
      leading `#`, and nothing before or after. */
  predicate IsColorLiteral(s: string) {
    (|s| == 6 && AllHex(s)) || (|s| == 7 && s[0] == '#' && AllHex(s[1..]))
  }

  /** The value of one hex digit. */
  function DigitValue(ch: char): (v: nat)
    requires IsHexDigit(ch)
    ensures v < 16
  {
    if '0' <= ch <= '9' then ch as int - '0' as int
    else if 'a' <= ch <= 'f' then ch as int - 'a' as int + 10
    else ch as int - 'A' as int + 10
  }

  /** `parseInt(pair, 16)` for a captured pair of hex digits. */
  function PairValue(hi: char, lo: char): (v: nat)
    requires IsHexDigit(hi) && IsHexDigit(lo)
    ensures v <= 255
    ensures v / 16 == DigitValue(hi) && v % 16 == DigitValue(lo)
  {
    16 * DigitValue(hi) + DigitValue(lo)
  }

  /** The six digits the three groups capture: the input without its `#`. */
  function Digits(s: string): string {
    if |s| == 7 && s[0] == '#' then s[1..] else s
  }

  /** `hexToRgb`. */
  function HexToRgb(hex: string): (r: Option<Rgb>)
    ensures r.Some? <==> IsColorLiteral(hex)
    ensures r.Some? ==> r.value.red <= 255 && r.value.green <= 255 && r.value.blue <= 255
  {
    var d := Digits(hex);
    if |d| == 6 && AllHex(d) then
      Some(Rgb(PairValue(d[0], d[1]), PairValue(d[2], d[3]), PairValue(d[4], d[5])))
    else
      None
  }

  // A reference encoder, used to state what the parser computes.

  /** ASCII lower case; every other character is left alone. */
  function Lower(ch: char): char {
    if 'A' <= ch <= 'Z' then (ch as int + 32) as char else ch
  }

  function LowerAll(s: string): (t: string)
    ensures |t| == |s|
  {
    seq(|s|, k requires 0 <= k < |s| => Lower(s[k]))
  }

  /** The lower-case hex digit of a value below 16. */
  function EncodeDigit(v: nat): (ch: char)
    requires v < 16
    ensures IsHexDigit(ch)
  {
    if v < 10 then ('0' as int + v) as char else ('a' as int + v - 10) as char
  }

  /** Two lower-case hex digits for a channel value. */
  function EncodeChannel(v: nat): (s: string)
    requires v <= 255
    ensures |s| == 2 && AllHex(s)
  {
    [EncodeDigit(v / 16), EncodeDigit(v % 16)]
  }

  /** `#rrggbb` in lower case. */
  function RgbToHex(c: Rgb): (s: string)
    requires c.red <= 255 && c.green <= 255 && c.blue <= 255
    ensures |s| == 7 && s[0] == '#'
  {
    "#" + EncodeChannel(c.red) + EncodeChannel(c.green) + EncodeChannel(c.blue)
  }

  lemma DigitRoundTrip(v: nat)
    requires v < 16
    ensures DigitValue(EncodeDigit(v)) == v
  {
  }

  lemma EncodeDigitValue(ch: char)
    requires IsHexDigit(ch)
    ensures EncodeDigit(DigitValue(ch)) == Lower(ch)
  {
  }

  /** Every triple of channel values comes back from its `#rrggbb` form and from
      the same six digits without the `#`. */
  lemma ParseEncoded(c: Rgb)
    requires c.red <= 255 && c.green <= 255 && c.blue <= 255
    ensures HexToRgb(RgbToHex(c)) == Some(c)
    ensures HexToRgb(RgbToHex(c)[1..]) == Some(c)
  {
    var s := RgbToHex(c);
    DigitRoundTrip(c.red / 16);
    DigitRoundTrip(c.red % 16);
    DigitRoundTrip(c.green / 16);
    DigitRoundTrip(c.green % 16);
    DigitRoundTrip(c.blue / 16);
    DigitRoundTrip(c.blue % 16);
    assert s[1..] == EncodeChannel(c.red) + EncodeChannel(c.green) + EncodeChannel(c.blue);
    assert Digits(s) == s[1..];
    assert Digits(s[1..]) == s[1..];
  }

  /** What the parser reads is exactly the base-16 value of each digit pair:
      encoding the result again gives the input's digits in lower case. */
  lemma ParsedDigits(hex: string)
    requires HexToRgb(hex).Some?
    ensures RgbToHex(HexToRgb(hex).value) == "#" + LowerAll(Digits(hex))
  {
    var d := Digits(hex);
    var c := HexToRgb(hex).value;
    forall k | 0 <= k < 6
      ensures EncodeDigit(DigitValue(d[k])) == Lower(d[k])
    {
      EncodeDigitValue(d[k]);
    }
    assert EncodeChannel(c.red) == [Lower(d[0]), Lower(d[1])];
    assert EncodeChannel(c.green) == [Lower(d[2]), Lower(d[3])];
    assert EncodeChannel(c.blue) == [Lower(d[4]), Lower(d[5])];
    assert LowerAll(d) == [Lower(d[0]), Lower(d[1]), Lower(d[2]), Lower(d[3]), Lower(d[4]), Lower(d[5])];
  }

  lemma LowerKeepsHex(ch: char)
    ensures IsHexDigit(Lower(ch)) <==> IsHexDigit(ch)
    ensures IsHexDigit(ch) ==> DigitValue(Lower(ch)) == DigitValue(ch)
    ensures Lower(ch) == '#' <==> ch == '#'
  {
  }

  /** The `i` flag: upper- and lower-case spellings give the same result. */
  lemma CaseInsensitive(hex: string)
    ensures HexToRgb(LowerAll(hex)) == HexToRgb(hex)
  {
    var low := LowerAll(hex);
    forall k | 0 <= k < |hex|
      ensures IsHexDigit(low[k]) <==> IsHexDigit(hex[k])
      ensures IsHexDigit(hex[k]) ==> DigitValue(low[k]) == DigitValue(hex[k])
      ensures low[k] == '#' <==> hex[k] == '#'
    {
      LowerKeepsHex(hex[k]);
    }
    var d, e := Digits(hex), Digits(low);
    assert |d| == |e|;
    assert forall k :: 0 <= k < |d| ==> (IsHexDigit(e[k]) <==> IsHexDigit(d[k]));
    assert forall k :: 0 <= k < |d| && IsHexDigit(d[k]) ==> DigitValue(e[k]) == DigitValue(d[k]);
  }
}
