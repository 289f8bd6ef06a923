/** Colours written as `#rrggbb` strings, and the two conversions the palette
    interpolator performs on them: splitting a colour into its three byte
    channels (`match(/\w\w/g)` followed by `parseInt(c, 16)`) and writing a
    channel back as two lower-case hex digits (`toString(16).padStart(2, '0')`). */
module HexColor {

  predicate IsHexDigit(c: char)
  {
    ('0' <= c <= '9') || ('a' <= c <= 'f') || ('A' <= c <= 'F')
  }

  /** The value `parseInt` gives a single hex digit, either case. */
  function HexValue(c: char): (d: int)
    requires IsHexDigit(c)
    ensures 0 <= d < 16
  {
    if '0' <= c <= '9' then c as int - '0' as int
    else if 'a' <= c <= 'f' then c as int - 'a' as int + 10
    else c as int - 'A' as int + 10
  }

  /** The lower-case digit `Number.prototype.toString(16)` writes for `d`. */
  function HexDigit(d: int): (c: char)
    requires 0 <= d < 16
    ensures IsHexDigit(c) && HexValue(c) == d
    ensures !('A' <= c <= 'F')
  {
    if d < 10 then ('0' as int + d) as char else ('a' as int + d - 10) as char
  }

  /** `parseInt(hi + lo, 16)` for two hex digits. */
  function ParseByte(hi: char, lo: char): (v: int)
    requires IsHexDigit(hi) && IsHexDigit(lo)
    ensures 0 <= v <= 255
  {
    16 * HexValue(hi) + HexValue(lo)
  }

  /** `v.toString(16).padStart(2, '0')` for a channel value in 0..255: always
      two digits, and `parseInt` reads back the same value. */
  function ByteHex(v: int): (s: string)
    requires 0 <= v <= 255
    ensures |s| == 2 && IsHexDigit(s[0]) && IsHexDigit(s[1])
    ensures ParseByte(s[0], s[1]) == v
  {
    [HexDigit(v / 16), HexDigit(v % 16)]
  }

  /** A well-formed colour: `#` followed by exactly six hex digits. */
  predicate IsHexColor(s: string)
  {
    |s| == 7 && s[0] == '#' &&
    IsHexDigit(s[1]) && IsHexDigit(s[2]) && IsHexDigit(s[3]) &&
    IsHexDigit(s[4]) && IsHexDigit(s[5]) && IsHexDigit(s[6])
  }

  datatype Rgb = Rgb(red: int, green: int, blue: int)

  predicate InGamut(c: Rgb)
  {
    0 <= c.red <= 255 && 0 <= c.green <= 255 && 0 <= c.blue <= 255
  }

  /** The three byte channels of a well-formed colour: the pairs of word
      characters after the `#`, each parsed as base 16. */
  function Decode(s: string): (c: Rgb)
    requires IsHexColor(s)
    ensures InGamut(c)
  {
    Rgb(ParseByte(s[1], s[2]), ParseByte(s[3], s[4]), ParseByte(s[5], s[6]))
  }

  /** `'#' + channels.join('')`, each channel written as two hex digits; the
      result is a well-formed colour that decodes to the channels encoded. */
  function Encode(c: Rgb): (s: string)
    requires InGamut(c)
    ensures IsHexColor(s)
    ensures Decode(s) == c
  {
    var r, g, b := ByteHex(c.red), ByteHex(c.green), ByteHex(c.blue);
    ['#'] + r + g + b
  }
}
