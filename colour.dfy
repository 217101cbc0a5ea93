/** Colour conversion: hexToRgba turns a "#RRGGBB" string into the channels of an
    rgba(...) colour by reading each two-character slice with JavaScript's
    parseInt(slice, 16). The model follows parseInt exactly (leading white space,
    an optional sign, an optional "0x" prefix, the longest run of hex digits, NaN
    when there is none) and String.prototype.slice (indices clamped to the length),
    so malformed colours decode the way the browser decodes them. */
module Colour {

  /** What parseInt returns: an integer, or NaN when no digit could be read. */
  datatype Channel = Num(value: int) | NaN

  /** The colour hexToRgba renders as "rgba(r, g, b, alpha)"; alpha passes through. */
  datatype Rgba = Rgba(r: Channel, g: Channel, b: Channel, alpha: real)

  predicate IsHexDigit(c: char) {
    '0' <= c <= '9' || 'a' <= c <= 'f' || 'A' <= c <= 'F'
  }

  predicate AllHexDigits(s: string) {
    forall i | 0 <= i < |s| :: IsHexDigit(s[i])
  }

  function DigitValue(c: char): (v: nat)
    requires IsHexDigit(c)
    ensures v < 16
    ensures ('0' <= c <= '9') == (v < 10)
  {
    if '0' <= c <= '9' then c as int - '0' as int
    else if 'a' <= c <= 'f' then c as int - 'a' as int + 10
    else c as int - 'A' as int + 10
  }

  /** The characters ECMAScript's TrimString removes: WhiteSpace and LineTerminator. */
  predicate IsStrWhiteSpace(c: char) {
    var k := c as int;
    k == 0x09 || k == 0x0A || k == 0x0B || k == 0x0C || k == 0x0D || k == 0x20
    || k == 0xA0 || k == 0x1680 || (0x2000 <= k <= 0x200A) || k == 0x2028 || k == 0x2029
    || k == 0x202F || k == 0x205F || k == 0x3000 || k == 0xFEFF
  }

  function TrimStart(s: string): (t: string)
    ensures |t| <= |s| && t == s[|s| - |t|..]
    ensures t == [] || !IsStrWhiteSpace(t[0])
  {
    if s != [] && IsStrWhiteSpace(s[0]) then TrimStart(s[1..]) else s
  }

  /** The longest prefix of s made of hex digits. */
  function LeadingHexDigits(s: string): (d: string)
    ensures |d| <= |s| && d == s[..|d|]
    ensures AllHexDigits(d)
    ensures |d| < |s| ==> !IsHexDigit(s[|d|])
  {
    if s != [] && IsHexDigit(s[0]) then [s[0]] + LeadingHexDigits(s[1..]) else []
  }

  /** The number a string of hex digits denotes, most significant digit first. */
  function HexValue(d: string): nat
    requires AllHexDigits(d)
    decreases |d|
  {
    if d == [] then 0 else 16 * HexValue(d[..|d| - 1]) + DigitValue(d[|d| - 1])
  }

  function Pow16(n: nat): nat {
    if n == 0 then 1 else 16 * Pow16(n - 1)
  }

  /** parseInt(s, 16). A leading '-' gives the negated value (-0 prints as 0). */
  function ParseInt16(s: string): Channel {
    var t := TrimStart(s);
    var negative := t != [] && t[0] == '-';
    var u := if t != [] && (t[0] == '-' || t[0] == '+') then t[1..] else t;
    var v := if |u| >= 2 && u[0] == '0' && (u[1] == 'x' || u[1] == 'X') then u[2..] else u;
    var digits := LeadingHexDigits(v);
    if digits == [] then NaN
    else if negative then Num(-(HexValue(digits) as int))
    else Num(HexValue(digits))
  }

  function Min(a: nat, b: nat): nat {
    if a < b then a else b
  }

  /** s.slice(start, end) for non-negative indices: both clamp to the length, and an
      empty string results when the clamped start is not before the clamped end. */
  function Slice(s: string, start: nat, end: nat): string {
    var from := Min(start, |s|);
    var to := Min(end, |s|);
    if from < to then s[from..to] else []
  }

  /** hexToRgba(hex, alpha): characters 1-2, 3-4 and 5-6 are the red, green and blue channels. */
  function HexToRgba(hex: string, alpha: real): Rgba {
    Rgba(ParseInt16(Slice(hex, 1, 3)), ParseInt16(Slice(hex, 3, 5)),
         ParseInt16(Slice(hex, 5, 7)), alpha)
  }

  /** A colour in the "#RRGGBB" form the colour pickers and the palettes produce. */
  predicate IsHexColour(s: string) {
    |s| == 7 && s[0] == '#' && forall i | 1 <= i < 7 :: IsHexDigit(s[i])
  }

  /** The byte a pair of hex digits denotes. */
  function Byte(hi: char, lo: char): nat
    requires IsHexDigit(hi) && IsHexDigit(lo)
  {
    16 * DigitValue(hi) + DigitValue(lo)
  }

  lemma HexValueBound(d: string)
    requires AllHexDigits(d)
    ensures HexValue(d) < Pow16(|d|)
    decreases |d|
  {
    if d != [] {
      HexValueBound(d[..|d| - 1]);
    }
  }

  /** A hex digit is neither white space, a sign nor the 'x' of a 0x prefix. */
  lemma HexDigitIsPlain(c: char)
    requires IsHexDigit(c)
    ensures !IsStrWhiteSpace(c) && c != '-' && c != '+' && c != 'x' && c != 'X'
  {
  }

  lemma {:induction false} LeadingAll(s: string)
    requires AllHexDigits(s)
    ensures LeadingHexDigits(s) == s
    decreases |s|
  {
    if s != [] {
      LeadingAll(s[1..]);
      assert [s[0]] + s[1..] == s;
    }
  }

  /** A non-empty string of hex digits parses to the number it denotes: there is
      no white space, sign or 0x prefix to skip. */
  lemma ParseHexDigits(s: string)
    requires s != [] && AllHexDigits(s)
    ensures ParseInt16(s) == Num(HexValue(s))
  {
    HexDigitIsPlain(s[0]);
    assert TrimStart(s) == s;
    assert !(s[0] == '-' || s[0] == '+');
    if |s| >= 2 {
      HexDigitIsPlain(s[1]);
      assert !(s[1] == 'x' || s[1] == 'X');
    }
    LeadingAll(s);
  }

  /** Two hex digits parse to the byte they denote. */
  lemma ParsePair(hi: char, lo: char)
    requires IsHexDigit(hi) && IsHexDigit(lo)
    ensures ParseInt16([hi, lo]) == Num(Byte(hi, lo))
    ensures Byte(hi, lo) <= 255
  {
    var s := [hi, lo];
    assert AllHexDigits(s);
    ParseHexDigits(s);
    PairValue(hi, lo);
  }

  lemma PairValue(hi: char, lo: char)
    requires IsHexDigit(hi) && IsHexDigit(lo)
    ensures HexValue([hi, lo]) == Byte(hi, lo) <= 255
  {
    var s := [hi, lo];
    assert s[..1] == [hi] && [hi][..0] == [];
    assert HexValue([hi]) == DigitValue(hi);
  }

  /** The channel at characters k, k+1 of a string decodes to the byte of its two digits. */
  lemma DecodeChannel(hex: string, k: nat)
    requires k + 2 <= |hex| && IsHexDigit(hex[k]) && IsHexDigit(hex[k + 1])
    ensures ParseInt16(Slice(hex, k, k + 2)) == Num(Byte(hex[k], hex[k + 1]))
    ensures Byte(hex[k], hex[k + 1]) <= 255
  {
    assert Slice(hex, k, k + 2) == [hex[k], hex[k + 1]];
    ParsePair(hex[k], hex[k + 1]);
  }

  /** For any string whose characters 1 to 6 are hex digits, each channel is the
      byte of its two digits, so it lies in 0..255. The '#' is never looked at, and
      characters after the sixth digit are ignored. */
  lemma DecodeHexColour(hex: string, alpha: real)
    requires |hex| >= 7 && forall i | 1 <= i < 7 :: IsHexDigit(hex[i])
    ensures HexToRgba(hex, alpha) ==
      Rgba(Num(Byte(hex[1], hex[2])), Num(Byte(hex[3], hex[4])), Num(Byte(hex[5], hex[6])), alpha)
    ensures Byte(hex[1], hex[2]) <= 255 && Byte(hex[3], hex[4]) <= 255 && Byte(hex[5], hex[6]) <= 255
  {
    DecodeChannel(hex, 1);
    DecodeChannel(hex, 3);
    DecodeChannel(hex, 5);
  }

  /** All three channels are integers in 0..255. */
  predicate ByteChannels(c: Rgba) {
    && c.r.Num? && 0 <= c.r.value <= 255
    && c.g.Num? && 0 <= c.g.value <= 255
    && c.b.Num? && 0 <= c.b.value <= 255
  }

  /** A "#RRGGBB" colour decodes to three channels in 0..255. */
  lemma HexColourChannels(hex: string, alpha: real)
    requires IsHexColour(hex)
    ensures ByteChannels(HexToRgba(hex, alpha)) && HexToRgba(hex, alpha).alpha == alpha
  {
    DecodeHexColour(hex, alpha);
  }

  /** A channel that is NaN or an integer in -255..255. */
  predicate InByteRange(c: Channel) {
    c.Num? ==> -255 <= c.value <= 255
  }

  /** parseInt of a slice of at most two characters is NaN or lies in -255..255. */
  lemma ShortParseBound(s: string)
    requires |s| <= 2
    ensures InByteRange(ParseInt16(s))
  {
    var t := TrimStart(s);
    var u := if t != [] && (t[0] == '-' || t[0] == '+') then t[1..] else t;
    var v := if |u| >= 2 && u[0] == '0' && (u[1] == 'x' || u[1] == 'X') then u[2..] else u;
    var digits := LeadingHexDigits(v);
    HexValueBound(digits);
    assert Pow16(|digits|) <= 256 by {
      assert |digits| <= 2;
      assert Pow16(0) == 1 && Pow16(1) == 16 && Pow16(2) == 256;
    }
  }

  /** No input, however malformed, gives hexToRgba a channel outside -255..255:
      each channel is parseInt of a slice s.slice(k, k + 2), never longer than two. */
  lemma ChannelBounded(hex: string, k: nat)
    ensures InByteRange(ParseInt16(Slice(hex, k, k + 2)))
  {
    ShortParseBound(Slice(hex, k, k + 2));
  }

  /** A string whose first character is neither a hex digit, white space nor a sign
      parses to NaN. */
  lemma ParseNoDigit(s: string)
    requires s != [] && !IsHexDigit(s[0]) && !IsStrWhiteSpace(s[0])
    requires s[0] != '-' && s[0] != '+'
    ensures ParseInt16(s) == NaN
  {
    assert TrimStart(s) == s;
  }

  /** A channel whose first character is neither a hex digit, white space nor a sign
      decodes to NaN (the undefined channel of a malformed colour). */
  lemma MalformedChannel(hex: string, alpha: real)
    requires |hex| >= 2 && !IsHexDigit(hex[1]) && !IsStrWhiteSpace(hex[1])
    requires hex[1] != '-' && hex[1] != '+'
    ensures HexToRgba(hex, alpha).r == NaN
  {
    var s := Slice(hex, 1, 3);
    assert s[0] == hex[1];
    ParseNoDigit(s);
  }

  const HexChars: string := "0123456789abcdef"

  /** The two lower-case hex digits of a byte. */
  function ByteToHex(n: nat): (s: string)
    requires n <= 255
    ensures |s| == 2 && AllHexDigits(s)
  {
    [HexChars[n / 16], HexChars[n % 16]]
  }

  /** A colour in "#rrggbb" form: what a colour picker hands to the configuration. */
  function ToHex(r: nat, g: nat, b: nat): string
    requires r <= 255 && g <= 255 && b <= 255
  {
    "#" + ByteToHex(r) + ByteToHex(g) + ByteToHex(b)
  }

  lemma HexCharValue(k: nat)
    requires k < 16
    ensures IsHexDigit(HexChars[k]) && DigitValue(HexChars[k]) == k
  {
  }

  /** The two digits ByteToHex writes denote the byte again. */
  lemma ByteToHexDecodes(n: nat)
    requires n <= 255
    ensures Byte(ByteToHex(n)[0], ByteToHex(n)[1]) == n
  {
    HexCharValue(n / 16);
    HexCharValue(n % 16);
  }

  /** hexToRgba inverts ToHex: every colour "#rrggbb" decodes to its own channels. */
  lemma HexRoundTrip(r: nat, g: nat, b: nat, alpha: real)
    requires r <= 255 && g <= 255 && b <= 255
    ensures IsHexColour(ToHex(r, g, b))
    ensures HexToRgba(ToHex(r, g, b), alpha) == Rgba(Num(r), Num(g), Num(b), alpha)
  {
    var s := ToHex(r, g, b);
    var hr, hg, hb := ByteToHex(r), ByteToHex(g), ByteToHex(b);
    ByteToHexDecodes(r);
    ByteToHexDecodes(g);
    ByteToHexDecodes(b);
    assert s[1] == hr[0] && s[2] == hr[1];
    assert s[3] == hg[0] && s[4] == hg[1];
    assert s[5] == hb[0] && s[6] == hb[1];
    DecodeHexColour(s, alpha);
  }
}
