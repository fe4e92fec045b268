/**
 * LiquidGradient's colour handling: the seven '#RRGGBB' palette constants and
 * hexToRgb, which turns one into the three channel values in [0, 1] handed
 * to the shader. Each channel is `parseInt(hex.slice(i, i + 2), 16) / 255`,
 * so the parsing rules of ECMAScript's parseInt are modelled here for radix 16,
 * with None standing for NaN.
 */
module LiquidGradient {
  import opened Anim

  // ─── parseInt(s, 16) ────────────────────────────────────────────────────────

  /** The white space and line terminators parseInt skips before the number. */
  predicate IsStrWhiteSpace(c: char) {
    var u := c as int;
    (0x09 <= u <= 0x0D)                      // tab, line feed, vertical tab, form feed, carriage return
    || u == 0x20 || u == 0xA0 || u == 0xFEFF   // space, no-break space, byte order mark
    || u == 0x1680 || (0x2000 <= u <= 0x200A) || u == 0x202F || u == 0x205F || u == 0x3000
    || u == 0x2028 || u == 0x2029              // line and paragraph separators
  }

  predicate IsHexDigit(c: char) {
    '0' <= c <= '9' || 'a' <= c <= 'f' || 'A' <= c <= 'F'
  }

  function DigitValue(c: char): (d: nat)
    requires IsHexDigit(c)
    ensures d < 16
  {
    if '0' <= c <= '9' then c as nat - '0' as nat
    else if 'a' <= c <= 'f' then c as nat - 'a' as nat + 10
    else c as nat - 'A' as nat + 10
  }

  /** The string without its leading white space. */
  function TrimStart(s: string): string {
    if |s| > 0 && IsStrWhiteSpace(s[0]) then TrimStart(s[1..]) else s
  }

  /** The longest prefix made of hex digits. */
  function DigitPrefix(s: string): (z: string)
    ensures |z| <= |s| && z == s[..|z|]
    ensures forall i :: 0 <= i < |z| ==> IsHexDigit(z[i])
    ensures |z| < |s| ==> !IsHexDigit(s[|z|])
  {
    if |s| > 0 && IsHexDigit(s[0]) then [s[0]] + DigitPrefix(s[1..]) else []
  }

  /** The number a string of hex digits denotes, most significant first. */
  function HexValue(z: string): nat
    requires forall i :: 0 <= i < |z| ==> IsHexDigit(z[i])
  {
    if |z| == 0 then 0 else 16 * HexValue(z[..|z| - 1]) + DigitValue(z[|z| - 1])
  }

  /**
   * parseInt(s, 16): skip leading white space, take an optional sign, drop a
   * "0x" or "0X" prefix, then read the longest run of hex digits. No digits
   * at all gives NaN (None).
   */
  function ParseHex(s: string): Option<int> {
    var t := TrimStart(s);
    var negative := |t| > 0 && t[0] == '-';
    var u := if |t| > 0 && (t[0] == '-' || t[0] == '+') then t[1..] else t;
    var v := if |u| >= 2 && u[0] == '0' && (u[1] == 'x' || u[1] == 'X') then u[2..] else u;
    var z := DigitPrefix(v);
    var n: int := HexValue(z);
    if |z| == 0 then None
    else if negative then Some(-n)
    else Some(n)
  }

  predicate AllHexDigits(s: string) {
    forall i :: 0 <= i < |s| ==> IsHexDigit(s[i])
  }

  /** A string made only of hex digits is its own longest digit prefix. */
  lemma {:induction false} DigitPrefixAll(s: string)
    requires AllHexDigits(s)
    ensures DigitPrefix(s) == s
  {
    if |s| > 0 {
      DigitPrefixAll(s[1..]);
      assert s == [s[0]] + s[1..];
    }
  }

  /** Hex digits with no "0x" in front parse to the number they denote. */
  lemma ParseDigits(s: string)
    requires 0 < |s| && AllHexDigits(s)
    requires !(|s| >= 2 && s[0] == '0' && (s[1] == 'x' || s[1] == 'X'))
    ensures ParseHex(s) == Some(HexValue(s))
  {
    assert TrimStart(s) == s;
    DigitPrefixAll(s);
  }

  /** Two hex digits parse to 16 times the first plus the second, a value in [0, 255]. */
  lemma ParseTwoDigits(s: string)
    requires |s| == 2 && IsHexDigit(s[0]) && IsHexDigit(s[1])
    ensures ParseHex(s) == Some(16 * DigitValue(s[0]) + DigitValue(s[1]))
    ensures 16 * DigitValue(s[0]) + DigitValue(s[1]) <= 255
  {
    ParseDigits(s);
    HexValueTwo(s);
  }

  lemma HexValueTwo(s: string)
    requires |s| == 2 && IsHexDigit(s[0]) && IsHexDigit(s[1])
    ensures HexValue(s) == 16 * DigitValue(s[0]) + DigitValue(s[1])
  {
    var first := s[..1];
    assert first[..0] == [] && first[0] == s[0];
    assert HexValue(first) == DigitValue(s[0]);
  }

  /** An empty slice parses to NaN. */
  lemma ParseEmpty()
    ensures ParseHex([]) == None
  {
  }

  // ─── hexToRgb ───────────────────────────────────────────────────────────────

  /**
   * Every character lies in the Basic Multilingual Plane, so each is one
   * UTF-16 code unit and a position in the string is the JavaScript index.
   */
  predicate BasicPlane(s: string) {
    forall k :: 0 <= k < |s| ==> s[k] as int < 0x10000
  }

  /** `s.slice(i, j)` for 0 <= i <= j: both ends are clamped to the length. */
  function Slice(s: string, i: nat, j: nat): (r: string)
    requires BasicPlane(s) && i <= j
    ensures |r| == Min(j as real, |s| as real).Floor - Min(i as real, |s| as real).Floor
  {
    var hi := if j <= |s| then j else |s|;
    var lo := if i <= hi then i else hi;
    s[lo..hi]
  }

  /** `parseInt(hex.slice(i, i + 2), 16) / 255`; None is NaN. */
  function Channel(hex: string, i: nat): Option<real>
    requires BasicPlane(hex)
  {
    match ParseHex(Slice(hex, i, i + 2))
    case None => None
    case Some(v) => Some(v as real / 255.0)
  }

  datatype Rgb = Rgb(r: Option<real>, g: Option<real>, b: Option<real>)

  /** hexToRgb: characters 1-2, 3-4 and 5-6 give red, green and blue. */
  function HexToRgb(hex: string): Rgb
    requires BasicPlane(hex)
  {
    Rgb(Channel(hex, 1), Channel(hex, 3), Channel(hex, 5))
  }

  /** '#' followed by six hex digits, all of them ASCII. */
  predicate WellFormedColour(hex: string)
    ensures WellFormedColour(hex) ==> BasicPlane(hex)
  {
    |hex| == 7 && hex[0] == '#' && forall i :: 1 <= i < 7 ==> IsHexDigit(hex[i])
  }

  /** The value of the two digits at i and i + 1 scaled to [0, 1]. */
  function Scaled(hex: string, i: nat): (v: real)
    requires i + 1 < |hex| && IsHexDigit(hex[i]) && IsHexDigit(hex[i + 1])
    ensures 0.0 <= v <= 1.0
  {
    (16 * DigitValue(hex[i]) + DigitValue(hex[i + 1])) as real / 255.0
  }

  /** A channel is 0 exactly for "00" and 1 exactly for "FF" (either case). */
  lemma ScaledExtremes(hex: string, i: nat)
    requires i + 1 < |hex| && IsHexDigit(hex[i]) && IsHexDigit(hex[i + 1])
    ensures Scaled(hex, i) == 0.0 <==> hex[i] == '0' && hex[i + 1] == '0'
    ensures Scaled(hex, i) == 1.0 <==> hex[i] in "fF" && hex[i + 1] in "fF"
  {
    var v := 16 * DigitValue(hex[i]) + DigitValue(hex[i + 1]);
    assert Scaled(hex, i) * 255.0 == v as real;
  }

  /** The character before the red digits is never looked at. */
  lemma FirstCharIgnored(hex: string, c: char)
    requires 1 <= |hex| && BasicPlane(hex) && c as int < 0x10000
    ensures HexToRgb([c] + hex[1..]) == HexToRgb(hex)
  {
    var h := [c] + hex[1..];
    assert forall k :: 1 <= k < |h| ==> h[k] == hex[k];
    ChannelAfterFirst(h, hex, 1);
    ChannelAfterFirst(h, hex, 3);
    ChannelAfterFirst(h, hex, 5);
  }

  /** Two strings that agree after their first character read the same channels at 1 or later. */
  lemma ChannelAfterFirst(h: string, hex: string, i: nat)
    requires BasicPlane(h) && BasicPlane(hex)
    requires 1 <= i && |h| == |hex| && forall k :: 1 <= k < |h| ==> h[k] == hex[k]
    ensures Channel(h, i) == Channel(hex, i)
  {
    assert Slice(h, i, i + 2) == Slice(hex, i, i + 2);
  }

  /** The channel read from two hex digits at i and i + 1. */
  lemma DigitsChannel(hex: string, i: nat)
    requires BasicPlane(hex) && i + 1 < |hex| && IsHexDigit(hex[i]) && IsHexDigit(hex[i + 1])
    ensures Channel(hex, i) == Some(Scaled(hex, i))
  {
    ParseTwoDigits(Slice(hex, i, i + 2));
  }

  /** Each channel of a well-formed colour is its two digits' value divided by 255, so it lies in [0, 1]. */
  lemma WellFormedChannels(hex: string)
    requires WellFormedColour(hex)
    ensures HexToRgb(hex) == Rgb(Some(Scaled(hex, 1)), Some(Scaled(hex, 3)), Some(Scaled(hex, 5)))
  {
    DigitsChannel(hex, 1);
    DigitsChannel(hex, 3);
    DigitsChannel(hex, 5);
  }

  /** A string too short to reach the blue digits leaves blue NaN; one too short for red leaves all three NaN. */
  lemma ShortColour(hex: string)
    requires BasicPlane(hex)
    ensures |hex| <= 5 ==> HexToRgb(hex).b == None
    ensures |hex| <= 1 ==> HexToRgb(hex) == Rgb(None, None, None)
  {
    if |hex| <= 5 {
      assert Slice(hex, 5, 7) == [];
    }
    if |hex| <= 1 {
      assert Slice(hex, 1, 3) == [] && Slice(hex, 3, 5) == [];
    }
  }

  // ─── Encoding ───────────────────────────────────────────────────────────────

  const HEX_DIGITS: string := "0123456789ABCDEF"

  /** A byte as two upper-case hex digits. */
  function ToHex(n: nat): (s: string)
    requires n < 256
    ensures |s| == 2 && IsHexDigit(s[0]) && IsHexDigit(s[1])
  {
    [HEX_DIGITS[n / 16], HEX_DIGITS[n % 16]]
  }

  lemma HexDigitValue(d: nat)
    requires d < 16
    ensures IsHexDigit(HEX_DIGITS[d]) && DigitValue(HEX_DIGITS[d]) == d
  {
  }

  /** '#RRGGBB' for three bytes. */
  function Encode(r: nat, g: nat, b: nat): (hex: string)
    requires r < 256 && g < 256 && b < 256
    ensures WellFormedColour(hex)
  {
    "#" + ToHex(r) + ToHex(g) + ToHex(b)
  }

  /** The digits of the three bytes sit at 1-2, 3-4 and 5-6. */
  lemma EncodeDigits(r: nat, g: nat, b: nat)
    requires r < 256 && g < 256 && b < 256
    ensures var hex := Encode(r, g, b);
      hex[1] == HEX_DIGITS[r / 16] && hex[2] == HEX_DIGITS[r % 16]
      && hex[3] == HEX_DIGITS[g / 16] && hex[4] == HEX_DIGITS[g % 16]
      && hex[5] == HEX_DIGITS[b / 16] && hex[6] == HEX_DIGITS[b % 16]
  {
  }

  /** Two digits written by ToHex read back as the byte over 255. */
  lemma EncodedChannel(hex: string, i: nat, n: nat)
    requires BasicPlane(hex) && n < 256 && i + 1 < |hex| && hex[i] == HEX_DIGITS[n / 16] && hex[i + 1] == HEX_DIGITS[n % 16]
    ensures Channel(hex, i) == Some(n as real / 255.0)
  {
    HexDigitValue(n / 16);
    HexDigitValue(n % 16);
    DigitsChannel(hex, i);
  }

  /** hexToRgb undoes Encode: every byte comes back divided by 255. */
  lemma EncodeRoundTrip(r: nat, g: nat, b: nat)
    requires r < 256 && g < 256 && b < 256
    ensures HexToRgb(Encode(r, g, b)) == Rgb(Some(r as real / 255.0), Some(g as real / 255.0), Some(b as real / 255.0))
  {
    var hex := Encode(r, g, b);
    EncodeDigits(r, g, b);
    EncodedChannel(hex, 1, r);
    EncodedChannel(hex, 3, g);
    EncodedChannel(hex, 5, b);
  }

  // ─── The palette ────────────────────────────────────────────────────────────

  const C1: string := "#C4501C"
  const C2: string := "#8B2E08"
  const C3: string := "#E8733A"
  const C4: string := "#5E1E10"
  const C5: string := "#D4622B"
  const C6: string := "#3D1108"
  const BG: string := "#1B0803"

  /** The colours passed to uColor1 .. uColor6 and uDarkNavy, in that order. */
  const PALETTE: seq<string> := [C1, C2, C3, C4, C5, C6, BG]

  /** Every palette constant is the encoding of its three bytes. */
  lemma PaletteEncoded()
    ensures C1 == Encode(0xC4, 0x50, 0x1C) && C2 == Encode(0x8B, 0x2E, 0x08)
    ensures C3 == Encode(0xE8, 0x73, 0x3A) && C4 == Encode(0x5E, 0x1E, 0x10)
    ensures C5 == Encode(0xD4, 0x62, 0x2B) && C6 == Encode(0x3D, 0x11, 0x08)
    ensures BG == Encode(0x1B, 0x08, 0x03)
  {
    EncodedAs(C1, 0xC4, 0x50, 0x1C);
    EncodedAs(C2, 0x8B, 0x2E, 0x08);
    EncodedAs(C3, 0xE8, 0x73, 0x3A);
    EncodedAs(C4, 0x5E, 0x1E, 0x10);
    EncodedAs(C5, 0xD4, 0x62, 0x2B);
    EncodedAs(C6, 0x3D, 0x11, 0x08);
    EncodedAs(BG, 0x1B, 0x08, 0x03);
  }

  /** A '#' and the six digits of three bytes, in order, is their encoding. */
  lemma EncodedAs(hex: string, r: nat, g: nat, b: nat)
    requires r < 256 && g < 256 && b < 256 && |hex| == 7 && hex[0] == '#'
    requires hex[1] == HEX_DIGITS[r / 16] && hex[2] == HEX_DIGITS[r % 16]
    requires hex[3] == HEX_DIGITS[g / 16] && hex[4] == HEX_DIGITS[g % 16]
    requires hex[5] == HEX_DIGITS[b / 16] && hex[6] == HEX_DIGITS[b % 16]
    ensures hex == Encode(r, g, b)
  {
    EncodeDigits(r, g, b);
  }

  /** So every colour uniform receives three numbers in [0, 1], none of them NaN. */
  lemma PaletteInRange()
    ensures forall hex :: hex in PALETTE ==>
      WellFormedColour(hex)
      && HexToRgb(hex).r.Some? && HexToRgb(hex).g.Some? && HexToRgb(hex).b.Some?
      && 0.0 <= HexToRgb(hex).r.value <= 1.0 && 0.0 <= HexToRgb(hex).g.value <= 1.0 && 0.0 <= HexToRgb(hex).b.value <= 1.0
  {
    PaletteEncoded();
    forall hex | hex in PALETTE
      ensures WellFormedColour(hex)
      ensures HexToRgb(hex) == Rgb(Some(Scaled(hex, 1)), Some(Scaled(hex, 3)), Some(Scaled(hex, 5)))
    {
      WellFormedChannels(hex);
    }
  }
}
