/**
 Colour parsing: `sscanf($colour, "#%02x%02x%02x")` followed by
 `imagecolorallocate`. Each `%02x` conversion reads one or two hexadecimal
 digits (the width is a maximum); the scan stops at the first conversion or
 literal that fails, and every component it did not reach is `null`.
 `imagecolorallocate` receives a missing component as 0.
 */
module Color {
  import opened Common

  /** The three channels handed to `imagecolorallocate`. */
  datatype Rgb = Rgb(r: int, g: int, b: int)

  /** The array `sscanf` returns: one entry per conversion, `None` for `null`. */
  datatype Scan = Scan(r: Option<nat>, g: Option<nat>, b: Option<nat>)

  predicate IsHexDigit(c: char) {
    '0' <= c <= '9' || 'a' <= c <= 'f' || 'A' <= c <= 'F'
  }

  function HexValue(c: char): (v: nat)
    requires IsHexDigit(c)
    ensures v < 16
  {
    if '0' <= c <= '9' then c as int - '0' as int
    else if 'a' <= c <= 'f' then c as int - 'a' as int + 10
    else c as int - 'A' as int + 10
  }

  /** One `%02x` conversion starting at index `i`: the value read and the index after it. */
  function ScanHexPair(s: string, i: nat): (r: Option<(nat, nat)>)
    ensures r.Some? ==> r.value.0 < 256 && i < r.value.1 <= i + 2 && r.value.1 <= |s|
    ensures r.Some? <==> i < |s| && IsHexDigit(s[i])
  {
    if i < |s| && IsHexDigit(s[i]) then
      if i + 1 < |s| && IsHexDigit(s[i + 1]) then Some((16 * HexValue(s[i]) + HexValue(s[i + 1]), i + 2))
      else Some((HexValue(s[i]), i + 1))
    else None
  }

  predicate ChannelInRange(c: Option<nat>) {
    c.Some? ==> c.value < 256
  }

  /** `sscanf($s, "#%02x%02x%02x")`. */
  function ScanColor(s: string): (r: Scan)
    ensures ChannelInRange(r.r) && ChannelInRange(r.g) && ChannelInRange(r.b)
    ensures r.b.Some? ==> r.g.Some?
    ensures r.g.Some? ==> r.r.Some?
    ensures r.r.Some? <==> 2 <= |s| && s[0] == '#' && IsHexDigit(s[1])
  {
    if |s| == 0 || s[0] != '#' then Scan(None, None, None)
    else match ScanHexPair(s, 1)
      case None => Scan(None, None, None)
      case Some((red, i)) =>
        match ScanHexPair(s, i)
        case None => Scan(Some(red), None, None)
        case Some((green, j)) =>
          match ScanHexPair(s, j)
          case None => Scan(Some(red), Some(green), None)
          case Some((blue, _)) => Scan(Some(red), Some(green), Some(blue))
  }

  predicate InRange(c: Rgb) {
    0 <= c.r < 256 && 0 <= c.g < 256 && 0 <= c.b < 256
  }

  /** The colour `imagecolorallocate` receives for the string `s`: missing channels are 0. */
  function Allocate(s: string): (c: Rgb)
    ensures InRange(c)
  {
    var scan := ScanColor(s);
    Rgb(scan.r.GetOr(0), scan.g.GetOr(0), scan.b.GetOr(0))
  }

  function HexDigit(d: nat): (c: char)
    requires d < 16
    ensures IsHexDigit(c) && HexValue(c) == d
  {
    if d < 10 then ('0' as int + d) as char else ('a' as int + d - 10) as char
  }

  /** The two lower-case hex digits of a channel. */
  function HexPair(n: nat): (s: string)
    requires n < 256
    ensures |s| == 2 && IsHexDigit(s[0]) && IsHexDigit(s[1])
    ensures 16 * HexValue(s[0]) + HexValue(s[1]) == n
  {
    [HexDigit(n / 16), HexDigit(n % 16)]
  }

  /** The `#rrggbb` rendering of a colour. */
  function Format(c: Rgb): (s: string)
    requires InRange(c)
    ensures |s| == 7 && s[0] == '#'
  {
    "#" + HexPair(c.r) + HexPair(c.g) + HexPair(c.b)
  }

  /**
   A well-formed `#RRGGBB` prefix scans to the three integers its hex pairs
   denote, whatever follows it, in either letter case.
   */
  lemma ScanWellFormed(d: string, rest: string)
    requires |d| == 6 && forall k :: 0 <= k < 6 ==> IsHexDigit(d[k])
    ensures ScanColor("#" + d + rest) == Scan(Some(16 * HexValue(d[0]) + HexValue(d[1])),
                                              Some(16 * HexValue(d[2]) + HexValue(d[3])),
                                              Some(16 * HexValue(d[4]) + HexValue(d[5])))
  {
  }

  /** Parsing the two-hex-digit rendering of any colour gives that colour back. */
  lemma FormatRoundTrip(c: Rgb)
    requires InRange(c)
    ensures ScanColor(Format(c)) == Scan(Some(c.r), Some(c.g), Some(c.b))
    ensures Allocate(Format(c)) == c
  {
  }
}
