/**
 Values shared by every generator: optional values (PHP's `null` and missing
 array keys), the `size` of a generated asset, the `{path, size}` descriptor
 each image generator returns, the decimal rendering PHP uses when an integer
 is concatenated into a string, and the naming of generated files.
 */
module Common {

  /** A value that may be absent: a `null` argument or an unset array key. */
  datatype Option<+T> = None | Some(value: T) {

    /** PHP's `$value ?? $default`. */
    function GetOr(default: T): T {
      match this
      case Some(v) => v
      case None => default
    }
  }

  /** One splash-screen entry: width, height and an orientation label. */
  datatype ScreenSize = ScreenSize(width: int, height: int, orientation: string)

  /** The `size` a generator records: an icon side, or a whole splash-screen triple. */
  datatype SizeSpec = Side(side: int) | Screen(screen: ScreenSize)

  /** The `["path" => ..., "size" => ...]` record returned per generated image. */
  datatype Descriptor = Descriptor(path: string, size: SizeSpec)

  function DigitChar(d: nat): (c: char)
    requires d < 10
    ensures '0' <= c <= '9'
  {
    ('0' as int + d) as char
  }

  /** A non-empty string of decimal digits. */
  predicate IsDecimal(s: string) {
    |s| >= 1 && forall k :: 0 <= k < |s| ==> '0' <= s[k] <= '9'
  }

  /** The number a string of decimal digits denotes, read left to right. */
  function DecimalValue(s: string): nat
    requires forall k :: 0 <= k < |s| ==> '0' <= s[k] <= '9'
  {
    if s == [] then 0 else 10 * DecimalValue(s[..|s| - 1]) + (s[|s| - 1] as int - '0' as int)
  }

  /** The decimal digits of `n`, most significant first, with no leading zero unless `n` is 0. */
  function NatToDecimal(n: nat): (s: string)
    ensures IsDecimal(s)
    ensures s[0] == '0' <==> n == 0
  {
    if n < 10 then [DigitChar(n)] else NatToDecimal(n / 10) + [DigitChar(n % 10)]
  }

  /** Reading the digits back gives the number. */
  lemma {:induction false} DecimalRoundTrip(n: nat)
    ensures DecimalValue(NatToDecimal(n)) == n
  {
    if n >= 10 {
      var s := NatToDecimal(n);
      assert s[..|s| - 1] == NatToDecimal(n / 10);
      DecimalRoundTrip(n / 10);
    }
  }

  /** An integer as PHP writes it into a string: a minus sign for a negative value, then its digits. */
  function IntToDecimal(i: int): (s: string)
    ensures i >= 0 ==> IsDecimal(s) && DecimalValue(s) == i
    ensures i < 0 ==> |s| >= 2 && s[0] == '-' && IsDecimal(s[1..]) && DecimalValue(s[1..]) == -i
    ensures |s| >= 2 && s[0] != '-' ==> s[0] != '0'
  {
    if i < 0 then
      DecimalRoundTrip(-i);
      var digits := NatToDecimal(-i);
      assert ("-" + digits)[1..] == digits;
      "-" + digits
    else
      DecimalRoundTrip(i);
      NatToDecimal(i)
  }

  /** A negative integer has no leading zero after its minus sign either. */
  lemma IntToDecimalNegativeCanonical(i: int)
    requires i < 0
    ensures IntToDecimal(i)[1] != '0'
  {
    assert IntToDecimal(i)[1..] == NatToDecimal(-i);
  }

  /** `"$folder/" . $prefix . $token . $ext`: the path of one generated file. */
  function FilePath(folder: string, prefix: string, token: string, ext: string): string {
    folder + "/" + prefix + token + ext
  }

  /** In one folder, with one prefix and one extension, different tokens name different files. */
  lemma FilePathInjective(folder: string, prefix: string, t1: string, t2: string, ext: string)
    requires FilePath(folder, prefix, t1, ext) == FilePath(folder, prefix, t2, ext)
    ensures t1 == t2
  {
    var head := folder + "/" + prefix;
    var p1, p2 := head + t1 + ext, head + t2 + ext;
    assert p1 == FilePath(folder, prefix, t1, ext);
    assert p2 == FilePath(folder, prefix, t2, ext);
    assert |t1| == |t2|;
    assert p1[|head|..|head| + |t1|] == t1;
    assert p2[|head|..|head| + |t2|] == t2;
  }
}
