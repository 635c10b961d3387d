/**
 The splash-link writer: every entry must carry a `path` and a `size`; one
 missing field aborts the whole batch before anything is written. Otherwise
 the file receives one `<link rel="apple-touch-startup-image" ...>` line per
 entry, in order. `asset()` is injected.
 */
module SplashLinks {
  import opened Common
  import opened Settings

  /** One element of the `$splashscreen` array: either key may be unset. */
  datatype LinkEntry = LinkEntry(path: Option<string>, size: Option<SizeSpec>)

  /** What the call ends in: the file written with its content, or the exception. */
  datatype LinksOutcome = Written(path: string, content: string) | InvalidArgument

  /** `isset($screen['path']) && isset($screen['size'])`. */
  predicate Complete(e: LinkEntry) {
    e.path.Some? && e.size.Some?
  }

  const Eol: string := "\n"
  const LinkOpen: string := "<link rel=\"apple-touch-startup-image\" href=\""
  /** What follows the href: the closing quote, then `media=` with no space before it. */
  const MediaOpen: string := "\"media=\"screen and (device-width: "
  const HeightOpen: string := ") and (device-height: "
  const OrientationOpen: string := ") and (orientation: "
  const LinkClose: string := ")\">"

  /**
   `$screen['size'][k]` as it appears in the string: a splash triple gives its
   k-th entry; indexing an integer size gives `null`, which concatenates as "".
   */
  function SizeField(size: SizeSpec, k: nat): (field: string)
    requires k < 3
    ensures size.Screen? && k == 0 ==> field == IntToDecimal(size.screen.width)
    ensures size.Screen? && k == 1 ==> field == IntToDecimal(size.screen.height)
    ensures size.Screen? && k == 2 ==> field == size.screen.orientation
    ensures size.Side? ==> field == ""
  {
    match size
    case Screen(s) => if k == 0 then IntToDecimal(s.width) else if k == 1 then IntToDecimal(s.height) else s.orientation
    case Side(_) => ""
  }

  /** `part` stands in `s` starting at index `k`. */
  predicate Occurs(s: string, k: nat, part: string) {
    k + |part| <= |s| && s[k..k + |part|] == part
  }

  /** Where each of nine concatenated segments stands in the result. */
  lemma SegmentsOfConcat(a0: string, a1: string, a2: string, a3: string, a4: string,
                         a5: string, a6: string, a7: string, a8: string)
    ensures var s := a0 + a1 + a2 + a3 + a4 + a5 + a6 + a7 + a8;
      && |s| == |a0| + |a1| + |a2| + |a3| + |a4| + |a5| + |a6| + |a7| + |a8|
      && Occurs(s, 0, a0)
      && Occurs(s, |a0|, a1)
      && Occurs(s, |a0| + |a1|, a2)
      && Occurs(s, |a0| + |a1| + |a2|, a3)
      && Occurs(s, |a0| + |a1| + |a2| + |a3|, a4)
      && Occurs(s, |a0| + |a1| + |a2| + |a3| + |a4|, a5)
      && Occurs(s, |a0| + |a1| + |a2| + |a3| + |a4| + |a5|, a6)
      && Occurs(s, |a0| + |a1| + |a2| + |a3| + |a4| + |a5| + |a6|, a7)
      && Occurs(s, |s| - |a8|, a8)
  {
  }

  /** One `<link>` line, from its href and the three rendered fields of its size. */
  function LinkLineOf(href: string, width: string, height: string, orientation: string): string {
    LinkOpen + href + MediaOpen + width + HeightOpen + height + OrientationOpen + orientation + (LinkClose + Eol)
  }

  /** One `<link>` line for an href and a size. */
  function LinkLine(href: string, size: SizeSpec): string {
    LinkLineOf(href, SizeField(size, 0), SizeField(size, 1), SizeField(size, 2))
  }

  /**
   A link line, segment by segment: the opening tag up to `href="`, the href,
   `"media="` with no space before it, then the width, the height and the
   orientation in that order, each behind its own label, and the closing
   `)">` with the line break. Nothing else stands in the line.
   */
  lemma LinkLineOfSegments(href: string, w: string, h: string, o: string)
    ensures Occurs(LinkLineOf(href, w, h, o), 0, LinkOpen)
    ensures Occurs(LinkLineOf(href, w, h, o), |LinkOpen|, href)
    ensures Occurs(LinkLineOf(href, w, h, o), |LinkOpen| + |href|, MediaOpen)
    ensures var m := |LinkOpen| + |href| + |MediaOpen|;
      Occurs(LinkLineOf(href, w, h, o), m, w)
    ensures var m := |LinkOpen| + |href| + |MediaOpen| + |w|;
      Occurs(LinkLineOf(href, w, h, o), m, HeightOpen)
    ensures var m := |LinkOpen| + |href| + |MediaOpen| + |w| + |HeightOpen|;
      Occurs(LinkLineOf(href, w, h, o), m, h)
    ensures var m := |LinkOpen| + |href| + |MediaOpen| + |w| + |HeightOpen| + |h|;
      Occurs(LinkLineOf(href, w, h, o), m, OrientationOpen)
    ensures var m := |LinkOpen| + |href| + |MediaOpen| + |w| + |HeightOpen| + |h| + |OrientationOpen|;
      Occurs(LinkLineOf(href, w, h, o), m, o)
    ensures var m := |LinkOpen| + |href| + |MediaOpen| + |w| + |HeightOpen| + |h| + |OrientationOpen| + |o|;
      |LinkLineOf(href, w, h, o)| == m + |LinkClose + Eol| && Occurs(LinkLineOf(href, w, h, o), m, LinkClose + Eol)
  {
    SegmentsOfConcat(LinkOpen, href, MediaOpen, w, HeightOpen, h, OrientationOpen, o, LinkClose + Eol);
  }

  /**
   The same for a line built from a size: the width, the height and the
   orientation stand as `SizeField` renders them, each at its offset.
   */
  lemma LinkLineSegments(href: string, size: SizeSpec)
    ensures var m := |LinkOpen| + |href| + |MediaOpen|;
      Occurs(LinkLine(href, size), m, SizeField(size, 0))
    ensures var m := |LinkOpen| + |href| + |MediaOpen| + |SizeField(size, 0)| + |HeightOpen|;
      Occurs(LinkLine(href, size), m, SizeField(size, 1))
    ensures var m := |LinkOpen| + |href| + |MediaOpen| + |SizeField(size, 0)| + |HeightOpen| + |SizeField(size, 1)|
                     + |OrientationOpen|;
      Occurs(LinkLine(href, size), m, SizeField(size, 2))
  {
    LinkLineOfSegments(href, SizeField(size, 0), SizeField(size, 1), SizeField(size, 2));
  }

  /** The text written for `entries`, or `None` when the batch is rejected. */
  function Links(asset: string -> string, entries: seq<LinkEntry>): (r: Option<string>)
    ensures r.Some? <==> forall i :: 0 <= i < |entries| ==> Complete(entries[i])
  {
    if entries == [] then Some("")
    else if !Complete(entries[0]) then None
    else match Links(asset, entries[1..])
      case None => None
      case Some(rest) => Some(LinkLine(asset(entries[0].path.value), entries[0].size.value) + rest)
  }

  /** A batch of one complete entry is exactly that entry's link line. */
  lemma LinksSingle(asset: string -> string, e: LinkEntry)
    requires Complete(e)
    ensures Links(asset, [e]) == Some(LinkLine(asset(e.path.value), e.size.value))
  {
    assert [e][1..] == [];
    assert LinkLine(asset(e.path.value), e.size.value) + "" == LinkLine(asset(e.path.value), e.size.value);
  }

  /** The text for a concatenation of batches is the concatenation of their texts. */
  lemma {:induction false} LinksAppend(asset: string -> string, a: seq<LinkEntry>, b: seq<LinkEntry>)
    ensures Links(asset, a + b) ==
      if Links(asset, a).Some? && Links(asset, b).Some? then Some(Links(asset, a).value + Links(asset, b).value)
      else None
  {
    if a == [] {
      assert a + b == b;
      if Links(asset, b).Some? {
        assert "" + Links(asset, b).value == Links(asset, b).value;
      }
    } else {
      var ab := a + b;
      assert ab[0] == a[0];
      assert ab[1..] == a[1..] + b;
      LinksAppend(asset, a[1..], b);
      var ta, tb := Links(asset, a[1..]), Links(asset, b);
      if Complete(a[0]) && ta.Some? && tb.Some? {
        var head := LinkLine(asset(a[0].path.value), a[0].size.value);
        assert Links(asset, ab) == Some(head + (ta.value + tb.value));
        assert head + (ta.value + tb.value) == (head + ta.value) + tb.value;
      }
    }
  }

  /** Descriptors returned by a generator, seen as link entries: both keys set. */
  function EntriesOf(ds: seq<Descriptor>): (es: seq<LinkEntry>)
    ensures |es| == |ds|
    ensures forall i :: 0 <= i < |ds| ==> es[i] == LinkEntry(Some(ds[i].path), Some(ds[i].size))
  {
    seq(|ds|, i requires 0 <= i < |ds| => LinkEntry(Some(ds[i].path), Some(ds[i].size)))
  }

  /** Generator output never fails the link writer's validation. */
  lemma DescriptorsAreComplete(asset: string -> string, ds: seq<Descriptor>)
    ensures Links(asset, EntriesOf(ds)).Some?
  {
  }

  /**
   `generateSplashScreenLinks`: builds the text line by line and throws at the
   first incomplete entry, before the file is written.
   */
  method GenerateSplashScreenLinks(cfg: Config, asset: string -> string, splashscreen: seq<LinkEntry>,
                                   filePath: Option<string>)
    returns (out: LinksOutcome)
    ensures out.InvalidArgument? <==> exists i :: 0 <= i < |splashscreen| && !Complete(splashscreen[i])
    ensures out.Written? ==>
      out.path == filePath.GetOr(cfg.splashLinkPath) && Some(out.content) == Links(asset, splashscreen)
  {
    var links := "";
    var target := filePath.GetOr(cfg.splashLinkPath);
    for i := 0 to |splashscreen|
      invariant Links(asset, splashscreen[..i]) == Some(links)
    {
      var screen := splashscreen[i];
      if screen.path.Some? && screen.size.Some? {
        var line := LinkLine(asset(screen.path.value), screen.size.value);
        LinksAppend(asset, splashscreen[..i], [screen]);
        assert splashscreen[..i + 1] == splashscreen[..i] + [screen];
        assert [screen][1..] == [];
        assert line + "" == line;
        links := links + line;
      } else {
        return InvalidArgument;
      }
    }
    assert splashscreen[..|splashscreen|] == splashscreen;
    out := Written(target, links);
  }
}
