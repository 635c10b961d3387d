/**
 The manifest writer: icon descriptors become `{src, sizes, type}` entries in
 order, and each of the seven metadata fields is the supplied value when
 present, the configured default otherwise. The document is kept as a
 structured record; its JSON text is not modelled.
 */
module Manifest {
  import opened Common
  import opened Settings

  const PngType: string := "image/png"
  const ManifestFileName: string := "manifest.webmanifest"

  datatype ManifestIcon = ManifestIcon(src: string, sizes: SizeSpec, mimeType: string)

  /** The `$data` argument: the icons and the optional overrides. */
  datatype ManifestData = ManifestData(
    icons: seq<Descriptor>,
    name: Option<string>, shortName: Option<string>, startUrl: Option<string>, lang: Option<string>,
    description: Option<string>, display: Option<string>, backgroundColor: Option<string>)

  datatype ManifestDocument = ManifestDocument(
    name: string, shortName: string, startUrl: string, lang: string,
    description: string, display: string, backgroundColor: string,
    icons: seq<ManifestIcon>)

  /** What `file_put_contents` receives: where, and the document encoded there. */
  datatype ManifestFile = ManifestFile(path: string, document: ManifestDocument)

  /** The data `generateAssets` builds when no manifest data is given: only the icons. */
  function IconsOnly(icons: seq<Descriptor>): ManifestData {
    ManifestData(icons, None, None, None, None, None, None, None)
  }

  function IconEntry(d: Descriptor): ManifestIcon {
    ManifestIcon(d.path, d.size, PngType)
  }

  /** The `icons` array of the manifest, entry by entry. */
  function ManifestIcons(ds: seq<Descriptor>): (icons: seq<ManifestIcon>)
    ensures |icons| == |ds|
    ensures forall i :: 0 <= i < |ds| ==>
      icons[i].src == ds[i].path && icons[i].sizes == ds[i].size && icons[i].mimeType == PngType
  {
    if ds == [] then [] else [IconEntry(ds[0])] + ManifestIcons(ds[1..])
  }

  /** Reads a manifest icon entry back as the descriptor it came from. */
  function DescriptorOf(icon: ManifestIcon): Descriptor {
    Descriptor(icon.src, icon.sizes)
  }

  function DescriptorsOf(icons: seq<ManifestIcon>): (ds: seq<Descriptor>)
    ensures |ds| == |icons|
  {
    if icons == [] then [] else [DescriptorOf(icons[0])] + DescriptorsOf(icons[1..])
  }

  /** Reading the manifest's icons back yields exactly the descriptors it was given. */
  lemma {:induction false} ManifestIconsRoundTrip(ds: seq<Descriptor>)
    ensures DescriptorsOf(ManifestIcons(ds)) == ds
  {
    if ds != [] {
      ManifestIconsRoundTrip(ds[1..]);
      assert ManifestIcons(ds)[1..] == ManifestIcons(ds[1..]);
    }
  }

  /** `$value ?? $default` for one field. */
  predicate FallsBack(supplied: Option<string>, default: string, field: string) {
    (supplied.Some? ==> field == supplied.value) && (supplied.None? ==> field == default)
  }

  /** The manifest `generateManifest` writes, and where. */
  function ManifestFor(cfg: Config, publicPath: string, data: ManifestData): (f: ManifestFile)
    ensures f.path == (if cfg.publishManifest then publicPath else cfg.manifestFolder) + "/" + ManifestFileName
    ensures f.document.icons == ManifestIcons(data.icons)
    ensures FallsBack(data.name, cfg.manifest.name, f.document.name)
    ensures FallsBack(data.shortName, cfg.manifest.shortName, f.document.shortName)
    ensures FallsBack(data.startUrl, cfg.manifest.startUrl, f.document.startUrl)
    ensures FallsBack(data.lang, cfg.manifest.lang, f.document.lang)
    ensures FallsBack(data.description, cfg.manifest.description, f.document.description)
    ensures FallsBack(data.display, cfg.manifest.display, f.document.display)
    ensures FallsBack(data.backgroundColor, cfg.manifest.backgroundColor, f.document.backgroundColor)
  {
    var defaults := cfg.manifest;
    var document := ManifestDocument(
      data.name.GetOr(defaults.name),
      data.shortName.GetOr(defaults.shortName),
      data.startUrl.GetOr(defaults.startUrl),
      data.lang.GetOr(defaults.lang),
      data.description.GetOr(defaults.description),
      data.display.GetOr(defaults.display),
      data.backgroundColor.GetOr(defaults.backgroundColor),
      ManifestIcons(data.icons));
    var folder := if cfg.publishManifest then publicPath else cfg.manifestFolder;
    ManifestFile(folder + "/" + ManifestFileName, document)
  }

  /** `generateManifest`: accumulates the icon entries in a loop, then applies the fallbacks. */
  method GenerateManifest(cfg: Config, publicPath: string, data: ManifestData) returns (f: ManifestFile)
    ensures f == ManifestFor(cfg, publicPath, data)
  {
    var icons: seq<ManifestIcon> := [];
    for i := 0 to |data.icons|
      invariant |icons| == i
      invariant forall k :: 0 <= k < i ==> icons[k] == IconEntry(data.icons[k])
    {
      icons := icons + [IconEntry(data.icons[i])];
    }
    var defaults := cfg.manifest;
    var document := ManifestDocument(
      data.name.GetOr(defaults.name),
      data.shortName.GetOr(defaults.shortName),
      data.startUrl.GetOr(defaults.startUrl),
      data.lang.GetOr(defaults.lang),
      data.description.GetOr(defaults.description),
      data.display.GetOr(defaults.display),
      data.backgroundColor.GetOr(defaults.backgroundColor),
      icons);
    var folder := if cfg.publishManifest then publicPath else cfg.manifestFolder;
    f := ManifestFile(folder + "/" + ManifestFileName, document);
  }
}
