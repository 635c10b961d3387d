/**
 The two entry points that compose the writers. Each file written is
 recorded, in the order the calls write them.
 */
module Orchestration {
  import opened Common
  import opened Color
  import opened Layout
  import opened Settings
  import opened Generators
  import opened Manifest
  import opened SplashLinks

  datatype Write =
    | PngWrite(png: PngFile)
    | ManifestWrite(manifest: ManifestFile)
    | LinksWrite(path: string, content: string)

  /** The defaults `generateAssets` leaves in place for the splash screens and the favicon. */
  const DefaultIconPercentage: int := 10
  const DefaultFaviconSize: int := 64
  const DefaultFaviconName: string := "favicon"

  function PngWrites(files: seq<PngFile>): (ws: seq<Write>)
    ensures |ws| == |files| && forall i :: 0 <= i < |files| ==> ws[i] == PngWrite(files[i])
  {
    seq(|files|, i requires 0 <= i < |files| => PngWrite(files[i]))
  }

  /**
   `generateAssetsFiles`: the manifest is written first; the link file follows
   unless an entry is incomplete, in which case the call fails after the
   manifest and writes nothing more.
   */
  method GenerateAssetsFiles(cfg: Config, publicPath: string, asset: string -> string,
                             manifestData: ManifestData, splashScreen: seq<LinkEntry>, splashPath: Option<string>)
    returns (writes: seq<Write>, failed: bool)
    ensures failed <==> exists i :: 0 <= i < |splashScreen| && !Complete(splashScreen[i])
    ensures |writes| == (if failed then 1 else 2)
    ensures writes[0] == ManifestWrite(ManifestFor(cfg, publicPath, manifestData))
    ensures !failed ==> Links(asset, splashScreen).Some?
    ensures !failed ==> writes[1] == LinksWrite(splashPath.GetOr(cfg.splashLinkPath), Links(asset, splashScreen).value)
  {
    var manifest := GenerateManifest(cfg, publicPath, manifestData);
    writes := [ManifestWrite(manifest)];
    var links := GenerateSplashScreenLinks(cfg, asset, splashScreen, splashPath);
    match links
    case InvalidArgument =>
      failed := true;
    case Written(path, content) =>
      failed := false;
      writes := writes + [LinksWrite(path, content)];
  }

  /**
   `generateAssets`: icons, splash screens, favicon, manifest and link file,
   in that order, all with the configured defaults. The splash descriptors it
   hands to the link writer are complete, so the call always reaches its end
   and returns the favicon's path.
   */
  method GenerateAssets(cfg: Config, publicPath: string, asset: string -> string, measure: Measure,
                        image: Image, letters: string, name: Option<string>,
                        manifestData: Option<ManifestData>, iconIds: nat -> string, splashIds: nat -> string)
    returns (favicon: string, writes: seq<Write>)
    requires image.width > 0
    ensures var icons := Descriptors(cfg.iconsFolder, IconPrefix, Sides(cfg.iconSizes), iconIds);
      var splash := Descriptors(cfg.splashFolder, SplashPrefix, Screens(cfg.splashSizes), splashIds);
      var n := |icons| + |splash|;
      var fav := GenerateFavicon(cfg, publicPath, measure, letters, None, None, None,
                                 DefaultFaviconSize, DefaultFaviconName, None);
      && |writes| == n + 3
      && (forall i :: 0 <= i < |icons| ==>
            writes[i] == PngWrite(PngFile(icons[i].path, IconCanvas(cfg.iconSizes[i], Allocate(cfg.background)))))
      && (forall j :: |icons| <= j < n ==>
            writes[j] == PngWrite(PngFile(splash[j - |icons|].path,
                                          SplashCanvas(cfg.splashSizes[j - |icons|], image.width, image.height,
                                                       DefaultIconPercentage, name, measure, cfg.police,
                                                       Allocate(cfg.background), Allocate(cfg.textColor)))))
      && writes[n] == PngWrite(fav)
      && favicon == fav.path
      && writes[n + 1] == ManifestWrite(ManifestFor(cfg, publicPath, manifestData.GetOr(IconsOnly(icons))))
      && Links(asset, EntriesOf(splash)).Some?
      && writes[n + 2] == LinksWrite(cfg.splashLinkPath, Links(asset, EntriesOf(splash)).value)
  {
    var icons, iconFiles := GenerateAppIcon(cfg, None, None, None, iconIds);
    var splash, splashFiles := GenerateSplashScreen(cfg, measure, image, name, None, None, None, None,
                                                    DefaultIconPercentage, None, splashIds);
    var fav := GenerateFavicon(cfg, publicPath, measure, letters, None, None, None,
                               DefaultFaviconSize, DefaultFaviconName, None);
    var manifest := GenerateManifest(cfg, publicPath, manifestData.GetOr(IconsOnly(icons)));
    DescriptorsAreComplete(asset, splash);
    var links := GenerateSplashScreenLinks(cfg, asset, EntriesOf(splash), None);
    assert links.Written?;
    writes := PngWrites(iconFiles) + PngWrites(splashFiles)
              + [PngWrite(fav), ManifestWrite(manifest), LinksWrite(links.path, links.content)];
    favicon := fav.path;
  }

  /**
   Under the shipped configuration, `generateAssets` writes 9 icons, 7 splash
   screens, the favicon, the manifest and the link file: 19 files, on canvases
   of positive size.
   */
  lemma DefaultAssetCount(storageRoot: string, fontPath: string, appName: string,
                          iconIds: nat -> string, splashIds: nat -> string)
    ensures var cfg := PackageDefaults(storageRoot, fontPath, appName);
      var icons := Descriptors(cfg.iconsFolder, IconPrefix, Sides(cfg.iconSizes), iconIds);
      var splash := Descriptors(cfg.splashFolder, SplashPrefix, Screens(cfg.splashSizes), splashIds);
      |icons| + |splash| + 3 == 19
    ensures var cfg := PackageDefaults(storageRoot, fontPath, appName);
      forall i :: 0 <= i < |cfg.iconSizes| ==> cfg.iconSizes[i] > 0
    ensures var cfg := PackageDefaults(storageRoot, fontPath, appName);
      forall j :: 0 <= j < |cfg.splashSizes| ==> cfg.splashSizes[j].width > 0 && cfg.splashSizes[j].height > 0
  {
  }

  /** Both shipped colours parse in full: a white background and text in (101, 132, 121). */
  lemma DefaultColors(storageRoot: string, fontPath: string, appName: string)
    ensures Allocate(PackageDefaults(storageRoot, fontPath, appName).background) == Rgb(255, 255, 255)
    ensures Allocate(PackageDefaults(storageRoot, fontPath, appName).textColor) == Rgb(101, 132, 121)
  {
  }
}
