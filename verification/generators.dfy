/**
 The three image generators: app icons, splash screens and the favicon.
 Every PNG written is recorded as a `PngFile` (its path and the canvas drawn);
 `uniqid` is injected as the function giving the token of the i-th call.
 */
module Generators {
  import opened Common
  import opened Color
  import opened Layout
  import opened Settings

  /** A PNG written by `imagepng($canvas, $path)`. */
  datatype PngFile = PngFile(path: string, canvas: Canvas)

  /** The decoded source image; only its dimensions matter here. */
  datatype Image = Image(width: int, height: int)

  const IconPrefix: string := "app_icon_"
  const SplashPrefix: string := "splash_screen_"

  /** The i-th `uniqid` token differs from every other one of the same call. */
  predicate DistinctTokens(uniqid: nat -> string, n: nat) {
    forall i: nat, j: nat :: i < j < n ==> uniqid(i) != uniqid(j)
  }

  predicate DistinctPaths(ds: seq<Descriptor>) {
    forall i, j :: 0 <= i < j < |ds| ==> ds[i].path != ds[j].path
  }

  /** One `{path, size}` per entry of `sizes`, in input order, each named by its own token. */
  function Descriptors(folder: string, prefix: string, sizes: seq<SizeSpec>, uniqid: nat -> string): (ds: seq<Descriptor>)
    ensures |ds| == |sizes|
    ensures forall i :: 0 <= i < |ds| ==> ds[i].size == sizes[i]
    ensures DistinctTokens(uniqid, |sizes|) ==> DistinctPaths(ds)
  {
    var ds := seq(|sizes|, i requires 0 <= i < |sizes| => Descriptor(FilePath(folder, prefix, uniqid(i), ".png"), sizes[i]));
    assert DistinctTokens(uniqid, |sizes|) ==> DistinctPaths(ds) by {
      if DistinctTokens(uniqid, |sizes|) {
        forall i, j | 0 <= i < j < |ds| ensures ds[i].path != ds[j].path {
          if ds[i].path == ds[j].path {
            FilePathInjective(folder, prefix, uniqid(i), uniqid(j), ".png");
          }
        }
      }
    }
    ds
  }

  function Sides(sizes: seq<int>): (specs: seq<SizeSpec>)
    ensures |specs| == |sizes| && forall i :: 0 <= i < |sizes| ==> specs[i] == Side(sizes[i])
  {
    seq(|sizes|, i requires 0 <= i < |sizes| => Side(sizes[i]))
  }

  function Screens(sizes: seq<ScreenSize>): (specs: seq<SizeSpec>)
    ensures |specs| == |sizes| && forall i :: 0 <= i < |sizes| ==> specs[i] == Screen(sizes[i])
  {
    seq(|sizes|, i requires 0 <= i < |sizes| => Screen(sizes[i]))
  }

  /**
   `generateAppIcon`: one square canvas per requested side (the configured list
   when none is given), in input order.
   */
  method GenerateAppIcon(cfg: Config, outputFolderName: Option<string>, iconSizes: Option<seq<int>>,
                         backgroundColor: Option<string>, uniqid: nat -> string)
    returns (paths: seq<Descriptor>, files: seq<PngFile>)
    ensures var sizes := iconSizes.GetOr(cfg.iconSizes);
      && paths == Descriptors(outputFolderName.GetOr(cfg.iconsFolder), IconPrefix, Sides(sizes), uniqid)
      && |files| == |sizes|
      && forall i :: 0 <= i < |sizes| ==>
           files[i] == PngFile(paths[i].path, IconCanvas(sizes[i], Allocate(backgroundColor.GetOr(cfg.background))))
  {
    var background := backgroundColor.GetOr(cfg.background);
    var folder := outputFolderName.GetOr(cfg.iconsFolder);
    var sizes := iconSizes.GetOr(cfg.iconSizes);
    ghost var expected := Descriptors(folder, IconPrefix, Sides(sizes), uniqid);
    paths, files := [], [];
    for i := 0 to |sizes|
      invariant paths == expected[..i]
      invariant |files| == i
      invariant forall k :: 0 <= k < i ==> files[k] == PngFile(paths[k].path, IconCanvas(sizes[k], Allocate(background)))
    {
      var outputPath := FilePath(folder, IconPrefix, uniqid(i), ".png");
      var canvas := IconCanvas(sizes[i], Allocate(background));
      files := files + [PngFile(outputPath, canvas)];
      paths := paths + [Descriptor(outputPath, Side(sizes[i]))];
    }
    assert expected[..|sizes|] == expected;
  }

  /**
   `generateSplashScreen`: one screen-sized canvas per triple (the configured
   list when none is given), in input order; each descriptor carries the whole
   triple.
   */
  method GenerateSplashScreen(cfg: Config, measure: Measure, image: Image, name: Option<string>,
                              outputFolderName: Option<string>, screenSizes: Option<seq<ScreenSize>>,
                              backgroundColor: Option<string>, textColor: Option<string>,
                              iconPercentage: int, policePath: Option<string>, uniqid: nat -> string)
    returns (paths: seq<Descriptor>, files: seq<PngFile>)
    requires image.width > 0
    ensures var sizes := screenSizes.GetOr(cfg.splashSizes);
      && paths == Descriptors(outputFolderName.GetOr(cfg.splashFolder), SplashPrefix, Screens(sizes), uniqid)
      && |files| == |sizes|
      && forall i :: 0 <= i < |sizes| ==>
           files[i] == PngFile(paths[i].path,
                               SplashCanvas(sizes[i], image.width, image.height, iconPercentage, name, measure,
                                            policePath.GetOr(cfg.police),
                                            Allocate(backgroundColor.GetOr(cfg.background)),
                                            Allocate(textColor.GetOr(cfg.textColor))))
  {
    var background := Allocate(backgroundColor.GetOr(cfg.background));
    var foreground := Allocate(textColor.GetOr(cfg.textColor));
    var folder := outputFolderName.GetOr(cfg.splashFolder);
    var sizes := screenSizes.GetOr(cfg.splashSizes);
    var fontPath := policePath.GetOr(cfg.police);
    ghost var expected := Descriptors(folder, SplashPrefix, Screens(sizes), uniqid);
    paths, files := [], [];
    for i := 0 to |sizes|
      invariant paths == expected[..i]
      invariant |files| == i
      invariant forall k :: 0 <= k < i ==>
        files[k] == PngFile(paths[k].path, SplashCanvas(sizes[k], image.width, image.height, iconPercentage,
                                                        name, measure, fontPath, background, foreground))
    {
      var outputPath := FilePath(folder, SplashPrefix, uniqid(i), ".png");
      var canvas := SplashCanvas(sizes[i], image.width, image.height, iconPercentage, name, measure,
                                 fontPath, background, foreground);
      files := files + [PngFile(outputPath, canvas)];
      paths := paths + [Descriptor(outputPath, Screen(sizes[i]))];
    }
    assert expected[..|sizes|] == expected;
  }

  /**
   The favicon's folder: the public folder when publishing is configured,
   otherwise the given (or configured) folder name behind a leading slash,
   or nothing for an empty name.
   */
  function FaviconFolder(cfg: Config, publicPath: string, outputFolderName: Option<string>): string {
    if cfg.publishFavicon then publicPath
    else
      var folderName := outputFolderName.GetOr(cfg.faviconFolder);
      if folderName == "" then "" else "/" + folderName
  }

  /** `generateFavicon`: the single file written, whose path is the value returned. */
  function GenerateFavicon(cfg: Config, publicPath: string, measure: Measure, letters: string,
                           outputFolderName: Option<string>, backgroundColor: Option<string>,
                           textColor: Option<string>, faviconSize: int, fileName: string,
                           policePath: Option<string>): (f: PngFile)
    ensures cfg.publishFavicon ==> f.path == publicPath + "/" + fileName + ".ico"
    ensures !cfg.publishFavicon && outputFolderName.GetOr(cfg.faviconFolder) == "" ==>
      f.path == "/" + fileName + ".ico"
    ensures !cfg.publishFavicon && outputFolderName.GetOr(cfg.faviconFolder) != "" ==>
      f.path == "/" + outputFolderName.GetOr(cfg.faviconFolder) + "/" + fileName + ".ico"
    ensures f.canvas == FaviconCanvas(faviconSize, letters, measure, policePath.GetOr(cfg.police),
                                      Allocate(backgroundColor.GetOr(cfg.background)),
                                      Allocate(textColor.GetOr(cfg.textColor)))
  {
    var folder := FaviconFolder(cfg, publicPath, outputFolderName);
    var faviconPath := folder + "/" + fileName + ".ico";
    var canvas := FaviconCanvas(faviconSize, letters, measure, policePath.GetOr(cfg.police),
                                Allocate(backgroundColor.GetOr(cfg.background)),
                                Allocate(textColor.GetOr(cfg.textColor)));
    PngFile(faviconPath, canvas)
  }
}
