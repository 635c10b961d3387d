# PWA assets generator — a Dafny model

This project models the core of the PWA assets generator, the static class
`PwaAssetsGenerator`. From one source image and a few style settings, that class
produces these assets:

- app icons at several sizes;
- splash screens with an optional caption;
- a favicon drawn from letters;
- a web app manifest;
- a file of `<link rel="apple-touch-startup-image">` tags for the splash screens.

The model keeps what the class computes and leaves out the raster library. A
canvas is its dimensions plus the drawing operations issued on it, in order:
the background fill, the paste of the scaled source image at a rectangle, and
text at a baseline position with a font size. Each PNG the source writes is
recorded as a `PngFile`, which pairs its path with its canvas. Each file the
entry points write is recorded as a `Write`, in the order the source writes it.

Modules, one per component of the class:

- `Common`: optional values (`null`, unset keys), the `size` of an asset, the
  `{path, size}` descriptor, decimal rendering, file naming.
- `Color`: `sscanf($c, "#%02x%02x%02x")` and the colour `imagecolorallocate`
  receives.
- `Layout`: placement geometry of the icon, the splash screen (icon and
  caption) and the favicon.
- `Settings`: the configuration the class reads through `config(...)`, and the
  shipped defaults.
- `Generators`: `generateAppIcon`, `generateSplashScreen`, `generateFavicon`.
- `Manifest`: `generateManifest`.
- `SplashLinks`: `generateSplashScreenLinks`.
- `Orchestration`: `generateAssetsFiles` and `generateAssets`.

Several things are passed in as parameters:

- the configuration (`Config`);
- the result of `public_path()`;
- `asset()`;
- the text measurement `imagettfbbox(...)[2]`, as a function of font size, font path and text;
- the source image's dimensions;
- `uniqid`, as the function giving the token of the i-th call.

Coordinates and sizes are `real`, because PHP's `/` gives a float whenever a
division is not exact.

## Model

| member | source | states |
|---|---|---|
| `Common.FilePathInjective` | src/PwaAssetsGenerator.php:40 | Within one folder, with one prefix and one extension, two different uniqueness tokens give two different file paths. |
| `Common.NatToDecimal` | src/PwaAssetsGenerator.php:274 | A natural number is written as a non-empty string of decimal digits, which starts with `0` only for the number 0. |
| `Common.DecimalRoundTrip` | src/PwaAssetsGenerator.php:274 | Reading the digits of `NatToDecimal(n)` back, left to right, gives `n`. |
| `Common.IntToDecimal` | src/PwaAssetsGenerator.php:274 | A non-negative integer is written as its digits. A negative one is written as `-` and then the digits of its absolute value. Read back, the digits give the value. |
| `Common.IntToDecimalNegativeCanonical` | src/PwaAssetsGenerator.php:274 | For a negative integer, the digit after the minus sign is never `0`, so `-12` is written `-12` and not `-012`. |
| `Color.ScanHexPair` | src/PwaAssetsGenerator.php:44 | One `%02x` conversion succeeds exactly when a hex digit stands at the position. It consumes one or two digits and yields a value below 256. |
| `Color.ScanColor` | src/PwaAssetsGenerator.php:44 | Every channel the scan yields is in 0..255. A channel is present only when the one before it is. The red channel is present exactly when the string starts with `#` and a hex digit. |
| `Color.Allocate` | src/PwaAssetsGenerator.php:44-45 | The colour handed to `imagecolorallocate` has every channel in 0..255, whatever the string. |
| `Color.ScanWellFormed` | src/PwaAssetsGenerator.php:117-118 | `#` followed by six hex digits, in either case and with anything after them, scans to the three integers the hex pairs denote. |
| `Color.FormatRoundTrip` | src/PwaAssetsGenerator.php:198-199 | Scanning the two-hex-digit rendering of any in-range colour gives back that colour, both as the scanned triple and as the allocated colour. |
| `Layout.IconRect` | src/PwaAssetsGenerator.php:49-54 | The pasted icon is a square of half the side. Its offsets x = y are a quarter of the side, so opposite margins are equal. For a non-negative side it lies inside the canvas. |
| `Layout.IconCanvas` | src/PwaAssetsGenerator.php:41-56 | An S×S canvas gets the background fill first, then exactly one paste, at the `IconRect` of S: offsets x = y = S/4 and a square of side S/2, inside the canvas when S ≥ 0. |
| `Layout.SplashIconRect` | src/PwaAssetsGenerator.php:122-128 | The icon width is the percentage of the screen width. Height × source width = width × source height, so the source aspect ratio is kept. The icon is centred on both axes. |
| `Layout.SplashIconFitsWidth` | src/PwaAssetsGenerator.php:122-130 | With a percentage from 0 to 100, the icon starts at x ≥ 0 and ends within the screen width. |
| `Layout.CaptionText` | src/PwaAssetsGenerator.php:133-141 | The caption is drawn at font size 30, in the text colour and with the configured font. It is centred by its measured width, with its baseline at 94% of the screen height. |
| `Layout.SplashCanvas` | src/PwaAssetsGenerator.php:115-141 | A splash canvas has the screen's size. It gets the fill, then the centred icon, then a third operation, the caption, exactly when a caption is given. |
| `Layout.FaviconText` | src/PwaAssetsGenerator.php:203-213 | The font size is half the favicon size, and the given font and colour are used. The letters are centred by their measured width. The baseline is at three quarters of the size. |
| `Layout.FaviconCanvas` | src/PwaAssetsGenerator.php:196-213 | A favicon canvas is square with the given size. It holds only the fill and the letters, and never pastes the source image. |
| `Generators.Descriptors` | src/PwaAssetsGenerator.php:146-149 | There is one descriptor per requested size, in input order, and each keeps its size unchanged. When the tokens of one call are pairwise different, all paths are pairwise different. |
| `Generators.GenerateAppIcon` | src/PwaAssetsGenerator.php:16-70 | Uses the configured size list when none is given. Returns one `{path, size}` per side, in order, named `<folder>/app_icon_<token>.png`. For each side it writes the icon canvas in the parsed background colour to that path. |
| `Generators.GenerateSplashScreen` | src/PwaAssetsGenerator.php:84-156 | Uses the configured triples when none are given. Returns one descriptor per triple, in order, carrying the whole triple. For each triple it writes the splash canvas drawn with the parsed colours, the percentage and the caption. |
| `Generators.GenerateFavicon` | src/PwaAssetsGenerator.php:169-220 | Writes exactly one favicon canvas and returns its path `<folder>/<fileName>.ico`. The folder is the public path when publishing is configured. Otherwise it is "" for an empty folder name, else "/" + name. |
| `Manifest.ManifestIcons` | src/PwaAssetsGenerator.php:230-237 | The icons map one-to-one and in order to `{src = path, sizes = size, type = "image/png"}`. |
| `Manifest.ManifestIconsRoundTrip` | src/PwaAssetsGenerator.php:231-236 | Reading the manifest's icon entries back as descriptors gives exactly the descriptors passed in. |
| `Manifest.ManifestFor` | src/PwaAssetsGenerator.php:239-253 | Each of the seven fields equals the supplied value when present and the configured default otherwise. The icons are `ManifestIcons` of the input. The file is `manifest.webmanifest` in the public path or in the configured folder. |
| `Manifest.GenerateManifest` | src/PwaAssetsGenerator.php:228-256 | The icon entries built in the loop, together with the fallbacks, give the manifest file `ManifestFor` describes. |
| `SplashLinks.LinkLineOfSegments` | src/PwaAssetsGenerator.php:274 | A line is, segment by segment at consecutive offsets: the opening tag up to `href="`; the href; `"media="` directly, with no space, and `screen and (device-width: `; the width; `) and (device-height: `; the height; `) and (orientation: `; the orientation; then `)">` and the line break, which end the line. |
| `SplashLinks.SizeField` | src/PwaAssetsGenerator.php:274 | `$screen['size'][0]`, `[1]` and `[2]` of a splash triple are its width and height in decimal and its orientation. An integer `size` gives three empty fields. |
| `SplashLinks.LinkLineSegments` | src/PwaAssetsGenerator.php:274 | In the line for a size, the width, height and orientation fields stand at their offsets after `device-width: `, `device-height: ` and `orientation: `. |
| `SplashLinks.Links` | src/PwaAssetsGenerator.php:272-278 | The batch yields text exactly when every entry has both `path` and `size`. |
| `SplashLinks.LinksSingle` | src/PwaAssetsGenerator.php:272-278 | The text for one complete entry is exactly its link line, built from `asset(path)` and its size. With `LinksAppend`, a batch's text is one line per entry, in order. |
| `SplashLinks.LinksAppend` | src/PwaAssetsGenerator.php:272-278 | The text for two batches in a row is the first batch's text followed by the second's. If either batch is rejected, the whole batch is rejected. |
| `SplashLinks.DescriptorsAreComplete` | src/PwaAssetsGenerator.php:335-340 | Descriptors returned by a generator always pass the link writer's validation. |
| `SplashLinks.GenerateSplashScreenLinks` | src/PwaAssetsGenerator.php:267-288 | The call throws exactly when some entry lacks `path` or `size`, and then nothing is written. Otherwise it writes the in-order line text to the given path, or to the configured path when none is given. |
| `Orchestration.GenerateAssetsFiles` | src/PwaAssetsGenerator.php:317-321 | The manifest is written first. The link file follows exactly when every entry is complete. On a rejected entry the call fails with only the manifest written. |
| `Orchestration.DefaultAssetCount` | config/pwaassetsgenerator.php:5-16 | Under the shipped configuration `generateAssets` writes 9 icons, 7 splash screens, the favicon, the manifest and the link file, 19 files in all. Every default icon side and screen dimension is positive. |
| `Orchestration.DefaultColors` | config/pwaassetsgenerator.php:27-28 | Both shipped colours parse in full: the background allocates to (255, 255, 255) and the text colour to (101, 132, 121). |
| `Orchestration.GenerateAssets` | src/PwaAssetsGenerator.php:331-344 | The writes come in this order: every icon, every splash screen, the favicon, the manifest (the given data, or the icons alone), then the link file. The link step never fails, and the favicon's path is returned. |

## Left out

- Raster work is not modelled: decoding, scaling, pixel copying, glyph rendering and PNG encoding belong to the GD library. The canvas records which operation was asked for with which arguments.
- Truncation to integers is not modelled. GD truncates float offsets, sizes and font positions to integers, and the geometry here is exact.
- GD's failures are not modelled: an unreadable image or font, and a non-positive canvas size, which GD rejects. Sizes are taken as given.
- The filesystem is not modelled: `file_exists` and `mkdir` for output folders, and the directory creation before the link file is written.
- `includeSplashScreen` (src/PwaAssetsGenerator.php:296-307) is not modelled. It only `include`s a file.
- The manifest's JSON text is not modelled. `json_encode` pretty-printing and unescaped slashes are left out, and the document is a record.
- `uniqid` is a parameter. Only "one path per entry, all distinct when the tokens are" is stated, not specific names.
- `config`, `public_path`, `asset`, `storage_path`, `realpath` and `env` are parameters. `env("APP_NAME")` being unset (a `null` name) is not represented.
- `PHP_EOL` is taken to be "\n".
- `Color.ScanColor`: PHP's `sscanf` skips whitespace before every conversion and accepts a sign in a `%x` conversion. For such strings the model reports the channel as missing.
- `Color.Allocate`: a missing channel is taken as 0, which is how `imagecolorallocate` receives a `null` channel.
- `SplashLinks.SizeField`: a `size` is either an integer or a three-entry triple. Arrays with other shapes, or `path` values that are not strings, are not represented.
- `Manifest.ManifestFor`: the icon entries are typed descriptors. A `$data['icons']` entry without `path` or `size` (which PHP would turn into `null`) is not represented.
- src/PwaAssetsGeneratorServiceProvider.php and src/PwaAssetsGeneratorFacade.php hold framework registration only. config/pwaassetsgenerator.php is copied as `Settings.PackageDefaults`.
