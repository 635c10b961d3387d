/**
 The configuration surface the generators read through `config(...)`,
 passed explicitly. `PackageDefaults` is the shipped configuration file,
 with `storage_path`, the font's `realpath` and `env("APP_NAME")` given as
 parameters.
 */
module Settings {
  import opened Common

  /** The `manifest` section: fallbacks for the seven manifest fields. */
  datatype ManifestDefaults = ManifestDefaults(
    name: string, shortName: string, startUrl: string, lang: string,
    description: string, display: string, backgroundColor: string)

  datatype Config = Config(
    iconSizes: seq<int>,              // sizes.icons
    splashSizes: seq<ScreenSize>,     // sizes.splash
    iconsFolder: string,              // output.icons
    splashFolder: string,             // output.splash
    faviconFolder: string,            // output.favicon
    manifestFolder: string,           // output.manifest
    splashLinkPath: string,           // output.splashScreenLinkPath
    police: string,                   // the font file
    background: string,               // background colour, "#rrggbb"
    textColor: string,                // text colour, "#rrggbb"
    publishManifest: bool,            // automatiquePublishManifestToPublicFolder
    publishFavicon: bool,             // automatiquePublishFaviconToPublicFolder
    manifest: ManifestDefaults)

  /** Laravel's `storage_path($relative)`. */
  function StoragePath(storageRoot: string, relative: string): string {
    storageRoot + "/" + relative
  }

  function PackageDefaults(storageRoot: string, fontPath: string, appName: string): Config {
    Config(
      [192, 512, 48, 72, 96, 144, 168, 180, 256],
      [ScreenSize(640, 1136, "portrait"), ScreenSize(750, 1334, "portrait"),
       ScreenSize(1242, 2208, "portrait"), ScreenSize(1125, 2436, "portrait"),
       ScreenSize(1242, 2688, "portrait"), ScreenSize(1536, 2048, "portrait"),
       ScreenSize(2048, 2732, "portrait")],
      StoragePath(storageRoot, "app/public/pwaassetsgenerator/appIcons"),
      StoragePath(storageRoot, "app/public/pwaassetsgenerator/splashScreen"),
      StoragePath(storageRoot, "app/public/pwaassetsgenerator"),
      StoragePath(storageRoot, "app/public/pwaassetsgenerator"),
      StoragePath(storageRoot, "app/public/pwaassetsgenerator/splash-screen-links.php"),
      fontPath,
      "#ffffff",
      "#658479",
      true,
      true,
      ManifestDefaults(appName, appName, "/", "en", "Description off app", "standalone", "#ffffff"))
  }
}
