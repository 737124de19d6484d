/** The bundled-content tab's configuration record (`AppConfiguration`) and
    its feature switches (`AppFeatures`): optional fields with `??` defaults,
    a case-insensitive theme table and the built-in default configuration. */
module AppConfig {
  import opened Wrappers
  import Text

  // ---------------------------------------------------------------------------
  // AppFeatures

  datatype AppFeatures = AppFeatures(
    enableCache: bool,
    enableOfflineMode: bool,
    enableImageSearch: Option<bool>,
    enableImageSharing: Option<bool>)

  /** `AppFeatures.init`, whose arguments default to cache and offline mode
      on and to search and sharing left unset. */
  function MakeAppFeatures(
    enableCache: bool := true,
    enableOfflineMode: bool := true,
    enableImageSearch: Option<bool> := None,
    enableImageSharing: Option<bool> := None): (f: AppFeatures)
    ensures f.enableCache == enableCache && f.enableOfflineMode == enableOfflineMode
    ensures EffectiveEnableImageSearch(f) <==> enableImageSearch == Some(true)
    ensures EffectiveEnableImageSharing(f) <==> enableImageSharing == Some(true)
  {
    AppFeatures(enableCache, enableOfflineMode, enableImageSearch, enableImageSharing)
  }

  /** Search is on only when the configuration switches it on explicitly. */
  function EffectiveEnableImageSearch(f: AppFeatures): (on: bool)
    ensures on <==> f.enableImageSearch == Some(true)
  {
    f.enableImageSearch.GetOr(false)
  }

  /** Sharing is on only when the configuration switches it on explicitly. */
  function EffectiveEnableImageSharing(f: AppFeatures): (on: bool)
    ensures on <==> f.enableImageSharing == Some(true)
  {
    f.enableImageSharing.GetOr(false)
  }

  /** A default-constructed `AppFeatures` has cache and offline mode on and
      search and sharing effectively off. */
  lemma DefaultFeatures()
    ensures var f := MakeAppFeatures();
      f.enableCache && f.enableOfflineMode
      && !EffectiveEnableImageSearch(f) && !EffectiveEnableImageSharing(f)
  {
  }

  // ---------------------------------------------------------------------------
  // AppConfiguration

  datatype Color = Blue | Green | Gray | Purple | Orange

  datatype ColorScheme = Light | Dark

  /** The configuration record. `imageCornerRadius` is a Swift `Double`; it is
      only stored and defaulted, never computed with, so `real` stands for it. */
  datatype AppConfiguration = AppConfiguration(
    appName: string,
    maxImagesDisplayed: int,
    enableDarkMode: bool,
    theme: string,
    gridColumns: Option<int>,
    imageCornerRadius: Option<real>,
    showImageTags: Option<bool>,
    showImageDescriptions: Option<bool>,
    enableImageAnimations: Option<bool>,
    features: AppFeatures)

  function EffectiveGridColumns(c: AppConfiguration): (n: int)
    ensures c.gridColumns.None? ==> n == 2
    ensures c.gridColumns.Some? ==> n == c.gridColumns.value
  {
    c.gridColumns.GetOr(2)
  }

  function EffectiveImageCornerRadius(c: AppConfiguration): (radius: real)
    ensures c.imageCornerRadius.None? ==> radius == 12.0
    ensures c.imageCornerRadius.Some? ==> radius == c.imageCornerRadius.value
  {
    c.imageCornerRadius.GetOr(12.0)
  }

  /** Tags are shown unless the configuration switches them off explicitly. */
  function EffectiveShowImageTags(c: AppConfiguration): (on: bool)
    ensures !on <==> c.showImageTags == Some(false)
  {
    c.showImageTags.GetOr(true)
  }

  /** Descriptions are shown unless switched off explicitly. */
  function EffectiveShowImageDescriptions(c: AppConfiguration): (on: bool)
    ensures !on <==> c.showImageDescriptions == Some(false)
  {
    c.showImageDescriptions.GetOr(true)
  }

  /** Animations run unless switched off explicitly. */
  function EffectiveEnableImageAnimations(c: AppConfiguration): (on: bool)
    ensures !on <==> c.enableImageAnimations == Some(false)
  {
    c.enableImageAnimations.GetOr(true)
  }

  /** The accent colour named by the theme, compared case-insensitively;
      unknown themes fall back to blue. */
  function ThemeColor(c: AppConfiguration): (color: Color)
    ensures color == Green <==> Text.Lower(c.theme) == "nature"
    ensures color == Gray <==> Text.Lower(c.theme) == "urban"
    ensures color == Purple <==> Text.Lower(c.theme) == "creative"
    ensures color == Orange <==> Text.Lower(c.theme) == "warm"
    ensures color == Blue <==> Text.Lower(c.theme) !in {"nature", "urban", "creative", "warm"}
  {
    match Text.Lower(c.theme)
    case "modern" => Blue
    case "nature" => Green
    case "urban" => Gray
    case "creative" => Purple
    case "warm" => Orange
    case _ => Blue
  }

  /** Two configurations whose themes differ only in letter case get the same
      colour. */
  lemma ThemeColorIgnoresCase(a: AppConfiguration, b: AppConfiguration)
    requires Text.Lower(a.theme) == Text.Lower(b.theme)
    ensures ThemeColor(a) == ThemeColor(b)
  {
  }

  /** The colour scheme is always set, and dark exactly when dark mode is on. */
  function ColorSchemeOf(c: AppConfiguration): (scheme: Option<ColorScheme>)
    ensures scheme.Some?
    ensures scheme == Some(Dark) <==> c.enableDarkMode
  {
    if c.enableDarkMode then Some(Dark) else Some(Light)
  }

  /** `AppConfiguration.defaultConfig`: "Default App" showing 4 images, light,
      the "modern" theme, 2 columns, every optional switch on, and features
      with cache and offline mode on but search and sharing unset. */
  function DefaultConfig(): (c: AppConfiguration)
    ensures c.appName == "Default App" && c.maxImagesDisplayed == 4 && c.theme == "modern"
    ensures ColorSchemeOf(c) == Some(Light) && ThemeColor(c) == Blue
    ensures EffectiveGridColumns(c) == 2 && EffectiveImageCornerRadius(c) == 12.0
    ensures EffectiveShowImageTags(c) && EffectiveShowImageDescriptions(c)
    ensures EffectiveEnableImageAnimations(c)
    ensures c.features.enableCache && c.features.enableOfflineMode
    ensures c.features.enableImageSearch.None? && c.features.enableImageSharing.None?
    ensures !EffectiveEnableImageSearch(c.features) && !EffectiveEnableImageSharing(c.features)
  {
    var c := AppConfiguration(
      appName := "Default App",
      maxImagesDisplayed := 4,
      enableDarkMode := false,
      theme := "modern",
      gridColumns := Some(2),
      imageCornerRadius := Some(12.0),
      showImageTags := Some(true),
      showImageDescriptions := Some(true),
      enableImageAnimations := Some(true),
      features := MakeAppFeatures(enableCache := true, enableOfflineMode := true));
    assert Text.Lower(c.theme) == "modern";
    c
  }
}
