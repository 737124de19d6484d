/** The first version of the third tab's content manager: the same six asset
    names with the same descriptions and tags, but a five-field configuration
    with an inline default, titles made by capitalising the name with its
    underscores turned into spaces, and placeholders all drawn with one
    gradient. Nothing is searched or cut to a limit. */
module BundleContentEarly {
  import opened Wrappers
  import opened Text
  import BundleContent

  /** `AppFeatures` of the first version. */
  datatype AppFeatures = AppFeatures(enableCache: bool, enableOfflineMode: bool)

  /** `AppConfiguration` of the first version. */
  datatype AppConfiguration = AppConfiguration(
    appName: string,
    maxImagesDisplayed: int,
    enableDarkMode: bool,
    theme: string,
    features: AppFeatures)

  /** What reading `app_config.json` gave. */
  datatype ConfigFile = NotFound | Unreadable(reason: string) | Decoded(config: AppConfiguration)

  /** The configuration written out in both fallback branches. */
  function InlineDefault(): (config: AppConfiguration)
    ensures config.appName == "Default App" && config.maxImagesDisplayed == 4
    ensures !config.enableDarkMode && config.theme == "light"
    ensures config.features.enableCache && config.features.enableOfflineMode
  {
    AppConfiguration("Default App", 4, false, "light", AppFeatures(true, true))
  }

  /** The configuration `loadConfiguration()` settles on: the decoded file,
      else the inline default whether the file is missing or unreadable. */
  function ConfigFrom(file: ConfigFile): (config: AppConfiguration)
    ensures file.Decoded? ==> config == file.config
    ensures !file.Decoded? ==> config == InlineDefault()
  {
    if file.Decoded? then file.config else InlineDefault()
  }

  /** `generateTitle(from:)`: underscores become spaces and the whole name is
      capitalised; every space stays where it was, so a doubled underscore
      gives a doubled space. */
  function GenerateTitle(imageName: string): (title: string)
    ensures |title| == |imageName|
    ensures forall i :: 0 <= i < |imageName| ==> (title[i] == ' ' <==> imageName[i] == '_' || imageName[i] == ' ')
  {
    var spaced := ReplaceChar(imageName, '_', ' ');
    var title := Capitalized(spaced);
    assert forall i :: 0 <= i < |imageName| ==> (title[i] == ' ' <==> spaced[i] == ' ') by {
      forall i | 0 <= i < |imageName|
        ensures title[i] == ' ' <==> spaced[i] == ' '
      {
        BundleContent.CapitalizedFromKeepsSpaces(spaced, true, i);
      }
    }
    title
  }

  /** `createPlaceholderImages()`: the same table as the later version, every
      image drawn with the one blue-to-purple gradient (pair 0). */
  function CreatePlaceholderImages(): (images: seq<BundleContent.BundledImage>)
    ensures |images| == |BundleContent.PlaceholderData|
    ensures forall i :: 0 <= i < |images| ==>
      && images[i].title == BundleContent.PlaceholderData[i].title
      && images[i].description == BundleContent.PlaceholderData[i].description
      && images[i].tags == BundleContent.PlaceholderData[i].tags
      && images[i].image == BundleContent.Placeholder(BundleContent.PlaceholderData[i].title, 0)
  {
    var table := BundleContent.PlaceholderData;
    seq(|table|, i requires 0 <= i < |table| =>
      BundleContent.BundledImage(BundleContent.Placeholder(table[i].title, 0),
                                 table[i].title, table[i].description, table[i].tags))
  }

  // ---------------------------------------------------------------------------
  // The two versions compared

  /** The placeholders of the two versions differ only in the gradient: the
      later version gives the `i`-th image pair `i % 6`, this one pair 0. */
  lemma PlaceholdersDifferOnlyInGradient()
    ensures var early, later := CreatePlaceholderImages(), BundleContent.CreatePlaceholderImages();
      && |early| == |later|
      && (forall i :: 0 <= i < |early| ==>
            early[i] == later[i].(image := BundleContent.Placeholder(later[i].image.caption, 0)))
      && (forall i :: 0 <= i < |early| ==> (early[i] == later[i] <==> i == 0))
  {
  }

  /** A single-spaced text with a space in it is its first word, one space
      and a single-spaced rest, which is split at the same places. */
  lemma SplitFirstWord(s: string)
    requires BundleContent.SingleSpaced(s) && s != [] && RunLength(s, ' ') < |s|
    ensures var n := RunLength(s, ' ');
      && n > 0 && n + 1 < |s| && s == s[..n] + " " + s[n + 1..]
      && Split(s, ' ') == [s[..n]] + Split(s[n + 1..], ' ')
      && BundleContent.SingleSpaced(s[n + 1..])
  {
    WordThenSpace(s);
    SplitAfterWord(s);
    SingleSpacedAfterSpace(s, RunLength(s, ' ') + 1);
  }

  /** The first word of a single-spaced text with a space in it is
      non-empty and followed by one space and more text. */
  lemma WordThenSpace(s: string)
    requires BundleContent.SingleSpaced(s) && s != [] && RunLength(s, ' ') < |s|
    ensures var n := RunLength(s, ' ');
      && 0 < n && n + 1 < |s| && s[n] == ' ' && s == s[..n] + " " + s[n + 1..]
  {
    var n := RunLength(s, ' ');
    assert s[0] != ' ' && s[|s| - 1] != ' ';
    assert s == s[..n] + [s[n]] + s[n + 1..];
  }

  lemma SplitAfterWord(s: string)
    requires s != [] && s[0] != ' ' && RunLength(s, ' ') < |s|
    ensures var n := RunLength(s, ' ');
      Split(s, ' ') == [s[..n]] + Split(s[n + 1..], ' ')
  {
    var n := RunLength(s, ' ');
    assert s[n..][0] == ' ' && s[n..][1..] == s[n + 1..];
  }

  /** What follows a space of a single-spaced text is single-spaced. */
  lemma SingleSpacedAfterSpace(s: string, k: nat)
    requires BundleContent.SingleSpaced(s) && 0 < k < |s| && s[k - 1] == ' '
    ensures BundleContent.SingleSpaced(s[k..])
  {
    var t := s[k..];
    forall i | 0 <= i < |t| - 1 && t[i] == ' '
      ensures t[i + 1] != ' '
    {
      assert t[i] == s[k + i] && t[i + 1] == s[k + i + 1];
    }
    assert t[0] == s[k] && t[|t| - 1] == s[|s| - 1];
  }

  /** Capitalising across one space capitalises both sides from a word
      start. */
  lemma CapitalizedAcrossSpace(word: string, t: string)
    requires word != []
    ensures Capitalized(word + " " + t) == Capitalized(word) + " " + Capitalized(t)
  {
    assert word + " " + t == word + (" " + t);
    CapitalizedFromAppend(word, " " + t, true);
    assert (" " + t)[0] == ' ' && (" " + t)[1..] == t;
  }

  /** Capitalising a single-spaced text word by word and joining with single
      spaces is capitalising it as a whole. */
  lemma {:induction false} CapitalizeWordsOfSingleSpaced(s: string)
    requires BundleContent.SingleSpaced(s)
    ensures Join(BundleContent.CapitalizeAll(Split(s, ' ')), " ") == Capitalized(s)
    decreases |s|
  {
    if s != [] {
      var n := RunLength(s, ' ');
      if n == |s| {
        assert s[..n] == s && s[n..] == [];
        assert Split(s, ' ') == [s];
      } else {
        SplitFirstWord(s);
        var word, t := s[..n], s[n + 1..];
        CapitalizeWordsOfSingleSpaced(t);
        var rest := Split(t, ' ');
        assert rest != [];
        var caps := BundleContent.CapitalizeAll([word] + rest);
        assert caps == [Capitalized(word)] + BundleContent.CapitalizeAll(rest);
        assert caps[1..] == BundleContent.CapitalizeAll(rest);
        CapitalizedAcrossSpace(word, t);
      }
    }
  }

  /** The two versions title a name alike exactly when turning its
      underscores into spaces leaves no space at either end and none
      doubled; otherwise only the later one collapses the gaps. */
  lemma TitleVersionsAgreeIff(imageName: string)
    ensures GenerateTitle(imageName) == BundleContent.GenerateTitle(imageName)
        <==> BundleContent.SingleSpaced(ReplaceChar(imageName, '_', ' '))
  {
    var spaced := ReplaceChar(imageName, '_', ' ');
    var early, later := GenerateTitle(imageName), BundleContent.GenerateTitle(imageName);
    if BundleContent.SingleSpaced(spaced) {
      CapitalizeWordsOfSingleSpaced(spaced);
    } else {
      assert forall i :: 0 <= i < |early| ==> (early[i] == ' ' <==> spaced[i] == ' ');
      assert !BundleContent.SingleSpaced(early);
      assert BundleContent.SingleSpaced(later);
    }
  }

  /** "a__b" is titled "A  B" here and "A B" by the later version. */
  lemma TitleVersionsDifferOnDoubledUnderscore()
    ensures GenerateTitle("a__b") == "A  B"
    ensures BundleContent.GenerateTitle("a__b") == "A B"
  {
    BundleContent.GenerateTitleExample();
    EarlyTitleOfDoubledUnderscore();
  }

  /** This version keeps both spaces of "a__b". */
  lemma EarlyTitleOfDoubledUnderscore()
    ensures GenerateTitle("a__b") == "A  B"
  {
    var spaced := ReplaceChar("a__b", '_', ' ');
    assert spaced == "a  b";
    assert UpperChar('a') == 'A' && UpperChar('b') == 'B';
    assert IsWhitespaceOrNewline(' ') && !IsWhitespaceOrNewline('a');
    assert CapitalizedFrom("b", true) == "B";
    assert CapitalizedFrom(" b", true) == " B";
    assert CapitalizedFrom("  b", false) == "  B";
  }

  class BundleContentManager {
    var bundledImages: seq<BundleContent.BundledImage>
    var appConfig: Option<AppConfiguration>

    /** `init()`: configuration, then images. `assets` are the names
        `UIImage(named:)` finds and `file` the outcome of reading the
        configuration. */
    constructor(assets: set<string>, file: ConfigFile)
      ensures appConfig == Some(ConfigFrom(file))
      ensures bundledImages == BundleContent.LoadedImages(assets, GenerateTitle, CreatePlaceholderImages())
    {
      bundledImages := [];
      appConfig := None;
      new;
      LoadConfiguration(file);
      LoadBundledImages(assets);
    }

    /** `loadConfiguration()`. */
    method LoadConfiguration(file: ConfigFile)
      modifies this`appConfig
      ensures appConfig == Some(ConfigFrom(file))
    {
      match file {
        case NotFound =>
          appConfig := Some(InlineDefault());
        case Unreadable(_) =>
          appConfig := Some(InlineDefault());
        case Decoded(config) =>
          appConfig := Some(config);
      }
    }

    /** `loadBundledImages()`: each asset found, in list order, else the
        placeholders. */
    method LoadBundledImages(assets: set<string>)
      modifies this`bundledImages
      ensures bundledImages == BundleContent.LoadedImages(assets, GenerateTitle, CreatePlaceholderImages())
    {
      var names := BundleContent.ImageNames;
      var loadedImages: seq<BundleContent.BundledImage> := [];
      var i := 0;
      while i < |names|
        invariant 0 <= i <= |names|
        invariant loadedImages == BundleContent.FromAssets(BundleContent.Available(names[..i], assets), GenerateTitle)
      {
        var imageName := names[i];
        BundleContent.LoadStep(names, i, assets, GenerateTitle);
        if imageName in assets {
          loadedImages := loadedImages + [BundleContent.AssetImage(imageName, GenerateTitle)];
        }
        i := i + 1;
      }
      assert names[..i] == names;
      if loadedImages == [] {
        loadedImages := CreatePlaceholderImages();
      }
      bundledImages := loadedImages;
    }
  }
}
