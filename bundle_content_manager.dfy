/** The third tab's content manager: the images shipped with the app (or six
    placeholders when none is found), the configuration read from
    `app_config.json` with its fallbacks, and the list actually displayed,
    which is searched and cut to the configured number of images. */
module BundleContent {
  import opened Wrappers
  import opened Text
  import opened AppConfig

  // ---------------------------------------------------------------------------
  // Images

  /** Where an image's pixels come from: a bundled asset, or a drawn
      placeholder (its caption and the index of its gradient pair). */
  datatype ImageSource = Asset(name: string) | Placeholder(caption: string, gradient: nat)

  /** `BundledImage` without its random `UUID`. */
  datatype BundledImage = BundledImage(image: ImageSource, title: string, description: string, tags: seq<string>)

  /** The asset names looked up, in this order. */
  const ImageNames: seq<string> :=
    ["sample_nature_1", "sample_nature_2", "sample_city_1", "sample_city_2", "sample_abstract_1", "sample_abstract_2"]

  datatype PlaceholderEntry = PlaceholderEntry(title: string, description: string, tags: seq<string>)

  /** The placeholder table. */
  const PlaceholderData: seq<PlaceholderEntry> := [
    PlaceholderEntry("Nature Landscape", "Beautiful mountain landscape with clear blue sky", ["nature", "mountain", "landscape"]),
    PlaceholderEntry("City Skyline", "Modern city skyline during golden hour", ["city", "urban", "skyline"]),
    PlaceholderEntry("Abstract Art", "Colorful abstract geometric patterns", ["abstract", "art", "geometric"]),
    PlaceholderEntry("Ocean View", "Peaceful ocean waves at sunset", ["ocean", "sunset", "peaceful"]),
    PlaceholderEntry("Forest Path", "Mysterious forest path in autumn", ["forest", "autumn", "path"]),
    PlaceholderEntry("Desert Dunes", "Golden sand dunes under starry sky", ["desert", "dunes", "stars"])
  ]

  /** The number of gradient pairs placeholders cycle through. */
  const GradientCount := 6

  /** `createPlaceholderImages()`: one image per table entry, in table order,
      the `i`-th drawn with gradient pair `i % 6`. */
  function CreatePlaceholderImages(): (images: seq<BundledImage>)
    ensures |images| == |PlaceholderData| == 6
    ensures forall i :: 0 <= i < |images| ==>
      && images[i].title == PlaceholderData[i].title
      && images[i].description == PlaceholderData[i].description
      && images[i].tags == PlaceholderData[i].tags
      && images[i].image == Placeholder(PlaceholderData[i].title, i % GradientCount)
  {
    seq(|PlaceholderData|, i requires 0 <= i < |PlaceholderData| =>
      BundledImage(Placeholder(PlaceholderData[i].title, i % GradientCount),
                   PlaceholderData[i].title, PlaceholderData[i].description, PlaceholderData[i].tags))
  }

  // ---------------------------------------------------------------------------
  // Titles, descriptions and tags

  /** No space at either end and never two spaces in a row. */
  predicate SingleSpaced(s: string) {
    s == [] || (s[0] != ' ' && s[|s| - 1] != ' ' && forall i :: 0 <= i < |s| - 1 && s[i] == ' ' ==> s[i + 1] != ' ')
  }

  /** Capitalising moves no space: only letters change case. */
  lemma {:induction false} CapitalizedFromKeepsSpaces(s: string, w: bool, i: nat)
    requires i < |s|
    ensures CapitalizedFrom(s, w)[i] == ' ' <==> s[i] == ' '
    decreases |s|
  {
    if i > 0 {
      CapitalizedFromKeepsSpaces(s[1..], IsWhitespaceOrNewline(s[0]), i - 1);
    }
  }

  /** Each word capitalised. */
  function CapitalizeAll(words: seq<string>): (r: seq<string>)
    ensures |r| == |words|
    ensures forall i :: 0 <= i < |words| ==> r[i] == Capitalized(words[i])
  {
    seq(|words|, i requires 0 <= i < |words| => Capitalized(words[i]))
  }

  /** Non-empty words without spaces joined by single spaces give a
      single-spaced text that starts with the first word. */
  lemma {:induction false} JoinWordsSingleSpaced(words: seq<string>)
    requires forall i :: 0 <= i < |words| ==> words[i] != [] && ' ' !in words[i]
    ensures SingleSpaced(Join(words, " "))
    ensures words != [] ==> |Join(words, " ")| >= |words[0]| && Join(words, " ")[..|words[0]|] == words[0]
    decreases |words|
  {
    if |words| >= 2 {
      var p, j := words[0], Join(words[1..], " ");
      JoinWordsSingleSpaced(words[1..]);
      var s := p + " " + j;
      assert Join(words, " ") == s;
      assert j != [] && j[0] == words[1][0] && j[0] != ' ';
      assert s[..|p|] == p;
      forall i | 0 <= i < |s| - 1 && s[i] == ' '
        ensures s[i + 1] != ' '
      {
        if i > |p| {
          assert s[i] == j[i - |p| - 1] && s[i + 1] == j[i - |p|];
        }
      }
      assert s[0] == p[0] && s[|s| - 1] == j[|j| - 1];
    } else if |words| == 1 {
      var p := words[0];
      assert forall i :: 0 <= i < |p| ==> p[i] != ' ';
    }
  }

  /** `generateTitle(from:)`: underscores become spaces, the text is split at
      spaces with empty pieces dropped, each word is capitalised and the
      words are joined by single spaces. */
  function GenerateTitle(imageName: string): (title: string)
    ensures SingleSpaced(title)
  {
    var words := CapitalizeAll(Split(ReplaceChar(imageName, '_', ' '), ' '));
    assert forall i :: 0 <= i < |words| ==> words[i] != [] && ' ' !in words[i] by {
      var raw := Split(ReplaceChar(imageName, '_', ' '), ' ');
      forall i, k | 0 <= i < |words| && 0 <= k < |words[i]|
        ensures words[i][k] != ' '
      {
        CapitalizedFromKeepsSpaces(raw[i], true, k);
      }
    }
    JoinWordsSingleSpaced(words);
    Join(words, " ")
  }

  /** A doubled underscore leaves no doubled space: "a__b" is titled
      "A B". */
  lemma GenerateTitleExample()
    ensures GenerateTitle("a__b") == "A B"
  {
    var spaced := ReplaceChar("a__b", '_', ' ');
    assert spaced == "a  b";
    assert RunLength(spaced, ' ') == 1;
    assert RunLength(spaced[3..], ' ') == 1;
    assert spaced[3..][..1] == "b" && spaced[3..][1..] == [];
    assert Split(spaced[3..], ' ') == ["b"];
    assert Split(spaced[2..], ' ') == ["b"];
    assert Split(spaced[1..], ' ') == ["b"];
    assert spaced[..1] == "a";
    assert Split(spaced, ' ') == ["a", "b"];
    assert UpperChar('a') == 'A' && UpperChar('b') == 'B';
    assert Capitalized("a") == "A" && Capitalized("b") == "B";
    assert CapitalizeAll(["a", "b"]) == ["A", "B"];
    assert Join(["A", "B"], " ") == "A B";
  }


  const NatureDescription := "Beautiful natural landscape captured in stunning detail"
  const CityDescription := "Urban architecture and city life in modern setting"
  const AbstractDescription := "Creative abstract composition with vibrant colors"
  const GenericDescription := "High quality image from our curated collection"

  const NatureTags: seq<string> := ["nature", "outdoor", "landscape"]
  const CityTags: seq<string> := ["urban", "architecture", "modern"]
  const AbstractTags: seq<string> := ["art", "creative", "colorful"]

  /** `generateDescription(from:)`: the first keyword found, in the order
      nature, city, abstract, picks the text. */
  function GenerateDescription(imageName: string): (d: string)
    ensures Contains(imageName, "nature") ==> d == NatureDescription
    ensures !Contains(imageName, "nature") && Contains(imageName, "city") ==> d == CityDescription
    ensures !Contains(imageName, "nature") && !Contains(imageName, "city") && Contains(imageName, "abstract") ==>
      d == AbstractDescription
    ensures d == GenericDescription <==>
      !Contains(imageName, "nature") && !Contains(imageName, "city") && !Contains(imageName, "abstract")
  {
    if Contains(imageName, "nature") then NatureDescription
    else if Contains(imageName, "city") then CityDescription
    else if Contains(imageName, "abstract") then AbstractDescription
    else GenericDescription
  }

  /** `generateTags(from:)`: three tags for each keyword found, in the order
      nature, city, abstract. */
  function GenerateTags(imageName: string): (tags: seq<string>)
    ensures |tags| % 3 == 0
    ensures |tags| / 3 == (if Contains(imageName, "nature") then 1 else 0)
                        + (if Contains(imageName, "city") then 1 else 0)
                        + (if Contains(imageName, "abstract") then 1 else 0)
    ensures "nature" in tags <==> Contains(imageName, "nature")
    ensures "urban" in tags <==> Contains(imageName, "city")
    ensures "art" in tags <==> Contains(imageName, "abstract")
    ensures Contains(imageName, "nature") ==> tags[..3] == NatureTags
    ensures Contains(imageName, "city") ==>
      var k := if Contains(imageName, "nature") then 3 else 0;
      tags[k..k + 3] == CityTags
    ensures Contains(imageName, "abstract") ==> tags[|tags| - 3..] == AbstractTags
  {
    var tags: seq<string> := [];
    var tags := if Contains(imageName, "nature") then tags + NatureTags else tags;
    var before := tags;
    var tags := if Contains(imageName, "city") then tags + CityTags else tags;
    assert Contains(imageName, "city") ==> tags[|before|..|before| + 3] == CityTags;
    var tags := if Contains(imageName, "abstract") then tags + AbstractTags else tags;
    tags
  }

  /** An image gets the generic description exactly when it gets no tags, and
      otherwise its first tag names the keyword its description was picked
      by. */
  lemma DescriptionAgreesWithTags(imageName: string)
    ensures GenerateDescription(imageName) == GenericDescription <==> GenerateTags(imageName) == []
    ensures var tags := GenerateTags(imageName);
      && (tags != [] && tags[0] == "nature" ==> GenerateDescription(imageName) == NatureDescription)
      && (tags != [] && tags[0] == "urban" ==> GenerateDescription(imageName) == CityDescription)
      && (tags != [] && tags[0] == "art" ==> GenerateDescription(imageName) == AbstractDescription)
  {
  }

  // ---------------------------------------------------------------------------
  // Loading the images

  /** An image loaded from the asset `name`, titled by `titleOf`. */
  function AssetImage(name: string, titleOf: string -> string): BundledImage {
    BundledImage(Asset(name), titleOf(name), GenerateDescription(name), GenerateTags(name))
  }

  /** `a` is `b` with some elements left out, order kept. */
  predicate IsSubsequence<T(==)>(a: seq<T>, b: seq<T>)
    decreases |b|
  {
    a == [] || (b != [] && ((a[0] == b[0] && IsSubsequence(a[1..], b[1..])) || IsSubsequence(a, b[1..])))
  }

  /** Appending one element to both sides keeps a subsequence. */
  lemma {:induction false} SubsequenceAppend<T>(a: seq<T>, b: seq<T>, x: T)
    requires IsSubsequence(a, b)
    ensures IsSubsequence(a + [x], b + [x]) && IsSubsequence(a, b + [x])
    decreases |b|
  {
    if a == [] {
      assert a + [x] == [x];
      SubsequenceOfSelf([x]);
      SkipPrefix(b, [x], [x]);
    } else {
      assert (a + [x])[0] == a[0] && (a + [x])[1..] == a[1..] + [x] && (b + [x])[1..] == b[1..] + [x];
      if a[0] == b[0] && IsSubsequence(a[1..], b[1..]) {
        SubsequenceAppend(a[1..], b[1..], x);
      } else {
        SubsequenceAppend(a, b[1..], x);
      }
    }
  }

  lemma {:induction false} SubsequenceOfSelf<T>(s: seq<T>)
    ensures IsSubsequence(s, s)
    decreases |s|
  {
    if s != [] {
      SubsequenceOfSelf(s[1..]);
    }
  }

  /** A subsequence of a suffix is a subsequence of the whole. */
  lemma {:induction false} SkipPrefix<T>(p: seq<T>, b: seq<T>, a: seq<T>)
    requires IsSubsequence(a, b)
    ensures IsSubsequence(a, p + b)
    decreases |p|
  {
    if p != [] {
      SkipPrefix(p[1..], b, a);
      assert (p + b)[1..] == p[1..] + b;
    } else {
      assert p + b == b;
    }
  }

  /** The names found among the assets, in list order. */
  function Available(names: seq<string>, assets: set<string>): seq<string>
    decreases |names|
  {
    if names == [] then []
    else
      var rest := Available(names[..|names| - 1], assets);
      if names[|names| - 1] in assets then rest + [names[|names| - 1]] else rest
  }

  /** `Available` keeps exactly the names found, in their order, and is
      empty exactly when none is found. */
  lemma {:induction false} AvailableSpec(names: seq<string>, assets: set<string>)
    ensures var found := Available(names, assets);
      && IsSubsequence(found, names)
      && (forall n :: n in found <==> n in names && n in assets)
      && (found == [] <==> forall i :: 0 <= i < |names| ==> names[i] !in assets)
    decreases |names|
  {
    if names != [] {
      var init, last := names[..|names| - 1], names[|names| - 1];
      var rest := Available(init, assets);
      AvailableSpec(init, assets);
      assert names == init + [last];
      SubsequenceAppend(rest, init, last);
      var found := Available(names, assets);
      assert found == if last in assets then rest + [last] else rest;
      assert forall n :: n in names <==> n in init || n == last;
      assert forall n :: n in found <==> n in rest || (n == last && last in assets);
      assert forall i :: 0 <= i < |init| ==> names[i] == init[i];
    }
  }

  /** The images loaded from the given asset names, in the same order. */
  function FromAssets(names: seq<string>, titleOf: string -> string): (images: seq<BundledImage>)
    ensures |images| == |names|
    ensures forall i :: 0 <= i < |names| ==> images[i] == AssetImage(names[i], titleOf)
  {
    seq(|names|, i requires 0 <= i < |names| => AssetImage(names[i], titleOf))
  }

  /** `loadBundledImages()`'s result: the assets found, in list order, or
      the placeholders when none is. */
  function LoadedImages(assets: set<string>, titleOf: string -> string, placeholders: seq<BundledImage>): seq<BundledImage> {
    var found := Available(ImageNames, assets);
    if found == [] then placeholders else FromAssets(found, titleOf)
  }

  /** The placeholders are used exactly when no asset is found; otherwise
      each image comes from a found asset, and the assets appear in list
      order. */
  lemma LoadedImagesSpec(assets: set<string>, titleOf: string -> string, placeholders: seq<BundledImage>)
    ensures var images := LoadedImages(assets, titleOf, placeholders);
      && ((forall i :: 0 <= i < |ImageNames| ==> ImageNames[i] !in assets) ==> images == placeholders)
      && ((exists i :: 0 <= i < |ImageNames| && ImageNames[i] in assets) ==>
            var found := Available(ImageNames, assets);
            && images == FromAssets(found, titleOf)
            && IsSubsequence(found, ImageNames)
            && forall n :: n in found <==> n in ImageNames && n in assets)
  {
    AvailableSpec(ImageNames, assets);
  }

  /** With every asset present, the six images appear in list order with
      their generated titles. */
  lemma AllAssetsLoaded(titleOf: string -> string, placeholders: seq<BundledImage>)
    ensures var images := LoadedImages((set n | n in ImageNames), titleOf, placeholders);
      |images| == 6 && forall i :: 0 <= i < 6 ==> images[i] == AssetImage(ImageNames[i], titleOf)
  {
    var assets := set n | n in ImageNames;
    AvailableAll(ImageNames, assets);
    assert ImageNames[0] in assets;
  }

  lemma {:induction false} AvailableAll(names: seq<string>, assets: set<string>)
    requires forall i :: 0 <= i < |names| ==> names[i] in assets
    ensures Available(names, assets) == names
    decreases |names|
  {
    if names != [] {
      AvailableAll(names[..|names| - 1], assets);
      assert names[..|names| - 1] + [names[|names| - 1]] == names;
    }
  }

  /** One more name looked up adds its image when the asset is found. */
  lemma LoadStep(names: seq<string>, i: nat, assets: set<string>, titleOf: string -> string)
    requires i < |names|
    ensures FromAssets(Available(names[..i + 1], assets), titleOf)
         == FromAssets(Available(names[..i], assets), titleOf)
          + (if names[i] in assets then [AssetImage(names[i], titleOf)] else [])
  {
    assert names[..i + 1][..i] == names[..i];
    var before := Available(names[..i], assets);
    var after := Available(names[..i + 1], assets);
    assert after == before + (if names[i] in assets then [names[i]] else []);
  }

  // ---------------------------------------------------------------------------
  // Search and the display limit

  /** An image matches a query when its title, its description or one of
      its tags contains it, ignoring case. */
  predicate Matches(image: BundledImage, query: string) {
    || ContainsIgnoringCase(image.title, query)
    || ContainsIgnoringCase(image.description, query)
    || exists i :: 0 <= i < |image.tags| && ContainsIgnoringCase(image.tags[i], query)
  }

  /** `images.filter { … }`: the matching images, order kept. */
  function Search(images: seq<BundledImage>, query: string): (found: seq<BundledImage>)
    ensures forall x :: x in found <==> x in images && Matches(x, query)
    ensures IsSubsequence(found, images)
    decreases |images|
  {
    if images == [] then []
    else
      var rest := Search(images[1..], query);
      assert forall x :: x in images <==> x == images[0] || x in images[1..];
      if Matches(images[0], query) then [images[0]] + rest
      else (if rest != [] then assert IsSubsequence(rest, images[1..]); rest else rest)
  }

  /** Search keeps a matching image as often as it occurs and drops every
      other one. */
  lemma {:induction false} SearchKeepsMultiplicity(images: seq<BundledImage>, query: string)
    ensures forall x :: multiset(Search(images, query))[x] == if Matches(x, query) then multiset(images)[x] else 0
    decreases |images|
  {
    if images != [] {
      SearchKeepsMultiplicity(images[1..], query);
      assert images == [images[0]] + images[1..];
    }
  }

  /** `Array(images.prefix(n))` as written: Swift stops the program on a
      negative length, which `None` stands for. */
  function PrefixAsWritten<T>(s: seq<T>, n: int): (r: Option<seq<T>>)
    ensures r.None? <==> n < 0
    ensures r.Some? ==> r.value == s[..if n < |s| then n else |s|]
  {
    if n < 0 then None else Some(s[..if n < |s| then n else |s|])
  }

  /** A configuration asking for a negative number of images stops the
      program as written. */
  lemma NegativeLimitStops()
    ensures PrefixAsWritten(CreatePlaceholderImages(), -1) == None
  {
  }

  /** The display limit with a negative count taken as zero, which the
      model uses. */
  function Prefix<T>(s: seq<T>, n: int): (r: seq<T>)
    ensures |r| == if n <= 0 then 0 else if n < |s| then n else |s|
    ensures r == s[..|r|]
    ensures n >= 0 ==> PrefixAsWritten(s, n) == Some(r)
  {
    if n <= 0 then [] else if n < |s| then s[..n] else s
  }

  /** A prefix of a subsequence is still a subsequence. */
  lemma {:induction false} PrefixOfSubsequence<T>(a: seq<T>, b: seq<T>, k: nat)
    requires IsSubsequence(a, b) && k <= |a|
    ensures IsSubsequence(a[..k], b)
    decreases |b|
  {
    if k > 0 {
      if a[0] == b[0] && IsSubsequence(a[1..], b[1..]) {
        PrefixOfSubsequence(a[1..], b[1..], k - 1);
        assert a[..k][1..] == a[1..][..k - 1];
      } else {
        PrefixOfSubsequence(a, b[1..], k);
      }
    }
  }

  /** Whether the search filter applies: search switched on and a
      non-empty query. */
  predicate Searching(config: AppConfiguration, searchText: string) {
    EffectiveEnableImageSearch(config.features) && searchText != []
  }

  /** `applyConfigurationToImages()`'s result. Without a configuration, all
      images; with one, the images (searched when `Searching`) cut to
      `maxImagesDisplayed`. */
  function Displayed(images: seq<BundledImage>, config: Option<AppConfiguration>, searchText: string): (shown: seq<BundledImage>)
    ensures config.None? ==> shown == images
    ensures IsSubsequence(shown, images)
    ensures config.Some? && Searching(config.value, searchText) ==>
      shown == Prefix(Search(images, searchText), config.value.maxImagesDisplayed)
      && forall x :: x in shown ==> Matches(x, searchText)
    ensures config.Some? && !Searching(config.value, searchText) ==>
      shown == Prefix(images, config.value.maxImagesDisplayed)
  {
    match config
    case None => SubsequenceOfSelf(images); images
    case Some(c) =>
      var searched := if Searching(c, searchText) then Search(images, searchText) else images;
      SubsequenceOfSelf(images);
      var shown := Prefix(searched, c.maxImagesDisplayed);
      PrefixOfSubsequence(searched, images, |shown|);
      shown
  }

  /** An empty query with search switched on shows the first
      `maxImagesDisplayed` images unfiltered. */
  lemma EmptyQueryShowsPrefix(images: seq<BundledImage>, config: AppConfiguration)
    requires EffectiveEnableImageSearch(config.features)
    ensures Displayed(images, Some(config), "") == Prefix(images, config.maxImagesDisplayed)
  {
  }

  // ---------------------------------------------------------------------------
  // Configuration loading

  /** What reading and decoding `app_config.json` gave. */
  datatype ConfigFile = NotFound | Unreadable(reason: string) | Decoded(config: AppConfiguration)

  const SourceJSON := "JSON"
  const SourceDefault := "Default"
  const SourceNotFound := "Default (JSON not found)"
  const SourceJSONError := "Default (JSON error)"

  /** The configuration a load ends with: the decoded one, or the default
      when the file is missing or cannot be read or decoded. */
  function ConfigFrom(file: ConfigFile): (config: AppConfiguration)
    ensures file.Decoded? ==> config == file.config
    ensures !file.Decoded? ==> config == DefaultConfig()
  {
    if file.Decoded? then file.config else DefaultConfig()
  }

  /** The configuration source a load reports. */
  function SourceOf(file: ConfigFile): (source: string)
    ensures source == SourceJSON <==> file.Decoded?
    ensures file.NotFound? ==> source == SourceNotFound
    ensures file.Unreadable? ==> source == SourceJSONError
    ensures source != SourceDefault
  {
    match file
    case NotFound => SourceNotFound
    case Unreadable(_) => SourceJSONError
    case Decoded(_) => SourceJSON
  }

  class BundleContentManager {
    var bundledImages: seq<BundledImage>
    var appConfig: Option<AppConfiguration>
    var isReloading: bool
    var lastReloadTime: int
    var configurationSource: string
    var searchText: string
    var filteredImages: seq<BundledImage>

    /** The displayed list is the one the configuration and search call for. */
    ghost predicate Valid()
      reads this
    {
      filteredImages == Displayed(bundledImages, appConfig, searchText)
    }

    /** `init()`: configuration, images, then the displayed list.
        `assets` are the names `UIImage(named:)` finds, `file` the outcome of
        reading the configuration and `now` the clock. */
    constructor(assets: set<string>, file: ConfigFile, now: int)
      ensures Valid()
      ensures appConfig == Some(ConfigFrom(file)) && configurationSource == SourceOf(file)
      ensures bundledImages == LoadedImages(assets, GenerateTitle, CreatePlaceholderImages())
      ensures searchText == "" && !isReloading && lastReloadTime == now
    {
      bundledImages := [];
      appConfig := None;
      isReloading := false;
      lastReloadTime := now;
      configurationSource := SourceJSON;
      searchText := "";
      filteredImages := [];
      new;
      LoadContent(assets, file);
      ApplyConfigurationToImages();
    }

    /** The first two steps of `loadBundledContent()`, which `init()` runs:
        the configuration, then the images. */
    method LoadContent(assets: set<string>, file: ConfigFile)
      modifies this`appConfig, this`configurationSource, this`bundledImages
      ensures appConfig == Some(ConfigFrom(file)) && configurationSource == SourceOf(file)
      ensures bundledImages == LoadedImages(assets, GenerateTitle, CreatePlaceholderImages())
    {
      LoadConfiguration(file);
      LoadBundledImages(assets);
    }

    /** `loadConfiguration()`: the decoded file, or the default
        configuration with a source naming why. */
    method LoadConfiguration(file: ConfigFile)
      modifies this`appConfig, this`configurationSource
      ensures appConfig == Some(ConfigFrom(file)) && configurationSource == SourceOf(file)
    {
      match file {
        case NotFound =>
          appConfig := Some(DefaultConfig());
          configurationSource := SourceNotFound;
        case Unreadable(_) =>
          appConfig := Some(DefaultConfig());
          configurationSource := SourceJSONError;
        case Decoded(config) =>
          appConfig := Some(config);
          configurationSource := SourceJSON;
      }
    }

    /** `loadBundledImages()`: each asset found, in list order, else the
        placeholders. */
    method LoadBundledImages(assets: set<string>)
      modifies this`bundledImages
      ensures bundledImages == LoadedImages(assets, GenerateTitle, CreatePlaceholderImages())
    {
      var loadedImages: seq<BundledImage> := [];
      var i := 0;
      while i < |ImageNames|
        invariant 0 <= i <= |ImageNames|
        invariant loadedImages == FromAssets(Available(ImageNames[..i], assets), GenerateTitle)
      {
        var imageName := ImageNames[i];
        LoadStep(ImageNames, i, assets, GenerateTitle);
        if imageName in assets {
          loadedImages := loadedImages + [AssetImage(imageName, GenerateTitle)];
        }
        i := i + 1;
      }
      assert ImageNames[..i] == ImageNames;
      if loadedImages == [] {
        loadedImages := CreatePlaceholderImages();
      }
      bundledImages := loadedImages;
    }

    /** `applyConfigurationToImages()`. */
    method ApplyConfigurationToImages()
      modifies this`filteredImages
      ensures Valid()
    {
      if appConfig.None? {
        filteredImages := bundledImages;
        return;
      }
      var config := appConfig.value;
      var images := bundledImages;
      if EffectiveEnableImageSearch(config.features) && searchText != [] {
        images := Search(images, searchText);
      }
      filteredImages := Prefix(images, config.maxImagesDisplayed);
    }

    /** `searchImages(query:)`: the query is kept and the list recomputed. */
    method SearchImages(query: string)
      modifies this`searchText, this`filteredImages
      ensures searchText == query && Valid()
    {
      searchText := query;
      ApplyConfigurationToImages();
    }

    /** `resetToDefaultConfiguration()`. */
    method ResetToDefaultConfiguration(now: int)
      modifies this
      ensures appConfig == Some(DefaultConfig()) && configurationSource == SourceDefault
      ensures Valid() && lastReloadTime == now
      ensures bundledImages == old(bundledImages) && searchText == old(searchText)
      ensures isReloading == old(isReloading)
    {
      appConfig := Some(DefaultConfig());
      configurationSource := SourceDefault;
      ApplyConfigurationToImages();
      lastReloadTime := now;
    }

    /** `reloadConfiguration()`, its delayed part run at once: the file is
        read again, the list recomputed, the time stamped and the reloading
        flag lowered. */
    method ReloadConfiguration(file: ConfigFile, now: int)
      modifies this
      ensures appConfig == Some(ConfigFrom(file)) && configurationSource == SourceOf(file)
      ensures Valid() && lastReloadTime == now && !isReloading
      ensures bundledImages == old(bundledImages) && searchText == old(searchText)
    {
      isReloading := true;
      LoadConfiguration(file);
      ApplyConfigurationToImages();
      lastReloadTime := now;
      isReloading := false;
    }
  }
}
