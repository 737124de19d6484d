/** The photo-service records (`UnsplashPhoto` and the records inside it),
    the JSON key tables of their `CodingKeys`, the API error type with its
    messages, the search parameters, and the orientation and category
    enumerations with their raw values and display names. */
module UnsplashModels {
  import opened Wrappers
  import opened Text

  // ---------------------------------------------------------------------------
  // Records

  datatype UnsplashURLs = UnsplashURLs(raw: string, full: string, regular: string, small: string, thumb: string)

  datatype UnsplashLinks = UnsplashLinks(selfLink: string, html: string, download: string, downloadLocation: string)

  datatype UnsplashProfileImage = UnsplashProfileImage(small: string, medium: string, large: string)

  datatype UnsplashUserLinks = UnsplashUserLinks(selfLink: string, html: string, photos: string, likes: string, portfolio: string)

  datatype UnsplashUser = UnsplashUser(
    id: string,
    username: string,
    name: string,
    firstName: Option<string>,
    lastName: Option<string>,
    portfolioURL: Option<string>,
    bio: Option<string>,
    location: Option<string>,
    totalLikes: Option<int>,
    totalPhotos: Option<int>,
    totalCollections: Option<int>,
    profileImage: Option<UnsplashProfileImage>,
    links: Option<UnsplashUserLinks>)

  datatype UnsplashPhoto = UnsplashPhoto(
    id: string,
    createdAt: string,
    updatedAt: string,
    width: int,
    height: int,
    color: string,
    blurHash: Option<string>,
    likes: int,
    likedByUser: bool,
    description: Option<string>,
    altDescription: Option<string>,
    user: UnsplashUser,
    urls: UnsplashURLs,
    links: Option<UnsplashLinks>)

  // ---------------------------------------------------------------------------
  // snake_case, the spelling of the Unsplash API's JSON keys

  predicate IsUpper(c: char) { 'A' <= c <= 'Z' }

  predicate IsLower(c: char) { 'a' <= c <= 'z' }

  /** The snake_case spelling of a camel-case name: every letter lower-cased,
      with an underscore before each upper-case letter that follows a
      lower-case one, so `createdAt` gives "created_at" and `portfolioURL`
      gives "portfolio_url". Built from the end, one character at a time. */
  function SnakeCase(s: string): (r: string)
  {
    if s == [] then ""
    else
      var i := |s| - 1;
      SnakeCase(s[..i]) +
      (if !IsUpper(s[i]) then [s[i]]
       else if i > 0 && IsLower(s[i - 1]) then ['_', LowerChar(s[i])]
       else [LowerChar(s[i])])
  }

  /** No upper-case letter anywhere in `s`. */
  predicate NoUpper(s: string) {
    forall i :: 0 <= i < |s| ==> !IsUpper(s[i])
  }

  /** A name without upper-case letters is its own snake_case spelling. */
  lemma {:induction false} SnakeCaseOfLower(s: string)
    requires NoUpper(s)
    ensures SnakeCase(s) == s
  {
    if s != [] {
      var i := |s| - 1;
      SnakeCaseOfLower(s[..i]);
      assert s == s[..i] + [s[i]];
    }
  }

  /** Characters that are not upper-case letters are copied, and so is
      a run of them appended to a name. */
  lemma {:induction false} SnakeCaseAppendLower(a: string, t: string)
    requires NoUpper(t)
    ensures SnakeCase(a + t) == SnakeCase(a) + t
  {
    if t != [] {
      var j := |t| - 1;
      SnakeCaseAppendLower(a, t[..j]);
      assert (a + t)[..|a + t| - 1] == a + t[..j];
      assert (a + t)[|a + t| - 1] == t[j] && !IsUpper(t[j]);
      assert SnakeCase(a + t) == SnakeCase(a + t[..j]) + [t[j]];
      assert t == t[..j] + [t[j]];
      assert SnakeCase(a) + t == (SnakeCase(a) + t[..j]) + [t[j]];
    } else {
      assert a + t == a;
    }
  }

  /** An upper-case letter after a lower-case one starts a new word: it is
      lower-cased behind an underscore. */
  lemma SnakeCaseWordBreak(a: string, c: char, t: string)
    requires a != [] && IsLower(a[|a| - 1]) && IsUpper(c) && NoUpper(t)
    ensures SnakeCase(a + [c] + t) == SnakeCase(a) + ['_', LowerChar(c)] + t
  {
    SnakeCaseAppendLower(a + [c], t);
    assert (a + [c])[..|a|] == a;
  }

  /** Two words written camel-case, `wordWord`, become `word_word`. */
  lemma SnakeCaseOfCamelPair(name: string, w: string, c: char, t: string, snake: string)
    requires name == w + [c] + t && snake == w + ['_', LowerChar(c)] + t
    requires w != [] && NoUpper(w) && IsLower(w[|w| - 1]) && IsUpper(c) && NoUpper(t)
    ensures SnakeCase(name) == snake
  {
    SnakeCaseOfLower(w);
    SnakeCaseWordBreak(w, c, t);
  }

  /** An upper-case letter after another upper-case one, as in an acronym,
      is lower-cased without an underscore. */
  lemma SnakeCaseInAcronym(a: string, c: char)
    requires a != [] && IsUpper(a[|a| - 1]) && IsUpper(c)
    ensures SnakeCase(a + [c]) == SnakeCase(a) + [LowerChar(c)]
  {
    var s := a + [c];
    assert s[..|a|] == a && s[|a|] == c && !IsLower(s[|a| - 1]);
  }

  // The camel-case property names of the renamed keys, one by one.

  lemma CreatedAtInSnakeCase()
    ensures SnakeCase("createdAt") == "created_at"
  {
    SnakeCaseOfCamelPair("createdAt", "created", 'A', "t", "created_at");
  }

  lemma UpdatedAtInSnakeCase()
    ensures SnakeCase("updatedAt") == "updated_at"
  {
    SnakeCaseOfCamelPair("updatedAt", "updated", 'A', "t", "updated_at");
  }

  lemma BlurHashInSnakeCase()
    ensures SnakeCase("blurHash") == "blur_hash"
  {
    SnakeCaseOfCamelPair("blurHash", "blur", 'H', "ash", "blur_hash");
  }

  lemma AltDescriptionInSnakeCase()
    ensures SnakeCase("altDescription") == "alt_description"
  {
    SnakeCaseOfCamelPair("altDescription", "alt", 'D', "escription", "alt_description");
  }

  lemma FirstNameInSnakeCase()
    ensures SnakeCase("firstName") == "first_name"
  {
    SnakeCaseOfCamelPair("firstName", "first", 'N', "ame", "first_name");
  }

  lemma LastNameInSnakeCase()
    ensures SnakeCase("lastName") == "last_name"
  {
    SnakeCaseOfCamelPair("lastName", "last", 'N', "ame", "last_name");
  }

  lemma TotalLikesInSnakeCase()
    ensures SnakeCase("totalLikes") == "total_likes"
  {
    SnakeCaseOfCamelPair("totalLikes", "total", 'L', "ikes", "total_likes");
  }

  lemma TotalPhotosInSnakeCase()
    ensures SnakeCase("totalPhotos") == "total_photos"
  {
    SnakeCaseOfCamelPair("totalPhotos", "total", 'P', "hotos", "total_photos");
  }

  lemma TotalCollectionsInSnakeCase()
    ensures SnakeCase("totalCollections") == "total_collections"
  {
    SnakeCaseOfCamelPair("totalCollections", "total", 'C', "ollections", "total_collections");
  }

  lemma ProfileImageInSnakeCase()
    ensures SnakeCase("profileImage") == "profile_image"
  {
    SnakeCaseOfCamelPair("profileImage", "profile", 'I', "mage", "profile_image");
  }

  lemma LikedByUserInSnakeCase()
    ensures SnakeCase("likedByUser") == "liked_by_user"
  {
    SnakeCaseOfCamelPair("likedBy", "liked", 'B', "y", "liked_by");
    SnakeCaseWordBreak("likedBy", 'U', "ser");
    assert "likedByUser" == "likedBy" + ['U'] + "ser";
    assert "liked_by" + ['_', LowerChar('U')] + "ser" == "liked_by_user";
  }

  /** An acronym is one word: `portfolioURL` gives "portfolio_url". */
  lemma PortfolioURLInSnakeCase()
    ensures SnakeCase("portfolioURL") == "portfolio_url"
  {
    SnakeCaseOfCamelPair("portfolioU", "portfolio", 'U', "", "portfolio_u");
    SnakeCaseInAcronym("portfolioU", 'R');
    assert "portfolioUR" == "portfolioU" + ['R'];
    SnakeCaseInAcronym("portfolioUR", 'L');
    assert "portfolioURL" == "portfolioUR" + ['L'];
    assert "portfolio_u" + [LowerChar('R')] + [LowerChar('L')] == "portfolio_url";
  }

  // ---------------------------------------------------------------------------
  // CodingKeys of UnsplashPhoto

  datatype PhotoKey =
    | Id | CreatedAt | UpdatedAt | Width | Height | Color | BlurHash | Likes
    | LikedByUser | Description | AltDescription | User | Urls | Links

  /** The Swift property a key stands for. */
  function PhotoPropertyName(k: PhotoKey): string {
    match k
    case Id => "id"
    case CreatedAt => "createdAt"
    case UpdatedAt => "updatedAt"
    case Width => "width"
    case Height => "height"
    case Color => "color"
    case BlurHash => "blurHash"
    case Likes => "likes"
    case LikedByUser => "likedByUser"
    case Description => "description"
    case AltDescription => "altDescription"
    case User => "user"
    case Urls => "urls"
    case Links => "links"
  }

  /** The five camel-case properties that are renamed in JSON. */
  predicate IsRenamedPhotoKey(k: PhotoKey) {
    k in {CreatedAt, UpdatedAt, BlurHash, LikedByUser, AltDescription}
  }

  /** The JSON key (`stringValue`): the five camel-case properties become
      snake_case, every other key is the property's own name; the lemma
      `PhotoJsonKeyIsSnakeCase` relates every key to `SnakeCase`. */
  function PhotoJsonKey(k: PhotoKey): (s: string)
    ensures !IsRenamedPhotoKey(k) ==> s == PhotoPropertyName(k)
    ensures IsRenamedPhotoKey(k) ==> s != PhotoPropertyName(k) && '_' in s
  {
    match k
    case CreatedAt => "created_at"
    case UpdatedAt => "updated_at"
    case BlurHash => "blur_hash"
    case LikedByUser => "liked_by_user"
    case AltDescription => "alt_description"
    case _ => PhotoPropertyName(k)
  }

  /** Every photo key's JSON name is the snake_case spelling of its
      property: the five renamed keys gain their underscores, and the
      others, being lower-case already, keep their names. */
  lemma PhotoJsonKeyIsSnakeCase(k: PhotoKey)
    ensures PhotoJsonKey(k) == SnakeCase(PhotoPropertyName(k))
  {
    match k {
      case CreatedAt => CreatedAtInSnakeCase();
      case UpdatedAt => UpdatedAtInSnakeCase();
      case BlurHash => BlurHashInSnakeCase();
      case LikedByUser =>
        LikedByUserInSnakeCase();
      case AltDescription => AltDescriptionInSnakeCase();
      case _ => SnakeCaseOfLower(PhotoPropertyName(k));
    }
  }

  /** `CodingKeys(stringValue:)`: the key whose JSON name is `s`, if any. */
  function PhotoKeyFromJson(s: string): Option<PhotoKey> {
    match s
    case "id" => Some(Id)
    case "created_at" => Some(CreatedAt)
    case "updated_at" => Some(UpdatedAt)
    case "width" => Some(Width)
    case "height" => Some(Height)
    case "color" => Some(Color)
    case "blur_hash" => Some(BlurHash)
    case "likes" => Some(Likes)
    case "liked_by_user" => Some(LikedByUser)
    case "description" => Some(Description)
    case "alt_description" => Some(AltDescription)
    case "user" => Some(User)
    case "urls" => Some(Urls)
    case "links" => Some(Links)
    case _ => None
  }

  /** Decoding a key's JSON name gives the key back, and a JSON name decodes
      only to the key that has it: the table is a bijection. */
  lemma PhotoKeyRoundTrip(k: PhotoKey, s: string)
    ensures PhotoKeyFromJson(PhotoJsonKey(k)) == Some(k)
    ensures PhotoKeyFromJson(s) == Some(k) ==> PhotoJsonKey(k) == s
  {
    PhotoKeyDecodesEncoding(k);
    PhotoKeyEncodingOfDecoded(s);
  }

  /** Each key's JSON name decodes to that key. */
  lemma PhotoKeyDecodesEncoding(k: PhotoKey)
    ensures PhotoKeyFromJson(PhotoJsonKey(k)) == Some(k)
  {
  }

  /** A JSON name that decodes is the decoded key's own name. */
  lemma PhotoKeyEncodingOfDecoded(s: string)
    ensures PhotoKeyFromJson(s).Some? ==> PhotoJsonKey(PhotoKeyFromJson(s).value) == s
  {
    match s {
      case "id" =>
      case "created_at" =>
      case "updated_at" =>
      case "width" =>
      case "height" =>
      case "color" =>
      case "blur_hash" =>
      case "likes" =>
      case "liked_by_user" =>
      case "description" =>
      case "alt_description" =>
      case "user" =>
      case "urls" =>
      case "links" =>
      case _ =>
    }
  }

  // ---------------------------------------------------------------------------
  // CodingKeys of UnsplashUser

  datatype UserKey =
    | UserId | Username | Name | FirstName | LastName | PortfolioURL | Bio | Location
    | TotalLikes | TotalPhotos | TotalCollections | ProfileImage | UserLinks

  function UserPropertyName(k: UserKey): string {
    match k
    case UserId => "id"
    case Username => "username"
    case Name => "name"
    case FirstName => "firstName"
    case LastName => "lastName"
    case PortfolioURL => "portfolioURL"
    case Bio => "bio"
    case Location => "location"
    case TotalLikes => "totalLikes"
    case TotalPhotos => "totalPhotos"
    case TotalCollections => "totalCollections"
    case ProfileImage => "profileImage"
    case UserLinks => "links"
  }

  predicate IsRenamedUserKey(k: UserKey) {
    k in {FirstName, LastName, PortfolioURL, TotalLikes, TotalPhotos, TotalCollections, ProfileImage}
  }

  /** The JSON key: seven camel-case properties become snake_case, the rest
      keep their names; see `UserJsonKeyIsSnakeCase`. */
  function UserJsonKey(k: UserKey): (s: string)
    ensures !IsRenamedUserKey(k) ==> s == UserPropertyName(k)
    ensures IsRenamedUserKey(k) ==> s != UserPropertyName(k)
    ensures k == PortfolioURL ==> s == "portfolio_url"
  {
    match k
    case FirstName => "first_name"
    case LastName => "last_name"
    case PortfolioURL => "portfolio_url"
    case TotalLikes => "total_likes"
    case TotalPhotos => "total_photos"
    case TotalCollections => "total_collections"
    case ProfileImage => "profile_image"
    case _ => UserPropertyName(k)
  }

  /** Every user key's JSON name is the snake_case spelling of its
      property; `portfolioURL` becomes "portfolio_url". */
  lemma UserJsonKeyIsSnakeCase(k: UserKey)
    ensures UserJsonKey(k) == SnakeCase(UserPropertyName(k))
  {
    match k {
      case FirstName => FirstNameInSnakeCase();
      case LastName => LastNameInSnakeCase();
      case PortfolioURL =>
        PortfolioURLInSnakeCase();
      case TotalLikes => TotalLikesInSnakeCase();
      case TotalPhotos => TotalPhotosInSnakeCase();
      case TotalCollections => TotalCollectionsInSnakeCase();
      case ProfileImage => ProfileImageInSnakeCase();
      case _ => SnakeCaseOfLower(UserPropertyName(k));
    }
  }

  function UserKeyFromJson(s: string): Option<UserKey> {
    match s
    case "id" => Some(UserId)
    case "username" => Some(Username)
    case "name" => Some(Name)
    case "first_name" => Some(FirstName)
    case "last_name" => Some(LastName)
    case "portfolio_url" => Some(PortfolioURL)
    case "bio" => Some(Bio)
    case "location" => Some(Location)
    case "total_likes" => Some(TotalLikes)
    case "total_photos" => Some(TotalPhotos)
    case "total_collections" => Some(TotalCollections)
    case "profile_image" => Some(ProfileImage)
    case "links" => Some(UserLinks)
    case _ => None
  }

  lemma UserKeyRoundTrip(k: UserKey, s: string)
    ensures UserKeyFromJson(UserJsonKey(k)) == Some(k)
    ensures UserKeyFromJson(s) == Some(k) ==> UserJsonKey(k) == s
  {
    UserKeyDecodesEncoding(k);
    UserKeyEncodingOfDecoded(s);
  }

  /** Each key's JSON name decodes to that key. */
  lemma UserKeyDecodesEncoding(k: UserKey)
    ensures UserKeyFromJson(UserJsonKey(k)) == Some(k)
  {
  }

  /** A JSON name that decodes is the decoded key's own name. */
  lemma UserKeyEncodingOfDecoded(s: string)
    ensures UserKeyFromJson(s).Some? ==> UserJsonKey(UserKeyFromJson(s).value) == s
  {
    match s {
      case "id" =>
      case "username" =>
      case "name" =>
      case "first_name" =>
      case "last_name" =>
      case "portfolio_url" =>
      case "bio" =>
      case "location" =>
      case "total_likes" =>
      case "total_photos" =>
      case "total_collections" =>
      case "profile_image" =>
      case "links" =>
      case _ =>
    }
  }

  // ---------------------------------------------------------------------------
  // CodingKeys of UnsplashLinks and UnsplashUserLinks

  datatype LinksKey = SelfLink | Html | Download | DownloadLocation

  /** `selfLink` is read from "self" and `downloadLocation` from
      "download_location"; the others keep their names. */
  function LinksJsonKey(k: LinksKey): (s: string)
    ensures k == SelfLink <==> s == "self"
  {
    match k
    case SelfLink => "self"
    case Html => "html"
    case Download => "download"
    case DownloadLocation => "download_location"
  }

  function LinksKeyFromJson(s: string): Option<LinksKey> {
    match s
    case "self" => Some(SelfLink)
    case "html" => Some(Html)
    case "download" => Some(Download)
    case "download_location" => Some(DownloadLocation)
    case _ => None
  }

  lemma LinksKeyRoundTrip(k: LinksKey, s: string)
    ensures LinksKeyFromJson(LinksJsonKey(k)) == Some(k)
    ensures LinksKeyFromJson(s) == Some(k) ==> LinksJsonKey(k) == s
  {
  }

  datatype UserLinksKey = UserSelfLink | UserHtml | UserPhotos | UserLikes | UserPortfolio

  /** Only `selfLink` is renamed, to "self". */
  function UserLinksJsonKey(k: UserLinksKey): (s: string)
    ensures k == UserSelfLink <==> s == "self"
  {
    match k
    case UserSelfLink => "self"
    case UserHtml => "html"
    case UserPhotos => "photos"
    case UserLikes => "likes"
    case UserPortfolio => "portfolio"
  }

  function UserLinksKeyFromJson(s: string): Option<UserLinksKey> {
    match s
    case "self" => Some(UserSelfLink)
    case "html" => Some(UserHtml)
    case "photos" => Some(UserPhotos)
    case "likes" => Some(UserLikes)
    case "portfolio" => Some(UserPortfolio)
    case _ => None
  }

  lemma UserLinksKeyRoundTrip(k: UserLinksKey, s: string)
    ensures UserLinksKeyFromJson(UserLinksJsonKey(k)) == Some(k)
    ensures UserLinksKeyFromJson(s) == Some(k) ==> UserLinksJsonKey(k) == s
  {
  }

  // ---------------------------------------------------------------------------
  // Errors

  /** A Swift `Error` wrapped by `networkError` or `decodingError`: one of the
      service's own errors, or a foreign error known only by its
      `localizedDescription`. */
  datatype Cause = ApiCause(apiError: UnsplashAPIError) | ForeignCause(description: string)

  datatype UnsplashAPIError =
    | InvalidURL
    | NoAccessKey
    | NetworkError(networkCause: Cause)
    | DecodingError(decodingCause: Cause)
    | NoData
    | InvalidResponse
    | RateLimitExceeded
    | Unauthorized

  /** `localizedDescription` of a wrapped error; for the service's own errors
      that is their `errorDescription`. */
  function CauseDescription(c: Cause): string
    decreases c
  {
    match c
    case ApiCause(e) => ErrorMessage(e)
    case ForeignCause(d) => d
  }

  function ErrorMessage(e: UnsplashAPIError): string
    decreases e
  {
    match e
    case InvalidURL => "Invalid URL"
    case NoAccessKey => "No access key provided"
    case NetworkError(c) => "Network error: " + CauseDescription(c)
    case DecodingError(c) => "Failed to decode response: " + CauseDescription(c)
    case NoData => "No data received"
    case InvalidResponse => "Invalid response from server"
    case RateLimitExceeded => "Rate limit exceeded. Please try again later."
    case Unauthorized => "Unauthorized. Please check your access key."
  }

  /** `errorDescription`: never nil; the two wrapping cases put a fixed prefix
      before the wrapped error's description. */
  function ErrorDescription(e: UnsplashAPIError): (d: Option<string>)
    ensures d.Some?
    ensures e.NetworkError? ==> d.value == "Network error: " + CauseDescription(e.networkCause)
    ensures e.DecodingError? ==> d.value == "Failed to decode response: " + CauseDescription(e.decodingCause)
  {
    Some(ErrorMessage(e))
  }

  /** The six cases without a payload have six different messages, so the
      message identifies the case. */
  lemma FixedMessagesDistinct(a: UnsplashAPIError, b: UnsplashAPIError)
    requires !a.NetworkError? && !a.DecodingError? && !b.NetworkError? && !b.DecodingError?
    requires ErrorDescription(a) == ErrorDescription(b)
    ensures a == b
  {
  }

  // ---------------------------------------------------------------------------
  // Search parameters

  datatype UnsplashSearchParams = UnsplashSearchParams(
    query: Option<string>,
    orientation: Option<UnsplashOrientation>,
    category: Option<UnsplashCategory>,
    featured: Option<bool>,
    username: Option<string>,
    count: Option<int>)

  /** `UnsplashSearchParams.init`: every argument defaults to nil. */
  function MakeSearchParams(
    query: Option<string> := None,
    orientation: Option<UnsplashOrientation> := None,
    category: Option<UnsplashCategory> := None,
    featured: Option<bool> := None,
    username: Option<string> := None,
    count: Option<int> := None): (p: UnsplashSearchParams)
    ensures p.query == query && p.orientation == orientation && p.category == category
    ensures p.featured == featured && p.username == username && p.count == count
  {
    UnsplashSearchParams(query, orientation, category, featured, username, count)
  }

  /** Parameters built from a query, an orientation and a category leave the
      other three fields nil. */
  lemma UnspecifiedSearchParamsAreNil(q: Option<string>, o: Option<UnsplashOrientation>, c: Option<UnsplashCategory>)
    ensures var p := MakeSearchParams(query := q, orientation := o, category := c);
      p.featured.None? && p.username.None? && p.count.None?
  {
  }

  // ---------------------------------------------------------------------------
  // Orientation

  datatype UnsplashOrientation = Landscape | Portrait | Squarish

  function OrientationRawValue(o: UnsplashOrientation): string {
    match o
    case Landscape => "landscape"
    case Portrait => "portrait"
    case Squarish => "squarish"
  }

  /** `UnsplashOrientation(rawValue:)`. */
  function OrientationFromRawValue(s: string): Option<UnsplashOrientation> {
    match s
    case "landscape" => Some(Landscape)
    case "portrait" => Some(Portrait)
    case "squarish" => Some(Squarish)
    case _ => None
  }

  lemma OrientationRawValueRoundTrip(o: UnsplashOrientation, s: string)
    ensures OrientationFromRawValue(OrientationRawValue(o)) == Some(o)
    ensures OrientationFromRawValue(s) == Some(o) ==> OrientationRawValue(o) == s
  {
  }

  /** The label shown to the user: the raw value with a capital initial,
      except that "squarish" is shown as "Square". */
  function OrientationDisplayName(o: UnsplashOrientation): (name: string)
    ensures o == Landscape <==> name == "Landscape"
    ensures o == Portrait <==> name == "Portrait"
    ensures o == Squarish <==> name == "Square"
    ensures o != Squarish ==> |name| == |OrientationRawValue(o)| && name[1..] == OrientationRawValue(o)[1..]
  {
    match o
    case Landscape => "Landscape"
    case Portrait => "Portrait"
    case Squarish => "Square"
  }

  // ---------------------------------------------------------------------------
  // Category

  datatype UnsplashCategory =
    | Nature | People | Technology | Animals | Food | Travel | Architecture | Business
    | Fashion | Film | Health | Interiors | Street | Experimental | Textures | CurrentEvents

  /** The Swift case name. */
  function CategoryCaseName(c: UnsplashCategory): string {
    match c
    case Nature => "nature"
    case People => "people"
    case Technology => "technology"
    case Animals => "animals"
    case Food => "food"
    case Travel => "travel"
    case Architecture => "architecture"
    case Business => "business"
    case Fashion => "fashion"
    case Film => "film"
    case Health => "health"
    case Interiors => "interiors"
    case Street => "street"
    case Experimental => "experimental"
    case Textures => "textures"
    case CurrentEvents => "current_events"
  }

  /** The raw value sent as the `topics` query item: the case name, except
      that `current_events` is spelled with a hyphen. */
  function CategoryRawValue(c: UnsplashCategory): (s: string)
    ensures c != CurrentEvents ==> s == CategoryCaseName(c)
    ensures c == CurrentEvents ==> s == "current-events" && s != CategoryCaseName(c)
  {
    match c
    case CurrentEvents => "current-events"
    case _ => CategoryCaseName(c)
  }

  /** `UnsplashCategory(rawValue:)`. */
  function CategoryFromRawValue(s: string): Option<UnsplashCategory> {
    match s
    case "nature" => Some(Nature)
    case "people" => Some(People)
    case "technology" => Some(Technology)
    case "animals" => Some(Animals)
    case "food" => Some(Food)
    case "travel" => Some(Travel)
    case "architecture" => Some(Architecture)
    case "business" => Some(Business)
    case "fashion" => Some(Fashion)
    case "film" => Some(Film)
    case "health" => Some(Health)
    case "interiors" => Some(Interiors)
    case "street" => Some(Street)
    case "experimental" => Some(Experimental)
    case "textures" => Some(Textures)
    case "current-events" => Some(CurrentEvents)
    case _ => None
  }

  /** Raw values are distinct, so they round-trip through `init(rawValue:)`;
      the case name "current_events" is not itself a raw value. */
  lemma CategoryRawValueRoundTrip(c: UnsplashCategory, s: string)
    ensures CategoryFromRawValue(CategoryRawValue(c)) == Some(c)
    ensures CategoryFromRawValue(s) == Some(c) ==> CategoryRawValue(c) == s
    ensures CategoryFromRawValue("current_events") == None
  {
  }

  function CategoryDisplayName(c: UnsplashCategory): string {
    match c
    case Nature => "Nature"
    case People => "People"
    case Technology => "Technology"
    case Animals => "Animals"
    case Food => "Food"
    case Travel => "Travel"
    case Architecture => "Architecture"
    case Business => "Business"
    case Fashion => "Fashion"
    case Film => "Film"
    case Health => "Health"
    case Interiors => "Interiors"
    case Street => "Street"
    case Experimental => "Experimental"
    case Textures => "Textures"
    case CurrentEvents => "Current Events"
  }

  /** No two categories share a display name. */
  lemma CategoryDisplayNamesDistinct(a: UnsplashCategory, b: UnsplashCategory)
    requires CategoryDisplayName(a) == CategoryDisplayName(b)
    ensures a == b
  {
  }
}
