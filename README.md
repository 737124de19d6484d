# ApplicationBundle core, modelled in Dafny

ApplicationBundle is a three-tab iOS demo. This project models the logic
behind its views and proves properties of it:

- **Text files** (first tab). `TextFileManager` checks and sanitises file
  names and saves, loads, deletes and lists `.txt` files in the documents
  directory. Here the directory is a `map<string, string>` field of a class.
  `TextManagerViewModel` holds the screen state that drives those
  operations: guards, alerts, the viewer and the saved-files list.
- **Photo cache** (second tab). `ImageCacheManager` keeps an index from photo
  id to `(file, date, size)` beside a directory of `<id>.jpg` files, with
  removal, clear-all, age-based eviction, a size total, start-up recovery
  from the directory, and the memory-warning eviction. `ImageCacheViewModel`
  mirrors the index and builds search parameters. `UnsplashService` builds
  the photo-service requests and classifies their responses.
  `UnsplashModels` holds the JSON key tables, the error messages and the
  enumerations.
- **Bundled content** (third tab). `BundleContentManager` derives titles,
  descriptions and tags from asset names, falls back to six placeholders and
  to a default configuration, and shows a searched list cut to the
  configured size. `AppConfiguration` and `AppFeatures` supply its `??`
  defaults and theme table. The earlier `BundleContentManager`, with its own
  five-field configuration, is the module `BundleContentEarly`.

Files:

| file | module |
|---|---|
| `wrappers.dfy` | `Wrappers`: `Option`, `Result` |
| `text.dfy` | `Text`: ASCII approximations of the Foundation string operations used |
| `text_file_manager.dfy` | `TextFiles` |
| `text_manager_view_model.dfy` | `TextManagerScreen` |
| `unsplash_models.dfy` | `UnsplashModels` |
| `unsplash_service.dfy` | `UnsplashService` |
| `image_cache_manager.dfy` | `ImageCache` |
| `image_cache_view_model.dfy` | `ImageCacheScreen` |
| `app_configuration.dfy` | `AppConfig` (both models files) |
| `bundle_content_manager.dfy` | `BundleContent` |
| `bundle_content_manager_early.dfy` | `BundleContentEarly` |

Inputs from the outside world are passed in as parameters:

- File-system and network outcomes: which removals fail, what a download
  returned, whether the documents directory exists, what listing the
  directory gave.
- The clock and calendar: `now` and `cutoffFor(days)`.
- Which bundle assets exist and what reading `app_config.json` gave.

Dates are integers. String case mapping, capitalisation, trimming and
case-insensitive comparison are ASCII approximations. `text.dfy` says
exactly which characters they treat.

The earlier content manager computes descriptions and tags with code
identical to the later one
(`ApplicationBundle/Task3/BundleContentManager.swift:148-174` against
`ApplicationBundle/Task3/Utilities/BundleContentManager.swift:223-249`), so
`BundleContentEarly` reuses `BundleContent.GenerateDescription`,
`BundleContent.GenerateTags`, the asset list and the placeholder table.

## Model

| member | source | states |
|---|---|---|
| ImageCache.NameOf | ApplicationBundle/Task2/Utilities/ImageCacheManager.swift:149 | a photo file's name is its id followed by ".jpg" |
| ImageCache.NameOfInjective | ApplicationBundle/Task2/Utilities/ImageCacheManager.swift:149-150 | different cache files never share a name, so an id owns exactly one file |
| ImageCache.FileName | ApplicationBundle/Task2/Utilities/ImageCacheManager.swift:149-150 | `"\(id).jpg"` is a well-formed photo file carrying that id |
| ImageCache.IsJpgByName | ApplicationBundle/Task2/Utilities/ImageCacheManager.swift:189 | a directory entry counts as a photo exactly when its name ends in ".jpg" with something before it |
| ImageCache.DummyPhoto | ApplicationBundle/Task2/Utilities/ImageCacheManager.swift:210-247 | the photo record made up for a recovered file has that file's id and the "Cached image" description |
| ImageCache.TotalSizeRemove | ApplicationBundle/Task2/Utilities/ImageCacheManager.swift:132-134 | the sum of sizes splits at any entry: that entry's size plus the total of the rest |
| ImageCache.TotalSizeNonNegative | ApplicationBundle/Task2/Utilities/ImageCacheManager.swift:132-134 | the total of sizes read from file attributes is never negative |
| ImageCache.RecoveredEntry | ApplicationBundle/Task2/Utilities/ImageCacheManager.swift:189-202 | a recovered entry points at the photo's own file and takes that file's size; its photo carries the id |
| ImageCache.RescanKeepsEntries | ApplicationBundle/Task2/Utilities/ImageCacheManager.swift:183-208 | scanning a directory that matches the index keeps every entry with a non-empty id at its size; all entries get dummy photos; index and directory stay consistent |
| ImageCache.OldestExists | ApplicationBundle/Task2/Utilities/ImageCacheManager.swift:289 | every non-empty set of entries has an oldest member |
| ImageCache.SortByDate | ApplicationBundle/Task2/Utilities/ImageCacheManager.swift:289 | the sorted listing names every entry exactly once, oldest first |
| ImageCache.OldestPrefix | ApplicationBundle/Task2/Utilities/ImageCacheManager.swift:289-290 | the first k of a date-sorted listing are k distinct entries, none newer than an entry left out |
| ImageCache.DistinctCount | ApplicationBundle/Task2/Utilities/ImageCacheManager.swift:290 | k distinct listed ids form a set of exactly k |
| ImageCache.ImageCacheManager.constructor | ApplicationBundle/Task2/Utilities/ImageCacheManager.swift:27-32 | start-up leaves the directory as found and rebuilds the index from its `.jpg` files, or leaves it empty when the directory is missing or cannot be listed |
| ImageCache.ImageCacheManager.GetCachedPhotoInfo | ApplicationBundle/Task2/Utilities/ImageCacheManager.swift:98-100 | returns the entry for exactly the ids in the index, and nil otherwise |
| ImageCache.ImageCacheManager.UpdateCacheStats | ApplicationBundle/Task2/Utilities/ImageCacheManager.swift:267-269 | the count equals the number of entries |
| ImageCache.ImageCacheManager.GetCacheSizeInBytes | ApplicationBundle/Task2/Utilities/ImageCacheManager.swift:132-134 | returns the sum of the entries' sizes, which is non-negative |
| ImageCache.ImageCacheManager.RemoveFile | ApplicationBundle/Task2/Utilities/ImageCacheManager.swift:104-105 | a removal succeeds exactly when the file exists and is not faulty, and then only that file goes |
| ImageCache.ImageCacheManager.RemovePhoto | ApplicationBundle/Task2/Utilities/ImageCacheManager.swift:102-112 | an unknown id changes nothing; a known entry is dropped together with its file only when deleting the file succeeds; otherwise nothing changes |
| ImageCache.ImageCacheManager.ClearCache | ApplicationBundle/Task2/Utilities/ImageCacheManager.swift:114-120 | the index is always emptied with count and total 0; exactly the files whose removal succeeded leave the directory |
| ImageCache.ImageCacheManager.ClearOldCache | ApplicationBundle/Task2/Utilities/ImageCacheManager.swift:122-130 | exactly the entries strictly older than the cutoff (the clock's date when the calendar gives none) are attempted; the index and the directory lose exactly those whose removal succeeds |
| ImageCache.AgePassKeepsNewer | ApplicationBundle/Task2/Utilities/ImageCacheManager.swift:122-130 | after an age pass every entry dated at or after the cutoff is still indexed, unchanged, and every entry that went was older than the cutoff |
| ImageCache.ImageCacheManager.CachePhoto | ApplicationBundle/Task2/Utilities/ImageCacheManager.swift:144-181 | an unparseable URL throws invalidURL and changes nothing; an existing file means no download and an entry only when none exists; a download records `id ↦ (<id>.jpg, byte count)`; failures change nothing |
| ImageCache.ImageCacheManager.LoadExistingCache | ApplicationBundle/Task2/Utilities/ImageCacheManager.swift:183-208 | adds one entry per `.jpg` file, keyed by the name without its extension, with the file's size and date; a failed listing changes nothing |
| ImageCache.ImageCacheManager.RemoveEach | ApplicationBundle/Task2/Utilities/ImageCacheManager.swift:292-294 | removing a list of distinct ids drops exactly those entries whose file deletion succeeds, together with those files |
| ImageCache.ImageCacheManager.HandleMemoryWarning | ApplicationBundle/Task2/Utilities/ImageCacheManager.swift:285-296 | the one-day age pass runs first; above 50 MiB exactly the older half (⌊n/2⌋) of what it left is attempted, otherwise nothing more; index and directory lose exactly the entries and files whose removal succeeded in either pass; no removed entry is newer than a kept one whose file could be removed |
| ImageCache.ImageCacheManager.EvictOlderHalf | ApplicationBundle/Task2/Utilities/ImageCacheManager.swift:289-294 | the ⌊n/2⌋ entries with the oldest dates are attempted, none newer than an entry left out; the index and the directory lose exactly those whose removal succeeds |
| ImageCache.OldestHalf | ApplicationBundle/Task2/Utilities/ImageCacheManager.swift:289-290 | the first half of a date-sorted listing holds ⌊n/2⌋ distinct entries, none newer than an entry outside it |
| ImageCache.NoNewerEvicted | ApplicationBundle/Task2/Utilities/ImageCacheManager.swift:285-296 | the age pass followed by the oldest-half pass never removes an entry newer than one it keeps |
| ImageCache.ConsistentRemove | ApplicationBundle/Task2/Utilities/ImageCacheManager.swift:102-112 | dropping an entry together with its file keeps index and directory consistent |
| ImageCache.StepRemoved | ApplicationBundle/Task2/Utilities/ImageCacheManager.swift:292-294 | one more removal attempt drops that entry and its file exactly when the id is indexed and its file is not faulty |
| ImageCache.RemovedByAdd | ApplicationBundle/Task2/Utilities/ImageCacheManager.swift:292-294 | the set of removed ids grows by the new id exactly when its removal succeeds |
| ImageCacheScreen.ImageCacheViewModel.constructor | ApplicationBundle/Task2/Views/ImageCacheViewModel.swift:26-29 | the cache is opened over the directory as found and the screen mirrors its index; the filters are empty and no alert is raised |
| ImageCacheScreen.ImageCacheViewModel.UpdateCacheStats | ApplicationBundle/Task2/Views/ImageCacheViewModel.swift:31-37 | count and index are copied from the cache; nothing else changes |
| ImageCacheScreen.ImageCacheViewModel.ClearOldCache | ApplicationBundle/Task2/Views/ImageCacheViewModel.swift:77-81 | delegates with 7 days by default; the screen shows the cache's new index and the success alert; the filters are kept |
| ImageCacheScreen.ImageCacheViewModel.ClearAllCache | ApplicationBundle/Task2/Views/ImageCacheViewModel.swift:83-87 | the screen ends with an empty index, count 0 and the success alert |
| ImageCacheScreen.ImageCacheViewModel.RemovePhoto | ApplicationBundle/Task2/Views/ImageCacheViewModel.swift:89-92 | the entry leaves the screen's index exactly when the cache could delete it; no alert |
| ImageCacheScreen.ImageCacheViewModel.OnMemoryWarning | ApplicationBundle/Task2/Views/ImageCacheViewModel.swift:128-140 | the screen ends with the index the cache's memory-warning pass leaves: the age pass, then the older half above 50 MiB, each entry going exactly when its file could be removed; no removed photo is newer than a kept one; the alert and the filters are kept |
| ImageCacheScreen.ImageCacheViewModel.SetSearchQuery | ApplicationBundle/Task2/Views/ImageCacheViewModel.swift:94-96 | sets the query and nothing else |
| ImageCacheScreen.ImageCacheViewModel.SetOrientation | ApplicationBundle/Task2/Views/ImageCacheViewModel.swift:98-100 | sets the orientation and nothing else |
| ImageCacheScreen.ImageCacheViewModel.SetCategory | ApplicationBundle/Task2/Views/ImageCacheViewModel.swift:102-104 | sets the category and nothing else |
| ImageCacheScreen.ImageCacheViewModel.CreateSearchParams | ApplicationBundle/Task2/Views/ImageCacheViewModel.swift:106-116 | nil exactly when no filter is set; otherwise the query (nil when empty), orientation and category, with featured, username and count nil |
| UnsplashModels.PhotoJsonKey | ApplicationBundle/Task2/Models/UnsplashModels.swift:27-34 | the five camel-case photo properties get JSON names that differ from the property and contain '_'; every other key keeps its property name; that the names are exactly the snake_case spellings is `PhotoJsonKeyIsSnakeCase` |
| UnsplashModels.PhotoJsonKeyIsSnakeCase | ApplicationBundle/Task2/Models/UnsplashModels.swift:27-34 | every photo key's JSON name is the snake_case spelling (`SnakeCase`) of its property name, so "createdAt" gives "created_at" and the lower-case names stay as they are |
| UnsplashModels.SnakeCaseOfLower | ApplicationBundle/Task2/Models/UnsplashModels.swift:28 | a name without upper-case letters is its own snake_case spelling, which is why the keys listed without a raw value keep their names |
| UnsplashModels.PhotoKeyRoundTrip | ApplicationBundle/Task2/Models/UnsplashModels.swift:27-34 | photo keys and their JSON names convert both ways without loss |
| UnsplashModels.UserJsonKey | ApplicationBundle/Task2/Models/UnsplashModels.swift:53-62 | seven user properties are renamed in JSON; the others keep their names; `portfolioURL` is read from "portfolio_url" |
| UnsplashModels.UserJsonKeyIsSnakeCase | ApplicationBundle/Task2/Models/UnsplashModels.swift:53-62 | every user key's JSON name is the snake_case spelling (`SnakeCase`) of its property name, the acronym in `portfolioURL` counting as one word |
| UnsplashModels.UserKeyRoundTrip | ApplicationBundle/Task2/Models/UnsplashModels.swift:53-62 | user keys and their JSON names convert both ways without loss |
| UnsplashModels.LinksJsonKey | ApplicationBundle/Task2/Models/UnsplashModels.swift:81-85 | `selfLink` is exactly the key read from "self" |
| UnsplashModels.LinksKeyRoundTrip | ApplicationBundle/Task2/Models/UnsplashModels.swift:81-85 | link keys and their JSON names convert both ways without loss |
| UnsplashModels.UserLinksJsonKey | ApplicationBundle/Task2/Models/UnsplashModels.swift:103-106 | the user's `selfLink` is exactly the key read from "self" |
| UnsplashModels.UserLinksKeyRoundTrip | ApplicationBundle/Task2/Models/UnsplashModels.swift:103-106 | user-link keys and their JSON names convert both ways without loss |
| UnsplashModels.ErrorDescription | ApplicationBundle/Task2/Models/UnsplashModels.swift:120-139 | never nil; the network and decoding cases prefix their fixed texts to the wrapped error's description |
| UnsplashModels.FixedMessagesDistinct | ApplicationBundle/Task2/Models/UnsplashModels.swift:120-139 | the six cases without a payload have six different messages |
| UnsplashModels.MakeSearchParams | ApplicationBundle/Task2/Models/UnsplashModels.swift:151-163 | each field holds its argument |
| UnsplashModels.UnspecifiedSearchParamsAreNil | ApplicationBundle/Task2/Models/UnsplashModels.swift:151-163 | fields not passed to the initialiser are nil |
| UnsplashModels.OrientationRawValueRoundTrip | ApplicationBundle/Task2/Models/UnsplashModels.swift:166-169 | orientation raw values round-trip through `init(rawValue:)` |
| UnsplashModels.OrientationDisplayName | ApplicationBundle/Task2/Models/UnsplashModels.swift:171-177 | "Landscape", "Portrait" and "Square", one per case: the raw value with a capital initial, except that "squarish" is shown as "Square" |
| UnsplashModels.CategoryRawValue | ApplicationBundle/Task2/Models/UnsplashModels.swift:180-196 | each raw value is its case name, except `current_events`, which is "current-events" |
| UnsplashModels.CategoryRawValueRoundTrip | ApplicationBundle/Task2/Models/UnsplashModels.swift:180-196 | category raw values are distinct and round-trip; "current_events" is not a raw value |
| UnsplashModels.CategoryDisplayNamesDistinct | ApplicationBundle/Task2/Models/UnsplashModels.swift:198-217 | no two categories share a display name |
| UnsplashService.PhotosQueryItems | ApplicationBundle/Task2/Utilities/UnsplashService.swift:152-163 | `getPhotos` sends exactly four items in the order client_id, page, per_page, order_by, carrying the key and its arguments, whose defaults are 1, 10 and "popular" |
| UnsplashService.SearchSlotsSpec | ApplicationBundle/Task2/Utilities/UnsplashService.swift:28-47 | the optional items come in the fixed order query, orientation, topics, featured, username, count, each carrying its parameter's value |
| UnsplashService.RandomPhotoQueryItemsSpec | ApplicationBundle/Task2/Utilities/UnsplashService.swift:23-49 | `getRandomPhoto` sends client_id first, then each set search parameter once, in the fixed order, and nothing for unset ones |
| UnsplashService.RandomPhotosQueryItemsSpec | ApplicationBundle/Task2/Utilities/UnsplashService.swift:91-115 | `getRandomPhotos` sends client_id, then count from its argument, then the set search parameters in order, never `params.count` |
| UnsplashService.RandomPhotosIgnoresParamsCount | ApplicationBundle/Task2/Utilities/UnsplashService.swift:97-114 | the search parameters' own count has no effect on the `getRandomPhotos` request |
| UnsplashService.RandomPhotosRestSpec | ApplicationBundle/Task2/Utilities/UnsplashService.swift:97-114 | the items appended after client_id and count are the set search parameters in order, never a count, each carrying its parameter's value |
| UnsplashService.KeyAndCountFirst | ApplicationBundle/Task2/Utilities/UnsplashService.swift:91-95 | the random-photos request starts with client_id then count, and the appended items keep their order and values behind them |
| UnsplashService.MakeRequest | ApplicationBundle/Task2/Utilities/UnsplashService.swift:55-57 | every request carries `Authorization: Client-ID <key>` and `Accept: application/json` |
| UnsplashService.StatusError | ApplicationBundle/Task2/Utilities/UnsplashService.swift:62-73 | 401 is unauthorized, 403 is rate-limited, 200-299 passes, and any other status is an invalid response |
| UnsplashService.Complete | ApplicationBundle/Task2/Utilities/UnsplashService.swift:59-83 | a status error thrown inside the `do` is re-wrapped as a network error by the catch-all; only decode failures surface as decoding errors; success returns the decoded body |
| UnsplashService.Perform | ApplicationBundle/Task2/Utilities/UnsplashService.swift:18-21 | an empty key fails with noAccessKey before any request is built; otherwise the request is sent and its outcome classified |
| UnsplashService.GetRandomPhoto | ApplicationBundle/Task2/Utilities/UnsplashService.swift:18-84 | sends to /photos/random with the random-photo items exactly when the key is non-empty |
| UnsplashService.GetRandomPhotos | ApplicationBundle/Task2/Utilities/UnsplashService.swift:86-150 | sends to /photos/random with client_id and count first exactly when the key is non-empty |
| UnsplashService.GetPhotos | ApplicationBundle/Task2/Utilities/UnsplashService.swift:152-198 | sends to /photos with the four paging items exactly when the key is non-empty |
| UnsplashService.ShippedKeyAlwaysSends | ApplicationBundle/Task2/Utilities/UnsplashService.swift:14-21 | with the built-in key the empty-key guard never fires, so every failure comes from the exchange |
| TextFiles.ErrorDescription | ApplicationBundle/Task1/Utilities/TextFileManagerError.swift:20-39 | every message is non-empty, and the wrapping cases end with the wrapped error's description |
| TextFiles.ErrorDescriptionInjective | ApplicationBundle/Task1/Utilities/TextFileManagerError.swift:20-39 | different errors never produce the same message |
| TextFiles.ValidFileNameIff | ApplicationBundle/Task1/Utilities/TextFileManager.swift:119-131 | a name is valid iff it is non-empty, contains none of `/ \ : * ? " < > \|`, and neither starts nor ends with whitespace or a newline |
| TextFiles.SanitizeFileName | ApplicationBundle/Task1/Utilities/TextFileManager.swift:133-136 | each of the nine characters becomes `_`; every other character stays in place; the length is kept; the result holds none of the nine |
| TextFiles.SanitizeValidIsIdentity | ApplicationBundle/Task1/Utilities/TextFileManager.swift:119-136 | sanitising a valid name changes nothing |
| TextFiles.SavedNameIsValid | ApplicationBundle/Task1/Utilities/TextFileManager.swift:23-29 | the `<name>.txt` a save writes is itself a valid name, so it can be loaded back |
| TextFiles.FirstNameExists | ApplicationBundle/Task1/Utilities/TextFileManager.swift:81 | a non-empty set of names has one that sorts first ignoring case |
| TextFiles.TextFileManager.constructor | ApplicationBundle/Task1/Utilities/TextFileManager.swift:13-19 | the manager opens over the documents directory as found |
| TextFiles.TextFileManager.FileExists | ApplicationBundle/Task1/Utilities/TextFileManager.swift:88-92 | true iff the name is valid and present; equivalently, iff loading it would succeed |
| TextFiles.TextFileManager.LoadTextFile | ApplicationBundle/Task1/Utilities/TextFileManager.swift:39-56 | checks validity first, then existence, using the name as given; succeeds exactly when both hold and the read works, returning the stored text |
| TextFiles.TextFileManager.SaveTextFile | ApplicationBundle/Task1/Utilities/TextFileManager.swift:23-37 | an invalid name is refused and nothing is written; otherwise `<name>.txt` is overwritten with the content and only that entry changes |
| TextFiles.TextFileManager.AppendTextToFile | ApplicationBundle/Task1/Views/TextManagerViewModel.swift:51-61 | the append the view model calls: a failure is reported and writes nothing; a success leaves the named file with the text it reports and every other entry unchanged |
| TextFiles.SavedFileLoads | ApplicationBundle/Task1/Utilities/TextFileManager.swift:23-56 | after a successful save of a valid name, loading `<name>.txt` returns the saved content and the file exists |
| TextFiles.NoInvalidCharIff | ApplicationBundle/Task1/Utilities/TextFileManager.swift:119-127 | the nine `contains` tests all fail exactly when no character of the name is one of the nine forbidden ones |
| TextFiles.TextFileManager.DeleteTextFile | ApplicationBundle/Task1/Utilities/TextFileManager.swift:58-75 | validity first, then existence; success removes exactly that entry, after which the file no longer exists; failures change nothing |
| TextFiles.TextFileManager.GetSavedFiles | ApplicationBundle/Task1/Utilities/TextFileManager.swift:77-86 | lists each `.txt` entry exactly once, in ascending case-insensitive order; a listing failure gives directoryListingError |
| TextManagerScreen.SavedMessage | ApplicationBundle/Task1/Views/TextManagerViewModel.swift:55 | the success message names the saved `<name>.txt` |
| TextManagerScreen.TextManagerViewModel.constructor | ApplicationBundle/Task1/Views/TextManagerViewModel.swift:25-34 | without a manager the start-up alert is raised; with one the saved `.txt` files are listed in sorted order, or an alert is raised and the list left empty when listing fails |
| TextManagerScreen.TextManagerViewModel.ShowAlert | ApplicationBundle/Task1/Views/TextManagerViewModel.swift:141-149 | sets the message and raises the alert; nothing else changes |
| TextManagerScreen.TextManagerViewModel.LoadSavedFiles | ApplicationBundle/Task1/Views/TextManagerViewModel.swift:66-78 | without a manager nothing changes; success lists the `.txt` files sorted; failure empties the list and raises an alert |
| TextManagerScreen.TextManagerViewModel.SaveTextFile | ApplicationBundle/Task1/Views/TextManagerViewModel.swift:38-64 | missing manager or input gives its alert and nothing else; a failed append alerts and writes nothing; a successful one stores the appended file, clears both inputs and sets the saved flag, and the reloaded list then holds `<name>.txt`, or is empty with the listing alert when listing fails; loading ends either way |
| TextManagerScreen.TextManagerViewModel.LoadFileContent | ApplicationBundle/Task1/Views/TextManagerViewModel.swift:80-100 | success shows the content in the viewer with that file selected; failure raises the alert; loading ends either way |
| TextManagerScreen.TextManagerViewModel.DeleteFile | ApplicationBundle/Task1/Views/TextManagerViewModel.swift:102-122 | each failure raises its alert and changes nothing else; success removes the entry, reloads the list, and closes the viewer only when it showed that file; when the reload fails the list is empty and the "Error loading files: …" alert replaces the success message |
| TextManagerScreen.TextManagerViewModel.FileExists | ApplicationBundle/Task1/Views/TextManagerViewModel.swift:124-126 | false without a manager; otherwise true iff the name is valid and present |
| TextManagerScreen.TextManagerViewModel.ClearFileContent | ApplicationBundle/Task1/Views/TextManagerViewModel.swift:128-132 | closes the viewer and clears the selection and content; nothing else changes |
| TextManagerScreen.TextManagerViewModel.ClearInputFields | ApplicationBundle/Task1/Views/TextManagerViewModel.swift:136-139 | clears both inputs; nothing else changes |
| TextManagerScreen.TextManagerViewModel.CanSaveFile | ApplicationBundle/Task1/Views/TextManagerViewModel.swift:153-155 | true iff both inputs are filled in and nothing is loading |
| TextManagerScreen.TextManagerViewModel.IsFileManagerAvailable | ApplicationBundle/Task1/Views/TextManagerViewModel.swift:157-159 | true iff a manager exists |
| AppConfig.MakeAppFeatures | ApplicationBundle/Task3/Models/AppFeatures.swift:24-32 | the initialiser stores its arguments; search and sharing are effectively on only when passed true |
| AppConfig.EffectiveEnableImageSearch | ApplicationBundle/Task3/Models/AppFeatures.swift:16-18 | search is on iff explicitly set to true |
| AppConfig.EffectiveEnableImageSharing | ApplicationBundle/Task3/Models/AppFeatures.swift:20-22 | sharing is on iff explicitly set to true |
| AppConfig.DefaultFeatures | ApplicationBundle/Task3/Models/AppFeatures.swift:16-32 | a default-built feature set has cache and offline mode on, and search and sharing off |
| AppConfig.EffectiveGridColumns | ApplicationBundle/Task3/Models/AppConfiguration.swift:22-24 | the configured column count, else 2 |
| AppConfig.EffectiveImageCornerRadius | ApplicationBundle/Task3/Models/AppConfiguration.swift:26-28 | the configured radius, else 12 |
| AppConfig.EffectiveShowImageTags | ApplicationBundle/Task3/Models/AppConfiguration.swift:30-32 | tags are off iff explicitly set to false |
| AppConfig.EffectiveShowImageDescriptions | ApplicationBundle/Task3/Models/AppConfiguration.swift:34-36 | descriptions are off iff explicitly set to false |
| AppConfig.EffectiveEnableImageAnimations | ApplicationBundle/Task3/Models/AppConfiguration.swift:38-40 | animations are off iff explicitly set to false |
| AppConfig.ThemeColor | ApplicationBundle/Task3/Models/AppConfiguration.swift:42-57 | the lower-cased theme picks green, gray, purple or orange for nature, urban, creative or warm; everything else, "modern" included, is blue |
| AppConfig.ThemeColorIgnoresCase | ApplicationBundle/Task3/Models/AppConfiguration.swift:42-57 | themes that differ only in letter case give the same colour |
| AppConfig.ColorSchemeOf | ApplicationBundle/Task3/Models/AppConfiguration.swift:59-61 | the scheme is never nil, and it is dark iff dark mode is on |
| AppConfig.DefaultConfig | ApplicationBundle/Task3/Models/AppConfiguration.swift:63-74 | "Default App", 4 images, light, theme "modern" (blue), 2 columns, radius 12, every toggle on, cache and offline on, search and sharing unset and off |
| BundleContent.CreatePlaceholderImages | ApplicationBundle/Task3/Utilities/BundleContentManager.swift:145-165 | six placeholders matching the table entry by entry, in order, the i-th drawn with gradient pair i mod 6 |
| BundleContent.CapitalizedFromKeepsSpaces | ApplicationBundle/Task3/Utilities/BundleContentManager.swift:219 | capitalising moves no space |
| BundleContent.JoinWordsSingleSpaced | ApplicationBundle/Task3/Utilities/BundleContentManager.swift:220 | non-empty words without spaces, joined by single spaces, give a text with no leading, trailing or doubled space |
| BundleContent.GenerateTitle | ApplicationBundle/Task3/Utilities/BundleContentManager.swift:215-221 | a title has no leading, trailing or doubled space, whatever the name |
| BundleContent.GenerateTitleExample | ApplicationBundle/Task3/Utilities/BundleContentManager.swift:215-221 | a doubled underscore collapses: "a__b" becomes "A B" |
| BundleContent.GenerateDescription | ApplicationBundle/Task3/Utilities/BundleContentManager.swift:223-233 | the first keyword contained, in the order nature, city, abstract, picks the text; with none, the generic text |
| BundleContent.GenerateTags | ApplicationBundle/Task3/Utilities/BundleContentManager.swift:235-249 | the three tags of each contained keyword form one block, nature first, then city, then abstract; the length is three per keyword and is 0 exactly when no keyword occurs |
| BundleContent.DescriptionAgreesWithTags | ApplicationBundle/Task3/Utilities/BundleContentManager.swift:223-249 | the generic description goes with an empty tag list, and the first tag names the keyword the description chose |
| BundleContent.AvailableSpec | ApplicationBundle/Task3/Utilities/BundleContentManager.swift:96-109 | the names found keep their list order, are exactly the listed names among the assets, and are none exactly when no asset is found |
| BundleContent.FromAssets | ApplicationBundle/Task3/Utilities/BundleContentManager.swift:97-107 | one image per found name, in the same order, each with its generated title, description and tags |
| BundleContent.LoadedImagesSpec | ApplicationBundle/Task3/Utilities/BundleContentManager.swift:93-119 | the placeholders are used exactly when no asset is found; otherwise the found assets, in list order |
| BundleContent.AllAssetsLoaded | ApplicationBundle/Task3/Utilities/BundleContentManager.swift:93-119 | with every asset present, all six images load in list order |
| BundleContent.LoadStep | ApplicationBundle/Task3/Utilities/BundleContentManager.swift:96-109 | one loop step appends the current name's image exactly when that asset exists |
| BundleContent.Search | ApplicationBundle/Task3/Utilities/BundleContentManager.swift:129-136 | keeps, in order, exactly the images whose title, description or some tag contains the query ignoring case |
| BundleContent.SearchKeepsMultiplicity | ApplicationBundle/Task3/Utilities/BundleContentManager.swift:129-136 | the filter keeps each matching image exactly as often as it occurs and drops every other image |
| BundleContent.PrefixAsWritten | ApplicationBundle/Task3/Utilities/BundleContentManager.swift:138-140 | `prefix(maxImagesDisplayed)` as written: the first n images, and no result (a trap) for a negative n |
| BundleContent.NegativeLimitStops | ApplicationBundle/Task3/Utilities/BundleContentManager.swift:138-140 | a configuration with a negative limit stops the display as written |
| BundleContent.Prefix | ApplicationBundle/Task3/Utilities/BundleContentManager.swift:138-140 | the corrected cut: length `min(max(n, 0), count)`, and the first elements of the list |
| BundleContent.PrefixOfSubsequence | ApplicationBundle/Task3/Utilities/BundleContentManager.swift:138-140 | a prefix of a subsequence is still a subsequence of the whole |
| BundleContent.Displayed | ApplicationBundle/Task3/Utilities/BundleContentManager.swift:121-143 | without a configuration the images as they are; otherwise an order-preserving subsequence of at most the limit, searched only when search is on and the query non-empty |
| BundleContent.EmptyQueryShowsPrefix | ApplicationBundle/Task3/Utilities/BundleContentManager.swift:60-63 | with an empty query the display is the plain prefix, even with search on |
| BundleContent.ConfigFrom | ApplicationBundle/Task3/Utilities/BundleContentManager.swift:73-91 | the decoded configuration, else the default whether the file is missing or unreadable |
| BundleContent.SourceOf | ApplicationBundle/Task3/Utilities/BundleContentManager.swift:73-91 | "JSON" on success, "Default (JSON not found)" for a missing file, "Default (JSON error)" for a failed read or decode |
| BundleContent.BundleContentManager.constructor | ApplicationBundle/Task3/Utilities/BundleContentManager.swift:29-31 | loads the configuration, then the images, then the display list; the search text is empty |
| BundleContent.BundleContentManager.LoadContent | ApplicationBundle/Task3/Utilities/BundleContentManager.swift:67-69 | the configuration and its source by the fallback rules, then the found assets in list order or the six placeholders |
| BundleContent.BundleContentManager.LoadConfiguration | ApplicationBundle/Task3/Utilities/BundleContentManager.swift:73-91 | sets the configuration and its source as the fallback rules say |
| BundleContent.BundleContentManager.LoadBundledImages | ApplicationBundle/Task3/Utilities/BundleContentManager.swift:93-119 | the found assets in list order, or exactly the six placeholders when none is found |
| BundleContent.BundleContentManager.ApplyConfigurationToImages | ApplicationBundle/Task3/Utilities/BundleContentManager.swift:121-143 | the displayed list becomes what the configuration and search text call for |
| BundleContent.BundleContentManager.SearchImages | ApplicationBundle/Task3/Utilities/BundleContentManager.swift:60-63 | stores the query and recomputes the displayed list from it |
| BundleContent.BundleContentManager.ResetToDefaultConfiguration | ApplicationBundle/Task3/Utilities/BundleContentManager.swift:51-57 | the default configuration with source "Default", a reload time of now and a recomputed display |
| BundleContent.BundleContentManager.ReloadConfiguration | ApplicationBundle/Task3/Utilities/BundleContentManager.swift:35-49 | reloads the configuration under the same fallback rules, stamps the time, recomputes the display and ends the reloading state |
| BundleContentEarly.InlineDefault | ApplicationBundle/Task3/BundleContentManager.swift:27-33 | "Default App", 4 images, dark mode off, theme "light", cache and offline on |
| BundleContentEarly.ConfigFrom | ApplicationBundle/Task3/BundleContentManager.swift:23-51 | the decoded configuration, else the inline default whether the file is missing or unreadable |
| BundleContentEarly.GenerateTitle | ApplicationBundle/Task3/BundleContentManager.swift:143-146 | the title is as long as the name and has a space exactly where the name has an underscore or a space |
| BundleContentEarly.CreatePlaceholderImages | ApplicationBundle/Task3/BundleContentManager.swift:87-106 | six placeholders matching the table entry by entry, all drawn with the same gradient |
| BundleContentEarly.PlaceholdersDifferOnlyInGradient | ApplicationBundle/Task3/BundleContentManager.swift:87-106 | the two versions' placeholders agree in everything but the gradient, and are equal only for the first image |
| BundleContentEarly.CapitalizeWordsOfSingleSpaced | ApplicationBundle/Task3/BundleContentManager.swift:143-146 | for a text with single spaces, capitalising word by word and joining equals capitalising the whole |
| BundleContentEarly.TitleVersionsAgreeIff | ApplicationBundle/Task3/BundleContentManager.swift:143-146 | the two versions give the same title iff replacing underscores with spaces leaves no space at either end and none doubled |
| BundleContentEarly.TitleVersionsDifferOnDoubledUnderscore | ApplicationBundle/Task3/BundleContentManager.swift:143-146 | "a__b" is "A  B" in the earlier version and "A B" in the later one |
| BundleContentEarly.BundleContentManager.constructor | ApplicationBundle/Task3/BundleContentManager.swift:14-21 | loads the configuration, then the images |
| BundleContentEarly.BundleContentManager.LoadConfiguration | ApplicationBundle/Task3/BundleContentManager.swift:23-51 | the decoded file, else the inline default |
| BundleContentEarly.BundleContentManager.LoadBundledImages | ApplicationBundle/Task3/BundleContentManager.swift:53-85 | the found assets in list order with the early titles, or exactly the six early placeholders when none is found |

## Left out

- Network, file and decoding I/O: `URLSession`, `Data(contentsOf:)`,
  `write(to:)`, `JSONDecoder` and `FileManager` calls are not modelled.
  Their outcomes are parameters; `Codable` appears only as the key tables.
- Concurrency. Every operation runs sequentially. The following are left
  out: the `withTaskGroup` downloads, the `MainActor` hops, the
  `asyncAfter` delay in `reloadConfiguration`, and races between downloads
  of the same photo.
- The download methods of the cache and of its view model
  (`downloadRandomPhoto`, `downloadRandomPhotos`, `downloadPopularPhotos`),
  with their `isLoading` flags and error alerts: they combine the modelled
  service calls and `cachePhoto` with the concurrency above.
- `NotificationCenter` observers: the memory-warning handler is a method the
  host calls (`HandleMemoryWarning`, `OnMemoryWarning`). In the app a real
  memory warning reaches both observers, the cache's own
  (`ImageCacheManager.swift:275-283`) and the view model's
  (`ImageCacheViewModel.swift:128-140`), so `handleMemoryWarning` runs twice;
  the model runs one pass per call and does not fix the order of the two.
- Floating point and formatting: the `"%.2f MB"` size text, corner-radius
  arithmetic (the radius is an opaque `real`), and the date and byte
  formatters.
- Calendar arithmetic. The cutoff of `clearOldCache` is `cutoffFor(days)`,
  and a nil date falls back to `now`.
- Image rendering. `UIImage(named:)` is the set of asset names found; a
  placeholder is its caption and gradient index.
- `UUID` identifiers of bundled images.
- `appendTextToFile`, which the text view model calls, is not part of this
  model. `TextFileManager.AppendTextToFile` takes its outcome as a
  parameter: the file's text afterwards or the error. How that text
  relates to the earlier text and the appended content is not stated.
- `getFileSize(fileName:)` of the text store and the attribute reads of
  the cache. Sizes and dates are fields of the modelled directory.
- The value of the access key compiled into `UnsplashService`: the model
  uses a placeholder, since only its being non-empty matters.
- The `urlComponents.url` guards (`invalidURL`) in the three service calls:
  the fixed base URL always forms a URL, so the model has no such failure.
- Locale-aware string operations. `localizedCaseInsensitiveContains`,
  `capitalized`, `localizedCaseInsensitiveCompare`, `lowercased` and
  `trimmingCharacters(in:)` are ASCII approximations (`text.dfy`).
- `TextFileManager` creation fails when the documents directory is missing.
  The view model models this as a null manager.
- TextFiles.TextFileManager.FileExists, TextFiles.TextFileManager.LoadTextFile
  and TextFiles.TextFileManager.DeleteTextFile: the documents directory is
  a map from entry name to text, so it cannot hold a path that exists but
  is not a text file. Sub-directories, and "." and ".." in particular, are
  not represented. Those two names pass `isValidFileName`, and
  `appendingPathComponent(".")` names the documents directory itself. For
  ".", the source's `fileExists` answers true
  (`TextFileManager.swift:88-92`), `loadTextFile` passes the existence check
  and fails in the read with `readError` (`TextFileManager.swift:44-55`), and
  `deleteTextFile` calls `removeItem` on the documents directory itself
  (`TextFileManager.swift:63-71`). The model reports such names as absent:
  false, `fileNotFound` and `fileNotFound` with nothing changed.
- ImageCache.ImageCacheManager.Valid: the model assumes that only the cache
  changes its directory, so every indexed entry's file exists. The system
  can purge the temporary directory behind the cache's back, and that
  state (entry indexed, file gone) cannot be represented. So
  `CachePhoto` never takes the source's re-download of an indexed photo
  whose file has vanished (`ImageCacheManager.swift:168-180`). A
  `removePhoto` whose file is already gone appears only as a removal in
  `faults`, which has the same outcome: the entry stays.
- HandleMemoryWarning: follows the code, which removes ⌊n/2⌋ entries once.
  It does not evict until the total is under the budget, so a single
  entry above 50 MiB is kept.
- ImageCache.SortByDate: the order among equal dates is
  left unspecified, because the source's sort does not fix it either.
- TextFiles.TextFileManager.GetSavedFiles: case-insensitive ties are
  ordered arbitrarily, as with the source's comparator.
- BundleContentEarly.GenerateTitle: its own contract states only where the
  spaces fall. The full relation to the later title is the lemma
  `TitleVersionsAgreeIff`.

## Findings

| source | as written | input that shows it | evidently intended | confidence | as-written member | corrected member |
|---|---|---|---|---|---|---|
| ApplicationBundle/Task3/Utilities/BundleContentManager.swift:138-140 | `Array(images.prefix(config.maxImagesDisplayed))` with the limit taken unchecked from the decoded JSON | `"maxImagesDisplayed": -1` in `app_config.json`: `prefix` with a negative length traps | show no image for a non-positive limit | not executed | BundleContent.NegativeLimitStops | BundleContent.Prefix |
