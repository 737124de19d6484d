/** The second tab's view model: a mirror of the cache index for the screen,
    the search filters for random downloads, and the alert the screen shows.
    The cache itself is an `ImageCacheManager`. */
module ImageCacheScreen {
  import opened Wrappers
  import opened UnsplashModels
  import opened ImageCache

  const OldCacheClearedMessage := "Old cache cleared successfully!"
  const AllCacheClearedMessage := "All cache cleared successfully!"

  class ImageCacheViewModel {
    var cachedPhotos: map<string, CachedPhotoInfo>
    var cachedImagesCount: int
    var alertMessage: string
    var showAlert: bool
    var searchQuery: string
    var selectedOrientation: Option<UnsplashOrientation>
    var selectedCategory: Option<UnsplashCategory>
    const cacheManager: ImageCacheManager

    /** The cache is consistent and the screen shows exactly its index. */
    ghost predicate Valid()
      reads this, cacheManager
    {
      && cacheManager.Valid()
      && cachedPhotos == cacheManager.cachedPhotos
      && cachedImagesCount == |cachedPhotos|
    }

    /** `init()`: the cache is opened over the directory as found (see
        `ImageCacheManager`'s constructor) and the statistics are copied. */
    constructor(files: map<CacheFile, DiskFile>, directoryAvailable: bool, listingFails: bool)
      ensures Valid() && fresh(cacheManager)
      ensures cacheManager.disk == files
      ensures directoryAvailable && !listingFails ==> Rebuilt(cachedPhotos, map[], files)
      ensures !directoryAvailable || listingFails ==> cachedPhotos == map[]
      ensures alertMessage == "" && !showAlert
      ensures searchQuery == "" && selectedOrientation.None? && selectedCategory.None?
    {
      cacheManager := new ImageCacheManager(files, directoryAvailable, listingFails);
      cachedPhotos := map[];
      cachedImagesCount := 0;
      alertMessage := "";
      showAlert := false;
      searchQuery := "";
      selectedOrientation := None;
      selectedCategory := None;
      new;
      UpdateCacheStats();
    }

    /** `updateCacheStats()` apart from the size text: the count and the
        index are copied from the cache. */
    method UpdateCacheStats()
      requires cacheManager.Valid()
      modifies this
      ensures Valid()
      ensures cachedPhotos == cacheManager.cachedPhotos && cachedImagesCount == cacheManager.cachedImagesCount
      ensures alertMessage == old(alertMessage) && showAlert == old(showAlert)
      ensures searchQuery == old(searchQuery)
      ensures selectedOrientation == old(selectedOrientation) && selectedCategory == old(selectedCategory)
    {
      cachedImagesCount := cacheManager.cachedImagesCount;
      var totalSize := cacheManager.GetCacheSizeInBytes();
      cachedPhotos := cacheManager.cachedPhotos;
    }

    /** `clearOldCache(olderThan:)`, seven days unless told otherwise. */
    method ClearOldCache(cutoffFor: int -> Option<int>, now: int, faults: set<CacheFile>, days: int := 7)
      requires Valid()
      modifies this, cacheManager
      ensures Valid()
      ensures var older := OlderThan(old(cachedPhotos), cutoffFor(days).GetOr(now));
        cachedPhotos == old(cachedPhotos) - RemovedBy(old(cachedPhotos), older, faults)
      ensures alertMessage == OldCacheClearedMessage && showAlert
      ensures searchQuery == old(searchQuery)
      ensures selectedOrientation == old(selectedOrientation) && selectedCategory == old(selectedCategory)
    {
      ghost var remaining := cachedPhotos - RemovedBy(cachedPhotos, OlderThan(cachedPhotos, cutoffFor(days).GetOr(now)), faults);
      cacheManager.ClearOldCache(cutoffFor, now, faults, days);
      assert cacheManager.cachedPhotos == remaining;
      UpdateCacheStats();
      alertMessage := OldCacheClearedMessage;
      showAlert := true;
    }

    /** `clearAllCache()`: the screen is left with an empty index. */
    method ClearAllCache(faults: set<CacheFile>)
      requires Valid()
      modifies this, cacheManager
      ensures Valid()
      ensures cachedPhotos == map[] && cachedImagesCount == 0
      ensures alertMessage == AllCacheClearedMessage && showAlert
      ensures searchQuery == old(searchQuery)
      ensures selectedOrientation == old(selectedOrientation) && selectedCategory == old(selectedCategory)
    {
      cacheManager.ClearCache(faults);
      UpdateCacheStats();
      alertMessage := AllCacheClearedMessage;
      showAlert := true;
    }

    /** `removePhoto(photoId:)`: no alert either way. */
    method RemovePhoto(photoId: string, faults: set<CacheFile>)
      requires Valid()
      modifies this, cacheManager
      ensures Valid()
      ensures cachedPhotos == if photoId in old(cachedPhotos) && FileName(photoId) !in faults
                              then old(cachedPhotos) - {photoId} else old(cachedPhotos)
      ensures alertMessage == old(alertMessage) && showAlert == old(showAlert)
      ensures searchQuery == old(searchQuery)
      ensures selectedOrientation == old(selectedOrientation) && selectedCategory == old(selectedCategory)
    {
      cacheManager.RemovePhoto(photoId, faults);
      UpdateCacheStats();
    }

    /** The memory-warning observer's action: the cache's own handling, then
        fresh statistics. `aged` is the index after the one-day age pass and
        `attempted` the ids the second pass tries to remove. */
    method OnMemoryWarning(cutoffFor: int -> Option<int>, now: int, faults: set<CacheFile>)
      returns (ghost aged: map<string, CachedPhotoInfo>, ghost attempted: set<string>)
      requires Valid()
      modifies this, cacheManager
      ensures Valid()
      ensures aged == old(cachedPhotos) - RemovedBy(old(cachedPhotos), OlderThan(old(cachedPhotos), cutoffFor(1).GetOr(now)), faults)
      ensures TotalSize(aged) <= MemoryWarningLimit ==> attempted == {}
      ensures TotalSize(aged) > MemoryWarningLimit ==>
        attempted <= aged.Keys && |attempted| == |aged| / 2 && OldestFirst(attempted, aged)
      ensures cachedPhotos == aged - RemovedBy(aged, attempted, faults)
      ensures NoNewerRemoved(old(cachedPhotos), cachedPhotos, faults)
      ensures alertMessage == old(alertMessage) && showAlert == old(showAlert)
      ensures searchQuery == old(searchQuery)
      ensures selectedOrientation == old(selectedOrientation) && selectedCategory == old(selectedCategory)
    {
      aged, attempted := cacheManager.HandleMemoryWarning(cutoffFor, now, faults);
      UpdateCacheStats();
    }

    /** `setSearchQuery(_:)`. */
    method SetSearchQuery(query: string)
      modifies this`searchQuery
      ensures searchQuery == query
    {
      searchQuery := query;
    }

    /** `setOrientation(_:)`. */
    method SetOrientation(orientation: Option<UnsplashOrientation>)
      modifies this`selectedOrientation
      ensures selectedOrientation == orientation
    {
      selectedOrientation := orientation;
    }

    /** `setCategory(_:)`. */
    method SetCategory(category: Option<UnsplashCategory>)
      modifies this`selectedCategory
      ensures selectedCategory == category
    {
      selectedCategory := category;
    }

    /** `createSearchParams()`: no parameters at all when no filter is set;
        otherwise the query (an empty one as nil), the orientation and the
        category, and nothing else. */
    function CreateSearchParams(): (p: Option<UnsplashSearchParams>)
      reads this
      ensures p.None? <==> searchQuery == [] && selectedOrientation.None? && selectedCategory.None?
      ensures p.Some? ==>
        && (p.value.query.None? <==> searchQuery == [])
        && (p.value.query.Some? ==> p.value.query.value == searchQuery)
        && p.value.orientation == selectedOrientation && p.value.category == selectedCategory
        && p.value.featured.None? && p.value.username.None? && p.value.count.None?
    {
      var query := if searchQuery == [] then None else Some(searchQuery);
      if query.None? && selectedOrientation.None? && selectedCategory.None? then None
      else Some(MakeSearchParams(query := query, orientation := selectedOrientation, category := selectedCategory))
    }
  }
}
