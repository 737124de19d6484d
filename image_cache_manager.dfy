/** The photo cache (`ImageCacheManager`): an index from photo id to the
    cached file's name, date and size, kept beside a cache directory of
    `<id>.jpg` files.

    The directory is the field `disk`, from file name to the file's size and
    creation date; only the cache changes it. A `CachedPhotoInfo.localURL` is
    the file's name inside that one directory. Dates are integers (seconds),
    and what the file system, the network and the calendar would answer is
    passed in: `faults` names the files whose removal fails although they
    exist, a transfer result stands for the download, `cutoffFor` for the
    calendar. */
module ImageCache {
  import opened Wrappers
  import UnsplashModels
  import Text

  type Photo = UnsplashModels.UnsplashPhoto

  /** The attributes of a file in the cache directory. */
  datatype DiskFile = DiskFile(size: nat, created: int)

  datatype CachedPhotoInfo = CachedPhotoInfo(photo: Photo, localURL: CacheFile, cachedDate: int, size: nat)

  datatype ImageCacheError = InvalidURL | NoData

  /** What `cachePhoto` can throw: its own error, or one it passes on from the
      transfer or the file write. */
  datatype CacheFailure = CacheError(error: ImageCacheError) | Passed(description: string)

  /** The total above which a memory warning evicts by age: 50 MiB. */
  const MemoryWarningLimit: int := 50 * 1024 * 1024

  // ---------------------------------------------------------------------------
  // File names

  /** A name in the cache directory: a photo file `<id>.jpg`, or any other
      name (one that does not end in ".jpg"). */
  datatype CacheFile = Jpg(id: string) | Other(name: string)

  /** Each name has one representation. */
  predicate WellFormed(f: CacheFile) {
    f.Other? ==> !Text.HasSuffix(f.name, ".jpg")
  }

  /** The name itself. */
  function NameOf(f: CacheFile): (n: string)
    ensures f.Jpg? ==> |n| == |f.id| + 4 && Text.HasSuffix(n, ".jpg") && n[..|f.id|] == f.id
  {
    match f
    case Jpg(id) =>
      Text.AppendedHasSuffix(id, ".jpg");
      id + ".jpg"
    case Other(n) => n
  }

  /** Different well-formed files have different names. */
  lemma NameOfInjective(a: CacheFile, b: CacheFile)
    requires WellFormed(a) && WellFormed(b) && NameOf(a) == NameOf(b)
    ensures a == b
  {
    if a.Jpg? && b.Jpg? {
      assert |a.id| == |b.id|;
      assert a.id == NameOf(a)[..|a.id|] == NameOf(b)[..|b.id|] == b.id;
    }
  }

  /** The cache file of a photo: `"\(id).jpg"`. */
  function FileName(id: string): (f: CacheFile)
    ensures WellFormed(f) && f.Jpg? && f.id == id
  {
    Jpg(id)
  }

  /** A directory entry whose path extension is `jpg`. A bare ".jpg" is a
      hidden file without an extension. */
  predicate IsJpg(f: CacheFile) {
    f.Jpg? && f.id != ""
  }

  /** For well-formed files, `IsJpg` is exactly "longer than four characters
      and ending in .jpg". */
  lemma IsJpgByName(f: CacheFile)
    requires WellFormed(f)
    ensures IsJpg(f) <==> |NameOf(f)| > 4 && Text.HasSuffix(NameOf(f), ".jpg")
  {
  }

  /** The photo record `loadExistingCache` makes up for a file it finds:
      only the id is known. */
  function DummyPhoto(id: string): (p: Photo)
    ensures p.id == id && p.description == Some("Cached image")
  {
    UnsplashModels.UnsplashPhoto(
      id := id, createdAt := "", updatedAt := "", width := 0, height := 0,
      color := "#000000", blurHash := None, likes := 0, likedByUser := false,
      description := Some("Cached image"), altDescription := None,
      user := UnsplashModels.UnsplashUser(
        id := "", username := "unknown", name := "Unknown User",
        firstName := None, lastName := None, portfolioURL := None, bio := None,
        location := None, totalLikes := None, totalPhotos := None,
        totalCollections := None, profileImage := None, links := None),
      urls := UnsplashModels.UnsplashURLs(raw := "", full := "", regular := "", small := "", thumb := ""),
      links := None)
  }

  // ---------------------------------------------------------------------------
  // The index and the directory

  /** Every entry names its photo's own file, that file is in the directory,
      and the entry's size is the file's. */
  ghost predicate Consistent(photos: map<string, CachedPhotoInfo>, disk: map<CacheFile, DiskFile>) {
    forall id :: id in photos ==>
      photos[id].localURL == FileName(id) && FileName(id) in disk && photos[id].size == disk[FileName(id)].size
  }

  /** The sum of the entries' sizes. */
  ghost function TotalSize(m: map<string, CachedPhotoInfo>): int
    decreases |m|
  {
    if m == map[] then 0
    else
      var k :| k in m;
      m[k].size + TotalSize(m - {k})
  }

  /** The total can be taken apart at any entry. */
  lemma {:induction false} TotalSizeRemove(m: map<string, CachedPhotoInfo>, k: string)
    requires k in m
    ensures TotalSize(m) == m[k].size + TotalSize(m - {k})
    decreases |m|
  {
    var j :| j in m && TotalSize(m) == m[j].size + TotalSize(m - {j});
    if j != k {
      assert |m - {j}| < |m| by { assert m.Keys - {j} < m.Keys; }
      assert |m - {k}| < |m| by { assert m.Keys - {k} < m.Keys; }
      TotalSizeRemove(m - {j}, k);
      TotalSizeRemove(m - {k}, j);
      assert m - {j} - {k} == m - {k} - {j};
    }
  }

  /** The ids among `ids` whose entry a removal attempt deletes: those in the
      index whose file removal does not fail. */
  ghost function RemovedBy(photos: map<string, CachedPhotoInfo>, ids: set<string>, faults: set<CacheFile>): set<string> {
    set id | id in ids && id in photos && FileName(id) !in faults
  }

  /** The directory without the files of the photos `ids`. */
  ghost function DiskWithout(d: map<CacheFile, DiskFile>, ids: set<string>): map<CacheFile, DiskFile> {
    map f | f in d && !(f.Jpg? && f.id in ids) :: d[f]
  }

  /** The entries older than the cutoff. */
  ghost function OlderThan(photos: map<string, CachedPhotoInfo>, cutoff: int): set<string> {
    set id | id in photos && photos[id].cachedDate < cutoff
  }

  /** No entry of `chosen` is newer than an entry of `photos` outside it. */
  ghost predicate OldestFirst(chosen: set<string>, photos: map<string, CachedPhotoInfo>) {
    forall a, b :: a in chosen && a in photos && b in photos && b !in chosen ==> photos[a].cachedDate <= photos[b].cachedDate
  }

  /** Going from `before` to `after`, no entry was dropped that is newer than
      an entry kept whose file could have been removed. */
  ghost predicate NoNewerRemoved(before: map<string, CachedPhotoInfo>, after: map<string, CachedPhotoInfo>, faults: set<CacheFile>) {
    forall a, b :: a in before && a !in after && b in after && FileName(b) !in faults ==> before[a].cachedDate <= after[b].cachedDate
  }

  /** What a directory scan finds for a photo: the dummy record, the file's
      creation date and size. */
  function RecoveredEntry(disk: map<CacheFile, DiskFile>, id: string): (e: CachedPhotoInfo)
    requires FileName(id) in disk
    ensures e.localURL == FileName(id) && e.size == disk[FileName(id)].size
    ensures e.photo.id == id
  {
    CachedPhotoInfo(DummyPhoto(id), FileName(id), disk[FileName(id)].created, disk[FileName(id)].size)
  }

  /** `m` is `before` with one entry per `.jpg` file of `disk` written over it. */
  ghost predicate Rebuilt(m: map<string, CachedPhotoInfo>, before: map<string, CachedPhotoInfo>, disk: map<CacheFile, DiskFile>) {
    (forall id :: id in m <==> id in before || (id != "" && FileName(id) in disk))
    && forall id :: id in m ==>
      m[id] == if id != "" && FileName(id) in disk then RecoveredEntry(disk, id) else before[id]
  }

  /** A scan of a directory that is consistent with an index finds every entry
      again, with its size; only a photo with the empty id is lost, since its
      file ".jpg" has no extension. */
  lemma RescanKeepsEntries(photos: map<string, CachedPhotoInfo>, disk: map<CacheFile, DiskFile>,
                           m: map<string, CachedPhotoInfo>)
    requires Consistent(photos, disk) && Rebuilt(m, map[], disk)
    ensures forall id :: id in photos && id != "" ==> id in m && m[id].size == photos[id].size
    ensures forall id :: id in m ==> m[id].photo == DummyPhoto(id)
    ensures Consistent(m, disk)
  {
  }

  /** Part way through a directory scan: the files not in `files` have been
      read into `m` over `before`, and `m` is consistent with `disk`. */
  ghost predicate ScannedExcept(m: map<string, CachedPhotoInfo>, before: map<string, CachedPhotoInfo>,
                                disk: map<CacheFile, DiskFile>, files: set<CacheFile>) {
    && Consistent(m, disk)
    && (forall id :: id in m <==> id in before || (id != "" && FileName(id) in disk && FileName(id) !in files))
    && forall id :: id in m ==>
      m[id] == if id != "" && FileName(id) in disk && FileName(id) !in files
               then RecoveredEntry(disk, id) else before[id]
  }

  /** Reading one more file of the directory keeps the scan in step. */
  lemma ScanStep(m: map<string, CachedPhotoInfo>, before: map<string, CachedPhotoInfo>,
                 disk: map<CacheFile, DiskFile>, files: set<CacheFile>, f: CacheFile)
    requires ScannedExcept(m, before, disk, files) && f in files && files <= disk.Keys
    ensures IsJpg(f) ==>
      ScannedExcept(m[f.id := CachedPhotoInfo(DummyPhoto(f.id), f, disk[f].created, disk[f].size)], before, disk, files - {f})
    ensures !IsJpg(f) ==> ScannedExcept(m, before, disk, files - {f})
  {
    if IsJpg(f) {
      ScanJpg(m, before, disk, files, f);
    } else {
      assert forall id :: id != "" ==> FileName(id) != f;
    }
  }

  /** Reading a `.jpg` file records its photo. */
  lemma ScanJpg(m: map<string, CachedPhotoInfo>, before: map<string, CachedPhotoInfo>,
                disk: map<CacheFile, DiskFile>, files: set<CacheFile>, f: CacheFile)
    requires ScannedExcept(m, before, disk, files) && f in files && files <= disk.Keys && IsJpg(f)
    ensures ScannedExcept(m[f.id := CachedPhotoInfo(DummyPhoto(f.id), f, disk[f].created, disk[f].size)], before, disk, files - {f})
  {
    var id := f.id;
    assert FileName(id) == f;
    var entry := CachedPhotoInfo(DummyPhoto(id), f, disk[f].created, disk[f].size);
    assert entry == RecoveredEntry(disk, id);
  }

  /** A scan that has read every file has rebuilt the index. */
  lemma ScanComplete(m: map<string, CachedPhotoInfo>, before: map<string, CachedPhotoInfo>, disk: map<CacheFile, DiskFile>)
    requires ScannedExcept(m, before, disk, {})
    ensures Rebuilt(m, before, disk) && Consistent(m, disk)
  {
  }

  // ---------------------------------------------------------------------------
  // Ordering by date

  lemma {:induction false} TotalSizeNonNegative(m: map<string, CachedPhotoInfo>)
    ensures TotalSize(m) >= 0
    decreases |m|
  {
    if m != map[] {
      var k :| k in m;
      TotalSizeRemove(m, k);
      assert |m - {k}| < |m| by { assert m.Keys - {k} < m.Keys; }
      TotalSizeNonNegative(m - {k});
    }
  }

  /** A set of entries has an oldest one. */
  lemma {:induction false} OldestExists(photos: map<string, CachedPhotoInfo>, s: set<string>)
    requires s != {} && s <= photos.Keys
    ensures exists m :: m in s && forall o :: o in s ==> photos[m].cachedDate <= photos[o].cachedDate
    decreases |s|
  {
    var x :| x in s;
    if s != {x} {
      OldestExists(photos, s - {x});
      var m :| m in s - {x} && forall o :: o in s - {x} ==> photos[m].cachedDate <= photos[o].cachedDate;
      if photos[x].cachedDate < photos[m].cachedDate {
        assert forall o :: o in s ==> photos[x].cachedDate <= photos[o].cachedDate;
      } else {
        assert forall o :: o in s ==> photos[m].cachedDate <= photos[o].cachedDate;
      }
    } else {
      assert forall o :: o in s ==> o == x;
    }
  }

  /** `ids` lists every entry of `photos` once, oldest first. */
  ghost predicate SortedByDate(ids: seq<string>, photos: map<string, CachedPhotoInfo>) {
    && |ids| == |photos|
    && (forall i :: 0 <= i < |ids| ==> ids[i] in photos)
    && (forall id :: id in photos ==> id in ids)
    && (forall i, j :: 0 <= i < j < |ids| ==> ids[i] != ids[j])
    && (forall i, j :: 0 <= i < j < |ids| ==> photos[ids[i]].cachedDate <= photos[ids[j]].cachedDate)
  }

  /** `sorted { $0.value.cachedDate < $1.value.cachedDate }` on the index, by
      picking the oldest remaining entry each time (equal dates in no
      particular order). */
  method SortByDate(photos: map<string, CachedPhotoInfo>) returns (ids: seq<string>)
    ensures |ids| == |photos|
    ensures forall i :: 0 <= i < |ids| ==> ids[i] in photos
    ensures forall id :: id in photos ==> id in ids
    ensures forall i, j :: 0 <= i < j < |ids| ==> ids[i] != ids[j]
    ensures forall i, j :: 0 <= i < j < |ids| ==> photos[ids[i]].cachedDate <= photos[ids[j]].cachedDate
  {
    var remaining := photos.Keys;
    ids := [];
    while remaining != {}
      invariant |ids| + |remaining| == |photos|
      invariant PickedOldest(ids, remaining, photos)
      decreases |remaining|
    {
      OldestExists(photos, remaining);
      var m :| m in remaining && forall o :: o in remaining ==> photos[m].cachedDate <= photos[o].cachedDate;
      PickNext(ids, remaining, photos, m);
      ids := ids + [m];
      remaining := remaining - {m};
    }
  }

  /** Part way through `SortByDate`: `ids` holds the entries not
      `remaining`, once each, oldest first, none newer than a remaining
      one. */
  ghost predicate PickedOldest(ids: seq<string>, remaining: set<string>, photos: map<string, CachedPhotoInfo>) {
    && remaining <= photos.Keys
    && (forall i :: 0 <= i < |ids| ==> ids[i] in photos && ids[i] !in remaining)
    && (forall id :: id in photos ==> id in ids || id in remaining)
    && (forall i, j :: 0 <= i < j < |ids| ==> ids[i] != ids[j])
    && (forall i, j :: 0 <= i < j < |ids| ==> photos[ids[i]].cachedDate <= photos[ids[j]].cachedDate)
    && (forall i, o :: 0 <= i < |ids| && o in remaining ==> photos[ids[i]].cachedDate <= photos[o].cachedDate)
  }

  /** Taking an oldest remaining entry keeps the listing in order. */
  lemma PickNext(ids: seq<string>, remaining: set<string>, photos: map<string, CachedPhotoInfo>, m: string)
    requires PickedOldest(ids, remaining, photos)
    requires m in remaining && forall o :: o in remaining ==> photos[m].cachedDate <= photos[o].cachedDate
    ensures PickedOldest(ids + [m], remaining - {m}, photos)
  {
    var next := ids + [m];
    assert forall i :: 0 <= i < |ids| ==> next[i] == ids[i];
    assert next[|ids|] == m;
    forall i, j | 0 <= i < j < |next|
      ensures next[i] != next[j] && photos[next[i]].cachedDate <= photos[next[j]].cachedDate
    {
      if j < |ids| {
        assert next[i] == ids[i] && next[j] == ids[j];
      }
    }
  }

  /** The first `k` of a date-sorted listing are the `k` oldest: none of them
      is newer than any entry left out. */
  lemma OldestPrefix(ids: seq<string>, photos: map<string, CachedPhotoInfo>, k: nat)
    requires SortedByDate(ids, photos) && k <= |ids|
    ensures var first := set i | 0 <= i < k :: ids[i];
      && first <= photos.Keys && |first| == k
      && forall a, b :: a in first && b in photos && b !in first ==> photos[a].cachedDate <= photos[b].cachedDate
  {
    var first := set i | 0 <= i < k :: ids[i];
    forall a, b | a in first && b in photos && b !in first
      ensures photos[a].cachedDate <= photos[b].cachedDate
    {
      var i :| 0 <= i < k && ids[i] == a;
      var j :| 0 <= j < |ids| && ids[j] == b;
    }
    DistinctCount(ids, k);
  }

  /** `k` distinct elements make a set of `k`. */
  lemma {:induction false} DistinctCount(ids: seq<string>, k: nat)
    requires k <= |ids| && forall i, j :: 0 <= i < j < |ids| ==> ids[i] != ids[j]
    ensures |set i | 0 <= i < k :: ids[i]| == k
    decreases k
  {
    if k > 0 {
      DistinctCount(ids, k - 1);
      var s := set i | 0 <= i < k - 1 :: ids[i];
      assert (set i | 0 <= i < k :: ids[i]) == s + {ids[k - 1]};
      assert ids[k - 1] !in s;
    }
  }

  // ---------------------------------------------------------------------------
  // The cache

  class ImageCacheManager {
    var cachedPhotos: map<string, CachedPhotoInfo>
    var cachedImagesCount: int
    /** The cache directory: file name to attributes. */
    var disk: map<CacheFile, DiskFile>

    ghost predicate Valid()
      reads this
    {
      cachedImagesCount == |cachedPhotos| && Consistent(cachedPhotos, disk)
    }

    /** `init()`: the directory as found (`files`), whether it exists or could
        be created, and whether listing it fails; the index is rebuilt from
        the `.jpg` files. */
    constructor(files: map<CacheFile, DiskFile>, directoryAvailable: bool, listingFails: bool)
      ensures Valid()
      ensures disk == files
      ensures directoryAvailable && !listingFails ==> Rebuilt(cachedPhotos, map[], files)
      ensures !directoryAvailable || listingFails ==> cachedPhotos == map[]
    {
      cachedPhotos := map[];
      cachedImagesCount := 0;
      disk := files;
      new;
      LoadExistingCache(directoryAvailable, listingFails);
    }

    /** `getCachedPhotoInfo(for:)`. */
    function GetCachedPhotoInfo(photoId: string): (r: Option<CachedPhotoInfo>)
      reads this
      ensures r.Some? <==> photoId in cachedPhotos
      ensures r.Some? ==> r.value == cachedPhotos[photoId]
    {
      if photoId in cachedPhotos then Some(cachedPhotos[photoId]) else None
    }

    /** `updateCacheStats()`, its count part. */
    method UpdateCacheStats()
      modifies this`cachedImagesCount
      ensures cachedImagesCount == |cachedPhotos|
    {
      cachedImagesCount := |cachedPhotos|;
    }

    /** `getCacheSizeInBytes()`: the sum of the entries' sizes. */
    method GetCacheSizeInBytes() returns (total: int)
      ensures total == TotalSize(cachedPhotos)
      ensures total >= 0
    {
      var rest := cachedPhotos;
      total := 0;
      while rest != map[]
        invariant total >= 0
        invariant total + TotalSize(rest) == TotalSize(cachedPhotos)
        decreases |rest|
      {
        var k :| k in rest;
        TotalSizeRemove(rest, k);
        total := total + rest[k].size;
        assert |rest - {k}| < |rest| by { assert rest.Keys - {k} < rest.Keys; }
        rest := rest - {k};
      }
      TotalSizeNonNegative(cachedPhotos);
    }

    /** Removes a file of the directory, failing when it is absent or its
        removal fails. */
    method RemoveFile(f: CacheFile, faults: set<CacheFile>) returns (ok: bool)
      modifies this`disk
      ensures ok <==> f in old(disk) && f !in faults
      ensures disk == if ok then old(disk) - {f} else old(disk)
    {
      ok := f in disk && f !in faults;
      if ok {
        disk := disk - {f};
      }
    }

    /** `removePhoto(photoId:)`: an unknown id changes nothing; a known one
        loses its entry only when its file is removed. */
    method RemovePhoto(photoId: string, faults: set<CacheFile>)
      requires Valid()
      modifies this
      ensures Valid()
      ensures var removed := photoId in old(cachedPhotos) && FileName(photoId) !in faults;
        && cachedPhotos == (if removed then old(cachedPhotos) - {photoId} else old(cachedPhotos))
        && disk == (if removed then old(disk) - {FileName(photoId)} else old(disk))
    {
      if photoId !in cachedPhotos {
        return;
      }
      var info := cachedPhotos[photoId];
      ConsistentRemove(cachedPhotos, disk, photoId);
      var ok := RemoveFile(info.localURL, faults);
      if ok {
        cachedPhotos := cachedPhotos - {photoId};
        UpdateCacheStats();
      }
    }

    /** `clearCache()`: tries to remove every entry's file, ignoring
        failures, then empties the index. */
    method ClearCache(faults: set<CacheFile>)
      requires Valid()
      modifies this
      ensures Valid()
      ensures cachedPhotos == map[] && cachedImagesCount == 0 && TotalSize(cachedPhotos) == 0
      ensures disk == DiskWithout(old(disk), RemovedBy(old(cachedPhotos), old(cachedPhotos).Keys, faults))
    {
      var ids := cachedPhotos.Keys;
      ghost var done: set<string> := {};
      while ids != {}
        invariant ids <= cachedPhotos.Keys && done == cachedPhotos.Keys - ids
        invariant cachedPhotos == old(cachedPhotos)
        invariant disk == DiskWithout(old(disk), RemovedBy(cachedPhotos, done, faults))
        decreases |ids|
      {
        var id :| id in ids;
        StepRemoved(cachedPhotos, old(disk), done, id, faults);
        var removed := RemoveFile(cachedPhotos[id].localURL, faults);
        ids := ids - {id};
        done := done + {id};
      }
      cachedPhotos := map[];
      UpdateCacheStats();
    }

    /** `clearOldCache(olderThan:)`: the cutoff is `days` before now, as the
        calendar gives it (`cutoffFor`), or now when it gives nothing; every
        entry cached strictly before it is removed as `removePhoto` would. */
    method ClearOldCache(cutoffFor: int -> Option<int>, now: int, faults: set<CacheFile>, days: int := 7)
      requires Valid()
      modifies this
      ensures Valid()
      ensures var older := OlderThan(old(cachedPhotos), cutoffFor(days).GetOr(now));
        && cachedPhotos == old(cachedPhotos) - RemovedBy(old(cachedPhotos), older, faults)
        && disk == DiskWithout(old(disk), RemovedBy(old(cachedPhotos), older, faults))
    {
      var cutoff := cutoffFor(days).GetOr(now);
      var snapshot := cachedPhotos;
      var ids := snapshot.Keys;
      ghost var attempted: set<string> := {};
      NothingAttempted(snapshot, disk, faults);
      while ids != {}
        invariant SweptExcept(snapshot, ids, attempted, cutoff)
        invariant Valid()
        invariant cachedPhotos == snapshot - RemovedBy(snapshot, attempted, faults)
        invariant disk == DiskWithout(old(disk), RemovedBy(snapshot, attempted, faults))
        decreases |ids|
      {
        var id :| id in ids;
        SweepStep(snapshot, ids, attempted, cutoff, id);
        if snapshot[id].cachedDate < cutoff {
          AttemptRemoval(snapshot, old(disk), attempted, id, faults);
          attempted := attempted + {id};
        }
        ids := ids - {id};
      }
      SweepComplete(snapshot, attempted, cutoff);
    }

    /** `cachePhoto(_:)`. `urlParses` is whether `URL(string:)` accepts the
        photo's regular URL, `download` what the transfer delivered and
        `writeError` whether writing the file fails. */
    method CachePhoto(photo: Photo, urlParses: bool, download: Result<seq<bv8>, string>,
                      writeError: Option<string>, now: int)
      returns (r: Result<Unit, CacheFailure>)
      requires Valid()
      modifies this
      ensures Valid()
      ensures !urlParses ==> r == Failure(CacheError(InvalidURL)) && unchanged(this)
      ensures urlParses && FileName(photo.id) in old(disk) ==>
        && r == Success(Unit) && disk == old(disk)
        && cachedPhotos == if photo.id in old(cachedPhotos) then old(cachedPhotos)
             else old(cachedPhotos)[photo.id := CachedPhotoInfo(photo, FileName(photo.id), now, old(disk)[FileName(photo.id)].size)]
      ensures urlParses && FileName(photo.id) !in old(disk) && download.Failure? ==>
        r == Failure(Passed(download.error)) && unchanged(this)
      ensures urlParses && FileName(photo.id) !in old(disk) && download.Success? && writeError.Some? ==>
        r == Failure(Passed(writeError.value)) && unchanged(this)
      ensures urlParses && FileName(photo.id) !in old(disk) && download.Success? && writeError.None? ==>
        && r == Success(Unit)
        && disk == old(disk)[FileName(photo.id) := DiskFile(|download.value|, now)]
        && cachedPhotos == old(cachedPhotos)[photo.id := CachedPhotoInfo(photo, FileName(photo.id), now, |download.value|)]
      ensures r.Success? ==> photo.id in cachedPhotos && FileName(photo.id) in disk
    {
      if !urlParses {
        return Failure(CacheError(InvalidURL));
      }
      var fileName := FileName(photo.id);
      if fileName in disk {
        if photo.id !in cachedPhotos {
          cachedPhotos := cachedPhotos[photo.id := CachedPhotoInfo(photo, fileName, now, disk[fileName].size)];
          UpdateCacheStats();
        }
        return Success(Unit);
      }
      if download.Failure? {
        return Failure(Passed(download.error));
      }
      var data := download.value;
      if writeError.Some? {
        return Failure(Passed(writeError.value));
      }
      disk := disk[fileName := DiskFile(|data|, now)];
      cachedPhotos := cachedPhotos[photo.id := CachedPhotoInfo(photo, fileName, now, |data|)];
      UpdateCacheStats();
      return Success(Unit);
    }

    /** `loadExistingCache()`: one entry per `.jpg` file, keyed by the name
        without its extension, with a dummy photo and the file's size and
        creation date. Nothing changes when the directory is missing or
        cannot be listed. */
    method LoadExistingCache(directoryAvailable: bool, listingFails: bool)
      requires Valid()
      modifies this`cachedPhotos, this`cachedImagesCount
      ensures Valid()
      ensures directoryAvailable && !listingFails ==> Rebuilt(cachedPhotos, old(cachedPhotos), disk)
      ensures !directoryAvailable || listingFails ==>
        cachedPhotos == old(cachedPhotos) && cachedImagesCount == old(cachedImagesCount)
    {
      if !directoryAvailable || listingFails {
        return;
      }
      var files := disk.Keys;
      while files != {}
        invariant files <= disk.Keys
        invariant ScannedExcept(cachedPhotos, old(cachedPhotos), disk, files)
        decreases |files|
      {
        var f :| f in files;
        ScanStep(cachedPhotos, old(cachedPhotos), disk, files, f);
        if IsJpg(f) {
          var id := f.id;
          cachedPhotos := cachedPhotos[id := CachedPhotoInfo(DummyPhoto(id), f, disk[f].created, disk[f].size)];
        }
        files := files - {f};
      }
      ScanComplete(cachedPhotos, old(cachedPhotos), disk);
      UpdateCacheStats();
    }

    /** One removal of a loop over ids: `done` are the ids attempted so far
        from the index `p0` and the directory `d0`. */
    method AttemptRemoval(ghost p0: map<string, CachedPhotoInfo>, ghost d0: map<CacheFile, DiskFile>,
                          ghost done: set<string>, id: string, faults: set<CacheFile>)
      requires Valid() && id !in done
      requires cachedPhotos == p0 - RemovedBy(p0, done, faults)
      requires disk == DiskWithout(d0, RemovedBy(p0, done, faults))
      modifies this
      ensures Valid()
      ensures cachedPhotos == p0 - RemovedBy(p0, done + {id}, faults)
      ensures disk == DiskWithout(d0, RemovedBy(p0, done + {id}, faults))
    {
      StepRemoved(p0, d0, done, id, faults);
      RemovePhoto(id, faults);
    }

    /** `for id in toRemove { removePhoto(id) }`: each listed photo is
        dropped with its file, except those whose file cannot be removed.
        `attempted` is the set of listed ids. */
    method RemoveEach(toRemove: seq<string>, faults: set<CacheFile>) returns (ghost attempted: set<string>)
      requires Valid()
      requires forall i, j :: 0 <= i < j < |toRemove| ==> toRemove[i] != toRemove[j]
      modifies this
      ensures Valid()
      ensures attempted == set j | 0 <= j < |toRemove| :: toRemove[j]
      ensures cachedPhotos == old(cachedPhotos) - RemovedBy(old(cachedPhotos), attempted, faults)
      ensures disk == DiskWithout(old(disk), RemovedBy(old(cachedPhotos), attempted, faults))
    {
      ghost var before := cachedPhotos;
      attempted := {};
      NothingAttempted(before, disk, faults);
      var i := 0;
      while i < |toRemove|
        invariant 0 <= i <= |toRemove|
        invariant attempted == set j | 0 <= j < i :: toRemove[j]
        invariant Valid()
        invariant cachedPhotos == before - RemovedBy(before, attempted, faults)
        invariant disk == DiskWithout(old(disk), RemovedBy(before, attempted, faults))
        decreases |toRemove| - i
      {
        AttemptedStep(toRemove, i);
        AttemptRemoval(before, old(disk), attempted, toRemove[i], faults);
        attempted := attempted + {toRemove[i]};
        i := i + 1;
      }
    }

    /** `handleMemoryWarning()`: the one-day age pass, then, only when the
        total still exceeds 50 MiB, removal of the older half of the entries
        (`n / 2` of `n`). `aged` is the index after the age pass and
        `attempted` the ids whose removal the second step tries. */
    method HandleMemoryWarning(cutoffFor: int -> Option<int>, now: int, faults: set<CacheFile>)
      returns (ghost aged: map<string, CachedPhotoInfo>, ghost attempted: set<string>)
      requires Valid()
      modifies this
      ensures Valid()
      ensures aged == old(cachedPhotos) - RemovedBy(old(cachedPhotos), OlderThan(old(cachedPhotos), cutoffFor(1).GetOr(now)), faults)
      ensures TotalSize(aged) <= MemoryWarningLimit ==> attempted == {}
      ensures TotalSize(aged) > MemoryWarningLimit ==>
        attempted <= aged.Keys && |attempted| == |aged| / 2 && OldestFirst(attempted, aged)
      ensures cachedPhotos == aged - RemovedBy(aged, attempted, faults)
      ensures disk == DiskWithout(DiskWithout(old(disk), RemovedBy(old(cachedPhotos), OlderThan(old(cachedPhotos), cutoffFor(1).GetOr(now)), faults)),
                                  RemovedBy(aged, attempted, faults))
      ensures NoNewerRemoved(old(cachedPhotos), cachedPhotos, faults)
    {
      ClearOldCache(cutoffFor, now, faults, 1);
      aged := cachedPhotos;
      var total := GetCacheSizeInBytes();
      if total > MemoryWarningLimit {
        attempted := EvictOlderHalf(faults);
      } else {
        attempted := {};
        NothingAttempted(aged, disk, faults);
      }
      NoNewerEvicted(old(cachedPhotos), aged, cachedPhotos, cutoffFor(1).GetOr(now), attempted, faults);
    }

    /** The second step of a memory warning: the entries sorted by date and
        the first half of them (`n / 2` of `n`) removed. */
    method EvictOlderHalf(faults: set<CacheFile>) returns (ghost attempted: set<string>)
      requires Valid()
      modifies this
      ensures Valid()
      ensures attempted <= old(cachedPhotos).Keys && |attempted| == |old(cachedPhotos)| / 2
      ensures OldestFirst(attempted, old(cachedPhotos))
      ensures cachedPhotos == old(cachedPhotos) - RemovedBy(old(cachedPhotos), attempted, faults)
      ensures disk == DiskWithout(old(disk), RemovedBy(old(cachedPhotos), attempted, faults))
    {
      var sorted := SortByDate(cachedPhotos);
      var half := |sorted| / 2;
      var toRemove := sorted[..half];
      OldestHalf(sorted, cachedPhotos, toRemove);
      attempted := RemoveEach(toRemove, faults);
    }
  }

  /** The first half of a date-sorted listing holds distinct ids, exactly
      half of the index, none newer than any id left out. */
  lemma OldestHalf(sorted: seq<string>, photos: map<string, CachedPhotoInfo>, toRemove: seq<string>)
    requires SortedByDate(sorted, photos) && toRemove == sorted[..|sorted| / 2]
    ensures forall i, j :: 0 <= i < j < |toRemove| ==> toRemove[i] != toRemove[j]
    ensures var first := set j | 0 <= j < |toRemove| :: toRemove[j];
      && first <= photos.Keys && |first| == |photos| / 2
      && OldestFirst(first, photos)
  {
    var half := |sorted| / 2;
    OldestPrefix(sorted, photos, half);
    assert forall j :: 0 <= j < half ==> toRemove[j] == sorted[j];
    assert (set j | 0 <= j < |toRemove| :: toRemove[j]) == set j | 0 <= j < half :: sorted[j];
  }

  /** Attempting no removal removes nothing and keeps the oldest-first order
      trivially. */
  lemma NothingAttempted(photos: map<string, CachedPhotoInfo>, disk: map<CacheFile, DiskFile>, faults: set<CacheFile>)
    ensures photos - RemovedBy(photos, {}, faults) == photos
    ensures DiskWithout(disk, RemovedBy(photos, {}, faults)) == disk
    ensures OldestFirst({}, photos)
  {
    assert RemovedBy(photos, {}, faults) == {};
  }

  /** The two passes of a memory warning never remove a photo newer than one
      whose file they could have removed but kept. */
  lemma NoNewerEvicted(before: map<string, CachedPhotoInfo>, aged: map<string, CachedPhotoInfo>,
                       after: map<string, CachedPhotoInfo>, cutoff: int, attempted: set<string>, faults: set<CacheFile>)
    requires aged == before - RemovedBy(before, OlderThan(before, cutoff), faults)
    requires after == aged - RemovedBy(aged, attempted, faults)
    requires OldestFirst(attempted, aged)
    ensures NoNewerRemoved(before, after, faults)
  {
    forall a, b | a in before && a !in after && b in after && FileName(b) !in faults
      ensures before[a].cachedDate <= after[b].cachedDate
    {
      assert b in aged && b !in attempted && b !in OlderThan(before, cutoff);
      if a in aged {
        assert a in attempted;
      }
    }
  }

  /** Part way through an age pass over `photos`: the ids no longer in
      `ids` have been looked at, and those older than the cutoff are the
      ones attempted. */
  ghost predicate SweptExcept(photos: map<string, CachedPhotoInfo>, ids: set<string>, attempted: set<string>, cutoff: int) {
    && ids <= photos.Keys
    && (forall x :: x in attempted ==> x in photos && x !in ids)
    && (forall x :: x in photos && x !in ids ==> (x in attempted <==> photos[x].cachedDate < cutoff))
  }

  /** Looking at one more id keeps the age pass in step. */
  lemma SweepStep(photos: map<string, CachedPhotoInfo>, ids: set<string>, attempted: set<string>, cutoff: int, id: string)
    requires SweptExcept(photos, ids, attempted, cutoff) && id in ids
    ensures id in photos && id !in attempted
    ensures photos[id].cachedDate < cutoff ==> SweptExcept(photos, ids - {id}, attempted + {id}, cutoff)
    ensures photos[id].cachedDate >= cutoff ==> SweptExcept(photos, ids - {id}, attempted, cutoff)
  {
  }

  /** A finished age pass has attempted exactly the older entries. */
  lemma SweepComplete(photos: map<string, CachedPhotoInfo>, attempted: set<string>, cutoff: int)
    requires SweptExcept(photos, {}, attempted, cutoff)
    ensures attempted == OlderThan(photos, cutoff)
  {
  }

  /** An age pass keeps every entry at or after the cutoff, unchanged, and
      whatever it drops was older than the cutoff. */
  lemma AgePassKeepsNewer(photos: map<string, CachedPhotoInfo>, cutoff: int, faults: set<CacheFile>)
    ensures var kept := photos - RemovedBy(photos, OlderThan(photos, cutoff), faults);
      && (forall id :: id in photos && photos[id].cachedDate >= cutoff ==> id in kept && kept[id] == photos[id])
      && (forall id :: id in photos && id !in kept ==> photos[id].cachedDate < cutoff)
  {
  }

  /** Going one id further through distinct ids attempts one new id. */
  lemma AttemptedStep(ids: seq<string>, i: nat)
    requires forall a, b :: 0 <= a < b < |ids| ==> ids[a] != ids[b]
    requires i < |ids|
    ensures ids[i] !in (set j | 0 <= j < i :: ids[j])
    ensures (set j | 0 <= j < i + 1 :: ids[j]) == (set j | 0 <= j < i :: ids[j]) + {ids[i]}
  {
  }

  /** Dropping an entry together with its file keeps index and directory
      consistent. */
  lemma ConsistentRemove(photos: map<string, CachedPhotoInfo>, disk: map<CacheFile, DiskFile>, id: string)
    requires Consistent(photos, disk)
    ensures Consistent(photos - {id}, disk - {FileName(id)})
  {
  }

  /** Attempting one more id removes its entry and its file exactly when the
      entry is there and its file's removal does not fail. */
  lemma StepRemoved(p0: map<string, CachedPhotoInfo>, d0: map<CacheFile, DiskFile>, done: set<string>, id: string, faults: set<CacheFile>)
    requires id !in done
    ensures id in p0 - RemovedBy(p0, done, faults) <==> id in p0
    ensures FileName(id) in DiskWithout(d0, RemovedBy(p0, done, faults)) <==> FileName(id) in d0
    ensures var r := id in p0 && FileName(id) !in faults;
      && p0 - RemovedBy(p0, done + {id}, faults)
         == (if r then (p0 - RemovedBy(p0, done, faults)) - {id} else p0 - RemovedBy(p0, done, faults))
      && DiskWithout(d0, RemovedBy(p0, done + {id}, faults))
         == (if r then DiskWithout(d0, RemovedBy(p0, done, faults)) - {FileName(id)} else DiskWithout(d0, RemovedBy(p0, done, faults)))
  {
    RemovedByAdd(p0, done, id, faults);
  }

  /** One more attempted id adds its file to those removed when the removal
      succeeds. */
  lemma RemovedByAdd(photos: map<string, CachedPhotoInfo>, done: set<string>, id: string, faults: set<CacheFile>)
    ensures RemovedBy(photos, done + {id}, faults)
         == RemovedBy(photos, done, faults) + (if id in photos && FileName(id) !in faults then {id} else {})
  {
  }
}
