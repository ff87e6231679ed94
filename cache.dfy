/**
 * `AppwriteModelLoader` (com/razorquake/dna/data/AppwriteModelLoader.kt): a
 * cache directory of downloaded model files with an age sweep in front of it.
 * The clock, the remote storage answer and the outcome of the file copy are
 * parameters of each call.
 */
module ModelCache {
  import opened Base

  type Byte = bv8

  /** A file of the cache directory. */
  datatype CacheEntry = CacheEntry(lastModified: int, bytes: seq<Byte>)

  /** The cache directory: file name to file. */
  type CacheDir = map<string, CacheEntry>

  /** What `storage.getFileDownload(bucketId, fileId)` answers: the file's bytes, or an exception. */
  datatype Fetch = Fetched(body: seq<Byte>) | FetchFailed

  /** How copying the bytes into the cache file ends: completely, failing to open, or failing after `written` bytes. */
  datatype Copy = Copied | OpenFailed | CopyFailedAfter(written: nat)

  /** The effect of one `downloadModel` call: new directory, returned file, whether remote storage was asked. */
  datatype Download = Download(dir: CacheDir, file: Option<string>, fetched: bool)

  /** `MAX_CACHE_AGE_HOURS` */
  const MaxCacheAgeHours: int := 24

  /** `thresholdTime` at a clock reading of `now` milliseconds. */
  function ThresholdTime(now: int): int {
    now - MaxCacheAgeHours * 60 * 60 * 1000
  }

  /** The retention window is one day in milliseconds. */
  lemma ThresholdIsOneDay(now: int)
    ensures ThresholdTime(now) == now - 86_400_000
    ensures ThresholdTime(now) < now
  {
  }

  /** The directory `cleanOldCacheFiles` leaves: every file modified before the threshold removed. */
  function Swept(dir: CacheDir, now: int): CacheDir {
    map f | f in dir && dir[f].lastModified >= ThresholdTime(now) :: dir[f]
  }

  /** The sweep deletes exactly the files strictly older than the threshold and touches no other file. */
  lemma SweepDeletesExactlyStaleFiles(dir: CacheDir, now: int, f: string)
    ensures f in Swept(dir, now) <==> f in dir && dir[f].lastModified >= ThresholdTime(now)
    ensures f in Swept(dir, now) ==> Swept(dir, now)[f] == dir[f]
  {
  }

  /** Sweeping twice at the same time is sweeping once. */
  lemma SweepIsIdempotent(dir: CacheDir, now: int)
    ensures Swept(Swept(dir, now), now) == Swept(dir, now)
  {
  }

  /** `downloadModel(fileName)` at time `now`, all exceptions turned into a null result. */
  function DownloadSpec(dir: CacheDir, fileName: string, now: int, fetch: Fetch, copy: Copy): Download {
    var swept := Swept(dir, now);
    if fileName in swept then
      Download(swept, Some(fileName), false)
    else
      match fetch
      case FetchFailed => Download(swept, None, true)
      case Fetched(body) =>
        match copy
        case Copied => Download(swept[fileName := CacheEntry(now, body)], Some(fileName), true)
        case OpenFailed => Download(swept, None, true)
        case CopyFailedAfter(n) => Download(swept[fileName := CacheEntry(now, body[..Min(n, |body|)])], None, true)
  }

  /** A file still present after the sweep is returned as it is, without asking remote storage. */
  lemma CacheHitMakesNoFetch(dir: CacheDir, fileName: string, now: int, fetch: Fetch, copy: Copy)
    requires fileName in dir && dir[fileName].lastModified >= ThresholdTime(now)
    ensures DownloadSpec(dir, fileName, now, fetch, copy) == Download(Swept(dir, now), Some(fileName), false)
  {
  }

  /**
   * On a miss remote storage is asked once; the file is returned exactly when
   * both the fetch and the copy succeed, and then holds the fetched bytes.
   */
  lemma CacheMissFetchesOnce(dir: CacheDir, fileName: string, now: int, fetch: Fetch, copy: Copy)
    requires fileName !in Swept(dir, now)
    ensures var d := DownloadSpec(dir, fileName, now, fetch, copy);
      && d.fetched
      && (d.file.Some? <==> fetch.Fetched? && copy.Copied?)
      && (d.file.Some? ==> d.file == Some(fileName) && d.dir == Swept(dir, now)[fileName := CacheEntry(now, fetch.body)])
      && (fetch.FetchFailed? || copy.OpenFailed? ==> d.dir == Swept(dir, now))
  {
  }

  /** A stale copy of the requested file is swept away first and therefore fetched again. */
  lemma StaleFileIsFetchedAgain(dir: CacheDir, fileName: string, now: int, fetch: Fetch, copy: Copy)
    requires fileName in dir && dir[fileName].lastModified < ThresholdTime(now)
    ensures DownloadSpec(dir, fileName, now, fetch, copy).fetched
  {
    SweepDeletesExactlyStaleFiles(dir, now, fileName);
  }

  /** Whatever happens, files other than the requested one are exactly those the sweep keeps. */
  lemma DownloadTouchesOnlyItsFile(dir: CacheDir, fileName: string, now: int, fetch: Fetch, copy: Copy, other: string)
    requires other != fileName
    ensures var d := DownloadSpec(dir, fileName, now, fetch, copy);
      (other in d.dir <==> other in Swept(dir, now)) && (other in d.dir ==> d.dir[other] == dir[other])
  {
  }

  /**
   * After a call that returns the file, a second call for the same name makes
   * no fetch as long as the file has not aged out; a freshly downloaded file
   * stays for a whole day.
   */
  lemma SecondDownloadMakesNoFetch(dir: CacheDir, fileName: string, now: int, fetch: Fetch, copy: Copy,
                                   now2: int, fetch2: Fetch, copy2: Copy)
    requires DownloadSpec(dir, fileName, now, fetch, copy).file.Some?
    ensures var d := DownloadSpec(dir, fileName, now, fetch, copy);
      && fileName in d.dir
      && (d.fetched ==> d.dir[fileName].lastModified == now)
      && (d.dir[fileName].lastModified >= ThresholdTime(now2) ==>
            DownloadSpec(d.dir, fileName, now2, fetch2, copy2) == Download(Swept(d.dir, now2), Some(fileName), false))
  {
  }

  /**
   * A copy that fails part-way leaves a truncated file behind, and the next call
   * within the day returns that truncated file without fetching again.
   */
  lemma PartialFileIsServedLater(dir: CacheDir, fileName: string, now: int, body: seq<Byte>, n: nat,
                                 now2: int, fetch2: Fetch, copy2: Copy)
    requires fileName !in Swept(dir, now)
    requires now <= now2 <= now + 86_400_000
    ensures var d := DownloadSpec(dir, fileName, now, Fetched(body), CopyFailedAfter(n));
      && d.file == None
      && d.dir[fileName] == CacheEntry(now, body[..Min(n, |body|)])
      && DownloadSpec(d.dir, fileName, now2, fetch2, copy2).file == Some(fileName)
      && !DownloadSpec(d.dir, fileName, now2, fetch2, copy2).fetched
  {
  }

  /**
   * Letter "A": with an empty cache the first download of "apple.glb" asks
   * remote storage once and returns the file; a second one within the day asks
   * nothing and returns the same file.
   */
  lemma AppleIsFetchedOnce(now: int, body: seq<Byte>, later: int, fetch2: Fetch, copy2: Copy)
    requires now <= later <= now + 86_400_000
    ensures var d1 := DownloadSpec(map[], "apple.glb", now, Fetched(body), Copied);
      && d1 == Download(map["apple.glb" := CacheEntry(now, body)], Some("apple.glb"), true)
      && DownloadSpec(d1.dir, "apple.glb", later, fetch2, copy2) == Download(d1.dir, Some("apple.glb"), false)
  {
    var d1 := DownloadSpec(map[], "apple.glb", now, Fetched(body), Copied);
    assert Swept(map[], now) == map[];
    assert Swept(d1.dir, later) == d1.dir;
  }

  /** The loader: its cache directory and the log of requests it sent to remote storage. */
  class AppwriteModelLoader {
    /** `BuildConfig.BUCKET_ID` */
    const bucketId: string
    var cacheDir: CacheDir
    /** Every `getFileDownload(bucketId, fileId)` request made so far. */
    var requests: seq<(string, string)>

    constructor (bucketId: string, cacheDir: CacheDir)
      ensures this.bucketId == bucketId && this.cacheDir == cacheDir && requests == []
    {
      this.bucketId := bucketId;
      this.cacheDir := cacheDir;
      requests := [];
    }

    /** `cleanOldCacheFiles()`: visit every listed file and delete those modified before the threshold. */
    method CleanOldCacheFiles(now: int)
      modifies this`cacheDir
      ensures cacheDir == Swept(old(cacheDir), now)
    {
      var thresholdTime := ThresholdTime(now);
      var files := cacheDir.Keys;
      while files != {}
        invariant files <= old(cacheDir).Keys
        invariant forall f :: f in cacheDir <==>
          f in old(cacheDir) && (f in files || old(cacheDir)[f].lastModified >= thresholdTime)
        invariant forall f :: f in cacheDir ==> cacheDir[f] == old(cacheDir)[f]
        decreases files
      {
        var file :| file in files;
        if cacheDir[file].lastModified < thresholdTime {
          cacheDir := cacheDir - {file};
        }
        files := files - {file};
      }
      assert cacheDir.Keys == Swept(old(cacheDir), now).Keys;
    }

    /**
     * `downloadModel(fileName)`: sweep, return the cached file when present,
     * otherwise fetch it once and copy the bytes into the cache; any exception
     * yields null.
     */
    method DownloadModel(fileName: string, now: int, fetch: Fetch, copy: Copy) returns (file: Option<string>)
      modifies this`cacheDir, this`requests
      ensures var d := DownloadSpec(old(cacheDir), fileName, now, fetch, copy);
        && cacheDir == d.dir
        && file == d.file
        && requests == old(requests) + (if d.fetched then [(bucketId, fileName)] else [])
    {
      CleanOldCacheFiles(now);
      if fileName in cacheDir {
        return Some(fileName);
      }
      requests := requests + [(bucketId, fileName)];
      match fetch {
        case FetchFailed =>
          file := None;
        case Fetched(body) =>
          match copy {
            case Copied =>
              cacheDir := cacheDir[fileName := CacheEntry(now, body)];
              file := Some(fileName);
            case OpenFailed =>
              file := None;
            case CopyFailedAfter(n) =>
              cacheDir := cacheDir[fileName := CacheEntry(now, body[..Min(n, |body|)])];
              file := None;
          }
      }
    }
  }
}
