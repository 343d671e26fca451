/**
 * The media directory scan: which listed files are considered, how each new
 * file is classified as a duplicate, a move or a new media, and which known
 * medias are marked missing.
 *
 * Hashing, `stat` and `ffprobe` are given as the functions of a `MediaIo`
 * value, applied to the path relative to the media directory.
 */
module Scan {
  import opened Wrappers
  import Constants

  type Hash = seq<bv8>

  /** A media row as the scan reads it; `present` is the `exists` column. */
  datatype DbMedia = DbMedia(path: string, sha1: Hash, present: bool)

  /** A listed file that passed the filters, with its lower-cased extension. */
  datatype ValidFile = ValidFile(path: string, ext: string)

  /** What `stat` and `ffprobe` report for a file. */
  datatype FileMetadata = FileMetadata(size: nat, width: Option<int>, height: Option<int>, formatDuration: Option<real>)

  /** A media to be created. */
  datatype MediaData = MediaData(path: string, size: nat, sha1: Hash, present: bool,
                                 width: Option<int>, height: Option<int>, duration: Option<real>)

  datatype Moved = Moved(sha1: Hash, oldPath: string, newPath: string)

  datatype Duplicate = Duplicate(path1: string, path2: string)

  /**
   * The file system and media probing: `sha1` is None when reading the file
   * fails (the read stream's error rejects `computeSha1`), `metadata` is None
   * when `stat` or `ffprobe` fails.
   */
  datatype MediaIo = MediaIo(sha1: string -> Option<Hash>, metadata: string -> Option<FileMetadata>)

  /** The comma-separated lists of excluded files and folders from the environment, already split. */
  datatype ScanConfig = ScanConfig(excludedFiles: seq<string>, excludedFolders: seq<string>)

  // ---------------------------------------------------------------------------
  // Hash comparison
  // ---------------------------------------------------------------------------

  /** `compareHashes`: element-wise comparison with an early exit. */
  method CompareHashes(a: Hash, b: Hash) returns (same: bool)
    ensures same <==> a == b
    ensures |a| != |b| ==> !same
  {
    if |a| != |b| {
      return false;
    }
    for i := 0 to |a|
      invariant a[..i] == b[..i]
    {
      if a[i] != b[i] {
        return false;
      }
      assert a[..i + 1] == a[..i] + [a[i]];
      assert b[..i + 1] == b[..i] + [b[i]];
    }
    assert a == a[..|a|] && b == b[..|b|];
    return true;
  }

  // ---------------------------------------------------------------------------
  // The file filter
  // ---------------------------------------------------------------------------

  /** The index of the last occurrence of c in s, or -1. */
  function LastIndex(s: string, c: char): (r: int)
    ensures -1 <= r < |s|
    ensures r >= 0 ==> s[r] == c && forall j | r < j < |s| :: s[j] != c
    ensures r == -1 ==> forall j | 0 <= j < |s| :: s[j] != c
  {
    if s == [] then -1
    else if s[|s| - 1] == c then |s| - 1
    else LastIndex(s[..|s| - 1], c)
  }

  /**
   * The extension of a path, as POSIX `path.extname` gives it: from the last
   * dot of its last '/'-separated segment on, or empty when that segment has
   * no dot or only a leading one.
   */
  function ExtName(p: string): (ext: string)
    ensures ext == [] || ext[0] == '.'
    ensures '/' !in ext
    ensures |ext| <= |p| && ext == p[|p| - |ext|..]
    ensures ext != [] ==> '.' !in ext[1..] && |ext| < |p| && p[|p| - |ext| - 1] != '/'
  {
    var base := p[LastIndex(p, '/') + 1..];
    var dot := LastIndex(base, '.');
    if dot <= 0 then [] else base[dot..]
  }

  /** A dot of the last segment that is not the segment's first character. */
  predicate ExtensionDot(p: string, j: int) {
    0 < j < |p| && p[j] == '.' && p[j - 1] != '/' && forall k | j <= k < |p| :: p[k] != '/'
  }

  /** A path has an extension exactly when its last segment has a dot after its first character. */
  lemma ExtNameNonEmpty(p: string)
    ensures ExtName(p) != [] <==> exists j :: ExtensionDot(p, j)
  {
    var ext := ExtName(p);
    if ext != [] {
      assert ExtensionDot(p, |p| - |ext|);
    }
    if j :| ExtensionDot(p, j) {
      var slash := LastIndex(p, '/');
      assert slash < j;
      var base := p[slash + 1..];
      assert base[j - slash - 1] == '.';
      var dot := LastIndex(base, '.');
      assert dot >= j - slash - 1;
    }
  }

  function AsciiLower(s: string): (r: string)
    ensures |r| == |s|
    ensures forall i | 0 <= i < |s| :: r[i] == if 'A' <= s[i] <= 'Z' then (s[i] as int + 32) as char else s[i]
  {
    seq(|s|, i requires 0 <= i < |s| => if 'A' <= s[i] <= 'Z' then (s[i] as int + 32) as char else s[i])
  }

  /** The paths already recorded in the database. */
  function KnownPaths(db: seq<DbMedia>): (known: set<string>)
    ensures forall i | 0 <= i < |db| :: db[i].path in known
    ensures forall p | p in known :: exists i | 0 <= i < |db| :: db[i].path == p
  {
    set i | 0 <= i < |db| :: db[i].path
  }

  /** The first filter: not an excluded file, not under an excluded folder, not a known path. */
  predicate Considered(file: string, config: ScanConfig, known: set<string>): (ok: bool)
    ensures ok ==> file !in config.excludedFiles && file !in known
    ensures "" in config.excludedFolders ==> !ok
  {
    && file !in config.excludedFiles
    && !(exists folder | folder in config.excludedFolders :: folder <= file)
    && file !in known
  }

  /** The second filter: the lower-cased extension is a valid one. */
  predicate HasValidExtension(file: string): (ok: bool)
    ensures ok ==> ExtName(file) != [] && '.' in file
  {
    AsciiLower(ExtName(file)) in Constants.ValidExtensions
  }

  /** The `validFiles` chain: filter, map to `{ path, ext }`, filter on the extension. */
  function ValidFiles(files: seq<string>, config: ScanConfig, known: set<string>): (valid: seq<ValidFile>)
    ensures forall v | v in valid :: v.path in files && v.ext == AsciiLower(ExtName(v.path))
    ensures forall v | v in valid :: Considered(v.path, config, known) && HasValidExtension(v.path)
    ensures forall f | f in files && Considered(f, config, known) && HasValidExtension(f) ::
              ValidFile(f, AsciiLower(ExtName(f))) in valid
    ensures |valid| <= |files|
  {
    if files == [] then []
    else
      var init, f := files[..|files| - 1], files[|files| - 1];
      ValidFiles(init, config, known)
      + (if Considered(f, config, known) && HasValidExtension(f) then [ValidFile(f, AsciiLower(ExtName(f)))] else [])
  }

  // ---------------------------------------------------------------------------
  // Classification of the valid files
  // ---------------------------------------------------------------------------

  datatype ScanLists = ScanLists(moved: seq<Moved>, newMedias: seq<MediaData>, duplicates: seq<Duplicate>)

  /** The hashes of the new medias, in order. */
  function NewHashes(news: seq<MediaData>): (hs: seq<Hash>)
    ensures |hs| == |news| && forall k | 0 <= k < |news| :: hs[k] == news[k].sha1
  {
    seq(|news|, k requires 0 <= k < |news| => news[k].sha1)
  }

  /** The hashes of the database medias, in order. */
  function DbHashes(db: seq<DbMedia>): (hs: seq<Hash>)
    ensures |hs| == |db| && forall k | 0 <= k < |db| :: hs[k] == db[k].sha1
  {
    seq(|db|, k requires 0 <= k < |db| => db[k].sha1)
  }

  /** The index of the first hash equal to h, searched from the front. */
  function FirstWithHash(hashes: seq<Hash>, h: Hash): (r: Option<nat>)
    ensures r.Some? ==> r.value < |hashes| && hashes[r.value] == h
                        && forall k | 0 <= k < r.value :: hashes[k] != h
    ensures r.None? ==> forall k | 0 <= k < |hashes| :: hashes[k] != h
  {
    if hashes == [] then None
    else if hashes[0] == h then Some(0)
    else match FirstWithHash(hashes[1..], h)
      case None => None
      case Some(k) => Some(k + 1)
  }

  /** The media created for a new file; only videos keep the probed duration, images get 0. */
  function NewMedia(file: ValidFile, h: Hash, md: FileMetadata): (m: MediaData)
    ensures m.path == file.path && m.sha1 == h && m.present && m.size == md.size
    ensures m.width == md.width && m.height == md.height
    ensures file.ext !in Constants.VideoExtensions ==> m.duration == Some(0.0)
  {
    MediaData(file.path, md.size, h, true, md.width, md.height,
              if file.ext in Constants.VideoExtensions then md.formatDuration else Some(0.0))
  }

  /**
   * One iteration of `fileIter`; None when hashing or probing the file fails,
   * which aborts the scan. Otherwise the three lists only grow at their ends.
   */
  function Step(s: ScanLists, file: ValidFile, db: seq<DbMedia>, io: MediaIo): (r: Option<ScanLists>)
    ensures io.sha1(file.path).None? ==> r.None?
    ensures r.None? ==> io.sha1(file.path).None? || io.metadata(file.path).None?
    ensures r.Some? ==> s.moved <= r.value.moved && s.newMedias <= r.value.newMedias
                        && s.duplicates <= r.value.duplicates
  {
    match io.sha1(file.path)
    case None => None
    case Some(h) =>
      match FirstWithHash(NewHashes(s.newMedias), h)
      case Some(j) => Some(s.(duplicates := s.duplicates + [Duplicate(s.newMedias[j].path, file.path)]))
      case None =>
        match FirstWithHash(DbHashes(db), h)
        case Some(d) =>
          if db[d].path != file.path then Some(s.(moved := s.moved + [Moved(h, db[d].path, file.path)]))
          else Some(s)
        case None =>
          match io.metadata(file.path)
          case None => None
          case Some(md) => Some(s.(newMedias := s.newMedias + [NewMedia(file, h, md)]))
  }

  /** Whether hashing or probing this file fails. */
  predicate Unreadable(file: ValidFile, io: MediaIo) {
    io.sha1(file.path).None? || io.metadata(file.path).None?
  }

  /**
   * The three lists after the loop has processed the given files in order;
   * the scan aborts only on a file that cannot be hashed or probed.
   */
  function Classify(files: seq<ValidFile>, db: seq<DbMedia>, io: MediaIo): (r: Option<ScanLists>)
    ensures files == [] ==> r == Some(ScanLists([], [], []))
    ensures r.None? ==> exists i | 0 <= i < |files| :: Unreadable(files[i], io)
  {
    if files == [] then Some(ScanLists([], [], []))
    else match Classify(files[..|files| - 1], db, io)
      case None => None
      case Some(s) => Step(s, files[|files| - 1], db, io)
  }

  /**
   * The two inner searches of `fileIter`, over the new medias and over the
   * database medias: the first whose hash compares equal.
   */
  method FindWithHash(hashes: seq<Hash>, sha1: Hash) returns (found: Option<nat>)
    ensures found == FirstWithHash(hashes, sha1)
  {
    for j := 0 to |hashes|
      invariant forall k | 0 <= k < j :: hashes[k] != sha1
    {
      var same := CompareHashes(hashes[j], sha1);
      if same {
        FirstIs(hashes, sha1, j);
        return Some(j);
      }
    }
    return None;
  }

  lemma FirstIs(hashes: seq<Hash>, h: Hash, j: nat)
    requires j < |hashes| && hashes[j] == h
    requires forall k | 0 <= k < j :: hashes[k] != h
    ensures FirstWithHash(hashes, h) == Some(j)
  {
    var r := FirstWithHash(hashes, h);
  }

  /**
   * The `fileIter` loop: a file that cannot be hashed aborts the scan; a file
   * whose hash matches an earlier new file is a duplicate, one whose hash
   * matches a database media is a move (or already known), any other is
   * probed and becomes a new media, or aborts the scan if probing fails.
   */
  method ClassifyFiles(validFiles: seq<ValidFile>, dbMedias: seq<DbMedia>, io: MediaIo)
    returns (r: Option<ScanLists>)
    ensures r == Classify(validFiles, dbMedias, io)
  {
    var moved: seq<Moved> := [];
    var newMedias: seq<MediaData> := [];
    var duplicates: seq<Duplicate> := [];
    for i := 0 to |validFiles|
      invariant Classify(validFiles[..i], dbMedias, io) == Some(ScanLists(moved, newMedias, duplicates))
    {
      var file := validFiles[i];
      ClassifySnoc(validFiles, dbMedias, io, i);
      var hashed := io.sha1(file.path);
      if hashed.None? {
        AbortIsFinal(validFiles, dbMedias, io, i + 1);
        return None;
      }
      var sha1 := hashed.value;

      var earlier := FindWithHash(NewHashes(newMedias), sha1);
      if earlier.Some? {
        duplicates := duplicates + [Duplicate(newMedias[earlier.value].path, file.path)];
        continue;
      }

      var known := FindWithHash(DbHashes(dbMedias), sha1);
      if known.Some? {
        var dbMedia := dbMedias[known.value];
        if dbMedia.path != file.path {
          moved := moved + [Moved(sha1, dbMedia.path, file.path)];
        }
        // otherwise the file is already known: nothing is recorded
        continue;
      }

      var metadata := io.metadata(file.path);
      if metadata.None? {
        AbortIsFinal(validFiles, dbMedias, io, i + 1);
        return None;
      }
      newMedias := newMedias + [NewMedia(file, sha1, metadata.value)];
    }
    assert validFiles[..|validFiles|] == validFiles;
    return Some(ScanLists(moved, newMedias, duplicates));
  }

  lemma ClassifySnoc(files: seq<ValidFile>, db: seq<DbMedia>, io: MediaIo, i: nat)
    requires i < |files|
    ensures Classify(files[..i + 1], db, io) == match Classify(files[..i], db, io)
      case None => None
      case Some(s) => Step(s, files[i], db, io)
  {
    assert files[..i + 1][..i] == files[..i];
  }

  /** A hash already seen among this scan's new medias makes the file a duplicate of the first such media. */
  lemma StepDuplicate(s: ScanLists, file: ValidFile, db: seq<DbMedia>, io: MediaIo, h: Hash, j: nat)
    requires io.sha1(file.path) == Some(h)
    requires j < |s.newMedias| && s.newMedias[j].sha1 == h
    requires forall k | 0 <= k < j :: s.newMedias[k].sha1 != h
    ensures Step(s, file, db, io) == Some(s.(duplicates := s.duplicates + [Duplicate(s.newMedias[j].path, file.path)]))
  {
    FirstIs(NewHashes(s.newMedias), h, j);
  }

  /** Otherwise a hash found in the database makes the file a move from the first such media, or a known file. */
  lemma StepKnownHash(s: ScanLists, file: ValidFile, db: seq<DbMedia>, io: MediaIo, h: Hash, d: nat)
    requires io.sha1(file.path) == Some(h)
    requires forall k | 0 <= k < |s.newMedias| :: s.newMedias[k].sha1 != h
    requires d < |db| && db[d].sha1 == h
    requires forall k | 0 <= k < d :: db[k].sha1 != h
    ensures Step(s, file, db, io) == Some(if db[d].path != file.path
      then s.(moved := s.moved + [Moved(h, db[d].path, file.path)])
      else s)
  {
    FirstIs(DbHashes(db), h, d);
  }

  /** A hash found nowhere makes a new media, or aborts the scan when probing fails. */
  lemma StepUnknownHash(s: ScanLists, file: ValidFile, db: seq<DbMedia>, io: MediaIo, h: Hash)
    requires io.sha1(file.path) == Some(h)
    requires forall k | 0 <= k < |s.newMedias| :: s.newMedias[k].sha1 != h
    requires forall k | 0 <= k < |db| :: db[k].sha1 != h
    ensures Step(s, file, db, io) == match io.metadata(file.path)
      case None => None
      case Some(md) => Some(s.(newMedias := s.newMedias + [NewMedia(file, h, md)]))
  {
  }

  /** Once probing a file has failed, the scan stays aborted whatever follows. */
  lemma {:induction false} AbortIsFinal(files: seq<ValidFile>, db: seq<DbMedia>, io: MediaIo, i: nat)
    requires i <= |files|
    requires Classify(files[..i], db, io) == None
    ensures Classify(files, db, io) == None
    decreases |files| - i
  {
    if i < |files| {
      assert files[..i + 1][..i] == files[..i];
      AbortIsFinal(files, db, io, i + 1);
    } else {
      assert files[..i] == files;
    }
  }

  // ---------------------------------------------------------------------------
  // Properties of the classification
  // ---------------------------------------------------------------------------

  /** The number of entries recorded in the three lists. */
  function Entries(s: ScanLists): nat {
    |s.moved| + |s.newMedias| + |s.duplicates|
  }

  /**
   * What the loop keeps true of its lists: new medias have pairwise distinct
   * hashes, none of them already in the database, and are marked present;
   * every move starts at a database media with the same hash; every duplicate
   * refers back to one of the new medias.
   */
  predicate Consistent(s: ScanLists, db: seq<DbMedia>) {
    && (forall i, j | 0 <= i < j < |s.newMedias| :: s.newMedias[i].sha1 != s.newMedias[j].sha1)
    && (forall i, d | 0 <= i < |s.newMedias| && 0 <= d < |db| :: s.newMedias[i].sha1 != db[d].sha1)
    && (forall i | 0 <= i < |s.newMedias| :: s.newMedias[i].present)
    && (forall m | m in s.moved :: exists d | 0 <= d < |db| :: db[d].sha1 == m.sha1 && db[d].path == m.oldPath)
    && (forall u | u in s.duplicates :: exists i | 0 <= i < |s.newMedias| :: s.newMedias[i].path == u.path1)
  }

  /** One step keeps the lists consistent and records at most one entry; exactly one unless the file is a known path. */
  lemma StepPreserves(s: ScanLists, file: ValidFile, db: seq<DbMedia>, io: MediaIo)
    requires Consistent(s, db)
    requires Step(s, file, db, io).Some?
    ensures Consistent(Step(s, file, db, io).value, db)
    ensures Entries(s) <= Entries(Step(s, file, db, io).value) <= Entries(s) + 1
    ensures file.path !in KnownPaths(db) ==> Entries(Step(s, file, db, io).value) == Entries(s) + 1
  {
    var h := io.sha1(file.path).value;
    var t := Step(s, file, db, io).value;
    match FirstWithHash(NewHashes(s.newMedias), h)
    case Some(j) =>
      forall u | u in t.duplicates
        ensures exists i | 0 <= i < |t.newMedias| :: t.newMedias[i].path == u.path1
      {
        if u !in s.duplicates {
          assert t.newMedias[j].path == u.path1;
        }
      }
    case None =>
      match FirstWithHash(DbHashes(db), h)
      case Some(d) =>
        assert db[d].path in KnownPaths(db);
        forall m | m in t.moved
          ensures exists d' | 0 <= d' < |db| :: db[d'].sha1 == m.sha1 && db[d'].path == m.oldPath
        {
          if m !in s.moved {
            assert db[d].sha1 == m.sha1 && db[d].path == m.oldPath;
          }
        }
      case None =>
        var n := NewMedia(file, h, io.metadata(file.path).value);
        assert t.newMedias == s.newMedias + [n];
        forall u | u in t.duplicates
          ensures exists i | 0 <= i < |t.newMedias| :: t.newMedias[i].path == u.path1
        {
          var i :| 0 <= i < |s.newMedias| && s.newMedias[i].path == u.path1;
          assert t.newMedias[i] == s.newMedias[i];
        }
  }

  /**
   * The classified lists are consistent, hold at most one entry per valid
   * file, and exactly one per file when no file is at a known path.
   */
  lemma {:induction false} ClassifyConsistent(files: seq<ValidFile>, db: seq<DbMedia>, io: MediaIo)
    requires Classify(files, db, io).Some?
    ensures Consistent(Classify(files, db, io).value, db)
    ensures Entries(Classify(files, db, io).value) <= |files|
    ensures (forall f | f in files :: f.path !in KnownPaths(db)) ==> Entries(Classify(files, db, io).value) == |files|
  {
    if files != [] {
      var init := files[..|files| - 1];
      assert forall f | f in init :: f in files;
      ClassifyConsistent(init, db, io);
      StepPreserves(Classify(init, db, io).value, files[|files| - 1], db, io);
    }
  }

  /** Known paths are filtered out before hashing, so each valid file becomes exactly one move, new media or duplicate. */
  lemma ScanAccountsForEveryFile(files: seq<string>, config: ScanConfig, db: seq<DbMedia>, io: MediaIo)
    requires Classify(ValidFiles(files, config, KnownPaths(db)), db, io).Some?
    ensures Entries(Classify(ValidFiles(files, config, KnownPaths(db)), db, io).value)
            == |ValidFiles(files, config, KnownPaths(db))|
  {
    ClassifyConsistent(ValidFiles(files, config, KnownPaths(db)), db, io);
  }

  /** The filter keeps the listing's order: filtering a concatenation concatenates the filtered parts. */
  lemma {:induction false} ValidFilesAppend(a: seq<string>, b: seq<string>, config: ScanConfig, known: set<string>)
    ensures ValidFiles(a + b, config, known) == ValidFiles(a, config, known) + ValidFiles(b, config, known)
    decreases |b|
  {
    if b == [] {
      assert a + b == a;
    } else {
      var init := b[..|b| - 1];
      assert (a + b)[..|a + b| - 1] == a + init;
      ValidFilesAppend(a, init, config, known);
    }
  }

  /** An excluded folder given as the empty string excludes every file. */
  lemma EmptyFolderExcludesAll(files: seq<string>, config: ScanConfig, known: set<string>)
    requires "" in config.excludedFolders
    ensures ValidFiles(files, config, known) == []
  {
    forall f: string
      ensures !Considered(f, config, known)
    {
      assert "" <= f;
    }
    if ValidFiles(files, config, known) != [] {
      assert ValidFiles(files, config, known)[0] in ValidFiles(files, config, known);
      assert false;
    }
  }

  // ---------------------------------------------------------------------------
  // Missing files and the whole scan
  // ---------------------------------------------------------------------------

  /** Whether some move starts at this path. */
  predicate MovedFrom(moved: seq<Moved>, path: string) {
    exists i | 0 <= i < |moved| :: moved[i].oldPath == path
  }

  /** The `missingFiles` filter. */
  function MissingFiles(db: seq<DbMedia>, files: seq<string>, moved: seq<Moved>): (missing: seq<DbMedia>)
    ensures forall m :: m in missing <==> m in db && m.present && m.path !in files && !MovedFrom(moved, m.path)
  {
    if db == [] then []
    else
      var init, m := db[..|db| - 1], db[|db| - 1];
      assert forall x | x in db :: x in init || x == m;
      MissingFiles(init, files, moved)
      + (if m.present && m.path !in files && !MovedFrom(moved, m.path) then [m] else [])
  }

  datatype ScanOutcome =
    | NoValidFiles
    | Aborted
    | Saved(moved: seq<Moved>, newMedias: seq<MediaData>, duplicates: seq<Duplicate>, missing: seq<DbMedia>)

  /** `scanAndSave` without its database writes: what it would move, create and mark missing. */
  method ScanAndSave(dbMedias: seq<DbMedia>, files: seq<string>, config: ScanConfig, io: MediaIo)
    returns (outcome: ScanOutcome)
    ensures var valid := ValidFiles(files, config, KnownPaths(dbMedias));
      && (valid == [] <==> outcome == NoValidFiles)
      && (valid != [] ==> outcome == match Classify(valid, dbMedias, io)
            case None => Aborted
            case Some(s) => Saved(s.moved, s.newMedias, s.duplicates, MissingFiles(dbMedias, files, s.moved)))
  {
    var knownPaths := KnownPaths(dbMedias);
    var validFiles := ValidFiles(files, config, knownPaths);
    if |validFiles| == 0 {
      return NoValidFiles;
    }
    var lists := ClassifyFiles(validFiles, dbMedias, io);
    if lists.None? {
      return Aborted;
    }
    var missingFiles := MissingFiles(dbMedias, files, lists.value.moved);
    return Saved(lists.value.moved, lists.value.newMedias, lists.value.duplicates, missingFiles);
  }
}
