/**
 * The matplotlib font-cache manager (utils/clear_matplotlib_cache.py): finding
 * the cache directories, measuring them, deleting the font-list caches, and
 * checking the font registry afterwards. The cache directories are a map held
 * by `CacheFs`, which `ClearFontCache` updates in place; modification times,
 * copies, deletions and matplotlib's registry are oracles.
 */
module CacheCleaner {
  import opened Wrappers
  import opened Text
  import opened Paths
  import opened Seqs

  // ---------------------------------------------------------------------------
  // Finding the cache directories
  // ---------------------------------------------------------------------------

  /**
   * What `_find_cache_dirs` can observe: matplotlib's configuration directory
   * (`None` when importing matplotlib or asking it raises), the names listed in
   * that directory, the home and temporary directories, and the paths that exist.
   */
  datatype CacheEnv = CacheEnv(configDir: Option<string>, configListing: seq<string>,
                               home: string, tempDir: string, existing: set<string>)

  /** A name the glob `fontlist-v*.json` matches: the fixed prefix and suffix, and anything between. */
  predicate MatchesFontlistGlob(name: string) {
    |name| >= |"fontlist-v"| + |".json"| && StartsWith(name, "fontlist-v") && EndsWith(name, ".json")
  }

  /** For one listed name, the directory of the matching path `os.path.join(configDir, name)`. */
  function GlobParent(configDir: string): string -> Option<string> {
    name => if MatchesFontlistGlob(name) then Some(Dirname(Join(configDir, name))) else None
  }

  /** The directory of every glob match, one per match. */
  function GlobParents(configDir: string, listing: seq<string>): seq<string> {
    FilterMap(listing, GlobParent(configDir))
  }

  /** The Python message of the `TypeError` raised by `str / str`. */
  const SlashTypeError := "unsupported operand type(s) for /: 'str' and 'str'"

  /**
   * `_find_cache_dirs` as written: with a configuration directory, the
   * de-duplicated parents of the glob matches; without one, the fallback list
   * evaluates `tempfile.gettempdir() / "matplotlib"`, which raises `TypeError`.
   */
  function FindCacheDirs(env: CacheEnv): Result<seq<string>, string> {
    match env.configDir
    case Some(configDir) => Ok(Dedup(GlobParents(configDir, env.configListing)))
    case None => Err(SlashTypeError)
  }

  /** The fallback can never produce a directory: it always raises. */
  lemma FindCacheDirsFallbackRaises(env: CacheEnv)
    requires env.configDir.None?
    ensures FindCacheDirs(env) == Err(SlashTypeError)
    ensures forall dirs :: FindCacheDirs(env) != Ok(dirs)
  {
  }

  /** The three fallback locations, as `str(Path)` writes them. */
  function FallbackDirs(home: string, tempDir: string): seq<string> {
    [RStripSlashes(home) + "/.cache/matplotlib", RStripSlashes(home) + "/.matplotlib",
     RStripSlashes(tempDir) + "/matplotlib"]
  }

  function IfExists(existing: set<string>): string -> Option<string> {
    p => if p in existing then Some(p) else None
  }

  /**
   * `_find_cache_dirs` as intended: the fallback keeps the candidate locations
   * that exist, in candidate order, without duplicates.
   */
  function FindCacheDirsIntended(env: CacheEnv): (dirs: seq<string>)
    ensures NoDuplicates(dirs)
    ensures env.configDir.Some? ==> FindCacheDirs(env) == Ok(dirs)
    ensures env.configDir.None? ==>
      forall d :: d in dirs <==> d in FallbackDirs(env.home, env.tempDir) && d in env.existing
  {
    match env.configDir
    case Some(configDir) => Dedup(GlobParents(configDir, env.configListing))
    case None =>
      var candidates := FallbackDirs(env.home, env.tempDir);
      var r := Dedup(FilterMap(candidates, IfExists(env.existing)));
      forall d ensures d in r <==> d in candidates && d in env.existing {
        FilterMapMembers(candidates, IfExists(env.existing), d);
        if d in candidates && d in env.existing {
          var i :| 0 <= i < |candidates| && candidates[i] == d;
          assert KeptAt(candidates, IfExists(env.existing), i, d);
        }
      }
      r
  }

  /**
   * With a configuration directory `c` (no trailing slash) the only directory
   * that can be found is `c` itself, found exactly when some listed name
   * matches the glob, and found once.
   */
  lemma FindCacheDirsConfig(env: CacheEnv)
    requires env.configDir.Some?
    requires var c := env.configDir.value; c == [] || c[|c| - 1] != '/'
    requires forall name :: name in env.configListing ==> '/' !in name
    ensures FindCacheDirs(env).Ok? && NoDuplicates(FindCacheDirs(env).value)
    ensures forall d :: d in FindCacheDirs(env).value <==>
      d == env.configDir.value && exists name :: name in env.configListing && MatchesFontlistGlob(name)
  {
    var c := env.configDir.value;
    var parents := GlobParents(c, env.configListing);
    forall p | p in parents ensures p == c && exists name :: name in env.configListing && MatchesFontlistGlob(name) {
      FilterMapMembers(env.configListing, GlobParent(c), p);
      var i :| KeptAt(env.configListing, GlobParent(c), i, p);
      assert env.configListing[i] in env.configListing;
      DirnameJoin(c, env.configListing[i]);
    }
    if exists name :: name in env.configListing && MatchesFontlistGlob(name) {
      var name :| name in env.configListing && MatchesFontlistGlob(name);
      var i :| 0 <= i < |env.configListing| && env.configListing[i] == name;
      DirnameJoin(c, name);
      assert KeptAt(env.configListing, GlobParent(c), i, c);
      FilterMapMembers(env.configListing, GlobParent(c), c);
    }
  }

  /** The one field the cleaner's constructor sets, from the intended discovery. */
  datatype Cleaner = Cleaner(cacheDirs: seq<string>)

  function NewCleaner(env: CacheEnv): (cleaner: Cleaner)
    ensures NoDuplicates(cleaner.cacheDirs)
  {
    Cleaner(FindCacheDirsIntended(env))
  }

  // ---------------------------------------------------------------------------
  // The cache directories and their sizes
  // ---------------------------------------------------------------------------

  /**
   * A walk of a directory tree, one entry per visited directory listing the
   * sizes of its files (`None` where `os.path.getsize` raises).
   */
  type Walk = seq<seq<Option<nat>>>

  /** What `os.path.isfile` / `os.path.isdir` say about a listed item: a file with its size, a directory with its walk, or neither. */
  datatype Kind = File(size: nat) | Dir(walk: Walk) | Special

  /** One name listed by `os.listdir` in a cache directory. */
  datatype Item = Item(name: string, kind: Kind)

  /** A cache directory that `os.listdir` reads, or the message of the error it raises. */
  datatype Listing = Readable(items: seq<Item>) | Unreadable(error: string)

  /** The message of the `FileNotFoundError` that `os.listdir` raises for a missing directory. */
  function MissingError(dir: string): string {
    "[Errno 2] No such file or directory: '" + dir + "'"
  }

  /** The listing of `dir` in the directory map; a directory absent from the map does not exist. */
  function ListingOf(dirs: map<string, Listing>, dir: string): Listing {
    if dir in dirs then dirs[dir] else Unreadable(MissingError(dir))
  }

  /** The sizes that can be read, added up; unreadable ones are skipped. */
  function KnownSizes(sizes: seq<Option<nat>>): nat {
    if sizes == [] then 0
    else
      var last := sizes[|sizes| - 1];
      KnownSizes(sizes[..|sizes| - 1]) + (if last.Some? then last.value else 0)
  }

  /** `_get_dir_size`: the readable file sizes over the whole walk. */
  function DirSize(walk: Walk): nat {
    if walk == [] then 0 else DirSize(walk[..|walk| - 1]) + KnownSizes(walk[|walk| - 1])
  }

  lemma {:induction false} KnownSizesAppend(a: seq<Option<nat>>, b: seq<Option<nat>>)
    ensures KnownSizes(a + b) == KnownSizes(a) + KnownSizes(b)
    decreases |b|
  {
    if b == [] {
      assert a + b == a;
    } else {
      assert (a + b)[..|a + b| - 1] == a + b[..|b| - 1];
      KnownSizesAppend(a, b[..|b| - 1]);
    }
  }

  /** A file whose size cannot be read contributes nothing: dropping it leaves the total unchanged. */
  lemma UnreadableSizeSkipped(sizes: seq<Option<nat>>, i: nat)
    requires i < |sizes| && sizes[i].None?
    ensures KnownSizes(sizes) == KnownSizes(sizes[..i] + sizes[i + 1..])
  {
    assert sizes == sizes[..i] + [sizes[i]] + sizes[i + 1..];
    KnownSizesAppend(sizes[..i] + [sizes[i]], sizes[i + 1..]);
    KnownSizesAppend(sizes[..i], [sizes[i]]);
    KnownSizesAppend(sizes[..i], sizes[i + 1..]);
    assert KnownSizes([sizes[i]]) == 0 by {
      var one: seq<Option<nat>> := [sizes[i]];
      assert one[..0] == [];
    }
  }

  /** The size of a walk is the sum of the sizes of its parts. */
  lemma {:induction false} DirSizeAppend(a: Walk, b: Walk)
    ensures DirSize(a + b) == DirSize(a) + DirSize(b)
    decreases |b|
  {
    if b == [] {
      assert a + b == a;
    } else {
      assert (a + b)[..|a + b| - 1] == a + b[..|b| - 1];
      DirSizeAppend(a, b[..|b| - 1]);
    }
  }

  /** `_get_dir_size`: two nested loops adding up every size `getsize` can read. */
  method GetDirSize(walk: Walk) returns (totalSize: nat)
    ensures totalSize == DirSize(walk)
  {
    totalSize := 0;
    var i := 0;
    while i < |walk|
      invariant 0 <= i <= |walk|
      invariant totalSize == DirSize(walk[..i])
    {
      var filenames := walk[i];
      var j := 0;
      while j < |filenames|
        invariant 0 <= j <= |filenames|
        invariant totalSize == DirSize(walk[..i]) + KnownSizes(filenames[..j])
      {
        if filenames[j].Some? {
          totalSize := totalSize + filenames[j].value;
        }
        assert filenames[..j + 1][..j] == filenames[..j];
        j := j + 1;
      }
      assert filenames[..j] == filenames;
      assert walk[..i + 1][..i] == walk[..i];
      i := i + 1;
    }
    assert walk[..i] == walk;
  }

  /** One entry of `get_cache_info`'s `cache_files`. */
  datatype CacheFile = CacheFile(name: string, path: string, size: nat, isDir: bool)

  /** The entry for one listed item: regular files and directories get one, anything else none. */
  function EntryOf(dir: string): Item -> Option<CacheFile> {
    (item: Item) =>
      match item.kind
      case File(size) => Some(CacheFile(item.name, Join(dir, item.name), size, false))
      case Dir(walk) => Some(CacheFile(item.name, Join(dir, item.name), DirSize(walk), true))
      case Special => None
  }

  /** The entries of one cache directory; an unreadable one has none. */
  function DirEntries(dirs: map<string, Listing>): string -> seq<CacheFile> {
    (dir: string) =>
      match ListingOf(dirs, dir)
      case Readable(items) => FilterMap(items, EntryOf(dir))
      case Unreadable(_) => []
  }

  /** The entries of every cache directory, directory by directory. */
  function CacheFilesOf(dirs: map<string, Listing>, cacheDirs: seq<string>): seq<CacheFile> {
    ConcatMap(cacheDirs, DirEntries(dirs))
  }

  function TotalSize(files: seq<CacheFile>): nat {
    if files == [] then 0 else TotalSize(files[..|files| - 1]) + files[|files| - 1].size
  }

  lemma {:induction false} TotalSizeAppend(a: seq<CacheFile>, b: seq<CacheFile>)
    ensures TotalSize(a + b) == TotalSize(a) + TotalSize(b)
    decreases |b|
  {
    if b == [] {
      assert a + b == a;
    } else {
      assert (a + b)[..|a + b| - 1] == a + b[..|b| - 1];
      TotalSizeAppend(a, b[..|b| - 1]);
    }
  }

  /** The note for a cache directory `os.listdir` cannot read. */
  function AccessNote(dirs: map<string, Listing>): string -> Option<string> {
    (dir: string) =>
      match ListingOf(dirs, dir)
      case Readable(_) => None
      case Unreadable(error) => Some("无法访问缓存目录 " + dir + ": " + error)
  }

  const SuggestClear := "建议清理matplotlib缓存以确保字体设置生效"
  const NoCacheFound := "未找到matplotlib缓存文件"

  /** The result of `get_cache_info` (the rounded megabyte figures are left out). */
  datatype CacheInfo = CacheInfo(cacheDirs: seq<string>, cacheFiles: seq<CacheFile>, totalSize: nat,
                                 cacheCount: nat, recommendations: seq<string>)

  /**
   * Every entry comes from a listed regular file or directory of a readable
   * cache directory, keeps its name, joins it to that directory, and is
   * flagged as a directory exactly when it is one, with its walked size.
   */
  lemma CacheFilesMembers(dirs: map<string, Listing>, cacheDirs: seq<string>, f: CacheFile)
    ensures f in CacheFilesOf(dirs, cacheDirs) <==>
      exists i, j :: 0 <= i < |cacheDirs| && ListingOf(dirs, cacheDirs[i]).Readable? &&
        KeptAt(ListingOf(dirs, cacheDirs[i]).items, EntryOf(cacheDirs[i]), j, f)
  {
    ConcatMapMembers(cacheDirs, DirEntries(dirs), f);
    if f in CacheFilesOf(dirs, cacheDirs) {
      var i :| PartAt(cacheDirs, DirEntries(dirs), i, f);
      var items := ListingOf(dirs, cacheDirs[i]).items;
      FilterMapMembers(items, EntryOf(cacheDirs[i]), f);
    }
    if exists i, j :: 0 <= i < |cacheDirs| && ListingOf(dirs, cacheDirs[i]).Readable? &&
        KeptAt(ListingOf(dirs, cacheDirs[i]).items, EntryOf(cacheDirs[i]), j, f) {
      var i, j :| 0 <= i < |cacheDirs| && ListingOf(dirs, cacheDirs[i]).Readable? &&
        KeptAt(ListingOf(dirs, cacheDirs[i]).items, EntryOf(cacheDirs[i]), j, f);
      FilterMapMembers(ListingOf(dirs, cacheDirs[i]).items, EntryOf(cacheDirs[i]), f);
      assert PartAt(cacheDirs, DirEntries(dirs), i, f);
    }
  }

  /** The entry of a listed item records it faithfully. */
  lemma EntryOfMeaning(dir: string, item: Item)
    ensures EntryOf(dir)(item).None? <==> item.kind.Special?
    ensures EntryOf(dir)(item).Some? ==>
      && EntryOf(dir)(item).value.name == item.name
      && EntryOf(dir)(item).value.path == Join(dir, item.name)
      && (EntryOf(dir)(item).value.isDir <==> item.kind.Dir?)
      && EntryOf(dir)(item).value.size == (if item.kind.Dir? then DirSize(item.kind.walk) else item.kind.size)
  {
  }

  /** The entry `get_cache_info` records for one listed item, with its size. */
  method ItemEntry(dir: string, item: Item) returns (entry: Option<CacheFile>)
    ensures entry == EntryOf(dir)(item)
  {
    match item.kind {
      case File(fileSize) =>
        entry := Some(CacheFile(item.name, Join(dir, item.name), fileSize, false));
      case Dir(walk) =>
        var dirSize := GetDirSize(walk);
        entry := Some(CacheFile(item.name, Join(dir, item.name), dirSize, true));
      case Special =>
        entry := None;
    }
  }

  /** The entries of one readable cache directory, with their total size. */
  method ListCacheDir(dir: string, items: seq<Item>) returns (entries: seq<CacheFile>, size: nat)
    ensures entries == FilterMap(items, EntryOf(dir))
    ensures size == TotalSize(entries)
  {
    entries := [];
    size := 0;
    var k := 0;
    while k < |items|
      invariant 0 <= k <= |items|
      invariant entries == FilterMap(items[..k], EntryOf(dir))
      invariant size == TotalSize(entries)
    {
      var item := items[k];
      FilterMapStep(items, EntryOf(dir), k);
      var entry := ItemEntry(dir, item);
      if entry.Some? {
        TotalSizeAppend(entries, [entry.value]);
        entries := entries + [entry.value];
        size := size + entry.value.size;
      }
      k := k + 1;
    }
    assert items[..k] == items;
  }

  /**
   * The cache directories on disk: the listing of each cache directory, and
   * the backup directories made so far (their contents are not modelled).
   */
  class CacheFs {
    var dirs: map<string, Listing>
    var backups: seq<string>

    constructor (dirs: map<string, Listing>)
      ensures this.dirs == dirs && backups == []
    {
      this.dirs := dirs;
      backups := [];
    }
  }

  /** One cache directory of `get_cache_info`: its entries and their size, or the note that it could not be read. */
  method CacheDirInfo(dirs: map<string, Listing>, dir: string)
      returns (entries: seq<CacheFile>, size: nat, note: Option<string>)
    ensures entries == DirEntries(dirs)(dir) && size == TotalSize(entries)
    ensures note == AccessNote(dirs)(dir)
  {
    match ListingOf(dirs, dir) {
      case Readable(items) =>
        entries, size := ListCacheDir(dir, items);
        note := None;
      case Unreadable(error) =>
        entries, size := [], 0;
        note := Some("无法访问缓存目录 " + dir + ": " + error);
    }
  }

  /**
   * `get_cache_info`: one entry per listed regular file or subdirectory of
   * every readable cache directory, their total size and count, a note per
   * unreadable directory, and a closing recommendation that depends only on
   * whether any entry was found. Nothing on disk changes.
   */
  method GetCacheInfo(fs: CacheFs, cleaner: Cleaner) returns (info: CacheInfo)
    ensures info.cacheDirs == cleaner.cacheDirs
    ensures info.cacheFiles == CacheFilesOf(fs.dirs, cleaner.cacheDirs)
    ensures info.totalSize == TotalSize(info.cacheFiles)
    ensures info.cacheCount == |info.cacheFiles|
    ensures info.recommendations ==
      FilterMap(cleaner.cacheDirs, AccessNote(fs.dirs)) + [if info.cacheCount > 0 then SuggestClear else NoCacheFound]
  {
    var cacheDirs := cleaner.cacheDirs;
    var files: seq<CacheFile> := [];
    var totalSize: nat := 0;
    var notes: seq<string> := [];
    var i := 0;
    while i < |cacheDirs|
      invariant 0 <= i <= |cacheDirs|
      invariant files == ConcatMap(cacheDirs[..i], DirEntries(fs.dirs))
      invariant notes == FilterMap(cacheDirs[..i], AccessNote(fs.dirs))
      invariant totalSize == TotalSize(files)
    {
      var cacheDir := cacheDirs[i];
      ConcatMapStep(cacheDirs, DirEntries(fs.dirs), i);
      FilterMapStep(cacheDirs, AccessNote(fs.dirs), i);
      var entries, size, note := CacheDirInfo(fs.dirs, cacheDir);
      TotalSizeAppend(files, entries);
      files := files + entries;
      totalSize := totalSize + size;
      notes := notes + Values(note);
      i := i + 1;
    }
    assert cacheDirs[..i] == cacheDirs;
    var closing := if |files| > 0 then SuggestClear else NoCacheFound;
    info := CacheInfo(cacheDirs, files, totalSize, |files|, notes + [closing]);
  }

  /** An unreadable cache directory gets its note and contributes no entries. */
  lemma UnreadableDirNoted(dirs: map<string, Listing>, cacheDirs: seq<string>, i: nat)
    requires i < |cacheDirs| && ListingOf(dirs, cacheDirs[i]).Unreadable?
    ensures ("无法访问缓存目录 " + cacheDirs[i] + ": " + ListingOf(dirs, cacheDirs[i]).error)
              in FilterMap(cacheDirs, AccessNote(dirs))
    ensures DirEntries(dirs)(cacheDirs[i]) == []
  {
    var note := "无法访问缓存目录 " + cacheDirs[i] + ": " + ListingOf(dirs, cacheDirs[i]).error;
    assert KeptAt(cacheDirs, AccessNote(dirs), i, note);
    FilterMapMembers(cacheDirs, AccessNote(dirs), note);
  }

  // ---------------------------------------------------------------------------
  // Clearing the font caches
  // ---------------------------------------------------------------------------

  /** What `clear_font_cache` does with a listed item. */
  datatype Action = Keep | Remove | RemoveTree

  /**
   * The deletion filter: font-list files and `fontManager.py` are removed with
   * `os.remove`, the directories `ttf`, `afm` and `pdfcorefonts` with
   * `shutil.rmtree`; a non-directory of one of those three names stays.
   */
  function ActionFor(item: Item): Action {
    if StartsWith(item.name, "fontlist-") && EndsWith(item.name, ".json") then Remove
    else if item.name == "fontManager.py" then Remove
    else if item.name in ["ttf", "afm", "pdfcorefonts"] then (if item.kind.Dir? then RemoveTree else Keep)
    else Keep
  }

  predicate Selected(item: Item) {
    ActionFor(item) != Keep
  }

  /**
   * The outcome of the item loop over one directory: the items left, the
   * paths deleted, and whether the loop ran to the end.
   */
  datatype Sweep = Sweep(kept: seq<Item>, cleared: seq<string>, ok: bool)

  /** Whether deleting the item at `path` raises; `os.remove` of a directory always does. */
  predicate DeleteFails(item: Item, path: string, deleteOk: string -> bool) {
    (ActionFor(item) == Remove && item.kind.Dir?) || !deleteOk(path)
  }

  /**
   * The item loop of `clear_font_cache` over one listing: a failed deletion
   * raises, which ends the loop, and everything from that item on stays.
   */
  function SweepItems(dir: string, items: seq<Item>, deleteOk: string -> bool): Sweep {
    if items == [] then Sweep([], [], true)
    else
      var item := items[0];
      var path := Join(dir, item.name);
      if !Selected(item) then
        var r := SweepItems(dir, items[1..], deleteOk);
        Sweep([item] + r.kept, r.cleared, r.ok)
      else if DeleteFails(item, path, deleteOk) then Sweep(items, [], false)
      else
        var r := SweepItems(dir, items[1..], deleteOk);
        Sweep(r.kept, [path] + r.cleared, r.ok)
  }

  /** The items the filter does not select, in listing order. */
  function Unselected(items: seq<Item>): (r: seq<Item>)
    ensures forall x :: x in r <==> x in items && !Selected(x)
  {
    if items == [] then []
    else
      assert forall x :: x in items <==> x == items[0] || x in items[1..];
      (if Selected(items[0]) then [] else [items[0]]) + Unselected(items[1..])
  }

  /**
   * Unselected items always stay and nothing new appears; a loop that ran to
   * the end left exactly the unselected items and deleted one path per
   * selected item; a loop that stopped early stopped at a selected item.
   */
  lemma {:induction false} SweepMeaning(dir: string, items: seq<Item>, deleteOk: string -> bool)
    ensures var r := SweepItems(dir, items, deleteOk);
      && (forall x :: x in items && !Selected(x) ==> x in r.kept)
      && (forall x :: x in r.kept ==> x in items)
      && (r.ok ==> r.kept == Unselected(items) && |r.cleared| + |r.kept| == |items|)
      && (!r.ok ==> exists x :: x in items && Selected(x))
  {
    if items != [] {
      SweepMeaning(dir, items[1..], deleteOk);
      assert forall x :: x in items <==> x == items[0] || x in items[1..];
    }
  }

  /** With nothing selected, the loop deletes nothing, leaves the listing as it was and succeeds. */
  lemma {:induction false} SweepNothingSelected(dir: string, items: seq<Item>, deleteOk: string -> bool)
    requires forall x :: x in items ==> !Selected(x)
    ensures SweepItems(dir, items, deleteOk) == Sweep(items, [], true)
  {
    if items != [] {
      assert forall x :: x in items[1..] ==> x in items;
      SweepNothingSelected(dir, items[1..], deleteOk);
      assert [items[0]] + items[1..] == items;
    }
  }

  /** The outcome of a sweep that already kept `kept` and deleted `cleared` before sweeping the rest. */
  function Continue(kept: seq<Item>, cleared: seq<string>, rest: Sweep): Sweep {
    Sweep(kept + rest.kept, cleared + rest.cleared, rest.ok)
  }

  lemma SweepKeepsAt(dir: string, items: seq<Item>, deleteOk: string -> bool, i: int,
                     kept: seq<Item>, cleared: seq<string>)
    requires 0 <= i < |items| && !Selected(items[i])
    ensures Continue(kept, cleared, SweepItems(dir, items[i..], deleteOk))
         == Continue(kept + [items[i]], cleared, SweepItems(dir, items[i + 1..], deleteOk))
  {
    assert items[i..][1..] == items[i + 1..];
    assert items[i..][0] == items[i];
    var next := SweepItems(dir, items[i + 1..], deleteOk);
    assert kept + ([items[i]] + next.kept) == kept + [items[i]] + next.kept;
  }

  lemma SweepDeletesAt(dir: string, items: seq<Item>, deleteOk: string -> bool, i: int,
                       kept: seq<Item>, cleared: seq<string>)
    requires 0 <= i < |items| && Selected(items[i]) && !DeleteFails(items[i], Join(dir, items[i].name), deleteOk)
    ensures Continue(kept, cleared, SweepItems(dir, items[i..], deleteOk))
         == Continue(kept, cleared + [Join(dir, items[i].name)], SweepItems(dir, items[i + 1..], deleteOk))
  {
    assert items[i..][1..] == items[i + 1..];
    assert items[i..][0] == items[i];
    var next := SweepItems(dir, items[i + 1..], deleteOk);
    var path := Join(dir, items[i].name);
    assert cleared + ([path] + next.cleared) == cleared + [path] + next.cleared;
  }

  lemma SweepStopsAt(dir: string, items: seq<Item>, deleteOk: string -> bool, i: int,
                     kept: seq<Item>, cleared: seq<string>)
    requires 0 <= i < |items| && Selected(items[i]) && DeleteFails(items[i], Join(dir, items[i].name), deleteOk)
    ensures Continue(kept, cleared, SweepItems(dir, items[i..], deleteOk)) == Sweep(kept + items[i..], cleared, false)
  {
    assert items[i..][0] == items[i];
    assert cleared + [] == cleared;
  }

  /** The item loop, leaving at the first deletion that raises. */
  method SweepDir(dir: string, items: seq<Item>, deleteOk: string -> bool)
      returns (kept: seq<Item>, cleared: seq<string>, ok: bool)
    ensures Sweep(kept, cleared, ok) == SweepItems(dir, items, deleteOk)
  {
    kept := [];
    cleared := [];
    var i := 0;
    assert items[0..] == items;
    while i < |items|
      invariant 0 <= i <= |items|
      invariant SweepItems(dir, items, deleteOk) == Continue(kept, cleared, SweepItems(dir, items[i..], deleteOk))
    {
      var item := items[i];
      var itemPath := Join(dir, item.name);
      var action := ActionFor(item);
      if action == Keep {
        SweepKeepsAt(dir, items, deleteOk, i, kept, cleared);
        kept := kept + [item];
      } else if DeleteFails(item, itemPath, deleteOk) {
        SweepStopsAt(dir, items, deleteOk, i, kept, cleared);
        kept := kept + items[i..];
        return kept, cleared, false;
      } else {
        SweepDeletesAt(dir, items, deleteOk, i, kept, cleared);
        cleared := cleared + [itemPath];
      }
      i := i + 1;
    }
    assert kept + [] == kept && cleared + [] == cleared;
    ok := true;
  }

  /**
   * The host operations `clear_font_cache` depends on: the modification time
   * of a directory in whole seconds (`None` when `os.path.getmtime` raises),
   * whether `shutil.copytree` succeeds, and whether deleting a path succeeds.
   */
  datatype CacheHost = CacheHost(mtime: string -> Option<int>, copyOk: (string, string) -> bool,
                                 deleteOk: string -> bool)

  function BackupName(dir: string, mtime: int): string {
    dir + "_backup_" + IntToString(mtime)
  }

  /** The directory map, the backups made, the paths deleted so far, and the `success` flag. */
  datatype ClearState = ClearState(dirs: map<string, Listing>, backups: seq<string>,
                                   cleared: seq<string>, ok: bool)

  /**
   * One pass of `clear_font_cache`'s directory loop: the optional backup,
   * then the listing and the item loop. Any exception clears `success` and
   * moves on to the next directory.
   */
  function ClearDir(s: ClearState, dir: string, backup: bool, host: CacheHost): ClearState {
    if backup && host.mtime(dir).None? then s.(ok := false)
    else
      var copies := backup && dir in s.dirs;
      var backupDir := if backup then BackupName(dir, host.mtime(dir).value) else "";
      if copies && !host.copyOk(dir, backupDir) then s.(ok := false)
      else
        var backups := if copies then s.backups + [backupDir] else s.backups;
        match ListingOf(s.dirs, dir)
        case Unreadable(_) => s.(backups := backups, ok := false)
        case Readable(items) =>
          var r := SweepItems(dir, items, host.deleteOk);
          ClearState(s.dirs[dir := Readable(r.kept)], backups, s.cleared + r.cleared, s.ok && r.ok)
  }

  /** `clear_font_cache` over the directories `dirs`, from the state `s`. */
  function ClearAll(s: ClearState, dirs: seq<string>, backup: bool, host: CacheHost): ClearState {
    if dirs == [] then s else ClearDir(ClearAll(s, dirs[..|dirs| - 1], backup, host), dirs[|dirs| - 1], backup, host)
  }

  /** One more directory of the loop. */
  lemma ClearAllStep(s: ClearState, dirs: seq<string>, i: int, backup: bool, host: CacheHost)
    requires 0 <= i < |dirs|
    ensures ClearAll(s, dirs[..i + 1], backup, host) == ClearDir(ClearAll(s, dirs[..i], backup, host), dirs[i], backup, host)
  {
    assert dirs[..i + 1][..i] == dirs[..i];
  }

  /** The loop of `clear_font_cache` after `i` directories, in terms of the pass over directory `i` alone. */
  lemma ClearLoopStep(s: ClearState, dirs: seq<string>, i: int, backup: bool, host: CacheHost,
                      disk: map<string, Listing>, backups: seq<string>, cleared: seq<string>, ok: bool)
    requires 0 <= i < |dirs| && ClearAll(s, dirs[..i], backup, host) == ClearState(disk, backups, cleared, ok)
    ensures var t := ClearDir(ClearState(disk, backups, [], true), dirs[i], backup, host);
      ClearAll(s, dirs[..i + 1], backup, host) == ClearState(t.dirs, t.backups, cleared + t.cleared, ok && t.ok)
  {
    ClearAllStep(s, dirs, i, backup, host);
    ClearDirAccumulates(ClearState(disk, backups, cleared, ok), dirs[i], backup, host);
  }

  /** A state with nothing deleted yet and no failure, over the given disk. */
  function Fresh(s: ClearState): ClearState {
    s.(cleared := [], ok := true)
  }

  /**
   * What happens to a directory does not depend on earlier failures or
   * deletions: those only accumulate into the flag and the deleted paths.
   */
  lemma ClearDirAccumulates(s: ClearState, dir: string, backup: bool, host: CacheHost)
    ensures var t := ClearDir(Fresh(s), dir, backup, host);
      ClearDir(s, dir, backup, host) == t.(cleared := s.cleared + t.cleared, ok := s.ok && t.ok)
  {
    var t := ClearDir(Fresh(s), dir, backup, host);
    assert s.cleared + [] == s.cleared;
    if !(backup && host.mtime(dir).None?) {
      var backupDir := if backup then BackupName(dir, host.mtime(dir).value) else "";
      if !(backup && dir in s.dirs && !host.copyOk(dir, backupDir)) && ListingOf(s.dirs, dir).Readable? {
        var r := SweepItems(dir, ListingOf(s.dirs, dir).items, host.deleteOk);
        assert t.cleared == [] + r.cleared;
        assert [] + r.cleared == r.cleared;
      }
    }
  }

  /**
   * Every directory is processed whatever happened before it: a whole run is
   * the same run from a fresh state, with the earlier flag and deletions
   * carried along.
   */
  lemma {:induction false} ClearAllAccumulates(s: ClearState, dirs: seq<string>, backup: bool, host: CacheHost)
    ensures var t := ClearAll(Fresh(s), dirs, backup, host);
      ClearAll(s, dirs, backup, host) == t.(cleared := s.cleared + t.cleared, ok := s.ok && t.ok)
    decreases |dirs|
  {
    if dirs == [] {
      assert s.cleared + [] == s.cleared;
    } else {
      var init := dirs[..|dirs| - 1];
      var last := dirs[|dirs| - 1];
      ClearAllAccumulates(s, init, backup, host);
      var t0 := ClearAll(Fresh(s), init, backup, host);
      var s0 := ClearAll(s, init, backup, host);
      ClearDirAccumulates(s0, last, backup, host);
      ClearDirAccumulates(t0, last, backup, host);
      assert Fresh(s0) == Fresh(t0);
      var u := ClearDir(Fresh(t0), last, backup, host);
      assert s.cleared + (t0.cleared + u.cleared) == (s.cleared + t0.cleared) + u.cleared;
    }
  }

  /**
   * The result is `True` exactly when no directory failed, each directory
   * judged on its own.
   */
  lemma {:induction false} ClearAllOk(s: ClearState, dirs: seq<string>, backup: bool, host: CacheHost)
    ensures ClearAll(s, dirs, backup, host).ok <==>
      s.ok && forall i :: 0 <= i < |dirs| ==> DirSucceeds(s, dirs, i, backup, host)
    decreases |dirs|
  {
    if dirs != [] {
      var init := dirs[..|dirs| - 1];
      ClearAllOk(s, init, backup, host);
      LastDirOk(s, dirs, backup, host);
      forall i | 0 <= i < |init| ensures DirSucceeds(s, dirs, i, backup, host) == DirSucceeds(s, init, i, backup, host) {
        assert dirs[..i] == init[..i];
      }
    }
  }

  /** The run over `dirs` succeeds when the run before the last directory did and the last pass does. */
  lemma LastDirOk(s: ClearState, dirs: seq<string>, backup: bool, host: CacheHost)
    requires dirs != []
    ensures ClearAll(s, dirs, backup, host).ok ==
      (ClearAll(s, dirs[..|dirs| - 1], backup, host).ok && DirSucceeds(s, dirs, |dirs| - 1, backup, host))
  {
    var init := dirs[..|dirs| - 1];
    ClearDirAccumulates(ClearAll(s, init, backup, host), dirs[|dirs| - 1], backup, host);
    assert dirs[..|init|] == init;
  }

  /** The pass over `dirs[i]` succeeds on its own, after the passes over the directories before it. */
  predicate DirSucceeds(s: ClearState, dirs: seq<string>, i: int, backup: bool, host: CacheHost)
    requires 0 <= i < |dirs|
  {
    ClearDir(Fresh(ClearAll(s, dirs[..i], backup, host)), dirs[i], backup, host).ok
  }

  /** An item the filter does not select is still listed in its directory after the run. */
  lemma {:induction false} ClearAllKeepsUnselected(s: ClearState, dirs: seq<string>, backup: bool, host: CacheHost,
                                                   dir: string, x: Item)
    requires ListingOf(s.dirs, dir).Readable? && x in ListingOf(s.dirs, dir).items && !Selected(x)
    ensures var after := ListingOf(ClearAll(s, dirs, backup, host).dirs, dir);
      after.Readable? && x in after.items
    decreases |dirs|
  {
    if dirs != [] {
      var init := dirs[..|dirs| - 1];
      var last := dirs[|dirs| - 1];
      ClearAllKeepsUnselected(s, init, backup, host, dir, x);
      var s0 := ClearAll(s, init, backup, host);
      if last == dir && ListingOf(s0.dirs, dir).Readable? {
        SweepMeaning(dir, ListingOf(s0.dirs, dir).items, host.deleteOk);
      }
    }
  }

  /** A directory whose listing has no item the filter selects. */
  predicate Clean(dirs: map<string, Listing>, dir: string) {
    ListingOf(dirs, dir).Readable? && forall x :: x in ListingOf(dirs, dir).items ==> !Selected(x)
  }

  /** After a run that returns `True`, every cache directory is readable and holds no selected item. */
  lemma {:induction false} ClearAllClean(s: ClearState, dirs: seq<string>, backup: bool, host: CacheHost)
    ensures ClearAll(s, dirs, backup, host).ok ==> forall d :: d in dirs ==> Clean(ClearAll(s, dirs, backup, host).dirs, d)
    decreases |dirs|
  {
    if dirs != [] {
      var init := dirs[..|dirs| - 1];
      var last := dirs[|dirs| - 1];
      var s0 := ClearAll(s, init, backup, host);
      var r := ClearAll(s, dirs, backup, host);
      if r.ok {
        ClearAllClean(s, init, backup, host);
        ClearDirAccumulates(s0, last, backup, host);
        var items := ListingOf(s0.dirs, last).items;
        SweepMeaning(last, items, host.deleteOk);
        assert r.dirs == s0.dirs[last := Readable(Unselected(items))];
        forall d | d in dirs ensures Clean(r.dirs, d) {
          if d != last {
            assert d in init;
            assert ListingOf(r.dirs, d) == ListingOf(s0.dirs, d);
          }
        }
      }
    }
  }

  /** Over clean directories and without backups, a run changes nothing and succeeds. */
  lemma {:induction false} ClearAllNoop(s: ClearState, dirs: seq<string>, host: CacheHost)
    requires s.ok
    requires forall d :: d in dirs ==> Clean(s.dirs, d)
    ensures ClearAll(s, dirs, false, host) == s
    decreases |dirs|
  {
    if dirs != [] {
      var init := dirs[..|dirs| - 1];
      var last := dirs[|dirs| - 1];
      assert forall d :: d in init ==> d in dirs;
      ClearAllNoop(s, init, host);
      assert Clean(s.dirs, last);
      var items := ListingOf(s.dirs, last).items;
      SweepNothingSelected(last, items, host.deleteOk);
      assert s.dirs[last := Readable(items)] == s.dirs;
      assert s.cleared + [] == s.cleared;
    }
  }

  /**
   * With `backup=False`, once a run returns `True` a second run deletes
   * nothing, changes nothing and returns `True`, whatever the host does.
   */
  lemma SecondClearDeletesNothing(dirs: map<string, Listing>, backups: seq<string>, cacheDirs: seq<string>,
                                  host: CacheHost, host2: CacheHost)
    requires ClearAll(ClearState(dirs, backups, [], true), cacheDirs, false, host).ok
    ensures var r := ClearAll(ClearState(dirs, backups, [], true), cacheDirs, false, host);
      ClearAll(ClearState(r.dirs, r.backups, [], true), cacheDirs, false, host2) == ClearState(r.dirs, r.backups, [], true)
  {
    var r := ClearAll(ClearState(dirs, backups, [], true), cacheDirs, false, host);
    ClearAllClean(ClearState(dirs, backups, [], true), cacheDirs, false, host);
    ClearAllNoop(ClearState(r.dirs, r.backups, [], true), cacheDirs, host2);
  }

  /** One pass of the directory loop, updating the disk. */
  method ClearCacheDir(fs: CacheFs, dir: string, backup: bool, host: CacheHost) returns (cleared: seq<string>, ok: bool)
    modifies fs
    ensures ClearDir(ClearState(old(fs.dirs), old(fs.backups), [], true), dir, backup, host) ==
            ClearState(fs.dirs, fs.backups, cleared, ok)
  {
    if backup {
      if host.mtime(dir).None? {
        return [], false;
      }
      var backupDir := BackupName(dir, host.mtime(dir).value);
      if dir in fs.dirs {
        if !host.copyOk(dir, backupDir) {
          return [], false;
        }
        fs.backups := fs.backups + [backupDir];
      }
    }
    match ListingOf(fs.dirs, dir) {
      case Unreadable(_) =>
        return [], false;
      case Readable(items) =>
        var kept;
        kept, cleared, ok := SweepDir(dir, items, host.deleteOk);
        fs.dirs := fs.dirs[dir := Readable(kept)];
        assert [] + cleared == cleared;
    }
  }

  /**
   * `clear_font_cache`: every cache directory in turn, whatever happened to
   * the ones before; returns the `success` flag and the deleted paths.
   */
  method ClearFontCache(fs: CacheFs, cleaner: Cleaner, backup: bool, host: CacheHost)
      returns (success: bool, clearedFiles: seq<string>)
    modifies fs
    ensures ClearAll(ClearState(old(fs.dirs), old(fs.backups), [], true), cleaner.cacheDirs, backup, host) ==
            ClearState(fs.dirs, fs.backups, clearedFiles, success)
  {
    var cacheDirs := cleaner.cacheDirs;
    ghost var start := ClearState(fs.dirs, fs.backups, [], true);
    success := true;
    clearedFiles := [];
    var i := 0;
    while i < |cacheDirs|
      invariant 0 <= i <= |cacheDirs|
      invariant ClearAll(start, cacheDirs[..i], backup, host) == ClearState(fs.dirs, fs.backups, clearedFiles, success)
    {
      var cacheDir := cacheDirs[i];
      ClearLoopStep(start, cacheDirs, i, backup, host, fs.dirs, fs.backups, clearedFiles, success);
      var cleared, ok := ClearCacheDir(fs, cacheDir, backup, host);
      clearedFiles := clearedFiles + cleared;
      success := success && ok;
      i := i + 1;
    }
    assert cacheDirs[..i] == cacheDirs;
  }

  /** A regular file named `ttf` in a cache directory is not selected and is still there after a run. */
  lemma TtfFileStays(s: ClearState, dirs: seq<string>, backup: bool, host: CacheHost, dir: string, size: nat)
    requires ListingOf(s.dirs, dir).Readable? && Item("ttf", File(size)) in ListingOf(s.dirs, dir).items
    ensures var after := ListingOf(ClearAll(s, dirs, backup, host).dirs, dir);
      after.Readable? && Item("ttf", File(size)) in after.items
  {
    assert !StartsWith("ttf", "fontlist-");
    ClearAllKeepsUnselected(s, dirs, backup, host, dir, Item("ttf", File(size)));
  }

  // ---------------------------------------------------------------------------
  // Verifying the font registry, and the full reset
  // ---------------------------------------------------------------------------

  /** The substrings `verify_font_cache` looks for in a lowercased font name. */
  const VerifyKeywords: seq<string> := [
    "simhei", "simsun", "kaiti", "fangsong", "yahei", "wenquanyi", "noto.*cjk", "source.*han", "cjk"
  ]

  /** Some keyword occurs, as a literal substring, in the lowercased name. */
  predicate IsChineseName(font: string) {
    exists i :: 0 <= i < |VerifyKeywords| && Contains(Lower(font), VerifyKeywords[i])
  }

  function KeepChinese(font: string): Option<string> {
    if IsChineseName(font) then Some(font) else None
  }

  /** The Chinese fonts among `fonts`, in order, each once per occurrence. */
  function ChineseNames(fonts: seq<string>): seq<string> {
    FilterMap(fonts, KeepChinese)
  }

  lemma ChineseNamesMembers(fonts: seq<string>)
    ensures forall f :: f in ChineseNames(fonts) <==> f in fonts && IsChineseName(f)
    ensures NoDuplicates(fonts) ==> NoDuplicates(ChineseNames(fonts))
  {
    forall f ensures f in ChineseNames(fonts) <==> f in fonts && IsChineseName(f) {
      FilterMapMembers(fonts, KeepChinese, f);
      if f in fonts && IsChineseName(f) {
        var i :| 0 <= i < |fonts| && fonts[i] == f;
        assert KeptAt(fonts, KeepChinese, i, f);
      }
    }
    if NoDuplicates(fonts) {
      ChineseNamesDistinct(fonts);
    }
  }

  lemma {:induction false} ChineseNamesDistinct(fonts: seq<string>)
    requires NoDuplicates(fonts)
    ensures NoDuplicates(ChineseNames(fonts))
    ensures forall f :: f in ChineseNames(fonts) ==> f in fonts
  {
    if fonts != [] {
      var init := fonts[..|fonts| - 1];
      var last := fonts[|fonts| - 1];
      assert NoDuplicates(init);
      ChineseNamesDistinct(init);
      assert forall f :: f in init ==> f != last;
      var r := ChineseNames(fonts);
      var r0 := ChineseNames(init);
      assert r == r0 + (if IsChineseName(last) then [last] else []);
      assert forall i :: 0 <= i < |r0| ==> r[i] == r0[i] && r0[i] in r0;
    }
  }

  /** The result of `verify_font_cache`. */
  datatype Verification = Verification(success: bool, fontFound: bool, availableFonts: seq<string>,
                                       chineseFonts: seq<string>, targetFont: Option<string>,
                                       cacheStatus: string, recommendations: seq<string>)

  const NoChineseFont := "未找到中文字体，建议安装字体或清理缓存"
  const CacheEmptied := "缓存已清理，matplotlib将重新扫描字体"

  /** Python's truth value of the optional `font_name` argument. */
  predicate Truthy(fontName: Option<string>) {
    fontName.Some? && fontName.value != ""
  }

  /**
   * `verify_font_cache` for matplotlib's registry of font names (or the
   * message of the exception raised reading it), the requested font, and
   * the entry count `get_cache_info` reports.
   */
  function Verify(registry: Result<seq<string>, string>, fontName: Option<string>, cacheCount: nat): Verification {
    match registry
    case Err(error) => Verification(false, false, [], [], None, "error", ["验证过程出错: " + error])
    case Ok(names) =>
      var available := Dedup(names);
      var chinese := ChineseNames(available);
      var found := Truthy(fontName) && fontName.value in available;
      Verification(chinese != [], found, available, chinese, if Truthy(fontName) then fontName else None,
                   "loaded", TargetNote(fontName, found) + FontsNote(chinese) + CacheNote(cacheCount))
  }

  /** The note on the requested font, if one was given. */
  function TargetNote(fontName: Option<string>, found: bool): seq<string> {
    if !Truthy(fontName) then []
    else if found then ["字体 '" + fontName.value + "' 可用"]
    else ["字体 '" + fontName.value + "' 不可用"]
  }

  /** The note on the number of Chinese fonts found. */
  function FontsNote(chinese: seq<string>): seq<string> {
    if chinese != [] then ["找到 " + IntToString(|chinese|) + " 个中文字体"] else [NoChineseFont]
  }

  /** The note added when `get_cache_info` finds no cache entry. */
  function CacheNote(cacheCount: nat): seq<string> {
    if cacheCount == 0 then [CacheEmptied] else []
  }

  /**
   * Success means some registered name is Chinese by the keywords; it does not
   * depend on the requested font or on the cache state.
   */
  lemma VerifySuccess(registry: Result<seq<string>, string>, fontName: Option<string>, cacheCount: nat)
    ensures Verify(registry, fontName, cacheCount).success <==>
      registry.Ok? && exists f :: f in registry.value && IsChineseName(f)
    ensures Verify(registry, fontName, cacheCount).success == Verify(registry, None, 0).success
  {
    if registry.Ok? {
      var available := Dedup(registry.value);
      ChineseNamesMembers(available);
      if exists f :: f in registry.value && IsChineseName(f) {
        var f :| f in registry.value && IsChineseName(f);
        assert f in ChineseNames(available);
      }
      if ChineseNames(available) != [] {
        assert ChineseNames(available)[0] in ChineseNames(available);
      }
    }
  }

  /**
   * The requested font is found exactly when it is a non-empty name registered
   * with matplotlib; the available list is the registry without duplicates and
   * the Chinese list is the Chinese names among it.
   */
  lemma VerifyFontFound(names: seq<string>, fontName: Option<string>, cacheCount: nat)
    ensures var v := Verify(Ok(names), fontName, cacheCount);
      && (v.fontFound <==> Truthy(fontName) && fontName.value in names)
      && NoDuplicates(v.availableFonts) && (forall f :: f in v.availableFonts <==> f in names)
      && NoDuplicates(v.chineseFonts) && (forall f :: f in v.chineseFonts <==> f in names && IsChineseName(f))
      && v.cacheStatus == "loaded"
  {
    ChineseNamesMembers(Dedup(names));
  }

  /** The keyword loop for one name, leaving at the first keyword that occurs. */
  method HasChineseKeyword(font: string) returns (found: bool)
    ensures found == IsChineseName(font)
  {
    var fontLower := Lower(font);
    var i := 0;
    while i < |VerifyKeywords|
      invariant 0 <= i <= |VerifyKeywords|
      invariant forall j :: 0 <= j < i ==> !Contains(fontLower, VerifyKeywords[j])
    {
      if Contains(fontLower, VerifyKeywords[i]) {
        return true;
      }
      i := i + 1;
    }
    return false;
  }

  /** The loop that collects the Chinese fonts among the available ones. */
  method CollectChineseFonts(available: seq<string>) returns (chinese: seq<string>)
    ensures chinese == ChineseNames(available)
  {
    chinese := [];
    var i := 0;
    while i < |available|
      invariant 0 <= i <= |available|
      invariant chinese == ChineseNames(available[..i])
    {
      var font := available[i];
      assert available[..i + 1][..i] == available[..i];
      var found := HasChineseKeyword(font);
      if found {
        chinese := chinese + [font];
      }
      i := i + 1;
    }
    assert available[..i] == available;
  }

  /** The check of the requested font against the available ones. */
  method CheckTarget(fontName: Option<string>, available: seq<string>)
      returns (fontFound: bool, targetFont: Option<string>, notes: seq<string>)
    ensures fontFound == (Truthy(fontName) && fontName.value in available)
    ensures targetFont == if Truthy(fontName) then fontName else None
    ensures notes == TargetNote(fontName, fontFound)
  {
    notes := [];
    fontFound := false;
    targetFont := None;
    if Truthy(fontName) {
      targetFont := fontName;
      if fontName.value in available {
        fontFound := true;
        notes := notes + ["字体 '" + fontName.value + "' 可用"];
      } else {
        notes := notes + ["字体 '" + fontName.value + "' 不可用"];
      }
    }
  }

  /** `verify_font_cache`, reading the cache state with `get_cache_info`. */
  method VerifyFontCache(fs: CacheFs, cleaner: Cleaner, registry: Result<seq<string>, string>, fontName: Option<string>)
      returns (result: Verification)
    ensures result == Verify(registry, fontName, |CacheFilesOf(fs.dirs, cleaner.cacheDirs)|)
  {
    if registry.Err? {
      return Verification(false, false, [], [], None, "error", ["验证过程出错: " + registry.error]);
    }
    var available := Dedup(registry.value);
    var chinese := CollectChineseFonts(available);
    var fontFound, targetFont, recommendations := CheckTarget(fontName, available);
    var success := false;
    if chinese != [] {
      recommendations := recommendations + ["找到 " + IntToString(|chinese|) + " 个中文字体"];
      success := true;
    } else {
      recommendations := recommendations + [NoChineseFont];
    }
    var cacheInfo := GetCacheInfo(fs, cleaner);
    if cacheInfo.cacheCount == 0 {
      recommendations := recommendations + [CacheEmptied];
    } else {
      assert recommendations + [] == recommendations;
    }
    result := Verification(success, fontFound, available, chinese, targetFont, "loaded", recommendations);
  }

  /**
   * `full_reset`: clear, rebuild, verify. The outcome is verification success
   * alone: neither the clearing result nor the rebuild result (`rebuildOk`,
   * matplotlib's answer) affects it.
   */
  method FullReset(fs: CacheFs, cleaner: Cleaner, backup: bool, host: CacheHost, rebuildOk: bool,
                   registry: Result<seq<string>, string>) returns (ok: bool)
    modifies fs
    ensures var r := ClearAll(ClearState(old(fs.dirs), old(fs.backups), [], true), cleaner.cacheDirs, backup, host);
      fs.dirs == r.dirs && fs.backups == r.backups
    ensures ok <==> registry.Ok? && exists f :: f in registry.value && IsChineseName(f)
  {
    var cleared, _ := ClearFontCache(fs, cleaner, backup, host);
    var rebuilt := rebuildOk;
    var verification := VerifyFontCache(fs, cleaner, registry, None);
    VerifySuccess(registry, None, |CacheFilesOf(fs.dirs, cleaner.cacheDirs)|);
    ok := verification.success;
  }
}
