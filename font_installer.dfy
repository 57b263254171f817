/**
 * System font discovery, Chinese-font classification and the install decision
 * flow (utils/font_installer.py). The filesystem, the network and the external
 * commands are oracles: `FontFs` answers existence and directory walks, `Host`
 * answers whether each copy, download and command succeeds.
 */
module FontInstaller {
  import opened Wrappers
  import opened Text
  import opened Paths
  import opened NtPaths
  import opened Seqs
  import opened Dicts

  /** `os.path.expanduser("~" + tail)` with the home directory `home`. */
  function ExpandUser(home: string, tail: string): string {
    RStripSlashes(home) + tail
  }

  /** `ntpath.expanduser("~" + tail)`: unlike the POSIX form it keeps a trailing separator of `home`. */
  function NtExpandUser(home: string, tail: string): string {
    home + tail
  }

  /** `SYSTEM_FONT_PATHS.get(system, [])`: the font directories configured per platform. */
  function SystemFontPaths(system: string, home: string): seq<string> {
    if system == "Windows" then
      ["C:/Windows/Fonts", NtExpandUser(home, "/AppData/Local/Microsoft/Windows/Fonts")]
    else if system == "Darwin" then
      ["/System/Library/Fonts", "/Library/Fonts", ExpandUser(home, "/Library/Fonts")]
    else if system == "Linux" then
      ["/usr/share/fonts", "/usr/local/share/fonts", ExpandUser(home, "/.fonts"),
       ExpandUser(home, "/.local/share/fonts")]
    else []
  }

  /** The two fields `FontInstaller.__init__` sets; neither changes afterwards. */
  datatype Installer = Installer(system: string, fontPaths: seq<string>)

  predicate Supported(system: string) {
    system == "Windows" || system == "Darwin" || system == "Linux"
  }

  /** `FontInstaller()` on a host whose `platform.system()` is `system`. */
  function NewInstaller(system: string, home: string): (inst: Installer)
    ensures inst.system == system
    ensures !Supported(system) ==> inst.fontPaths == []
    ensures Supported(system) ==> |inst.fontPaths| >= 2
    ensures system == "Linux" ==> "/usr/share/fonts" in inst.fontPaths && "/usr/local/share/fonts" in inst.fontPaths
  {
    Installer(system, SystemFontPaths(system, home))
  }

  /** One directory visited by `os.walk`: its path and the names of its files. */
  datatype WalkDir = WalkDir(root: string, files: seq<string>)

  /**
   * The filesystem as the scanner sees it: the paths that exist, and the walk of
   * each one (`None` when walking it raises `PermissionError` or `OSError`).
   */
  datatype FontFs = FontFs(existing: set<string>, walk: string -> Option<seq<WalkDir>>)

  /** The configured paths that exist, in configured order. */
  function ExistingPaths(paths: seq<string>, existing: set<string>): (r: seq<string>)
    ensures forall p :: p in r <==> p in paths && p in existing
    ensures |r| <= |paths|
  {
    if paths == [] then []
    else
      var init := ExistingPaths(paths[..|paths| - 1], existing);
      var last := paths[|paths| - 1];
      assert forall p :: p in paths <==> p in paths[..|paths| - 1] || p == last;
      if last in existing then init + [last] else init
  }

  /** Existence filtering keeps order: filtering a concatenation concatenates the filtered parts. */
  lemma {:induction false} ExistingPathsAppend(a: seq<string>, b: seq<string>, existing: set<string>)
    ensures ExistingPaths(a + b, existing) == ExistingPaths(a, existing) + ExistingPaths(b, existing)
    decreases |b|
  {
    if b == [] {
      assert a + b == a;
    } else {
      var b0 := b[..|b| - 1];
      assert (a + b)[..|a + b| - 1] == a + b0;
      ExistingPathsAppend(a, b0, existing);
    }
  }

  /** When every configured path exists, all of them are returned, in order. */
  lemma {:induction false} ExistingPathsAll(paths: seq<string>, existing: set<string>)
    requires forall p :: p in paths ==> p in existing
    ensures ExistingPaths(paths, existing) == paths
  {
    if paths != [] {
      var init := paths[..|paths| - 1];
      assert paths[|paths| - 1] in paths;
      ExistingPathsAll(init, existing);
      assert init + [paths[|paths| - 1]] == paths;
    }
  }

  /** `get_system_font_paths`. */
  method GetSystemFontPaths(inst: Installer, fs: FontFs) returns (existingPaths: seq<string>)
    ensures existingPaths == ExistingPaths(inst.fontPaths, fs.existing)
    ensures forall p :: p in existingPaths <==> p in inst.fontPaths && p in fs.existing
    ensures inst.fontPaths == [] ==> existingPaths == []
  {
    existingPaths := [];
    var i := 0;
    while i < |inst.fontPaths|
      invariant 0 <= i <= |inst.fontPaths|
      invariant existingPaths == ExistingPaths(inst.fontPaths[..i], fs.existing)
    {
      assert inst.fontPaths[..i + 1][..i] == inst.fontPaths[..i];
      if inst.fontPaths[i] in fs.existing {
        existingPaths := existingPaths + [inst.fontPaths[i]];
      }
      i := i + 1;
    }
    assert inst.fontPaths[..i] == inst.fontPaths;
  }

  /** An unsupported platform has no font paths, so nothing is scanned on it. */
  lemma UnsupportedHasNoPaths(system: string, home: string, fs: FontFs)
    requires !Supported(system)
    ensures ExistingPaths(NewInstaller(system, home).fontPaths, fs.existing) == []
  {
  }

  /** The index of the last `c` in `s`, or -1 (`str.rfind`). */
  function LastIndexOf(s: string, c: char): (i: int)
    ensures -1 <= i < |s|
    ensures i >= 0 ==> s[i] == c
    ensures forall j :: i < j < |s| ==> s[j] != c
  {
    if s == [] then -1
    else if s[|s| - 1] == c then |s| - 1
    else LastIndexOf(s[..|s| - 1], c)
  }

  /** `Path(file).suffix`: from the last dot of the final component, unless that dot is its first or last character. */
  function Suffix(file: string): (r: string)
    ensures r != [] ==> r[0] == '.' && EndsWith(Basename(file), r)
    ensures '.' !in Basename(file) ==> r == []
    ensures var n := Basename(file);
      r != [] <==> exists i :: 0 < i < |n| - 1 && n[i] == '.' && '.' !in n[i + 1..]
    ensures var n := Basename(file);
      r != [] ==> '.' !in r[1..] && 2 <= |r| < |n| && r == n[|n| - |r|..]
  {
    var name := Basename(file);
    var i := LastIndexOf(name, '.');
    if 0 < i < |name| - 1 then
      assert name[|name| - |name[i..]|..] == name[i..];
      name[i..]
    else ""
  }

  const FontExtensions: set<string> := {".ttf", ".otf", ".ttc", ".woff", ".woff2"}

  /** The extension test of `scan_system_fonts`, case-insensitive. */
  predicate IsFontFile(file: string) {
    Lower(Suffix(file)) in FontExtensions
  }

  /** The path `scan_system_fonts` records for `file` in directory `root`, if it has a font extension. */
  function FontPathIn(root: string): string -> Option<string> {
    file => if IsFontFile(file) then Some(Join(root, file)) else None
  }

  /** The font files among the `files` of one walked directory, joined to its `root`, in listing order. */
  function FontsInDir(root: string, files: seq<string>): seq<string> {
    FilterMap(files, FontPathIn(root))
  }

  /** `f` is the path of the font file at position `j` of `files`. */
  predicate FontFileAt(root: string, files: seq<string>, j: int, f: string) {
    0 <= j < |files| && IsFontFile(files[j]) && f == Join(root, files[j])
  }

  /** A directory contributes exactly its files with a font extension, each joined to the directory. */
  lemma FontsInDirMembers(root: string, files: seq<string>, f: string)
    ensures f in FontsInDir(root, files) <==> exists j :: FontFileAt(root, files, j, f)
    ensures |FontsInDir(root, files)| <= |files|
  {
    FilterMapMembers(files, FontPathIn(root), f);
    forall j ensures KeptAt(files, FontPathIn(root), j, f) <==> FontFileAt(root, files, j, f) {
    }
  }

  /** The font files of one visited directory. */
  function StepFonts(step: WalkDir): seq<string> {
    FontsInDir(step.root, step.files)
  }

  /** The font files found by a whole walk, in walk order. */
  function FontsUnder(steps: seq<WalkDir>): seq<string> {
    ConcatMap(steps, StepFonts)
  }

  /** A walk contributes exactly the font files of the directories it visits. */
  lemma FontsUnderMembers(steps: seq<WalkDir>, f: string)
    ensures f in FontsUnder(steps) <==> exists i :: 0 <= i < |steps| && f in FontsInDir(steps[i].root, steps[i].files)
  {
    ConcatMapMembers(steps, StepFonts, f);
    assert forall i :: PartAt(steps, StepFonts, i, f) <==> 0 <= i < |steps| && f in FontsInDir(steps[i].root, steps[i].files);
  }

  /** The walk of `p` succeeded and found at least one font file. */
  predicate HasFonts(walk: string -> Option<seq<WalkDir>>, p: string) {
    walk(p).Some? && FontsUnder(walk(p).value) != []
  }

  /** The dictionary `scan_system_fonts` builds over the existing paths `paths`. */
  function FontFilesOf(paths: seq<string>, walk: string -> Option<seq<WalkDir>>): Dict<seq<string>> {
    if paths == [] then []
    else
      var prev := FontFilesOf(paths[..|paths| - 1], walk);
      var p := paths[|paths| - 1];
      if HasFonts(walk, p) then Put(prev, p, FontsUnder(walk(p).value)) else prev
  }

  /**
   * A path is a key exactly when it was scanned, its walk succeeded and found
   * fonts; its value is then every font file of the walk.
   */
  lemma {:induction false} FontFilesOfGet(paths: seq<string>, walk: string -> Option<seq<WalkDir>>, x: string)
    ensures Get(FontFilesOf(paths, walk), x) ==
      if x in paths && HasFonts(walk, x) then Some(FontsUnder(walk(x).value)) else None
  {
    if paths != [] {
      var init := paths[..|paths| - 1];
      var p := paths[|paths| - 1];
      assert forall q :: q in paths <==> q in init || q == p;
      FontFilesOfGet(init, walk, x);
      if HasFonts(walk, p) {
        PutGet(FontFilesOf(init, walk), p, FontsUnder(walk(p).value), x);
      }
    }
  }

  lemma {:induction false} FontFilesOfDistinct(paths: seq<string>, walk: string -> Option<seq<WalkDir>>)
    ensures NoDuplicates(Keys(FontFilesOf(paths, walk)))
  {
    if paths != [] {
      var init := paths[..|paths| - 1];
      var p := paths[|paths| - 1];
      FontFilesOfDistinct(init, walk);
      if HasFonts(walk, p) {
        PutKeysDistinct(FontFilesOf(init, walk), p, FontsUnder(walk(p).value));
      }
    }
  }

  /** What `scan_system_fonts` returns for an installer on a filesystem. */
  function ScannedFonts(inst: Installer, fs: FontFs): Dict<seq<string>> {
    FontFilesOf(ExistingPaths(inst.fontPaths, fs.existing), fs.walk)
  }

  /** The file loop of `scan_system_fonts` for one directory of the walk. */
  method DirFonts(root: string, files: seq<string>) returns (fonts: seq<string>)
    ensures fonts == FontsInDir(root, files)
  {
    fonts := [];
    var j := 0;
    while j < |files|
      invariant 0 <= j <= |files|
      invariant fonts == FontsInDir(root, files[..j])
    {
      FilterMapStep(files, FontPathIn(root), j);
      if IsFontFile(files[j]) {
        fonts := fonts + [Join(root, files[j])];
      }
      j := j + 1;
    }
    assert files[..j] == files;
  }

  /** The `os.walk` loop of `scan_system_fonts` for one configured path. */
  method WalkFonts(steps: seq<WalkDir>) returns (fontsInPath: seq<string>)
    ensures fontsInPath == FontsUnder(steps)
  {
    fontsInPath := [];
    var k := 0;
    while k < |steps|
      invariant 0 <= k <= |steps|
      invariant fontsInPath == FontsUnder(steps[..k])
    {
      var found := DirFonts(steps[k].root, steps[k].files);
      assert steps[..k + 1][..k] == steps[..k];
      assert FontsUnder(steps[..k + 1]) == FontsUnder(steps[..k]) + StepFonts(steps[k]);
      fontsInPath := fontsInPath + found;
      k := k + 1;
    }
    assert steps[..k] == steps;
  }

  /** `scan_system_fonts`. */
  method ScanSystemFonts(inst: Installer, fs: FontFs) returns (fontFiles: Dict<seq<string>>)
    ensures fontFiles == ScannedFonts(inst, fs)
    ensures NoDuplicates(Keys(fontFiles))
    ensures forall p :: (Get(fontFiles, p) ==
      if p in inst.fontPaths && p in fs.existing && HasFonts(fs.walk, p) then Some(FontsUnder(fs.walk(p).value)) else None)
  {
    var paths := GetSystemFontPaths(inst, fs);
    fontFiles := [];
    var i := 0;
    while i < |paths|
      invariant 0 <= i <= |paths|
      invariant fontFiles == FontFilesOf(paths[..i], fs.walk)
    {
      var fontPath := paths[i];
      assert paths[..i + 1][..i] == paths[..i];
      if fs.walk(fontPath).Some? {
        var fontsInPath := WalkFonts(fs.walk(fontPath).value);
        if fontsInPath != [] {
          fontFiles := Put(fontFiles, fontPath, fontsInPath);
        }
      }
      i := i + 1;
    }
    assert paths[..i] == paths;
    FontFilesOfDistinct(paths, fs.walk);
    forall p ensures Get(fontFiles, p) ==
      if p in inst.fontPaths && p in fs.existing && HasFonts(fs.walk, p) then Some(FontsUnder(fs.walk(p).value)) else None
    {
      FontFilesOfGet(paths, fs.walk, p);
    }
  }

  /** The substrings that mark a file name as a Chinese font, tried in this order. */
  const ChineseKeywords: seq<string> := [
    "simhei", "simsun", "kaiti", "fangsong", "yahei",
    "wenquanyi", "noto.*cjk", "source.*han", "cjk",
    "黑体", "宋体", "楷体", "仿宋", "微软雅黑"
  ]

  /** One entry of `detect_chinese_fonts`. */
  datatype FontEntry = FontEntry(name: string, path: string, kind: string, keyword: string)

  /** "`keyword` is a substring of `name`", as a test to scan the keywords with. */
  function OccursIn(name: string): string -> bool {
    keyword => Contains(name, keyword)
  }

  /** The entry `detect_chinese_fonts` makes for one font file, if any keyword occurs in its lowercased basename. */
  function Classify(file: string): Option<FontEntry> {
    match FirstWhere(ChineseKeywords, OccursIn(Lower(Basename(file))))
    case None => None
    case Some(keyword) => Some(FontEntry(Basename(file), file, "system", keyword))
  }

  /**
   * A file gets an entry exactly when some keyword occurs in its lowercased
   * basename; the entry keeps the original basename and path, type "system",
   * and the first keyword in list order that occurs.
   */
  lemma ClassifyMeaning(file: string)
    ensures Classify(file).None? <==>
      forall i :: 0 <= i < |ChineseKeywords| ==> !Contains(Lower(Basename(file)), ChineseKeywords[i])
    ensures Classify(file).Some? ==>
      && Classify(file).value.name == Basename(file) && Classify(file).value.path == file
      && Classify(file).value.kind == "system"
      && exists i :: FirstAt(ChineseKeywords, OccursIn(Lower(Basename(file))), i) &&
                    ChineseKeywords[i] == Classify(file).value.keyword
  {
    var lowered := Lower(Basename(file));
    forall i | 0 <= i < |ChineseKeywords| ensures OccursIn(lowered)(ChineseKeywords[i]) == Contains(lowered, ChineseKeywords[i]) {
    }
  }

  /** The keyword loop of `detect_chinese_fonts` for one file, leaving at the first match. */
  method ClassifyFile(fontFile: string) returns (entry: Option<FontEntry>)
    ensures entry == Classify(fontFile)
  {
    var fontName := Lower(Basename(fontFile));
    var i := 0;
    while i < |ChineseKeywords|
      invariant 0 <= i <= |ChineseKeywords|
      invariant forall j :: 0 <= j < i ==> !Contains(fontName, ChineseKeywords[j])
    {
      var keyword := ChineseKeywords[i];
      if Contains(fontName, keyword) {
        assert FirstAt(ChineseKeywords, OccursIn(fontName), i);
        FirstWhereAt(ChineseKeywords, OccursIn(fontName), i);
        return Some(FontEntry(Basename(fontFile), fontFile, "system", keyword));
      }
      i := i + 1;
    }
    assert forall j :: 0 <= j < |ChineseKeywords| ==> !OccursIn(fontName)(ChineseKeywords[j]);
    return None;
  }

  /** The entries for a list of files, in file order, at most one per file. */
  function ClassifyAll(files: seq<string>): seq<FontEntry> {
    FilterMap(files, Classify)
  }

  /** Every entry is the classification of one of the files, and every classified file has its entry. */
  lemma ClassifyAllMembers(files: seq<string>)
    ensures forall e :: e in ClassifyAll(files) ==> e.path in files && Classify(e.path) == Some(e)
    ensures forall f :: f in files && Classify(f).Some? ==> Classify(f).value in ClassifyAll(files)
    ensures |ClassifyAll(files)| <= |files|
  {
    forall e | e in ClassifyAll(files) ensures e.path in files && Classify(e.path) == Some(e) {
      FilterMapMembers(files, Classify, e);
      var i :| KeptAt(files, Classify, i, e);
      assert Classify(files[i]).value.path == files[i];
    }
    forall f | f in files && Classify(f).Some? ensures Classify(f).value in ClassifyAll(files) {
      var i :| 0 <= i < |files| && files[i] == f;
      FilterMapMembers(files, Classify, Classify(f).value);
      assert KeptAt(files, Classify, i, Classify(f).value);
    }
  }

  /** The entries made for one item of the scanner's dictionary. */
  function ItemFonts(item: (string, seq<string>)): seq<FontEntry> {
    ClassifyAll(item.1)
  }

  /** The entries `detect_chinese_fonts` produces from the scanner's dictionary, in dictionary order. */
  function ChineseFontsOf(fontFiles: Dict<seq<string>>): seq<FontEntry> {
    ConcatMap(fontFiles, ItemFonts)
  }

  /** What `detect_chinese_fonts` returns for an installer on a filesystem. */
  function DetectedFonts(inst: Installer, fs: FontFs): seq<FontEntry> {
    ChineseFontsOf(ScannedFonts(inst, fs))
  }

  /** The file loop of `detect_chinese_fonts` for one entry of the dictionary. */
  method ClassifyFiles(fonts: seq<string>) returns (entries: seq<FontEntry>)
    ensures entries == ClassifyAll(fonts)
  {
    entries := [];
    var j := 0;
    while j < |fonts|
      invariant 0 <= j <= |fonts|
      invariant entries == ClassifyAll(fonts[..j])
    {
      var entry := ClassifyFile(fonts[j]);
      FilterMapStep(fonts, Classify, j);
      if entry.Some? {
        entries := entries + [entry.value];
      }
      j := j + 1;
    }
    assert fonts[..j] == fonts;
  }

  /** `detect_chinese_fonts`. */
  method DetectChineseFonts(inst: Installer, fs: FontFs) returns (chineseFonts: seq<FontEntry>)
    ensures chineseFonts == DetectedFonts(inst, fs)
    ensures forall e :: e in chineseFonts ==> Classify(e.path) == Some(e) && e.kind == "system"
  {
    var fontFiles := ScanSystemFonts(inst, fs);
    chineseFonts := ClassifyScanned(fontFiles);
    ChineseFontsClassified(fontFiles);
  }

  /** The loop of `detect_chinese_fonts` over the scanner's dictionary. */
  method ClassifyScanned(fontFiles: Dict<seq<string>>) returns (chineseFonts: seq<FontEntry>)
    ensures chineseFonts == ChineseFontsOf(fontFiles)
  {
    chineseFonts := [];
    var i := 0;
    while i < |fontFiles|
      invariant 0 <= i <= |fontFiles|
      invariant chineseFonts == ChineseFontsOf(fontFiles[..i])
    {
      var entries := ClassifyFiles(fontFiles[i].1);
      assert fontFiles[..i + 1][..i] == fontFiles[..i];
      assert ChineseFontsOf(fontFiles[..i + 1]) == ChineseFontsOf(fontFiles[..i]) + ItemFonts(fontFiles[i]);
      chineseFonts := chineseFonts + entries;
      i := i + 1;
    }
    assert fontFiles[..i] == fontFiles;
  }

  /** Every detected entry is the classification of its own path. */
  lemma ChineseFontsClassified(fontFiles: Dict<seq<string>>)
    ensures forall e :: e in ChineseFontsOf(fontFiles) ==> Classify(e.path) == Some(e) && e.kind == "system"
  {
    forall e | e in ChineseFontsOf(fontFiles) ensures Classify(e.path) == Some(e) && e.kind == "system" {
      ConcatMapMembers(fontFiles, ItemFonts, e);
      var k :| PartAt(fontFiles, ItemFonts, k, e);
      ClassifyAllMembers(fontFiles[k].1);
    }
  }

  /**
   * A Noto CJK file (basename "NotoSansCJK-Regular.ttc" in any case) is tagged by
   * the plain "cjk" keyword: "noto.*cjk" is a literal, not a pattern, so it does not match.
   */
  lemma ClassifyNotoCjk(file: string)
    requires Lower(Basename(file)) == "notosanscjk-regular.ttc"
    ensures Classify(file) == Some(FontEntry(Basename(file), file, "system", "cjk"))
  {
    NotoKeyword();
  }

  lemma NotoKeyword()
    ensures FirstWhere(ChineseKeywords, OccursIn("notosanscjk-regular.ttc")) == Some("cjk")
  {
    var name := "notosanscjk-regular.ttc";
    NotoMisses();
    ContainsAt(name, "cjk", 8);
    assert FirstAt(ChineseKeywords, OccursIn(name), 8);
    FirstWhereAt(ChineseKeywords, OccursIn(name), 8);
  }

  /** None of the eight keywords before "cjk" occurs in the lowercased Noto CJK name. */
  lemma NotoMisses()
    ensures forall j :: 0 <= j < 8 ==> !Contains("notosanscjk-regular.ttc", ChineseKeywords[j])
  {
    NotoMissesFamilies();
    NotoMissesGeneric();
  }

  lemma NotoMissesFamilies()
    ensures !Contains("notosanscjk-regular.ttc", "simhei") && !Contains("notosanscjk-regular.ttc", "simsun")
    ensures !Contains("notosanscjk-regular.ttc", "kaiti") && !Contains("notosanscjk-regular.ttc", "fangsong")
  {
    NotContainsChar("notosanscjk-regular.ttc", "simhei", 3);
    NotContainsChar("notosanscjk-regular.ttc", "simsun", 1);
    NotContainsChar("notosanscjk-regular.ttc", "kaiti", 2);
    NotContainsChar("notosanscjk-regular.ttc", "fangsong", 0);
  }

  lemma NotoMissesGeneric()
    ensures !Contains("notosanscjk-regular.ttc", "yahei") && !Contains("notosanscjk-regular.ttc", "wenquanyi")
    ensures !Contains("notosanscjk-regular.ttc", "noto.*cjk") && !Contains("notosanscjk-regular.ttc", "source.*han")
  {
    NotContainsChar("notosanscjk-regular.ttc", "yahei", 0);
    NotContainsChar("notosanscjk-regular.ttc", "wenquanyi", 0);
    NotContainsChar("notosanscjk-regular.ttc", "noto.*cjk", 5);
    NotContainsChar("notosanscjk-regular.ttc", "source.*han", 7);
  }

  /** A name without '*' is never tagged by one of the two pattern-looking keywords. */
  lemma ClassifyPatternsAreLiteral(file: string)
    requires '*' !in Lower(Basename(file))
    ensures Classify(file).Some? ==> Classify(file).value.keyword != "noto.*cjk" && Classify(file).value.keyword != "source.*han"
  {
    NotContainsChar(Lower(Basename(file)), "noto.*cjk", 5);
    NotContainsChar(Lower(Basename(file)), "source.*han", 7);
  }

  const NoFontAdvice := "系统中未检测到中文字体，建议安装字体"
  const AptAdvice := "Linux用户可运行: sudo apt-get install fonts-wqy-zenhei"
  const WindowsAdvice := "Windows用户需要手动下载并安装中文字体"
  const InstalledNote := "系统已安装中文字体"

  /** What `check_font_installation_status` returns. */
  datatype InstallationStatus = InstallationStatus(
    system: string,
    fontPaths: seq<string>,
    chineseFonts: seq<FontEntry>,
    fontCount: nat,
    recommendations: seq<string>)

  /** `check_font_installation_status`: the status record, then its count and recommendations filled in. */
  method CheckFontInstallationStatus(inst: Installer, fs: FontFs) returns (status: InstallationStatus)
    ensures status.system == inst.system
    ensures status.fontPaths == ExistingPaths(inst.fontPaths, fs.existing)
    ensures status.chineseFonts == DetectedFonts(inst, fs)
    ensures status.fontCount == |status.chineseFonts|
    ensures status.fontCount == 0 ==>
      && |status.recommendations| >= 1 && status.recommendations[0] == NoFontAdvice
      && (|status.recommendations| == 2 <==> inst.system == "Linux" || inst.system == "Windows")
      && (inst.system == "Linux" ==> status.recommendations == [NoFontAdvice, AptAdvice])
      && (inst.system == "Windows" ==> status.recommendations == [NoFontAdvice, WindowsAdvice])
      && (inst.system != "Linux" && inst.system != "Windows" ==> status.recommendations == [NoFontAdvice])
    ensures status.fontCount > 0 ==> status.recommendations == [InstalledNote]
  {
    var paths := GetSystemFontPaths(inst, fs);
    var fonts := DetectChineseFonts(inst, fs);
    status := InstallationStatus(inst.system, paths, fonts, 0, []);
    status := status.(fontCount := |status.chineseFonts|);
    if status.fontCount == 0 {
      status := status.(recommendations := status.recommendations + [NoFontAdvice]);
      if inst.system == "Linux" {
        status := status.(recommendations := status.recommendations + [AptAdvice]);
      } else if inst.system == "Windows" {
        status := status.(recommendations := status.recommendations + [WindowsAdvice]);
      }
    } else {
      status := status.(recommendations := status.recommendations + [InstalledNote]);
    }
  }

  /**
   * How the two `sudo apt-get` runs end: both succeed; one exits non-zero
   * (`CalledProcessError`, which the caller catches); or `subprocess.run`
   * raises anything else, as `FileNotFoundError` when there is no `sudo`.
   */
  datatype AptOutcome = AptInstalled | AptFailed | AptRaised

  /**
   * The outcomes of the host's side effects: the home directory, the WINDIR
   * variable, whether each directory creation, copy, command and download
   * succeeds, and whether the two `ctypes` calls of the Windows install
   * return without raising (their return values are not looked at).
   */
  datatype Host = Host(
    home: string,
    windir: Option<string>,
    makedirsOk: string -> bool,
    copyOk: (string, string) -> bool,
    fcCacheOk: bool,
    registerOk: bool,
    apt: AptOutcome,
    tempDir: string,
    fetchOk: (string, string) -> bool)

  /** An entry of `FONT_DOWNLOADS`. */
  datatype FontSource = FontSource(name: string, url: string, description: string)

  const FontDownloads: map<string, FontSource> := map[
    "simhei" := FontSource("SimHei", "https://github.com/StellarCN/scp_zh/raw/master/fonts/SimHei.ttf", "黑体"),
    "wqy-zenhei" := FontSource("WenQuanYi Zen Hei",
      "https://github.com/googlefonts/noto-cjk/raw/main/Sans/OTF/SimplifiedChinese/NotoSansCJKsc-Regular.otf",
      "文泉驿正黑")
  ]

  /** The directory `download_font` writes into: the given one, or a fresh temporary one. */
  function DownloadDir(destDir: Option<string>, host: Host): string {
    if destDir.Some? then destDir.value else host.tempDir
  }

  /** The file `download_font` writes for a known key: the entry's name with ".ttf", whatever the URL's extension. */
  function DownloadTarget(key: string, destDir: Option<string>, host: Host): string
    requires key in FontDownloads
  {
    Join(DownloadDir(destDir, host), FontDownloads[key].name + ".ttf")
  }

  /** `download_font`: the path of the downloaded file, or `None`. */
  function DownloadFont(key: string, destDir: Option<string>, host: Host): Option<string> {
    if key !in FontDownloads then None
    else
      var info := FontDownloads[key];
      if destDir.Some? && !host.makedirsOk(destDir.value) then None
      else
        var destPath := DownloadTarget(key, destDir, host);
        if host.fetchOk(info.url, destPath) then Some(destPath) else None
  }

  /**
   * An unknown key yields `None` without any download; a known key yields the
   * target path exactly when the directory can be made and the fetch succeeds,
   * and that path's file name is the entry's name with ".ttf".
   */
  lemma DownloadFontMeaning(key: string, destDir: Option<string>, host: Host)
    ensures key !in FontDownloads ==> DownloadFont(key, destDir, host).None?
    ensures key in FontDownloads ==>
      (DownloadFont(key, destDir, host).Some? <==>
        (destDir.None? || host.makedirsOk(destDir.value)) &&
        host.fetchOk(FontDownloads[key].url, DownloadTarget(key, destDir, host)))
    ensures DownloadFont(key, destDir, host).Some? ==>
      (key in FontDownloads && DownloadFont(key, destDir, host).value == DownloadTarget(key, destDir, host) &&
       Basename(DownloadFont(key, destDir, host).value) == FontDownloads[key].name + ".ttf")
  {
    if key in FontDownloads {
      var name := FontDownloads[key].name + ".ttf";
      assert '/' !in name;
      BasenameJoin(DownloadDir(destDir, host), name);
    }
  }

  /** The entry whose URL names an .otf file is still saved under a .ttf name. */
  lemma DownloadWqyIsTtf(destDir: Option<string>, host: Host)
    ensures EndsWith(FontDownloads["wqy-zenhei"].url, ".otf")
    ensures DownloadFont("wqy-zenhei", destDir, host).Some? ==>
      Basename(DownloadFont("wqy-zenhei", destDir, host).value) == "WenQuanYi Zen Hei.ttf"
  {
    DownloadFontMeaning("wqy-zenhei", destDir, host);
  }

  /** What an install attempt did: its target path, whether the copy happened, and what it returns. */
  datatype InstallOutcome = InstallOutcome(dest: Option<string>, copied: bool, ok: bool)

  function LinuxFontDir(userInstall: bool, home: string): string {
    if userInstall then ExpandUser(home, "/.local/share/fonts") else "/usr/local/share/fonts"
  }

  /** `install_font_linux`. */
  function InstallFontLinux(fontFile: string, userInstall: bool, host: Host): (r: InstallOutcome)
    ensures r.dest == Some(Join(LinuxFontDir(userInstall, host.home), Basename(fontFile)))
    ensures Basename(r.dest.value) == Basename(fontFile)
    ensures r.copied <==> host.makedirsOk(LinuxFontDir(userInstall, host.home)) && host.copyOk(fontFile, r.dest.value)
    ensures r.ok <==> r.copied && host.fcCacheOk
  {
    var fontDir := LinuxFontDir(userInstall, host.home);
    var destPath := Join(fontDir, Basename(fontFile));
    BasenameJoin(fontDir, Basename(fontFile));
    var copied := host.makedirsOk(fontDir) && host.copyOk(fontFile, destPath);
    InstallOutcome(Some(destPath), copied, copied && host.fcCacheOk)
  }

  /** A failing `fc-cache` makes the Linux install report failure although the file was copied. */
  lemma LinuxCacheFailureAfterCopy(fontFile: string, userInstall: bool, host: Host)
    requires !host.fcCacheOk
    ensures !InstallFontLinux(fontFile, userInstall, host).ok
    ensures (host.makedirsOk(LinuxFontDir(userInstall, host.home)) &&
      host.copyOk(fontFile, Join(LinuxFontDir(userInstall, host.home), Basename(fontFile)))) ==>
      InstallFontLinux(fontFile, userInstall, host).copied
  {
  }

  function MacosFontDir(userInstall: bool, home: string): string {
    if userInstall then ExpandUser(home, "/Library/Fonts") else "/Library/Fonts"
  }

  /** `install_font_macos`. */
  function InstallFontMacos(fontFile: string, userInstall: bool, host: Host): (r: InstallOutcome)
    ensures r.dest == Some(Join(MacosFontDir(userInstall, host.home), Basename(fontFile)))
    ensures Basename(r.dest.value) == Basename(fontFile)
    ensures r.copied <==> host.makedirsOk(MacosFontDir(userInstall, host.home)) && host.copyOk(fontFile, r.dest.value)
    ensures r.ok <==> r.copied
  {
    var fontDir := MacosFontDir(userInstall, host.home);
    var destPath := Join(fontDir, Basename(fontFile));
    BasenameJoin(fontDir, Basename(fontFile));
    var copied := host.makedirsOk(fontDir) && host.copyOk(fontFile, destPath);
    InstallOutcome(Some(destPath), copied, copied)
  }

  /**
   * `install_font_windows`, with Windows path rules: a missing WINDIR fails
   * before any path is formed; the `ctypes` calls only matter if they raise.
   */
  function InstallFontWindows(fontFile: string, host: Host): (r: InstallOutcome)
    ensures host.windir.None? ==> r == InstallOutcome(None, false, false)
    ensures host.windir.Some? ==>
      && r.dest == Some(NtJoin(NtJoin(host.windir.value, "Fonts"), NtBasename(fontFile)))
      && (!HasDrive(NtBasename(fontFile)) ==> NtBasename(r.dest.value) == NtBasename(fontFile))
      && (r.copied <==> host.copyOk(fontFile, r.dest.value))
    ensures r.ok <==> r.copied && host.registerOk
  {
    if host.windir.None? then InstallOutcome(None, false, false)
    else
      var fontDir := NtJoin(host.windir.value, "Fonts");
      var destPath := NtJoin(fontDir, NtBasename(fontFile));
      NtBasenameJoin(fontDir, NtBasename(fontFile));
      var copied := host.copyOk(fontFile, destPath);
      InstallOutcome(Some(destPath), copied, copied && host.registerOk)
  }

  /** A downloaded file given with a Windows path lands in `WINDIR\Fonts` under its own name. */
  lemma WindowsTarget(host: Host, name: string)
    requires host.windir == Some("C:\\Windows")
    requires NoNtSep(name) && !HasDrive(name)
    ensures InstallFontWindows("C:\\dl\\" + name, host).dest == Some("C:\\Windows\\Fonts\\" + name)
  {
    assert NtJoin("C:\\dl", name) == "C:\\dl\\" + name;
    NtBasenameJoin("C:\\dl", name);
    assert NtJoin("C:\\Windows", "Fonts") == "C:\\Windows\\Fonts";
    assert NtJoin("C:\\Windows\\Fonts", name) == "C:\\Windows\\Fonts\\" + name;
  }

  /** The platform dispatch of `auto_install_chinese_fonts`: false on a platform without an installer. */
  function InstallFor(system: string, fontFile: string, host: Host): (ok: bool)
    ensures !Supported(system) ==> !ok
  {
    if system == "Linux" then InstallFontLinux(fontFile, true, host).ok
    else if system == "Windows" then InstallFontWindows(fontFile, host).ok
    else if system == "Darwin" then InstallFontMacos(fontFile, true, host).ok
    else false
  }

  /** The side effects `auto_install_chinese_fonts` performs, in order. */
  datatype Step = AptGet | DownloadCall(key: string) | InstallCall(system: string, fontFile: string)

  /** The download keys of the fallback, in the order they are tried. */
  const FallbackKeys: seq<string> := ["wqy-zenhei", "simhei"]

  /** One iteration of the fallback loop: whether it installed a font, and what it did. */
  function Attempt(system: string, key: string, host: Host): (bool, seq<Step>) {
    match DownloadFont(key, None, host)
    case None => (false, [DownloadCall(key)])
    case Some(fontFile) =>
      if Supported(system) then (InstallFor(system, fontFile, host), [DownloadCall(key), InstallCall(system, fontFile)])
      else (false, [DownloadCall(key)])
  }

  /** The attempt for each key on a given platform and host. */
  function AttemptOn(system: string, host: Host): string -> (bool, seq<Step>) {
    key => Attempt(system, key, host)
  }

  /** "The attempt for `key` installs a font", as a test to scan the keys with. */
  function Succeeds(attempt: string -> (bool, seq<Step>)): string -> bool {
    key => attempt(key).0
  }

  /** The fallback loop over `keys`, returning at the first key whose attempt succeeds. */
  function Fallback(keys: seq<string>, attempt: string -> (bool, seq<Step>)): (bool, seq<Step>) {
    if keys == [] then (false, [])
    else
      var first := attempt(keys[0]);
      if first.0 then first
      else
        var rest := Fallback(keys[1..], attempt);
        (rest.0, first.1 + rest.1)
  }

  /** Everything the attempts for `keys` do, one after another. */
  function Attempts(keys: seq<string>, attempt: string -> (bool, seq<Step>)): seq<Step> {
    if keys == [] then [] else attempt(keys[0]).1 + Attempts(keys[1..], attempt)
  }

  /** How `auto_install_chinese_fonts` ends: it returns a flag, or an exception escapes it. */
  datatype AutoOutcome = Returned(ok: bool) | Raised

  /** `auto_install_chinese_fonts` given the number of detected Chinese fonts: its outcome and its side effects. */
  function AutoInstall(system: string, fontCount: nat, host: Host): (AutoOutcome, seq<Step>) {
    if fontCount > 0 then (Returned(true), [])
    else if system == "Linux" then
      match host.apt
      case AptInstalled => (Returned(true), [AptGet])
      case AptRaised => (Raised, [AptGet])
      case AptFailed =>
        var rest := Fallback(FallbackKeys, AttemptOn(system, host));
        (Returned(rest.0), [AptGet] + rest.1)
    else
      var rest := Fallback(FallbackKeys, AttemptOn(system, host));
      (Returned(rest.0), rest.1)
  }

  /** The fallback succeeds exactly when some key's attempt does. */
  lemma {:induction false} FallbackOk(keys: seq<string>, attempt: string -> (bool, seq<Step>))
    ensures Fallback(keys, attempt).0 <==> exists i :: 0 <= i < |keys| && attempt(keys[i]).0
  {
    if keys != [] {
      FallbackOk(keys[1..], attempt);
      if !attempt(keys[0]).0 && Fallback(keys[1..], attempt).0 {
        var i :| 0 <= i < |keys[1..]| && attempt(keys[1..][i]).0;
        assert attempt(keys[i + 1]).0;
      }
      if exists i :: 0 <= i < |keys| && attempt(keys[i]).0 {
        var i :| 0 <= i < |keys| && attempt(keys[i]).0;
        if i > 0 {
          assert keys[1..][i - 1] == keys[i];
        }
      }
    }
  }

  /** The fallback stops at the first key that succeeds: no later key is downloaded or installed. */
  lemma {:induction false} FallbackStopsAtFirst(keys: seq<string>, attempt: string -> (bool, seq<Step>), k: int)
    requires FirstAt(keys, Succeeds(attempt), k)
    ensures Fallback(keys, attempt) == (true, Attempts(keys[..k + 1], attempt))
  {
    var first := attempt(keys[0]);
    assert Succeeds(attempt)(keys[0]) == first.0;
    assert keys[..k + 1][0] == keys[0] && keys[..k + 1][1..] == keys[1..][..k];
    if k == 0 {
      assert Attempts(keys[..1][1..], attempt) == [];
      assert first.1 + [] == first.1;
      assert first == (true, first.1);
    } else {
      assert FirstAt(keys[1..], Succeeds(attempt), k - 1) by {
        forall j | 0 <= j < k - 1 ensures !Succeeds(attempt)(keys[1..][j]) {
          assert keys[1..][j] == keys[j + 1];
        }
      }
      FallbackStopsAtFirst(keys[1..], attempt, k - 1);
    }
  }

  /** When no key succeeds, every key is tried and the result is false. */
  lemma {:induction false} FallbackAllFail(keys: seq<string>, attempt: string -> (bool, seq<Step>))
    requires forall i :: 0 <= i < |keys| ==> !attempt(keys[i]).0
    ensures Fallback(keys, attempt) == (false, Attempts(keys, attempt))
  {
    if keys != [] {
      assert forall i :: 0 <= i < |keys[1..]| ==> keys[1..][i] == keys[i + 1];
      FallbackAllFail(keys[1..], attempt);
    }
  }

  /** One iteration of the fallback loop of `auto_install_chinese_fonts`. */
  method TryKey(system: string, fontKey: string, host: Host) returns (success: bool, steps: seq<Step>)
    ensures (success, steps) == Attempt(system, fontKey, host)
    ensures success ==> Supported(system) && DownloadFont(fontKey, None, host).Some?
  {
    var fontFile := DownloadFont(fontKey, None, host);
    steps := [DownloadCall(fontKey)];
    success := false;
    if fontFile.Some? {
      if system == "Linux" {
        success := InstallFontLinux(fontFile.value, true, host).ok;
      } else if system == "Windows" {
        success := InstallFontWindows(fontFile.value, host).ok;
      } else if system == "Darwin" {
        success := InstallFontMacos(fontFile.value, true, host).ok;
      }
      if Supported(system) {
        steps := steps + [InstallCall(system, fontFile.value)];
        assert steps == [DownloadCall(fontKey), InstallCall(system, fontFile.value)];
      }
      assert success == InstallFor(system, fontFile.value, host);
    }
    assert success == Attempt(system, fontKey, host).0;
    assert steps == Attempt(system, fontKey, host).1;
  }

  /** `auto_install_chinese_fonts`: its result and the side effects it performed, in order. */
  method AutoInstallChineseFonts(inst: Installer, fs: FontFs, host: Host) returns (outcome: AutoOutcome, trace: seq<Step>)
    ensures (outcome, trace) == AutoInstall(inst.system, |DetectedFonts(inst, fs)|, host)
    ensures |DetectedFonts(inst, fs)| > 0 ==> outcome == Returned(true) && trace == []
    ensures outcome.Raised? <==>
      |DetectedFonts(inst, fs)| == 0 && inst.system == "Linux" && host.apt == AptRaised
    ensures outcome == Returned(true) <==>
      || |DetectedFonts(inst, fs)| > 0
      || (inst.system == "Linux" && host.apt == AptInstalled)
      || ((inst.system != "Linux" || host.apt == AptFailed) &&
          exists i :: 0 <= i < |FallbackKeys| && Attempt(inst.system, FallbackKeys[i], host).0)
  {
    var status := CheckFontInstallationStatus(inst, fs);
    if status.fontCount > 0 {
      return Returned(true), [];
    }
    trace := [];
    if inst.system == "Linux" {
      trace := [AptGet];
      if host.apt == AptInstalled {
        return Returned(true), trace;
      } else if host.apt == AptRaised {
        return Raised, trace;
      }
    }
    var ok;
    ok, trace := InstallFallback(inst.system, host, FallbackKeys, trace);
    outcome := Returned(ok);
    var rest := Fallback(FallbackKeys, AttemptOn(inst.system, host));
    assert [] + rest.1 == rest.1;
    assert rest == (rest.0, rest.1);
    FallbackOk(FallbackKeys, AttemptOn(inst.system, host));
    assert forall i :: 0 <= i < |FallbackKeys| ==> AttemptOn(inst.system, host)(FallbackKeys[i]) == Attempt(inst.system, FallbackKeys[i], host);
  }

  /** The download-and-install loop of `auto_install_chinese_fonts` over `keys`, continuing the trace `pre`. */
  method InstallFallback(system: string, host: Host, keys: seq<string>, pre: seq<Step>) returns (ok: bool, trace: seq<Step>)
    ensures (ok, trace) == (Fallback(keys, AttemptOn(system, host)).0, pre + Fallback(keys, AttemptOn(system, host)).1)
  {
    var attempt := AttemptOn(system, host);
    trace := pre;
    var i := 0;
    while i < |keys|
      invariant 0 <= i <= |keys|
      invariant Fallback(keys, attempt).0 == Fallback(keys[i..], attempt).0
      invariant pre + Fallback(keys, attempt).1 == trace + Fallback(keys[i..], attempt).1
    {
      var fontKey := keys[i];
      assert keys[i..][0] == fontKey && keys[i..][1..] == keys[i + 1..];
      var success, steps := TryKey(system, fontKey, host);
      assert (success, steps) == attempt(fontKey);
      trace := trace + steps;
      if success {
        return true, trace;
      }
      i := i + 1;
    }
    assert keys[i..] == [];
    assert Fallback(keys[i..], attempt) == (false, []);
    assert trace + [] == trace;
    return false, trace;
  }

  /** With no Chinese font present, the automatic install fails on a platform without an installer. */
  lemma AutoInstallUnsupportedFails(system: string, host: Host)
    requires !Supported(system)
    ensures AutoInstall(system, 0, host).0 == Returned(false)
  {
    FallbackOk(FallbackKeys, AttemptOn(system, host));
  }

  /** On an unsupported platform with no Chinese font, both downloads are attempted and nothing is installed. */
  lemma AutoInstallUnsupported(system: string, host: Host)
    requires !Supported(system)
    ensures AutoInstall(system, 0, host) == (Returned(false), [DownloadCall("wqy-zenhei"), DownloadCall("simhei")])
  {
    var attempt := AttemptOn(system, host);
    assert attempt("wqy-zenhei") == (false, [DownloadCall("wqy-zenhei")]);
    assert attempt("simhei") == (false, [DownloadCall("simhei")]);
    assert FallbackKeys[0] == "wqy-zenhei" && FallbackKeys[1..][0] == "simhei" && FallbackKeys[1..][1..] == [];
    FallbackAllFail(FallbackKeys, attempt);
    assert Attempts(FallbackKeys[1..], attempt) == attempt("simhei").1 + Attempts(FallbackKeys[1..][1..], attempt);
    assert Attempts(FallbackKeys, attempt) == attempt("wqy-zenhei").1 + Attempts(FallbackKeys[1..], attempt);
    assert Attempts(FallbackKeys[1..][1..], attempt) == [];
    assert Attempts(FallbackKeys, attempt) == [DownloadCall("wqy-zenhei")] + ([DownloadCall("simhei")] + []);
    assert [DownloadCall("wqy-zenhei")] + ([DownloadCall("simhei")] + []) == [DownloadCall("wqy-zenhei"), DownloadCall("simhei")];
    assert AutoInstall(system, 0, host) == (Returned(Fallback(FallbackKeys, attempt).0), Fallback(FallbackKeys, attempt).1);
  }

  /**
   * On Linux without a Chinese font, an exception other than
   * `CalledProcessError` from the apt-get runs escapes: nothing is downloaded
   * or installed and no flag is returned.
   */
  lemma AutoInstallAptRaised(host: Host)
    requires host.apt == AptRaised
    ensures AutoInstall("Linux", 0, host) == (Raised, [AptGet])
    ensures forall k :: DownloadCall(k) !in AutoInstall("Linux", 0, host).1
  {
  }

  /** On Linux without a Chinese font, a failed apt-get run goes on to the download fallback. */
  lemma AutoInstallAptFailed(host: Host)
    requires host.apt == AptFailed
    ensures var r := AutoInstall("Linux", 0, host);
      && r.0.Returned?
      && r.1[..1] == [AptGet]
      && (r.0.ok <==> exists i :: 0 <= i < |FallbackKeys| && Attempt("Linux", FallbackKeys[i], host).0)
  {
    FallbackOk(FallbackKeys, AttemptOn("Linux", host));
    assert forall i :: 0 <= i < |FallbackKeys| ==> AttemptOn("Linux", host)(FallbackKeys[i]) == Attempt("Linux", FallbackKeys[i], host);
  }
}
