# Chinese-font support toolkit: a Dafny model

This project models the deterministic core of a small Python toolkit that makes matplotlib
display Chinese text. The core has five parts:

- **Font preference resolution** (`utils/plot_config.py`, module `PlotConfig`):
  - a fixed ranking of acceptable font families;
  - detection of the best available family, with a CJK-marker fallback;
  - the list and the rank map of the available preferred families;
  - `setup_chinese_font`, which either fails with one of two errors or writes the styling
    configuration (`rcParams`). The model holds that configuration in the class `RcParams`.
- **Font installer** (`utils/font_installer.py`, module `FontInstaller`):
  - the per-platform font paths and the extension filter of the scan;
  - the first-keyword-wins classification of font files;
  - the installation-status recommendations;
  - the download target name and the per-platform install targets;
  - the automatic-install flow: an `apt-get` attempt on Linux, then a fallback over two
    download keys that stops at the first success.
- **Font-cache manager** (`utils/clear_matplotlib_cache.py`, module `CacheCleaner`):
  - discovery of the cache directories;
  - size and entry reporting, which changes nothing;
  - the name filter that deletes font-list caches, per directory, with failures collected
    into one flag. It works on a directory map held by the class `CacheFs` and updated in place;
  - keyword verification of the font registry;
  - the clear → rebuild → verify reset.
- **Dotted-key configuration store** (`config/config_loader.py`, module `ConfigLoader`):
  - `get` walks the nested dictionaries along a key such as `control.pid.kp`;
  - `set` creates missing levels and overwrites only the last key;
  - the default configuration.
- **Diagnosis rules** (`examples/diagnose_chinese_font.py`, `_diagnose_problems`, module `Diagnosis`):
  six ordered rules that turn a diagnostic report into a problems list and a suggestions list.
  The class `Diagnostic` holds the report that the method updates.

Shared helpers live in `common.dfy`:

| module | contents |
|---|---|
| `Wrappers` | `Option`, `Result` |
| `Text` | substring and prefix tests, ASCII lower-casing, `str.split` / `str.join`, decimal rendering of integers |
| `Paths` | POSIX `os.path.join` / `basename` / `dirname` |
| `NtPaths` | Windows `ntpath.join` / `basename`: both separators, drive letters |
| `Seqs` | duplicate-freedom, first-match scans, filter-map and concat-map loops, first-occurrence de-duplication |
| `Dicts` | Python dicts as insertion-ordered item lists |

Everything the code asks of the world is an input value or an oracle function. Those inputs are:
- matplotlib's font registry;
- the filesystem: existence, listings, walks, sizes, modification times, copies and deletions;
- downloads, subprocesses and the Windows font API.

## Model

| member | source | states |
|---|---|---|
| PlotConfig.PreferredFontsDistinct | utils/plot_config.py:17-26 | The ranking names no family twice. |
| PlotConfig.GetAvailableFonts | utils/plot_config.py:29-42 | Duplicate-free; has exactly the registry's family names; empty when reading the registry raises. |
| PlotConfig.FirstPreferred | utils/plot_config.py:57-60 | Nothing exactly when no ranked family is available; otherwise the earliest available ranked family. |
| PlotConfig.FirstPreferredUnique | utils/plot_config.py:57-60 | The earliest available position alone decides the preferred branch (list position is the only tie-break). |
| PlotConfig.DetectChineseFont | utils/plot_config.py:45-67 | The result is available. When a ranked family is available it is the earliest one. The result is None exactly when no available name is ranked or carries "CJK"/"中文". |
| PlotConfig.DetectFallbackFirstMarked | utils/plot_config.py:62-65 | With no ranked family available, the result is the first available name carrying a marker (case-sensitive). |
| PlotConfig.DetectScenarioSimHei | utils/plot_config.py:58-60 | Among Arial, SimHei and Times New Roman, SimHei is chosen. |
| PlotConfig.DetectScenarioDejaVu | utils/plot_config.py:17-26 | "DejaVu Sans", last in the ranking, is still accepted. |
| PlotConfig.DetectScenarioNone | utils/plot_config.py:63-67 | With only Arial and Times New Roman available, detection returns None. |
| PlotConfig.PresentPreferredMembers | utils/plot_config.py:218-220 | The listed families are exactly those both ranked and available. |
| PlotConfig.PresentPreferredDistinct | utils/plot_config.py:218-220 | Filtering a duplicate-free ranking gives a duplicate-free list. |
| PlotConfig.PresentPreferredRanked | utils/plot_config.py:218-220 | The listed families appear in strictly increasing rank. |
| PlotConfig.PresentPreferredHead | utils/plot_config.py:215-222 | The first listed family is what the preferred branch of detection returns. |
| PlotConfig.PresentPreferredMeaning | utils/plot_config.py:215-222 | Over any duplicate-free ranking: duplicate-free, rank-ordered, headed by the earliest available family. |
| PlotConfig.CollectPresent | utils/plot_config.py:216-220 | The append loop computes the ranked-and-available list. |
| PlotConfig.ListedFontsMeaning | utils/plot_config.py:203-222 | The listed families are duplicate-free and in rank order, and when non-empty the head is what detection returns. |
| PlotConfig.ListAvailableChineseFonts | utils/plot_config.py:203-222 | Exactly the ranked families that are available, in ranking order, without duplicates; the head equals detection's choice. |
| PlotConfig.Rank | utils/plot_config.py:96-98 | A family's rank is its index in the ranking. |
| PlotConfig.GetSystemChineseFonts | utils/plot_config.py:94-100 | Keys are exactly the available ranked families; each maps to (its own name, its index in the ranking). |
| PlotConfig.ResolutionMeaning | utils/plot_config.py:135-148 | The "no font" error exactly when nothing was requested and nothing is detected. The "unavailable" error, naming detection's choice, exactly when the resolved family is not available. Otherwise success with the resolved, available family. |
| PlotConfig.RcParams.FontConfigInfo | utils/plot_config.py:176-200 | The current font is the head of the family list, or "default" when the list is empty; the sizes and flag are reported as stored. |
| PlotConfig.RcParams.Apply | utils/plot_config.py:150-161 | Prepends the family with no de-duplication. Sizes are s, s, s+2, s-1, s-1, s-1 and s+4; unicode minus is off; the reported current font is the family. |
| PlotConfig.RcParams.SetupChineseFont | utils/plot_config.py:103-163 | The outcome is the resolution above. On either error nothing is written. On success the family is prepended and returned, every size is derived from the base size, and the reported current font is the returned family. |
| FontInstaller.NewInstaller | utils/font_installer.py:41-62 | Keeps the platform. An unknown platform has no font paths; a known one has at least two, and on Linux both system font directories are among them. |
| FontInstaller.ExistingPaths | utils/font_installer.py:71-75 | Exactly the configured paths that exist, no more of them than configured. |
| FontInstaller.GetSystemFontPaths | utils/font_installer.py:64-75 | The loop keeps exactly the existing configured paths, in configured order; none on an unknown platform. |
| FontInstaller.UnsupportedHasNoPaths | utils/font_installer.py:59-62 | An unsupported platform yields no existing path whatever exists. |
| FontInstaller.Suffix | utils/font_installer.py:92 | `Path.suffix`: non-empty exactly when the base name has a dot that is neither its first nor its last character; then it is the ending of the base name from the last dot, at least two characters long, with no further dot. |
| FontInstaller.FontsInDirMembers | utils/font_installer.py:91-93 | A walked directory contributes exactly its files whose lower-cased suffix is a font extension, joined to the directory. |
| FontInstaller.FontsUnderMembers | utils/font_installer.py:89-93 | A walk contributes exactly the font files of the directories it visits. |
| FontInstaller.DirFonts | utils/font_installer.py:91-93 | The file loop computes one directory's font files in listing order. |
| FontInstaller.WalkFonts | utils/font_installer.py:89-93 | The walk loop concatenates the directories' font files in walk order. |
| FontInstaller.FontFilesOfGet | utils/font_installer.py:84-102 | A path is a key exactly when it was scanned, its walk did not raise and found fonts; its value is all of them. |
| FontInstaller.FontFilesOfDistinct | utils/font_installer.py:84-102 | The scan's dictionary has no repeated key. |
| FontInstaller.ScanSystemFonts | utils/font_installer.py:77-102 | Keys are exactly the existing configured paths whose walk succeeded with fonts, each with its fonts; unreadable paths and font-less paths are absent. |
| FontInstaller.ClassifyMeaning | utils/font_installer.py:120-133 | A file gets an entry exactly when some keyword occurs in its lower-cased base name. The entry keeps the original base name and path, type "system", and the first such keyword in list order. |
| FontInstaller.ClassifyFile | utils/font_installer.py:122-133 | The keyword loop with `break` computes that entry. |
| FontInstaller.ClassifyAllMembers | utils/font_installer.py:121-133 | At most one entry per file; every entry is some file's classification, and every classified file has its entry. |
| FontInstaller.ClassifyFiles | utils/font_installer.py:121-133 | The file loop computes the entries of one path, in order. |
| FontInstaller.ClassifyScanned | utils/font_installer.py:120-133 | The dictionary loop concatenates the entries of every path in dictionary order. |
| FontInstaller.ChineseFontsClassified | utils/font_installer.py:120-133 | Every detected entry is its path's classification, with type "system". |
| FontInstaller.DetectChineseFonts | utils/font_installer.py:104-135 | Classifies the scanner's result; every entry is its file's classification. |
| FontInstaller.ClassifyNotoCjk | utils/font_installer.py:112-126 | "NotoSansCJK-Regular.ttc" is tagged "cjk": the pattern-looking keyword before it does not match. |
| FontInstaller.NotoMissesGeneric | utils/font_installer.py:113-114 | "noto.*cjk" and "source.*han" are not found in "notosanscjk-regular.ttc": they are literal substrings, not patterns. |
| FontInstaller.ClassifyPatternsAreLiteral | utils/font_installer.py:112-126 | A base name without '*' is never tagged with either pattern-looking keyword. |
| FontInstaller.CheckFontInstallationStatus | utils/font_installer.py:137-164 | The font count is the number of detected entries. With none: the install advice, plus one platform line exactly on Linux or Windows; on any other platform the advice alone. Otherwise only the "already installed" note. |
| FontInstaller.DownloadFontMeaning | utils/font_installer.py:267-303 | An unknown key yields None without downloading. A known key yields a path exactly when the directory can be made and the fetch succeeds; that path is the entry's name plus ".ttf". |
| FontInstaller.DownloadWqyIsTtf | utils/font_installer.py:282-296 | The "wqy-zenhei" URL ends in ".otf", yet the file is saved as "WenQuanYi Zen Hei.ttf". |
| FontInstaller.InstallFontLinux | utils/font_installer.py:166-202 | Target is the user or system font directory joined with the file's base name. The copy happens when the directory and copy succeed. The result needs `fc-cache` too. |
| FontInstaller.LinuxCacheFailureAfterCopy | utils/font_installer.py:188-199 | When `fc-cache` fails the result is False even though the copy already happened. |
| FontInstaller.InstallFontMacos | utils/font_installer.py:237-265 | Target is `~/Library/Fonts` or `/Library/Fonts` joined with the base name; the result is whether directory and copy succeed. |
| FontInstaller.InstallFontWindows | utils/font_installer.py:204-235 | Without `WINDIR` nothing is attempted and the result is False. Otherwise the target is `WINDIR` and `Fonts` and the file's Windows base name joined by `ntpath` rules, and it keeps that base name. The result is True exactly when the copy succeeds and the two `ctypes` calls return without raising; their return values are not looked at. |
| FontInstaller.WindowsTarget | utils/font_installer.py:217-219 | With `WINDIR` = `C:\Windows`, a file `C:\dl\<name>` (a plain name, without separator or drive, such as `SimHei.ttf`) is copied to `C:\Windows\Fonts\<name>`. |
| FontInstaller.InstallFor | utils/font_installer.py:336-343 | An unsupported platform never succeeds. |
| FontInstaller.FallbackOk | utils/font_installer.py:333-348 | The fallback succeeds exactly when some key's attempt does. |
| FontInstaller.FallbackStopsAtFirst | utils/font_installer.py:333-345 | At the first succeeding key it returns True, and only the attempts up to that key have happened. |
| FontInstaller.FallbackAllFail | utils/font_installer.py:333-348 | When every attempt fails it returns False after attempting every key. |
| FontInstaller.TryKey | utils/font_installer.py:334-343 | One attempt: download, then the platform's installer. Success implies a supported platform and a download. |
| FontInstaller.InstallFallback | utils/font_installer.py:333-348 | The key loop with early return computes the fallback's result and actions over the keys it is given; the method passes "wqy-zenhei", "simhei". |
| FontInstaller.AutoInstallChineseFonts | utils/font_installer.py:305-348 | With fonts present: True and nothing attempted. Otherwise, on Linux, apt-get has three outcomes: both steps succeed (True), a step fails (`CalledProcessError`, so the fallback runs), or it raises another exception such as `FileNotFoundError`, which escapes the method. The method raises exactly in that last case. It returns True exactly when fonts are present, apt-get succeeds, or (off Linux or after an apt-get failure) some fallback key's attempt succeeds. |
| FontInstaller.AutoInstallAptRaised | utils/font_installer.py:321-330 | When apt-get raises something other than `CalledProcessError`, the method raises after that one attempt, and no download is tried. |
| FontInstaller.AutoInstallAptFailed | utils/font_installer.py:321-345 | When apt-get fails, the method returns normally after apt-get and the fallback. It returns True exactly when some fallback key's attempt succeeds. |
| FontInstaller.AutoInstallUnsupportedFails | utils/font_installer.py:333-348 | On an unsupported platform with no fonts the method returns False and does not raise. |
| FontInstaller.AutoInstallUnsupported | utils/font_installer.py:333-348 | On an unsupported platform with no fonts, the method returns False. Its only actions are one download attempt per fallback key, "wqy-zenhei" then "simhei"; nothing is installed. |
| CacheCleaner.FindCacheDirsFallbackRaises | utils/clear_matplotlib_cache.py:50-57 | The as-written fallback always raises `TypeError` and never yields a directory list. |
| CacheCleaner.FindCacheDirsConfig | utils/clear_matplotlib_cache.py:37-48 | With a configuration directory (no trailing slash, plain listed names) the result is that one directory when a `fontlist-v*.json` name is listed, and empty otherwise; it has no duplicates. |
| CacheCleaner.FindCacheDirsIntended | utils/clear_matplotlib_cache.py:28-63 | Duplicate-free. Equal to the as-written result when matplotlib answers. Otherwise exactly the candidate locations that exist. |
| CacheCleaner.NewCleaner | utils/clear_matplotlib_cache.py:23-25 | The corrected constructor (see Findings), built on the intended discovery: its directories are duplicate-free. As written, the constructor raises `TypeError` when matplotlib is unavailable. |
| CacheCleaner.UnreadableSizeSkipped | utils/clear_matplotlib_cache.py:135-138 | A file whose size cannot be read contributes nothing. |
| CacheCleaner.GetDirSize | utils/clear_matplotlib_cache.py:120-141 | The nested loops add up exactly the readable file sizes of the walk. |
| CacheCleaner.EntryOfMeaning | utils/clear_matplotlib_cache.py:84-104 | Files and directories get an entry with their name and joined path, flagged as directory exactly when they are one; directories carry their walked size; other items get none. |
| CacheCleaner.ItemEntry | utils/clear_matplotlib_cache.py:84-104 | The `isfile`/`isdir` branches compute that entry. |
| CacheCleaner.ListCacheDir | utils/clear_matplotlib_cache.py:83-104 | The listing loop collects the entries in order and adds up their sizes. |
| CacheCleaner.CacheFilesMembers | utils/clear_matplotlib_cache.py:81-104 | An entry is reported exactly when it comes from a listed file or directory of a readable cache directory. |
| CacheCleaner.CacheDirInfo | utils/clear_matplotlib_cache.py:82-107 | One directory: its entries, their total size, and a note exactly when it is unreadable. |
| CacheCleaner.GetCacheInfo | utils/clear_matplotlib_cache.py:65-118 | The total size is the sum of the entries and the count their number. Unreadable directories are noted and the rest still inspected. The final note depends only on whether the count is positive. |
| CacheCleaner.UnreadableDirNoted | utils/clear_matplotlib_cache.py:106-107 | An unreadable directory adds its note and no entry. |
| CacheCleaner.SweepMeaning | utils/clear_matplotlib_cache.py:166-187 | Unselected items are always kept, and nothing new appears. A sweep that finishes keeps exactly the unselected items and deletes the rest. A sweep that stops met a selected item. |
| CacheCleaner.SweepNothingSelected | utils/clear_matplotlib_cache.py:166-187 | A directory with nothing selected is left as it is, with success. |
| CacheCleaner.SweepDir | utils/clear_matplotlib_cache.py:166-188 | The item loop computes the sweep: the names `fontlist-*.json`, `fontManager.py` and the directories ttf/afm/pdfcorefonts are deleted; a failed deletion ends the directory's loop. |
| CacheCleaner.TtfFileStays | utils/clear_matplotlib_cache.py:182-187 | A regular file named "ttf" is never deleted. |
| CacheCleaner.ClearDirAccumulates | utils/clear_matplotlib_cache.py:156-191 | What happens to one directory does not depend on earlier failures or deletions. |
| CacheCleaner.ClearAllAccumulates | utils/clear_matplotlib_cache.py:153-198 | Earlier results only accumulate into the flag and the deleted paths. |
| CacheCleaner.ClearAllOk | utils/clear_matplotlib_cache.py:153-198 | The result is True exactly when the run starts True and every directory's pass succeeds, whether or not anything was deleted. |
| CacheCleaner.ClearAllKeepsUnselected | utils/clear_matplotlib_cache.py:166-187 | Every unselected item of a directory is still there afterwards. |
| CacheCleaner.ClearAllClean | utils/clear_matplotlib_cache.py:153-198 | After a run returning True every cache directory holds no selected item. |
| CacheCleaner.ClearAllNoop | utils/clear_matplotlib_cache.py:166-187 | Without backup, on clean directories, a run changes nothing and deletes nothing. |
| CacheCleaner.SecondClearDeletesNothing | utils/clear_matplotlib_cache.py:166-187 | Without backup, after a run returning True, a second consecutive run deletes nothing further. |
| CacheCleaner.ClearCacheDir | utils/clear_matplotlib_cache.py:157-191 | The new directory map and backups, the deleted paths and the flag are those of one directory pass started with success and nothing deleted. |
| CacheCleaner.ClearFontCache | utils/clear_matplotlib_cache.py:143-198 | The new directory map and backups, the deleted paths and the result are those of the passes over every cache directory in order. Through the lemmas above: unselected items survive, and a True result leaves every directory clean. |
| CacheCleaner.ChineseNamesMembers | utils/clear_matplotlib_cache.py:268-273 | The Chinese fonts are exactly the available names containing a keyword after lower-casing; duplicate-free on a duplicate-free input. |
| CacheCleaner.ChineseNamesDistinct | utils/clear_matplotlib_cache.py:259-273 | Drawn from the de-duplicated list, the Chinese fonts repeat nothing. |
| CacheCleaner.HasChineseKeyword | utils/clear_matplotlib_cache.py:269-273 | The keyword loop with `break` decides "some keyword occurs". |
| CacheCleaner.CollectChineseFonts | utils/clear_matplotlib_cache.py:268-273 | The font loop collects the Chinese fonts in order. |
| CacheCleaner.CheckTarget | utils/clear_matplotlib_cache.py:276-282 | The target is recorded only when a non-empty name is given; found exactly when it is available; one note saying which. |
| CacheCleaner.VerifySuccess | utils/clear_matplotlib_cache.py:284-289 | Success means some registered name is Chinese by the keywords. It depends on neither the requested font nor the cache state. |
| CacheCleaner.VerifyFontFound | utils/clear_matplotlib_cache.py:258-282 | Found exactly when the non-empty name is registered. The available and Chinese lists are duplicate-free with the right members, and the status is "loaded". |
| CacheCleaner.VerifyFontCache | utils/clear_matplotlib_cache.py:234-300 | The result is the verification of the registry, the requested font and the cache count that `get_cache_info` reports. |
| CacheCleaner.FullReset | utils/clear_matplotlib_cache.py:302-335 | Runs the clearing (its effect on the directory map is the clearing's). Returns exactly verification's success, ignoring the clear and rebuild results. |
| ConfigLoader.Keys | config/config_loader.py:74 | Splitting a key gives at least one segment. |
| ConfigLoader.KeysTestNested | tests/test_config.py:64-66 | "test.nested.value" splits into its three segments. |
| ConfigLoader.Assign | config/config_loader.py:95-105 | After a successful `set`, the top-level keys are the old ones plus the first segment, and every other top-level entry is as it was. |
| ConfigLoader.AssignLookup | config/config_loader.py:95-105 | After a successful `set`, the path reads back the value set. |
| ConfigLoader.AssignOffPath | config/config_loader.py:99-105 | Every path that leaves the set path somewhere reads as before. |
| ConfigLoader.AssignFails | config/config_loader.py:99-102 | `set` fails (Python raises `TypeError`) exactly when an existing level on the path is not a dictionary. |
| ConfigLoader.Descend | config/config_loader.py:99-102 | The descent loop succeeds exactly when `set` can, and then yields the chain of levels, missing ones created empty. |
| ConfigLoader.Rebuild | config/config_loader.py:99-105 | Writing the last key through that chain gives the specified result of `set`. |
| ConfigLoader.DefaultSections | config/config_loader.py:146-181 | The default configuration has exactly the sections simulation, control, logging and rl. |
| ConfigLoader.DefaultReadsAt | config/config_loader.py:153-166 | Along their paths, the default timestep is 0.01 and the default proportional gain is 1.0. |
| ConfigLoader.DefaultNestedReads | tests/test_config.py:37-46 | `get('simulation.timestep')` and `get('control.pid.kp')` on the defaults find those values. |
| ConfigLoader.Loader.constructor | config/config_loader.py:25-38 | A loader built without a path holds the default configuration. |
| ConfigLoader.Loader.Get | config/config_loader.py:61-83 | The walk returns the value at the dotted path, or the default as soon as a segment is missing or a level is not a dictionary. |
| ConfigLoader.Loader.Set | config/config_loader.py:85-105 | The configuration becomes the specified result of `set`; on failure it is unchanged. |
| ConfigLoader.Loader.ToDict | config/config_loader.py:122-129 | Returns the configuration as a value, so changing the top level of the result cannot reach the loader. |
| ConfigLoader.SetThenGet | config/config_loader.py:85-105 | After `set(k, v)` succeeds, `get(k)` is `v` whatever the default, even where levels were created. |
| ConfigLoader.SetKeepsOtherKeys | config/config_loader.py:99-105 | After `set(k, v)`, every key whose path diverges from `k` reads as before. |
| ConfigLoader.SetOnDefaults | config/config_loader.py:99-105 | A path with no non-dictionary level never makes `set` fail. |
| ConfigLoader.MissingSectionReadsDefault | config/config_loader.py:77-81 | A key whose first segment is missing reads its default. |
| ConfigLoader.MissingKeyReadsDefault | tests/test_config.py:48-54 | `get('nonexistent.key', default=42)` on the defaults is 42. |
| ConfigLoader.TestSectionRoundTrip | tests/test_config.py:56-66 | Without a "test" section: "test.value" set to 100 reads 100; after "test.nested.value" is set to "hello", both keys read what was set. |
| ConfigLoader.DefaultTestRoundTrip | tests/test_config.py:56-66 | The same round trip on the default configuration. |
| Diagnosis.FiredRulesMeaning | examples/diagnose_chinese_font.py:302-337 | A rule is selected exactly when it fires, and the selected rules keep table order. |
| Diagnosis.FindingsMeaning | examples/diagnose_chinese_font.py:302-340 | A rule contributes a finding exactly when it fires. A firing rule's problem and suggestions are among the findings. The findings are in rule order. |
| Diagnosis.ProblemsMembers | examples/diagnose_chinese_font.py:299-340 | The problems list holds one problem per finding, in order. |
| Diagnosis.ProblemsMembership | examples/diagnose_chinese_font.py:299-340 | A problem is reported exactly when some finding carries it. |
| Diagnosis.EveryProblemSuggested | examples/diagnose_chinese_font.py:302-337 | There are at least as many suggestions as problems; every rule brings at least one. |
| Diagnosis.FiredRuleReported | examples/diagnose_chinese_font.py:302-340 | A firing rule's problem and all its suggestions are in the report. |
| Diagnosis.NoSystemFontsRule | examples/diagnose_chinese_font.py:303-307 | Fires exactly when the system count is missing or equal to 0; then its problem and both suggestions are reported. |
| Diagnosis.NotWrittenKey | examples/diagnose_chinese_font.py:129-136 | The count the second rule reads is not among the keys the font check writes. |
| Diagnosis.UnpopulatedCountAlwaysFires | examples/diagnose_chinese_font.py:309-312 | On any font section the check can produce, "matplotlib cannot recognise Chinese fonts" is reported with its two suggestions. |
| Diagnosis.CurrentFontRule | examples/diagnose_chinese_font.py:315-319 | An empty current font never fires. A non-empty one fires exactly when it is not in the recognised-font list. |
| Diagnosis.UnicodeMinusRule | examples/diagnose_chinese_font.py:321-323 | Only the value True fires (1 and "True" do not); then its problem is reported. |
| Diagnosis.FailedTestsMembers | examples/diagnose_chinese_font.py:326-328 | A test is listed as failed exactly when its result is a string starting with "失败". |
| Diagnosis.Record | examples/diagnose_chinese_font.py:302-337 | Appending one rule's contribution keeps the problems and suggestions lists equal to those of the findings so far, with the new finding added exactly when the rule fires. |
| Diagnosis.CollectFailedTests | examples/diagnose_chinese_font.py:327-328 | The comprehension collects the failed tests in dictionary order. |
| Diagnosis.CacheThreshold | examples/diagnose_chinese_font.py:334-337 | A count of 21 fires. A count of exactly 20 does not, and neither does a missing count. |
| Diagnosis.FindingsChain | examples/diagnose_chinese_font.py:302-337 | The findings are the six rules' contributions, one after another, in the order the code checks them. |
| Diagnosis.Diagnostic.DiagnoseProblems | examples/diagnose_chinese_font.py:295-340 | Writes exactly the problems and suggestions of the findings into the report; every other section is unchanged. |

## Left out

- matplotlib's font registry, the filesystem, downloads, `subprocess` and the Windows font API are inputs or oracle functions; what they do inside is not modelled.
- `rebuild_font_cache` is a boolean input of `FullReset`; the model shows that the result never depends on it.
- Python's set order: the `list(set(...))` results are de-duplicated in first-occurrence order. Statements that depend on order, such as the CJK fallback of detection, are made over that list.
- The registry is read once per call. `setup_chinese_font` reads it several times in Python, and a registry that changed between reads is not modelled.
- Warning filters (`enable_warnings`), `reset_font_config` (`plt.rcdefaults`), the installation-guide text, the `main()` printers and every `print` are UI.
- YAML `load`, `save` and `load_config` are file I/O through a foreign parser. A loader built with a path is therefore not modelled; a loader built without one is.
- Floating-point values are Dafny reals. The `size_mb` and `total_size_mb` rounded figures of `get_cache_info` are not modelled.
- Lower-casing (`str.lower`) is ASCII only.
- The contents of copies are not modelled. A backup is recorded by name only (`<dir>_backup_<mtime>`), with the modification time an integer oracle.
- `shutil.rmtree` is one oracle deletion: a partial removal is not modelled.
- The time between `os.listdir` and `os.path.getsize` is not modelled: a file that vanishes in between is not possible in the model.
- ConfigLoader.Loader.ToDict: the nested dictionaries are values, so the aliasing that Python's shallow copy shares below the top level is not modelled.
- ConfigLoader.Assign: `set` over a non-dictionary intermediate is modelled as failing with nothing written; Python's error messages differ by type (str, list, int) and are not modelled.
- Diagnosis: a count equal to 0 means the int 0 or False (`EqualsZero`); a float 0.0, an opaque value in the model, counts as non-zero.
- Diagnosis: a cache count that is not an int never fires the cache rule. Python compares a float count, and raises `TypeError` for a string or list count.
- Diagnosis: a recognised-font value that is not a list of strings is treated as not containing the current font.
- Diagnosis.Diagnostic.DiagnoseProblems: the rule conditions are the named predicates of the model, evaluated on the report as it was when the method began.
- FontInstaller.AutoInstallChineseFonts: `apt-get update` and `apt-get install` are one oracle (`apt`). It tells whether both succeed, one fails, or one raises; which of the two steps it was is not modelled.
- Dictionary insertion order: the font dictionary of `get_system_chinese_fonts` (PlotConfig.GetSystemChineseFonts) and the nested configuration dictionaries of ConfigLoader are Dafny `map`s, which have no order. Iterating them, or dumping them in order, is not modelled.
- Windows paths: `download_font` and the scan join with '/' on every platform, although Python on Windows joins with `\`. The base names, which are all the installers read, are the same.
- NtPaths.NtJoin: a base name that carries a drive is taken as it is. `ntpath.join` also handles a base name whose drive equals the directory's (such as `C:x` under `C:\Windows`) specially; this case is not modelled.
- NtPaths.NtBasename: UNC prefixes (`\\server\share`) are not recognised as drives.
- FontInstaller.NtExpandUser: the Windows user font directory uses the home directory input. Python takes it from `USERPROFILE`, or `HOMEDRIVE` and `HOMEPATH`.
- FontInstaller.DownloadFontMeaning: `tempfile.mkdtemp` is the host's temporary directory input and is assumed to succeed.
- PlotConfig.RcParams.SetupChineseFont: only the `rcParams` entries the module reads or writes are fields of `RcParams`.

## Findings

| source | as written | input that shows it | evidently intended | confidence | as-written member | corrected member |
|---|---|---|---|---|---|---|
| utils/clear_matplotlib_cache.py:56 | The fallback list computes `tempfile.gettempdir() / "matplotlib"`. That is `str / str`, which raises `TypeError` from inside the `except` handler, so the fallback never returns. | Any environment where importing matplotlib or `get_configdir()` raises: the cleaner's constructor then raises `TypeError`. | The fallback keeps the candidate locations under home and the temporary directory that exist, without duplicates. | not executed | CacheCleaner.FindCacheDirs, with CacheCleaner.FindCacheDirsFallbackRaises | CacheCleaner.FindCacheDirsIntended |
