/**
 * Chinese-font preference resolution and the styling configuration it writes
 * (utils/plot_config.py). The toolkit's font registry is an input: `None` when
 * querying it raises, otherwise the family names of its entries.
 */
module PlotConfig {
  import opened Wrappers
  import opened Text
  import opened Seqs

  /** The ranked list of acceptable families, highest priority first. */
  const PreferredFonts: seq<string> := [
    "SimHei", "Microsoft YaHei", "SimSun", "KaiTi", "FangSong",
    "WenQuanYi Zen Hei", "Noto Sans CJK SC", "DejaVu Sans"
  ]

  lemma PreferredFontsDistinct()
    ensures NoDuplicates(PreferredFonts)
  {
  }

  /** `get_available_fonts`: the registry's family names without duplicates; nothing if the registry fails. */
  function GetAvailableFonts(registry: Option<seq<string>>): (r: seq<string>)
    ensures NoDuplicates(r)
    ensures registry.None? ==> r == []
    ensures registry.Some? ==> forall n :: n in r <==> n in registry.value
  {
    if registry.None? then [] else Dedup(registry.value)
  }

  /** Membership in `available`, as a test to scan with. */
  function InList(available: seq<string>): string -> bool {
    n => n in available
  }

  /** Position `i` holds a preferred family that is available, and no earlier one is. */
  predicate EarliestPresent(prefs: seq<string>, available: seq<string>, i: int) {
    FirstAt(prefs, InList(available), i)
  }

  /** The first loop of `detect_chinese_font`: the earliest entry of `prefs` that is available. */
  function FirstPreferred(prefs: seq<string>, available: seq<string>): (r: Option<string>)
    ensures r.None? <==> forall p :: p in prefs ==> p !in available
    ensures r.Some? ==> exists i :: EarliestPresent(prefs, available, i) && prefs[i] == r.value
  {
    var r := FirstWhere(prefs, InList(available));
    assert r.None? ==> forall i :: 0 <= i < |prefs| ==> !InList(available)(prefs[i]);
    r
  }

  /** The family name carries one of the generic CJK markers (case-sensitive). */
  predicate HasCjkMarker(name: string) {
    Contains(name, "CJK") || Contains(name, "中文")
  }

  /** `detect_chinese_font`: preference order first, then the first available name carrying a CJK marker. */
  function DetectChineseFont(registry: Option<seq<string>>): (r: Option<string>)
    ensures r.Some? ==> r.value in GetAvailableFonts(registry)
    ensures FirstPreferred(PreferredFonts, GetAvailableFonts(registry)).Some? ==>
      r == FirstPreferred(PreferredFonts, GetAvailableFonts(registry))
    ensures r.None? <==> forall n :: n in GetAvailableFonts(registry) ==> n !in PreferredFonts && !HasCjkMarker(n)
  {
    var available := GetAvailableFonts(registry);
    match FirstPreferred(PreferredFonts, available)
    case Some(name) => Some(name)
    case None => FirstWhere(available, HasCjkMarker)
  }

  /** With no preferred family available, detection picks the first available name carrying a CJK marker. */
  lemma DetectFallbackFirstMarked(registry: Option<seq<string>>)
    ensures var available := GetAvailableFonts(registry);
      FirstPreferred(PreferredFonts, available).None? && DetectChineseFont(registry).Some? ==>
        exists i :: FirstAt(available, HasCjkMarker, i) && available[i] == DetectChineseFont(registry).value
  {
  }

  /** The preferred families that are available, in preference order (the loop of `list_available_chinese_fonts`). */
  function PresentPreferred(prefs: seq<string>, available: seq<string>): seq<string> {
    if prefs == [] then []
    else
      var init := PresentPreferred(prefs[..|prefs| - 1], available);
      var last := prefs[|prefs| - 1];
      if last in available then init + [last] else init
  }

  /** The present preferred families are exactly the families both preferred and available. */
  lemma {:induction false} PresentPreferredMembers(prefs: seq<string>, available: seq<string>)
    ensures forall n :: n in PresentPreferred(prefs, available) <==> n in prefs && n in available
  {
    if prefs != [] {
      var init := prefs[..|prefs| - 1];
      PresentPreferredMembers(init, available);
      assert prefs == init + [prefs[|prefs| - 1]];
    }
  }

  /** Rank of a preferred family: its index in `PreferredFonts`. */
  function Rank(name: string): (k: nat)
    requires name in PreferredFonts
    ensures k < |PreferredFonts| && PreferredFonts[k] == name
  {
    RankIn(PreferredFonts, name)
  }

  function RankIn(prefs: seq<string>, name: string): (k: nat)
    requires name in prefs
    ensures k < |prefs| && prefs[k] == name
    ensures forall j :: 0 <= j < k ==> prefs[j] != name
  {
    if prefs[0] == name then 0 else 1 + RankIn(prefs[1..], name)
  }

  /** Detection's preferred branch is determined by the earliest available preferred family. */
  lemma FirstPreferredUnique(prefs: seq<string>, available: seq<string>, i: int)
    requires EarliestPresent(prefs, available, i)
    ensures FirstPreferred(prefs, available) == Some(prefs[i])
  {
    FirstWhereAt(prefs, InList(available), i);
  }

  /** Filtering a duplicate-free ranking gives a duplicate-free list. */
  lemma {:induction false} PresentPreferredDistinct(prefs: seq<string>, available: seq<string>)
    requires NoDuplicates(prefs)
    ensures NoDuplicates(PresentPreferred(prefs, available))
  {
    if prefs != [] {
      var init := prefs[..|prefs| - 1];
      var last := prefs[|prefs| - 1];
      PresentPreferredDistinct(init, available);
      PresentPreferredMembers(init, available);
      assert last !in init;
    }
  }

  /** The members of `r` drawn from `prefs` appear in strictly increasing position of `prefs`. */
  predicate RankedBy(prefs: seq<string>, r: seq<string>) {
    forall i, j :: 0 <= i < j < |r| && r[i] in prefs && r[j] in prefs ==> RankIn(prefs, r[i]) < RankIn(prefs, r[j])
  }

  /** The present preferred families appear in strictly increasing rank. */
  lemma {:induction false} PresentPreferredRanked(prefs: seq<string>, available: seq<string>)
    requires NoDuplicates(prefs)
    ensures RankedBy(prefs, PresentPreferred(prefs, available))
  {
    var r := PresentPreferred(prefs, available);
    if prefs != [] {
      var init := prefs[..|prefs| - 1];
      var last := prefs[|prefs| - 1];
      assert prefs == init + [last];
      var r0 := PresentPreferred(init, available);
      assert NoDuplicates(init);
      PresentPreferredRanked(init, available);
      PresentPreferredMembers(init, available);
      forall n | n in init ensures RankIn(prefs, n) == RankIn(init, n) {
        RankPrefix(init, last, n);
      }
      if last in available {
        assert r == r0 + [last];
        forall i, j | 0 <= i < j < |r| && r[i] in prefs && r[j] in prefs
          ensures RankIn(prefs, r[i]) < RankIn(prefs, r[j])
        {
          assert r[i] == r0[i] && r[i] in init;
          if j < |r| - 1 {
            assert r[j] == r0[j] && r[j] in init;
            assert RankIn(init, r0[i]) < RankIn(init, r0[j]);
            assert RankIn(prefs, r[i]) == RankIn(init, r[i]);
            assert RankIn(prefs, r[j]) == RankIn(init, r[j]);
          } else {
            assert last !in init;
            RankLast(init, last);
            assert r[j] == last;
            assert RankIn(prefs, r[i]) == RankIn(init, r[i]) < |init|;
          }
        }
      }
    }
  }

  /** The head of the present preferred families is the preferred-branch result of detection. */
  lemma {:induction false} PresentPreferredHead(prefs: seq<string>, available: seq<string>)
    ensures var r := PresentPreferred(prefs, available);
      r != [] ==> FirstPreferred(prefs, available) == Some(r[0])
  {
    var r := PresentPreferred(prefs, available);
    if prefs != [] && r != [] {
      var init := prefs[..|prefs| - 1];
      var last := prefs[|prefs| - 1];
      var r0 := PresentPreferred(init, available);
      PresentPreferredHead(init, available);
      PresentPreferredMembers(init, available);
      assert r == (if last in available then r0 + [last] else r0);
      if r0 != [] {
        assert r[0] == r0[0];
        var k :| EarliestPresent(init, available, k) && init[k] == r0[0];
        assert EarliestPresent(prefs, available, k);
        FirstPreferredUnique(prefs, available, k);
      } else {
        assert forall j :: 0 <= j < |init| ==> init[j] !in available by {
          forall j | 0 <= j < |init| ensures init[j] !in available {
            assert init[j] in init;
          }
        }
        assert EarliestPresent(prefs, available, |prefs| - 1);
        FirstPreferredUnique(prefs, available, |prefs| - 1);
      }
    }
  }

  lemma {:induction false} RankLast(init: seq<string>, last: string)
    requires last !in init
    ensures RankIn(init + [last], last) == |init|
  {
    if init != [] {
      assert (init + [last])[1..] == init[1..] + [last];
      RankLast(init[1..], last);
    }
  }

  lemma {:induction false} RankPrefix(init: seq<string>, last: string, n: string)
    requires n in init
    ensures RankIn(init + [last], n) == RankIn(init, n)
  {
    if init[0] != n {
      assert (init + [last])[1..] == init[1..] + [last];
      RankPrefix(init[1..], last, n);
    }
  }

  lemma RankUnique(prefs: seq<string>, k: nat)
    requires NoDuplicates(prefs) && k < |prefs|
    ensures RankIn(prefs, prefs[k]) == k
  {
  }

  /** The loop of `list_available_chinese_fonts` over a ranking. */
  method CollectPresent(prefs: seq<string>, available: seq<string>) returns (fonts: seq<string>)
    ensures fonts == PresentPreferred(prefs, available)
  {
    fonts := [];
    var i := 0;
    while i < |prefs|
      invariant 0 <= i <= |prefs|
      invariant fonts == PresentPreferred(prefs[..i], available)
    {
      assert prefs[..i + 1][..i] == prefs[..i];
      if prefs[i] in available {
        fonts := fonts + [prefs[i]];
      }
      i := i + 1;
    }
    assert prefs[..i] == prefs;
  }

  /** Over any duplicate-free ranking: the present families are duplicate-free, in rank order, headed by the earliest present one. */
  lemma PresentPreferredMeaning(prefs: seq<string>, available: seq<string>)
    requires NoDuplicates(prefs)
    ensures var fonts := PresentPreferred(prefs, available);
      && NoDuplicates(fonts)
      && (forall i, j :: 0 <= i < j < |fonts| ==>
            fonts[i] in prefs && fonts[j] in prefs && RankIn(prefs, fonts[i]) < RankIn(prefs, fonts[j]))
      && (fonts != [] ==> FirstPreferred(prefs, available) == Some(fonts[0]))
  {
    PresentPreferredMembers(prefs, available);
    PresentPreferredDistinct(prefs, available);
    PresentPreferredRanked(prefs, available);
    PresentPreferredHead(prefs, available);
  }

  /** The available preferred families: duplicate-free, in rank order, headed by what detection picks. */
  lemma ListedFontsMeaning(registry: Option<seq<string>>)
    ensures var fonts := PresentPreferred(PreferredFonts, GetAvailableFonts(registry));
      && NoDuplicates(fonts)
      && (forall i, j :: 0 <= i < j < |fonts| ==>
            fonts[i] in PreferredFonts && fonts[j] in PreferredFonts && Rank(fonts[i]) < Rank(fonts[j]))
      && (fonts != [] ==> DetectChineseFont(registry) == Some(fonts[0]))
  {
    var available := GetAvailableFonts(registry);
    PreferredFontsDistinct();
    PresentPreferredMeaning(PreferredFonts, available);
  }

  /** `list_available_chinese_fonts`. */
  method ListAvailableChineseFonts(registry: Option<seq<string>>) returns (fonts: seq<string>)
    ensures fonts == PresentPreferred(PreferredFonts, GetAvailableFonts(registry))
    ensures forall n :: n in fonts <==> n in PreferredFonts && n in GetAvailableFonts(registry)
    ensures NoDuplicates(fonts)
    ensures forall i, j :: 0 <= i < j < |fonts| ==> Rank(fonts[i]) < Rank(fonts[j])
    ensures fonts != [] ==> DetectChineseFont(registry) == Some(fonts[0])
  {
    var available := GetAvailableFonts(registry);
    fonts := CollectPresent(PreferredFonts, available);
    PresentPreferredMembers(PreferredFonts, available);
    ListedFontsMeaning(registry);
  }

  /** `get_system_chinese_fonts`: each available preferred family mapped to (its name, its rank). */
  method GetSystemChineseFonts(registry: Option<seq<string>>) returns (fonts: map<string, (string, nat)>)
    ensures forall n :: n in fonts <==> n in PreferredFonts && n in GetAvailableFonts(registry)
    ensures forall n :: n in fonts ==> fonts[n].0 == n && fonts[n].1 == Rank(n)
  {
    var available := GetAvailableFonts(registry);
    PreferredFontsDistinct();
    fonts := map[];
    var idx := 0;
    while idx < |PreferredFonts|
      invariant 0 <= idx <= |PreferredFonts|
      invariant forall n :: n in fonts <==> n in PreferredFonts[..idx] && n in available
      invariant forall n :: n in fonts ==> n in PreferredFonts && fonts[n].0 == n && fonts[n].1 == Rank(n)
    {
      var name := PreferredFonts[idx];
      assert PreferredFonts[..idx + 1] == PreferredFonts[..idx] + [name];
      if name in available {
        RankUnique(PreferredFonts, idx);
        fonts := fonts[name := (name, idx)];
      }
      idx := idx + 1;
    }
    assert PreferredFonts[..idx] == PreferredFonts;
  }

  /** The two failures of `setup_chinese_font`. */
  datatype SetupError =
    | NoChineseFont(suggested: seq<string>)                  // RuntimeError, listing the preferred fonts
    | FontUnavailable(requested: string, detected: Option<string>)  // ValueError, naming what detection finds

  /**
   * How `setup_chinese_font` settles on a family before it writes anything: the requested
   * one, else detection's choice; neither is an error listing the preferred fonts, and a
   * family the registry does not have is an error naming what detection would pick.
   */
  function Resolution(fontName: Option<string>, registry: Option<seq<string>>): Result<string, SetupError> {
    var resolved := if fontName.Some? then fontName else DetectChineseFont(registry);
    if resolved.None? then Err(NoChineseFont(PreferredFonts))
    else if resolved.value !in GetAvailableFonts(registry) then
      Err(FontUnavailable(resolved.value, DetectChineseFont(registry)))
    else Ok(resolved.value)
  }

  /**
   * Resolution fails with the list of preferred fonts exactly when nothing was requested and
   * detection finds nothing; it fails naming the family exactly when the resolved family is not
   * available; otherwise it yields the resolved family, which is available.
   */
  lemma ResolutionMeaning(fontName: Option<string>, registry: Option<seq<string>>)
    ensures var r := Resolution(fontName, registry);
      && (fontName.None? && DetectChineseFont(registry).None? <==> r == Err(NoChineseFont(PreferredFonts)))
      && var resolved := if fontName.Some? then fontName else DetectChineseFont(registry);
      && (r.Err? && r.error.FontUnavailable? <==>
           resolved.Some? && resolved.value !in GetAvailableFonts(registry))
      && (r.Err? && r.error.FontUnavailable? ==>
           r.error == FontUnavailable(resolved.value, DetectChineseFont(registry)))
      && (r.Ok? ==> resolved == Some(r.value) && r.value in GetAvailableFonts(registry))
  {
  }

  /** A size entry of the styling configuration: points, or a named size such as "medium". */
  datatype Size = Points(points: int) | Named(name: string)

  /** What `get_font_config_info` reports. */
  datatype ConfigInfo = ConfigInfo(
    currentFont: string,
    fontSize: Size,
    axesLabelSize: Size,
    axesTitleSize: Size,
    xtickLabelSize: Size,
    ytickLabelSize: Size,
    legendFontSize: Size,
    figureTitleSize: Size,
    unicodeMinus: bool)

  /** The toolkit's live styling configuration: the entries of `rcParams` that this module reads and writes. */
  class RcParams {
    var sansSerif: seq<string>    // font.sans-serif
    var fontSize: Size            // font.size
    var axesLabelSize: Size       // axes.labelsize
    var axesTitleSize: Size       // axes.titlesize
    var xtickLabelSize: Size      // xtick.labelsize
    var ytickLabelSize: Size      // ytick.labelsize
    var legendFontSize: Size      // legend.fontsize
    var figureTitleSize: Size     // figure.titlesize
    var unicodeMinus: bool        // axes.unicode_minus

    constructor (sansSerif: seq<string>, fontSize: Size, labelSize: Size, titleSize: Size,
                 xtickSize: Size, ytickSize: Size,
                 legendSize: Size, figureTitleSize: Size, unicodeMinus: bool)
      ensures this.sansSerif == sansSerif && this.fontSize == fontSize
      ensures axesLabelSize == labelSize && axesTitleSize == titleSize
      ensures xtickLabelSize == xtickSize && ytickLabelSize == ytickSize
      ensures legendFontSize == legendSize && this.figureTitleSize == figureTitleSize
      ensures this.unicodeMinus == unicodeMinus
    {
      this.sansSerif := sansSerif;
      this.fontSize := fontSize;
      axesLabelSize := labelSize;
      axesTitleSize := titleSize;
      xtickLabelSize := xtickSize;
      ytickLabelSize := ytickSize;
      legendFontSize := legendSize;
      this.figureTitleSize := figureTitleSize;
      this.unicodeMinus := unicodeMinus;
    }

    /** `get_font_config_info`: the head of the family list ("default" when it is empty) and the sizes as stored. */
    function FontConfigInfo(): (info: ConfigInfo)
      reads this
      ensures sansSerif != [] ==> info.currentFont == sansSerif[0]
      ensures sansSerif == [] ==> info.currentFont == "default"
      ensures info.fontSize == fontSize && info.axesLabelSize == axesLabelSize
      ensures info.axesTitleSize == axesTitleSize && info.figureTitleSize == figureTitleSize
      ensures info.xtickLabelSize == xtickLabelSize && info.ytickLabelSize == ytickLabelSize
      ensures info.legendFontSize == legendFontSize && info.unicodeMinus == unicodeMinus
    {
      ConfigInfo(
        if sansSerif != [] then sansSerif[0] else "default",
        fontSize, axesLabelSize, axesTitleSize, xtickLabelSize, ytickLabelSize,
        legendFontSize, figureTitleSize, unicodeMinus)
    }

    /**
     * `setup_chinese_font`: resolve the family (the requested one, or detection's choice),
     * fail before writing anything if the resolution fails, otherwise
     * prepend it to the family list and derive every size from `size`.
     */
    method SetupChineseFont(fontName: Option<string>, size: int, registry: Option<seq<string>>)
      returns (r: Result<string, SetupError>)
      modifies this
      ensures r == Resolution(fontName, registry)
      ensures r.Err? ==> unchanged(this)
      ensures r.Ok? ==>
        && sansSerif == [r.value] + old(sansSerif)
        && fontSize == Points(size) && axesLabelSize == Points(size)
        && axesTitleSize == Points(size + 2)
        && xtickLabelSize == Points(size - 1) && ytickLabelSize == Points(size - 1)
        && legendFontSize == Points(size - 1)
        && figureTitleSize == Points(size + 4)
        && !unicodeMinus
        && FontConfigInfo().currentFont == r.value
    {
      r := Resolution(fontName, registry);
      if r.Err? {
        return;
      }
      Apply(r.value, size);
    }

    /** The writes of `setup_chinese_font` once the family `name` is settled. */
    method Apply(name: string, size: int)
      modifies this
      ensures sansSerif == [name] + old(sansSerif)
      ensures fontSize == Points(size) && axesLabelSize == Points(size)
      ensures axesTitleSize == Points(size + 2)
      ensures xtickLabelSize == Points(size - 1) && ytickLabelSize == Points(size - 1)
      ensures legendFontSize == Points(size - 1)
      ensures figureTitleSize == Points(size + 4)
      ensures !unicodeMinus
      ensures FontConfigInfo().currentFont == name
    {
      sansSerif := [name] + sansSerif;
      fontSize := Points(size);
      axesLabelSize := Points(size);
      axesTitleSize := Points(size + 2);
      xtickLabelSize := Points(size - 1);
      ytickLabelSize := Points(size - 1);
      legendFontSize := Points(size - 1);
      figureTitleSize := Points(size + 4);
      unicodeMinus := false;
    }
  }

  /** Detection prefers "SimHei" over generic families. */
  lemma DetectScenarioSimHei()
    ensures DetectChineseFont(Some(["Arial", "SimHei", "Times New Roman"])) == Some("SimHei")
  {
    var available := GetAvailableFonts(Some(["Arial", "SimHei", "Times New Roman"]));
    assert "SimHei" in available;
    assert EarliestPresent(PreferredFonts, available, 0);
  }

  /** "DejaVu Sans", last in the ranking, is still accepted. */
  lemma DetectScenarioDejaVu()
    ensures DetectChineseFont(Some(["Arial", "DejaVu Sans"])) == Some("DejaVu Sans")
  {
    var available := GetAvailableFonts(Some(["Arial", "DejaVu Sans"]));
    assert forall n :: n in available <==> n == "Arial" || n == "DejaVu Sans";
    assert EarliestPresent(PreferredFonts, available, 7);
    FirstPreferredUnique(PreferredFonts, available, 7);
  }

  /** Without a preferred family or a CJK marker, detection finds nothing rather than inventing a name. */
  lemma DetectScenarioNone()
    ensures DetectChineseFont(Some(["Arial", "Times New Roman"])) == None
  {
    var available := GetAvailableFonts(Some(["Arial", "Times New Roman"]));
    assert forall n :: n in available <==> n == "Arial" || n == "Times New Roman";
    NoMarkers();
    assert "Arial" !in PreferredFonts && "Times New Roman" !in PreferredFonts;
    assert forall n :: n in available ==> n !in PreferredFonts && !HasCjkMarker(n);
  }

  lemma NoMarkers()
    ensures !HasCjkMarker("Arial") && !HasCjkMarker("Times New Roman")
  {
    NotContainsChar("Arial", "CJK", 0);
    NotContainsChar("Arial", "中文", 0);
    NotContainsChar("Times New Roman", "CJK", 0);
    NotContainsChar("Times New Roman", "中文", 0);
  }
}
