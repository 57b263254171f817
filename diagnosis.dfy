/**
 * The rule table of the Chinese-font diagnostic
 * (examples/diagnose_chinese_font.py, `_diagnose_problems`): ordered threshold
 * and membership rules that read the sections of the diagnostic report and
 * append problems and suggestions in rule order.
 */
module Diagnosis {
  import opened Wrappers
  import opened Text
  import opened Seqs
  import opened Dicts

  /**
   * A value stored in the report: Python's None, bools, ints, strings, lists of
   * strings, and any other object seen only through `str()` and `bool()`.
   */
  datatype PyValue =
    | PNone
    | PBool(b: bool)
    | PInt(i: int)
    | PStr(s: string)
    | PList(items: seq<string>)
    | POpaque(text: string, truthy: bool)

  /** Python's `bool(v)`. */
  predicate Truthy(v: PyValue) {
    match v
    case PNone => false
    case PBool(b) => b
    case PInt(i) => i != 0
    case PStr(s) => s != ""
    case PList(items) => items != []
    case POpaque(_, t) => t
  }

  /** Python's `v == 0` (`False == 0` holds too). */
  predicate EqualsZero(v: PyValue) {
    v == PInt(0) || v == PBool(false)
  }

  /** Python's `repr` of a list of strings. */
  function QuotedList(xs: seq<string>): seq<string> {
    if xs == [] then [] else ["'" + xs[0] + "'"] + QuotedList(xs[1..])
  }

  /** Python's `str(v)`, as an f-string writes it. */
  function Display(v: PyValue): string {
    match v
    case PNone => "None"
    case PBool(b) => if b then "True" else "False"
    case PInt(i) => IntToString(i)
    case PStr(s) => s
    case PList(items) => "[" + JoinWith(", ", QuotedList(items)) + "]"
    case POpaque(text, _) => text
  }

  /** `d.get(key, default)`. */
  function GetOr(d: Dict<PyValue>, key: string, default: PyValue): PyValue {
    match Get(d, key)
    case Some(v) => v
    case None => default
  }

  /** The report sections the rules read; the two result lists are written by the rules. */
  datatype Report = Report(fontStatus: Dict<PyValue>, mplConfig: Dict<PyValue>, testResults: Dict<PyValue>,
                           cacheStatus: Dict<PyValue>, problems: seq<string>, suggestions: seq<string>)

  /** The six rules, in the order they run. */
  datatype Rule = SystemFonts | MatplotlibFonts | FontSupport | UnicodeMinus | RenderingTests | CacheSize

  function Position(rule: Rule): nat {
    match rule
    case SystemFonts => 0
    case MatplotlibFonts => 1
    case FontSupport => 2
    case UnicodeMinus => 3
    case RenderingTests => 4
    case CacheSize => 5
  }

  /** One rule that fired: the rule, its problem and the suggestions that come with it. */
  datatype Finding = Finding(rule: Rule, problem: string, suggestions: seq<string>)

  const SystemCountKey := "系统中文字体数量"
  const MplCountKey := "matplotlib识别的中文字体数量"
  const MplFontsKey := "matplotlib识别的中文字体"
  const CurrentFontKey := "当前字体"
  const CacheCountKey := "缓存文件数量"

  /** The keys `_check_font_status` writes into its section; the count the second rule reads is not among them. */
  const FontStatusKeys: seq<string> := [
    "系统字体路径", SystemCountKey, "系统检测到的中文字体", "matplotlib识别的字体总数", MplFontsKey, "推荐字体列表"
  ]

  /** The key the section holds instead when the check raised. */
  const ErrorKey := "错误"

  const NoSystemFonts := Finding(SystemFonts, "系统中未安装中文字体", [
    "运行字体安装：python -m utils.font_installer", "或手动下载安装SimHei、Microsoft YaHei等字体"])

  const NoMatplotlibFonts := Finding(MatplotlibFonts, "matplotlib无法识别中文字体", [
    "清理matplotlib缓存：python -m utils.clear_matplotlib_cache",
    "或运行完整配置：complete_chinese_font_setup(clear_cache=True)"])

  function UnsupportedFont(current: PyValue): Finding {
    Finding(FontSupport, "当前配置的字体 '" + Display(current) + "' 不支持中文",
            ["重新配置字体：setup_chinese_font() 或 complete_chinese_font_setup()"])
  }

  const UnicodeMinusProblem := Finding(UnicodeMinus, "unicode_minus设置可能导致负号显示问题",
                                       ["设置 rcParams['axes.unicode_minus'] = False"])

  function RenderingFailed(failed: seq<string>): Finding {
    Finding(RenderingTests, "中文渲染测试失败: " + JoinWith(", ", failed), ["尝试快速修复：quick_fix_chinese_display()"])
  }

  const TooManyCacheFiles := Finding(CacheSize, "matplotlib缓存文件过多，可能影响性能",
                                     ["清理缓存：MatplotlibCacheCleaner().clear_font_cache()"])

  /** The name of a test whose result is a string starting with "失败". */
  function FailedName(item: (string, PyValue)): Option<string> {
    if item.1.PStr? && StartsWith(item.1.s, "失败") then Some(item.0) else None
  }

  /** The failed tests, in the order of the results dictionary. */
  function FailedTests(testResults: Dict<PyValue>): seq<string> {
    FilterMap(testResults, FailedName)
  }

  // The six rule conditions, in table order.

  predicate NoSystemFontsFires(r: Report) {
    EqualsZero(GetOr(r.fontStatus, SystemCountKey, PInt(0)))
  }

  predicate NoMatplotlibFontsFires(r: Report) {
    EqualsZero(GetOr(r.fontStatus, MplCountKey, PInt(0)))
  }

  function CurrentFont(r: Report): PyValue {
    GetOr(r.mplConfig, CurrentFontKey, PStr(""))
  }

  /** Python's `current_font not in lst` for a list of strings; nothing else is a list here. */
  predicate NotListed(v: PyValue, lst: PyValue) {
    !(lst.PList? && v.PStr? && v.s in lst.items)
  }

  predicate UnsupportedFontFires(r: Report) {
    Truthy(CurrentFont(r)) && NotListed(CurrentFont(r), GetOr(r.fontStatus, MplFontsKey, PList([])))
  }

  /** `mpl_config.get("unicode_minus") is True`. */
  predicate UnicodeMinusFires(r: Report) {
    Get(r.mplConfig, "unicode_minus") == Some(PBool(true))
  }

  predicate RenderingFailedFires(r: Report) {
    FailedTests(r.testResults) != []
  }

  /** `cache_status.get("缓存文件数量", 0) > 20` for an int count. */
  predicate TooManyCacheFilesFires(r: Report) {
    var count := GetOr(r.cacheStatus, CacheCountKey, PInt(0));
    count.PInt? && count.i > 20
  }

  /** Whether `rule` fires on the report. */
  predicate Fires(r: Report, rule: Rule) {
    match rule
    case SystemFonts => NoSystemFontsFires(r)
    case MatplotlibFonts => NoMatplotlibFontsFires(r)
    case FontSupport => UnsupportedFontFires(r)
    case UnicodeMinus => UnicodeMinusFires(r)
    case RenderingTests => RenderingFailedFires(r)
    case CacheSize => TooManyCacheFilesFires(r)
  }

  /** The rule table in the order `_diagnose_problems` runs it. */
  const RuleTable: seq<Rule> := [SystemFonts, MatplotlibFonts, FontSupport, UnicodeMinus, RenderingTests, CacheSize]

  /** The rules of `rules` that `fires` selects, in order. */
  function Select(rules: seq<Rule>, fires: Rule -> bool): seq<Rule> {
    if rules == [] then []
    else Select(rules[..|rules| - 1], fires) + (if fires(rules[|rules| - 1]) then [rules[|rules| - 1]] else [])
  }

  function FiresOn(r: Report): Rule -> bool {
    (rule: Rule) => Fires(r, rule)
  }

  /** The rules that fire on the report, in table order. */
  function FiredRules(r: Report): seq<Rule> {
    Select(RuleTable, FiresOn(r))
  }

  /** The problem and suggestions a fired rule contributes. */
  function FindingFor(rule: Rule, r: Report): Finding {
    match rule
    case SystemFonts => NoSystemFonts
    case MatplotlibFonts => NoMatplotlibFonts
    case FontSupport => UnsupportedFont(CurrentFont(r))
    case UnicodeMinus => UnicodeMinusProblem
    case RenderingTests => RenderingFailed(FailedTests(r.testResults))
    case CacheSize => TooManyCacheFiles
  }

  function FindingsFor(rules: seq<Rule>, r: Report): seq<Finding> {
    if rules == [] then [] else FindingsFor(rules[..|rules| - 1], r) + [FindingFor(rules[|rules| - 1], r)]
  }

  /** The findings of the rule table, in rule order. */
  function Findings(r: Report): seq<Finding> {
    FindingsFor(FiredRules(r), r)
  }

  function Problems(fs: seq<Finding>): seq<string> {
    if fs == [] then [] else Problems(fs[..|fs| - 1]) + [fs[|fs| - 1].problem]
  }

  function Suggestions(fs: seq<Finding>): seq<string> {
    if fs == [] then [] else Suggestions(fs[..|fs| - 1]) + fs[|fs| - 1].suggestions
  }

  // Selection of rules.

  predicate Increasing(rules: seq<Rule>) {
    forall i, j :: 0 <= i < j < |rules| ==> Position(rules[i]) < Position(rules[j])
  }

  lemma {:induction false} SelectMembers(rules: seq<Rule>, fires: Rule -> bool, rule: Rule)
    ensures rule in Select(rules, fires) <==> rule in rules && fires(rule)
  {
    if rules != [] {
      var init := rules[..|rules| - 1];
      SelectMembers(init, fires, rule);
      assert rules == init + [rules[|rules| - 1]];
    }
  }

  /** Selecting from a list in table order keeps table order. */
  lemma {:induction false} SelectIncreasing(rules: seq<Rule>, fires: Rule -> bool)
    requires Increasing(rules)
    ensures Increasing(Select(rules, fires))
  {
    if rules != [] {
      var init := rules[..|rules| - 1];
      var last := rules[|rules| - 1];
      assert Increasing(init);
      SelectIncreasing(init, fires);
      var sel := Select(init, fires);
      forall k | 0 <= k < |sel| ensures Position(sel[k]) < Position(last) {
        SelectMembers(init, fires, sel[k]);
        var m :| 0 <= m < |init| && init[m] == sel[k];
        assert rules[m] == sel[k];
      }
    }
  }

  lemma RuleTableIncreasing()
    ensures Increasing(RuleTable)
  {
  }

  /** A rule is among the fired rules exactly when it fires; the fired rules keep the table's order. */
  lemma FiredRulesMeaning(r: Report, rule: Rule)
    ensures rule in FiredRules(r) <==> Fires(r, rule)
    ensures Increasing(FiredRules(r))
  {
    SelectMembers(RuleTable, FiresOn(r), rule);
    RuleTableIncreasing();
    SelectIncreasing(RuleTable, FiresOn(r));
  }

  // Findings and their texts.

  /** Each finding belongs to the rule it is listed for. */
  lemma RuleOfFinding(rule: Rule, r: Report)
    ensures FindingFor(rule, r).rule == rule
  {
  }

  lemma {:induction false} FindingsForMembers(rules: seq<Rule>, r: Report)
    ensures |FindingsFor(rules, r)| == |rules|
    ensures forall i :: 0 <= i < |rules| ==> FindingsFor(rules, r)[i] == FindingFor(rules[i], r)
  {
    if rules != [] {
      FindingsForMembers(rules[..|rules| - 1], r);
    }
  }

  /**
   * A rule has a finding exactly when it fires, that finding is the rule's
   * own, and the findings keep the table's order (so each rule at most once).
   */
  lemma FindingsMeaning(r: Report, rule: Rule)
    ensures (exists i :: 0 <= i < |Findings(r)| && Findings(r)[i].rule == rule) <==> Fires(r, rule)
    ensures Fires(r, rule) ==> FindingFor(rule, r) in Findings(r)
    ensures forall i, j :: 0 <= i < j < |Findings(r)| ==> Position(Findings(r)[i].rule) < Position(Findings(r)[j].rule)
  {
    var rules := FiredRules(r);
    FindingsForMembers(rules, r);
    FiredRulesMeaning(r, rule);
    forall i | 0 <= i < |rules| ensures Findings(r)[i].rule == rules[i] {
      RuleOfFinding(rules[i], r);
    }
    if rule in rules {
      var i :| 0 <= i < |rules| && rules[i] == rule;
      assert Findings(r)[i] == FindingFor(rule, r);
    }
  }

  lemma {:induction false} ProblemsAppend(a: seq<Finding>, b: seq<Finding>)
    ensures Problems(a + b) == Problems(a) + Problems(b)
    ensures Suggestions(a + b) == Suggestions(a) + Suggestions(b)
    decreases |b|
  {
    if b == [] {
      assert a + b == a;
    } else {
      assert (a + b)[..|a + b| - 1] == a + b[..|b| - 1];
      ProblemsAppend(a, b[..|b| - 1]);
    }
  }

  /** One problem per finding, in order. */
  lemma {:induction false} ProblemsMembers(fs: seq<Finding>)
    ensures |Problems(fs)| == |fs|
    ensures forall i :: 0 <= i < |fs| ==> Problems(fs)[i] == fs[i].problem
  {
    if fs != [] {
      ProblemsMembers(fs[..|fs| - 1]);
    }
  }

  /** When every finding carries a suggestion, there are at least as many suggestions as problems. */
  lemma {:induction false} SuggestionsCoverProblems(fs: seq<Finding>)
    requires forall i :: 0 <= i < |fs| ==> fs[i].suggestions != []
    ensures |Suggestions(fs)| >= |Problems(fs)|
  {
    if fs != [] {
      SuggestionsCoverProblems(fs[..|fs| - 1]);
    }
  }

  lemma RuleHasSuggestion(rule: Rule, r: Report)
    ensures FindingFor(rule, r).suggestions != []
  {
  }

  /** Every rule of the table comes with a suggestion, so suggestions never fall short of problems. */
  lemma EveryProblemSuggested(r: Report)
    ensures |Suggestions(Findings(r))| >= |Problems(Findings(r))|
  {
    var rules := FiredRules(r);
    FindingsForMembers(rules, r);
    forall i | 0 <= i < |rules| ensures Findings(r)[i].suggestions != [] {
      RuleHasSuggestion(rules[i], r);
    }
    SuggestionsCoverProblems(Findings(r));
  }

  /** The report lists `f`'s problem and each of its suggestions. */
  predicate Reports(r: Report, f: Finding) {
    f.problem in Problems(Findings(r)) && forall s :: s in f.suggestions ==> s in Suggestions(Findings(r))
  }

  lemma FindingReported(fs: seq<Finding>, f: Finding)
    requires f in fs
    ensures f.problem in Problems(fs) && forall s :: s in f.suggestions ==> s in Suggestions(fs)
  {
    var i :| 0 <= i < |fs| && fs[i] == f;
    ProblemsMembers(fs);
    assert fs == fs[..i] + [f] + fs[i + 1..];
    ProblemsAppend(fs[..i] + [f], fs[i + 1..]);
    ProblemsAppend(fs[..i], [f]);
    assert [f][..0] == [];
    assert Suggestions([f]) == f.suggestions;
  }

  /** A rule that fires has its problem and all its suggestions in the report. */
  lemma FiredRuleReported(r: Report, rule: Rule)
    requires Fires(r, rule)
    ensures Reports(r, FindingFor(rule, r))
  {
    FindingsMeaning(r, rule);
    FindingReported(Findings(r), FindingFor(rule, r));
  }

  /** A problem is reported exactly when some fired rule has it. */
  lemma {:induction false} ProblemsMembership(fs: seq<Finding>, p: string)
    ensures p in Problems(fs) <==> exists i :: 0 <= i < |fs| && fs[i].problem == p
  {
    ProblemsMembers(fs);
    if p in Problems(fs) {
      var i :| 0 <= i < |Problems(fs)| && Problems(fs)[i] == p;
      assert fs[i].problem == p;
    }
  }

  // The individual rules.

  /** The first rule fires exactly when the system count is 0 (or False) or missing. */
  lemma NoSystemFontsRule(r: Report)
    ensures NoSystemFontsFires(r) <==>
      Get(r.fontStatus, SystemCountKey).None? || EqualsZero(Get(r.fontStatus, SystemCountKey).value)
    ensures NoSystemFontsFires(r) ==> Reports(r, NoSystemFonts)
  {
    if NoSystemFontsFires(r) {
      FiredRuleReported(r, SystemFonts);
    }
  }

  /**
   * A font-status section as `_check_font_status` writes it (or its error
   * section) never holds the count the second rule reads, so that rule
   * always fires with both its suggestions.
   */
  lemma UnpopulatedCountAlwaysFires(r: Report)
    requires forall k :: k in Keys(r.fontStatus) ==> k in FontStatusKeys || k == ErrorKey
    ensures NoMatplotlibFontsFires(r)
    ensures Reports(r, NoMatplotlibFonts)
  {
    NotWrittenKey();
    assert Get(r.fontStatus, MplCountKey).None?;
    FiredRuleReported(r, MatplotlibFonts);
  }

  lemma NotWrittenKey()
    ensures MplCountKey !in FontStatusKeys && MplCountKey != ErrorKey
  {
    assert |MplCountKey| != |ErrorKey|;
    forall i | 0 <= i < |FontStatusKeys| ensures FontStatusKeys[i] != MplCountKey {
      assert FontStatusKeys[i][|FontStatusKeys[i]| - 1] != MplCountKey[|MplCountKey| - 1] ||
             |FontStatusKeys[i]| != |MplCountKey|;
    }
  }

  /** An empty current font never fires the third rule; a non-empty one fires it exactly when it is not listed. */
  lemma CurrentFontRule(r: Report)
    ensures CurrentFont(r) == PStr("") ==> !UnsupportedFontFires(r)
    ensures CurrentFont(r).PStr? && CurrentFont(r).s != "" ==>
      (UnsupportedFontFires(r) <==>
        !(GetOr(r.fontStatus, MplFontsKey, PList([])).PList? &&
          CurrentFont(r).s in GetOr(r.fontStatus, MplFontsKey, PList([])).items))
  {
  }

  /** The fourth rule fires for the value True only: neither 1 nor "True" fires it. */
  lemma UnicodeMinusRule(r: Report)
    ensures Get(r.mplConfig, "unicode_minus") == Some(PInt(1)) ==> !UnicodeMinusFires(r)
    ensures Get(r.mplConfig, "unicode_minus") == Some(PStr("True")) ==> !UnicodeMinusFires(r)
    ensures UnicodeMinusFires(r) ==> Reports(r, UnicodeMinusProblem)
  {
    if UnicodeMinusFires(r) {
      FiredRuleReported(r, UnicodeMinus);
    }
  }

  /** The failed tests are exactly the results that are strings starting with "失败", in dictionary order. */
  lemma FailedTestsMembers(testResults: Dict<PyValue>, t: string)
    ensures t in FailedTests(testResults) <==>
      exists i :: 0 <= i < |testResults| && testResults[i].0 == t && testResults[i].1.PStr? &&
        StartsWith(testResults[i].1.s, "失败")
    ensures |FailedTests(testResults)| <= |testResults|
  {
    FilterMapMembers(testResults, FailedName, t);
    if t in FailedTests(testResults) {
      var i :| KeptAt(testResults, FailedName, i, t);
    }
    if exists i :: 0 <= i < |testResults| && testResults[i].0 == t && testResults[i].1.PStr? &&
        StartsWith(testResults[i].1.s, "失败") {
      var i :| 0 <= i < |testResults| && testResults[i].0 == t && testResults[i].1.PStr? &&
        StartsWith(testResults[i].1.s, "失败");
      assert KeptAt(testResults, FailedName, i, t);
    }
  }

  /** The cache rule is strict: 21 files fire it, 20 do not, and a missing count reads as 0. */
  lemma CacheThreshold(r: Report)
    ensures Get(r.cacheStatus, CacheCountKey) == Some(PInt(20)) ==> !TooManyCacheFilesFires(r)
    ensures Get(r.cacheStatus, CacheCountKey) == Some(PInt(21)) ==> TooManyCacheFilesFires(r)
    ensures Get(r.cacheStatus, CacheCountKey).None? ==> !TooManyCacheFilesFires(r)
  {
  }

  // The imperative rule run.

  function When(fires: bool, f: Finding): seq<Finding> {
    if fires then [f] else []
  }

  lemma {:induction false} FindingsForAppend(a: seq<Rule>, b: seq<Rule>, r: Report)
    ensures FindingsFor(a + b, r) == FindingsFor(a, r) + FindingsFor(b, r)
    decreases |b|
  {
    if b == [] {
      assert a + b == a;
    } else {
      assert (a + b)[..|a + b| - 1] == a + b[..|b| - 1];
      FindingsForAppend(a, b[..|b| - 1], r);
    }
  }

  /** Selecting from a list extends, rule by rule, the findings of its prefix. */
  lemma FindingsStep(rules: seq<Rule>, fires: Rule -> bool, r: Report, k: nat)
    requires k < |rules|
    ensures FindingsFor(Select(rules[..k + 1], fires), r)
         == FindingsFor(Select(rules[..k], fires), r) + When(fires(rules[k]), FindingFor(rules[k], r))
  {
    var rule := rules[k];
    assert rules[..k + 1][..k] == rules[..k];
    var w := if fires(rule) then [rule] else [];
    FindingsForAppend(Select(rules[..k], fires), w, r);
    if fires(rule) {
      assert w[..0] == [];
    }
  }

  lemma FindingsOfSix(rules: seq<Rule>, fires: Rule -> bool, r: Report)
    requires |rules| == 6
    ensures FindingsFor(Select(rules, fires), r) == [] + When(fires(rules[0]), FindingFor(rules[0], r))
      + When(fires(rules[1]), FindingFor(rules[1], r)) + When(fires(rules[2]), FindingFor(rules[2], r))
      + When(fires(rules[3]), FindingFor(rules[3], r)) + When(fires(rules[4]), FindingFor(rules[4], r))
      + When(fires(rules[5]), FindingFor(rules[5], r))
  {
    FindingsStep(rules, fires, r, 0);
    FindingsStep(rules, fires, r, 1);
    FindingsStep(rules, fires, r, 2);
    FindingsStep(rules, fires, r, 3);
    FindingsStep(rules, fires, r, 4);
    FindingsStep(rules, fires, r, 5);
    assert rules[..0] == [];
    assert rules[..6] == rules;
  }

  /** The findings, rule by rule, as the rule run appends them. */
  lemma FindingsChain(r: Report)
    ensures Findings(r) == [] + When(NoSystemFontsFires(r), NoSystemFonts)
      + When(NoMatplotlibFontsFires(r), NoMatplotlibFonts)
      + When(UnsupportedFontFires(r), UnsupportedFont(CurrentFont(r)))
      + When(UnicodeMinusFires(r), UnicodeMinusProblem)
      + When(RenderingFailedFires(r), RenderingFailed(FailedTests(r.testResults)))
      + When(TooManyCacheFilesFires(r), TooManyCacheFiles)
  {
    FindingsOfSix(RuleTable, FiresOn(r), r);
  }

  /** `ChineseFontDiagnostic`: the report that `_diagnose_problems` completes. */
  class Diagnostic {
    var report: Report

    constructor (report: Report)
      ensures this.report == report
    {
      this.report := report;
    }

    /**
     * `_diagnose_problems`: run the rules in order, appending each fired
     * rule's problem and suggestions, then store both lists in the report.
     */
    method DiagnoseProblems()
      modifies this
      ensures report == old(report).(problems := Problems(Findings(old(report))),
                                     suggestions := Suggestions(Findings(old(report))))
    {
      var r := report;
      var problems: seq<string> := [];
      var suggestions: seq<string> := [];
      ghost var done: seq<Finding> := [];
      done, problems, suggestions := Record(done, problems, suggestions, NoSystemFontsFires(r), NoSystemFonts);
      done, problems, suggestions := Record(done, problems, suggestions, NoMatplotlibFontsFires(r), NoMatplotlibFonts);
      var currentFont := CurrentFont(r);
      done, problems, suggestions := Record(done, problems, suggestions, UnsupportedFontFires(r),
                                            UnsupportedFont(currentFont));
      done, problems, suggestions := Record(done, problems, suggestions, UnicodeMinusFires(r), UnicodeMinusProblem);
      var failedTests := CollectFailedTests(r.testResults);
      done, problems, suggestions := Record(done, problems, suggestions, failedTests != [],
                                            RenderingFailed(failedTests));
      done, problems, suggestions := Record(done, problems, suggestions, TooManyCacheFilesFires(r), TooManyCacheFiles);
      FindingsChain(r);
      report := r.(problems := problems, suggestions := suggestions);
    }
  }

  /** Append a rule's problem and suggestions when it fires; `done` tracks the findings so far. */
  method Record(ghost done: seq<Finding>, problems: seq<string>, suggestions: seq<string>, fires: bool, f: Finding)
    returns (ghost done': seq<Finding>, problems': seq<string>, suggestions': seq<string>)
    requires problems == Problems(done) && suggestions == Suggestions(done)
    ensures done' == done + When(fires, f)
    ensures problems' == Problems(done') && suggestions' == Suggestions(done')
  {
    done' := done + When(fires, f);
    ProblemsAppend(done, When(fires, f));
    problems', suggestions' := problems, suggestions;
    if fires {
      assert When(fires, f)[..0] == [];
      problems' := problems + [f.problem];
      suggestions' := suggestions + f.suggestions;
    }
  }

  /** The comprehension collecting the failed tests. */
  method CollectFailedTests(testResults: Dict<PyValue>) returns (failed: seq<string>)
    ensures failed == FailedTests(testResults)
  {
    failed := [];
    var i := 0;
    while i < |testResults|
      invariant 0 <= i <= |testResults|
      invariant failed == FailedTests(testResults[..i])
    {
      var (test, result) := testResults[i];
      assert testResults[..i + 1][..i] == testResults[..i];
      if result.PStr? && StartsWith(result.s, "失败") {
        failed := failed + [test];
      }
      i := i + 1;
    }
    assert testResults[..i] == testResults;
  }
}
