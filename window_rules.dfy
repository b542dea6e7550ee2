/**
 * Window-rule resolution: which configured rules apply to a toplevel, and the
 * per-window defaults they resolve to (`window_matches`, `resolve_window_rules`).
 */
module WindowRules {
  import opened Base

  /** A regular expression from the configuration; only its source text is kept. */
  datatype Regex = Regex(source: string)

  /**
   * Regular-expression evaluation (`Regex::is_match`) belongs to the regex
   * library; the model takes it as a parameter and assumes nothing about it.
   */
  type Matcher = (Regex, string) -> bool

  /** The role attributes of an xdg toplevel that rules look at. */
  datatype Role = Role(appId: Option<string>, title: Option<string>)

  /** One `match`/`exclude` entry of a rule: each present pattern is a criterion. */
  datatype Match = Match(appId: Option<Regex>, title: Option<Regex>)

  /** A column width preset from the configuration. */
  datatype ColumnWidth = Proportion(fraction: real) | Fixed(pixels: int)

  /** A configured window rule; `defaultColumnWidth` is the (possibly empty) list written in the rule. */
  datatype WindowRule = WindowRule(
    matches: seq<Match>,
    excludes: seq<Match>,
    defaultColumnWidth: Option<seq<ColumnWidth>>,
    openOnOutput: Option<string>)

  /**
   * The resolved defaults. `defaultWidth` has three states: `None` (no rule set
   * it), `Some(None)` (a rule set it to an empty list), `Some(Some(w))`.
   */
  datatype ResolvedWindowRule = ResolvedWindowRule(
    defaultWidth: Option<Option<ColumnWidth>>,
    openOnOutput: Option<string>)

  /** Whether one match entry holds for a window (`window_matches`). */
  function WindowMatches(role: Role, m: Match, isMatch: Matcher): (r: bool)
    ensures m.appId.Some? && role.appId.None? ==> !r
    ensures m.title.Some? && role.title.None? ==> !r
    ensures m == Match(None, None) ==> r
    ensures r <==>
      (m.appId.Some? ==> role.appId.Some? && isMatch(m.appId.value, role.appId.value)) &&
      (m.title.Some? ==> role.title.Some? && isMatch(m.title.value, role.title.value))
  {
    if m.appId.Some? && (role.appId.None? || !isMatch(m.appId.value, role.appId.value)) then
      false
    else if m.title.Some? && (role.title.None? || !isMatch(m.title.value, role.title.value)) then
      false
    else
      true
  }

  /** `ms.iter().any(|m| window_matches(role, m))`. */
  function AnyMatches(ms: seq<Match>, role: Role, isMatch: Matcher): (r: bool)
    ensures r <==> exists m :: m in ms && WindowMatches(role, m, isMatch)
  {
    if ms == [] then false
    else WindowMatches(role, ms[0], isMatch) || AnyMatches(ms[1..], role, isMatch)
  }

  /**
   * A rule contributes to a window iff its match list is empty or one of its
   * entries matches, and none of its exclude entries matches.
   */
  function RuleApplies(rule: WindowRule, role: Role, isMatch: Matcher): (r: bool)
    ensures r <==>
      (|rule.matches| == 0 || exists m :: m in rule.matches && WindowMatches(role, m, isMatch)) &&
      (forall m :: m in rule.excludes ==> !WindowMatches(role, m, isMatch))
  {
    (|rule.matches| == 0 || AnyMatches(rule.matches, role, isMatch))
    && !AnyMatches(rule.excludes, role, isMatch)
  }

  /** What a rule writes into `default_width`, if it sets it: the first listed width, or none. */
  function WidthField(rule: WindowRule): Option<Option<ColumnWidth>>
  {
    match rule.defaultColumnWidth
    case None => None
    case Some(widths) => Some(if |widths| == 0 then None else Some(widths[0]))
  }

  /** What a rule writes into `open_on_output`, if it sets it. */
  function OutputField(rule: WindowRule): Option<string>
  {
    rule.openOnOutput
  }

  /** Whether `rule` applies to the window and sets the field selected by `field`. */
  predicate SetsField<T>(rule: WindowRule, role: Role, isMatch: Matcher, field: WindowRule -> Option<T>)
  {
    RuleApplies(rule, role, isMatch) && field(rule).Some?
  }

  /**
   * Reference definition of one resolved field: the value written by the LAST
   * applicable rule that sets it, or `None` when no applicable rule sets it.
   */
  function LastSet<T>(rules: seq<WindowRule>, role: Role, isMatch: Matcher, field: WindowRule -> Option<T>): Option<T>
    decreases |rules|
  {
    if rules == [] then None
    else if SetsField(rules[|rules| - 1], role, isMatch, field) then field(rules[|rules| - 1])
    else LastSet(rules[..|rules| - 1], role, isMatch, field)
  }

  /** Reference definition of the resolved rule: each field independently from its last setter. */
  function Resolved(rules: seq<WindowRule>, role: Role, isMatch: Matcher): ResolvedWindowRule
  {
    ResolvedWindowRule(LastSet(rules, role, isMatch, WidthField), LastSet(rules, role, isMatch, OutputField))
  }

  /** `resolve_window_rules`: fold the rules in order into a mutable result. */
  method ResolveWindowRules(rules: seq<WindowRule>, role: Role, isMatch: Matcher)
    returns (resolved: ResolvedWindowRule)
    ensures resolved == Resolved(rules, role, isMatch)
  {
    resolved := ResolvedWindowRule(None, None);
    for i := 0 to |rules|
      invariant resolved == Resolved(rules[..i], role, isMatch)
    {
      var rule := rules[i];
      assert rules[..i + 1][..i] == rules[..i];
      if !(|rule.matches| == 0 || AnyMatches(rule.matches, role, isMatch)) {
        continue;
      }
      if AnyMatches(rule.excludes, role, isMatch) {
        continue;
      }
      if rule.defaultColumnWidth.Some? {
        var widths := rule.defaultColumnWidth.value;
        resolved := resolved.(defaultWidth := Some(if |widths| == 0 then None else Some(widths[0])));
      }
      if rule.openOnOutput.Some? {
        resolved := resolved.(openOnOutput := rule.openOnOutput);
      }
    }
    assert rules[..|rules|] == rules;
  }

  /** The last applicable setter of a field determines it; later rules that do not set it change nothing. */
  lemma {:induction false} LastSetIsLastSetter<T>(
    rules: seq<WindowRule>, role: Role, isMatch: Matcher, field: WindowRule -> Option<T>, i: nat)
    requires i < |rules| && SetsField(rules[i], role, isMatch, field)
    requires forall j :: i < j < |rules| ==> !SetsField(rules[j], role, isMatch, field)
    ensures LastSet(rules, role, isMatch, field) == field(rules[i])
    decreases |rules|
  {
    var n := |rules|;
    if i < n - 1 {
      var prefix := rules[..n - 1];
      assert forall j :: i < j < |prefix| ==> prefix[j] == rules[j];
      LastSetIsLastSetter(prefix, role, isMatch, field, i);
    }
  }

  /** A field is unresolved exactly when no applicable rule sets it. */
  lemma {:induction false} LastSetNoneIff<T>(
    rules: seq<WindowRule>, role: Role, isMatch: Matcher, field: WindowRule -> Option<T>)
    ensures LastSet(rules, role, isMatch, field).None? <==>
      forall i :: 0 <= i < |rules| ==> !SetsField(rules[i], role, isMatch, field)
    decreases |rules|
  {
    if rules != [] {
      var prefix := rules[..|rules| - 1];
      LastSetNoneIff(prefix, role, isMatch, field);
      assert forall i :: 0 <= i < |prefix| ==> prefix[i] == rules[i];
    }
  }

  /** A rule that does not apply can be removed from anywhere in the list without changing a field. */
  lemma {:induction false} LastSetSkips<T>(
    before: seq<WindowRule>, rule: WindowRule, after: seq<WindowRule>,
    role: Role, isMatch: Matcher, field: WindowRule -> Option<T>)
    requires !RuleApplies(rule, role, isMatch)
    ensures LastSet(before + [rule] + after, role, isMatch, field) == LastSet(before + after, role, isMatch, field)
    decreases |after|
  {
    if after == [] {
      assert (before + [rule] + after)[..|before|] == before;
      assert before + after == before;
    } else {
      var n := |after|;
      LastSetSkips(before, rule, after[..n - 1], role, isMatch, field);
      assert (before + [rule] + after)[..|before| + n] == before + [rule] + after[..n - 1];
      assert (before + after)[..|before| + n - 1] == before + after[..n - 1];
    }
  }

  /**
   * Last match wins for `default_width`: the resolved value comes from the last
   * applicable rule that has a width list, and is `Some(None)` when that list is empty.
   */
  lemma ResolvedWidthIsLastSetter(rules: seq<WindowRule>, role: Role, isMatch: Matcher, i: nat)
    requires i < |rules| && RuleApplies(rules[i], role, isMatch) && rules[i].defaultColumnWidth.Some?
    requires forall j :: i < j < |rules| ==>
      !RuleApplies(rules[j], role, isMatch) || rules[j].defaultColumnWidth.None?
    ensures var widths := rules[i].defaultColumnWidth.value;
      Resolved(rules, role, isMatch).defaultWidth ==
        Some(if |widths| == 0 then None else Some(widths[0]))
    ensures |rules[i].defaultColumnWidth.value| == 0 ==>
      Resolved(rules, role, isMatch).defaultWidth == Some(None)
  {
    LastSetIsLastSetter(rules, role, isMatch, WidthField, i);
  }

  /** Last match wins for `open_on_output`, independently of `default_width`. */
  lemma ResolvedOutputIsLastSetter(rules: seq<WindowRule>, role: Role, isMatch: Matcher, i: nat)
    requires i < |rules| && RuleApplies(rules[i], role, isMatch) && rules[i].openOnOutput.Some?
    requires forall j :: i < j < |rules| ==>
      !RuleApplies(rules[j], role, isMatch) || rules[j].openOnOutput.None?
    ensures Resolved(rules, role, isMatch).openOnOutput == rules[i].openOnOutput
  {
    LastSetIsLastSetter(rules, role, isMatch, OutputField, i);
  }

  /** Each resolved field is `None` exactly when no applicable rule sets it. */
  lemma ResolvedUnsetIff(rules: seq<WindowRule>, role: Role, isMatch: Matcher)
    ensures Resolved(rules, role, isMatch).defaultWidth.None? <==>
      forall i :: 0 <= i < |rules| ==>
        !RuleApplies(rules[i], role, isMatch) || rules[i].defaultColumnWidth.None?
    ensures Resolved(rules, role, isMatch).openOnOutput.None? <==>
      forall i :: 0 <= i < |rules| ==>
        !RuleApplies(rules[i], role, isMatch) || rules[i].openOnOutput.None?
  {
    LastSetNoneIff(rules, role, isMatch, WidthField);
    LastSetNoneIff(rules, role, isMatch, OutputField);
  }

  /** A skipped rule changes nothing, wherever it stands in the list. */
  lemma SkippedRuleChangesNothing(
    before: seq<WindowRule>, rule: WindowRule, after: seq<WindowRule>, role: Role, isMatch: Matcher)
    requires !RuleApplies(rule, role, isMatch)
    ensures Resolved(before + [rule] + after, role, isMatch) == Resolved(before + after, role, isMatch)
  {
    LastSetSkips(before, rule, after, role, isMatch, WidthField);
    LastSetSkips(before, rule, after, role, isMatch, OutputField);
  }
}
