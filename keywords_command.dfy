/** The `keywords` command (dist/cli/commands/keywords.js): the labels of
    the removal prompt, `add`, which appends a rule to the first source's
    keyword list, and `remove`, which splices the selected positions out of
    that list in descending order. Reading and writing config.json and the
    prompt are left to the caller: the editor holds the parsed
    configuration and reports whether it would be saved. */
module KeywordsCommand {
  import opened Wrappers
  import opened Text
  import opened Types
  import Sorting

  // ---------------------------------------------------------------------
  // Labels
  // ---------------------------------------------------------------------

  function TypeName(t: MatchType): string {
    match t
    case Exact => "exact"
    case Fuzzy => "fuzzy"
    case Phrase => "phrase"
  }

  /** `${k.weight}`: an absent weight prints as "undefined". */
  function WeightText(w: Option<int>): string {
    match w
    case Some(n) => IntToString(n)
    case None => "undefined"
  }

  /** The part of a label after its number: the string, or the rule's
      value, type and weight. */
  function Description(k: Keyword): string {
    match k
    case Simple(t) => t + " (simple match)"
    case Rule(r) => r.value + " (" + TypeName(r.matchType) + ", weight: " + WeightText(r.weight) + ")"
  }

  /** The prompt label of keyword `k` at index `i`: its 1-based number,
      then its description. */
  function FormatKeyword(k: Keyword, i: nat): string {
    NatToString(i + 1) + ". " + Description(k)
  }

  /** The number of leading decimal digits of `s`. */
  function DigitPrefixLength(s: string): (n: nat)
    ensures n <= |s|
    ensures forall j :: 0 <= j < n ==> IsDigit(s[j])
  {
    if s != [] && IsDigit(s[0]) then 1 + DigitPrefixLength(s[1..]) else 0
  }

  /** The index a label was made for: its leading number minus one, when
      the number is followed by a '.'. */
  function LabelIndex(line: string): Option<int> {
    var n := DigitPrefixLength(line);
    if 0 < n < |line| && line[n] == '.' then Some(DigitsValue(line[..n]) - 1) else None
  }

  lemma {:induction false} DigitPrefixOf(digits: string, rest: string)
    requires forall j :: 0 <= j < |digits| ==> IsDigit(digits[j])
    requires rest != [] && !IsDigit(rest[0])
    ensures DigitPrefixLength(digits + rest) == |digits|
    decreases |digits|
  {
    if digits != [] {
      assert (digits + rest)[1..] == digits[1..] + rest;
      DigitPrefixOf(digits[1..], rest);
    }
  }

  /** A line whose digit prefix is `digits`, followed by a '.', reads back
      as the value of `digits` minus one. */
  lemma LabelIndexOfPrefix(digits: string, line: string)
    requires forall j :: 0 <= j < |digits| ==> IsDigit(digits[j])
    requires 0 < |digits| < |line| && line[..|digits|] == digits && line[|digits|] == '.'
    requires DigitPrefixLength(line) == |digits|
    ensures LabelIndex(line) == Some(DigitsValue(digits) - 1)
  {
  }

  /** A run of digits followed by ". " reads back as its value minus one. */
  lemma NumberedLabel(digits: string, tail: string)
    requires digits != [] && forall j :: 0 <= j < |digits| ==> IsDigit(digits[j])
    ensures LabelIndex(digits + ". " + tail) == Some(DigitsValue(digits) - 1)
  {
    var line := digits + ". " + tail;
    assert line == digits + (". " + tail);
    DigitPrefixOf(digits, ". " + tail);
    assert line[..|digits|] == digits && line[|digits|] == '.';
    LabelIndexOfPrefix(digits, line);
  }

  /** Every label gives back the index it was made for, so the labels of
      different positions differ. */
  lemma LabelIndexRoundTrip(k: Keyword, i: nat)
    ensures LabelIndex(FormatKeyword(k, i)) == Some(i)
  {
    NumberedLabel(NatToString(i + 1), Description(k));
    NatToStringValue(i + 1);
  }

  lemma LabelsDistinct(k: Keyword, i: nat, k': Keyword, j: nat)
    requires i != j
    ensures FormatKeyword(k, i) != FormatKeyword(k', j)
  {
    LabelIndexRoundTrip(k, i);
    LabelIndexRoundTrip(k', j);
  }

  // ---------------------------------------------------------------------
  // Positions kept and positions picked
  // ---------------------------------------------------------------------

  /** The elements of `s` whose absolute position (counting from `off`)
      is in `positions` when `inside` holds, or not in it otherwise, in
      their original order. */
  function Pick<T>(s: seq<T>, positions: set<int>, off: int, inside: bool): (r: seq<T>)
    ensures |r| <= |s|
    decreases |s|
  {
    if s == [] then []
    else (if (off in positions) == inside then [s[0]] else []) + Pick(s[1..], positions, off + 1, inside)
  }

  /** What survives removing `positions` from `s`. */
  function Keep<T>(s: seq<T>, positions: set<int>): seq<T> {
    Pick(s, positions, 0, false)
  }

  /** The elements at `positions`, by ascending position. */
  function Picked<T>(s: seq<T>, positions: set<int>): seq<T> {
    Pick(s, positions, 0, true)
  }

  lemma {:induction false} PickAppend<T>(a: seq<T>, b: seq<T>, positions: set<int>, off: int, inside: bool)
    ensures Pick(a + b, positions, off, inside) == Pick(a, positions, off, inside) + Pick(b, positions, off + |a|, inside)
    decreases |a|
  {
    if a != [] {
      var ab := a + b;
      assert ab[0] == a[0] && ab[1..] == a[1..] + b;
      PickAppend(a[1..], b, positions, off + 1, inside);
      var head := if (off in positions) == inside then [a[0]] else [];
      assert Pick(ab, positions, off, inside) == head + Pick(a[1..] + b, positions, off + 1, inside);
      assert Pick(a, positions, off, inside) == head + Pick(a[1..], positions, off + 1, inside);
    } else {
      assert a + b == b;
    }
  }

  /** Only the positions `s` spans matter. */
  lemma {:induction false} PickSpan<T>(s: seq<T>, p: set<int>, q: set<int>, off: int, inside: bool)
    requires forall x :: off <= x < off + |s| ==> (x in p <==> x in q)
    ensures Pick(s, p, off, inside) == Pick(s, q, off, inside)
    decreases |s|
  {
    if s != [] {
      PickSpan(s[1..], p, q, off + 1, inside);
    }
  }

  /** Picking no position keeps everything and picks nothing. */
  lemma {:induction false} PickNone<T>(s: seq<T>, off: int)
    ensures Pick(s, {}, off, false) == s
    ensures Pick(s, {}, off, true) == []
    decreases |s|
  {
    if s != [] {
      PickNone(s[1..], off + 1);
    }
  }

  /** Keeping and picking split `s`: together they hold every element once. */
  lemma {:induction false} KeepPickedPartition<T>(s: seq<T>, positions: set<int>, off: int)
    ensures multiset(Pick(s, positions, off, false)) + multiset(Pick(s, positions, off, true)) == multiset(s)
    decreases |s|
  {
    if s != [] {
      KeepPickedPartition(s[1..], positions, off + 1);
      assert s == [s[0]] + s[1..];
    }
  }

  /** Picking from `s` around a position `d` no smaller position is listed
      below: the part before `d`, the element at `d`, and the rest. */
  lemma PickAround<T>(s: seq<T>, positions: set<int>, d: nat, inside: bool)
    requires d < |s|
    requires forall x :: x in positions ==> x >= d
    ensures Pick(s, positions, 0, inside)
              == Pick(s[..d], {}, 0, inside) + Pick([s[d]], positions, d, inside) + Pick(s[d + 1..], positions, d + 1, inside)
  {
    var low, mid, high := s[..d], [s[d]], s[d + 1..];
    assert s == (low + mid) + high;
    PickAppend(low + mid, high, positions, 0, inside);
    PickAppend(low, mid, positions, 0, inside);
    PickSpan(low, positions, {}, 0, inside);
  }

  /** What survives with and without `d` among the removed positions. */
  lemma KeepAround<T>(s: seq<T>, done: set<int>, d: nat)
    requires d < |s|
    requires forall x :: x in done ==> x > d
    ensures Keep(s, done) == s[..d] + [s[d]] + Pick(s[d + 1..], done, d + 1, false)
    ensures Keep(s, done + {d}) == s[..d] + Pick(s[d + 1..], done, d + 1, false)
  {
    var more := done + {d};
    PickNone(s[..d], 0);
    PickAround(s, done, d, false);
    assert Pick([s[d]], done, d, false) == [s[d]];
    PickAround(s, more, d, false);
    PickSpan(s[d + 1..], more, done, d + 1, false);
    assert Pick([s[d]], more, d, false) == [];
  }

  /** What is picked with and without `d` among the picked positions. */
  lemma PickedAround<T>(s: seq<T>, done: set<int>, d: nat)
    requires d < |s|
    requires forall x :: x in done ==> x > d
    ensures Picked(s, done) == Pick(s[d + 1..], done, d + 1, true)
    ensures Picked(s, done + {d}) == [s[d]] + Pick(s[d + 1..], done, d + 1, true)
  {
    var more := done + {d};
    PickNone(s[..d], 0);
    PickAround(s, done, d, true);
    assert Pick([s[d]], done, d, true) == [];
    PickAround(s, more, d, true);
    PickSpan(s[d + 1..], more, done, d + 1, true);
    assert Pick([s[d]], more, d, true) == [s[d]];
  }

  /** Removing one more position `d` below every removed one: the element
      at `d` is still in its original place, and splicing it out gives the
      survivors of the larger removal. */
  lemma SpliceStep<T>(s: seq<T>, done: set<int>, d: nat)
    requires d < |s|
    requires forall x :: x in done ==> x > d
    ensures |Keep(s, done)| > d && Keep(s, done)[d] == s[d]
    ensures Keep(s, done)[..d] + Keep(s, done)[d + 1..] == Keep(s, done + {d})
    ensures Picked(s, done + {d}) == [s[d]] + Picked(s, done)
  {
    KeepAround(s, done, d);
    PickedAround(s, done, d);
    var kept := Keep(s, done);
    var low := s[..d];
    var rest := Pick(s[d + 1..], done, d + 1, false);
    assert kept[..d] == low;
    assert kept[d + 1..] == rest;
  }

  // ---------------------------------------------------------------------
  // Helpers on index lists
  // ---------------------------------------------------------------------

  predicate Distinct(s: seq<nat>) {
    forall i, j :: 0 <= i < j < |s| ==> s[i] != s[j]
  }

  lemma {:induction false} DistinctCount(s: seq<nat>, x: nat)
    requires Distinct(s)
    ensures multiset(s)[x] <= 1
    decreases |s|
  {
    if s != [] {
      assert s == [s[0]] + s[1..];
      DistinctCount(s[1..], x);
      if s[0] == x {
        assert x !in s[1..];
      }
    }
  }

  /** The elements of `s` as a set. */
  function Elements(s: seq<nat>): set<int> {
    set x | x in s
  }

  function AsInt(i: nat): int { i }

  /** `selected.sort((a, b) => b - a)` of distinct indices: the same
      indices, strictly decreasing. */
  lemma DescendingIndices(selected: seq<nat>)
    requires Distinct(selected)
    ensures var desc := Sorting.SortDesc(selected, AsInt);
            && |desc| == |selected|
            && Elements(desc) == Elements(selected)
            && (forall i :: 0 <= i < |desc| ==> desc[i] in selected)
            && (forall i, j :: 0 <= i < j < |desc| ==> desc[i] > desc[j])
  {
    var desc := Sorting.SortDesc(selected, AsInt);
    Sorting.SortDescMembers(selected, AsInt);
    assert Elements(desc) == Elements(selected);
    forall i, j | 0 <= i < j < |desc| ensures desc[i] > desc[j] {
      if desc[i] == desc[j] {
        Sorting.RepeatedCount(desc, i, j);
        DistinctCount(selected, desc[i]);
        assert false;
      }
    }
  }

  function Reversed<T>(s: seq<T>): (r: seq<T>)
    ensures |r| == |s| && forall i :: 0 <= i < |s| ==> r[i] == s[|s| - 1 - i]
  {
    if s == [] then [] else [s[|s| - 1]] + Reversed(s[..|s| - 1])
  }

  // ---------------------------------------------------------------------
  // The editor
  // ---------------------------------------------------------------------

  /** Why an edit failed: `config.sources[0].keywords` does not exist. */
  datatype EditError = NoKeywordList

  /** The first source's keyword list, when there is one. */
  function FirstKeywords(config: Config): Option<seq<Keyword>> {
    if config.sources != [] && config.sources[0].keywords.Some? then config.sources[0].keywords else None
  }

  /** `config` with the first source's keyword list replaced. */
  function WithFirstKeywords(config: Config, keywords: seq<Keyword>): (r: Config)
    requires config.sources != []
    ensures FirstKeywords(r) == Some(keywords)
    ensures r.keywords == config.keywords && |r.sources| == |config.sources|
    ensures forall i :: 0 < i < |config.sources| ==> r.sources[i] == config.sources[i]
  {
    config.(sources := [config.sources[0].(keywords := Some(keywords))] + config.sources[1..])
  }

  /** The rule `add` builds; the `--case-sensitive` flag is either given
      (true) or absent. */
  function NewRule(value: string, matchType: MatchType, weight: int, caseSensitive: bool): KeywordRule {
    KeywordRule(value, matchType, if caseSensitive then Some(true) else None, Some(weight))
  }

  /** The splice loop of `remove`: `indices` strictly decreasing positions
      of `keywords`, each spliced out in turn and pushed onto `removed`,
      which is then reversed. */
  method SpliceOut(keywords: seq<Keyword>, indices: seq<nat>) returns (kept: seq<Keyword>, removed: seq<Keyword>)
    requires forall i :: 0 <= i < |indices| ==> indices[i] < |keywords|
    requires forall i, j :: 0 <= i < j < |indices| ==> indices[i] > indices[j]
    ensures kept == Keep(keywords, Elements(indices))
    ensures removed == Picked(keywords, Elements(indices))
    ensures |kept| == |keywords| - |indices|
  {
    kept := keywords;
    var pushed: seq<Keyword> := [];
    PickNone(keywords, 0);
    assert Elements(indices[..0]) == {};
    for t := 0 to |indices|
      invariant kept == Keep(keywords, Elements(indices[..t]))
      invariant Reversed(pushed) == Picked(keywords, Elements(indices[..t]))
      invariant |kept| == |keywords| - t
    {
      var idx := indices[t];
      ghost var done := Elements(indices[..t]);
      assert forall x :: x in done ==> x > idx;
      SpliceStep(keywords, done, idx);
      ghost var next := indices[..t + 1];
      assert next == indices[..t] + [idx];
      assert Elements(next) == done + {idx};
      pushed := pushed + [kept[idx]];
      assert Reversed(pushed) == [kept[idx]] + Reversed(pushed[..|pushed| - 1]);
      kept := kept[..idx] + kept[idx + 1..];
    }
    assert indices[..|indices|] == indices;
    removed := Reversed(pushed);
  }

  class KeywordEditor {
    /** The configuration as read from config.json. */
    var config: Config

    constructor (config: Config)
      ensures this.config == config
    {
      this.config := config;
    }

    /** `keywords add`: pushes the new rule onto the first source's list;
        when there is no such list nothing changes and nothing is saved. */
    method Add(value: string, matchType: MatchType, weight: int, caseSensitive: bool)
      returns (r: Result<KeywordRule, EditError>)
      modifies this
      ensures FirstKeywords(old(config)).None? ==> r == Err(NoKeywordList) && config == old(config)
      ensures FirstKeywords(old(config)).Some? ==>
                && r == Ok(NewRule(value, matchType, weight, caseSensitive))
                && config == WithFirstKeywords(old(config), FirstKeywords(old(config)).value + [Rule(r.value)])
    {
      var keywords := FirstKeywords(config);
      if keywords.None? {
        return Err(NoKeywordList);
      }
      var keyword := NewRule(value, matchType, weight, caseSensitive);
      config := WithFirstKeywords(config, keywords.value + [Rule(keyword)]);
      r := Ok(keyword);
    }

    /** `keywords remove` with the prompt's answer `selected`: distinct
        positions of the list. Returns the removed keywords in ascending
        position order and whether the configuration is saved; an empty
        selection changes and saves nothing. */
    method Remove(selected: seq<nat>) returns (r: Result<seq<Keyword>, EditError>, saved: bool)
      requires Distinct(selected)
      requires FirstKeywords(config).Some? ==> forall i :: 0 <= i < |selected| ==> selected[i] < |FirstKeywords(config).value|
      modifies this
      ensures FirstKeywords(old(config)).None? ==> r == Err(NoKeywordList) && !saved && config == old(config)
      ensures FirstKeywords(old(config)).Some? && selected == [] ==> r == Ok([]) && !saved && config == old(config)
      ensures FirstKeywords(old(config)).Some? && selected != [] ==>
                var before := FirstKeywords(old(config)).value;
                var positions := Elements(selected);
                && saved
                && r == Ok(Picked(before, positions))
                && config == WithFirstKeywords(old(config), Keep(before, positions))
                && |Keep(before, positions)| == |before| - |selected|
    {
      var current := FirstKeywords(config);
      if current.None? {
        return Err(NoKeywordList), false;
      }
      if |selected| == 0 {
        return Ok([]), false;
      }
      var indices := Sorting.SortDesc(selected, AsInt);
      DescendingIndices(selected);
      assert forall i :: 0 <= i < |indices| ==> indices[i] < |current.value|;
      var kept, removed := SpliceOut(current.value, indices);
      config := WithFirstKeywords(config, kept);
      r, saved := Ok(removed), true;
    }
  }
}
