/** The keyword matcher: normalising keyword rules, the Levenshtein edit
    distance, scoring one rule against a text and collecting the matches of
    a keyword list (src/services/keyword-matcher.ts). */
module KeywordMatcher {
  import opened Wrappers
  import opened Text
  import opened Types
  import opened Sorting

  const DefaultWeight: int := 5
  /** `match.score >= 4`, in fifths of a point. */
  const MinFifths: int := 20

  // ---------------------------------------------------------------------
  // Normalisation
  // ---------------------------------------------------------------------

  /** A bare string becomes a case-insensitive fuzzy rule of weight 5; a
      rule keeps its value and type and gains the defaults only for the
      fields it lacks (`??`). */
  function NormalizeKeyword(k: Keyword): (r: KeywordRule)
    ensures r.caseSensitive.Some? && r.weight.Some?
    ensures k.Simple? ==> r == KeywordRule(k.text, Fuzzy, Some(false), Some(DefaultWeight))
    ensures k.Rule? ==> r.value == k.rule.value && r.matchType == k.rule.matchType
    ensures k.Rule? ==> r.caseSensitive == (if k.rule.caseSensitive.Some? then k.rule.caseSensitive else Some(false))
    ensures k.Rule? ==> r.weight == (if k.rule.weight.Some? then k.rule.weight else Some(DefaultWeight))
  {
    match k
    case Simple(text) => KeywordRule(text, Fuzzy, Some(false), Some(DefaultWeight))
    case Rule(rule) =>
      rule.(caseSensitive := Some(rule.caseSensitive.GetOr(false)),
            weight := Some(rule.weight.GetOr(DefaultWeight)))
  }

  /** Normalising a normalised rule changes nothing. */
  lemma NormalizeKeywordIdempotent(k: Keyword)
    ensures NormalizeKeyword(Rule(NormalizeKeyword(k))) == NormalizeKeyword(k)
  {
  }

  // ---------------------------------------------------------------------
  // Edit distance
  // ---------------------------------------------------------------------

  function Min3(x: nat, y: nat, z: nat): (m: nat)
    ensures m <= x && m <= y && m <= z
    ensures m == x || m == y || m == z
  {
    if x <= y && x <= z then x else if y <= z then y else z
  }

  /** The entry `matrix[|b|][|a|]` of the source's table: the Levenshtein
      distance between `a` and `b`, by the same recurrence on the last
      characters. */
  function EditDistance(a: string, b: string): nat
    decreases |a| + |b|
  {
    if |a| == 0 then |b|
    else if |b| == 0 then |a|
    else if a[|a| - 1] == b[|b| - 1] then EditDistance(a[..|a| - 1], b[..|b| - 1])
    else 1 + Min3(EditDistance(a[..|a| - 1], b[..|b| - 1]),
                  EditDistance(a[..|a| - 1], b),
                  EditDistance(a, b[..|b| - 1]))
  }

  lemma {:induction false} EditDistanceToSelf(a: string)
    ensures EditDistance(a, a) == 0
    decreases |a|
  {
    if |a| > 0 {
      EditDistanceToSelf(a[..|a| - 1]);
    }
  }

  /** The first row and column of the table: a string is at distance 0 from
      itself and at distance its length from the empty string. */
  lemma EditDistanceBase(a: string, b: string)
    ensures EditDistance(a, a) == 0
    ensures EditDistance(a, "") == |a|
    ensures EditDistance("", b) == |b|
  {
    EditDistanceToSelf(a);
  }

  function Max(x: int, y: int): int {
    if x >= y then x else y
  }

  /** The distance is at least the difference of the lengths and at most
      the longer length. */
  lemma {:induction false} EditDistanceBounds(a: string, b: string)
    ensures |a| - |b| <= EditDistance(a, b) && |b| - |a| <= EditDistance(a, b)
    ensures EditDistance(a, b) <= Max(|a|, |b|)
    decreases |a| + |b|
  {
    if |a| > 0 && |b| > 0 {
      var a', b' := a[..|a| - 1], b[..|b| - 1];
      EditDistanceBounds(a', b');
      if a[|a| - 1] != b[|b| - 1] {
        EditDistanceBounds(a', b);
        EditDistanceBounds(a, b');
      }
    }
  }

  /** The distance is zero exactly for equal strings. */
  lemma {:induction false} EditDistanceZeroIff(a: string, b: string)
    ensures EditDistance(a, b) == 0 <==> a == b
    decreases |a| + |b|
  {
    if a == b {
      EditDistanceToSelf(a);
    } else if |a| > 0 && |b| > 0 && a[|a| - 1] == b[|b| - 1] {
      var a', b' := a[..|a| - 1], b[..|b| - 1];
      EditDistanceZeroIff(a', b');
      assert a == a' + [a[|a| - 1]] && b == b' + [b[|b| - 1]];
    }
  }

  /** The distance does not depend on the order of its arguments. */
  lemma {:induction false} EditDistanceSymmetric(a: string, b: string)
    ensures EditDistance(a, b) == EditDistance(b, a)
    decreases |a| + |b|
  {
    if |a| > 0 && |b| > 0 {
      var a', b' := a[..|a| - 1], b[..|b| - 1];
      EditDistanceSymmetric(a', b');
      if a[|a| - 1] != b[|b| - 1] {
        EditDistanceSymmetric(a', b);
        EditDistanceSymmetric(a, b');
      }
    }
  }

  /** One cell of the table from its three neighbours: the recurrence on
      the prefixes `a[..j]` and `b[..i]`. */
  lemma EditDistanceStep(a: string, b: string, i: nat, j: nat)
    requires 1 <= i <= |b| && 1 <= j <= |a|
    ensures b[i - 1] == a[j - 1] ==> EditDistance(a[..j], b[..i]) == EditDistance(a[..j - 1], b[..i - 1])
    ensures b[i - 1] != a[j - 1] ==>
              EditDistance(a[..j], b[..i])
                == Min3(EditDistance(a[..j - 1], b[..i - 1]) + 1, EditDistance(a[..j - 1], b[..i]) + 1, EditDistance(a[..j], b[..i - 1]) + 1)
  {
    assert a[..j][..j - 1] == a[..j - 1] && a[..j][j - 1] == a[j - 1];
    assert b[..i][..i - 1] == b[..i - 1] && b[..i][i - 1] == b[i - 1];
  }

  /** Row `i` of the table, left to right, from row `i - 1` and the cell
      to the left; the other rows stay as they were. */
  method FillRow(matrix: array2<nat>, a: string, b: string, i: nat)
    requires matrix.Length0 == |b| + 1 && matrix.Length1 == |a| + 1
    requires 1 <= i <= |b| && matrix[i, 0] == i
    requires forall j' :: 0 <= j' <= |a| ==> matrix[i - 1, j'] == EditDistance(a[..j'], b[..i - 1])
    modifies matrix
    ensures forall j' :: 0 <= j' <= |a| ==> matrix[i, j'] == EditDistance(a[..j'], b[..i])
    ensures forall i', j' :: 0 <= i' <= |b| && 0 <= j' <= |a| && i' != i ==> matrix[i', j'] == old(matrix[i', j'])
  {
    assert a[..0] == [] && |b[..i]| == i;
    for j := 1 to |a| + 1
      invariant forall j' :: 0 <= j' < j ==> matrix[i, j'] == EditDistance(a[..j'], b[..i])
      invariant forall i', j' :: 0 <= i' <= |b| && 0 <= j' <= |a| && i' != i ==> matrix[i', j'] == old(matrix[i', j'])
    {
      EditDistanceStep(a, b, i, j);
      var diagonal, left, above := matrix[i - 1, j - 1], matrix[i, j - 1], matrix[i - 1, j];
      if b[i - 1] == a[j - 1] {
        matrix[i, j] := diagonal;
      } else {
        matrix[i, j] := Min3(diagonal + 1, left + 1, above + 1);
      }
    }
  }

  /** `calculateLevenshteinDistance(a, b)`: fills the (|b|+1) x (|a|+1)
      table row by row. */
  method CalculateLevenshteinDistance(a: string, b: string) returns (d: nat)
    ensures d == EditDistance(a, b)
  {
    var matrix := new nat[|b| + 1, |a| + 1];
    for i := 0 to |b| + 1
      invariant forall i' :: 0 <= i' < i ==> matrix[i', 0] == i'
    {
      matrix[i, 0] := i;
    }
    for j := 0 to |a| + 1
      invariant forall j' :: 0 <= j' < j ==> matrix[0, j'] == j'
      invariant forall i' :: 1 <= i' <= |b| ==> matrix[i', 0] == i'
    {
      matrix[0, j] := j;
    }
    for i := 1 to |b| + 1
      invariant forall i', j' :: 0 <= i' < i && 0 <= j' <= |a| ==> matrix[i', j'] == EditDistance(a[..j'], b[..i'])
      invariant forall i' :: i <= i' <= |b| ==> matrix[i', 0] == i'
    {
      FillRow(matrix, a, b, i);
    }
    assert a[..|a|] == a && b[..|b|] == b;
    d := matrix[|b|, |a|];
  }

  // ---------------------------------------------------------------------
  // Phrase patterns
  // ---------------------------------------------------------------------

  /** The characters the phrase branch prefixes with a backslash. */
  predicate IsEscaped(c: char) {
    c in "-/\\^$*+?.()|[]{}"
  }

  /** The characters with a meaning of their own in a JavaScript pattern. */
  predicate IsSyntax(c: char) {
    c in "^$\\.*+?()[]{}|"
  }

  /** `s.replace(/[-\/\\^$*+?.()|[\]{}]/g, '\\$&')`. */
  function EscapeRegExp(s: string): string
    decreases |s|
  {
    if s == [] then ""
    else (if IsEscaped(s[0]) then ['\\', s[0]] else [s[0]]) + EscapeRegExp(s[1..])
  }

  /** The text a pattern made only of literal atoms (plain characters and
      escaped special characters) matches; None for any other pattern. */
  function PatternLiteral(p: string): Option<string>
    decreases |p|
  {
    if p == [] then Some("")
    else if p[0] == '\\' then
      if |p| >= 2 && IsEscaped(p[1]) then
        match PatternLiteral(p[2..])
        case Some(rest) => Some([p[1]] + rest)
        case None => None
      else None
    else if IsSyntax(p[0]) then None
    else
      match PatternLiteral(p[1..])
      case Some(rest) => Some([p[0]] + rest)
      case None => None
  }

  /** An escaped value is a literal pattern for exactly that value. */
  lemma {:induction false} EscapeRegExpIsLiteral(s: string)
    ensures PatternLiteral(EscapeRegExp(s)) == Some(s)
    decreases |s|
  {
    if s != [] {
      EscapeRegExpIsLiteral(s[1..]);
      var p := EscapeRegExp(s);
      if IsEscaped(s[0]) {
        assert p[2..] == EscapeRegExp(s[1..]);
      } else {
        assert p[1..] == EscapeRegExp(s[1..]);
      }
      assert s == [s[0]] + s[1..];
    }
  }

  /** `new RegExp(EscapeRegExp(value)).test(text)`. */
  predicate PhraseTest(text: string, value: string) {
    match PatternLiteral(EscapeRegExp(value))
    case Some(literal) => Contains(text, literal)
    case None => false
  }

  /** The phrase test is a literal substring search. */
  lemma PhraseTestIsSubstring(text: string, value: string)
    ensures PhraseTest(text, value) <==> Contains(text, value)
  {
    EscapeRegExpIsLiteral(value);
  }

  // ---------------------------------------------------------------------
  // Scoring one rule
  // ---------------------------------------------------------------------

  /** `Math.floor(value.length * 0.3)`. */
  function MaxDistance(value: string): nat {
    3 * |value| / 10
  }

  /** `Math.round(p / q)` for q > 0: the nearest integer, a half rounding
      upwards. */
  function RoundDiv(p: int, q: int): (r: int)
    requires q > 0
    ensures 2 * q * r - q <= 2 * p < 2 * q * r + q
  {
    (2 * p + q) / (2 * q)
  }

  /** The index of the word the fuzzy loop settles on after scanning
      `words` from left to right: a word replaces the best so far only when
      it is within MaxDistance and strictly closer. */
  function BestWordIndex(words: seq<string>, value: string): (r: Option<nat>)
    ensures r.Some? ==> r.value < |words|
    decreases |words|
  {
    if words == [] then None
    else
      var prev := BestWordIndex(words[..|words| - 1], value);
      var d := EditDistance(words[|words| - 1], value);
      if d <= MaxDistance(value) && (prev.None? || d < EditDistance(words[prev.value], value))
      then Some(|words| - 1)
      else prev
  }

  /** No word is chosen exactly when no word is within MaxDistance. */
  lemma {:induction false} BestWordIndexNone(words: seq<string>, value: string)
    ensures BestWordIndex(words, value).None? <==>
              forall k :: 0 <= k < |words| ==> EditDistance(words[k], value) > MaxDistance(value)
    decreases |words|
  {
    if words != [] {
      var init := words[..|words| - 1];
      BestWordIndexNone(init, value);
      assert forall k :: 0 <= k < |init| ==> init[k] == words[k];
    }
  }

  /** The chosen word is within MaxDistance, no word is closer, and every
      word before it is farther. */
  lemma {:induction false} BestWordIndexClosest(words: seq<string>, value: string)
    ensures BestWordIndex(words, value).Some? ==>
              var b := BestWordIndex(words, value).value;
              EditDistance(words[b], value) <= MaxDistance(value)
              && (forall k :: 0 <= k < |words| ==> EditDistance(words[k], value) >= EditDistance(words[b], value))
              && (forall k :: 0 <= k < b ==> EditDistance(words[k], value) > EditDistance(words[b], value))
    decreases |words|
  {
    if words != [] {
      var init := words[..|words| - 1];
      BestWordIndexClosest(init, value);
      BestWordIndexNone(init, value);
      assert forall k :: 0 <= k < |init| ==> init[k] == words[k];
    }
  }

  /** The chosen word is the first of the closest words, it is within
      MaxDistance, and there is none exactly when no word is within it. */
  lemma BestWordIndexSpec(words: seq<string>, value: string)
    ensures BestWordIndex(words, value).None? <==>
              forall k :: 0 <= k < |words| ==> EditDistance(words[k], value) > MaxDistance(value)
    ensures BestWordIndex(words, value).Some? ==>
              var b := BestWordIndex(words, value).value;
              EditDistance(words[b], value) <= MaxDistance(value)
              && (forall k :: 0 <= k < |words| ==> EditDistance(words[k], value) >= EditDistance(words[b], value))
              && (forall k :: 0 <= k < b ==> EditDistance(words[k], value) > EditDistance(words[b], value))
  {
    BestWordIndexNone(words, value);
    BestWordIndexClosest(words, value);
  }

  /** `rule.caseSensitive ? s : s.toLowerCase()`. */
  function SearchText(s: string, rule: KeywordRule): (r: string)
    ensures |r| == |s|
  {
    if rule.caseSensitive == Some(true) then s else ToLower(s)
  }

  /** The score, in fifths, of a fuzzy hit at distance `d` from a value of
      length `len`: round((1 - d / len) * 10 * (weight / 5)). */
  function FuzzyFifths(d: nat, len: nat, weight: int): int
    requires len > 0
  {
    5 * RoundDiv(2 * weight * (len - d), len)
  }

  /** The fuzzy branch of `findMatches` on the split text: the closest
      word within MaxDistance, scored by its distance. */
  function FuzzyMatch(words: seq<string>, value: string, keyword: string, weight: int): Option<KeywordMatch>
    requires |value| > 0
  {
    match BestWordIndex(words, value)
    case None => None
    case Some(b) => Some(KeywordMatch(keyword, FuzzyFifths(EditDistance(words[b], value), |value|, weight), Fuzzy))
  }

  /** A fuzzy match exists exactly when some word is within MaxDistance of
      the value, and its score comes from a word no other word is closer
      than. */
  lemma FuzzyMatchSpec(words: seq<string>, value: string, keyword: string, weight: int)
    requires |value| > 0
    ensures FuzzyMatch(words, value, keyword, weight).Some? <==>
              exists k :: 0 <= k < |words| && EditDistance(words[k], value) <= MaxDistance(value)
    ensures FuzzyMatch(words, value, keyword, weight).Some? ==>
              exists k :: 0 <= k < |words|
                && EditDistance(words[k], value) <= MaxDistance(value)
                && (forall j :: 0 <= j < |words| ==> EditDistance(words[j], value) >= EditDistance(words[k], value))
                && FuzzyMatch(words, value, keyword, weight).value.fifths == FuzzyFifths(EditDistance(words[k], value), |value|, weight)
  {
    BestWordIndexSpec(words, value);
  }

  /** `findMatches(content, rule)`. A fuzzy rule needs a non-empty value:
      for an empty one the source computes the score 1 - 0 / 0, NaN. */
  function RuleMatch(content: string, rule: KeywordRule): (r: Option<KeywordMatch>)
    requires rule.matchType == Fuzzy ==> |rule.value| > 0
    ensures r.Some? ==> r.value.keyword == rule.value && r.value.matchType == rule.matchType
  {
    var text := SearchText(content, rule);
    var value := SearchText(rule.value, rule);
    var weight := rule.weight.GetOr(DefaultWeight);
    match rule.matchType
    case Exact =>
      if Contains(text, value) then Some(KeywordMatch(rule.value, 10 * weight, Exact)) else None
    case Phrase =>
      if PhraseTest(text, value) then Some(KeywordMatch(rule.value, 8 * weight, Phrase)) else None
    case Fuzzy =>
      FuzzyMatch(SplitOnSpaces(text), value, rule.value, weight)
  }

  /** An exact rule matches exactly when the (case-folded) value occurs in
      the (case-folded) text, and then scores 10 * weight / 5. */
  lemma ExactRuleMatch(content: string, rule: KeywordRule)
    requires rule.matchType == Exact
    ensures RuleMatch(content, rule).Some? <==> Contains(SearchText(content, rule), SearchText(rule.value, rule))
    ensures RuleMatch(content, rule).Some? ==> RuleMatch(content, rule).value.fifths == 10 * rule.weight.GetOr(DefaultWeight)
  {
  }

  /** A phrase rule is a literal substring search scoring 8 * weight / 5. */
  lemma PhraseRuleMatch(content: string, rule: KeywordRule)
    requires rule.matchType == Phrase
    ensures RuleMatch(content, rule).Some? <==> Contains(SearchText(content, rule), SearchText(rule.value, rule))
    ensures RuleMatch(content, rule).Some? ==> RuleMatch(content, rule).value.fifths == 8 * rule.weight.GetOr(DefaultWeight)
  {
    PhraseTestIsSubstring(SearchText(content, rule), SearchText(rule.value, rule));
  }

  /** For a fuzzy rule, `findMatches` is FuzzyMatch on the split text. */
  lemma FuzzyBranch(content: string, rule: KeywordRule)
    requires rule.matchType == Fuzzy && |rule.value| > 0
    ensures RuleMatch(content, rule)
              == FuzzyMatch(SplitOnSpaces(SearchText(content, rule)), SearchText(rule.value, rule), rule.value, rule.weight.GetOr(DefaultWeight))
  {
  }

  /** A fuzzy rule matches exactly when some word of the split text is
      within MaxDistance edits of the value; the score is computed from the
      least distance of any word. */
  lemma FuzzyRuleMatch(content: string, rule: KeywordRule)
    requires rule.matchType == Fuzzy && |rule.value| > 0
    ensures var words := SplitOnSpaces(SearchText(content, rule));
            var value := SearchText(rule.value, rule);
            (RuleMatch(content, rule).Some? <==>
               exists k :: 0 <= k < |words| && EditDistance(words[k], value) <= MaxDistance(value))
            && (RuleMatch(content, rule).Some? ==>
                  exists k :: 0 <= k < |words|
                    && EditDistance(words[k], value) <= MaxDistance(value)
                    && (forall j :: 0 <= j < |words| ==> EditDistance(words[j], value) >= EditDistance(words[k], value))
                    && RuleMatch(content, rule).value.fifths ==
                         FuzzyFifths(EditDistance(words[k], value), |value|, rule.weight.GetOr(DefaultWeight)))
  {
    FuzzyBranch(content, rule);
    FuzzyMatchSpec(SplitOnSpaces(SearchText(content, rule)), SearchText(rule.value, rule), rule.value, rule.weight.GetOr(DefaultWeight));
  }

  /** With case-insensitive matching the result depends only on the
      lower-cased text. */
  lemma RuleMatchIgnoresContentCase(content: string, rule: KeywordRule)
    requires rule.matchType == Fuzzy ==> |rule.value| > 0
    requires rule.caseSensitive != Some(true)
    ensures RuleMatch(ToLower(content), rule) == RuleMatch(content, rule)
  {
    ToLowerIdempotent(content);
  }

  /** With case-insensitive matching, values equal up to case match the
      same texts with the same score and type. */
  lemma RuleMatchIgnoresValueCase(content: string, rule: KeywordRule, value': string)
    requires rule.matchType == Fuzzy ==> |rule.value| > 0
    requires rule.caseSensitive != Some(true)
    requires ToLower(value') == ToLower(rule.value)
    ensures var r' := RuleMatch(content, rule.(value := value'));
            var r := RuleMatch(content, rule);
            r'.Some? == r.Some? && (r.Some? ==> r'.value == r.value.(keyword := value'))
  {
    assert |value'| == |rule.value|;
  }

  /** The method form of `findMatches`; the fuzzy branch scans the words
      keeping the best distance (None standing for Infinity). */
  method FindMatches(content: string, rule: KeywordRule) returns (r: Option<KeywordMatch>)
    requires rule.matchType == Fuzzy ==> |rule.value| > 0
    ensures r == RuleMatch(content, rule)
  {
    var searchContent := SearchText(content, rule);
    var searchValue := SearchText(rule.value, rule);
    var weight := rule.weight.GetOr(DefaultWeight);
    r := None;
    match rule.matchType {
      case Exact =>
        if Contains(searchContent, searchValue) {
          r := Some(KeywordMatch(rule.value, 10 * weight, Exact));
        }
      case Phrase =>
        if PhraseTest(searchContent, searchValue) {
          r := Some(KeywordMatch(rule.value, 8 * weight, Phrase));
        }
      case Fuzzy =>
        var words := SplitOnSpaces(searchContent);
        var bestDistance: Option<nat> := None;
        var bestWord := "";
        ghost var bestIndex: nat := 0;
        for i := 0 to |words|
          invariant bestDistance.None? ==> BestWordIndex(words[..i], searchValue).None?
          invariant bestDistance.Some? ==>
                      BestWordIndex(words[..i], searchValue) == Some(bestIndex) && bestIndex < i
                      && bestDistance.value == EditDistance(words[bestIndex], searchValue)
                      && bestWord == words[bestIndex]
        {
          assert words[..i + 1][..i] == words[..i];
          var distance := CalculateLevenshteinDistance(words[i], searchValue);
          var maxDistance := MaxDistance(searchValue);
          if (bestDistance.None? || distance < bestDistance.value) && distance <= maxDistance {
            bestDistance := Some(distance);
            bestWord := words[i];
            bestIndex := i;
          }
        }
        assert words[..|words|] == words;
        assert RuleMatch(content, rule) == FuzzyMatch(words, searchValue, rule.value, weight);
        if bestDistance.Some? {
          r := Some(KeywordMatch(rule.value, FuzzyFifths(bestDistance.value, |searchValue|, weight), Fuzzy));
        }
    }
  }

  // ---------------------------------------------------------------------
  // A keyword list
  // ---------------------------------------------------------------------

  function Fifths(m: KeywordMatch): int {
    m.fifths
  }

  /** What one keyword adds to `findKeywordMatches`: its match when the
      score is at least 4. A fuzzy rule with an empty value would score NaN,
      which fails the comparison, so it adds nothing. */
  function KeptMatch(content: string, k: Keyword): (r: Option<KeywordMatch>)
    ensures r.Some? ==> r.value.fifths >= MinFifths
    ensures r.Some? ==> r.value.keyword == NormalizeKeyword(k).value
  {
    var rule := NormalizeKeyword(k);
    if rule.matchType == Fuzzy && |rule.value| == 0 then None
    else
      match RuleMatch(content, rule)
      case Some(m) => if m.fifths >= MinFifths then Some(m) else None
      case None => None
  }

  /** KeptMatch for a fixed text, as a function of the keyword. */
  function KeptMatchIn(content: string): Keyword -> Option<KeywordMatch> {
    k => KeptMatch(content, k)
  }

  /** `findKeywordMatches(content, keywords)`: the kept matches sorted by
      score, highest first. */
  function KeywordMatches(content: string, keywords: seq<Keyword>): seq<KeywordMatch> {
    SortDesc(FilterMap(keywords, KeptMatchIn(content)), Fifths)
  }

  /** At most one match per keyword, each scoring at least 4, in
      non-increasing score order; the list holds exactly the kept matches,
      each as often as the keywords produce it. */
  lemma KeywordMatchesSpec(content: string, keywords: seq<Keyword>)
    ensures |KeywordMatches(content, keywords)| <= |keywords|
    ensures forall m :: m in KeywordMatches(content, keywords) ==> m.fifths >= MinFifths
    ensures NonIncreasing(KeywordMatches(content, keywords), Fifths)
    ensures forall m :: m in KeywordMatches(content, keywords) <==>
              exists i :: 0 <= i < |keywords| && KeptMatch(content, keywords[i]) == Some(m)
    ensures multiset(KeywordMatches(content, keywords)) == multiset(FilterMap(keywords, KeptMatchIn(content)))
  {
    FilterMapSpec(keywords, KeptMatchIn(content));
    var kept := FilterMap(keywords, KeptMatchIn(content));
    var r := KeywordMatches(content, keywords);
    forall m ensures m in r <==> m in kept {
      assert m in r <==> m in multiset(r);
      assert m in kept <==> m in multiset(kept);
    }
  }

  /** The method form of `findKeywordMatches`. */
  method FindKeywordMatches(content: string, keywords: seq<Keyword>) returns (r: seq<KeywordMatch>)
    ensures r == KeywordMatches(content, keywords)
  {
    var matches: seq<KeywordMatch> := [];
    for i := 0 to |keywords|
      invariant matches == FilterMap(keywords[..i], KeptMatchIn(content))
    {
      assert keywords[..i + 1][..i] == keywords[..i];
      var rule := NormalizeKeyword(keywords[i]);
      if rule.matchType == Fuzzy && |rule.value| == 0 {
        // The score would be NaN, and `NaN >= 4` is false.
      } else {
        var m := FindMatches(content, rule);
        if m.Some? && m.value.fifths >= MinFifths {
          matches := matches + [m.value];
        }
      }
    }
    assert keywords[..|keywords|] == keywords;
    r := SortDesc(matches, Fifths);
  }
}
