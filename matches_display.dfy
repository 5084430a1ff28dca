/** The matches screen (src/ui/components/MatchesDisplay.tsx): the list of
    recent matches it shows, when it replaces that list, the cells of its
    table, the details of the selected match and its key handling.
    Loading the stored items and the monitor status happens before
    `LoadData` and is passed in; drawing is left out. */
module MatchesDisplay {
  import opened Wrappers
  import opened Text
  import opened Types
  import opened Sorting

  const MaxVisibleMatches: nat := 25
  const LatestNewCount: nat := 3
  const ContentPreviewLength: nat := 120
  const MaxTitleLength: nat := 50
  const TopKeywordCount: nat := 3
  const DetailsMatchCount: nat := 5
  const Ellipsis: string := "..."
  /** The new-item marker: U+1F195 and a space. */
  const NewMarker: string := "\U{1F195} "

  // ---------------------------------------------------------------------
  // The visible list
  // ---------------------------------------------------------------------

  /** `k && k.keyword && typeof k.score === 'number'`: a stored match
      always carries a score here, so only the keyword can be empty. */
  predicate IsValidMatch(k: KeywordMatch) {
    k.keyword != ""
  }

  function ValidMatchP(): KeywordMatch -> bool {
    (k: KeywordMatch) => IsValidMatch(k)
  }

  /** An item the screen may list: at least one match, all of them valid. */
  predicate IsListable(item: FeedItem) {
    |item.matchedKeywords| > 0 && forall i :: 0 <= i < |item.matchedKeywords| ==> IsValidMatch(item.matchedKeywords[i])
  }

  function ListableP(): FeedItem -> bool {
    (item: FeedItem) => IsListable(item)
  }

  function AddedAt(item: FeedItem): int {
    item.addedAt
  }

  /** `validItems`: listable items, most recently added first, at most 25. */
  function ValidItems(items: seq<FeedItem>): seq<FeedItem> {
    Top(items, ListableP(), AddedAt, MaxVisibleMatches)
  }

  /** The visible list holds only listable items, taken from the input,
      newest first: as many as fit in 25, all of them when they fit, and
      otherwise a listable item left out was added no later than any shown
      one. */
  lemma ValidItemsSpec(items: seq<FeedItem>)
    ensures forall i :: 0 <= i < |ValidItems(items)| ==> IsListable(ValidItems(items)[i])
    ensures NonIncreasing(ValidItems(items), AddedAt)
    ensures |ValidItems(items)| <= MaxVisibleMatches
    ensures multiset(ValidItems(items)) <= multiset(items)
    ensures var listable := |Filter(items, ListableP())|;
            |ValidItems(items)| == if listable <= MaxVisibleMatches then listable else MaxVisibleMatches
    ensures |Filter(items, ListableP())| <= MaxVisibleMatches ==>
              forall i :: 0 <= i < |items| && IsListable(items[i]) ==> items[i] in ValidItems(items)
    ensures forall i, j :: 0 <= i < |items| && IsListable(items[i]) && items[i] !in ValidItems(items) && 0 <= j < |ValidItems(items)| ==>
              items[i].addedAt <= ValidItems(items)[j].addedAt
  {
    ValidItemsKept(items);
    ValidItemsNewest(items);
  }

  /** The shown items are listable, newest first, as many as fit, and
      taken from the input. */
  lemma ValidItemsKept(items: seq<FeedItem>)
    ensures forall i :: 0 <= i < |ValidItems(items)| ==> IsListable(ValidItems(items)[i])
    ensures NonIncreasing(ValidItems(items), AddedAt)
    ensures multiset(ValidItems(items)) <= multiset(items)
    ensures var listable := |Filter(items, ListableP())|;
            |ValidItems(items)| == if listable <= MaxVisibleMatches then listable else MaxVisibleMatches
  {
    var r := ValidItems(items);
    TopSpec(items, ListableP(), AddedAt, MaxVisibleMatches);
    forall i | 0 <= i < |r| ensures IsListable(r[i]) {
      assert ListableP()(r[i]);
    }
  }

  /** Which listable items are shown: all of them when they fit, and
      otherwise only ones added no earlier than every one left out. */
  lemma ValidItemsNewest(items: seq<FeedItem>)
    ensures |Filter(items, ListableP())| <= MaxVisibleMatches ==>
              forall i :: 0 <= i < |items| && IsListable(items[i]) ==> items[i] in ValidItems(items)
    ensures forall i, j :: 0 <= i < |items| && IsListable(items[i]) && items[i] !in ValidItems(items) && 0 <= j < |ValidItems(items)| ==>
              items[i].addedAt <= ValidItems(items)[j].addedAt
  {
    var r := ValidItems(items);
    TopSpec(items, ListableP(), AddedAt, MaxVisibleMatches);
    forall i | 0 <= i < |items| && IsListable(items[i]) ensures ListableP()(items[i]) {
    }
    if |Filter(items, ListableP())| <= MaxVisibleMatches {
      forall i | 0 <= i < |items| && IsListable(items[i]) ensures items[i] in r {
        assert items[i] in multiset(Filter(items, ListableP()));
      }
    }
  }

  // ---------------------------------------------------------------------
  // Change detection
  // ---------------------------------------------------------------------

  /** The fields `loadData` compares; `id` is `link + addedAt`. */
  datatype View = View(id: string, title: string, content: string, keywords: seq<KeywordMatch>, addedAt: int)

  function ViewOf(item: FeedItem): View {
    View(item.link + IntToString(item.addedAt), item.title, item.content, item.matchedKeywords, item.addedAt)
  }

  function Views(items: seq<FeedItem>): (r: seq<View>)
    ensures |r| == |items| && forall i :: 0 <= i < |items| ==> r[i] == ViewOf(items[i])
  {
    seq(|items|, i requires 0 <= i < |items| => ViewOf(items[i]))
  }

  /** `hasChanges`: the serialised views of the two lists differ. */
  predicate HasChanges(current: seq<FeedItem>, next: seq<FeedItem>) {
    Views(current) != Views(next)
  }

  /** Two items look the same on screen when link, time added, title,
      content and matches agree. */
  predicate SameView(a: FeedItem, b: FeedItem) {
    a.link == b.link && a.addedAt == b.addedAt && a.title == b.title
    && a.content == b.content && a.matchedKeywords == b.matchedKeywords
  }

  lemma ViewOfInjective(a: FeedItem, b: FeedItem)
    ensures ViewOf(a) == ViewOf(b) <==> SameView(a, b)
  {
    if ViewOf(a) == ViewOf(b) {
      var s := IntToString(a.addedAt);
      assert a.link + s == b.link + s;
      assert a.link == (a.link + s)[..|a.link|];
      assert |a.link| == |b.link|;
    }
  }

  /** The list is replaced exactly when it differs, position by position,
      in one of the viewed fields; a change elsewhere (a new timestamp or
      source) does not replace it. */
  lemma HasChangesSpec(current: seq<FeedItem>, next: seq<FeedItem>)
    ensures !HasChanges(current, next) <==>
              |current| == |next| && forall i :: 0 <= i < |current| ==> SameView(current[i], next[i])
  {
    if |current| == |next| {
      forall i | 0 <= i < |current| ensures ViewOf(current[i]) == ViewOf(next[i]) <==> SameView(current[i], next[i]) {
        ViewOfInjective(current[i], next[i]);
      }
      if forall i :: 0 <= i < |current| ==> SameView(current[i], next[i]) {
        assert Views(current) == Views(next);
      }
    }
  }

  // ---------------------------------------------------------------------
  // Cells
  // ---------------------------------------------------------------------

  /** `isNew`: the first three rows are marked new, whatever their age. */
  predicate IsNew(index: int) {
    index < LatestNewCount
  }

  /** `${k.score}` for a score of `fifths / 5`: the integer part and, when
      the score is not whole, its single decimal digit. */
  function FormatScore(fifths: int): (r: string)
    ensures |r| > 0 && IsDigit(r[|r| - 1])
  {
    if fifths < 0 then "-" + UnsignedScore(-fifths) else UnsignedScore(fifths)
  }

  /** The printed score `fifths / 5` without its sign. */
  function UnsignedScore(fifths: nat): (r: string)
    ensures |r| > 0 && IsDigit(r[0]) && IsDigit(r[|r| - 1])
  {
    var whole := NatToString(fifths / 5);
    if fifths % 5 == 0 then whole
    else whole + "." + [DigitChar(2 * (fifths % 5))]
  }

  predicate AllDigits(s: string) {
    forall i :: 0 <= i < |s| ==> IsDigit(s[i])
  }

  /** Reads an unsigned printed score back as a number of fifths: digits,
      optionally followed by '.' and one even digit. */
  function ReadMagnitude(s: string): Option<nat> {
    if |s| > 0 && AllDigits(s) then Some(DigitsValue(s) * 5)
    else if |s| >= 3 && s[|s| - 2] == '.' && IsDigit(s[|s| - 1]) && DigitOf(s[|s| - 1]) % 2 == 0 && AllDigits(s[..|s| - 2]) then
      Some(DigitsValue(s[..|s| - 2]) * 5 + DigitOf(s[|s| - 1]) / 2)
    else None
  }

  /** Reads a printed score back as a number of fifths, with an optional
      leading '-'. */
  function ReadScore(s: string): Option<int> {
    if |s| > 0 && s[0] == '-' then
      match ReadMagnitude(s[1..])
      case Some(m) => Some(0 - m)
      case None => None
    else ReadMagnitude(s)
  }

  lemma UnsignedScoreRoundTrip(fifths: nat)
    ensures ReadMagnitude(UnsignedScore(fifths)) == Some(fifths)
  {
    var whole := NatToString(fifths / 5);
    NatToStringValue(fifths / 5);
    if fifths % 5 != 0 {
      var body := UnsignedScore(fifths);
      assert body[..|body| - 2] == whole;
      assert body[|body| - 2] == '.';
      assert !IsDigit(body[|body| - 2]);
    }
  }

  /** A '-' before an unsigned score reads as the negated magnitude. */
  lemma ReadNegated(body: string, m: nat)
    requires ReadMagnitude(body) == Some(m)
    ensures ReadScore("-" + body) == Some(0 - m)
  {
    assert ("-" + body)[1..] == body;
  }

  /** An unsigned score starting with a digit reads as its magnitude. */
  lemma ReadUnsigned(body: string, m: nat)
    requires |body| > 0 && IsDigit(body[0]) && ReadMagnitude(body) == Some(m)
    ensures ReadScore(body) == Some(m)
  {
  }

  /** A printed score reads back as the score: `${k.score}` shows the
      value `fifths / 5` exactly, so different scores print differently. */
  lemma FormatScoreRoundTrip(fifths: int)
    ensures ReadScore(FormatScore(fifths)) == Some(fifths)
  {
    if fifths < 0 {
      UnsignedScoreRoundTrip(-fifths);
      ReadNegated(UnsignedScore(-fifths), -fifths);
    } else {
      UnsignedScoreRoundTrip(fifths);
      ReadUnsigned(UnsignedScore(fifths), fifths);
    }
  }

  function Fifths(k: KeywordMatch): int {
    k.fifths
  }

  /** The scores shown in the table: the best three valid matches. */
  function TopMatches(item: FeedItem, n: nat): seq<KeywordMatch> {
    Top(item.matchedKeywords, ValidMatchP(), Fifths, n)
  }

  /** The best `n` valid matches of the item, best first, each one of the
      item's own: as many as there are up to `n`, and a valid match left
      out scores no higher than any shown one. */
  lemma TopMatchesSpec(item: FeedItem, n: nat)
    ensures var valid := |Filter(item.matchedKeywords, ValidMatchP())|;
            |TopMatches(item, n)| == if valid <= n then valid else n
    ensures NonIncreasing(TopMatches(item, n), Fifths)
    ensures forall i :: 0 <= i < |TopMatches(item, n)| ==>
              IsValidMatch(TopMatches(item, n)[i]) && TopMatches(item, n)[i] in item.matchedKeywords
    ensures multiset(TopMatches(item, n)) <= multiset(item.matchedKeywords)
    ensures forall i, j :: 0 <= i < |item.matchedKeywords| && IsValidMatch(item.matchedKeywords[i]) && item.matchedKeywords[i] !in TopMatches(item, n) && 0 <= j < |TopMatches(item, n)| ==>
              item.matchedKeywords[i].fifths <= TopMatches(item, n)[j].fifths
  {
    var r := TopMatches(item, n);
    TopSpec(item.matchedKeywords, ValidMatchP(), Fifths, n);
    forall i | 0 <= i < |r| ensures IsValidMatch(r[i]) {
      assert ValidMatchP()(r[i]);
    }
    forall i | 0 <= i < |item.matchedKeywords| && IsValidMatch(item.matchedKeywords[i])
      ensures ValidMatchP()(item.matchedKeywords[i])
    {
    }
  }

  /** There is a top match whenever the item has a valid match. */
  lemma TopMatchesNonEmpty(item: FeedItem, n: nat, i: nat)
    requires n > 0 && i < |item.matchedKeywords| && IsValidMatch(item.matchedKeywords[i])
    ensures |TopMatches(item, n)| > 0
  {
    var valid := Filter(item.matchedKeywords, ValidMatchP());
    SortDescMembers(valid, Fifths);
    assert ValidMatchP()(item.matchedKeywords[i]);
    assert item.matchedKeywords[i] in SortDesc(valid, Fifths);
  }

  /** All valid matches are shown when there are at most `n`. */
  lemma TopMatchesComplete(item: FeedItem, n: nat)
    requires |Filter(item.matchedKeywords, ValidMatchP())| <= n
    ensures forall m :: m in item.matchedKeywords && IsValidMatch(m) ==> m in TopMatches(item, n)
  {
    var valid := Filter(item.matchedKeywords, ValidMatchP());
    SortDescMembers(valid, Fifths);
    FilterMembers(item.matchedKeywords, ValidMatchP());
    assert TopMatches(item, n) == SortDesc(valid, Fifths);
    forall m | m in item.matchedKeywords && IsValidMatch(m) ensures m in valid {
      assert ValidMatchP()(m);
    }
  }

  function ScoreTexts(matches: seq<KeywordMatch>): (r: seq<string>)
    ensures |r| == |matches| && forall i :: 0 <= i < |matches| ==> r[i] == FormatScore(matches[i].fifths)
  {
    seq(|matches|, i requires 0 <= i < |matches| => FormatScore(matches[i].fifths))
  }

  /** `formatKeywords`: the top three scores joined by commas, or '-'. */
  function FormatKeywords(item: FeedItem): string {
    if |item.matchedKeywords| == 0 then "-"
    else
      var top := TopMatches(item, TopKeywordCount);
      if |top| == 0 then "-" else Join(ScoreTexts(top), ",")
  }

  lemma {:induction false} JoinNotDash(parts: seq<string>)
    requires |parts| > 0 && forall i :: 0 <= i < |parts| ==> |parts[i]| > 0 && IsDigit(parts[i][|parts[i]| - 1])
    ensures Join(parts, ",") != "-"
  {
    if |parts| > 1 {
      assert |Join(parts, ",")| >= |parts[0]| + 1;
    }
  }

  /** The cell is '-' exactly when the item has no valid match; otherwise
      it shows the scores of the best three of them. */
  lemma FormatKeywordsSpec(item: FeedItem)
    ensures FormatKeywords(item) == "-" <==>
              forall i :: 0 <= i < |item.matchedKeywords| ==> !IsValidMatch(item.matchedKeywords[i])
    ensures FormatKeywords(item) != "-" ==> FormatKeywords(item) == Join(ScoreTexts(TopMatches(item, TopKeywordCount)), ",")
  {
    var top := TopMatches(item, TopKeywordCount);
    if i :| 0 <= i < |item.matchedKeywords| && IsValidMatch(item.matchedKeywords[i]) {
      TopMatchesNonEmpty(item, TopKeywordCount, i);
    }
    if |item.matchedKeywords| > 0 && |top| > 0 {
      JoinNotDash(ScoreTexts(top));
    }
  }

  /** `formatContent(content, full)`. */
  function FormatContent(content: string, full: bool): string {
    if content == "" then ""
    else if full || |content| <= ContentPreviewLength then content
    else content[..ContentPreviewLength] + Ellipsis
  }

  /** The content is shown whole when asked or short enough; otherwise
      its first 120 characters are shown followed by "...". */
  lemma FormatContentSpec(content: string, full: bool)
    ensures full || |content| <= ContentPreviewLength ==> FormatContent(content, full) == content
    ensures !full && |content| > ContentPreviewLength ==>
              |FormatContent(content, full)| == ContentPreviewLength + |Ellipsis|
              && FormatContent(content, full)[..ContentPreviewLength] == content[..ContentPreviewLength]
              && FormatContent(content, full)[ContentPreviewLength..] == Ellipsis
  {
  }

  /** The title as the table shows it: whole when it fits in 50
      characters, else its first 50 characters followed by "...". */
  function ShownTitle(title: string): (r: string)
    ensures |title| <= MaxTitleLength ==> r == title
    ensures |title| > MaxTitleLength ==> |r| == MaxTitleLength + |Ellipsis| && r[..MaxTitleLength] == title[..MaxTitleLength]
  {
    var cut := if |title| <= MaxTitleLength then title else title[..MaxTitleLength];
    cut + (if |title| > MaxTitleLength then Ellipsis else "")
  }

  /** The title cell of row `index`: the new-marker on the first three
      rows only. */
  function TitleCell(title: string, index: int): (cell: string)
    ensures IsNew(index) ==> |cell| >= |NewMarker| && cell[..|NewMarker|] == NewMarker && cell[|NewMarker|..] == ShownTitle(title)
    ensures !IsNew(index) ==> cell == ShownTitle(title)
  {
    (if IsNew(index) then NewMarker else "") + ShownTitle(title)
  }

  /** The rows of the table: title and scores (the source column, made of
      the host name and a local time, is not part of this model). */
  datatype Row = Row(title: string, matches: string)

  function TableRows(matches: seq<FeedItem>): (rows: seq<Row>)
    ensures |rows| == |matches|
    ensures forall i :: 0 <= i < |matches| ==>
              rows[i] == Row(TitleCell(matches[i].title, i), FormatKeywords(matches[i]))
  {
    seq(|matches|, i requires 0 <= i < |matches| => Row(TitleCell(matches[i].title, i), FormatKeywords(matches[i])))
  }

  datatype Colour = Green | Yellow | Red

  /** The details colour of a score: green from 8, yellow from 5. */
  function ScoreColour(fifths: int): Colour {
    if fifths >= 8 * 5 then Green else if fifths >= 5 * 5 then Yellow else Red
  }

  function ColourRank(c: Colour): nat {
    match c
    case Red => 0
    case Yellow => 1
    case Green => 2
  }

  /** A higher score never gets a lower colour, and the boundaries are
      the scores 8 and 5 themselves. */
  lemma ScoreColourMonotone(a: int, b: int)
    requires a <= b
    ensures ColourRank(ScoreColour(a)) <= ColourRank(ScoreColour(b))
    ensures ScoreColour(40) == Green && ScoreColour(39) == Yellow
    ensures ScoreColour(25) == Yellow && ScoreColour(24) == Red
  {
  }

  /** Against the first render's empty list, a non-empty list always
      counts as a change, while against itself it never does: a timer
      refresh that loads the list already shown still replaces it and
      resets the update time. */
  lemma StaleRefreshReportsChange(shown: seq<FeedItem>)
    ensures HasChanges([], shown) <==> |shown| > 0
    ensures !HasChanges(shown, shown)
  {
  }

  // ---------------------------------------------------------------------
  // The screen's state
  // ---------------------------------------------------------------------

  class MatchesView {
    var matches: seq<FeedItem>
    var selectedMatch: Option<FeedItem>
    var lastUpdate: int
    var showFullContent: bool
    var monitorRunning: bool
    /** `isMounted.current`. */
    var mounted: bool

    constructor (now: int)
      ensures matches == [] && selectedMatch == None && lastUpdate == now
      ensures !showFullContent && !monitorRunning && mounted
    {
      matches, selectedMatch, lastUpdate := [], None, now;
      showFullContent, monitorRunning, mounted := false, false, true;
    }

    /** The cleanup of the mount effect. */
    method Unmount()
      modifies this`mounted
      ensures !mounted
    {
      mounted := false;
    }

    /** A run of the `loadData` closure of the render whose `matches` was
        `captured`, with the loaded items and monitor status, at time `now`:
        the list and the update time change only when the visible list
        differs from `captured`; the status is always taken. A refresh
        timer re-runs the closure that armed it, so the chain the mount
        effect starts compares with the initial empty list for as long as
        it runs, and then replaces the list and resets the update time
        whenever any item is listable (see StaleRefreshReportsChange). */
    method LoadDataFrom(captured: seq<FeedItem>, items: seq<FeedItem>, running: bool, now: int)
      modifies this`matches, this`lastUpdate, this`monitorRunning
      ensures !old(mounted) ==> matches == old(matches) && lastUpdate == old(lastUpdate) && monitorRunning == old(monitorRunning)
      ensures old(mounted) ==> monitorRunning == running
      ensures old(mounted) && HasChanges(captured, ValidItems(items)) ==>
                matches == ValidItems(items) && lastUpdate == now
      ensures old(mounted) && !HasChanges(captured, ValidItems(items)) ==>
                matches == old(matches) && lastUpdate == old(lastUpdate)
    {
      if !mounted {
        return;
      }
      var validItems := ValidItems(items);
      if HasChanges(captured, validItems) {
        matches := validItems;
        lastUpdate := now;
      }
      monitorRunning := running;
    }

    /** `loadData` of the current render, as the activation effect runs it:
        the comparison is with the list on screen. */
    method LoadData(items: seq<FeedItem>, running: bool, now: int)
      modifies this`matches, this`lastUpdate, this`monitorRunning
      ensures !old(mounted) ==> matches == old(matches) && lastUpdate == old(lastUpdate) && monitorRunning == old(monitorRunning)
      ensures old(mounted) ==> monitorRunning == running
      ensures old(mounted) && HasChanges(old(matches), ValidItems(items)) ==>
                matches == ValidItems(items) && lastUpdate == now
      ensures old(mounted) && !HasChanges(old(matches), ValidItems(items)) ==>
                matches == old(matches) && lastUpdate == old(lastUpdate)
    {
      LoadDataFrom(matches, items, running, now);
    }

    /** `handleSelectMatch(index)`: a row outside the list selects nothing. */
    method HandleSelectMatch(index: int)
      modifies this`selectedMatch, this`showFullContent
      ensures !old(mounted) ==> selectedMatch == old(selectedMatch) && showFullContent == old(showFullContent)
      ensures old(mounted) ==> !showFullContent
      ensures old(mounted) ==> selectedMatch == if 0 <= index < |matches| then Some(matches[index]) else None
    {
      if !mounted {
        return;
      }
      selectedMatch := if 0 <= index < |matches| then Some(matches[index]) else None;
      showFullContent := false;
    }

    /** The key handler: Return asks to open the selected match's link,
        'e' toggles the full content; both need an active, mounted view
        and a selected match. */
    method HandleInput(input: string, isReturn: bool, isActive: bool) returns (open: Option<string>)
      modifies this`showFullContent
      ensures var live := isActive && old(mounted) && selectedMatch.Some?;
              && (live && isReturn ==> open == Some(selectedMatch.value.link) && showFullContent == old(showFullContent))
              && (live && !isReturn && input == "e" ==> open == None && showFullContent == !old(showFullContent))
              && (!(live && (isReturn || input == "e")) ==> open == None && showFullContent == old(showFullContent))
    {
      open := None;
      if !isActive || !mounted {
        return;
      }
      if isReturn && selectedMatch.Some? {
        open := Some(selectedMatch.value.link);
      } else if input == "e" && selectedMatch.Some? {
        showFullContent := !showFullContent;
      }
    }
  }
}
