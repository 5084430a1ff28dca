/** The feed monitor (dist/services/monitor.js): the per-source cooldown
    table, the retry loop of `fetchFeed` with its error classification and
    backoff, and the item loop of `checkFeeds` that deduplicates items by
    `url-title` and collects the new matches. The feed parser is replaced by
    a sequence of attempt outcomes and the clock by integer parameters. */
module Monitor {
  import opened Wrappers
  import opened Text
  import opened Types
  import KeywordMatcher

  const CooldownDuration: int := 15 * 60 * 1000
  const DefaultMaxRetries: int := 3
  const MaxBackoff: nat := 5000

  // ---------------------------------------------------------------------
  // Parse attempts and their errors
  // ---------------------------------------------------------------------

  /** A thrown value: an `Error` with its message, or anything else. */
  datatype AttemptError = ErrorObject(message: string) | NonErrorValue

  /** The fields of a parsed feed item the monitor reads. `timestamp` is
      `new Date(item.pubDate || item.isoDate || '')` in milliseconds; an
      item with neither date (an Invalid Date) stands for a time at or
      before every retention cutoff. */
  datatype RawItem = RawItem(
    title: Option<string>,
    link: Option<string>,
    contentEncoded: Option<string>,
    description: Option<string>,
    contentSnippet: Option<string>,
    timestamp: int)

  datatype Feed = Feed(items: seq<RawItem>)

  /** What one `parser.parseURL` call does. */
  datatype Attempt = Parsed(feed: Feed) | Threw(error: AttemptError)

  /** What `fetchFeed` throws: the cooldown error, the last attempt's
      error, or `undefined` when no attempt was made. */
  datatype FetchError = InCooldown | Rethrown(error: AttemptError) | NothingThrown

  datatype FetchResult = Fetched(feed: Feed) | FetchFailed(error: FetchError)

  datatype ErrorClass = Unreachable | AccessDenied | TlsFailure | TimeoutOrSocket | OtherError

  /** The checks on the lower-cased message, in the source's order; a
      thrown value that is not an `Error` is not classified. */
  function Classify(e: AttemptError): ErrorClass {
    match e
    case NonErrorValue => OtherError
    case ErrorObject(message) =>
      var m := ToLower(message);
      if Contains(m, "enotfound") then Unreachable
      else if Contains(m, "forbidden") || Contains(m, "unauthorized") then AccessDenied
      else if Contains(m, "tls") || Contains(m, "ssl") || Contains(m, "certificate") then TlsFailure
      else if Contains(m, "timeout") || Contains(m, "socket") then TimeoutOrSocket
      else OtherError
  }

  /** Errors that end the retry loop at once and arm the cooldown. */
  predicate IsFatal(c: ErrorClass) {
    c == Unreachable || c == AccessDenied || c == TlsFailure
  }

  /** A failed attempt after which the loop may try again. */
  predicate IsRetryable(a: Attempt) {
    a.Threw? && !IsFatal(Classify(a.error))
  }

  lemma FatalMessages(message: string)
    ensures var m := ToLower(message);
            (Contains(m, "enotfound") || Contains(m, "forbidden") || Contains(m, "unauthorized")
             || Contains(m, "tls") || Contains(m, "ssl") || Contains(m, "certificate"))
            <==> IsFatal(Classify(ErrorObject(message)))
  {
  }

  // ---------------------------------------------------------------------
  // Backoff
  // ---------------------------------------------------------------------

  function Pow2(k: nat): (p: nat)
    ensures p >= 1
  {
    if k == 0 then 1 else 2 * Pow2(k - 1)
  }

  /** `Math.min(1000 * Math.pow(2, attempt - 1), 5000)`. */
  function Backoff(attempt: nat): (ms: nat)
    requires attempt >= 1
    ensures ms <= MaxBackoff
  {
    var exp := 1000 * Pow2(attempt - 1);
    if exp <= MaxBackoff then exp else MaxBackoff
  }

  lemma {:induction false} Pow2AtLeast8(k: nat)
    requires k >= 3
    ensures Pow2(k) >= 8
  {
    if k > 3 {
      Pow2AtLeast8(k - 1);
    }
  }

  /** The waits are 1 s, 2 s and 4 s, then the 5 s cap from the fourth
      attempt on. */
  lemma BackoffValues(attempt: nat)
    requires attempt >= 1
    ensures attempt == 1 ==> Backoff(attempt) == 1000
    ensures attempt == 2 ==> Backoff(attempt) == 2000
    ensures attempt == 3 ==> Backoff(attempt) == 4000
    ensures attempt >= 4 ==> Backoff(attempt) == MaxBackoff
  {
    if attempt >= 4 {
      Pow2AtLeast8(attempt - 1);
    }
  }

  // ---------------------------------------------------------------------
  // The retry loop
  // ---------------------------------------------------------------------

  /** What a run of the retry loop does to the source's cooldown entry. */
  datatype CooldownEffect = Cleared | Armed | Untouched

  /** The loop from attempt number `attempt` on: its result, the number of
      the last attempt made, the waits between attempts and the effect on
      the cooldown table. */
  datatype RetryRun = RetryRun(result: FetchResult, attempts: nat, waits: seq<nat>, effect: CooldownEffect)

  function Delayed(waits: seq<nat>, run: RetryRun): RetryRun {
    run.(waits := waits + run.waits)
  }

  function RetryFrom(outcomes: seq<Attempt>, maxRetries: int, attempt: nat, lastError: FetchError): RetryRun
    requires 1 <= attempt
    requires maxRetries <= |outcomes|
    decreases if attempt <= maxRetries then maxRetries - attempt + 1 else 0
  {
    if attempt > maxRetries then RetryRun(FetchFailed(lastError), attempt - 1, [], Untouched)
    else
      match outcomes[attempt - 1]
      case Parsed(feed) => RetryRun(Fetched(feed), attempt, [], Cleared)
      case Threw(e) =>
        var c := Classify(e);
        if IsFatal(c) || (c == TimeoutOrSocket && attempt == maxRetries) then
          RetryRun(FetchFailed(Rethrown(e)), attempt, [], Armed)
        else if attempt < maxRetries then
          Delayed([Backoff(attempt)], RetryFrom(outcomes, maxRetries, attempt + 1, Rethrown(e)))
        else
          RetryRun(FetchFailed(Rethrown(e)), attempt, [], Armed)
  }

  /** The retry loop from attempt `attempt`: the attempts before the last
      one all failed with retryable errors, each followed by its backoff;
      the last one decides: success returns the feed and clears the
      cooldown, failure rethrows its error and arms the cooldown, and a
      failure before the final allowed attempt is a fatal one. */
  lemma {:induction false} RetryFromSpec(outcomes: seq<Attempt>, maxRetries: int, attempt: nat, lastError: FetchError)
    requires 1 <= attempt <= maxRetries <= |outcomes|
    ensures var r := RetryFrom(outcomes, maxRetries, attempt, lastError);
            && attempt <= r.attempts <= maxRetries
            && (forall i :: attempt - 1 <= i < r.attempts - 1 ==> IsRetryable(outcomes[i]))
            && |r.waits| == r.attempts - attempt
            && (forall i :: 0 <= i < |r.waits| ==> r.waits[i] == Backoff(attempt + i))
            && (outcomes[r.attempts - 1].Parsed? ==>
                  r.result == Fetched(outcomes[r.attempts - 1].feed) && r.effect == Cleared)
            && (outcomes[r.attempts - 1].Threw? ==>
                  && r.result == FetchFailed(Rethrown(outcomes[r.attempts - 1].error))
                  && r.effect == Armed
                  && (r.attempts == maxRetries || IsFatal(Classify(outcomes[r.attempts - 1].error))))
    decreases maxRetries - attempt
  {
    match outcomes[attempt - 1]
    case Parsed(_) =>
    case Threw(e) =>
      var c := Classify(e);
      if !(IsFatal(c) || (c == TimeoutOrSocket && attempt == maxRetries)) && attempt < maxRetries {
        RetryFromSpec(outcomes, maxRetries, attempt + 1, Rethrown(e));
      }
  }

  /** One pass of the retry loop: a parsed feed ends the run, a failure on
      the final allowed attempt or a fatal one ends it armed, and any other
      failure waits its backoff and moves on to the next attempt. */
  lemma RetryStep(outcomes: seq<Attempt>, maxRetries: int, attempt: nat, lastError: FetchError, waits: seq<nat>)
    requires 1 <= attempt <= maxRetries <= |outcomes|
    ensures outcomes[attempt - 1].Parsed? ==>
              Delayed(waits, RetryFrom(outcomes, maxRetries, attempt, lastError))
                == RetryRun(Fetched(outcomes[attempt - 1].feed), attempt, waits, Cleared)
    ensures outcomes[attempt - 1].Threw? && (attempt == maxRetries || IsFatal(Classify(outcomes[attempt - 1].error))) ==>
              Delayed(waits, RetryFrom(outcomes, maxRetries, attempt, lastError))
                == RetryRun(FetchFailed(Rethrown(outcomes[attempt - 1].error)), attempt, waits, Armed)
    ensures outcomes[attempt - 1].Threw? && attempt < maxRetries && !IsFatal(Classify(outcomes[attempt - 1].error)) ==>
              Delayed(waits, RetryFrom(outcomes, maxRetries, attempt, lastError))
                == Delayed(waits + [Backoff(attempt)], RetryFrom(outcomes, maxRetries, attempt + 1, Rethrown(outcomes[attempt - 1].error)))
  {
    if outcomes[attempt - 1].Threw? && attempt < maxRetries && !IsFatal(Classify(outcomes[attempt - 1].error)) {
      var rest := RetryFrom(outcomes, maxRetries, attempt + 1, Rethrown(outcomes[attempt - 1].error));
      assert waits + ([Backoff(attempt)] + rest.waits) == (waits + [Backoff(attempt)]) + rest.waits;
    }
  }

  /** With no attempt allowed, nothing is tried and `undefined` is thrown. */
  lemma NoAttemptsAllowed(outcomes: seq<Attempt>, maxRetries: int)
    requires maxRetries < 1
    ensures RetryFrom(outcomes, maxRetries, 1, NothingThrown) == RetryRun(FetchFailed(NothingThrown), 0, [], Untouched)
  {
  }

  /** A source is skipped while its cooldown deadline, if set and truthy,
      lies after `now`. */
  predicate CoolingDown(cooldown: map<string, int>, url: string, now: int) {
    url in cooldown && cooldown[url] != 0 && now < cooldown[url]
  }

  /** The cooldown table after a run that started at `now`. */
  function AfterRun(cooldown: map<string, int>, url: string, now: int, effect: CooldownEffect): (m: map<string, int>)
    ensures forall u :: u in cooldown && u != url ==> u in m && m[u] == cooldown[u]
    ensures forall u :: u in m && u != url ==> u in cooldown
    ensures effect == Cleared ==> url !in m
    ensures effect == Armed ==> url in m && m[url] == now + CooldownDuration
  {
    match effect
    case Cleared => cooldown - {url}
    case Armed => cooldown[url := now + CooldownDuration]
    case Untouched => cooldown
  }

  // ---------------------------------------------------------------------
  // Items of one feed
  // ---------------------------------------------------------------------

  /** `${item.title}`: an absent title prints as "undefined". */
  function TitleText(title: Option<string>): string {
    match title
    case Some(t) => t
    case None => "undefined"
  }

  /** `x || fallback` for an optional string. */
  function OrElse(x: Option<string>, fallback: string): (r: string)
    ensures x.Some? && x.value != "" ==> r == x.value
    ensures !(x.Some? && x.value != "") ==> r == fallback
  {
    if x.Some? && x.value != "" then x.value else fallback
  }

  /** The dedup key `${source.url}-${item.title}`. */
  function ItemKey(url: string, title: Option<string>): string {
    url + "-" + TitleText(title)
  }

  /** The key the start-up seeding computes for a stored item. */
  function StoredKey(item: FeedItem): string {
    item.source + "-" + item.title
  }

  /** `item.contentEncoded || item.description || item.contentSnippet || ''`. */
  function ItemContent(item: RawItem): string {
    OrElse(item.contentEncoded, OrElse(item.description, OrElse(item.contentSnippet, "")))
  }

  /** The text the keywords are matched against. */
  function MatchText(item: RawItem): string {
    TitleText(item.title) + " " + ItemContent(item)
  }

  /** The stored record of a matched item, added at `now`. A missing title
      becomes '' and a missing link the source's URL; the source name is
      absent when the source has no name (the source then derives one from
      the URL's host). */
  function NewFeedItem(source: Source, item: RawItem, matches: seq<KeywordMatch>, now: int): (r: FeedItem)
    ensures r.title == OrElse(item.title, "") && r.link == OrElse(item.link, source.url)
    ensures r.source == source.url && r.addedAt == now && r.matchedKeywords == matches
  {
    FeedItem(
      title := OrElse(item.title, ""),
      content := ItemContent(item),
      source := source.url,
      sourceName := if source.name.Some? && source.name.value != "" then source.name else None,
      link := OrElse(item.link, source.url),
      timestamp := item.timestamp,
      addedAt := now,
      matchedKeywords := matches)
  }

  /** The items one feed adds, their keys, and the key set afterwards. */
  datatype Scan = Scan(items: seq<FeedItem>, keys: seq<string>, seen: set<string>)

  function Prepend(items: seq<FeedItem>, keys: seq<string>, scan: Scan): Scan {
    Scan(items + scan.items, keys + scan.keys, scan.seen)
  }

  lemma PrependPushed(items: seq<FeedItem>, keys: seq<string>, item: FeedItem, key: string, rest: Scan)
    ensures Prepend(items, keys, Prepend([item], [key], rest)) == Prepend(items + [item], keys + [key], rest)
  {
    assert items + ([item] + rest.items) == (items + [item]) + rest.items;
    assert keys + ([key] + rest.keys) == (keys + [key]) + rest.keys;
  }

  /** The keyword matches of an item against a keyword list. */
  function MatchesWith(keywords: seq<Keyword>): RawItem -> seq<KeywordMatch> {
    item => KeywordMatcher.KeywordMatches(MatchText(item), keywords)
  }

  /** A way of matching items against a keyword list. The monitor's own is
      MatchesWith; the pass below holds for any. */
  type Matcher = seq<Keyword> -> RawItem -> seq<KeywordMatch>

  /** The item loop over one feed, where `matchOf` gives an item's keyword
      matches: an item whose key has been seen is skipped; otherwise it is
      added, and its key recorded, when it matches at least one keyword. */
  function ScanItems(source: Source, raw: seq<RawItem>, matchOf: RawItem -> seq<KeywordMatch>, seen: set<string>, now: int): (r: Scan)
    ensures |r.items| == |r.keys|
    decreases |raw|
  {
    if raw == [] then Scan([], [], seen)
    else
      var item := raw[0];
      var key := ItemKey(source.url, item.title);
      if key in seen then ScanItems(source, raw[1..], matchOf, seen, now)
      else
        var matches := matchOf(item);
        if |matches| > 0 then
          Prepend([NewFeedItem(source, item, matches, now)], [key],
                  ScanItems(source, raw[1..], matchOf, seen + {key}, now))
        else ScanItems(source, raw[1..], matchOf, seen, now)
  }

  /** One step of the item loop. */
  lemma ScanStep(source: Source, raw: seq<RawItem>, matchOf: RawItem -> seq<KeywordMatch>, seen: set<string>, now: int)
    requires raw != []
    ensures var key := ItemKey(source.url, raw[0].title);
            ScanItems(source, raw, matchOf, seen, now) ==
              if key in seen || |matchOf(raw[0])| == 0 then ScanItems(source, raw[1..], matchOf, seen, now)
              else Prepend([NewFeedItem(source, raw[0], matchOf(raw[0]), now)], [key],
                           ScanItems(source, raw[1..], matchOf, seen + {key}, now))
  {
  }

  /** The item loop's invariant carried past item `k`: the scan of the whole
      feed is what has been found so far followed by the scan of the rest. */
  lemma ScanAdvance(source: Source, raw: seq<RawItem>, k: nat, matchOf: RawItem -> seq<KeywordMatch>,
                    seen0: set<string>, seen: set<string>, found: seq<FeedItem>, keys: seq<string>, now: int)
    requires k < |raw|
    requires ScanItems(source, raw, matchOf, seen0, now) == Prepend(found, keys, ScanItems(source, raw[k..], matchOf, seen, now))
    ensures ItemKey(source.url, raw[k].title) in seen || |matchOf(raw[k])| == 0 ==>
              ScanItems(source, raw, matchOf, seen0, now) == Prepend(found, keys, ScanItems(source, raw[k + 1..], matchOf, seen, now))
    ensures ItemKey(source.url, raw[k].title) !in seen && |matchOf(raw[k])| > 0 ==>
              ScanItems(source, raw, matchOf, seen0, now)
                == Prepend(found + [NewFeedItem(source, raw[k], matchOf(raw[k]), now)], keys + [ItemKey(source.url, raw[k].title)],
                           ScanItems(source, raw[k + 1..], matchOf, seen + {ItemKey(source.url, raw[k].title)}, now))
  {
    assert raw[k..][1..] == raw[k + 1..];
    ScanStep(source, raw[k..], matchOf, seen, now);
    var key := ItemKey(source.url, raw[k].title);
    if key !in seen && |matchOf(raw[k])| > 0 {
      PrependPushed(found, keys, NewFeedItem(source, raw[k], matchOf(raw[k]), now), key,
                    ScanItems(source, raw[k + 1..], matchOf, seen + {key}, now));
    }
  }

  /** The recorded keys are new and distinct, and the key set grows by
      exactly them. */
  lemma {:induction false} ScanKeys(source: Source, raw: seq<RawItem>, matchOf: RawItem -> seq<KeywordMatch>, seen: set<string>, now: int)
    ensures var r := ScanItems(source, raw, matchOf, seen, now);
            && r.seen == seen + (set k | k in r.keys)
            && (forall i :: 0 <= i < |r.keys| ==> r.keys[i] !in seen)
            && (forall i, j :: 0 <= i < j < |r.keys| ==> r.keys[i] != r.keys[j])
    decreases |raw|
  {
    if raw != [] {
      var key := ItemKey(source.url, raw[0].title);
      if key !in seen && |matchOf(raw[0])| > 0 {
        ScanKeys(source, raw[1..], matchOf, seen + {key}, now);
        var rest := ScanItems(source, raw[1..], matchOf, seen + {key}, now);
        var r := ScanItems(source, raw, matchOf, seen, now);
        assert r.keys == [key] + rest.keys && r.seen == rest.seen;
        assert (set k | k in r.keys) == {key} + (set k | k in rest.keys);
      } else {
        ScanKeys(source, raw[1..], matchOf, seen, now);
      }
    }
  }

  /** Item `j` of the feed is recorded: its key was not seen before the
      feed, no earlier matching item of the feed has the same key, and it
      matches. */
  predicate FirstNew(source: Source, raw: seq<RawItem>, matchOf: RawItem -> seq<KeywordMatch>, seen: set<string>, j: nat)
    requires j < |raw|
  {
    && ItemKey(source.url, raw[j].title) !in seen
    && |matchOf(raw[j])| > 0
    && forall j' :: 0 <= j' < j && ItemKey(source.url, raw[j'].title) == ItemKey(source.url, raw[j].title) ==>
         |matchOf(raw[j'])| == 0
  }

  function Shift(pos: seq<nat>): (r: seq<nat>)
    ensures |r| == |pos| && forall i :: 0 <= i < |pos| ==> r[i] == pos[i] + 1
  {
    seq(|pos|, i requires 0 <= i < |pos| => pos[i] + 1)
  }

  lemma ShiftMembers(pos: seq<nat>, j: nat)
    ensures j in Shift(pos) <==> j >= 1 && j - 1 in pos
  {
    if j >= 1 && j - 1 in pos {
      var i :| 0 <= i < |pos| && pos[i] == j - 1;
      assert Shift(pos)[i] == j;
    }
  }

  /** The positions in the feed of the items the loop records, in the
      order it records them. */
  function RecordedPositions(source: Source, raw: seq<RawItem>, matchOf: RawItem -> seq<KeywordMatch>, seen: set<string>): seq<nat>
    decreases |raw|
  {
    if raw == [] then []
    else
      var key := ItemKey(source.url, raw[0].title);
      if key !in seen && |matchOf(raw[0])| > 0 then [0] + Shift(RecordedPositions(source, raw[1..], matchOf, seen + {key}))
      else Shift(RecordedPositions(source, raw[1..], matchOf, seen))
  }

  /** Positions below `n`, strictly increasing. */
  predicate IncreasingBelow(pos: seq<nat>, n: nat) {
    && (forall i :: 0 <= i < |pos| ==> pos[i] < n)
    && (forall i, i' :: 0 <= i < i' < |pos| ==> pos[i] < pos[i'])
  }

  /** Dropping the first item of the feed: item `j` is recorded in the
      whole feed exactly when item `j - 1` of the rest is, given the keys
      seen after the first item. */
  lemma FirstNewStep(source: Source, raw: seq<RawItem>, matchOf: RawItem -> seq<KeywordMatch>, seen: set<string>, j: nat)
    requires 1 <= j < |raw|
    ensures var key := ItemKey(source.url, raw[0].title);
            var seen' := if key !in seen && |matchOf(raw[0])| > 0 then seen + {key} else seen;
            FirstNew(source, raw, matchOf, seen, j) <==> FirstNew(source, raw[1..], matchOf, seen', j - 1)
  {
    var key := ItemKey(source.url, raw[0].title);
    var seen' := if key !in seen && |matchOf(raw[0])| > 0 then seen + {key} else seen;
    var rest := raw[1..];
    assert forall k :: 0 <= k < |rest| ==> rest[k] == raw[k + 1];
    var keyj := ItemKey(source.url, raw[j].title);
    if FirstNew(source, raw, matchOf, seen, j) {
      forall j' | 0 <= j' < j - 1 && ItemKey(source.url, rest[j'].title) == keyj
        ensures |matchOf(rest[j'])| == 0
      {
        assert rest[j'] == raw[j' + 1];
      }
    }
    if FirstNew(source, rest, matchOf, seen', j - 1) {
      forall j' | 0 <= j' < j && ItemKey(source.url, raw[j'].title) == keyj
        ensures |matchOf(raw[j'])| == 0
      {
        if j' > 0 {
          assert raw[j'] == rest[j' - 1];
        }
      }
    }
  }

  /** The recorded positions increase and lie in the feed. */
  lemma {:induction false} RecordedPositionsIncreasing(source: Source, raw: seq<RawItem>, matchOf: RawItem -> seq<KeywordMatch>, seen: set<string>)
    ensures IncreasingBelow(RecordedPositions(source, raw, matchOf, seen), |raw|)
    decreases |raw|
  {
    if raw != [] {
      var key := ItemKey(source.url, raw[0].title);
      var recorded := key !in seen && |matchOf(raw[0])| > 0;
      var seen' := if recorded then seen + {key} else seen;
      RecordedPositionsIncreasing(source, raw[1..], matchOf, seen');
      IncreasingShift(RecordedPositions(source, raw[1..], matchOf, seen'), |raw| - 1, recorded);
    }
  }

  /** One position of the feed, given the positions `rest` recorded in the
      rest of it: it is recorded exactly when it is FirstNew. */
  lemma RecordedMember(source: Source, raw: seq<RawItem>, matchOf: RawItem -> seq<KeywordMatch>, seen: set<string>,
                       rest: seq<nat>, j: nat)
    requires j < |raw|
    requires var key := ItemKey(source.url, raw[0].title);
             var seen' := if key !in seen && |matchOf(raw[0])| > 0 then seen + {key} else seen;
             forall j' :: 0 <= j' < |raw| - 1 ==> (j' in rest <==> FirstNew(source, raw[1..], matchOf, seen', j'))
    ensures var key := ItemKey(source.url, raw[0].title);
            var recorded := key !in seen && |matchOf(raw[0])| > 0;
            j in (if recorded then [0] else []) + Shift(rest) <==> FirstNew(source, raw, matchOf, seen, j)
  {
    ShiftMembers(rest, j);
    if j >= 1 {
      FirstNewStep(source, raw, matchOf, seen, j);
    }
  }

  /** A position is recorded exactly when its item is FirstNew. */
  lemma {:induction false} RecordedPositionsMembers(source: Source, raw: seq<RawItem>, matchOf: RawItem -> seq<KeywordMatch>, seen: set<string>)
    ensures forall j :: 0 <= j < |raw| ==>
              (j in RecordedPositions(source, raw, matchOf, seen) <==> FirstNew(source, raw, matchOf, seen, j))
    decreases |raw|
  {
    if raw != [] {
      var key := ItemKey(source.url, raw[0].title);
      var recorded := key !in seen && |matchOf(raw[0])| > 0;
      var seen' := if recorded then seen + {key} else seen;
      RecordedPositionsMembers(source, raw[1..], matchOf, seen');
      var rest := RecordedPositions(source, raw[1..], matchOf, seen');
      assert RecordedPositions(source, raw, matchOf, seen) == (if recorded then [0] else []) + Shift(rest);
      forall j | 0 <= j < |raw| ensures j in RecordedPositions(source, raw, matchOf, seen) <==> FirstNew(source, raw, matchOf, seen, j) {
        RecordedMember(source, raw, matchOf, seen, rest, j);
      }
    }
  }

  /** The recorded positions increase, lie in the feed, and are exactly the
      positions of FirstNew items. */
  lemma RecordedPositionsSpec(source: Source, raw: seq<RawItem>, matchOf: RawItem -> seq<KeywordMatch>, seen: set<string>)
    ensures IncreasingBelow(RecordedPositions(source, raw, matchOf, seen), |raw|)
    ensures forall j :: 0 <= j < |raw| ==>
              (j in RecordedPositions(source, raw, matchOf, seen) <==> FirstNew(source, raw, matchOf, seen, j))
  {
    RecordedPositionsIncreasing(source, raw, matchOf, seen);
    RecordedPositionsMembers(source, raw, matchOf, seen);
  }

  /** Shifting increasing positions by one, with or without 0 in front,
      keeps them increasing. */
  lemma IncreasingShift(pos: seq<nat>, n: nat, front: bool)
    requires IncreasingBelow(pos, n)
    ensures IncreasingBelow((if front then [0] else []) + Shift(pos), n + 1)
  {
    var all := (if front then [0] else []) + Shift(pos);
    var d := if front then 1 else 0;
    forall i | d <= i < |all| ensures all[i] == pos[i - d] + 1 {
    }
  }

  /** `scan` holds, in order, the item at each of the positions `pos` of
      the feed, as NewFeedItem with that item's matches and under that
      item's key. */
  predicate RecordsAt(source: Source, raw: seq<RawItem>, matchOf: RawItem -> seq<KeywordMatch>, now: int, scan: Scan, pos: seq<nat>) {
    && |pos| == |scan.items| == |scan.keys|
    && forall i :: 0 <= i < |pos| ==>
         && pos[i] < |raw|
         && scan.items[i] == NewFeedItem(source, raw[pos[i]], matchOf(raw[pos[i]]), now)
         && scan.keys[i] == ItemKey(source.url, raw[pos[i]].title)
  }

  /** RecordsAt for the rest of the feed holds for the whole feed with the
      positions shifted by one. */
  lemma RecordsAtShift(source: Source, raw: seq<RawItem>, matchOf: RawItem -> seq<KeywordMatch>, now: int,
                       rest: Scan, restPos: seq<nat>)
    requires raw != []
    requires RecordsAt(source, raw[1..], matchOf, now, rest, restPos)
    ensures RecordsAt(source, raw, matchOf, now, rest, Shift(restPos))
  {
    var pos := Shift(restPos);
    forall i | 0 <= i < |pos|
      ensures pos[i] < |raw| && raw[pos[i]] == raw[1..][restPos[i]]
    {
    }
  }

  /** Recording the first item of the feed in front of records at
      positions after it. */
  lemma RecordsAtFront(source: Source, raw: seq<RawItem>, matchOf: RawItem -> seq<KeywordMatch>, now: int,
                       scan: Scan, pos: seq<nat>)
    requires raw != []
    requires RecordsAt(source, raw, matchOf, now, scan, pos)
    ensures RecordsAt(source, raw, matchOf, now,
                      Prepend([NewFeedItem(source, raw[0], matchOf(raw[0]), now)], [ItemKey(source.url, raw[0].title)], scan),
                      [0] + pos)
  {
    var front := Prepend([NewFeedItem(source, raw[0], matchOf(raw[0]), now)], [ItemKey(source.url, raw[0].title)], scan);
    var all := [0] + pos;
    forall i | 1 <= i < |all|
      ensures all[i] == pos[i - 1] && front.items[i] == scan.items[i - 1] && front.keys[i] == scan.keys[i - 1]
    {
    }
  }

  /** RecordsAt for the rest of the feed carries over to the whole feed,
      with or without its first item in front. */
  lemma RecordsAtCons(source: Source, raw: seq<RawItem>, matchOf: RawItem -> seq<KeywordMatch>, now: int,
                      rest: Scan, restPos: seq<nat>, first: bool)
    requires raw != []
    requires RecordsAt(source, raw[1..], matchOf, now, rest, restPos)
    ensures RecordsAt(source, raw, matchOf, now,
                      if first then Prepend([NewFeedItem(source, raw[0], matchOf(raw[0]), now)], [ItemKey(source.url, raw[0].title)], rest)
                      else rest,
                      (if first then [0] else []) + Shift(restPos))
  {
    RecordsAtShift(source, raw, matchOf, now, rest, restPos);
    if first {
      RecordsAtFront(source, raw, matchOf, now, rest, Shift(restPos));
    } else {
      assert [] + Shift(restPos) == Shift(restPos);
    }
  }

  /** The scan records, in order, the item at each recorded position with
      that item's matches, under that item's key. */
  lemma {:induction false} ScanRecords(source: Source, raw: seq<RawItem>, matchOf: RawItem -> seq<KeywordMatch>, seen: set<string>, now: int)
    ensures RecordsAt(source, raw, matchOf, now, ScanItems(source, raw, matchOf, seen, now), RecordedPositions(source, raw, matchOf, seen))
    decreases |raw|
  {
    if raw != [] {
      var key := ItemKey(source.url, raw[0].title);
      var recorded := key !in seen && |matchOf(raw[0])| > 0;
      var seen' := if recorded then seen + {key} else seen;
      ScanRecords(source, raw[1..], matchOf, seen', now);
      RecordsAtCons(source, raw, matchOf, now, ScanItems(source, raw[1..], matchOf, seen', now),
                    RecordedPositions(source, raw[1..], matchOf, seen'), recorded);
    }
  }

  /** Every recorded item is a matching item of the feed with an unseen
      key, and every item that is first with its new key and matches is
      recorded; the seen set only grows, and afterwards it holds the key of
      every matching item. */
  lemma {:induction false} ScanComplete(source: Source, raw: seq<RawItem>, matchOf: RawItem -> seq<KeywordMatch>, seen: set<string>, now: int)
    ensures seen <= ScanItems(source, raw, matchOf, seen, now).seen
    ensures forall j :: 0 <= j < |raw| ==>
              ItemKey(source.url, raw[j].title) in ScanItems(source, raw, matchOf, seen, now).seen || |matchOf(raw[j])| == 0
    ensures forall j :: 0 <= j < |raw| && FirstNew(source, raw, matchOf, seen, j) ==>
              exists i :: 0 <= i < |ScanItems(source, raw, matchOf, seen, now).items|
                && ScanItems(source, raw, matchOf, seen, now).items[i] == NewFeedItem(source, raw[j], matchOf(raw[j]), now)
    decreases |raw|
  {
    if raw != [] {
      var key := ItemKey(source.url, raw[0].title);
      var seen' := if key !in seen && |matchOf(raw[0])| > 0 then seen + {key} else seen;
      ScanComplete(source, raw[1..], matchOf, seen', now);
      forall j | 1 <= j < |raw| ensures raw[j] == raw[1..][j - 1] { }
    }
    var pos := RecordedPositions(source, raw, matchOf, seen);
    RecordedPositionsSpec(source, raw, matchOf, seen);
    ScanRecords(source, raw, matchOf, seen, now);
    forall j | 0 <= j < |raw| && FirstNew(source, raw, matchOf, seen, j)
      ensures exists i :: 0 <= i < |ScanItems(source, raw, matchOf, seen, now).items|
                && ScanItems(source, raw, matchOf, seen, now).items[i] == NewFeedItem(source, raw[j], matchOf(raw[j]), now)
    {
      var i :| 0 <= i < |pos| && pos[i] == j;
    }
  }

  /** The item loop over one feed records, in feed order and under their
      keys, exactly the items that are first with a key not seen before and
      match, each as NewFeedItem with its matches. The recorded keys are new
      and distinct, and the seen set grows by exactly them. */
  lemma ScanItemsSpec(source: Source, raw: seq<RawItem>, matchOf: RawItem -> seq<KeywordMatch>, seen: set<string>, now: int)
    ensures var r := ScanItems(source, raw, matchOf, seen, now);
            var pos := RecordedPositions(source, raw, matchOf, seen);
            && IncreasingBelow(pos, |raw|)
            && (forall j :: 0 <= j < |raw| ==> (j in pos <==> FirstNew(source, raw, matchOf, seen, j)))
            && |pos| == |r.items| == |r.keys|
            && (forall i :: 0 <= i < |pos| ==>
                  r.items[i] == NewFeedItem(source, raw[pos[i]], matchOf(raw[pos[i]]), now)
                  && r.keys[i] == ItemKey(source.url, raw[pos[i]].title))
            && r.seen == seen + (set k | k in r.keys)
            && (forall i :: 0 <= i < |r.keys| ==> r.keys[i] !in seen)
            && (forall i, j :: 0 <= i < j < |r.keys| ==> r.keys[i] != r.keys[j])
  {
    ScanKeys(source, raw, matchOf, seen, now);
    RecordedPositionsSpec(source, raw, matchOf, seen);
    ScanRecords(source, raw, matchOf, seen, now);
  }

  /** Keys that are pairwise distinct and none of which is in `base`. */
  predicate FreshKeys(keys: seq<string>, base: set<string>) {
    && (forall i :: 0 <= i < |keys| ==> keys[i] !in base)
    && (forall i, j :: 0 <= i < j < |keys| ==> keys[i] != keys[j])
  }

  lemma AppendFreshKeys(keys: seq<string>, more: seq<string>, base: set<string>)
    requires FreshKeys(keys, base)
    requires FreshKeys(more, base + (set k | k in keys))
    ensures FreshKeys(keys + more, base)
    ensures (base + (set k | k in keys)) + (set k | k in more) == base + (set k | k in keys + more)
  {
    var all := keys + more;
    forall i, j | 0 <= i < j < |all| ensures all[i] != all[j] {
      if j >= |keys| && i < |keys| {
        assert all[i] in (set k | k in keys);
      }
    }
  }

  /** Every item has a match and comes from a polled source of `sources`. */
  predicate FromPolledSources(items: seq<FeedItem>, sources: seq<Source>) {
    forall n :: 0 <= n < |items| ==>
      |items[n].matchedKeywords| > 0
      && exists s :: s in sources && IsPolled(s) && items[n].source == s.url
  }

  lemma AppendFromPolled(items: seq<FeedItem>, more: seq<FeedItem>, sources: seq<Source>, source: Source)
    requires FromPolledSources(items, sources)
    requires source in sources
    requires forall n :: 0 <= n < |more| ==> |more[n].matchedKeywords| > 0 && more[n].source == source.url
    requires more != [] ==> IsPolled(source)
    ensures FromPolledSources(items + more, sources)
  {
    var all := items + more;
    forall n | |items| <= n < |all|
      ensures |all[n].matchedKeywords| > 0 && exists s :: s in sources && IsPolled(s) && all[n].source == s.url
    {
      assert all[n] == more[n - |items|];
    }
  }

  /** The feed's keyword list: the global list when the source asks for it
      (a validated configuration always has one), else the source's own
      list, else none and the source is skipped. */
  function KeywordsToUse(config: Config, source: Source): (r: Option<seq<Keyword>>)
    ensures source.useGlobalKeywords == Some(true) ==> r == Some(config.keywords)
    ensures source.useGlobalKeywords != Some(true) ==> r == source.keywords
  {
    if source.useGlobalKeywords == Some(true) then Some(config.keywords)
    else if source.keywords.Some? then source.keywords
    else None
  }

  /** `source.type === 'rss' && source.url`. */
  predicate IsPolled(source: Source) {
    source.kind == "rss" && source.url != ""
  }

  // ---------------------------------------------------------------------
  // One pass of checkFeeds
  // ---------------------------------------------------------------------

  /** The part of the monitor's state that a pass changes. */
  datatype MonitorState = MonitorState(cooldown: map<string, int>, processed: set<string>, totalProcessed: nat, matchedItems: nat)

  /** What checking one source, or the first sources of a pass, leaves:
      the new state and the items found, with their keys. */
  datatype Checked = Checked(state: MonitorState, items: seq<FeedItem>, keys: seq<string>)

  /** `fetchFeed` on a cooldown table: its result and the table after it. */
  function FetchOutcome(cooldown: map<string, int>, source: Source, now: int, outcomes: seq<Attempt>, maxRetries: int): (FetchResult, map<string, int>)
    requires maxRetries <= |outcomes|
  {
    if CoolingDown(cooldown, source.url, now) then (FetchFailed(InCooldown), cooldown)
    else
      var run := RetryFrom(outcomes, maxRetries, 1, NothingThrown);
      (run.result, AfterRun(cooldown, source.url, now, run.effect))
  }

  /** One source of a pass, checked at `now`: a source that is not an rss
      source with a url is passed over; otherwise it is fetched, and when
      the fetch succeeds and there is a keyword list its items are scanned
      and counted. A failed fetch is caught and the source skipped. */
  function SourceCheck(config: Config, st: MonitorState, source: Source, now: int, outcomes: seq<Attempt>, matcher: Matcher): Checked
    requires DefaultMaxRetries <= |outcomes|
  {
    if !IsPolled(source) then Checked(st, [], [])
    else
      var (result, cooldown) := FetchOutcome(st.cooldown, source, now, outcomes, DefaultMaxRetries);
      ScanFetched(config, st.(cooldown := cooldown), source, result, now, matcher)
  }

  /** What follows the fetch of a polled source, from the state `fetched`
      the fetch leaves: with a feed and a keyword list, the feed's items
      are scanned and counted; otherwise nothing is found. */
  function ScanFetched(config: Config, fetched: MonitorState, source: Source, result: FetchResult, now: int, matcher: Matcher): Checked {
    match result
    case FetchFailed(_) => Checked(fetched, [], [])
    case Fetched(feed) =>
      match KeywordsToUse(config, source)
      case None => Checked(fetched, [], [])
      case Some(keywords) =>
        var scan := ScanItems(source, feed.items, matcher(keywords), fetched.processed, now);
        Checked(fetched.(processed := scan.seen, totalProcessed := fetched.totalProcessed + |feed.items|,
                         matchedItems := fetched.matchedItems + |scan.items|),
                scan.items, scan.keys)
  }

  /** The cooldown table keeps every entry but the checked source's. */
  predicate SameEntriesBut(before: map<string, int>, after: map<string, int>, url: string) {
    && (forall u :: u in before && u != url ==> u in after && after[u] == before[u])
    && (forall u :: u in after && u != url ==> u in before)
  }

  /** What checking `source` from `st` gathered: items of that source that
      carry a match, none unless it is polled, one distinct key each that
      was not processed before and is now, and the match counter grown by
      their number. */
  predicate SourceGathered(st: MonitorState, c: Checked, source: Source) {
    && |c.items| == |c.keys|
    && FreshKeys(c.keys, st.processed)
    && c.state.processed == st.processed + (set k | k in c.keys)
    && (forall n :: 0 <= n < |c.items| ==> |c.items[n].matchedKeywords| > 0 && c.items[n].source == source.url)
    && (c.items != [] ==> IsPolled(source))
    && c.state.matchedItems == st.matchedItems + |c.items|
  }

  /** Checking one source: the items found come from that source, carry a
      match, and have fresh, distinct keys, which are exactly what joins the
      processed set and what the match counter grows by; only the source's
      own cooldown entry can change, as fetchFeed leaves it; a source that is
      not polled changes nothing. */
  lemma SourceCheckSpec(config: Config, st: MonitorState, source: Source, now: int, outcomes: seq<Attempt>, matcher: Matcher)
    requires DefaultMaxRetries <= |outcomes|
    ensures SourceGathered(st, SourceCheck(config, st, source, now, outcomes, matcher), source)
    ensures var c := SourceCheck(config, st, source, now, outcomes, matcher);
            && st.totalProcessed <= c.state.totalProcessed
            && SameEntriesBut(st.cooldown, c.state.cooldown, source.url)
            && (IsPolled(source) ==> c.state.cooldown == FetchOutcome(st.cooldown, source, now, outcomes, DefaultMaxRetries).1)
            && (!IsPolled(source) ==> c == Checked(st, [], []))
  {
    if IsPolled(source) {
      var (result, cooldown) := FetchOutcome(st.cooldown, source, now, outcomes, DefaultMaxRetries);
      if result.Fetched? && KeywordsToUse(config, source).Some? {
        var keywords := KeywordsToUse(config, source).value;
        var matchOf := matcher(keywords);
        var raw := result.feed.items;
        ScanItemsSpec(source, raw, matchOf, st.processed, now);
        var scan := ScanItems(source, raw, matchOf, st.processed, now);
        var pos := RecordedPositions(source, raw, matchOf, st.processed);
        forall n | 0 <= n < |scan.items| ensures |scan.items[n].matchedKeywords| > 0 && scan.items[n].source == source.url {
          assert pos[n] in pos;
        }
      }
    }
  }

  /** The first `n` sources of a pass, source k checked at `clock[k]` with
      the parse outcomes `fetches[k]`, one after the other. */
  function PassOver(config: Config, st: MonitorState, clock: seq<int>, fetches: seq<seq<Attempt>>, n: nat, matcher: Matcher): Checked
    requires n <= |config.sources| && n <= |clock| && n <= |fetches|
    requires forall k :: 0 <= k < |fetches| ==> DefaultMaxRetries <= |fetches[k]|
    decreases n
  {
    if n == 0 then Checked(st, [], [])
    else
      var before := PassOver(config, st, clock, fetches, n - 1, matcher);
      var step := SourceCheck(config, before.state, config.sources[n - 1], clock[n - 1], fetches[n - 1], matcher);
      Checked(step.state, before.items + step.items, before.keys + step.keys)
  }

  /** What a pass has gathered from `st` on: items from polled sources of
      `sources` that carry a match, one distinct key each that was not
      processed before and is now, and the match counter grown by their
      number. */
  predicate Gathered(st: MonitorState, c: Checked, sources: seq<Source>) {
    && |c.items| == |c.keys|
    && FreshKeys(c.keys, st.processed)
    && c.state.processed == st.processed + (set k | k in c.keys)
    && FromPolledSources(c.items, sources)
    && c.state.matchedItems == st.matchedItems + |c.items|
  }

  /** Appending one source's check to what the earlier sources gathered. */
  lemma GatheredStep(st: MonitorState, before: Checked, step: Checked, sources: seq<Source>, source: Source)
    requires source in sources
    requires Gathered(st, before, sources)
    requires SourceGathered(before.state, step, source)
    ensures Gathered(st, Checked(step.state, before.items + step.items, before.keys + step.keys), sources)
  {
    AppendFreshKeys(before.keys, step.keys, st.processed);
    AppendFromPolled(before.items, step.items, sources, source);
  }

  /** Over a pass, everything checked is gathered: the items come only from
      polled sources and carry a match; their keys are fresh for the whole
      pass and distinct, and are exactly what joins the processed set; the
      match counter grows by their number. */
  lemma {:induction false} PassOverSpec(config: Config, st: MonitorState, clock: seq<int>, fetches: seq<seq<Attempt>>, n: nat, matcher: Matcher)
    requires n <= |config.sources| && n <= |clock| && n <= |fetches|
    requires forall k :: 0 <= k < |fetches| ==> DefaultMaxRetries <= |fetches[k]|
    ensures Gathered(st, PassOver(config, st, clock, fetches, n, matcher), config.sources)
    decreases n
  {
    if n > 0 {
      PassOverSpec(config, st, clock, fetches, n - 1, matcher);
      var before := PassOver(config, st, clock, fetches, n - 1, matcher);
      var source := config.sources[n - 1];
      SourceCheckSpec(config, before.state, source, clock[n - 1], fetches[n - 1], matcher);
      var step := SourceCheck(config, before.state, source, clock[n - 1], fetches[n - 1], matcher);
      GatheredStep(st, before, step, config.sources, source);
    }
  }

  /** The entry for `u` of a cooldown table, or its absence, is kept. */
  predicate KeepsEntry(before: map<string, int>, after: map<string, int>, u: string) {
    && (u in after <==> u in before)
    && (u in before ==> after[u] == before[u])
  }

  /** Checking a source that is not polled, or has another url, keeps the
      cooldown entry of `u`. */
  lemma SourceCheckKeeps(config: Config, st: MonitorState, source: Source, now: int, outcomes: seq<Attempt>, u: string, matcher: Matcher)
    requires DefaultMaxRetries <= |outcomes|
    requires IsPolled(source) ==> source.url != u
    ensures KeepsEntry(st.cooldown, SourceCheck(config, st, source, now, outcomes, matcher).state.cooldown, u)
  {
    SourceCheckSpec(config, st, source, now, outcomes, matcher);
  }

  /** Over a pass, a url that no polled source of the pass has keeps its
      cooldown entry, or its absence. */
  lemma {:induction false} PassOverCooldown(config: Config, st: MonitorState, clock: seq<int>, fetches: seq<seq<Attempt>>, n: nat, u: string, matcher: Matcher)
    requires n <= |config.sources| && n <= |clock| && n <= |fetches|
    requires forall k :: 0 <= k < |fetches| ==> DefaultMaxRetries <= |fetches[k]|
    requires forall k :: 0 <= k < n && IsPolled(config.sources[k]) ==> config.sources[k].url != u
    ensures KeepsEntry(st.cooldown, PassOver(config, st, clock, fetches, n, matcher).state.cooldown, u)
    decreases n
  {
    if n > 0 {
      PassOverCooldown(config, st, clock, fetches, n - 1, u, matcher);
      var before := PassOver(config, st, clock, fetches, n - 1, matcher);
      SourceCheckKeeps(config, before.state, config.sources[n - 1], clock[n - 1], fetches[n - 1], u, matcher);
    }
  }

  // ---------------------------------------------------------------------
  // Saving across the checks of one session
  // ---------------------------------------------------------------------

  /** The list a check hands to `saveFeedItems`, if it saves at all. */
  function SaveArgument(saved: seq<FeedItem>, newItems: seq<FeedItem>): Option<seq<FeedItem>> {
    if |newItems| > 0 then Some(saved + newItems) else None
  }

  /** The last list saved in a session, as written: every check saves the
      items loaded at start-up followed by its own new items. */
  function LastSaveAsWritten(saved: seq<FeedItem>, checks: seq<seq<FeedItem>>): Option<seq<FeedItem>>
    decreases |checks|
  {
    if checks == [] then None
    else
      match SaveArgument(saved, checks[|checks| - 1])
      case Some(all) => Some(all)
      case None => LastSaveAsWritten(saved, checks[..|checks| - 1])
  }

  /** Two checks that each find one new match: the second save drops the
      first match. */
  lemma EarlierMatchDropped(saved: seq<FeedItem>, x: FeedItem, y: FeedItem)
    requires x !in saved && x != y
    ensures LastSaveAsWritten(saved, [[x], [y]]) == Some(saved + [y])
    ensures x !in LastSaveAsWritten(saved, [[x], [y]]).value
  {
  }

  function Flatten(checks: seq<seq<FeedItem>>): seq<FeedItem>
    decreases |checks|
  {
    if checks == [] then [] else Flatten(checks[..|checks| - 1]) + checks[|checks| - 1]
  }

  /** The last list saved in a session when each save also becomes the
      base of the next one. */
  function LastSave(saved: seq<FeedItem>, checks: seq<seq<FeedItem>>): Option<seq<FeedItem>>
    decreases |checks|
  {
    if checks == [] then None
    else
      var before := LastSave(saved, checks[..|checks| - 1]);
      var base := if before.Some? then before.value else saved;
      match SaveArgument(base, checks[|checks| - 1])
      case Some(all) => Some(all)
      case None => before
  }

  /** With accumulating saves the last save holds the start-up items
      followed by every match of every check, in order. */
  lemma {:induction false} LastSaveKeepsEveryMatch(saved: seq<FeedItem>, checks: seq<seq<FeedItem>>)
    ensures LastSave(saved, checks) == if Flatten(checks) == [] then None else Some(saved + Flatten(checks))
    decreases |checks|
  {
    if checks != [] {
      var init, last := checks[..|checks| - 1], checks[|checks| - 1];
      LastSaveKeepsEveryMatch(saved, init);
      assert Flatten(checks) == Flatten(init) + last;
      if last == [] {
        assert Flatten(checks) == Flatten(init);
      } else if Flatten(init) == [] {
        assert Flatten(checks) == last;
      } else {
        assert saved + Flatten(init) + last == saved + (Flatten(init) + last);
      }
    }
  }

  // ---------------------------------------------------------------------
  // The monitor's state
  // ---------------------------------------------------------------------

  class Monitor {
    /** `failingSourcesCooldown`: URL to the time the cooldown ends. */
    var cooldown: map<string, int>
    /** The keys of `processedItems`. */
    var processed: set<string>
    var totalProcessed: nat
    var matchedItems: nat
    const config: Config
    /** The items loaded at start-up; every save extends this same list
        (see LastSaveAsWritten). */
    const savedItems: seq<FeedItem>
    /** How items are matched: `findKeywordMatches` on the item's text,
        as the constructor fixes it. */
    const matcher: Matcher

    function State(): MonitorState
      reads this
    {
      MonitorState(cooldown, processed, totalProcessed, matchedItems)
    }

    /** `startMonitoring` up to the first check: processedItems is seeded
        with the keys of the stored items. */
    constructor (config: Config, savedItems: seq<FeedItem>)
      ensures this.config == config && this.savedItems == savedItems && matcher == MatchesWith
      ensures cooldown == map[] && totalProcessed == 0 && matchedItems == 0
      ensures processed == set i | 0 <= i < |savedItems| :: StoredKey(savedItems[i])
    {
      this.config := config;
      this.savedItems := savedItems;
      matcher := MatchesWith;
      cooldown := map[];
      totalProcessed := 0;
      matchedItems := 0;
      var keys: set<string> := {};
      for i := 0 to |savedItems|
        invariant keys == set j | 0 <= j < i :: StoredKey(savedItems[j])
      {
        keys := keys + {StoredKey(savedItems[i])};
      }
      processed := keys;
    }

    /** `fetchFeed(parser, source, maxRetries)` started at time `now`;
        attempt k's outcome is `outcomes[k - 1]`. Also returns the waits
        between attempts and the number of attempts made. */
    method FetchFeed(source: Source, now: int, outcomes: seq<Attempt>, maxRetries: int)
      returns (r: FetchResult, waits: seq<nat>, attempts: nat)
      requires maxRetries <= |outcomes|
      modifies this`cooldown
      ensures CoolingDown(old(cooldown), source.url, now) ==>
                r == FetchFailed(InCooldown) && waits == [] && attempts == 0 && cooldown == old(cooldown)
      ensures !CoolingDown(old(cooldown), source.url, now) ==>
                var run := RetryFrom(outcomes, maxRetries, 1, NothingThrown);
                && r == run.result && waits == run.waits && attempts == run.attempts
                && cooldown == AfterRun(old(cooldown), source.url, now, run.effect)
    {
      var sourceKey := source.url;
      if CoolingDown(cooldown, sourceKey, now) {
        return FetchFailed(InCooldown), [], 0;
      }
      var lastError := NothingThrown;
      var attempt: nat := 1;
      waits := [];
      while attempt <= maxRetries
        invariant 1 <= attempt
        invariant cooldown == old(cooldown)
        invariant RetryFrom(outcomes, maxRetries, 1, NothingThrown)
                    == Delayed(waits, RetryFrom(outcomes, maxRetries, attempt, lastError))
        decreases maxRetries - attempt
      {
        RetryStep(outcomes, maxRetries, attempt, lastError, waits);
        match outcomes[attempt - 1] {
          case Parsed(feed) =>
            cooldown := cooldown - {sourceKey};
            return Fetched(feed), waits, attempt;
          case Threw(error) =>
            lastError := Rethrown(error);
            var c := Classify(error);
            if IsFatal(c) {
              cooldown := cooldown[sourceKey := now + CooldownDuration];
              return FetchFailed(lastError), waits, attempt;
            }
            if c == TimeoutOrSocket && attempt == maxRetries {
              cooldown := cooldown[sourceKey := now + CooldownDuration];
              return FetchFailed(lastError), waits, attempt;
            }
            if attempt < maxRetries {
              waits := waits + [Backoff(attempt)];
            } else {
              // Max retries reached: the loop ends and rethrows lastError.
              cooldown := cooldown[sourceKey := now + CooldownDuration];
              return FetchFailed(lastError), waits, attempt;
            }
        }
        attempt := attempt + 1;
      }
      return FetchFailed(lastError), waits, attempt - 1;
    }

    /** One pass of the item loop, given the keys seen so far and the
        matches `matchOf` finds: when the item's key is new and the item
        matches, it is recorded. */
    static method ScanItem(source: Source, item: RawItem, matchOf: RawItem -> seq<KeywordMatch>, now: int, seen: set<string>)
      returns (added: Option<FeedItem>, itemKey: string, seen': set<string>)
      ensures itemKey == ItemKey(source.url, item.title)
      ensures itemKey in seen || |matchOf(item)| == 0 ==> added == None && seen' == seen
      ensures itemKey !in seen && |matchOf(item)| > 0 ==>
                added == Some(NewFeedItem(source, item, matchOf(item), now)) && seen' == seen + {itemKey}
    {
      added, seen' := None, seen;
      itemKey := ItemKey(source.url, item.title);
      if itemKey !in seen {
        var matches := matchOf(item);
        if |matches| > 0 {
          added := Some(NewFeedItem(source, item, matches, now));
          seen' := seen + {itemKey};
        }
      }
    }

    /** The item loop of one fetched feed. */
    method ScanFeed(source: Source, raw: seq<RawItem>, keywords: seq<Keyword>, now: int)
      returns (found: seq<FeedItem>, keys: seq<string>)
      modifies this`processed, this`totalProcessed, this`matchedItems
      ensures Scan(found, keys, processed) == ScanItems(source, raw, matcher(keywords), old(processed), now)
      ensures totalProcessed == old(totalProcessed) + |raw|
      ensures matchedItems == old(matchedItems) + |found|
    {
      found, keys := [], [];
      var matchOf := matcher(keywords);
      var seen := processed;
      assert raw[0..] == raw;
      for k := 0 to |raw|
        invariant ScanItems(source, raw, matchOf, old(processed), now)
                    == Prepend(found, keys, ScanItems(source, raw[k..], matchOf, seen, now))
        invariant unchanged(this)
      {
        ScanAdvance(source, raw, k, matchOf, old(processed), seen, found, keys, now);
        var added, itemKey;
        added, itemKey, seen := ScanItem(source, raw[k], matchOf, now, seen);
        if added.Some? {
          found, keys := found + [added.value], keys + [itemKey];
        }
      }
      assert raw[|raw|..] == [];
      // The source bumps both counters inside the loop; nothing reads them
      // before the loop ends.
      processed := seen;
      totalProcessed := totalProcessed + |raw|;
      matchedItems := matchedItems + |found|;
    }

    /** One source of a `checkFeeds` pass, fetched at `now`: the items it
        adds and their keys, and the new state, are those of SourceCheck. */
    method CheckSource(source: Source, now: int, outcomes: seq<Attempt>)
      returns (found: seq<FeedItem>, foundKeys: seq<string>)
      requires DefaultMaxRetries <= |outcomes|
      modifies this`cooldown, this`processed, this`totalProcessed, this`matchedItems
      ensures Checked(State(), found, foundKeys) == SourceCheck(config, old(State()), source, now, outcomes, matcher)
    {
      found, foundKeys := [], [];
      if IsPolled(source) {
        ghost var fetch := FetchOutcome(cooldown, source, now, outcomes, DefaultMaxRetries);
        var feed, _, _ := FetchFeed(source, now, outcomes, DefaultMaxRetries);
        assert feed == fetch.0 && State() == old(State()).(cooldown := fetch.1);
        if feed.Fetched? {
          var keywordsToUse := KeywordsToUse(config, source);
          if keywordsToUse.Some? {
            found, foundKeys := ScanFeed(source, feed.feed.items, keywordsToUse.value, now);
          }
        }
      }
    }

    /** One `checkFeeds` pass. Source i is fetched at time `clock[i]` with
        the parse outcomes `fetches[i]`. The new state and the new items
        are those of PassOver over all the sources, and when there are new
        items the list saved is the start-up list followed by them. */
    method CheckFeeds(clock: seq<int>, fetches: seq<seq<Attempt>>)
      returns (newItems: seq<FeedItem>, keys: seq<string>, save: Option<seq<FeedItem>>)
      requires |clock| == |config.sources| && |fetches| == |config.sources|
      requires forall i :: 0 <= i < |fetches| ==> DefaultMaxRetries <= |fetches[i]|
      modifies this`cooldown, this`processed, this`totalProcessed, this`matchedItems
      ensures Checked(State(), newItems, keys) == PassOver(config, old(State()), clock, fetches, |config.sources|, matcher)
      ensures Gathered(old(State()), Checked(State(), newItems, keys), config.sources)
      ensures save == SaveArgument(savedItems, newItems)
    {
      newItems, keys := [], [];
      for i := 0 to |config.sources|
        invariant Checked(State(), newItems, keys) == PassOver(config, old(State()), clock, fetches, i, matcher)
      {
        var found, foundKeys := CheckSource(config.sources[i], clock[i], fetches[i]);
        newItems, keys := newItems + found, keys + foundKeys;
      }
      PassOverSpec(config, old(State()), clock, fetches, |config.sources|, matcher);
      save := SaveArgument(savedItems, newItems);
    }
  }
}
