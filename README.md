# market-monitor, modelled in Dafny

market-monitor polls RSS feeds for keywords. Its core is made of six parts:

- **The monitor loop.** `checkFeeds` walks the configured sources. For each one it fetches the feed through `fetchFeed`, which adds retries, exponential backoff and a 15-minute cooldown for failing sources. It scores every feed item that has not been seen yet against a keyword list, records the items that match, and saves them through the storage service.
- **The keyword matcher.** It handles exact, phrase and fuzzy (Levenshtein) rules with weights, and keeps a match only if it scores at least 4.
- **Storage.** The store keeps items for 30 days, newest first, up to 2000 of them.
- **Configuration.** The configuration validator checks the shape of a config file.
- **The `keywords` command.** It adds a keyword to a config file, or removes several keywords from it.
- **The terminal UI.** This covers the app shell and its screen switching, the matches table with its change detection, formatting and detail view, the navigable table, the selection list and the pm2 status probe.

The monitor works as follows:

- it fetches the sources one after another, within one `checkFeeds` pass;
- `fetchFeed` retries a failed parse with exponential backoff, and gives up at once on an error that looks fatal;
- an item is known by its `source-title` key, and a key already seen is never recorded again;
- the recorded items are ordered only by the storage and display sorts.

Modelling conventions:

- **Scores are in fifths.** A source score `s` is held as the integer `5·s`, so `10·(w/5)` and `8·(w/5)` stay exact. The `>= 4` threshold becomes `>= 20`. The display colours (score `>= 8` green, `>= 5` yellow) become `>= 40` and `>= 25`. `Math.round` is stated for a positive divisor: half rounds up.
- **Whatever the environment supplies becomes a parameter:**
  - the clock;
  - the outcome of each parse attempt (`Attempt`);
  - the parsed JSON of a config file;
  - the pm2 process list;
  - the stored file.
- **Dates are integers.** They are milliseconds, and an ISO date string is represented by its millisecond value.
- **Strings are `seq<char>`.** `toLowerCase` is the ASCII fold, and `split(/\s+/)` is modelled exactly, including its empty leading and trailing fields.
- **React state is a Dafny class.** Components with hook state are classes whose fields are that state. Each handler is a method that changes the state the same way the setters do.

## Model

| member | source | states |
|---|---|---|
| KeywordMatcher.NormalizeKeyword | src/services/keyword-matcher.ts:10-24 | a bare string becomes a case-insensitive fuzzy rule of weight 5; a rule keeps value and type and only gains `caseSensitive: false` / `weight: 5` where it lacks them |
| KeywordMatcher.NormalizeKeywordIdempotent | src/services/keyword-matcher.ts:19-23 | normalising an already normalised rule changes nothing |
| KeywordMatcher.CalculateLevenshteinDistance | src/services/keyword-matcher.ts:26-52 | the matrix-filling loops return exactly the Levenshtein distance `EditDistance(a, b)` |
| KeywordMatcher.FillRow | src/services/keyword-matcher.ts:38-49 | one pass of the inner loop fills row i of the matrix with the distances between the prefixes of a and the first i characters of b, leaving every other row as it was |
| KeywordMatcher.EditDistanceStep | src/services/keyword-matcher.ts:39-47 | each matrix cell follows from its three neighbours: the diagonal on equal characters, otherwise one more than the least neighbour |
| KeywordMatcher.EditDistanceBase | src/services/keyword-matcher.ts:29-35 | the first row and column of the matrix: distance to the empty string is the length, distance to itself is 0 |
| KeywordMatcher.EditDistanceBounds | src/services/keyword-matcher.ts:37-51 | the distance is at least the difference of the lengths and at most the longer length |
| KeywordMatcher.EditDistanceZeroIff | src/services/keyword-matcher.ts:37-51 | the distance is 0 exactly when the two strings are equal |
| KeywordMatcher.EditDistanceSymmetric | src/services/keyword-matcher.ts:37-51 | swapping the arguments does not change the distance |
| KeywordMatcher.EscapeRegExpIsLiteral | src/services/keyword-matcher.ts:72 | the escaped value, read back as a pattern, is the literal value itself: every regex syntax character is escaped |
| KeywordMatcher.PhraseTestIsSubstring | src/services/keyword-matcher.ts:72-73 | the phrase regex built from the escaped value matches exactly when the value occurs in the text |
| KeywordMatcher.RoundDiv | src/services/keyword-matcher.ts:100 | the result is the integer nearest to p/q, a half rounding up |
| KeywordMatcher.BestWordIndexSpec | src/services/keyword-matcher.ts:84-98 | the fuzzy loop settles on the first word of least distance within floor(0.3·length); it finds none exactly when every word is farther than that |
| KeywordMatcher.BestWordIndexNone | src/services/keyword-matcher.ts:84-98 | the fuzzy loop finds no word exactly when every word is farther than floor(0.3·length) |
| KeywordMatcher.BestWordIndexClosest | src/services/keyword-matcher.ts:84-98 | the word it settles on is within the bound, no word is closer, and every earlier word is farther |
| KeywordMatcher.SearchText | src/services/keyword-matcher.ts:55-56 | case folding keeps the length |
| KeywordMatcher.RuleMatch | src/services/keyword-matcher.ts:54-111 | a match names the rule's own value and match type |
| KeywordMatcher.ExactRuleMatch | src/services/keyword-matcher.ts:55-69 | an exact rule matches exactly when the folded value occurs in the folded text, and then scores 10·(w/5) |
| KeywordMatcher.PhraseRuleMatch | src/services/keyword-matcher.ts:71-81 | a phrase rule matches exactly when the folded value occurs in the text, and then scores 8·(w/5) |
| KeywordMatcher.FuzzyRuleMatch | src/services/keyword-matcher.ts:83-107 | a fuzzy rule matches exactly when some word is within the distance bound, and then scores round((1 − d/len)·10·(w/5)) for the best word's distance d |
| KeywordMatcher.FuzzyMatchSpec | src/services/keyword-matcher.ts:84-107 | on the split words, a fuzzy match exists exactly when some word is within the bound, and its score comes from a word no other word is closer than |
| KeywordMatcher.RuleMatchIgnoresContentCase | src/services/keyword-matcher.ts:55 | for a case-insensitive rule, lower-casing the content does not change the result |
| KeywordMatcher.RuleMatchIgnoresValueCase | src/services/keyword-matcher.ts:56 | for a case-insensitive rule, values that differ only in case match the same texts with the same scores |
| KeywordMatcher.FindMatches | src/services/keyword-matcher.ts:54-111 | the method, word loop included, returns exactly RuleMatch |
| KeywordMatcher.KeptMatch | src/services/keyword-matcher.ts:116-123 | a keyword contributes only a match scoring at least 4, and that match names the normalised value |
| KeywordMatcher.KeywordMatchesSpec | src/services/keyword-matcher.ts:113-125 | at most one match per keyword; every match scores at least 4; the matches are sorted by score, highest first; the list is a permutation of the kept matches of the keywords, in keyword order |
| KeywordMatcher.FindKeywordMatches | src/services/keyword-matcher.ts:113-125 | the push loop followed by the sort returns KeywordMatches |
| Sorting.SortDesc | src/services/keyword-matcher.ts:125 | sorting with `(a, b) => key(b) - key(a)` yields a permutation in non-increasing key order |
| Sorting.InsertSorted | src/services/keyword-matcher.ts:125 | inserting into a list in non-increasing key order keeps that order |
| Sorting.SortDescMembers | src/services/keyword-matcher.ts:125 | sorting neither adds nor loses an element |
| Sorting.SortDescStable | src/services/keyword-matcher.ts:125 | the sort is stable: the elements of any one key come out in the order they went in |
| Sorting.InsertStable | src/services/keyword-matcher.ts:125 | insertion puts the new element ahead of the others with its key and moves no element past one of the same key |
| Sorting.TopSpec | src/services/storage.ts:26-32 | `filter`, the descending `sort` and `slice(0, n)` keep min(n, passing) passing elements in non-increasing key order: all of them when they fit, otherwise a passing element left out has a key no greater than any kept one |
| Sorting.TakeLeavesSmaller | src/services/storage.ts:32 | `slice(0, n)` of a sorted list leaves out only elements with keys no greater than every kept one |
| Sorting.FilterMembers | src/ui/components/MatchesDisplay.tsx:144 | an element survives the filter exactly when it is in the list and passes the test |
| Sorting.FilterMapSpec | src/services/keyword-matcher.ts:116-123 | the conditional push loop yields at most one value per element, and yields exactly the values some element produces |
| Text.SplitOnSpaces | src/services/keyword-matcher.ts:84 | `split(/\s+/)` gives at least one piece and no piece contains a space character |
| Words.SplitOnSpacesKeepsText | src/services/keyword-matcher.ts:84 | splitting loses only the spaces: the pieces glued back together are the text with its space characters removed, in order |
| Text.ContainsAt | src/services/keyword-matcher.ts:61 | `includes` holds exactly when the value occurs at some position of the text |
| Text.ToLowerIdempotent | src/services/keyword-matcher.ts:55-56 | lower-casing twice is lower-casing once |
| Text.NatToStringValue | src/ui/components/MatchesDisplay.tsx:68 | the decimal digits printed for a number read back as that number |
| Text.IntToStringRoundTrip | src/ui/components/MatchesDisplay.tsx:68 | the printed integer `${n}` parses back to n, so distinct numbers print differently |
| Storage.RetainSpec | src/services/storage.ts:22-32 | the retained items are all newer than 30 days before now, newest first, and drawn from the input; they number min(recent, 2000); when at most 2000 are recent every recent item is kept, and otherwise a recent item left out is no newer than any kept one |
| Storage.RetainKept | src/services/storage.ts:26-32 | the kept items are recent, newest first, taken from the input, and min(recent, 2000) in number |
| Storage.RetainKeepsRecent | src/services/storage.ts:26-32 | all recent items are kept when at most 2000 are recent; otherwise only ones at least as new as every recent item dropped |
| Storage.RetainKeepsAllRecent | src/services/storage.ts:26-32 | when every item is recent and there are at most 2000, the retention chain keeps them all |
| Storage.SaveFeedItems | src/services/storage.ts:16-44 | the file receives the retained list, and the removed count `items.length - filteredItems.length` is never negative |
| Storage.LoadFeedItems | src/services/storage.ts:46-57 | the stored `items` list when the file exists, parses and has one; otherwise the empty list |
| ConfigLoader.EverySourceValid | src/config/index.ts:10-17 | `sources.every(...)` accepts exactly when every source is `rss` with a string url and has no truthy optional field of the wrong type; it throws on a null entry |
| ConfigLoader.ValidConfigShape | src/config/index.ts:5-19 | a valid config is an object whose `keywords` and `sources` are arrays; every source is non-null and passes the shape test: type rss, a string url, and each truthy optional field of its type |
| ConfigLoader.EmptySourcesValid | src/config/index.ts:8-10 | an object with array keywords and an empty sources array is valid |
| ConfigLoader.FalsyOptionalFieldsPass | src/config/index.ts:13-16 | falsy optional fields (0, "", false, null) pass whatever their type |
| ConfigLoader.LoadConfig | src/config/index.ts:21-35 | the config is returned exactly when the JSON parses and validates; every other case is an error |
| Monitor.FatalMessages | dist/services/monitor.js:41-57 | an Error whose lower-cased message contains enotfound, forbidden, unauthorized, tls, ssl or certificate is fatal, and no other error is; a timeout or socket error, or any other one, is retried until the last attempt |
| Monitor.Backoff | dist/services/monitor.js:67 | the delay never exceeds 5000 ms |
| Monitor.BackoffValues | dist/services/monitor.js:67 | the delays after attempts 1, 2 and 3 are 1000, 2000 and 4000 ms, and 5000 ms from attempt 4 on |
| Monitor.RetryFromSpec | dist/services/monitor.js:33-75 | the retry loop stops at the first success, at the first fatal error, or after maxRetries attempts. Every earlier attempt failed retryably and was followed by one backoff wait. The cooldown is cleared on success and armed on a fatal or final failure |
| Monitor.RetryStep | dist/services/monitor.js:33-75 | one attempt of the loop: a parsed feed ends the run with the cooldown cleared; a fatal failure or one on the last attempt ends it with the cooldown armed; any other failure waits its backoff and goes on to the next attempt |
| Monitor.NoAttemptsAllowed | dist/services/monitor.js:32-33 | with maxRetries below 1 no attempt is made and `lastError` (undefined) is thrown |
| Monitor.AfterRun | dist/services/monitor.js:36 | a success deletes the source's cooldown entry, and a fatal or final failure sets it to now + 15 minutes; other entries are untouched |
| Monitor.OrElse | dist/services/monitor.js:138 | `x \|\| fallback` for an optional string: the value when present and non-empty, otherwise the fallback |
| Monitor.NewFeedItem | dist/services/monitor.js:137-154 | the recorded item carries the title or "", the link or the source url, the source url, the addition time and the matches |
| Monitor.KeywordsToUse | dist/services/monitor.js:117-127 | the global keywords when `useGlobalKeywords` is true, otherwise the source's own list; none means the source is skipped |
| Monitor.ScanItems | dist/services/monitor.js:128-163 | one recorded key per recorded item |
| Monitor.RecordedPositionsSpec | dist/services/monitor.js:128-163 | the positions of the feed that the item loop records are increasing and within the feed, and a position is recorded exactly when its item has an unseen key and is the first of that key to have a match |
| Monitor.FirstNewStep | dist/services/monitor.js:130-134 | dropping the first feed item: a later item is the first with its key to match, against the seen set the first item leaves, exactly when it was so in the whole feed |
| Monitor.ScanItemsSpec | dist/services/monitor.js:128-163 | the item loop records, at increasing feed positions, exactly the items whose key is unseen and that are the first of their key to have a match. The i-th recorded item is the stored record of the feed item at the i-th position, with its matches and the time, and its key is that item's `source-title`. Recorded keys are fresh and distinct, and the seen set grows by exactly them |
| Monitor.ScanKeys | dist/services/monitor.js:128-163 | the seen set grows by exactly the recorded keys, which are fresh and pairwise distinct |
| Monitor.RecordsAtCons | dist/services/monitor.js:128-163 | recording the first feed item in front of the records of the rest gives the records of the whole feed, with the positions of the rest shifted by one |
| Monitor.ScanRecords | dist/services/monitor.js:128-163 | each recorded item is the stored record (`NewFeedItem`) of the feed item at its recorded position, with that item's matches and the time, and its key is that item's `source-title` |
| Monitor.ScanComplete | dist/services/monitor.js:128-163 | the seen set only grows, the key of every matching item ends in it, and the first item of an unseen key to have a match is recorded as its `NewFeedItem` |
| Monitor.EarlierMatchDropped | dist/services/monitor.js:173-176 | as written, two checks that each find one new item save only the start-up items and the second item, so the first item is lost |
| Monitor.LastSaveKeepsEveryMatch | dist/services/monitor.js:173-176 | with each save used as the base of the next, the last save holds the start-up items and then every new item of every check, in order |
| Monitor.Monitor.constructor | dist/services/monitor.js:103-107 | the processed-key set is seeded with `source-title` of every stored item; the counters start at 0 and the cooldown map is empty; the monitor keeps its config and stored items, and matches items with `findKeywordMatches` on their text (MatchesWith) |
| Monitor.Monitor.FetchFeed | dist/services/monitor.js:22-76 | a source in cooldown fails at once, with no attempt and nothing changed; otherwise the result, the waits and the attempt count are those of RetryFrom, and the cooldown map is updated as AfterRun says |
| Monitor.Monitor.ScanItem | dist/services/monitor.js:130-159 | one item: a seen key or no match records nothing; otherwise the item is recorded with its matches under the keyword list in use and its key joins the seen set |
| Monitor.Monitor.ScanFeed | dist/services/monitor.js:128-163 | the item loop's result and new processed set are those of ScanItems; totalProcessed grows by the feed length and matchedItems by the number recorded |
| Monitor.SourceCheckSpec | dist/services/monitor.js:111-171 | checking one source: the found items carry the source url and a match, and their keys are fresh and distinct and are what joins the processed set; the match counter grows by their number; only the source's own cooldown entry changes, as `fetchFeed` leaves it; a source that is not rss with a url changes nothing |
| Monitor.PassOverSpec | dist/services/monitor.js:108-172 | over a pass: the new items come only from polled sources and carry a match, their keys are fresh for the whole pass and are what joins the processed set, and the match counter grows by their number |
| Monitor.PassOverCooldown | dist/services/monitor.js:108-172 | over a pass, the cooldown entry of a url that no polled source has is unchanged |
| Monitor.Monitor.CheckSource | dist/services/monitor.js:111-171 | one source: the new state and the found items are those of SourceCheck with the monitor's matcher. A source that is not rss with a url is passed over unchanged. Otherwise the cooldown map is as the fetch leaves it, and a failed fetch or a missing keyword list finds nothing. Otherwise the feed's items are scanned as ScanItems says, totalProcessed grows by the feed length and matchedItems by the number found |
| Monitor.Monitor.CheckFeeds | dist/services/monitor.js:108-179 | all sources, in order: the new state and the new items are the fold PassOver of SourceCheck over the sources with the monitor's matcher, so they meet PassOverSpec. A pass with new items saves the start-up items followed by them, as written |
| KeywordsCommand.LabelIndexRoundTrip | dist/cli/commands/keywords.js:14-19 | the leading number of a checkbox label is the keyword's 1-based position |
| KeywordsCommand.NumberedLabel | dist/cli/commands/keywords.js:14-19 | a run of digits followed by `. ` reads back as its value minus one, whatever follows |
| KeywordsCommand.LabelsDistinct | dist/cli/commands/keywords.js:76-79 | labels for different positions are different |
| KeywordsCommand.KeepPickedPartition | dist/cli/commands/keywords.js:94-97 | the kept and the removed keywords together are a permutation of the original list |
| KeywordsCommand.DescendingIndices | dist/cli/commands/keywords.js:93 | sorting distinct indices with `(a, b) => b - a` gives the same indices, strictly decreasing |
| KeywordsCommand.SpliceStep | dist/cli/commands/keywords.js:95-97 | splicing out a position below every position already removed takes the original element there and leaves exactly the survivors of the larger removal |
| KeywordsCommand.Reversed | dist/cli/commands/keywords.js:100 | `removed.reverse()` holds the same keywords in the opposite order |
| KeywordsCommand.SpliceOut | dist/cli/commands/keywords.js:94-97 | splicing positions out from the highest down leaves the keywords at the unselected positions, in order. The removed keywords are collected from the highest position down. The list shrinks by the number of indices |
| KeywordsCommand.KeywordEditor.constructor | dist/cli/commands/keywords.js:31 | the editor holds the loaded config |
| KeywordsCommand.KeywordEditor.Add | dist/cli/commands/keywords.js:29-46 | the new rule is appended to the first source's keywords and nothing else changes; with no such list the command fails and the config is not written |
| KeywordsCommand.KeywordEditor.Remove | dist/cli/commands/keywords.js:73-113 | no keyword list: an error and no save. No selection: nothing removed or saved. Otherwise the first source keeps its unselected keywords, the config is saved, and the removed keywords are returned in ascending position order |
| MonitorStatus.UptimePartsSpec | dist/services/monitor-status.js:24-36 | the uptime shows days and hours from one day on, hours and minutes from one hour, minutes and seconds from one minute, and otherwise seconds; each part is the floored count of its unit modulo the next |
| MonitorStatus.FindMonitor | dist/services/monitor-status.js:8 | the first process named `market-monitor`, or none when no process has the name |
| MonitorStatus.IsRunningSpec | dist/services/monitor-status.js:4-23 | the monitor is reported running exactly when the list is readable, it holds a `market-monitor` process, and that process's status is `online`; a failed probe or a missing process gives the not-running record |
| MatchesDisplay.ValidItemsSpec | src/ui/components/MatchesDisplay.tsx:57-64 | the listed items each have at least one match and every match has a keyword; they are newest-added first and taken from the input; there are min(listable, 25) of them; when at most 25 are listable all are shown, and otherwise a listable item left out was added no later than any shown one |
| MatchesDisplay.ValidItemsKept | src/ui/components/MatchesDisplay.tsx:57-64 | the shown items are listable, newest-added first, taken from the input and min(listable, 25) in number |
| MatchesDisplay.ValidItemsNewest | src/ui/components/MatchesDisplay.tsx:63-64 | all listable items are shown when at most 25 are listable; otherwise only ones added no earlier than every one left out |
| MatchesDisplay.ViewOfInjective | src/ui/components/MatchesDisplay.tsx:67-81 | two items project to the same compared record (`id`, title, content, matches, addedAt) exactly when their link, addedAt, title, content and matches agree |
| MatchesDisplay.HasChangesSpec | src/ui/components/MatchesDisplay.tsx:83-88 | no change is reported exactly when the two lists have the same length and agree item by item on the compared fields |
| MatchesDisplay.FormatScoreRoundTrip | src/ui/components/MatchesDisplay.tsx:153 | `${k.score}` prints the value fifths/5 exactly: reading the printed text back (digits, and one decimal digit when the score is not whole) gives the score again |
| MatchesDisplay.UnsignedScoreRoundTrip | src/ui/components/MatchesDisplay.tsx:153 | a non-negative printed score reads back as its number of fifths |
| MatchesDisplay.TopMatchesSpec | src/ui/components/MatchesDisplay.tsx:144-150 | the shown matches are valid ones of the item, highest score first, min(n, valid) of them, and a valid match left out scores no higher than any shown one |
| MatchesDisplay.TopMatchesNonEmpty | src/ui/components/MatchesDisplay.tsx:144-150 | some match is shown whenever the item has a valid match and n is positive |
| MatchesDisplay.TopMatchesComplete | src/ui/components/MatchesDisplay.tsx:144-150 | every valid match is shown when there are at most n of them |
| MatchesDisplay.FormatKeywordsSpec | src/ui/components/MatchesDisplay.tsx:139-155 | the cell is `-` exactly when the item has no valid match; otherwise it is the top three scores joined by commas |
| MatchesDisplay.FormatContentSpec | src/ui/components/MatchesDisplay.tsx:157-163 | when expanded, or when it has at most 120 chars, the content is shown whole; otherwise only its first 120 chars, followed by `...` |
| MatchesDisplay.ShownTitle | src/ui/components/MatchesDisplay.tsx:169 | a title of at most 50 chars is shown whole, a longer one as its first 50 chars followed by `...` |
| MatchesDisplay.TitleCell | src/ui/components/MatchesDisplay.tsx:168-173 | the new-marker prefixes the title exactly for the first three rows |
| MatchesDisplay.TableRows | src/ui/components/MatchesDisplay.tsx:165-177 | one row per listed item, holding its title cell and score cell |
| MatchesDisplay.ScoreColourMonotone | src/ui/components/MatchesDisplay.tsx:203 | a higher score never gets a worse colour; the green and yellow boundaries are at scores 8 and 5 |
| MatchesDisplay.MatchesView.constructor | src/ui/components/MatchesDisplay.tsx:34-39 | the initial state: no matches, nothing selected, content collapsed, not running, mounted |
| MatchesDisplay.MatchesView.Unmount | src/ui/components/MatchesDisplay.tsx:107-108 | unmounting clears the mounted flag |
| MatchesDisplay.MatchesView.LoadDataFrom | src/ui/components/MatchesDisplay.tsx:46-103 | a run of the closure of a render whose list was `captured`: an unmounted view ignores the load. Otherwise it takes the monitor status, and replaces the list with the valid items and updates the time of the last update exactly when they differ from `captured` |
| MatchesDisplay.MatchesView.LoadData | src/ui/components/MatchesDisplay.tsx:46-103 | the current render's `loadData`, as the activation effect runs it: the comparison is with the list on screen |
| MatchesDisplay.StaleRefreshReportsChange | src/ui/components/MatchesDisplay.tsx:83-97 | against the initial empty list any non-empty list is a change, while a list compared with itself never is |
| MatchesDisplay.MatchesView.HandleSelectMatch | src/ui/components/MatchesDisplay.tsx:132-137 | a mounted view selects the item at the index (none when out of range) and collapses the content |
| MatchesDisplay.MatchesView.HandleInput | src/ui/components/MatchesDisplay.tsx:122-130 | when active, mounted and with a selection: return opens the selected link, `e` toggles full content; otherwise nothing happens |
| Navigation.UpDownInRange | src/ui/components/SimpleTable.tsx:31-35 | moving up or down, with wrap-around, stays within the rows |
| Navigation.UpDownInverse | src/ui/components/CustomSelect.tsx:29-33 | moving up then down, or down then up, returns to the same row |
| SimpleTable.StepInRange | src/ui/components/SimpleTable.tsx:30-40 | a key press leaves the selection in range and reports only in-range indices |
| SimpleTable.StepIsLastMove | src/ui/components/SimpleTable.tsx:30-40 | the selection after a key press is set by the last of the return, down and up tests that applies |
| SimpleTable.OtherKeysIgnored | src/ui/components/SimpleTable.tsx:27-41 | a key that is neither up, down nor return changes nothing and reports nothing |
| SimpleTable.NavigateInRange | src/ui/components/SimpleTable.tsx:18-41 | any sequence of key presses keeps the selection within the rows |
| SimpleTable.SeparatorWidthAppend | src/ui/components/SimpleTable.tsx:56 | the separator width of joined column lists is the sum of their widths |
| SimpleTable.SeparatorWidthIsSum | src/ui/components/SimpleTable.tsx:56 | the `reduce` gives the sum of the column widths plus one per column |
| SimpleTable.Table.constructor | src/ui/components/SimpleTable.tsx:17-18 | the selection starts at 0 with nothing reported |
| SimpleTable.Table.HandleIndexChange | src/ui/components/SimpleTable.tsx:20-25 | the selection becomes the index, which is reported when there is a listener |
| SimpleTable.Table.HandleInput | src/ui/components/SimpleTable.tsx:27-41 | without a listener or when inactive nothing changes. Otherwise the up, down and return tests each apply to the selection read before the press; the last applicable test decides the new selection and every applicable test reports |
| CustomSelect.FindIndex | src/ui/components/CustomSelect.tsx:18 | the index of the first item with the value, or none when no item has it |
| CustomSelect.MarkedRows | src/ui/components/CustomSelect.tsx:44-54 | exactly the selected row is rendered with the `> ` marker, and every other row with two spaces |
| CustomSelect.Select.constructor | src/ui/components/CustomSelect.tsx:12-13 | the selection starts at 0 |
| CustomSelect.Select.Sync | src/ui/components/CustomSelect.tsx:16-23 | when the active value names an item, the selection moves to its first index; otherwise it stays |
| CustomSelect.Select.HandleInput | src/ui/components/CustomSelect.tsx:25-39 | inactive: nothing happens. Up and down move with wrap-around and stop there. Return calls onSelect with the selected item; any other key does nothing |
| CustomSelect.ItemAt | src/ui/components/CustomSelect.tsx:37 | `items[selectedIndex]`: the item when the index is in range, undefined otherwise |
| App.RenderScreenSpec | src/ui/App.tsx:35-75 | exactly the menu, matches and status screens render a view; any other value renders the invalid-screen text |
| App.QuitSpec | src/ui/App.tsx:20-26 | `q` off the menu returns to the menu, and `q` on the menu exits; other keys do nothing |
| App.MenuSelectSpec | src/ui/App.tsx:28-33 | choosing a menu item switches to its value; choosing `exit` also calls exit |
| App.AppState.constructor | src/ui/App.tsx:12 | the shell starts on the menu |
| App.AppState.ChangeScreen | src/ui/App.tsx:15-18 | the screen becomes the given one and the console is cleared once |
| App.AppState.HandleInput | src/ui/App.tsx:20-26 | the new shell state is OnInput of the old one, and the console is cleared once exactly when `q` leaves a screen other than the menu |
| App.AppState.HandleMenuSelect | src/ui/App.tsx:28-33 | the new shell state is OnMenuSelect of the old one, and the console is cleared once |

## Left out

- Network and parsing, timers and I/O.
  - `rss-parser` is an `Attempt` per try.
  - `setTimeout` delays are returned as waits.
  - `setInterval` re-runs are separate, consecutive calls of CheckFeeds. The source does not wait for a pass to end (dist/services/monitor.js:182): a pass longer than the interval overlaps the next one on `processedItems`, the counters and the cooldown map, and that interleaving is not modelled.
  - File reads and writes are parameters and results.
  - `pm2 jlist`, `exec`, `open` and `console` output are left out.
- Desktop notifications (`handleNewItem`) and all logging are left out. They only print.
- The `keywords list` command only prints, so it is left out.
- Rendering is left out: Ink layout, colours other than the score colour, `toLocaleTimeString`, and the hostname shown in the table.
- `formatMemory` and the memory label of the status record are left out; they are floating-point formatting.
- MonitorStatus.GetMonitorStatus takes the pm2 cpu value as an integer, so a fractional `${cpu}%` label is not modelled; the restart count is passed through.
- String lengths count characters (Unicode scalar values). JavaScript's `length`, `slice` and the Levenshtein matrix count UTF-16 code units. So for text outside the Basic Multilingual Plane, such as an emoji in a title, the model does not capture the source's 50- and 120-character cuts (src/ui/components/MatchesDisplay.tsx:160-169), the floor(0.3·length) bound, or the distances (src/services/keyword-matcher.ts:27-51, 90).
- An item with neither `pubDate` nor `isoDate` yields `new Date('')`, an Invalid Date (dist/services/monitor.js:143). The model takes every timestamp as a number, so such an item stands for a timestamp at or before every cutoff. `new Date(item.timestamp) > retentionDate` is false for it (src/services/storage.ts:28): its match is never saved, while its key stays processed.
- `src-tauri/src/main.rs` is an empty command stub, so it is not part of this model.
- A source whose `name` is missing and whose URL does not parse is not modelled. There `new URL` throws and the rest of that source's items are skipped. The model takes every url as parsable, and the hostname default for `sourceName` is absent.
- Monitor.Monitor.CheckFeeds uses one clock value per source for both the fetch and `addedAt`. The source reads `new Date()` again for each item.
- Monitor.Monitor.ScanFeed adds to `totalProcessed` and `matchedItems` once, after the item loop. The source adds inside the loop; nothing reads the counters before the loop ends.
- Monitor.Monitor.FetchFeed returns straight from the max-retries branch. The source leaves the loop and then throws `lastError`; the outcome is the same.
- Monitor.RetryFromSpec does not distinguish the kind of value a non-Error throw carries.
- KeywordMatcher.RuleMatch requires a non-empty value for a fuzzy rule. For an empty value the source computes the score 1 − 0/0, which is NaN. KeptMatch and FindKeywordMatches cover that case, dropping the rule as `NaN >= 4` does.
- KeywordMatcher.FindMatches does not model `Math.floor(length * 0.3)` in floating point. It uses `3·length / 10`.
- KeywordMatcher.FuzzyRuleMatch rounds the exact score. The source rounds a double, which can fall just below an exact half: for a 12-character value of weight 3 at distance 1, `(1 - 1/12) * 10 * 0.6` is 5.499999999999999 and rounds to 5, where the model gives 6.
- KeywordMatcher.ExactRuleMatch and the other matchers fold case by ASCII only. There is no Unicode case mapping.
- KeywordMatcher.PhraseRuleMatch models the escaped regex as a literal substring test. The `g` flag's `lastIndex` state is irrelevant to a fresh regex and is not modelled.
- KeywordsCommand.KeywordEditor.Add takes the match type from the three the matcher knows. It takes the weight as an integer, so a non-numeric `--weight` (NaN from `parseInt`) is not modelled.
- KeywordsCommand.KeywordEditor.Remove requires distinct, in-range indices. The checkbox prompt only offers such indices.
- ConfigLoader.ValidateConfig models JSON numbers as integers, so NaN does not occur.
- Storage.SaveFeedItems takes its time as a parameter and models dates as milliseconds rather than `Date` objects. A failed write is only logged, so it is not modelled.
- MatchesDisplay.MatchesView.LoadData models the `JSON.stringify` comparison as equality of the projected records. The listing item id is `link` followed by the printed `addedAt` value.
- The error retry of `loadData` and the scheduling of the periodic refresh and of the refresh on activation are left out; they are timer scheduling. Which closure a refresh runs is a parameter of MatchesDisplay.MatchesView.LoadDataFrom.

## Findings

| source | as written | input that shows it | evidently intended | confidence | as-written member | corrected member |
|---|---|---|---|---|---|---|
| src/ui/components/MatchesDisplay.tsx:83-97 | the refresh timer re-runs the `loadData` closure of the first render, whose `matches` is the initial empty list, so `hasChanges` compares the new list with that list, not with the one on screen | a refresh that loads the very list already shown: it is non-empty, so it differs from the empty list, the list is set again and the last-update time is reset every 5 seconds | a refresh changes the list and the update time only when the listed content changed | not executed | MatchesDisplay.StaleRefreshReportsChange | MatchesDisplay.MatchesView.LoadData |
| dist/services/monitor.js:173-176 | every save writes the items loaded at start-up followed by the current check's new items only | two checks in one session, the first finding new item x and the second new item y: the second save writes the start-up items and y, and x is lost from the stored file while its key stays in the processed set, so it is never found again | each save extends what was saved before, so every match found in the session stays stored | not executed | Monitor.EarlierMatchDropped | Monitor.LastSaveKeepsEveryMatch |
