/** The retention step of saving feed items and the fallback of loading
    them (src/services/storage.ts). Times are milliseconds. */
module Storage {
  import opened Wrappers
  import opened Types
  import opened Sorting

  const MaxItems: nat := 2000
  const RetentionDays: nat := 30
  const DayMs: nat := 24 * 60 * 60 * 1000

  /** Items must be strictly newer than this to be kept. */
  function RetentionCutoff(now: int): int {
    now - RetentionDays * DayMs
  }

  function Timestamp(item: FeedItem): int {
    item.timestamp
  }

  function IsRetained(now: int): FeedItem -> bool {
    (item: FeedItem) => item.timestamp > RetentionCutoff(now)
  }

  /** The list `saveFeedItems` writes: items newer than 30 days, newest
      first, at most MaxItems of them. */
  function Retain(items: seq<FeedItem>, now: int): seq<FeedItem> {
    Top(items, IsRetained(now), Timestamp, MaxItems)
  }

  /** Every kept item is within the retention period, they are newest
      first, and nothing is added or altered. As many recent items are
      kept as fit in MaxItems: all of them when they fit, and otherwise a
      recent item that is dropped is no newer than any kept one. */
  lemma RetainSpec(items: seq<FeedItem>, now: int)
    ensures forall i :: 0 <= i < |Retain(items, now)| ==> Retain(items, now)[i].timestamp > RetentionCutoff(now)
    ensures NonIncreasing(Retain(items, now), Timestamp)
    ensures |Retain(items, now)| <= MaxItems
    ensures multiset(Retain(items, now)) <= multiset(items)
    ensures var recent := |Filter(items, IsRetained(now))|;
            |Retain(items, now)| == if recent <= MaxItems then recent else MaxItems
    ensures |Filter(items, IsRetained(now))| <= MaxItems ==>
              forall i :: 0 <= i < |items| && items[i].timestamp > RetentionCutoff(now) ==> items[i] in Retain(items, now)
    ensures forall i, j :: 0 <= i < |items| && items[i].timestamp > RetentionCutoff(now) && items[i] !in Retain(items, now) && 0 <= j < |Retain(items, now)| ==>
              items[i].timestamp <= Retain(items, now)[j].timestamp
  {
    RetainKept(items, now);
    RetainKeepsRecent(items, now);
  }

  /** The kept items are recent, newest first, as many as fit, and taken
      from the input. */
  lemma RetainKept(items: seq<FeedItem>, now: int)
    ensures forall i :: 0 <= i < |Retain(items, now)| ==> Retain(items, now)[i].timestamp > RetentionCutoff(now)
    ensures NonIncreasing(Retain(items, now), Timestamp)
    ensures multiset(Retain(items, now)) <= multiset(items)
    ensures var recent := |Filter(items, IsRetained(now))|;
            |Retain(items, now)| == if recent <= MaxItems then recent else MaxItems
  {
    var r := Retain(items, now);
    TopSpec(items, IsRetained(now), Timestamp, MaxItems);
    forall i | 0 <= i < |r| ensures r[i].timestamp > RetentionCutoff(now) {
      assert IsRetained(now)(r[i]);
    }
  }

  /** Which recent items are kept: all of them when they fit, and
      otherwise only ones at least as new as every recent item dropped. */
  lemma RetainKeepsRecent(items: seq<FeedItem>, now: int)
    ensures |Filter(items, IsRetained(now))| <= MaxItems ==>
              forall i :: 0 <= i < |items| && items[i].timestamp > RetentionCutoff(now) ==> items[i] in Retain(items, now)
    ensures forall i, j :: 0 <= i < |items| && items[i].timestamp > RetentionCutoff(now) && items[i] !in Retain(items, now) && 0 <= j < |Retain(items, now)| ==>
              items[i].timestamp <= Retain(items, now)[j].timestamp
  {
    var r := Retain(items, now);
    TopSpec(items, IsRetained(now), Timestamp, MaxItems);
    forall i | 0 <= i < |items| && items[i].timestamp > RetentionCutoff(now) ensures IsRetained(now)(items[i]) {
    }
    if |Filter(items, IsRetained(now))| <= MaxItems {
      forall i | 0 <= i < |items| && items[i].timestamp > RetentionCutoff(now) ensures items[i] in r {
        assert items[i] in multiset(Filter(items, IsRetained(now)));
      }
    }
  }

  /** When every item is recent and they fit, the kept list is a
      reordering of the input. */
  lemma RetainKeepsAllRecent(items: seq<FeedItem>, now: int)
    requires forall i :: 0 <= i < |items| ==> items[i].timestamp > RetentionCutoff(now)
    requires |items| <= MaxItems
    ensures multiset(Retain(items, now)) == multiset(items)
  {
  }

  /** What `saveFeedItems` writes and the count it reports as removed. */
  datatype Saved = Saved(items: seq<FeedItem>, removed: int)

  function SaveFeedItems(items: seq<FeedItem>, now: int): (s: Saved)
    ensures s.removed >= 0
    ensures s.items == Retain(items, now)
  {
    RetainSpec(items, now);
    var kept := Retain(items, now);
    assert |multiset(kept)| <= |multiset(items)|;
    Saved(kept, |items| - |kept|)
  }

  /** The storage file as `loadFeedItems` finds it: absent, unreadable or
      not JSON, or parsed with or without an `items` field. */
  datatype StoredFile = Missing | Unreadable | Parsed(items: Option<seq<FeedItem>>)

  /** `loadFeedItems`: the stored items, or the empty list on any failure. */
  function LoadFeedItems(file: StoredFile): (r: seq<FeedItem>)
    ensures file.Parsed? && file.items.Some? ==> r == file.items.value
    ensures !(file.Parsed? && file.items.Some?) ==> r == []
  {
    match file
    case Parsed(Some(items)) => items
    case _ => []
  }
}
