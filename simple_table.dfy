/** The selectable table (src/ui/components/SimpleTable.tsx): the
    selected row index, its wrap-around navigation, the indices reported
    to `onSelect`, and the width of the header separator. */
module SimpleTable {
  import opened Navigation

  /** The keys of one input event. */
  datatype Key = Key(upArrow: bool, downArrow: bool, isReturn: bool)

  predicate IsUp(input: string, key: Key) { key.upArrow || input == "k" }
  predicate IsDown(input: string, key: Key) { key.downArrow || input == "j" }
  predicate IsReturn(input: string, key: Key) { key.isReturn || input == "\r" }

  /** The indices one event reports, in order. Each of the three checks
      reads the index as it was before the event. */
  function Reports(i: int, n: int, input: string, key: Key): seq<int> {
    (if IsUp(input, key) then [Up(i, n)] else [])
    + (if IsDown(input, key) then [Down(i, n)] else [])
    + (if IsReturn(input, key) then [i] else [])
  }

  /** The index after an event: the last one reported, if any. */
  function Step(i: int, n: int, input: string, key: Key): int {
    var r := Reports(i, n, input, key);
    if r == [] then i else r[|r| - 1]
  }

  /** A row index of a non-empty table stays a row index under one event,
      and every index it reports is one. */
  lemma StepInRange(i: int, n: int, input: string, key: Key)
    requires 0 <= i < n
    ensures 0 <= Step(i, n, input, key) < n
    ensures forall k :: 0 <= k < |Reports(i, n, input, key)| ==> 0 <= Reports(i, n, input, key)[k] < n
  {
  }

  /** The index after an event is set by the last of its checks that
      fires. */
  lemma StepIsLastMove(i: int, n: int, input: string, key: Key)
    ensures Step(i, n, input, key)
              == if IsReturn(input, key) then i
                 else if IsDown(input, key) then Down(i, n)
                 else if IsUp(input, key) then Up(i, n)
                 else i
  {
  }

  /** An event that is neither up, down nor return changes nothing. */
  lemma OtherKeysIgnored(i: int, n: int, input: string, key: Key)
    requires !IsUp(input, key) && !IsDown(input, key) && !IsReturn(input, key)
    ensures Reports(i, n, input, key) == [] && Step(i, n, input, key) == i
  {
  }

  datatype Event = Event(input: string, key: Key)

  /** The index after a sequence of events. */
  function Navigate(i: int, n: int, events: seq<Event>): int
    decreases |events|
  {
    if events == [] then i
    else Navigate(Step(i, n, events[0].input, events[0].key), n, events[1..])
  }

  /** Starting inside a non-empty table, the index stays inside it under
      any sequence of events. */
  lemma {:induction false} NavigateInRange(i: int, n: int, events: seq<Event>)
    requires 0 <= i < n
    ensures 0 <= Navigate(i, n, events) < n
    decreases |events|
  {
    if events != [] {
      StepInRange(i, n, events[0].input, events[0].key);
      NavigateInRange(Step(i, n, events[0].input, events[0].key), n, events[1..]);
    }
  }

  /** `columns.reduce((acc, col) => acc + col.width + 1, 0)`. */
  function SeparatorWidth(widths: seq<int>): int
    decreases |widths|
  {
    if widths == [] then 0 else SeparatorWidth(widths[..|widths| - 1]) + widths[|widths| - 1] + 1
  }

  function Sum(widths: seq<int>): int
    decreases |widths|
  {
    if widths == [] then 0 else widths[0] + Sum(widths[1..])
  }

  lemma {:induction false} SeparatorWidthAppend(a: seq<int>, b: seq<int>)
    ensures SeparatorWidth(a + b) == SeparatorWidth(a) + SeparatorWidth(b)
    decreases |b|
  {
    if b == [] {
      assert a + b == a;
    } else {
      assert (a + b)[..|a + b| - 1] == a + b[..|b| - 1];
      SeparatorWidthAppend(a, b[..|b| - 1]);
    }
  }

  /** The separator is one character wider than each column. */
  lemma {:induction false} SeparatorWidthIsSum(widths: seq<int>)
    ensures SeparatorWidth(widths) == Sum(widths) + |widths|
    decreases |widths|
  {
    if widths != [] {
      SeparatorWidthIsSum(widths[1..]);
      SeparatorWidthAppend([widths[0]], widths[1..]);
      assert [widths[0]] + widths[1..] == widths;
      assert SeparatorWidth([widths[0]]) == widths[0] + 1 by {
        assert [widths[0]][..0] == [];
      }
    }
  }

  class Table {
    /** `data.length`. */
    var rowCount: nat
    var hasOnSelect: bool
    var isActive: bool
    var selectedIndex: int
    /** The indices passed to `onSelect`, oldest first. */
    var reported: seq<int>

    constructor (rowCount: nat, hasOnSelect: bool, isActive: bool)
      ensures this.rowCount == rowCount && this.hasOnSelect == hasOnSelect && this.isActive == isActive
      ensures selectedIndex == 0 && reported == []
    {
      this.rowCount, this.hasOnSelect, this.isActive := rowCount, hasOnSelect, isActive;
      selectedIndex, reported := 0, [];
    }

    /** `handleIndexChange(newIndex)`. */
    method HandleIndexChange(newIndex: int)
      modifies this`selectedIndex, this`reported
      ensures selectedIndex == newIndex
      ensures reported == old(reported) + (if hasOnSelect then [newIndex] else [])
    {
      selectedIndex := newIndex;
      if hasOnSelect {
        reported := reported + [newIndex];
      }
    }

    /** The key handler: without `onSelect` or while inactive nothing
        happens; otherwise the event's moves are applied and reported. */
    method HandleInput(input: string, key: Key)
      modifies this`selectedIndex, this`reported
      ensures !hasOnSelect || !isActive ==> selectedIndex == old(selectedIndex) && reported == old(reported)
      ensures hasOnSelect && isActive ==>
                && selectedIndex == Step(old(selectedIndex), rowCount, input, key)
                && reported == old(reported) + Reports(old(selectedIndex), rowCount, input, key)
    {
      if !hasOnSelect || !isActive {
        return;
      }
      var current := selectedIndex;
      StepIsLastMove(current, rowCount, input, key);
      if IsUp(input, key) {
        var newIndex := if current > 0 then current - 1 else rowCount - 1;
        HandleIndexChange(newIndex);
      }
      if IsDown(input, key) {
        var newIndex := if current < rowCount - 1 then current + 1 else 0;
        HandleIndexChange(newIndex);
      }
      if IsReturn(input, key) {
        HandleIndexChange(current);
      }
    }
  }
}
