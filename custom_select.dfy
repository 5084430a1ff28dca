/** The selection list (src/ui/components/CustomSelect.tsx): the selected
    index, its wrap-around navigation, its synchronisation with the
    active value, the Return selection and the row markers. */
module CustomSelect {
  import opened Wrappers
  import opened Navigation

  datatype SelectItem = SelectItem(caption: string, value: string)

  /** The row-navigation keys of one input event. */
  datatype Key = Key(upArrow: bool, downArrow: bool, isReturn: bool)

  /** `items.findIndex(item => item.value === value)`. */
  function FindIndex(items: seq<SelectItem>, value: string): (r: Option<nat>)
    ensures r.Some? ==> r.value < |items| && items[r.value].value == value
                        && forall j :: 0 <= j < r.value ==> items[j].value != value
    ensures r.None? ==> forall j :: 0 <= j < |items| ==> items[j].value != value
    decreases |items|
  {
    if items == [] then None
    else if items[0].value == value then Some(0)
    else match FindIndex(items[1..], value)
      case Some(i) => Some(i + 1)
      case None => None
  }

  /** What Return hands to `onSelect`: the selected item, or `undefined`
      when the index is outside the list. */
  datatype Selection = NotCalled | Called(item: Option<SelectItem>)

  /** The marker of row `index`. */
  function Marker(index: int, selectedIndex: int): string {
    if index == selectedIndex then "> " else "  "
  }

  /** The text of each row: marker and caption (the `label` field). */
  function RenderRows(items: seq<SelectItem>, selectedIndex: int): (rows: seq<string>)
    ensures |rows| == |items|
  {
    seq(|items|, i requires 0 <= i < |items| => Marker(i, selectedIndex) + items[i].caption)
  }

  /** The rows drawn with the '> ' marker are exactly the selected one: a
      single row when the index is inside the list, none otherwise. */
  lemma MarkedRows(items: seq<SelectItem>, selectedIndex: int)
    ensures var rows := RenderRows(items, selectedIndex);
            var marked := set i | 0 <= i < |rows| && rows[i][..2] == "> ";
            && (0 <= selectedIndex < |items| ==> marked == {selectedIndex})
            && (!(0 <= selectedIndex < |items|) ==> marked == {})
  {
    var rows := RenderRows(items, selectedIndex);
    forall i | 0 <= i < |rows| ensures rows[i][..2] == Marker(i, selectedIndex) {
      assert rows[i] == Marker(i, selectedIndex) + items[i].caption;
    }
  }

  class Select {
    var items: seq<SelectItem>
    var activeValue: Option<string>
    var isActive: bool
    var selectedIndex: int

    constructor (items: seq<SelectItem>, activeValue: Option<string>, isActive: bool)
      ensures this.items == items && this.activeValue == activeValue && this.isActive == isActive
      ensures selectedIndex == 0
    {
      this.items, this.activeValue, this.isActive := items, activeValue, isActive;
      selectedIndex := 0;
    }

    /** The effect on `activeValue` and `items`: move to the first item
        holding the active value, if there is one. */
    method Sync()
      modifies this`selectedIndex
      ensures activeValue.Some? && FindIndex(items, activeValue.value).Some? ==>
                selectedIndex == FindIndex(items, activeValue.value).value
      ensures !(activeValue.Some? && FindIndex(items, activeValue.value).Some?) ==>
                selectedIndex == old(selectedIndex)
    {
      if activeValue.Some? {
        var activeIndex := FindIndex(items, activeValue.value);
        if activeIndex.Some? {
          selectedIndex := activeIndex.value;
        }
      }
    }

    /** The key handler: up and down move the index with wrap-around and
        stop there; Return hands the selected item to `onSelect`. */
    method HandleInput(input: string, key: Key) returns (selection: Selection)
      modifies this`selectedIndex
      ensures !isActive ==> selection == NotCalled && selectedIndex == old(selectedIndex)
      ensures isActive && (key.upArrow || input == "k") ==>
                selection == NotCalled
                && selectedIndex == Up(old(selectedIndex), |items|)
      ensures isActive && !(key.upArrow || input == "k") && (key.downArrow || input == "j") ==>
                selection == NotCalled
                && selectedIndex == Down(old(selectedIndex), |items|)
      ensures isActive && !(key.upArrow || input == "k") && !(key.downArrow || input == "j") ==>
                selectedIndex == old(selectedIndex)
                && selection == (if key.isReturn then Called(ItemAt(items, selectedIndex)) else NotCalled)
    {
      selection := NotCalled;
      if !isActive {
        return;
      }
      if key.upArrow || input == "k" {
        selectedIndex := if selectedIndex > 0 then selectedIndex - 1 else |items| - 1;
        return;
      }
      if key.downArrow || input == "j" {
        selectedIndex := if selectedIndex < |items| - 1 then selectedIndex + 1 else 0;
        return;
      }
      if key.isReturn {
        selection := Called(ItemAt(items, selectedIndex));
      }
    }
  }

  /** `items[index]`, or `undefined` outside the list. */
  function ItemAt(items: seq<SelectItem>, index: int): (r: Option<SelectItem>)
    ensures r.Some? <==> 0 <= index < |items|
    ensures r.Some? ==> r.value == items[index]
  {
    if 0 <= index < |items| then Some(items[index]) else None
  }
}
