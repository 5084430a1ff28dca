/** Wrap-around row navigation, shared by the table and the selection
    list: up from the first row goes to the last, down from the last to
    the first. */
module Navigation {

  /** Up from row `i` of `n`: the previous row, or the last from the top.
      With no rows the last row is -1. */
  function Up(i: int, n: int): int {
    if i > 0 then i - 1 else n - 1
  }

  /** Down from row `i` of `n`: the next row, or the first from the last. */
  function Down(i: int, n: int): int {
    if i < n - 1 then i + 1 else 0
  }

  /** On a non-empty list both moves stay inside it. */
  lemma UpDownInRange(i: int, n: int)
    requires 0 <= i < n
    ensures 0 <= Up(i, n) < n && 0 <= Down(i, n) < n
  {
  }

  /** Up and down undo each other, wrapping around at both ends. */
  lemma UpDownInverse(i: int, n: int)
    requires 0 <= i < n
    ensures Down(Up(i, n), n) == i && Up(Down(i, n), n) == i
  {
  }
}
