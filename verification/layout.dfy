/** Placement of the icon buttons of a builder session. Icons fill rows of
    ROW_WIDTH buttons in catalog order; the row CONTROL_ROW is kept for the
    Clear, Confirm and Cancel buttons, so icons that would fall into it are
    dropped. */
module Layout {

  /** A catalog entry: the icon's name and the emoji it shows (and stores). */
  datatype Icon = Icon(name: string, emoji: string)

  /** An icon button as added to the view: its catalog entry and its row. */
  datatype IconButton = IconButton(labelName: string, emoji: string, row: nat)

  /** Buttons per row. */
  const ROW_WIDTH: nat := 5

  /** The row that holds the Clear, Confirm and Cancel buttons. */
  const CONTROL_ROW: nat := 4

  /** The most icon buttons a view can hold. */
  const ICON_CAPACITY: nat := ROW_WIDTH * CONTROL_ROW

  /** The intended placement: the first ICON_CAPACITY catalog entries, entry i
      in row i / ROW_WIDTH. */
  function Placement(catalog: seq<Icon>): (r: seq<IconButton>)
    ensures |r| == if |catalog| < ICON_CAPACITY then |catalog| else ICON_CAPACITY
    ensures forall i :: 0 <= i < |r| ==> r[i].row < CONTROL_ROW
    ensures forall i :: 0 <= i < |r| ==>
              r[i].labelName == catalog[i].name && r[i].emoji == catalog[i].emoji
  {
    var n := if |catalog| < ICON_CAPACITY then |catalog| else ICON_CAPACITY;
    seq(n, i requires 0 <= i < n => IconButton(catalog[i].name, catalog[i].emoji, i / ROW_WIDTH))
  }

  /** Rows fill in order and no row holds more than ROW_WIDTH icons. */
  lemma PlacementRows(catalog: seq<Icon>, i: nat, j: nat)
    requires i < j < |Placement(catalog)|
    ensures Placement(catalog)[i].row <= Placement(catalog)[j].row
    ensures Placement(catalog)[i].row == Placement(catalog)[j].row ==> j - i < ROW_WIDTH
  {
  }

  /** The layout loop of the view's constructor: a row and a column counter,
      a new row after every ROW_WIDTH buttons, and an early stop once the
      control row is reached. */
  method LayOutIcons(catalog: seq<Icon>) returns (buttons: seq<IconButton>)
    ensures buttons == Placement(catalog)
  {
    buttons := [];
    var row, col := 0, 0;
    var i := 0;
    while i < |catalog|
      invariant i <= |catalog| && i < ICON_CAPACITY
      invariant row * ROW_WIDTH + col == i && col < ROW_WIDTH
      invariant |buttons| == i
      invariant forall j :: 0 <= j < i ==> buttons[j] == Placement(catalog)[j]
    {
      var btn := IconButton(catalog[i].name, catalog[i].emoji, row);
      assert row == i / ROW_WIDTH;
      buttons := buttons + [btn];
      col := col + 1;
      if col == ROW_WIDTH {
        col, row := 0, row + 1;
      }
      i := i + 1;
      if row == CONTROL_ROW {
        break;
      }
    }
  }
}
