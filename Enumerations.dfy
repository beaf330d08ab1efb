/**
  The layout enumerations of Enumerations.h and the one table that every alignment
  handler of the container reduces to.
 */
module Enumerations {

  /** The nine alignment cases: a row (Top, middle, Bottom) and a column (Leading, middle, Trailing). */
  datatype Alignment =
    | Top
    | Bottom
    | Leading
    | Center
    | Trailing
    | TopLeading
    | TopTrailing
    | BottomLeading
    | BottomTrailing

  /** How the children of a container are laid out. */
  datatype LayoutOrientation = Horizontal | Vertical | Stacked | None

  /**
    Share of the free horizontal space put before the children: 0 for the Leading column,
    1/2 for the middle column (Top, Center, Bottom), 1 for the Trailing column.
   */
  function ColumnScale(a: Alignment): real {
    match a
    case TopLeading | Leading | BottomLeading => 0.0
    case Top | Center | Bottom => 0.5
    case TopTrailing | Trailing | BottomTrailing => 1.0
  }

  /**
    Share of the free vertical space put above the children: 0 for the Top row,
    1/2 for the middle row (Leading, Center, Trailing), 1 for the Bottom row.
   */
  function RowScale(a: Alignment): real {
    match a
    case TopLeading | Top | TopTrailing => 0.0
    case Leading | Center | Trailing => 0.5
    case BottomLeading | Bottom | BottomTrailing => 1.0
  }

  /** The column scale names the column of the alignment: each value belongs to exactly one column. */
  lemma ColumnScaleNamesColumn(a: Alignment)
    ensures ColumnScale(a) == 0.0 <==> a == TopLeading || a == Leading || a == BottomLeading
    ensures ColumnScale(a) == 0.5 <==> a == Top || a == Center || a == Bottom
    ensures ColumnScale(a) == 1.0 <==> a == TopTrailing || a == Trailing || a == BottomTrailing
  {
  }

  /** The row scale names the row of the alignment: each value belongs to exactly one row. */
  lemma RowScaleNamesRow(a: Alignment)
    ensures RowScale(a) == 0.0 <==> a == TopLeading || a == Top || a == TopTrailing
    ensures RowScale(a) == 0.5 <==> a == Leading || a == Center || a == Trailing
    ensures RowScale(a) == 1.0 <==> a == BottomLeading || a == Bottom || a == BottomTrailing
  {
  }
}
