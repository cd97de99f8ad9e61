/// The text label under the picker: column letter `A`..`E` followed by the
/// row number `1`..`5` (web/grid_position.js, `redraw`).
module GridLabel {
  import opened GridMapping

  datatype Option<T> = None | Some(value: T)

  predicate IsDigit(ch: char) {
    '0' <= ch <= '9'
  }

  predicate IsDigits(s: string) {
    forall k :: 0 <= k < |s| ==> IsDigit(s[k])
  }

  /// The number a string of decimal digits denotes.
  function DigitsValue(s: string): (n: nat)
    requires IsDigits(s)
  {
    if s == [] then 0
    else DigitsValue(s[..|s| - 1]) * 10 + (s[|s| - 1] as int - '0' as int)
  }

  /// The decimal text of a non-negative number, as a template literal
  /// renders it.
  function DecimalText(n: nat): (s: string)
    ensures |s| >= 1 && IsDigits(s) && DigitsValue(s) == n
    ensures n < 10 <==> |s| == 1
    decreases n
  {
    var last := [('0' as int + n % 10) as char];
    if n < 10 then last else DecimalText(n / 10) + last
  }

  /// `String.fromCharCode(65 + gx)`.
  function ColumnLetter(col: int): (ch: char)
    requires InIndexRange(col)
  {
    (65 + col) as char
  }

  /// The label of a cell: its column letter, then its row number counted
  /// from one.
  function Label(c: Cell): (s: string)
    requires InGrid(c)
    ensures |s| == 2 && 'A' <= s[0] <= 'E' && '1' <= s[1] <= '5'
  {
    [ColumnLetter(c.col)] + DecimalText(c.row + 1)
  }

  /// Reads a label back into its cell; anything that is not a letter
  /// `A`..`E` followed by a digit `1`..`5` has no cell.
  function ParseLabel(s: string): (c: Option<Cell>)
    ensures c.Some? ==> InGrid(c.value)
    ensures c.Some? <==> |s| == 2 && 'A' <= s[0] <= 'E' && '1' <= s[1] <= '5'
  {
    if |s| == 2 && 'A' <= s[0] <= 'E' && '1' <= s[1] <= '5'
    then Some(Cell(s[0] as int - 'A' as int, s[1] as int - '1' as int))
    else None
  }

  /// Every cell's label reads back as that cell.
  lemma LabelRoundTrip(c: Cell)
    requires InGrid(c)
    ensures ParseLabel(Label(c)) == Some(c)
  {
    var s := Label(c);
    assert DigitsValue(s[1..]) == c.row + 1;
    assert DigitsValue(s[1..]) == s[1] as int - '0' as int by {
      assert s[1..][..0] == [];
    }
  }

  /// Every readable label is the label of the cell it reads as, so labels
  /// and cells are in one-to-one correspondence: exactly A1..E5.
  lemma ParseLabelRoundTrip(s: string)
    requires ParseLabel(s).Some?
    ensures Label(ParseLabel(s).value) == s
  {
    var c := ParseLabel(s).value;
    var t := Label(c);
    LabelRoundTrip(c);
    assert t[0] == s[0] && t[1] == s[1];
  }

  /// Distinct cells carry distinct labels.
  lemma LabelInjective(c: Cell, d: Cell)
    requires InGrid(c) && InGrid(d) && Label(c) == Label(d)
    ensures c == d
  {
    LabelRoundTrip(c);
    LabelRoundTrip(d);
  }

  /// The corner cells are labelled A1 and E5.
  lemma CornerLabels()
    ensures Label(Cell(0, 0)) == "A1"
    ensures Label(Cell(GridSize - 1, GridSize - 1)) == "E5"
  {
  }
}
