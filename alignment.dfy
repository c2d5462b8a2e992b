/// The alignment dispatch of the forward projector.
///
/// A subtitle line's alignment is a numpad code: 1-3 bottom, 4-6 middle,
/// 7-9 top, and within each row left, centre, right.  The projector derives
/// from it how far the anchor sits from the text's top-left corner, and the
/// factor by which a horizontal shear moves the anchor.
module Alignment {
  import opened Wrappers

  /// C's integer division by 3, which truncates toward zero (Dafny's `/` on
  /// int rounds toward minus infinity here).
  function CDiv3(a: int): int
  {
    if a >= 0 then a / 3 else -((-a) / 3)
  }

  /// C's remainder modulo 3, which takes the sign of the dividend.
  function CRem3(a: int): (r: int)
    ensures a == 3 * CDiv3(a) + r
    ensures -3 < r < 3
    ensures r > 0 ==> a > 0
    ensures r < 0 ==> a < 0
  {
    a - 3 * CDiv3(a)
  }

  /// The column of the anchor: (align - 1) % 3 in C.
  function Column(align: int): int { CRem3(align - 1) }

  /// The row of the anchor: (align - 1) / 3 in C.
  function Row(align: int): int { CDiv3(align - 1) }

  /// The factor by which the inverse solver shifts the position for a
  /// sheared line: the font size for bottom alignments, half of it for
  /// middle ones, and zero otherwise.
  function FaxShiftFactor(align: int, fontSize: real): real
  {
    if align == 1 || align == 2 || align == 3 then fontSize
    else if align == 4 || align == 5 || align == 6 then fontSize / 2.0
    else 0.0
  }

  /// The vertical offset of the text from the anchor, by row.
  function TextTop(align: int, height: real): real
  {
    var row := Row(align);
    if row == 0 then -height
    else if row == 1 then -height / 2.0
    else 0.0
  }

  /// The horizontal offset of the text from the anchor as the source writes
  /// it: the variable is declared without a value and assigned only for the
  /// centre and right columns, so for every other column it stays unset.
  function TextLeftAsWritten(align: int, width: real): Option<real>
  {
    var column := Column(align);
    if column == 1 then Some(-width / 2.0)
    else if column == 2 then Some(-width)
    else None
  }

  /// The horizontal offset with the left column's evidently intended value:
  /// the text starts at the anchor.
  function TextLeft(align: int, width: real): real
  {
    match TextLeftAsWritten(align, width)
    case Some(left) => left
    case None => 0.0
  }

  /// For the left-column codes 1, 4 and 7 the source reads the horizontal
  /// offset without ever having assigned it; among the codes 1-9 these are
  /// the only ones.
  lemma LeftColumnLeavesTextLeftUnset(align: int, width: real)
    requires 1 <= align <= 9
    ensures TextLeftAsWritten(align, width).None? <==> align == 1 || align == 4 || align == 7
  {
    var a := align - 1;
    assert CDiv3(a) == a / 3;
    assert Column(align) == a % 3;
  }

  /// On the numpad grid, the row and column of a code locate the anchor:
  /// the text lies column/2 of its width to the left of the anchor and
  /// (2 - row)/2 of its height above it, and a shear moves the anchor by
  /// the same fraction of the font size.
  lemma AnchorOnNumpadGrid(align: int, width: real, height: real, fontSize: real)
    requires 1 <= align <= 9
    ensures 0 <= Row(align) <= 2 && 0 <= Column(align) <= 2
    ensures align == 3 * Row(align) + Column(align) + 1
    ensures TextLeft(align, width) == -width * (Column(align) as real) / 2.0
    ensures TextTop(align, height) == -height * ((2 - Row(align)) as real) / 2.0
    ensures FaxShiftFactor(align, fontSize) == fontSize * ((2 - Row(align)) as real) / 2.0
  {
    var a := align - 1;
    assert CDiv3(a) == a / 3;
    assert Column(align) == a % 3;
    assert 1 <= align <= 3 <==> Row(align) == 0;
    assert 4 <= align <= 6 <==> Row(align) == 1;
  }

  /// C's truncation matters outside the grid: for the code 0 the row is 0,
  /// so the text is placed above the anchor, while the column is -1, which
  /// leaves the horizontal offset unset.
  lemma AlignmentZeroTruncates(width: real, height: real)
    ensures Row(0) == 0 && Column(0) == -1
    ensures TextTop(0, height) == -height
    ensures TextLeftAsWritten(0, width) == None
  {
    assert CDiv3(-1) == 0;
  }
}
