/**
  The timestamp painter of the example model: glyph cells are filled into one
  two-dimensional NV12 buffer whose first `height` rows are luma and whose following rows
  hold interleaved chroma pairs at half resolution.
 */
module Timestamp {
  import opened Options

  const MARGIN := 8

  /** Five rows of three bits, for the characters the example can draw. */
  function Glyph(c: char): Option<seq<string>> {
    match c
    case '0' => Some(["111", "101", "101", "101", "111"])
    case '1' => Some(["010", "110", "010", "010", "111"])
    case '2' => Some(["111", "001", "111", "100", "111"])
    case '3' => Some(["111", "001", "111", "001", "111"])
    case '4' => Some(["101", "101", "111", "001", "001"])
    case '5' => Some(["111", "100", "111", "001", "111"])
    case '6' => Some(["111", "100", "111", "101", "111"])
    case '7' => Some(["111", "001", "010", "010", "010"])
    case '8' => Some(["111", "101", "111", "101", "111"])
    case '9' => Some(["111", "101", "111", "001", "111"])
    case '-' => Some(["000", "000", "111", "000", "000"])
    case ':' => Some(["000", "010", "000", "010", "000"])
    case ' ' => Some(["000", "000", "000", "000", "000"])
    case _ => None
  }

  predicate Known(c: char) {
    Glyph(c).Some?
  }

  predicate AllKnown(text: string) {
    forall i :: 0 <= i < |text| ==> Known(text[i])
  }

  lemma GlyphShape(c: char)
    requires Known(c)
    ensures |Glyph(c).value| == 5 && forall row :: 0 <= row < 5 ==> |Glyph(c).value[row]| == 3
  {
  }

  predicate Bit(c: char, row: nat, column: nat)
    requires Known(c) && row < 5 && column < 3
  {
    GlyphShape(c);
    Glyph(c).value[row][column] == '1'
  }

  // ---------- Parameters ----------

  /** What `int(font_size)` does: gives a number, raises a caught error, or overflows on an infinite float. */
  datatype FontSize = MissingSize | Number(n: int) | NotNumeric | Infinite

  datatype YuvItem = Whole(v: int) | NotWhole
  datatype Yuv = MissingYuv | Items(items: seq<YuvItem>) | NotAList

  datatype Color = Color(y: int, u: int, v: int)

  const DEFAULT_COLOR := Color(150, 43, 21)

  function Max(a: int, b: int): int {
    if a < b then b else a
  }

  function Min(a: int, b: int): int {
    if b < a then b else a
  }

  /** The requested scale, absent when the conversion error is not caught. */
  function RequestedScale(size: FontSize): (r: Option<int>)
    ensures r.Some? ==> 1 <= r.value <= 4
    ensures r.None? <==> size.Infinite?
    ensures size.MissingSize? || size.NotNumeric? ==> r == Some(2)
    ensures size.Number? ==>
        r == Some(if size.n < 14 then 1 else if size.n < 21 then 2 else if size.n < 28 then 3 else 4)
  {
    match size
    case MissingSize => Some(Max(1, Min(4, 14 / 7)))
    case Number(n) => Some(Max(1, Min(4, n / 7)))
    case NotNumeric => Some(Max(1, 14 / 7))
    case Infinite => None
  }

  predicate GoodItem(i: YuvItem) {
    i.Whole? && 0 <= i.v <= 255
  }

  function ColorOf(yuv: Yuv): (c: Color)
    ensures 0 <= c.y <= 255 && 0 <= c.u <= 255 && 0 <= c.v <= 255
    ensures yuv.Items? && |yuv.items| == 3 && (forall i :: 0 <= i < 3 ==> GoodItem(yuv.items[i])) ==>
              c == Color(yuv.items[0].v, yuv.items[1].v, yuv.items[2].v)
    ensures !yuv.Items? || |yuv.items| != 3 || (exists i :: 0 <= i < 3 && !GoodItem(yuv.items[i])) ==>
              c == Color(150, 43, 21)
  {
    if yuv.Items? && |yuv.items| == 3 && GoodItem(yuv.items[0]) && GoodItem(yuv.items[1]) && GoodItem(yuv.items[2]) then
      Color(yuv.items[0].v, yuv.items[1].v, yuv.items[2].v)
    else DEFAULT_COLOR
  }

  // ---------- Geometry ----------

  /** Where the text goes: its left edge and the side of one cell. */
  datatype Layout = Layout(x: int, scale: int)

  function TextWidth(n: nat, scale: int): int {
    n * 4 * scale - scale
  }

  function LayoutOf(width: nat, height: nat, n: nat, requested: int): (l: Layout)
    requires n > 0 && 1 <= requested <= 4
    ensures 1 <= l.scale <= 4 && l.x >= MARGIN
  {
    var maxWidthScale := Max(1, (width - 2 * MARGIN) / (n * 4));
    var maxHeightScale := Max(1, (height - 2 * MARGIN) / 5);
    var scale := Min(Min(requested, maxWidthScale), maxHeightScale);
    Layout(Max(MARGIN, width - MARGIN - TextWidth(n, scale)), scale)
  }

  /** One glyph bit as a rectangle of luma pixels. */
  datatype Cell = Cell(y0: int, y1: int, x0: int, x1: int) {
    predicate Has(r: int, c: int) {
      y0 <= r < y1 && x0 <= c < x1
    }

    /** The rows and columns of the chroma plane the code writes for this cell. */
    predicate HasChroma(r: int, c: int) {
      y0 / 2 <= r < (y1 + 1) / 2 && (x0 / 2) * 2 <= c < ((x1 + 1) / 2) * 2
    }
  }

  /** The k-th bit of the text in drawing order: character, then row, then column. */
  function CellAt(l: Layout, k: nat): Cell {
    var i, row, column := k / 15, k % 15 / 3, k % 3;
    var x := l.x + i * 4 * l.scale;
    Cell(MARGIN + row * l.scale, MARGIN + (row + 1) * l.scale, x + column * l.scale, x + (column + 1) * l.scale)
  }

  predicate BitAt(text: string, k: nat)
    requires k / 15 < |text| && Known(text[k / 15])
  {
    Bit(text[k / 15], k % 15 / 3, k % 3)
  }

  /** The rectangles drawn for the first `k` bits. */
  function Cells(text: string, l: Layout, k: nat): seq<Cell>
    requires AllKnown(text) && k <= 15 * |text|
  {
    if k == 0 then []
    else Cells(text, l, k - 1) + if BitAt(text, k - 1) then [CellAt(l, k - 1)] else []
  }

  /** The pixel belongs to a set bit of some character's glyph. */
  predicate OnPixel(text: string, l: Layout, r: int, c: int)
    requires AllKnown(text) && l.scale > 0
  {
    r >= MARGIN && c >= l.x &&
    var row, column := (r - MARGIN) / l.scale, (c - l.x) / l.scale;
    row < 5 && column / 4 < |text| && column % 4 < 3 && Bit(text[column / 4], row, column % 4)
  }

  /** The 2x2 luma block above the chroma pair at (r, c) has a set pixel. */
  predicate OnBlock(text: string, l: Layout, r: int, c: int)
    requires AllKnown(text) && l.scale > 0
  {
    var y, x := 2 * r, c / 2 * 2;
    OnPixel(text, l, y, x) || OnPixel(text, l, y, x + 1) || OnPixel(text, l, y + 1, x) || OnPixel(text, l, y + 1, x + 1)
  }

  // ---------- Cells and pixels ----------

  ghost predicate Covered(cells: seq<Cell>, r: int, c: int) {
    exists i :: 0 <= i < |cells| && cells[i].Has(r, c)
  }

  ghost predicate ChromaCovered(cells: seq<Cell>, r: int, c: int) {
    exists i :: 0 <= i < |cells| && cells[i].HasChroma(r, c)
  }

  /** The byte at (r, c) of the buffer after the cells are drawn over `before`. */
  ghost function Painted(cells: seq<Cell>, width: int, height: int, color: Color, before: int, r: int, c: int): int {
    if r < height then
      if c < width && Covered(cells, r, c) then color.y else before
    else if ChromaCovered(cells, r - height, c) then
      if c % 2 == 0 then color.u else color.v
    else before
  }

  lemma {:induction false} CellsAre(text: string, l: Layout, k: nat, cell: Cell)
    requires AllKnown(text) && k <= 15 * |text|
    ensures cell in Cells(text, l, k) <==> exists j: nat :: j < k && BitAt(text, j) && cell == CellAt(l, j)
  {
    hide Glyph, Bit, CellAt;
    if k > 0 {
      CellsAre(text, l, k - 1, cell);
    }
  }

  lemma QuotientIs(a: int, scale: nat, q: nat)
    requires 1 <= scale <= 4
    ensures q * scale <= a < (q + 1) * scale <==> a >= 0 && a / scale == q
  {
    if scale == 1 {
    } else if scale == 2 {
    } else if scale == 3 {
    }
  }

  /** Which bit covers a pixel. */
  lemma CellHasPixel(l: Layout, k: nat, r: int, c: int)
    requires 1 <= l.scale <= 4
    ensures CellAt(l, k).Has(r, c) <==>
            && r >= MARGIN && c >= l.x
            && (r - MARGIN) / l.scale == k % 15 / 3
            && (c - l.x) / l.scale == k / 15 * 4 + k % 3
  {
    var i, row, column := k / 15, k % 15 / 3, k % 3;
    QuotientIs(r - MARGIN, l.scale, row);
    QuotientIs(c - l.x, l.scale, i * 4 + column);
    assert i * 4 * l.scale + column * l.scale == (i * 4 + column) * l.scale;
    assert i * 4 * l.scale + (column + 1) * l.scale == (i * 4 + column + 1) * l.scale;
  }

  lemma BitIndex(i: nat, row: nat, column: nat)
    requires row < 5 && column < 3
    ensures var k := 15 * i + 3 * row + column; k / 15 == i && k % 15 == 3 * row + column && k % 3 == column
  {
    var k := 15 * i + 3 * row + column;
    assert k == 3 * (5 * i + row) + column;
  }

  /** The bit that covers a pixel. */
  lemma CoveringBit(l: Layout, row: nat, column: nat) returns (k: nat)
    requires row < 5 && column % 4 < 3
    ensures k / 15 == column / 4 && k % 15 / 3 == row && k % 3 == column % 4
    ensures k / 15 * 4 + k % 3 == column && k < 15 * (column / 4 + 1)
  {
    k := column / 4 * 15 + row * 3 + column % 4;
    BitIndex(column / 4, row, column % 4);
    assert k == 15 * (column / 4) + 3 * row + column % 4;
  }

  lemma QuotientOfSum(i: nat, j: nat)
    requires j < 4
    ensures (i * 4 + j) / 4 == i && (i * 4 + j) % 4 == j
  {
  }

  /** The drawn rectangles cover exactly the pixels of the set bits. */
  lemma CoveredIsOnPixel(text: string, l: Layout, r: int, c: int)
    requires AllKnown(text) && 1 <= l.scale <= 4
    ensures Covered(Cells(text, l, 15 * |text|), r, c) <==> OnPixel(text, l, r, c)
  {
    hide Glyph, Bit, Cells, CellAt;
    var cells := Cells(text, l, 15 * |text|);
    if Covered(cells, r, c) {
      var i :| 0 <= i < |cells| && cells[i].Has(r, c);
      CellsAre(text, l, 15 * |text|, cells[i]);
      var k: nat :| k < 15 * |text| && BitAt(text, k) && cells[i] == CellAt(l, k);
      CellHasPixel(l, k, r, c);
      QuotientOfSum(k / 15, k % 3);
    }
    if OnPixel(text, l, r, c) {
      var row, column := (r - MARGIN) / l.scale, (c - l.x) / l.scale;
      var k := CoveringBit(l, row, column);
      CellHasPixel(l, k, r, c);
      assert k < 15 * |text| && BitAt(text, k);
      CellsAre(text, l, 15 * |text|, CellAt(l, k));
      var i :| 0 <= i < |cells| && cells[i] == CellAt(l, k);
    }
  }

  /** A cell's chroma window is the set of blocks that meet the cell. */
  lemma ChromaMeetsCell(cell: Cell, r: int, c: int)
    requires cell.y0 < cell.y1 && cell.x0 < cell.x1
    ensures var y, x := 2 * r, c / 2 * 2;
            cell.HasChroma(r, c) <==>
                cell.Has(y, x) || cell.Has(y, x + 1) || cell.Has(y + 1, x) || cell.Has(y + 1, x + 1)
  {
  }

  lemma ChromaIsOnBlock(text: string, l: Layout, r: int, c: int)
    requires AllKnown(text) && 1 <= l.scale <= 4
    ensures ChromaCovered(Cells(text, l, 15 * |text|), r, c) <==> OnBlock(text, l, r, c)
  {
    hide Glyph, Bit, Cells, CellAt, OnPixel;
    var cells := Cells(text, l, 15 * |text|);
    var y, x := 2 * r, c / 2 * 2;
    CoveredIsOnPixel(text, l, y, x);
    CoveredIsOnPixel(text, l, y, x + 1);
    CoveredIsOnPixel(text, l, y + 1, x);
    CoveredIsOnPixel(text, l, y + 1, x + 1);
    forall i | 0 <= i < |cells|
      ensures cells[i].HasChroma(r, c) <==>
              cells[i].Has(y, x) || cells[i].Has(y, x + 1) || cells[i].Has(y + 1, x) || cells[i].Has(y + 1, x + 1)
    {
      CellsAre(text, l, 15 * |text|, cells[i]);
      var k: nat :| k < 15 * |text| && BitAt(text, k) && cells[i] == CellAt(l, k);
      CellNotEmpty(l, k);
      ChromaMeetsCell(cells[i], r, c);
    }
  }

  lemma CellNotEmpty(l: Layout, k: nat)
    requires 1 <= l.scale <= 4
    ensures CellAt(l, k).y0 < CellAt(l, k).y1 && CellAt(l, k).x0 < CellAt(l, k).x1
  {
  }

  // ---------- Margins ----------

  /** The text fits between the margins at scale 1. */
  predicate Fits(width: nat, height: nat, n: nat) {
    width - 2 * MARGIN >= 4 * n && height - 2 * MARGIN >= 5
  }

  lemma QuotientTimes(a: int, b: int, s: int)
    requires b > 0 && s <= a / b
    ensures s * b <= a
  {
    assert a == a / b * b + a % b;
    assert s * b <= a / b * b;
  }

  /** For even widths the text box stays within the margins exactly when the text fits. */
  lemma BoxWithinMarginsIffFits(width: nat, height: nat, n: nat, requested: int)
    requires n > 0 && 1 <= requested <= 4 && width % 2 == 0
    ensures var l := LayoutOf(width, height, n, requested);
            (l.x + TextWidth(n, l.scale) <= width - MARGIN && MARGIN + 5 * l.scale <= height - MARGIN)
            <==> Fits(width, height, n)
  {
    var l := LayoutOf(width, height, n, requested);
    if Fits(width, height, n) {
      QuotientPositive(width - 2 * MARGIN, n * 4);
      QuotientTimes(width - 2 * MARGIN, n * 4, l.scale);
      assert l.scale * (n * 4) == n * 4 * l.scale;
    } else if width - 2 * MARGIN < 4 * n {
      assert TextWidth(n, l.scale) >= TextWidth(n, 1) by { WiderByScale(n, l.scale); }
    }
  }

  lemma QuotientPositive(a: int, b: int)
    requires 0 < b <= a
    ensures a / b >= 1
  {
  }

  lemma WiderByScale(n: nat, s: int)
    requires n > 0 && 1 <= s <= 4
    ensures TextWidth(n, s) >= TextWidth(n, 1)
  {
  }

  lemma QuotientAtLeast(a: int, b: int, k: int)
    requires b > 0
    ensures a / b >= k <==> a >= b * k
  {
    var q, r := a / b, a % b;
    assert a == b * q + r && 0 <= r < b;
    if q >= k {
      assert b * q >= b * k;
    } else {
      assert b * q <= b * (k - 1);
    }
  }

  /** A text of `n` characters at this scale keeps 8 pixels on each side and above and below. */
  predicate Leaves8(width: nat, height: nat, n: nat, scale: int) {
    4 * n * scale <= width - 16 && 5 * scale <= height - 16
  }

  /**
    The scale is the largest of those requested that fits, or 1 if none does, and the text
    then ends 8 pixels before the right edge, or starts at 8 if it is too wide for that.
   */
  lemma LayoutIsLargestAndRightAligned(width: nat, height: nat, n: nat, requested: int)
    requires n > 0 && 1 <= requested <= 4
    ensures var l := LayoutOf(width, height, n, requested);
            && 1 <= l.scale <= requested && (l.scale > 1 ==> Leaves8(width, height, n, l.scale))
            && (forall k :: l.scale < k <= requested ==> !Leaves8(width, height, n, k))
            && l.x == (var x := width - 8 - (4 * n * l.scale - l.scale); if x < 8 then 8 else x)
  {
    var a, b := (width - 16) / (n * 4), (height - 16) / 5;
    forall k | 1 <= k <= 4
      ensures Leaves8(width, height, n, k) <==> k <= a && k <= b
    {
      QuotientAtLeast(width - 16, n * 4, k);
      QuotientAtLeast(height - 16, 5, k);
    }
    hide Leaves8;
    var scale := LayoutOf(width, height, n, requested).scale;
    assert n * 4 * scale == 4 * n * scale;
  }

  /** Set pixels lie in the text box. */
  lemma OnPixelInBox(text: string, l: Layout, r: int, c: int)
    requires AllKnown(text) && 1 <= l.scale <= 4 && OnPixel(text, l, r, c)
    ensures MARGIN <= r < MARGIN + 5 * l.scale && l.x <= c < l.x + TextWidth(|text|, l.scale)
  {
    hide Glyph, Bit;
    var column := (c - l.x) / l.scale;
    assert column <= 4 * |text| - 2;
    if l.scale == 1 {
    } else if l.scale == 2 {
      assert c - l.x < (column + 1) * 2;
    } else if l.scale == 3 {
      assert c - l.x < (column + 1) * 3;
    } else {
      assert c - l.x < (column + 1) * 4;
    }
  }

  /**
    If the text fits, luma is painted only within the 8-pixel margins, and chroma only
    inside the frame's own chroma plane, so no padding byte changes.
   */
  lemma FittingTextStaysInside(text: string, width: nat, height: nat, requested: int, r: int, c: int)
    requires AllKnown(text) && text != "" && 1 <= requested <= 4 && width % 2 == 0 && height % 2 == 0
    requires Fits(width, height, |text|)
    ensures var l := LayoutOf(width, height, |text|, requested);
            && (OnPixel(text, l, r, c) ==> MARGIN <= r < height - MARGIN && MARGIN <= c < width - MARGIN)
            && (OnBlock(text, l, r, c) ==> 0 <= r < height / 2 && 0 <= c < width)
  {
    hide Glyph, Bit, OnPixel;
    var l := LayoutOf(width, height, |text|, requested);
    BoxWithinMarginsIffFits(width, height, |text|, requested);
    var y, x := 2 * r, c / 2 * 2;
    if OnPixel(text, l, r, c) { OnPixelInBox(text, l, r, c); }
    if OnPixel(text, l, y, x) { OnPixelInBox(text, l, y, x); }
    if OnPixel(text, l, y, x + 1) { OnPixelInBox(text, l, y, x + 1); }
    if OnPixel(text, l, y + 1, x) { OnPixelInBox(text, l, y + 1, x); }
    if OnPixel(text, l, y + 1, x + 1) { OnPixelInBox(text, l, y + 1, x + 1); }
  }

  // ---------- Drawing ----------

  datatype Outcome =
    | Drawn
    | NotNv12
    | BadPlanes
    | FontSizeOverflow
    | EmptyText
    | UnknownCharacter(at: nat)

  /** The characters before the first one without a glyph. */
  function KnownPrefix(text: string): (n: nat)
    ensures n <= |text| && AllKnown(text[..n]) && (n < |text| ==> !Known(text[n]))
  {
    if text == "" || !Known(text[0]) then 0
    else
      var n := KnownPrefix(text[1..]);
      assert text[..n + 1] == [text[0]] + text[1..][..n];
      n + 1
  }

  predicate IsNv12(format: string) {
    |format| == 4 && (format[0] == 'N' || format[0] == 'n') && (format[1] == 'V' || format[1] == 'v')
    && format[2] == '1' && format[3] == '2'
  }

  lemma FormatNames(format: string)
    ensures IsNv12(format) <==> format in ["NV12", "Nv12", "nV12", "nv12"]
  {
    if IsNv12(format) {
      assert format == [format[0], format[1], '1', '2'];
    }
  }

  /** `a[r0:r1, c0:c1:step] = v` within the first `rows` rows and `cols` columns. */
  method Fill(a: array2<int>, r0: nat, r1: int, c0: nat, c1: int, rows: nat, cols: nat, step: int, v: int)
    requires rows <= a.Length0 && cols <= a.Length1 && (step == 1 || step == 2)
    modifies a
    ensures forall r, c :: 0 <= r < a.Length0 && 0 <= c < a.Length1 ==>
              a[r, c] == if r0 <= r < r1 && r < rows && c0 <= c < c1 && c < cols && (step == 1 || (c - c0) % 2 == 0)
                         then v else old(a[r, c])
  {
    var lastRow, lastColumn := Min(r1, rows), Min(c1, cols);
    var y := r0;
    while y < lastRow
      invariant r0 <= y && (y <= lastRow || y == r0)
      invariant forall r, c :: 0 <= r < a.Length0 && 0 <= c < a.Length1 ==>
                  a[r, c] == if r0 <= r < y && r < lastRow && c0 <= c < lastColumn && (step == 1 || (c - c0) % 2 == 0)
                             then v else old(a[r, c])
    {
      var x := c0;
      while x < lastColumn
        invariant c0 <= x && (step == 1 || (x - c0) % 2 == 0)
        invariant forall r, c :: 0 <= r < a.Length0 && 0 <= c < a.Length1 ==>
                    a[r, c] == if ((r0 <= r < y && c0 <= c < lastColumn) || (r == y && c0 <= c < x && c < lastColumn))
                                  && (step == 1 || (c - c0) % 2 == 0)
                               then v else old(a[r, c])
      {
        a[y, x] := v;
        x := x + step;
      }
      y := y + 1;
    }
  }

  /** The three slice writes of one set bit. */
  method DrawCell(a: array2<int>, width: nat, height: nat, cell: Cell, color: Color)
    requires height <= a.Length0 && width <= a.Length1
    requires 0 <= cell.y0 && 0 <= cell.x0
    modifies a
    ensures forall r, c :: 0 <= r < a.Length0 && 0 <= c < a.Length1 ==>
              a[r, c] == Painted([cell], width, height, color, old(a[r, c]), r, c)
  {
    Fill(a, cell.y0, cell.y1, cell.x0, cell.x1, height, width, 1, color.y);
    var y0, y1 := height + cell.y0 / 2, height + (cell.y1 + 1) / 2;
    var x0, x1 := cell.x0 / 2 * 2, (cell.x1 + 1) / 2 * 2;
    Fill(a, y0, y1, x0, x1, a.Length0, a.Length1, 2, color.u);
    Fill(a, y0, y1, x0 + 1, x1, a.Length0, a.Length1, 2, color.v);
    forall r, c | 0 <= r < a.Length0 && 0 <= c < a.Length1
      ensures a[r, c] == Painted([cell], width, height, color, old(a[r, c]), r, c)
    {
      CoveredByOne(cell, r, c);
      CoveredByOne(cell, r - height, c);
      assert (c - x0) % 2 == c % 2 && (c - (x0 + 1)) % 2 == (c + 1) % 2;
    }
  }

  lemma CoveredByOne(cell: Cell, r: int, c: int)
    ensures Covered([cell], r, c) <==> cell.Has(r, c)
    ensures ChromaCovered([cell], r, c) <==> cell.HasChroma(r, c)
  {
    assert [cell][0] == cell;
  }

  lemma PaintedAppend(cells: seq<Cell>, cell: Cell, width: int, height: int, color: Color, before: int, r: int, c: int)
    ensures Painted(cells + [cell], width, height, color, before, r, c)
         == Painted([cell], width, height, color, Painted(cells, width, height, color, before, r, c), r, c)
  {
    var all := cells + [cell];
    assert Covered(all, r, c) <==> Covered(cells, r, c) || Covered([cell], r, c) by {
      if i :| 0 <= i < |cells| && cells[i].Has(r, c) { assert all[i].Has(r, c); }
      if Covered([cell], r, c) { assert all[|cells|].Has(r, c); }
      if i :| 0 <= i < |all| && all[i].Has(r, c) { assert i < |cells| || [cell][0].Has(r, c); }
    }
    var q := r - height;
    assert ChromaCovered(all, q, c) <==> ChromaCovered(cells, q, c) || ChromaCovered([cell], q, c) by {
      if i :| 0 <= i < |cells| && cells[i].HasChroma(q, c) { assert all[i].HasChroma(q, c); }
      if ChromaCovered([cell], q, c) { assert all[|cells|].HasChroma(q, c); }
      if i :| 0 <= i < |all| && all[i].HasChroma(q, c) { assert i < |cells| || [cell][0].HasChroma(q, c); }
    }
  }

  /** The byte at (y, x) after drawing `text` over `before`, pixel by pixel. */
  function Picture(text: string, l: Layout, width: int, height: int, color: Color, before: int, y: int, x: int): int
    requires AllKnown(text) && l.scale > 0
  {
    if y < height then
      if x < width && OnPixel(text, l, y, x) then color.y else before
    else if OnBlock(text, l, y - height, x) then
      if x % 2 == 0 then color.u else color.v
    else before
  }

  lemma PaintedIsPicture(text: string, l: Layout, width: int, height: int, color: Color, before: int, y: int, x: int)
    requires AllKnown(text) && 1 <= l.scale <= 4
    ensures Painted(Cells(text, l, 15 * |text|), width, height, color, before, y, x)
         == Picture(text, l, width, height, color, before, y, x)
  {
    hide Glyph, Bit, Cells, OnPixel, OnBlock;
    CoveredIsOnPixel(text, l, y, x);
    ChromaIsOnBlock(text, l, y - height, x);
  }

  /** The configured values: Y on set pixels, U on even and V on odd columns of the chroma rows. */
  lemma ConfiguredColours(text: string, l: Layout, width: int, height: int, yuv: Yuv, before: int, y: int, x: int)
    requires AllKnown(text) && l.scale > 0 && yuv.Items? && |yuv.items| == 3
    requires GoodItem(yuv.items[0]) && GoodItem(yuv.items[1]) && GoodItem(yuv.items[2])
    ensures var after := Picture(text, l, width, height, ColorOf(yuv), before, y, x);
            if y < height then
              after == if x < width && OnPixel(text, l, y, x) then yuv.items[0].v else before
            else
              after == if !OnBlock(text, l, y - height, x) then before
                       else if x % 2 == 0 then yuv.items[1].v else yuv.items[2].v
  {
    assert forall i :: 0 <= i < 3 ==> GoodItem(yuv.items[i]);
    hide OnPixel, OnBlock;
  }

  /** Different characters have different glyphs. */
  lemma GlyphsDiffer(a: char, b: char)
    requires Known(a) && Known(b) && a != b
    ensures Glyph(a) != Glyph(b)
  {
  }

  /** The bit drawn at one place of the nested loops. */
  lemma NextBit(text: string, l: Layout, i: nat, row: nat, column: nat)
    requires AllKnown(text) && i < |text| && row < 5 && column < 3
    ensures var k := 15 * i + 3 * row + column;
            && k < 15 * |text| && k / 15 == i && k % 15 / 3 == row && k % 3 == column
            && Cells(text, l, k + 1) == Cells(text, l, k) + if Bit(text[i], row, column) then [CellAt(l, k)] else []
  {
    BitIndex(i, row, column);
    hide Glyph, Bit, CellAt;
  }

  lemma BitIs(c: char, row: nat, column: nat)
    requires Known(c) && row < 5 && column < 3
    ensures |Glyph(c).value| == 5 && |Glyph(c).value[row]| == 3
    ensures Bit(c, row, column) <==> Glyph(c).value[row][column] == '1'
  {
    GlyphShape(c);
  }

  lemma NothingPainted(width: int, height: int, color: Color)
    ensures forall before, r, c :: Painted([], width, height, color, before, r, c) == before
  {
  }

  lemma PaintedAppendAll(cells: seq<Cell>, cell: Cell, width: int, height: int, color: Color)
    ensures forall before, r, c ::
              Painted([cell], width, height, color, Painted(cells, width, height, color, before, r, c), r, c)
              == Painted(cells + [cell], width, height, color, before, r, c)
  {
    forall before, r, c
      ensures Painted([cell], width, height, color, Painted(cells, width, height, color, before, r, c), r, c)
              == Painted(cells + [cell], width, height, color, before, r, c)
    {
      PaintedAppend(cells, cell, width, height, color, before, r, c);
    }
  }

  /** The drawing loops; stops at the first character without a glyph. */
  method DrawText(a: array2<int>, width: nat, height: nat, text: string, l: Layout, color: Color) returns (done: nat)
    requires height <= a.Length0 && width <= a.Length1 && 1 <= l.scale <= 4 && l.x >= MARGIN
    modifies a
    ensures done == KnownPrefix(text)
    ensures forall y, x :: 0 <= y < a.Length0 && 0 <= x < a.Length1 ==>
              a[y, x] == Picture(text[..done], l, width, height, color, old(a[y, x]), y, x)
  {
    hide Glyph, Bit, Cells, OnPixel, OnBlock, Painted, KnownPrefix, Picture;
    ghost var known := text[..KnownPrefix(text)];
    ghost var cells: seq<Cell> := Cells(known, l, 0);
    NoCells(known, l);
    NothingPainted(width, height, color);
    var x := l.x;
    done := 0;
    while done < |text|
      invariant done <= |known| && x == l.x + done * 4 * l.scale
      invariant cells == Cells(known, l, 15 * done)
      invariant forall r, c :: 0 <= r < a.Length0 && 0 <= c < a.Length1 ==>
                  a[r, c] == Painted(cells, width, height, color, old(a[r, c]), r, c)
    {
      if !Known(text[done]) {
        break;
      }
      assert done < |known| && text[done] == known[done];
      BitIs(text[done], 0, 0);
      var glyph := Glyph(text[done]).value;
      var row: nat := 0;
      while row < |glyph|
        invariant row <= 5 && cells == Cells(known, l, 15 * done + 3 * row)
        invariant forall r, c :: 0 <= r < a.Length0 && 0 <= c < a.Length1 ==>
                    a[r, c] == Painted(cells, width, height, color, old(a[r, c]), r, c)
      {
        BitIs(text[done], row, 0);
        var column: nat := 0;
        while column < |glyph[row]|
          invariant column <= 3 && cells == Cells(known, l, 15 * done + 3 * row + column)
          invariant forall r, c :: 0 <= r < a.Length0 && 0 <= c < a.Length1 ==>
                      a[r, c] == Painted(cells, width, height, color, old(a[r, c]), r, c)
        {
          NextBit(known, l, done, row, column);
          BitIs(text[done], row, column);
          if glyph[row][column] == '1' {
            var yStart, yEnd := MARGIN + row * l.scale, MARGIN + (row + 1) * l.scale;
            var xStart, xEnd := x + column * l.scale, x + (column + 1) * l.scale;
            var cell := Cell(yStart, yEnd, xStart, xEnd);
            PaintedAppendAll(cells, cell, width, height, color);
            DrawCell(a, width, height, cell, color);
            cells := cells + [cell];
          }
          column := column + 1;
        }
        row := row + 1;
      }
      x := x + 4 * l.scale;
      done := done + 1;
    }
    forall y, x | 0 <= y < a.Length0 && 0 <= x < a.Length1
      ensures a[y, x] == Picture(known, l, width, height, color, old(a[y, x]), y, x)
    {
      PaintedIsPicture(known, l, width, height, color, old(a[y, x]), y, x);
    }
  }

  lemma NoCells(text: string, l: Layout)
    requires AllKnown(text)
    ensures Cells(text, l, 0) == []
  {
  }

  predicate PlanesOk(rows: nat, columns: nat, width: nat, height: nat) {
    height % 2 == 0 && width % 2 == 0 && rows >= height + height / 2 && columns >= width
  }

  /**
    The whole painter.  With every precondition met it turns each byte of the buffer into
    `Picture`; a character without a glyph stops it after the characters before it; any
    other error leaves the buffer alone.
   */
  method DrawTimestamp(nv12: array2<int>, format: string, width: nat, height: nat, text: string, size: FontSize,
      yuv: Yuv)
    returns (outcome: Outcome)
    modifies nv12
    ensures outcome.NotNv12? <==> !IsNv12(format)
    ensures outcome.NotNv12? <==> format !in ["NV12", "Nv12", "nV12", "nv12"]
    ensures outcome.BadPlanes? <==>
              !outcome.NotNv12?
              && (height % 2 == 1 || width % 2 == 1 || nv12.Length0 < height + height / 2 || nv12.Length1 < width)
    ensures outcome.BadPlanes? <==> IsNv12(format) && !PlanesOk(nv12.Length0, nv12.Length1, width, height)
    ensures outcome.FontSizeOverflow? <==>
              IsNv12(format) && PlanesOk(nv12.Length0, nv12.Length1, width, height) && size.Infinite?
    ensures outcome.EmptyText? <==>
              IsNv12(format) && PlanesOk(nv12.Length0, nv12.Length1, width, height) && !size.Infinite? && text == ""
    ensures outcome.Drawn? ==> AllKnown(text)
    ensures outcome.UnknownCharacter? ==> outcome.at == KnownPrefix(text) < |text|
    ensures outcome.Drawn? || outcome.UnknownCharacter? ==>
              forall y, x :: 0 <= y < nv12.Length0 && 0 <= x < nv12.Length1 ==>
                nv12[y, x] == Picture(text[..KnownPrefix(text)],
                                      LayoutOf(width, height, |text|, RequestedScale(size).value),
                                      width, height, ColorOf(yuv), old(nv12[y, x]), y, x)
    ensures !outcome.Drawn? && !outcome.UnknownCharacter? ==>
              forall y, x :: 0 <= y < nv12.Length0 && 0 <= x < nv12.Length1 ==> nv12[y, x] == old(nv12[y, x])
  {
    hide Glyph, Bit, Picture, LayoutOf, ColorOf;
    FormatNames(format);
    if !IsNv12(format) {
      return NotNv12;
    }
    if !PlanesOk(nv12.Length0, nv12.Length1, width, height) {
      return BadPlanes;
    }
    var requested := RequestedScale(size);
    if requested.None? {
      return FontSizeOverflow;
    }
    if text == "" {
      return EmptyText;
    }
    var l := LayoutOf(width, height, |text|, requested.value);
    var done := DrawText(nv12, width, height, text, l, ColorOf(yuv));
    if done == |text| {
      assert text[..done] == text;
      outcome := Drawn;
    } else {
      outcome := UnknownCharacter(done);
    }
  }
}
