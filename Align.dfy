/**
 * HUD alignment anchors: where on a w-by-h box each of the nine alignment
 * values sits, and the translation of a point by that anchor.
 */
module Align {
  import opened DotNet

  /** An alignment: the first word names the row (Y), the second the column (X). */
  datatype Align =
    | TopLeft | TopMiddle | TopRight
    | MiddleLeft | Center | MiddleRight
    | BottomLeft | BottomMiddle | BottomRight

  datatype Vec2I = Vec2I(x: int, y: int)

  datatype Row = TopRow | MiddleRow | BottomRow
  datatype Column = LeftColumn | MiddleColumn | RightColumn

  function RowOf(a: Align): Row {
    match a
    case TopLeft | TopMiddle | TopRight => TopRow
    case MiddleLeft | Center | MiddleRight => MiddleRow
    case BottomLeft | BottomMiddle | BottomRight => BottomRow
  }

  function ColumnOf(a: Align): Column {
    match a
    case TopLeft | MiddleLeft | BottomLeft => LeftColumn
    case TopMiddle | Center | BottomMiddle => MiddleColumn
    case TopRight | MiddleRight | BottomRight => RightColumn
  }

  /** Reference definition of an anchor's X: the left edge, the middle, or the last column. */
  function ColumnX(c: Column, w: int): int {
    match c
    case LeftColumn => 0
    case MiddleColumn => TruncDiv(w, 2)
    case RightColumn => w - 1
  }

  /** Reference definition of an anchor's Y: the top edge, the middle, or the last row. */
  function RowY(r: Row, h: int): int {
    match r
    case TopRow => 0
    case MiddleRow => TruncDiv(h, 2)
    case BottomRow => h - 1
  }

  /** The anchor point the source selects with its nine-way switch. */
  function Anchor(align: Align, w: int, h: int): (p: Vec2I)
    ensures p.x == ColumnX(ColumnOf(align), w) && p.y == RowY(RowOf(align), h)
  {
    match align
    case TopLeft => Vec2I(0, 0)
    case TopMiddle => Vec2I(TruncDiv(w, 2), 0)
    case TopRight => Vec2I(w - 1, 0)
    case MiddleLeft => Vec2I(0, TruncDiv(h, 2))
    case Center => Vec2I(TruncDiv(w, 2), TruncDiv(h, 2))
    case MiddleRight => Vec2I(w - 1, TruncDiv(h, 2))
    case BottomLeft => Vec2I(0, h - 1)
    case BottomMiddle => Vec2I(TruncDiv(w, 2), h - 1)
    case BottomRight => Vec2I(w - 1, h - 1)
  }

  /**
   * `AlignHelper.Translate`: the point moved by the anchor of `align` in a
   * box of width `w` and height `h`.
   */
  function Translate(align: Align, point: Vec2I, w: int, h: int): (r: Vec2I)
    ensures r.x - point.x == ColumnX(ColumnOf(align), w)
    ensures r.y - point.y == RowY(RowOf(align), h)
    ensures align == TopLeft ==> r == point
    ensures w >= 1 && h >= 1 ==> 0 <= r.x - point.x < w && 0 <= r.y - point.y < h
  {
    var anchor := Anchor(align, w, h);
    Vec2I(anchor.x + point.x, anchor.y + point.y)
  }

  /** The X of an anchor depends only on the column word, its Y only on the row word. */
  lemma AnchorSeparates(a: Align, b: Align, w: int, h: int)
    ensures ColumnOf(a) == ColumnOf(b) ==> Anchor(a, w, h).x == Anchor(b, w, h).x
    ensures RowOf(a) == RowOf(b) ==> Anchor(a, w, h).y == Anchor(b, w, h).y
  {
  }

  /** Translating by a point is additive: it moves the result by that point. */
  lemma TranslateIsTranslation(align: Align, p: Vec2I, q: Vec2I, w: int, h: int)
    ensures Translate(align, Vec2I(p.x + q.x, p.y + q.y), w, h)
         == Vec2I(Translate(align, p, w, h).x + q.x, Translate(align, p, w, h).y + q.y)
  {
  }
}
