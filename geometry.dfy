/** Placement of the evasive "No" button: a ring of eight anchors around the
    card's centre, resolved against the card's bounding box and the button's
    measured size, then clamped into the viewport. Layout measurements are
    parameters; coordinates are exact reals. */
module Geometry {
  import opened Wrappers
  import opened Numeric

  datatype Point = Point(x: real, y: real)

  /** A bounding box as the browser reports it. */
  datatype Rect = Rect(left: real, top: real, width: real, height: real)

  /** A measured element size; a dimension of 0 means "not laid out". */
  datatype Size = Size(width: real, height: real)

  /** Everything the placement reads from the page: the card's box (absent
      while the card is not mounted), the button's measured size (absent
      while the button is not mounted) and the viewport size. */
  datatype Layout = Layout(card: Option<Rect>, button: Option<Size>, innerWidth: real, innerHeight: real)

  /** An anchor: a named offset from the card's centre, as a fraction of the
      largest offset that keeps the button inside the card. */
  datatype Anchor = Anchor(name: string, xOffset: real, yOffset: real)

  /** The eight anchors, clockwise from the left edge. */
  const AnchorPositions: seq<Anchor> := [
    Anchor("left-center", -1.0, 0.0),
    Anchor("top-left", -0.7, -0.7),
    Anchor("top-center", 0.0, -1.0),
    Anchor("top-right", 0.7, -0.7),
    Anchor("right-center", 1.0, 0.0),
    Anchor("bottom-right", 0.7, 0.7),
    Anchor("bottom-center", 0.0, 1.0),
    Anchor("bottom-left", -0.7, 0.7)
  ]

  const AnchorCount: nat := 8

  /** The anchor used for the button's final resting place. */
  const BottomCenter: nat := 6

  const DefaultButtonWidth: real := 120.0
  const DefaultButtonHeight: real := 44.0

  /** Distance kept from the viewport edges. */
  const ViewportMargin: real := 10.0

  /** Distance kept from the card edges before clamping. */
  const CardMargin: real := 20.0

  /** A measured dimension, or the default when it is missing or 0. */
  function Measured(m: real, default: real): real { if m != 0.0 then m else default }

  function ButtonSize(l: Layout): (s: Size)
    ensures l.button.None? ==> s == Size(DefaultButtonWidth, DefaultButtonHeight)
    ensures l.button.Some? && l.button.value.width != 0.0 ==> s.width == l.button.value.width
    ensures l.button.Some? && l.button.value.width == 0.0 ==> s.width == DefaultButtonWidth
    ensures l.button.Some? && l.button.value.height != 0.0 ==> s.height == l.button.value.height
    ensures l.button.Some? && l.button.value.height == 0.0 ==> s.height == DefaultButtonHeight
  {
    match l.button
    case None => Size(DefaultButtonWidth, DefaultButtonHeight)
    case Some(b) => Size(Measured(b.width, DefaultButtonWidth), Measured(b.height, DefaultButtonHeight))
  }

  /** `v` clamped from above by `hi` first and from below by `lo` second, so
      that the lower bound wins when the two bounds cross. */
  function Clamp(v: real, lo: real, hi: real): (r: real)
    ensures r >= lo
    ensures lo <= hi ==> r <= hi
    ensures hi < lo ==> r == lo
    ensures lo <= v <= hi ==> r == v
    ensures v < lo ==> r == lo
    ensures lo <= hi < v ==> r == hi
  {
    MaxReal(lo, MinReal(v, hi))
  }

  /** Largest horizontal offset of the button's centre from the card's
      centre that keeps the button `CardMargin` inside the card. */
  function MaxOffsetX(card: Rect, size: Size): real { card.width / 2.0 - size.width / 2.0 - CardMargin }

  function MaxOffsetY(card: Rect, size: Size): real { card.height / 2.0 - size.height / 2.0 - CardMargin }

  /** Top-left corner of the button at `anchor`, before viewport clamping. */
  function Unclamped(card: Rect, size: Size, anchor: Anchor): Point
  {
    var centerX := card.left + card.width / 2.0;
    var centerY := card.top + card.height / 2.0;
    Point(centerX + anchor.xOffset * MaxOffsetX(card, size) - size.width / 2.0,
          centerY + anchor.yOffset * MaxOffsetY(card, size) - size.height / 2.0)
  }

  /** Right-most and bottom-most coordinates that keep the button
      `ViewportMargin` inside the viewport. */
  function ViewportMaxX(l: Layout): real { l.innerWidth - ButtonSize(l).width - ViewportMargin }

  function ViewportMaxY(l: Layout): real { l.innerHeight - ButtonSize(l).height - ViewportMargin }

  /** Where the button goes for anchor `anchorIndex`, or `None` when the card
      cannot be measured. The result always keeps the viewport margin on the
      top and left, keeps it on the right and bottom whenever the viewport is
      large enough for that, and is the unclamped anchor point whenever that
      point already fits; a coordinate that does not fit lands exactly on the
      nearest margin, the top or left one when the viewport is too small. */
  function GetAnchorPosition(l: Layout, anchorIndex: int): (r: Option<Point>)
    requires 0 <= anchorIndex < AnchorCount
    ensures r.None? <==> l.card.None?
    ensures r.Some? ==> r.value.x >= ViewportMargin && r.value.y >= ViewportMargin
    ensures r.Some? && ViewportMaxX(l) >= ViewportMargin ==> r.value.x <= ViewportMaxX(l)
    ensures r.Some? && ViewportMaxY(l) >= ViewportMargin ==> r.value.y <= ViewportMaxY(l)
    ensures r.Some? ==>
      var p := Unclamped(l.card.value, ButtonSize(l), AnchorPositions[anchorIndex]);
      && (ViewportMargin <= p.x <= ViewportMaxX(l) ==> r.value.x == p.x)
      && (ViewportMargin <= p.y <= ViewportMaxY(l) ==> r.value.y == p.y)
      && (p.x < ViewportMargin || ViewportMaxX(l) < ViewportMargin ==> r.value.x == ViewportMargin)
      && (p.y < ViewportMargin || ViewportMaxY(l) < ViewportMargin ==> r.value.y == ViewportMargin)
      && (ViewportMargin <= ViewportMaxX(l) < p.x ==> r.value.x == ViewportMaxX(l))
      && (ViewportMargin <= ViewportMaxY(l) < p.y ==> r.value.y == ViewportMaxY(l))
  {
    match l.card
    case None => None
    case Some(card) =>
      var p := Unclamped(card, ButtonSize(l), AnchorPositions[anchorIndex]);
      Some(Point(Clamp(p.x, ViewportMargin, ViewportMaxX(l)), Clamp(p.y, ViewportMargin, ViewportMaxY(l))))
  }

  /** Every anchor offset lies in [-1, 1]. */
  lemma AnchorOffsetsInRange(i: nat)
    requires i < AnchorCount
    ensures -1.0 <= AnchorPositions[i].xOffset <= 1.0
    ensures -1.0 <= AnchorPositions[i].yOffset <= 1.0
  {
  }

  /** Before clamping, whenever the card is wide (tall) enough to hold the
      button with its margin, every anchor places the whole button at least
      `CardMargin` inside the card's left and right (top and bottom) edges. */
  lemma UnclampedInsideCard(card: Rect, size: Size, i: nat)
    requires i < AnchorCount
    ensures MaxOffsetX(card, size) >= 0.0 ==>
      var p := Unclamped(card, size, AnchorPositions[i]);
      card.left + CardMargin <= p.x && p.x + size.width <= card.left + card.width - CardMargin
    ensures MaxOffsetY(card, size) >= 0.0 ==>
      var p := Unclamped(card, size, AnchorPositions[i]);
      card.top + CardMargin <= p.y && p.y + size.height <= card.top + card.height - CardMargin
  {
  }
}
