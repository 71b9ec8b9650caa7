/** The before/after image slider: a divider position in percent of the
    component's width, moved by dragging with the mouse or by touch, and the
    clip of the "before" image that follows it. */
module BeforeAfterSlider {

  /** `Math.max` and `Math.min` on numbers that are not NaN. */
  function Max(a: real, b: real): (m: real)
    ensures m >= a && m >= b && (m == a || m == b)
  {
    if a >= b then a else b
  }

  function Min(a: real, b: real): (m: real)
    ensures m <= a && m <= b && (m == a || m == b)
  {
    if a <= b then a else b
  }

  /** The position `handleMove` computes for a pointer at `clientX` over a
      rectangle starting at `left` of width `width`: the pointer's offset
      into the rectangle as a percentage of its width, clamped to [0, 100]. */
  function MovePercent(clientX: real, left: real, width: real): (p: real)
    requires width > 0.0
    ensures 0.0 <= p <= 100.0
    ensures clientX <= left ==> p == 0.0
    ensures clientX >= left + width ==> p == 100.0
    ensures left <= clientX <= left + width ==> p * width == (clientX - left) * 100.0
    ensures left <= clientX <= left + width ==> p == (clientX - left) / width * 100.0
  {
    var x := Max(0.0, Min(clientX - left, width));
    var percent := Max(0.0, Min((x / width) * 100.0, 100.0));
    ProportionBounds(x, width);
    percent
  }

  /** A clamped offset is at most the width, so its percentage is at most 100. */
  lemma ProportionBounds(x: real, width: real)
    requires width > 0.0 && 0.0 <= x <= width
    ensures 0.0 <= (x / width) * 100.0 <= 100.0
    ensures ((x / width) * 100.0) * width == x * 100.0
  {
    var q := x / width;
    assert q * width == x;
    if q > 1.0 {
      ScaleStrict(1.0, q, width);
      assert false;
    }
    if q < 0.0 {
      ScaleStrict(q, 0.0, width);
      assert false;
    }
  }

  /** The position never moves left when the pointer moves right. */
  lemma MovePercentMonotone(x1: real, x2: real, left: real, width: real)
    requires width > 0.0 && x1 <= x2
    ensures MovePercent(x1, left, width) <= MovePercent(x2, left, width)
  {
    if left <= x1 && x2 <= left + width {
      DivideMonotone(x1 - left, x2 - left, width);
    }
  }

  /** Dividing by a positive width keeps the order. */
  lemma DivideMonotone(a: real, b: real, w: real)
    requires a <= b && w > 0.0
    ensures a / w <= b / w
  {
  }

  /** Scaling by a positive width keeps a strict order. */
  lemma ScaleStrict(a: real, b: real, w: real)
    requires a < b && w > 0.0
    ensures a * w < b * w
  {
    assert b * w - a * w == (b - a) * w;
  }

  /** The slider's state: `sliderPosition` and `isDragging`. */
  class Slider {
    var position: real
    var dragging: bool

    /** The position is a percentage. */
    predicate Valid()
      reads this
    {
      0.0 <= position <= 100.0
    }

    /** The slider starts in the middle, not dragging. */
    constructor ()
      ensures position == 50.0 && !dragging
      ensures Valid()
    {
      position := 50.0;
      dragging := false;
    }

    /** `handleMouseDown`: dragging starts; the position stays. */
    method MouseDown()
      modifies this`dragging
      ensures dragging && position == old(position)
    {
      dragging := true;
    }

    /** `handleMouseUp`: dragging ends; the position stays. */
    method MouseUp()
      modifies this`dragging
      ensures !dragging && position == old(position)
    {
      dragging := false;
    }

    /** Leaving the component is handled by `handleMouseUp`. */
    method MouseLeave()
      modifies this`dragging
      ensures !dragging && position == old(position)
    {
      MouseUp();
    }

    /** `handleMouseMove`: only a drag moves the divider. */
    method MouseMove(clientX: real, left: real, width: real)
      requires width > 0.0
      modifies this`position
      ensures dragging ==> position == MovePercent(clientX, left, width)
      ensures !dragging ==> position == old(position)
      ensures old(Valid()) ==> Valid()
    {
      if !dragging {
        return;
      }
      position := MovePercent(clientX, left, width);
    }

    /** `handleTouchMove`: a touch moves the divider to the first touch point,
        dragging or not. */
    method TouchMove(touchX: real, left: real, width: real)
      requires width > 0.0
      modifies this`position
      ensures position == MovePercent(touchX, left, width)
      ensures Valid()
    {
      position := MovePercent(touchX, left, width);
    }

    /** The right inset of the "before" image's clip, in percent. */
    function ClipRightInset(): (inset: real)
      reads this
      requires Valid()
      ensures 0.0 <= inset <= 100.0
    {
      100.0 - position
    }

    /** The divider line's left offset, in percent. */
    function DividerLeft(): (offset: real)
      reads this
      requires Valid()
      ensures 0.0 <= offset <= 100.0
    {
      position
    }

    /** The visible part of the "before" image ends exactly at the divider. */
    lemma ClipMeetsDivider()
      requires Valid()
      ensures DividerLeft() + ClipRightInset() == 100.0
    {
    }
  }
}
