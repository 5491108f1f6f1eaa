/** Window rectangles (src/api/display/rect.rs). */
module Rects {
  import opened CTypes

  datatype Rect = Rect(left: I32, top: I32, right: I32, bottom: I32)

  /** `Default`: all zero. */
  function Default(): (r: Rect)
    ensures r.left == 0 && r.top == 0 && r.right == 0 && r.bottom == 0
  {
    Rect(0, 0, 0, 0)
  }

  /**
   * `Rect::new(left, top, width, height)`: the width goes into `right` and
   * the height into `bottom` as they are; nothing is added to `left` or `top`.
   */
  function New(left: I32, top: I32, width: I32, height: I32): (r: Rect)
    ensures r.left == left && r.top == top && r.right == width && r.bottom == height
  {
    Rect(left, top, width, height)
  }

  /** `left`. */
  function WithLeft(rect: Rect, value: I32): (r: Rect)
    ensures r.left == value && r.top == rect.top && r.right == rect.right && r.bottom == rect.bottom
  {
    rect.(left := value)
  }

  /** `top`. */
  function WithTop(rect: Rect, value: I32): (r: Rect)
    ensures r.top == value && r.left == rect.left && r.right == rect.right && r.bottom == rect.bottom
  {
    rect.(top := value)
  }

  /** `right`. */
  function WithRight(rect: Rect, value: I32): (r: Rect)
    ensures r.right == value && r.left == rect.left && r.top == rect.top && r.bottom == rect.bottom
  {
    rect.(right := value)
  }

  /** `bottom`. */
  function WithBottom(rect: Rect, value: I32): (r: Rect)
    ensures r.bottom == value && r.left == rect.left && r.top == rect.top && r.right == rect.right
  {
    rect.(bottom := value)
  }

  /** Setting a field twice keeps the last value; setters of different fields commute. */
  lemma LastSetWins(rect: Rect, a: I32, b: I32)
    ensures WithLeft(WithLeft(rect, a), b) == WithLeft(rect, b)
    ensures WithTop(WithTop(rect, a), b) == WithTop(rect, b)
    ensures WithRight(WithRight(rect, a), b) == WithRight(rect, b)
    ensures WithBottom(WithBottom(rect, a), b) == WithBottom(rect, b)
    ensures WithLeft(WithTop(rect, a), b) == WithTop(WithLeft(rect, b), a)
    ensures WithRight(WithBottom(rect, a), b) == WithBottom(WithRight(rect, b), a)
  {
  }

  /**
   * The four setters applied to the default build what `new` builds from the
   * same values, and every rectangle is built by `new` from its own fields.
   */
  lemma NewFromFields(rect: Rect, l: I32, t: I32, r: I32, b: I32)
    ensures WithBottom(WithRight(WithTop(WithLeft(Default(), l), t), r), b) == New(l, t, r, b)
    ensures New(rect.left, rect.top, rect.right, rect.bottom) == rect
  {
  }
}
