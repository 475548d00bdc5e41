/** Window placement: a window a third of the screen in each dimension, centred.
    Screen sizes are non-negative, so Python's `int(x / 3)` and `int(x / 2)` are
    floor division here. */
module Geometry {

  datatype Placement = Placement(width: nat, height: nat, x: nat, y: nat)

  /** One third of a screen dimension, rounded down. */
  function Third(screen: nat): (w: nat)
    ensures 3 * w <= screen < 3 * w + 3
  {
    screen / 3
  }

  /** The offset that centres an extent `w` on a screen of size `screen`: the margin
      before it is the margin after it, or one less. */
  function CentredOffset(screen: nat, w: nat): (x: nat)
    requires w <= screen
    ensures x + w <= screen
    ensures x <= screen - w - x <= x + 1
  {
    (screen - w) / 2
  }

  /** `_position_window`: the window's size and position for a screen of the given size. */
  function PositionWindow(screenWidth: nat, screenHeight: nat): (p: Placement)
    ensures 3 * p.width <= screenWidth < 3 * p.width + 3
    ensures 3 * p.height <= screenHeight < 3 * p.height + 3
    ensures p.x + p.width <= screenWidth && p.y + p.height <= screenHeight
    ensures p.x <= screenWidth - p.width - p.x <= p.x + 1
    ensures p.y <= screenHeight - p.height - p.y <= p.y + 1
  {
    var w := Third(screenWidth);
    var h := Third(screenHeight);
    Placement(w, h, CentredOffset(screenWidth, w), CentredOffset(screenHeight, h))
  }

  /** The placement is the only one that is a third of the screen and centred
      to within one pixel with the larger margin after the window. */
  lemma PlacementUnique(screenWidth: nat, screenHeight: nat, p: Placement)
    requires 3 * p.width <= screenWidth < 3 * p.width + 3
    requires 3 * p.height <= screenHeight < 3 * p.height + 3
    requires p.x + p.width <= screenWidth && p.y + p.height <= screenHeight
    requires p.x <= screenWidth - p.width - p.x <= p.x + 1
    requires p.y <= screenHeight - p.height - p.y <= p.y + 1
    ensures p == PositionWindow(screenWidth, screenHeight)
  {
    var q := PositionWindow(screenWidth, screenHeight);
    ThirdUnique(screenWidth, p.width, q.width);
    ThirdUnique(screenHeight, p.height, q.height);
  }

  lemma ThirdUnique(screen: nat, a: nat, b: nat)
    requires 3 * a <= screen < 3 * a + 3
    requires 3 * b <= screen < 3 * b + 3
    ensures a == b
  {
  }
}
