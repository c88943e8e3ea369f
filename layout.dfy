/** The layout resolver: the chart's size, padding and orientation, decided once
    at load time from the viewport width. */
module Layouts {

  /** width and height of the drawing surface, the padding that insets the axes,
      and whether the chart is rotated (time axis vertical, bars growing rightward). */
  datatype Layout = Layout(width: real, height: real, padding: real, rotate: bool)

  const DefaultLayout := Layout(1000.0, 500.0, 40.0, false)

  /** Viewports narrower than this get the rotated chart. */
  const NarrowViewport: nat := 625

  /** The policy as a table of the three viewport ranges. The chart is never wider
      than the viewport; it is rotated exactly when the viewport is narrower than
      625 and then, only then, 1000 high; and the padding fits inside both
      dimensions exactly when the viewport is at least 57 wide. */
  function Resolved(innerWidth: nat): (l: Layout)
    ensures l.width <= innerWidth as real
    ensures l.rotate <==> innerWidth < NarrowViewport
    ensures l.height == 1000.0 <==> l.rotate
    ensures (l.padding < l.width && l.padding < l.height) <==> innerWidth >= 57
  {
    var shrunk := innerWidth as real * 4.0 / 5.0;
    if innerWidth >= 1000 then DefaultLayout
    else if innerWidth >= NarrowViewport then Layout(shrunk, 500.0, 40.0, false)
    else Layout(shrunk, 1000.0, 45.0, true)
  }

  /** The load-time block: starts from the defaults and reassigns them in order.
      The rotated height is taken from the width before the width is shrunk. */
  method Resolve(innerWidth: nat) returns (l: Layout)
    ensures l == Resolved(innerWidth)
    ensures innerWidth >= 1000 ==> l == DefaultLayout
    ensures NarrowViewport <= innerWidth < 1000 ==>
      l == Layout(innerWidth as real * 4.0 / 5.0, 500.0, 40.0, false)
    ensures innerWidth < NarrowViewport ==>
      l == Layout(innerWidth as real * 4.0 / 5.0, 1000.0, 45.0, true)
  {
    var width, height, padding, rotate := 1000.0, 500.0, 40.0, false;
    if (innerWidth as real) < width {
      if innerWidth < NarrowViewport {
        rotate := true;
        height := width;
        padding := 45.0;
      }
      width := (innerWidth as real * 4.0) / 5.0;
    }
    l := Layout(width, height, padding, rotate);
  }
}
