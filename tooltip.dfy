/** The tooltip controller: a text element and its background box, placed next
    to the hovered bar (flipped to the other side of it near the chart's edge),
    shown on hover and hidden when the pointer leaves the bar. */
module Tooltip {
  import opened Layouts
  import opened Quarter

  datatype Option<T> = None | Some(value: T)

  /** Margin between the tooltip text and the edge of its background box. */
  const MarginX: real := 10.0
  const MarginY: real := 22.0

  /** The background box, sized from the margins around a 108 by 15 text. */
  const BgWidth: real := 2.0 * MarginX + 108.0
  const BgHeight: real := 2.0 * MarginY + 15.0

  /** Gap between a bar and the tooltip in the normal chart. */
  const Space: real := 20.0

  lemma BackgroundSize()
    ensures BgWidth == 128.0 && BgHeight == 59.0
  {
  }

  datatype Point = Point(x: real, y: real)

  /** The fixed coordinate of the tooltip: half the width across when rotated, three
      quarters of the way down otherwise. The other coordinate follows the bar. The
      rotated box starts 10 left of half the width, so its centre is 54 right of it,
      and it fits across the chart exactly when the chart is at least 236 wide; the
      normal box stays above the x axis exactly when a quarter of the height leaves
      room for the padding and 37 more. */
  function Anchor(l: Layout): (p: Point)
    ensures l.rotate ==> p.x - MarginX + BgWidth / 2.0 == l.width / 2.0 + 54.0
    ensures l.rotate ==>
      (0.0 <= p.x - MarginX && p.x - MarginX + BgWidth <= l.width <==> l.width >= 236.0)
    ensures !l.rotate ==>
      (p.y - MarginY + BgHeight <= l.height - l.padding <==> l.height >= 4.0 * (l.padding + 37.0))
  {
    Point(if l.rotate then l.width / 2.0 else 0.0,
          if l.rotate then 0.0 else (l.height * 3.0) / 4.0)
  }

  /** The tooltip's x in the normal chart: 20 to the right of the bar, unless the
      background box would then reach the chart's right edge, in which case it moves
      to the bar's left, 132 before it. Either way the box keeps clear of the bar's
      left edge, and on a chart at least 290 wide it stays inside the chart for any
      bar inside it. */
  function NormalTooltipX(barX: int, width: real): (x: real)
    ensures x == barX as real + Space || x == barX as real - 132.0
    ensures x == barX as real + Space <==> barX as real + Space < width - BgWidth
    ensures x - MarginX > barX as real || x - MarginX + BgWidth < barX as real
    ensures 0 <= barX && barX as real <= width && width >= 290.0 ==>
      0.0 <= x - MarginX && x - MarginX + BgWidth <= width
  {
    var right := barX as real + Space;
    if right >= width - BgWidth then right - Space - BgWidth - 4.0 else right
  }

  /** The tooltip's y in the rotated chart: the box's height above the bar, unless
      the box would then reach into the padding at the top, in which case it moves
      below the bar, 42 after it. Either way the box keeps clear of the bar's top
      edge, and for a bar below the padding the box is below the padding too. */
  function RotatedTooltipY(barY: int, padding: real): (y: real)
    ensures y == barY as real - BgHeight || y == barY as real + 42.0
    ensures y == barY as real - BgHeight <==> barY as real - BgHeight - MarginY > padding
    ensures y - MarginY > barY as real || y - MarginY + BgHeight < barY as real
    ensures padding <= barY as real ==> y - MarginY > padding
  {
    var above := barY as real - BgHeight;
    if above - MarginY <= padding then above + BgHeight + MarginY + 20.0 else above
  }

  /** Near the right edge of the default chart the tooltip flips: a bar at 950
      would put it at 970, past 1000 - 128, so it goes to 818 and its box to 808. */
  lemma EdgeFlipExample()
    ensures NormalTooltipX(950, 1000.0) == 950.0 + Space - Space - BgWidth - 4.0 == 818.0
    ensures NormalTooltipX(950, 1000.0) - MarginX == 808.0
  {
  }

  /** On every chart the resolver gives in the normal orientation, the tooltip of a
      bar inside the chart is inside the chart. */
  lemma NormalTooltipOnScreen(innerWidth: nat, barX: int)
    requires innerWidth >= NarrowViewport
    requires 0 <= barX && barX as real <= Resolved(innerWidth).width
    ensures var l := Resolved(innerWidth);
      var x := NormalTooltipX(barX, l.width);
      0.0 <= x - MarginX && x - MarginX + BgWidth <= l.width &&
      0.0 <= Anchor(l).y - MarginY && Anchor(l).y - MarginY + BgHeight <= l.height - l.padding
  {
  }

  /** On every rotated chart the tooltip of a bar between the padding and the
      bottom is below the padding and above the bottom; it fits across the chart
      exactly when the viewport is at least 295 wide. */
  lemma RotatedTooltipOnScreen(innerWidth: nat, barY: int)
    requires innerWidth < NarrowViewport
    requires Resolved(innerWidth).padding <= barY as real <= Resolved(innerWidth).height
    ensures var l := Resolved(innerWidth);
      var y := RotatedTooltipY(barY, l.padding);
      l.padding < y - MarginY && y - MarginY + BgHeight <= l.height
    ensures var l := Resolved(innerWidth);
      (0.0 <= Anchor(l).x - MarginX && Anchor(l).x - MarginX + BgWidth <= l.width)
      <==> innerWidth >= 295
  {
  }

  /** What the tooltip text holds: the quarter label, then a second line placed at
      (lineX, lineY) that reads the value in billions of dollars. */
  datatype Content = Content(quarter: string, lineX: real, lineY: real, gdp: real)

  function Offset(p: Option<real>, d: real): Option<real> {
    match p
    case None => None
    case Some(v) => Some(v + d)
  }

  /** The tooltip text and its background box. A coordinate is None until it is
      first set; the text's opacity is None until the first hover styles it. */
  class TooltipView {
    const layout: Layout
    const anchor: Point
    var textX: Option<real>
    var textY: Option<real>
    var bgX: Option<real>
    var bgY: Option<real>
    var textOpacity: Option<real>
    var bgOpacity: real
    var content: Option<Content>
    var date: Option<string>

    /** The box always sits a margin up and left of the text; the coordinate the
        bar does not move stays at the anchor; text and box are shown and hidden
        together. */
    ghost predicate Valid()
      reads this
    {
      anchor == Anchor(layout) &&
      bgX == Offset(textX, -MarginX) && bgY == Offset(textY, -MarginY) &&
      (if layout.rotate then textX == Some(anchor.x) else textY == Some(anchor.y)) &&
      (bgOpacity == 0.0 || bgOpacity == 1.0) &&
      (textOpacity.Some? ==> textOpacity.value == bgOpacity) &&
      (content.Some? <==> date.Some?)
    }

    predicate Visible()
      reads this
    {
      bgOpacity == 1.0
    }

    /** The set-up after the chart is drawn: a hidden box of the fixed size and the
        text, each given the anchored coordinate only. */
    constructor (l: Layout)
      ensures Valid() && !Visible()
      ensures layout == l && anchor == Anchor(l)
      ensures l.rotate ==> textX == Some(l.width / 2.0) && bgX == Some(l.width / 2.0 - MarginX) &&
                           textY == None && bgY == None
      ensures !l.rotate ==> textY == Some(l.height * 3.0 / 4.0) &&
                            bgY == Some(l.height * 3.0 / 4.0 - MarginY) &&
                            textX == None && bgX == None
      ensures textOpacity == None && bgOpacity == 0.0 && content == None && date == None
    {
      layout := l;
      var c := Anchor(l);
      anchor := c;
      textOpacity, bgOpacity := None, 0.0;
      content, date := None, None;
      if l.rotate {
        textX, textY := Some(c.x), None;
        bgX, bgY := Some(c.x - MarginX), None;
      } else {
        textX, textY := None, Some(c.y);
        bgX, bgY := None, Some(c.y - MarginY);
      }
    }

    /** The pointer enters the bar at barPos (its y when rotated, its x otherwise)
        whose entry is (dateString, gdp). The position across the bars follows the
        placement rule, the other stays at the anchor, the text shows the quarter
        and the value, both elements become fully opaque and the text is tagged
        with the date. Nothing of an earlier hover survives in the geometry. */
    method MouseOver(barPos: int, dateString: string, gdp: real)
      requires Valid()
      modifies this
      ensures Valid() && Visible()
      ensures textOpacity == Some(1.0) && date == Some(dateString)
      ensures layout.rotate ==>
        var y := RotatedTooltipY(barPos, layout.padding);
        textY == Some(y) && textX == old(textX) &&
        content == Some(Content(GetQuarter(dateString), anchor.x, y + 25.0, gdp))
      ensures !layout.rotate ==>
        var x := NormalTooltipX(barPos, layout.width);
        textX == Some(x) && textY == old(textY) &&
        content == Some(Content(GetQuarter(dateString), x, anchor.y + 25.0, gdp))
    {
      if layout.rotate {
        var y := barPos as real - BgHeight;
        if y - MarginY <= layout.padding {
          y := y + BgHeight + MarginY + 20.0;
        }
        textY := Some(y);
        content := Some(Content(GetQuarter(dateString), anchor.x, y + 25.0, gdp));
        bgY := Some(y - MarginY);
      } else {
        var x := barPos as real + Space;
        if x >= layout.width - BgWidth {
          x := x - Space - BgWidth - 4.0;
        }
        textX := Some(x);
        content := Some(Content(GetQuarter(dateString), x, anchor.y + 25.0, gdp));
        bgX := Some(x - MarginX);
      }
      textOpacity := Some(1.0);
      date := Some(dateString);
      bgOpacity := 1.0;
    }

    /** The pointer leaves the bar: both elements become fully transparent and
        nothing else changes. */
    method MouseOut()
      requires Valid()
      modifies this`textOpacity, this`bgOpacity
      ensures Valid() && !Visible()
      ensures textOpacity == Some(0.0) && bgOpacity == 0.0
    {
      textOpacity := Some(0.0);
      bgOpacity := 0.0;
    }
  }
}
