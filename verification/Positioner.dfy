/** The popup positioner: anchors, gravity and constraint adjustment (native/base.c). */
module Positioner {
  import opened Boxes

  // ----- edges

  /** An edge mask, two bits an axis: 1 is the left or top edge, 2 the right or bottom edge. */
  datatype Edges = Edges(across: nat, down: nat)

  /** `anchor_edges`, indexed by the protocol's anchor and gravity values. */
  const ANCHOR_EDGES: seq<Edges> := [
    Edges(0, 0), Edges(0, 1), Edges(0, 2), Edges(1, 0), Edges(2, 0), Edges(1, 1), Edges(1, 2), Edges(2, 1), Edges(2, 2)
  ]

  type Anchor = a: nat | a < 9

  datatype Side = Low | Middle | High

  function SideOf(bits: nat): Side {
    if bits == 1 then Low else if bits == 2 then High else Middle
  }

  function Across(a: Anchor): Side {
    SideOf(ANCHOR_EDGES[a].across)
  }

  function Down(a: Anchor): Side {
    SideOf(ANCHOR_EDGES[a].down)
  }

  function Opposite(s: Side): Side {
    match s
    case Low => High
    case High => Low
    case Middle => Middle
  }

  /** `edges ^= axis` when they share a bit, where `axis` has both bits of each chosen axis. */
  function InvertEdges(e: Edges, x: bool, y: bool): Edges
    requires e.across <= 3 && e.down <= 3
  {
    if (x && e.across != 0) || (y && e.down != 0) then
      Edges(if x then 3 - e.across else e.across, if y then 3 - e.down else e.down)
    else
      e
  }

  /** `edges_invert`: looks the inverted edges up in the table, and gives up if they are not there. */
  method EdgesInvert(anchor: Anchor, x: bool, y: bool) returns (r: Anchor)
    ensures r == Inverted(anchor, x, y)
  {
    var edges := InvertEdges(ANCHOR_EDGES[anchor], x, y);
    for i := 0 to 9
      invariant Search(edges, 0, anchor) == Search(edges, i, anchor)
    {
      if ANCHOR_EDGES[i] == edges {
        return i;
      }
    }
    return anchor;
  }

  /** The first table entry from `i` on with these edges, or `otherwise`. */
  function Search(edges: Edges, i: nat, otherwise: Anchor): Anchor
    requires i <= 9
    decreases 9 - i
  {
    if i == 9 then otherwise else if ANCHOR_EDGES[i] == edges then i else Search(edges, i + 1, otherwise)
  }

  function Inverted(anchor: Anchor, x: bool, y: bool): Anchor {
    Search(InvertEdges(ANCHOR_EDGES[anchor], x, y), 0, anchor)
  }

  /** The search finds the entry, if there is one. */
  lemma {:induction false} SearchFinds(edges: Edges, i: nat, otherwise: Anchor)
    requires i <= 9
    ensures var r := Search(edges, i, otherwise);
      if exists j :: i <= j < 9 && ANCHOR_EDGES[j] == edges then ANCHOR_EDGES[r] == edges else r == otherwise
    decreases 9 - i
  {
    if i < 9 {
      SearchFinds(edges, i + 1, otherwise);
    }
  }

  /** `r` is `a` with the chosen axes flipped. */
  predicate Flips(a: Anchor, r: Anchor, x: bool, y: bool) {
    && Across(r) == (if x then Opposite(Across(a)) else Across(a))
    && Down(r) == (if y then Opposite(Down(a)) else Down(a))
  }

  /** An anchor on one edge only. */
  predicate SingleEdge(a: Anchor) {
    (Across(a) == Middle) != (Down(a) == Middle)
  }

  /**
   * Flipping works except for an anchor on a single edge with both axes asked for: the mask then sets two
   * opposite edges, the table has no such entry, and neither axis is flipped.
   */
  lemma EdgesInvertExact(a: Anchor, x: bool, y: bool)
    ensures Flips(a, Inverted(a, x, y), x, y) <==> !(x && y && SingleEdge(a))
    ensures x && y && SingleEdge(a) ==> Inverted(a, x, y) == a
  {
    var edges := InvertEdges(ANCHOR_EDGES[a], x, y);
    SearchFinds(edges, 0, a);
    if !(x && y && SingleEdge(a)) {
      var j := InvertedIndex(a, x, y);
      assert ANCHOR_EDGES[j] == edges;
    }
  }

  /** Where the inverted edges stand in the table, when they do. */
  function InvertedIndex(a: Anchor, x: bool, y: bool): (j: Anchor)
    requires !(x && y && SingleEdge(a))
    ensures ANCHOR_EDGES[j] == InvertEdges(ANCHOR_EDGES[a], x, y)
  {
    match a
    case 0 => 0
    case 1 => if y then 2 else 1
    case 2 => if y then 1 else 2
    case 3 => if x then 4 else 3
    case 4 => if x then 3 else 4
    case 5 => if x && y then 8 else if x then 7 else if y then 6 else 5
    case 6 => if x && y then 7 else if x then 8 else if y then 5 else 6
    case 7 => if x && y then 6 else if x then 5 else if y then 8 else 7
    case 8 => if x && y then 5 else if x then 6 else if y then 7 else 8
  }

  // ----- one axis

  datatype Span = Span(at: int, size: int)

  function Half(n: int): int {
    if n >= 0 then n / 2 else -(-n / 2)
  }

  function AnchorPoint(rect: Span, side: Side): int {
    match side
    case Low => rect.at
    case High => rect.at + rect.size
    case Middle => rect.at + Half(rect.size)
  }

  function Pulled(size: int, side: Side): int {
    match side
    case Low => size
    case High => 0
    case Middle => Half(size)
  }

  function Place(rect: Span, offset: int, size: int, anchor: Side, gravity: Side): int {
    offset + AnchorPoint(rect, anchor) - Pulled(size, gravity)
  }

  /** Flipping both sides reflects the box, without its offset, in the middle of the anchor rectangle. */
  lemma FlipReflects(rect: Span, offset: int, size: int, anchor: Side, gravity: Side)
    requires anchor != Middle && gravity != Middle
    ensures (Place(rect, offset, size, anchor, gravity) - offset) +
      (Place(rect, offset, size, Opposite(anchor), Opposite(gravity)) - offset) + size == 2 * rect.at + rect.size
  {
  }

  function LowOver(c: Span, s: Span): int {
    c.at - s.at
  }

  function HighOver(c: Span, s: Span): int {
    s.at + s.size - c.at - c.size
  }

  predicate Fits(c: Span, s: Span) {
    LowOver(c, s) <= 0 && HighOver(c, s) <= 0
  }

  /** `slide`. */
  function Slide(low: int, high: int, towardLow: bool): int {
    if low > 0 && high > 0 then
      if towardLow then -high else low
    else
      if Abs(low) < Abs(high) then low else -high
  }

  predicate OneSided(c: Span, s: Span) {
    (LowOver(c, s) > 0) != (HighOver(c, s) > 0)
  }

  function Flipped(c: Span, s: Span, flip: bool, at: int): Span {
    if flip && OneSided(c, s) && Fits(c, Span(at, s.size)) then Span(at, s.size) else s
  }

  function Slid(c: Span, s: Span, slide: bool, towardLow: bool): Span {
    if slide && !Fits(c, s) then Span(s.at + Slide(LowOver(c, s), HighOver(c, s), towardLow), s.size) else s
  }

  function Clipped(c: Span, s: Span, resize: bool): Span {
    if resize && !Fits(c, s) then
      var low, high := Max(LowOver(c, s), 0), Max(HighOver(c, s), 0);
      Span(s.at + low, s.size - low - high)
    else
      s
  }

  /** Sliding moves a span to the nearer end of the constraint that it sticks out of, and never further. */
  lemma SlideStops(c: Span, s: Span, towardLow: bool)
    requires s.size <= c.size
    ensures var r := Slid(c, s, true, towardLow);
      if LowOver(c, s) > 0 then r.at == c.at
      else if HighOver(c, s) > 0 then r.at + r.size == c.at + c.size
      else r == s
  {
  }

  /** Sliding contains a span exactly when it is no longer than the constraint. */
  lemma SlideContains(c: Span, s: Span, towardLow: bool)
    ensures Fits(c, Slid(c, s, true, towardLow)) <==> s.size <= c.size
    ensures Slid(c, s, true, towardLow).size == s.size
  {
  }

  /** A span too long to fit ends with the end that its gravity points at inside the constraint. */
  lemma SlideTooLong(c: Span, s: Span, towardLow: bool)
    requires LowOver(c, s) > 0 && HighOver(c, s) > 0
    ensures var r := Slid(c, s, true, towardLow);
      if towardLow then r.at + r.size == c.at + c.size else r.at == c.at
  {
  }

  predicate Covers(s: Span, p: int) {
    s.at <= p < s.at + s.size
  }

  /** Clipping is intersection: the clipped span covers what both cover. */
  lemma ClipIntersects(c: Span, s: Span)
    ensures forall p :: Covers(Clipped(c, s, true), p) <==> Covers(c, p) && Covers(s, p)
    ensures Clipped(c, s, true).size > 0 ==> Fits(c, Clipped(c, s, true))
  {
  }

  // ----- both axes

  datatype Adjust = Adjust(slideX: bool, slideY: bool, flipX: bool, flipY: bool, resizeX: bool, resizeY: bool)

  datatype Rules = Rules(rect: Box, anchor: Anchor, gravity: Anchor, adjust: Adjust,
                         width: int, height: int, dx: int, dy: int)

  function X(b: Box): Span {
    Span(b.x, b.width)
  }

  function Y(b: Box): Span {
    Span(b.y, b.height)
  }

  /** `positioner_geometry`. */
  function Geometry(r: Rules): Box {
    Box(Place(X(r.rect), r.dx, r.width, Across(r.anchor), Across(r.gravity)),
        Place(Y(r.rect), r.dy, r.height, Down(r.anchor), Down(r.gravity)),
        r.width, r.height)
  }

  /** How far a gravity pulls a span of this length back from its point: not at all, whole, or half, rounded down. */
  predicate PullsBack(size: nat, side: Side, pull: int) {
    match side
    case High => pull == 0
    case Low => pull == size
    case Middle => 2 * pull <= size <= 2 * pull + 1
  }

  predicate PointOf(at: int, size: nat, side: Side, p: int) {
    match side
    case Low => p == at
    case High => p == at + size
    case Middle => 2 * (p - at) <= size <= 2 * (p - at) + 1
  }

  /** The anchors of the protocol by number: 3, 5, 6 are left; 4, 7, 8 right; 1, 5, 7 top; 2, 6, 8 bottom. */
  lemma AnchorSides(a: Anchor)
    ensures Across(a) == if a in {3, 5, 6} then Low else if a in {4, 7, 8} then High else Middle
    ensures Down(a) == if a in {1, 5, 7} then Low else if a in {2, 6, 8} then High else Middle
  {
    assert a in {0, 1, 2, 3, 4, 5, 6, 7, 8};
  }

  /** On both axes the box, without its offset, touches the anchor point with the side its gravity turns away from. */
  lemma GeometryTouches(r: Rules)
    requires r.rect.width >= 0 && r.rect.height >= 0 && r.width >= 0 && r.height >= 0
    ensures var b := Geometry(r);
      && b.width == r.width && b.height == r.height
      && (exists p, pull :: PointOf(r.rect.x, r.rect.width, Across(r.anchor), p)
                            && PullsBack(r.width, Across(r.gravity), pull) && b.x == r.dx + p - pull)
      && (exists p, pull :: PointOf(r.rect.y, r.rect.height, Down(r.anchor), p)
                            && PullsBack(r.height, Down(r.gravity), pull) && b.y == r.dy + p - pull)
  {
    hide Across, Down;
    PlaceTouches(X(r.rect), r.width, Across(r.anchor), Across(r.gravity));
    PlaceTouches(Y(r.rect), r.height, Down(r.anchor), Down(r.gravity));
  }

  lemma PlaceTouches(rect: Span, size: int, anchor: Side, gravity: Side)
    requires rect.size >= 0 && size >= 0
    ensures PointOf(rect.at, rect.size, anchor, AnchorPoint(rect, anchor))
    ensures PullsBack(size, gravity, Pulled(size, gravity))
  {
  }

  function FlippedRules(r: Rules, x: bool, y: bool): Rules {
    r.(anchor := Inverted(r.anchor, x, y), gravity := Inverted(r.gravity, x, y))
  }

  function FlipX(r: Rules, c: Box, b: Box): bool {
    OneSided(X(c), X(b)) && r.adjust.flipX
  }

  function FlipY(r: Rules, c: Box, b: Box): bool {
    OneSided(Y(c), Y(b)) && r.adjust.flipY
  }

  predicate TowardLeft(r: Rules) {
    Across(r.gravity) == Low
  }

  predicate TowardTop(r: Rules) {
    Down(r.gravity) == Low
  }

  /** The box that the flipped rules give. */
  function FlippedBox(r: Rules, c: Box, b: Box): Box {
    Geometry(FlippedRules(r, FlipX(r, c, b), FlipY(r, c, b)))
  }

  /** The horizontal span after the flip, looking at this axis only. */
  function FlippedSpanX(r: Rules, c: Box): Span {
    Flipped(X(c), X(Geometry(r)), r.adjust.flipX, FlippedBox(r, c, Geometry(r)).x)
  }

  function FlippedSpanY(r: Rules, c: Box): Span {
    Flipped(Y(c), Y(Geometry(r)), r.adjust.flipY, FlippedBox(r, c, Geometry(r)).y)
  }

  /** The horizontal span before clipping: flip, then slide. */
  function MovedX(r: Rules, c: Box): Span {
    Slid(X(c), FlippedSpanX(r, c), r.adjust.slideX, TowardLeft(r))
  }

  function MovedY(r: Rules, c: Box): Span {
    Slid(Y(c), FlippedSpanY(r, c), r.adjust.slideY, TowardTop(r))
  }

  /** Where a popup ends up: both axes on their own, and clipped together or not at all. */
  function Unconstrained(r: Rules, c: Box): Box {
    var x, y := MovedX(r, c), MovedY(r, c);
    var cx, cy := Clipped(X(c), x, r.adjust.resizeX), Clipped(Y(c), y, r.adjust.resizeY);
    if cx.size > 0 && cy.size > 0 then
      Box(cx.at, cy.at, cx.size, cy.size)
    else
      Box(x.at, y.at, x.size, y.size)
  }

  datatype Overflow = Overflow(top: int, bottom: int, left: int, right: int)

  function OverflowOf(c: Box, b: Box): Overflow {
    Overflow(LowOver(Y(c), Y(b)), HighOver(Y(c), Y(b)), LowOver(X(c), X(b)), HighOver(X(c), X(b)))
  }

  predicate Contained(o: Overflow) {
    o.top <= 0 && o.bottom <= 0 && o.left <= 0 && o.right <= 0
  }

  /** One axis of a popup, with the overflow recorded for it. */
  datatype Tracked = Tracked(span: Span, low: int, high: int)

  function Track(c: Span, s: Span): Tracked {
    Tracked(s, LowOver(c, s), HighOver(c, s))
  }

  predicate Over(t: Tracked) {
    t.low > 0 || t.high > 0
  }

  /** A tried flip that fits gives its place and its overflow, but not its size. */
  function FlipTracked(c: Span, s: Span, tried: bool, f: Span): Tracked {
    if tried && Fits(c, f) then Tracked(Span(f.at, s.size), LowOver(c, f), HighOver(c, f)) else Track(c, s)
  }

  /** The overflow of both axes is taken anew when any of them slides. */
  function SlideTracked(c: Span, t: Tracked, slide: bool, any: bool, towardLow: bool): Tracked {
    if !any then t
    else Track(c, if slide && Over(t) then Span(t.span.at + Slide(t.low, t.high, towardLow), t.span.size) else t.span)
  }

  function ClipTracked(t: Tracked, resize: bool): Span {
    if resize && Over(t) then
      Span(t.span.at + Max(t.low, 0), t.span.size - Max(t.low, 0) - Max(t.high, 0))
    else
      t.span
  }

  predicate Tries(r: Rules, c: Box, b: Box) {
    FlipX(r, c, b) || FlipY(r, c, b)
  }

  /** Both axes after the flip stage. */
  function FlipsX(r: Rules, c: Box, b: Box): Tracked {
    FlipTracked(X(c), X(b), Tries(r, c, b), X(FlippedBox(r, c, b)))
  }

  function FlipsY(r: Rules, c: Box, b: Box): Tracked {
    FlipTracked(Y(c), Y(b), Tries(r, c, b), Y(FlippedBox(r, c, b)))
  }

  predicate Slides(r: Rules, x: Tracked, y: Tracked) {
    (r.adjust.slideX && Over(x)) || (r.adjust.slideY && Over(y))
  }

  /** Both axes after the slide stage. */
  function SlidesX(r: Rules, c: Box, b: Box): Tracked {
    var x, y := FlipsX(r, c, b), FlipsY(r, c, b);
    SlideTracked(X(c), x, r.adjust.slideX, Slides(r, x, y), TowardLeft(r))
  }

  function SlidesY(r: Rules, c: Box, b: Box): Tracked {
    var x, y := FlipsX(r, c, b), FlipsY(r, c, b);
    SlideTracked(Y(c), y, r.adjust.slideY, Slides(r, x, y), TowardTop(r))
  }

  /** Where a popup ends up from any box. */
  function From(r: Rules, c: Box, b: Box): Box {
    var x, y := SlidesX(r, c, b), SlidesY(r, c, b);
    var cx, cy := ClipTracked(x, r.adjust.resizeX), ClipTracked(y, r.adjust.resizeY);
    if cx.size > 0 && cy.size > 0 then
      Box(cx.at, cy.at, cx.size, cy.size)
    else
      Box(x.span.at, y.span.at, x.span.size, y.span.size)
  }

  /** The record of the overflow on both axes. */
  function Record(x: Tracked, y: Tracked): Overflow {
    Overflow(y.low, y.high, x.low, x.high)
  }

  /** An axis that takes the flipped place still has the size of the rules. */
  predicate RecordFits(r: Rules, c: Box, b: Box) {
    && (Tries(r, c, b) && Fits(X(c), X(FlippedBox(r, c, b))) ==> b.width == r.width)
    && (Tries(r, c, b) && Fits(Y(c), Y(FlippedBox(r, c, b))) ==> b.height == r.height)
  }

  /**
   * The flip stage.  The record is the overflow of the new box if and only if no axis of another size than the rules
   * took the flipped place.
   */
  method FlipStage(r: Rules, c: Box, b: Box) returns (box: Box, o: Overflow)
    ensures o == OverflowOf(c, box) <==> RecordFits(r, c, b)
    ensures X(box) == FlipsX(r, c, b).span && Y(box) == FlipsY(r, c, b).span
    ensures o == Record(FlipsX(r, c, b), FlipsY(r, c, b))
  {
    hide Geometry;
    RulesSize(r, FlipX(r, c, b), FlipY(r, c, b));
    box := b;
    o := OverflowOf(c, b);
    var flipX := (o.left > 0) != (o.right > 0) && r.adjust.flipX;
    var flipY := (o.top > 0) != (o.bottom > 0) && r.adjust.flipY;
    if flipX || flipY {
      var anchor := EdgesInvert(r.anchor, flipX, flipY);
      var gravity := EdgesInvert(r.gravity, flipX, flipY);
      var f := Geometry(r.(anchor := anchor, gravity := gravity));
      var fo := OverflowOf(c, f);
      if fo.left <= 0 && fo.right <= 0 {
        box := box.(x := f.x);
        o := o.(left := fo.left, right := fo.right);
      }
      if fo.top <= 0 && fo.bottom <= 0 {
        box := box.(y := f.y);
        o := o.(top := fo.top, bottom := fo.bottom);
      }
    }
  }

  /** An axis that is not flipped keeps its place in the flipped geometry. */
  lemma UnflippedAxisStays(r: Rules, x: bool, y: bool)
    ensures !x ==> Geometry(FlippedRules(r, x, y)).x == Geometry(r).x
    ensures !y ==> Geometry(FlippedRules(r, x, y)).y == Geometry(r).y
  {
    EdgesInvertExact(r.anchor, x, y);
    EdgesInvertExact(r.gravity, x, y);
  }

  /** The slide stage, which takes the overflow anew when it moves something. */
  method SlideStage(r: Rules, c: Box, b: Box, before: Overflow) returns (box: Box, o: Overflow)
    ensures var tx, ty := Tracked(X(b), before.left, before.right), Tracked(Y(b), before.top, before.bottom);
      var x := SlideTracked(X(c), tx, r.adjust.slideX, Slides(r, tx, ty), TowardLeft(r));
      var y := SlideTracked(Y(c), ty, r.adjust.slideY, Slides(r, tx, ty), TowardTop(r));
      X(box) == x.span && Y(box) == y.span && o == Record(x, y)
    ensures var tx, ty := Tracked(X(b), before.left, before.right), Tracked(Y(b), before.top, before.bottom);
      o == OverflowOf(c, box) <==> before == OverflowOf(c, b) || Slides(r, tx, ty)
  {
    box, o := b, before;
    var slideX := (o.left > 0 || o.right > 0) && r.adjust.slideX;
    var slideY := (o.top > 0 || o.bottom > 0) && r.adjust.slideY;
    if slideX || slideY {
      if slideX {
        box := box.(x := box.x + Slide(o.left, o.right, Across(r.gravity) == Low));
      }
      if slideY {
        box := box.(y := box.y + Slide(o.top, o.bottom, Down(r.gravity) == Low));
      }
      o := OverflowOf(c, box);
    }
  }

  /** The resize stage: clip the overflowing axes unless nothing would be left. */
  method ResizeStage(r: Rules, b: Box, o: Overflow) returns (box: Box)
    ensures var cx := ClipTracked(Tracked(X(b), o.left, o.right), r.adjust.resizeX);
      var cy := ClipTracked(Tracked(Y(b), o.top, o.bottom), r.adjust.resizeY);
      box == if cx.size > 0 && cy.size > 0 then Box(cx.at, cy.at, cx.size, cy.size) else b
  {
    box := b;
    var resizeX := (o.left > 0 || o.right > 0) && r.adjust.resizeX;
    var resizeY := (o.top > 0 || o.bottom > 0) && r.adjust.resizeY;
    if !resizeX && !resizeY {
      return;
    }
    var resized := box;
    if resizeX {
      resized := resized.(x := resized.x + Max(o.left, 0), width := resized.width - (Max(o.left, 0) + Max(o.right, 0)));
    }
    if resizeY {
      resized := resized.(y := resized.y + Max(o.top, 0),
                          height := resized.height - (Max(o.top, 0) + Max(o.bottom, 0)));
    }
    if !resized.Empty() {
      box := resized;
    }
  }

  /** `positioner_unconstrain`, from any box. */
  method Unconstrain(r: Rules, c: Box, b: Box) returns (box: Box)
    ensures Contained(OverflowOf(c, b)) ==> box == b
    ensures box == From(r, c, b)
    ensures b == Geometry(r) ==> box == Unconstrained(r, c)
    ensures box.width <= b.width && box.height <= b.height
  {
    FromGeometry(r, c);
    NeverGrows(r, c, b);
    box := b;
    var o := OverflowOf(c, box);
    if Contained(o) {
      return;
    }
    box, o := FlipStage(r, c, box);
    if Contained(o) {
      return;
    }
    box, o := SlideStage(r, c, box, o);
    if Contained(o) {
      return;
    }
    box := ResizeStage(r, box, o);
  }

  /** On one axis, the record of the overflow is true of the box from the first stage to the last. */
  lemma AxisFlips(c: Span, s: Span, flip: bool, tried: bool, f: Span)
    requires f.size == s.size && (flip && OneSided(c, s) ==> tried) && ((flip && OneSided(c, s)) || f.at == s.at)
    ensures FlipTracked(c, s, tried, f) == Track(c, Flipped(c, s, flip, f.at))
  {
  }

  lemma AxisSlides(c: Span, s: Span, slide: bool, any: bool, towardLow: bool)
    requires slide && Over(Track(c, s)) ==> any
    ensures SlideTracked(c, Track(c, s), slide, any, towardLow) == Track(c, Slid(c, s, slide, towardLow))
  {
  }

  lemma AxisClips(c: Span, s: Span, resize: bool)
    ensures ClipTracked(Track(c, s), resize) == Clipped(c, s, resize)
  {
  }

  /** The record of both axes is the overflow they have. */
  predicate Exact(c: Box, x: Tracked, y: Tracked) {
    x == Track(X(c), x.span) && y == Track(Y(c), y.span)
  }

  /** The record is right after the flip exactly when it fits, and after the slide also when anything slid. */
  lemma RecordExactIff(r: Rules, c: Box, b: Box)
    ensures Exact(c, FlipsX(r, c, b), FlipsY(r, c, b)) <==> RecordFits(r, c, b)
    ensures Exact(c, SlidesX(r, c, b), SlidesY(r, c, b)) <==>
      RecordFits(r, c, b) || Slides(r, FlipsX(r, c, b), FlipsY(r, c, b))
  {
    hide Geometry, FlipX, FlipY, Slide;
    RulesSize(r, FlipX(r, c, b), FlipY(r, c, b));
  }

  /**
   * From the placement that the rules give, the record is right at every stage, so each axis moves on its own.
   */
  lemma FromGeometry(r: Rules, c: Box)
    ensures var b := Geometry(r);
      && RecordFits(r, c, b) && Exact(c, FlipsX(r, c, b), FlipsY(r, c, b))
      && SlidesX(r, c, b) == Track(X(c), MovedX(r, c)) && SlidesY(r, c, b) == Track(Y(c), MovedY(r, c))
      && From(r, c, b) == Unconstrained(r, c)
  {
    hide Geometry, FlippedRules, Flipped, FlipTracked, SlideTracked, Slid, ClipTracked, Clipped, Over, Track, OneSided;
    hide RecordFits, Exact, FlippedBox;
    GeometryFlips(r, c);
    var b := Geometry(r);
    var fx, fy := FlippedSpanX(r, c), FlippedSpanY(r, c);
    var any := Slides(r, Track(X(c), fx), Track(Y(c), fy));
    AxisSlides(X(c), fx, r.adjust.slideX, any, TowardLeft(r));
    AxisSlides(Y(c), fy, r.adjust.slideY, any, TowardTop(r));
    AxisClips(X(c), MovedX(r, c), r.adjust.resizeX);
    AxisClips(Y(c), MovedY(r, c), r.adjust.resizeY);
    TrackedSpan(X(c), MovedX(r, c));
    TrackedSpan(Y(c), MovedY(r, c));
  }

  lemma GeometryFlips(r: Rules, c: Box)
    ensures var b := Geometry(r);
      && RecordFits(r, c, b) && Exact(c, FlipsX(r, c, b), FlipsY(r, c, b))
      && FlipsX(r, c, b) == Track(X(c), FlippedSpanX(r, c)) && FlipsY(r, c, b) == Track(Y(c), FlippedSpanY(r, c))
  {
    hide Geometry, FlippedRules, Flipped, FlipTracked, OneSided;
    var b := Geometry(r);
    var x, y := FlipX(r, c, b), FlipY(r, c, b);
    var f := FlippedBox(r, c, b);
    UnflippedAxisStays(r, x, y);
    RulesSize(r, x, y);
    AxisFlips(X(c), X(b), r.adjust.flipX, x || y, X(f));
    AxisFlips(Y(c), Y(b), r.adjust.flipY, x || y, Y(f));
    TrackedSpan(X(c), FlippedSpanX(r, c));
    TrackedSpan(Y(c), FlippedSpanY(r, c));
  }

  lemma RulesSize(r: Rules, x: bool, y: bool)
    ensures var f := Geometry(FlippedRules(r, x, y));
      f.width == Geometry(r).width == r.width && f.height == Geometry(r).height == r.height
  {
  }

  lemma TrackedSpan(c: Span, s: Span)
    ensures Track(c, s).span == s
  {
  }

  /** A popup never grows: unconstrained once, it stays no larger than its rules. */
  lemma NeverGrows(r: Rules, c: Box, b: Box)
    ensures From(r, c, b).width <= b.width && From(r, c, b).height <= b.height
    ensures Contained(OverflowOf(c, b)) ==> From(r, c, b) == b
  {
  }

  /** Of a box no larger than the rules, what is recorded as contained is contained. */
  lemma FlipContains(c: Span, s: Span, tried: bool, f: Span)
    requires s.size <= f.size
    ensures !Over(FlipTracked(c, s, tried, f)) ==> Fits(c, FlipTracked(c, s, tried, f).span)
    ensures Over(FlipTracked(c, s, tried, f)) ==> FlipTracked(c, s, tried, f) == Track(c, s)
  {
  }

  /** Both slide bits contain every box that fits, also one that was clipped before. */
  lemma SlidesContainFrom(r: Rules, c: Box, b: Box)
    requires r.adjust.slideX && r.adjust.slideY && b.width <= r.width && b.height <= r.height
    requires b.width <= c.width && b.height <= c.height
    ensures Contained(OverflowOf(c, From(r, c, b)))
    ensures From(r, c, b).width == b.width && From(r, c, b).height == b.height
  {
    hide Geometry, FlipX, FlipY;
    RulesSize(r, FlipX(r, c, b), FlipY(r, c, b));
    var fx, fy := FlipsX(r, c, b), FlipsY(r, c, b);
    var f := Geometry(FlippedRules(r, FlipX(r, c, b), FlipY(r, c, b)));
    FlipContains(X(c), X(b), FlipX(r, c, b) || FlipY(r, c, b), X(f));
    FlipContains(Y(c), Y(b), FlipX(r, c, b) || FlipY(r, c, b), Y(f));
    SlideContains(X(c), fx.span, TowardLeft(r));
    SlideContains(Y(c), fy.span, TowardTop(r));
  }

  // ----- a box the record does not fit

  const RIGHT: Anchor := 4  // `XDG_POSITIONER_ANCHOR_RIGHT`

  /** A popup to the right of its anchor rectangle, which may be flipped and resized horizontally. */
  const SUBMENU := Rules(Box(70, 0, 10, 10), RIGHT, RIGHT, Adjust(false, false, true, false, true, false), 40, 10, 0, 0)

  lemma RightFlips()
    ensures Across(RIGHT) == High && Down(RIGHT) == Middle
    ensures Across(Inverted(RIGHT, true, false)) == Low && Down(Inverted(RIGHT, true, false)) == Middle
  {
    hide Inverted;
    EdgesInvertExact(RIGHT, true, false);
  }

  lemma SubmenuPlaces()
    ensures Geometry(SUBMENU) == Box(80, 0, 40, 10)
    ensures Geometry(FlippedRules(SUBMENU, true, false)) == Box(30, 0, 40, 10)
  {
    hide Inverted, Across, Down, Geometry;
    RightFlips();
    SubmenuAt(SUBMENU);
    SubmenuAt(FlippedRules(SUBMENU, true, false));
  }

  lemma SubmenuAt(r: Rules)
    requires r.rect == Box(70, 0, 10, 10) && r.width == 40 && r.height == 10 && r.dx == r.dy == 0
    requires Across(r.anchor) == Across(r.gravity) != Middle && Down(r.anchor) == Down(r.gravity) == Middle
    ensures Geometry(r) == Box(if Across(r.anchor) == High then 80 else 30, 0, 40, 10)
  {
    hide Across, Down, Place;
    SubmenuSpans();
  }

  lemma SubmenuSpans()
    ensures Place(Span(70, 10), 0, 40, High, High) == 80 && Place(Span(70, 10), 0, 40, Low, Low) == 30
    ensures Place(Span(0, 10), 0, 10, Middle, Middle) == 0
  {
  }

  lemma SubmenuClipped()
    ensures From(SUBMENU, Box(50, 0, 50, 100), Geometry(SUBMENU)) == Box(80, 0, 20, 10)
  {
    hide Geometry, FlippedRules;
    SubmenuPlaces();
    var c, b := Box(50, 0, 50, 100), Geometry(SUBMENU);
    assert FlipX(SUBMENU, c, b) && !FlipY(SUBMENU, c, b);
    assert FlipsX(SUBMENU, c, b) == Track(X(c), X(b)) && FlipsY(SUBMENU, c, b) == Track(Y(c), Y(b));
  }

  /**
   * A popup that was clipped, and is unconstrained again in another constraint: the flip takes its place from the full
   * size and records an overflow of -25 where the clipped box has -45, and leaves it 20 away from its anchor rectangle.
   */
  lemma ClippedPopupDrifts()
    ensures var narrow, shifted := Box(50, 0, 50, 100), Box(0, 0, 95, 100);
      var clipped := From(SUBMENU, narrow, Geometry(SUBMENU));
      && clipped == Box(80, 0, 20, 10) && !RecordFits(SUBMENU, shifted, clipped)
      && FlipsX(SUBMENU, shifted, clipped) == Tracked(Span(30, 20), -30, -25)
      && HighOver(X(shifted), Span(30, 20)) == -45
      && From(SUBMENU, shifted, clipped) == Box(30, 0, 20, 10)
  {
    SubmenuClipped();
    SubmenuDrifts();
  }

  lemma SubmenuDrifts()
    ensures var c, b := Box(0, 0, 95, 100), Box(80, 0, 20, 10);
      && !RecordFits(SUBMENU, c, b) && FlipsX(SUBMENU, c, b) == Tracked(Span(30, 20), -30, -25)
      && From(SUBMENU, c, b) == Box(30, 0, 20, 10)
  {
    hide Geometry, FlippedRules;
    SubmenuPlaces();
    var c, b := Box(0, 0, 95, 100), Box(80, 0, 20, 10);
    assert FlipX(SUBMENU, c, b) && !FlipY(SUBMENU, c, b);
    assert FlipsX(SUBMENU, c, b) == Tracked(Span(30, 20), -30, -25);
    assert FlipsY(SUBMENU, c, b) == Track(Y(c), Y(b));
  }

  // ----- what the adjustments achieve

  /** Both slide bits contain every box that is no larger than the constraint. */
  lemma SlidesContain(r: Rules, c: Box)
    requires r.width > 0 && r.height > 0 && r.adjust.slideX && r.adjust.slideY
    requires r.width <= c.width && r.height <= c.height
    ensures Contained(OverflowOf(c, Unconstrained(r, c)))
    ensures Unconstrained(r, c).width == r.width && Unconstrained(r, c).height == r.height
  {
    var b := Geometry(r);
    var f := Geometry(FlippedRules(r, FlipX(r, c, b), FlipY(r, c, b)));
    SlideContains(X(c), Flipped(X(c), X(b), r.adjust.flipX, f.x), TowardLeft(r));
    SlideContains(Y(c), Flipped(Y(c), Y(b), r.adjust.flipY, f.y), TowardTop(r));
  }

  /** Both resize bits contain the box exactly when it still meets the constraint after flip and slide. */
  lemma ResizesContain(r: Rules, c: Box)
    requires r.width > 0 && r.height > 0 && r.adjust.resizeX && r.adjust.resizeY
    ensures var moved := Box(MovedX(r, c).at, MovedY(r, c).at, r.width, r.height);
      && (Contained(OverflowOf(c, Unconstrained(r, c))) <==> !Intersection(moved, c).Empty())
      && (Unconstrained(r, c) == if Intersection(moved, c).Empty() then moved else Intersection(moved, c))
  {
    var x, y := MovedX(r, c), MovedY(r, c);
    ClipIntersects(X(c), x);
    ClipIntersects(Y(c), y);
  }

  /** An axis without adjustment bits never moves. */
  lemma UnadjustedAxisStays(r: Rules, c: Box)
    requires r.width > 0 && r.height > 0
    ensures !r.adjust.flipX && !r.adjust.slideX && !r.adjust.resizeX ==> X(Unconstrained(r, c)) == X(Geometry(r))
    ensures !r.adjust.flipY && !r.adjust.slideY && !r.adjust.resizeY ==> Y(Unconstrained(r, c)) == Y(Geometry(r))
  {
  }

  /**
   * A one-sided overflow with the flip bit ends at the mirrored place when that fits, unless both axes flip
   * and the anchor or the gravity sits on a single edge.
   */
  lemma FlipTaken(r: Rules, c: Box)
    requires r.width > 0 && r.height > 0 && FlipX(r, c, Geometry(r))
    requires FlipY(r, c, Geometry(r)) ==> !SingleEdge(r.anchor) && !SingleEdge(r.gravity)
    ensures var at := Place(X(r.rect), r.dx, r.width, Opposite(Across(r.anchor)), Opposite(Across(r.gravity)));
      Fits(X(c), Span(at, r.width)) ==> MovedX(r, c) == Span(at, r.width)
  {
    EdgesInvertExact(r.anchor, true, FlipY(r, c, Geometry(r)));
    EdgesInvertExact(r.gravity, true, FlipY(r, c, Geometry(r)));
  }

  /** The same on the vertical axis. */
  lemma FlipTakenDown(r: Rules, c: Box)
    requires r.width > 0 && r.height > 0 && FlipY(r, c, Geometry(r))
    requires FlipX(r, c, Geometry(r)) ==> !SingleEdge(r.anchor) && !SingleEdge(r.gravity)
    ensures var at := Place(Y(r.rect), r.dy, r.height, Opposite(Down(r.anchor)), Opposite(Down(r.gravity)));
      Fits(Y(c), Span(at, r.height)) ==> MovedY(r, c) == Span(at, r.height)
  {
    EdgesInvertExact(r.anchor, FlipX(r, c, Geometry(r)), true);
    EdgesInvertExact(r.gravity, FlipX(r, c, Geometry(r)), true);
  }

  /** A contained axis is never flipped, and an axis that overflows on both sides neither. */
  lemma FlipOnlyOneSided(r: Rules, c: Box)
    ensures !OneSided(X(c), X(Geometry(r))) && !r.adjust.slideX ==> MovedX(r, c) == X(Geometry(r))
    ensures !OneSided(Y(c), Y(Geometry(r))) && !r.adjust.slideY ==> MovedY(r, c) == Y(Geometry(r))
  {
  }
}
