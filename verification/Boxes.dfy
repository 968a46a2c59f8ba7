/** Integer boxes and the pixels they cover (native/base.c). */
module Boxes {

  datatype Px = Px(x: int, y: int)

  datatype Box = Box(x: int, y: int, width: int, height: int) {
    predicate Empty() {
      width <= 0 || height <= 0
    }
  }

  /** A box with fractional coordinates (the doubles of the source are reals here). */
  datatype FBox = FBox(x: real, y: real, width: real, height: real)

  const NO_BOX := Box(0, 0, 0, 0)

  function Max(a: int, b: int): int {
    if a > b then a else b
  }

  function Min(a: int, b: int): int {
    if a < b then a else b
  }

  function Abs(a: int): int {
    if a < 0 then -a else a
  }

  predicate In(p: Px, b: Box) {
    b.x <= p.x < b.x + b.width && b.y <= p.y < b.y + b.height
  }

  /** The pixels of a box: what a pixman region holds after `union_rect` with it. */
  function Pixels(b: Box): (s: set<Px>)
    ensures forall p :: p in s <==> In(p, b)
  {
    var s := set x: int, y: int | b.x <= x < b.x + b.width && b.y <= y < b.y + b.height :: Px(x, y);
    assert forall p :: In(p, b) ==> Px(p.x, p.y) in s;
    s
  }

  /** `box_intersection`: the overlap, and whether there is one. */
  function Intersection(a: Box, b: Box): (r: Box)
    ensures forall p :: In(p, r) <==> In(p, a) && In(p, b)
    ensures r.Empty() ==> r == NO_BOX
    ensures r.Empty() <==> forall p :: !(In(p, a) && In(p, b))
  {
    if a.Empty() || b.Empty() then
      NO_BOX
    else
      var x := Max(a.x, b.x);
      var y := Max(a.y, b.y);
      var out := Box(x, y, Min(a.x + a.width, b.x + b.width) - x, Min(a.y + a.height, b.y + b.height) - y);
      assert !out.Empty() ==> In(Px(x, y), a) && In(Px(x, y), b);
      if out.Empty() then NO_BOX else out
  }

  /** `box_equal`: boxes are equal when they cover the same pixels. */
  predicate Equal(a: Box, b: Box) {
    if a.Empty() || b.Empty() then
      a.Empty() && b.Empty()
    else
      a == b
  }

  lemma EqualIffSamePixels(a: Box, b: Box)
    ensures Equal(a, b) <==> forall p :: In(p, a) <==> In(p, b)
  {
    if !a.Empty() {
      assert In(Px(a.x, a.y), a) && In(Px(a.x + a.width - 1, a.y + a.height - 1), a);
    }
    if !b.Empty() {
      assert In(Px(b.x, b.y), b) && In(Px(b.x + b.width - 1, b.y + b.height - 1), b);
    }
    if forall p :: In(p, a) <==> In(p, b) {
      if !a.Empty() {
        assert In(Px(a.x, a.y), b) && In(Px(a.x + a.width - 1, a.y + a.height - 1), b);
        assert In(Px(b.x, b.y), a) && In(Px(b.x + b.width - 1, b.y + b.height - 1), a);
      }
    }
  }
}
