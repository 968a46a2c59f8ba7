/**
 * Draw operations and what they paint (native/render.c, native/space.c).
 *
 * An operation is an abstract painter.  It leaves the pixels outside `box` alone.  Inside, the new
 * colour depends on the identity of the operation (`hash`), on what it samples of its surface at its
 * `commit` (the `seq` of the source), on the old colour, and on the canvas inside `reach` when it reads its backdrop.
 */
module Painting {
  import opened Boxes
  import opened Options

  type Color = int
  type Canvas = map<Px, Color>

  /**
   * One recorded operation; `surface` 0 is the null surface.  `grown` tells whether `box` was recorded one pixel larger
   * on every side than the rectangle the texture is drawn on (`effect_texture`, native/effects.c), as the hash implies.
   */
  datatype Op = Op(hash: nat, commit: nat, surface: nat, box: Box, reach: Box, src: FBox, mapped: bool, grown: bool)

  datatype OpList = OpList(ops: seq<Op>, lost: bool)

  /** What one pixel of an operation reads of its surface. */
  datatype Seen = Nothing | Texels(at: map<Px, int>) | Whole(surface: nat, commit: nat)

  /**
   * The parts of the renderer the model does not look into: texel contents per surface and commit,
   * the shaders, and the answer of `surface_damage_since(surface, from)` at commit `to`.
   */
  datatype World = World(
    texel: (nat, nat, Px) -> int,
    shade: (nat, Seen, Px, Color, map<Px, Color>) -> Color,
    since: (nat, nat, nat) -> Option<Box>)

  // ----- bilinear sampling, one axis at a time

  /** Where source coordinate `t` lands in the destination. */
  function Land(origin: int, src: real, scale: real, t: real): real {
    origin as real + (t - src) * scale
  }

  /** The source coordinate that the centre of destination pixel `p` samples. */
  function Sample(origin: int, src: real, scale: real, p: int): real
    requires scale > 0.0
  {
    src + (p as real + 0.5 - origin as real) / scale
  }

  /** Texel `t` has a positive bilinear weight at destination pixel `p`. */
  predicate Touches(origin: int, src: real, scale: real, p: int, t: int) {
    -scale < p as real + 0.5 - Land(origin, src, scale, t as real + 0.5) < scale
  }

  /** Only the two texels around the sample can have a positive weight. */
  lemma TouchesNeighbours(origin: int, src: real, scale: real, p: int, t: int)
    requires scale > 0.0
    ensures Touches(origin, src, scale, p, t) <==> -1.0 < Sample(origin, src, scale, p) - (t as real + 0.5) < 1.0
    ensures Touches(origin, src, scale, p, t) ==>
      var lo := (Sample(origin, src, scale, p) - 0.5).Floor;
      lo <= t <= lo + 1
  {
    SampleLands(origin, src, scale, p, t);
    Close(Sample(origin, src, scale, p) - (t as real + 0.5),
          p as real + 0.5 - Land(origin, src, scale, t as real + 0.5), scale);
  }

  lemma SampleLands(origin: int, src: real, scale: real, p: int, t: int)
    requires scale > 0.0
    ensures (Sample(origin, src, scale, p) - (t as real + 0.5)) * scale ==
      p as real + 0.5 - Land(origin, src, scale, t as real + 0.5)
  {
    var q := p as real + 0.5 - origin as real;
    assert (q / scale) * scale == q;
  }

  lemma Close(d: real, e: real, scale: real)
    requires scale > 0.0 && d * scale == e
    ensures -scale < e < scale <==> -1.0 < d < 1.0
  {
    ScaleSign(d - 1.0, scale);
    ScaleSign(-1.0 - d, scale);
    assert (d - 1.0) * scale == e - scale;
    assert (-1.0 - d) * scale == -scale - e;
  }

  lemma ScaleSign(d: real, scale: real)
    requires scale > 0.0
    ensures d < 0.0 <==> d * scale < 0.0
  {
  }

  /** The rectangle the texture is drawn on. */
  function Drawn(op: Op): Box {
    if op.grown then Box(op.box.x + 1, op.box.y + 1, op.box.width - 2, op.box.height - 2) else op.box
  }

  predicate HasSource(op: Op) {
    op.src.width > 0.0 && op.src.height > 0.0
  }

  predicate Sampled(op: Op) {
    HasSource(op) && !Drawn(op).Empty()
  }

  function ScaleX(op: Op): (s: real)
    requires Sampled(op)
    ensures s > 0.0
  {
    Drawn(op).width as real / op.src.width
  }

  function ScaleY(op: Op): (s: real)
    requires Sampled(op)
    ensures s > 0.0
  {
    Drawn(op).height as real / op.src.height
  }

  /** Texel `t` has a positive weight at pixel `p` of a mapped operation. */
  predicate Samples(op: Op, p: Px, t: Px)
    requires Sampled(op)
  {
    && Touches(Drawn(op).x, op.src.x, ScaleX(op), p.x, t.x)
    && Touches(Drawn(op).y, op.src.y, ScaleY(op), p.y, t.y)
  }

  /** The texels that the pixel `p` of a mapped operation samples. */
  function Footprint(op: Op, p: Px): (s: set<Px>)
    requires Sampled(op)
    ensures forall t :: t in s <==> Samples(op, p, t)
  {
    var lx := (Sample(Drawn(op).x, op.src.x, ScaleX(op), p.x) - 0.5).Floor;
    var ly := (Sample(Drawn(op).y, op.src.y, ScaleY(op), p.y) - 0.5).Floor;
    var s := set x: int, y: int | lx <= x <= lx + 1 && ly <= y <= ly + 1 && Samples(op, p, Px(x, y)) :: Px(x, y);
    forall t: Px | Samples(op, p, t)
      ensures Px(t.x, t.y) in s
    {
      TouchesNeighbours(Drawn(op).x, op.src.x, ScaleX(op), p.x, t.x);
      TouchesNeighbours(Drawn(op).y, op.src.y, ScaleY(op), p.y, t.y);
    }
    s
  }

  /** A mapped texture is sampled where it is drawn; of any other surface a pixel may read everything. */
  function View(w: World, op: Op, p: Px): Seen {
    if op.surface == 0 then
      Nothing
    else if op.mapped && HasSource(op) then
      if In(p, Drawn(op)) then Texels(map t | t in Footprint(op, p) :: w.texel(op.surface, op.commit, t)) else Nothing
    else
      Whole(op.surface, op.commit)
  }

  // ----- painting

  function Backdrop(op: Op, c: Canvas): map<Px, Color> {
    map q | q in c && In(q, op.reach) :: c[q]
  }

  function Shade(w: World, op: Op, c: Canvas, p: Px): Color
    requires p in c
  {
    w.shade(op.hash, View(w, op, p), p, c[p], Backdrop(op, c))
  }

  /** One operation drawn inside `clip` (`draw`, which intersects its rectangle with the clip). */
  function PaintOp(w: World, op: Op, clip: set<Px>, c: Canvas): (r: Canvas)
    ensures r.Keys == c.Keys
  {
    map p | p in c :: if p in clip && In(p, op.box) then Shade(w, op, c, p) else c[p]
  }

  /** The canvas after the first `n` operations, drawn inside `clip`. */
  function Paint(w: World, ops: seq<Op>, n: nat, clip: set<Px>, c: Canvas): (r: Canvas)
    requires n <= |ops|
    ensures r.Keys == c.Keys
  {
    if n == 0 then c else PaintOp(w, ops[n - 1], clip, Paint(w, ops, n - 1, clip, c))
  }

  function Blank(buffer: set<Px>): (c: Canvas)
    ensures c.Keys == buffer
  {
    map p | p in buffer :: 0
  }

  /** The painting of a whole list over a whole buffer. */
  function Full(w: World, ops: seq<Op>, buffer: set<Px>): (c: Canvas)
    ensures c.Keys == buffer
  {
    Paint(w, ops, |ops|, buffer, Blank(buffer))
  }

  /** What an operation without a backdrop makes of the old colour. */
  function Plain(w: World, hash: nat, seen: Seen, p: Px, was: Color): Color {
    w.shade(hash, seen, p, was, map[])
  }

  /** The scene begins with a rectangle over the whole buffer that ignores what was there. */
  ghost predicate Opaque(w: World, ops: seq<Op>, buffer: set<Px>) {
    && |ops| > 0
    && (forall p :: p in buffer ==> In(p, ops[0].box))
    && ops[0].reach.Empty()
    && forall seen, p, a, b :: Plain(w, ops[0].hash, seen, p, a) == Plain(w, ops[0].hash, seen, p, b)
  }

  /** `box` lies inside a non-empty `reach` (native/effects.c builds reach as a hull around box). */
  ghost predicate ReachesItself(ops: seq<Op>) {
    forall op :: op in ops && !op.reach.Empty() ==> forall p :: In(p, op.box) ==> In(p, op.reach)
  }
}
