/** The damage a new commit of a surface does to an operation that draws it (`damage_content`, native/render.c). */
module Damage {
  import opened Boxes
  import opened Options
  import opened Painting

  // ----- damage_content

  function Ceil(r: real): int {
    -((-r).Floor)
  }

  /** First destination column (or row) that `damage_content` marks for changed texels from `c`. */
  function Start(origin: int, src: real, scale: real, c: int): int {
    Land(origin, src, scale, c as real).Floor - 1
  }

  /** One past the last destination column that it marks for changed texels before `e`. */
  function End(origin: int, src: real, scale: real, e: int): int {
    Ceil(Land(origin, src, scale, e as real)) + 1
  }

  /** The scales that `damage_content` takes: those of the recorded box. */
  function RecordedX(op: Op): real
    requires HasSource(op)
  {
    op.box.width as real / op.src.width
  }

  function RecordedY(op: Op): real
    requires HasSource(op)
  {
    op.box.height as real / op.src.height
  }

  function ContentDamage(w: World, was: Op, op: Op): Box {
    if !op.mapped || !HasSource(op) then
      op.box
    else
      match w.since(op.surface, was.commit, op.commit)
      case None => op.box
      case Some(c) =>
        if c.Empty() then
          NO_BOX
        else
          var x1 := Start(op.box.x, op.src.x, RecordedX(op), c.x);
          var y1 := Start(op.box.y, op.src.y, RecordedY(op), c.y);
          var x2 := End(op.box.x, op.src.x, RecordedX(op), c.x + c.width);
          var y2 := End(op.box.y, op.src.y, RecordedY(op), c.y + c.height);
          Intersection(Box(x1, y1, x2 - x1, y2 - y1), op.box)
  }

  predicate Marked(origin: int, src: real, scale: real, c: int, e: int, p: int) {
    Start(origin, src, scale, c) <= p < End(origin, src, scale, e)
  }

  /** Pixel `p` of a texture drawn on `width` pixels from `origin` samples texel `t`. */
  predicate SampledAt(origin: int, width: nat, src: real, scale: real, p: int, t: int) {
    origin <= p < origin + width && Touches(origin, src, scale, p, t)
  }

  /** Every pixel sampling a changed texel is marked, when the drawn rectangle is the recorded one. */
  ghost predicate PlainMarks(scale: real, width: nat) {
    forall origin, src, c, e, p, t :: c <= t < e && SampledAt(origin, width, src, scale, p, t) ==>
      Marked(origin, src, scale, c, e, p)
  }

  /** The scale of the recorded box when it is one pixel larger on both sides. */
  function GrownScale(scale: real, width: nat): real
    requires width > 0
  {
    scale * (width as real + 2.0) / width as real
  }

  /** Pixel `p` is marked through the grown box of a texture drawn on `width` pixels from `origin`. */
  predicate GrownMarked(origin: int, width: nat, src: real, scale: real, c: int, e: int, p: int)
    requires width > 0
  {
    Marked(origin - 1, src, GrownScale(scale, width), c, e, p)
  }

  /** The same when the recorded box is grown. */
  ghost predicate GrownMarks(scale: real, width: nat)
    requires width > 0
  {
    forall origin, src, c, e, p, t :: c <= t < e && SampledAt(origin, width, src, scale, p, t) ==>
      GrownMarked(origin, width, src, scale, c, e, p)
  }

  lemma LandMonotone(origin: int, src: real, scale: real, a: real, b: real)
    requires scale > 0.0 && a <= b
    ensures Land(origin, src, scale, a) <= Land(origin, src, scale, b)
  {
    assert (b - a) * scale >= 0.0;
    assert (b - src) * scale - (a - src) * scale == (b - a) * scale;
  }

  lemma LandHalf(origin: int, src: real, scale: real, t: int)
    ensures Land(origin, src, scale, t as real + 0.5) == Land(origin, src, scale, t as real) + 0.5 * scale
    ensures Land(origin, src, scale, t as real + 1.0) == Land(origin, src, scale, t as real) + scale
  {
  }

  lemma SampleMarked(origin: int, src: real, scale: real, c: int, e: int, p: int, t: int)
    requires 0.0 < scale <= 3.0
    requires c <= t < e && Touches(origin, src, scale, p, t)
    ensures Start(origin, src, scale, c) <= p < End(origin, src, scale, e)
  {
    LandMonotone(origin, src, scale, c as real, t as real);
    LandMonotone(origin, src, scale, t as real + 1.0, e as real);
    LandHalf(origin, src, scale, t);
  }

  /** The one-pixel margin is enough for plain textures of any width exactly up to a threefold enlargement. */
  lemma PlainMarksIff(scale: real, width: nat)
    requires scale > 0.0 && width > 0
    ensures PlainMarks(scale, width) <==> scale <= 3.0
  {
    if scale <= 3.0 {
      forall origin, src, c, e, p, t | c <= t < e && SampledAt(origin, width, src, scale, p, t)
        ensures Marked(origin, src, scale, c, e, p)
      {
        SampleMarked(origin, src, scale, c, e, p, t);
      }
    } else {
      var src := -2.0 / scale;
      assert Land(0, src, scale, 0.0) == 2.0;
      LandHalf(0, src, scale, 0);
      assert 0 <= 0 < 1 && SampledAt(0, width, src, scale, 0, 0) && !Marked(0, src, scale, 0, 1, 0);
    }
  }

  /** Where the grown box puts a source coordinate: one pixel early, and twice the fraction of the width late. */
  lemma GrownLand(origin: int, src: real, scale: real, width: nat, t: real)
    requires width > 0
    ensures var y := Land(origin, src, scale, t) - origin as real;
      Land(origin - 1, src, GrownScale(scale, width), t) == origin as real - 1.0 + y + 2.0 * (y / width as real)
  {
    var w, d, g := width as real, t - src, GrownScale(scale, width);
    var y := d * scale;
    Fraction(y, w);
    assert g * w == scale * (w + 2.0);
    assert d * g * w == d * (g * w) == y * w + 2.0 * y;
    Cancelled(d * g, y + 2.0 * (y / w), w);
    assert Land(origin, src, scale, t) == origin as real + y;
    assert Land(origin - 1, src, g, t) == (origin - 1) as real + d * g;
  }

  lemma Cancelled(a: real, b: real, w: real)
    requires w > 0.0 && a * w == b * w
    ensures a == b
  {
    assert (a - b) * w == 0.0;
  }

  lemma GrownSampleMarked(origin: int, width: nat, src: real, scale: real, c: int, e: int, p: int, t: int)
    requires 0.0 < scale <= 1.0 && width > 0 && c <= t < e && SampledAt(origin, width, src, scale, p, t)
    ensures Marked(origin - 1, src, GrownScale(scale, width), c, e, p)
  {
    var grown, w := GrownScale(scale, width), width as real;
    LandHalf(origin, src, scale, t);
    GrownLand(origin, src, scale, width, t as real);
    GrownLand(origin, src, scale, width, t as real + 1.0);
    var y := Land(origin, src, scale, t as real) - origin as real;
    Fraction(y, w);
    Fraction(y + scale, w);
    LandMonotone(origin - 1, src, grown, c as real, t as real);
    LandMonotone(origin - 1, src, grown, t as real + 1.0, e as real);
  }

  lemma Fraction(y: real, w: real)
    requires w > 0.0
    ensures y < w ==> y / w < 1.0
    ensures y >= 0.0 ==> y / w >= 0.0
    ensures y / w * w == y
  {
  }

  /** For grown boxes of any width it is enough exactly when the texture is not enlarged. */
  lemma GrownMarksIff(scale: real, width: nat)
    requires scale > 0.0 && width > 0
    ensures GrownMarks(scale, width) <==> scale <= 1.0
  {
    if scale <= 1.0 {
      forall origin, src, c, e, p, t | c <= t < e && SampledAt(origin, width, src, scale, p, t)
        ensures GrownMarked(origin, width, src, scale, c, e, p)
      {
        GrownSampleMarked(origin, width, src, scale, c, e, p, t);
      }
    } else {
      var src := -(width as real) / scale;
      assert Land(0, src, scale, 0.0) == width as real;
      LandHalf(0, src, scale, 0);
      GrownLand(0, src, scale, width, 0.0);
      assert width as real / width as real == 1.0;
      assert SampledAt(0, width, src, scale, width - 1, 0);
      assert !GrownMarked(0, width, src, scale, 0, 1, width - 1);
    }
  }

  /** `surface_damage_since` never misses a texel that differs between two commits. */
  ghost predicate SinceSound(w: World) {
    forall surface: nat, a: nat, b: nat, t: Px ::
      w.since(surface, a, b).Some? && !In(t, w.since(surface, a, b).value) ==>
      w.texel(surface, a, t) == w.texel(surface, b, t)
  }

  /** Equal hashes stand for the same painter, box, reach and surface. */
  predicate SameHash(a: Op, b: Op) {
    a.hash == b.hash ==>
      && a.box == b.box && a.reach == b.reach && a.src == b.src && a.mapped == b.mapped && a.grown == b.grown
      && a.surface == b.surface && (a.surface == 0 ==> a.commit == b.commit)
  }

  predicate Faithful(was: seq<Op>, now: seq<Op>) {
    forall a, b :: a in was && b in now ==> SameHash(a, b)
  }

  /** The largest scale whose samples the margin of `damage_content` covers. */
  function ScaleLimit(op: Op): real {
    if op.grown then 1.0 else 3.0
  }

  predicate FineScale(op: Op) {
    op.mapped && Sampled(op) ==> ScaleX(op) <= ScaleLimit(op) && ScaleY(op) <= ScaleLimit(op)
  }

  lemma ViewSame(w: World, a: Op, b: Op, p: Px)
    requires a.box == b.box && a.src == b.src && a.mapped == b.mapped && a.grown == b.grown && a.surface == b.surface
    requires a.surface != 0 ==> a.commit == b.commit
    ensures View(w, a, p) == View(w, b, p)
  {
    if a.surface != 0 && a.mapped && HasSource(a) && In(p, Drawn(a)) {
      assert Footprint(a, p) == Footprint(b, p);
    }
  }

  /** On one axis, a pixel sampling a changed texel is marked. */
  lemma AxisMarked(grown: bool, origin: int, width: int, src: real, size: real, c: int, e: int, p: int, t: int)
    requires width > 0 && size > 0.0 && origin <= p < origin + width && c <= t < e
    requires width as real / size <= (if grown then 1.0 else 3.0) && Touches(origin, src, width as real / size, p, t)
    ensures if grown then Marked(origin - 1, src, (width + 2) as real / size, c, e, p)
            else Marked(origin, src, width as real / size, c, e, p)
  {
    var scale := width as real / size;
    if grown {
      GrownSampleMarked(origin, width, src, scale, c, e, p, t);
      RecordedScale(width, size);
    } else {
      SampleMarked(origin, src, scale, c, e, p, t);
    }
  }

  lemma RecordedScale(width: nat, size: real)
    requires width > 0 && size > 0.0
    ensures (width + 2) as real / size == GrownScale(width as real / size, width)
  {
    var w := width as real;
    assert (w / size) * (w + 2.0) / w == (w + 2.0) / size;
  }

  lemma SampledTexelUnchanged(w: World, was: Op, op: Op, p: Px, t: Px)
    requires SinceSound(w) && op.mapped && Sampled(op) && FineScale(op)
    requires In(p, Drawn(op)) && !In(p, ContentDamage(w, was, op)) && t in Footprint(op, p)
    ensures w.texel(op.surface, was.commit, t) == w.texel(op.surface, op.commit, t)
  {
    var since := w.since(op.surface, was.commit, op.commit);
    if since.Some? && In(t, since.value) {
      var c, d := since.value, Drawn(op);
      AxisMarked(op.grown, d.x, d.width, op.src.x, op.src.width, c.x, c.x + c.width, p.x, t.x);
      AxisMarked(op.grown, d.y, d.height, op.src.y, op.src.height, c.y, c.y + c.height, p.y, t.y);
    }
  }

  /** A surface operation outside its content damage sees the same texels at both commits. */
  lemma ContentDamageSound(w: World, was: Op, op: Op, p: Px)
    requires SinceSound(w) && was.hash == op.hash && SameHash(was, op) && FineScale(op)
    requires op.surface != 0 && In(p, op.box) && !In(p, ContentDamage(w, was, op))
    ensures View(w, was, p) == View(w, op, p)
  {
    if op.mapped && HasSource(op) && In(p, Drawn(op)) {
      assert Footprint(was, p) == Footprint(op, p);
      forall t | t in Footprint(op, p)
        ensures w.texel(op.surface, was.commit, t) == w.texel(op.surface, op.commit, t)
      {
        SampledTexelUnchanged(w, was, op, p, t);
      }
    }
  }

  /** Pixel `p` lies within one pixel of where the texels from `c` to `e` land. */
  predicate NearImage(origin: int, src: real, scale: real, c: int, e: int, p: int) {
    Land(origin, src, scale, c as real) - 1.0 < p as real + 1.0 && p as real < Land(origin, src, scale, e as real) + 1.0
  }

  /** Content damage stays in the box, and within one pixel of the image of the changed texels when those are known. */
  lemma ContentDamageTight(w: World, was: Op, op: Op, p: Px)
    requires In(p, ContentDamage(w, was, op))
    ensures In(p, op.box)
    ensures var since := w.since(op.surface, was.commit, op.commit);
      op.mapped && HasSource(op) && since.Some? ==>
        && !since.value.Empty()
        && NearImage(op.box.x, op.src.x, RecordedX(op), since.value.x, since.value.x + since.value.width, p.x)
        && NearImage(op.box.y, op.src.y, RecordedY(op), since.value.y, since.value.y + since.value.height, p.y)
  {
    var since := w.since(op.surface, was.commit, op.commit);
    if op.mapped && HasSource(op) && since.Some? && !since.value.Empty() {
      var c := since.value;
      assert Marked(op.box.x, op.src.x, RecordedX(op), c.x, c.x + c.width, p.x);
      assert Marked(op.box.y, op.src.y, RecordedY(op), c.y, c.y + c.height, p.y);
      MarkedNear(op.box.x, op.src.x, RecordedX(op), c.x, c.x + c.width, p.x);
      MarkedNear(op.box.y, op.src.y, RecordedY(op), c.y, c.y + c.height, p.y);
    }
  }

  lemma MarkedNear(origin: int, src: real, scale: real, c: int, e: int, p: int)
    requires Marked(origin, src, scale, c, e, p)
    ensures NearImage(origin, src, scale, c, e, p)
  {
  }

  // ----- inputs beyond the limits

  /** A surface of which one texel differs between commits 0 and 1, as its damage says. */
  function OneTexel(at: Px): World {
    World((surface, commit, t) => if commit == 1 && t == at then 1 else 0, (hash, seen, p, was, backdrop) => 0,
          (surface, from, to) => Some(Box(at.x, at.y, 1, 1)))
  }

  /** A commit changes what a pixel of the operation sees, and the damage does not have the pixel. */
  ghost predicate Missed(w: World, was: Op, op: Op, p: Px) {
    && SinceSound(w) && SameHash(was, op) && op.hash == was.hash && op.surface != 0
    && In(p, op.box) && !In(p, ContentDamage(w, was, op)) && View(w, was, p) != View(w, op, p)
  }

  lemma MissedIn(was: Op, op: Op, p: Px, at: Px)
    requires op == was.(commit := 1) && was.commit == 0 && op.surface != 0
    requires op.mapped && HasSource(op) && In(p, Drawn(op))
    requires Samples(op, p, at) && In(p, op.box) && !In(p, ContentDamage(OneTexel(at), was, op))
    ensures Missed(OneTexel(at), was, op, p)
  {
    var w := OneTexel(at);
    assert at in Footprint(op, p) && at in Footprint(was, p);
    assert View(w, op, p).at[at] == 1 && View(w, was, p).at[at] == 0;
  }

  /** A plain texture drawn at four times its size. */
  lemma PlainTextureMissed()
    ensures var was := Op(7, 0, 1, Box(0, 0, 400, 400), NO_BOX, FBox(0.0, 0.0, 100.0, 100.0), true, false);
      Missed(OneTexel(Px(1, 0)), was, was.(commit := 1), Px(2, 2))
  {
    var was := Op(7, 0, 1, Box(0, 0, 400, 400), NO_BOX, FBox(0.0, 0.0, 100.0, 100.0), true, false);
    MissedIn(was, was.(commit := 1), Px(2, 2), Px(1, 0));
  }

  /** A rounded window drawn on 100 pixels from 40 texels, recorded on 102: enlarged less than threefold, and missed. */
  lemma GrownTextureMissed()
    ensures var was := Op(7, 0, 1, Box(-1, -1, 102, 102), NO_BOX, FBox(0.0, 0.0, 40.0, 40.0), true, true);
      ScaleX(was) == 2.5 && Missed(OneTexel(Px(39, 39)), was, was.(commit := 1), Px(96, 96))
  {
    var was := Op(7, 0, 1, Box(-1, -1, 102, 102), NO_BOX, FBox(0.0, 0.0, 40.0, 40.0), true, true);
    MissedIn(was, was.(commit := 1), Px(96, 96), Px(39, 39));
  }
}
