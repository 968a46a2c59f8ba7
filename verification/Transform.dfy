/** The eight output transforms as a group acting on boxes (native/base.c). */
module Transform {
  import opened Boxes

  /**
   * `wl_output_transform`: bit 0 turns by 90 degrees, bit 1 by 180, bit 2 flips first.
   */
  newtype Code = c: int | 0 <= c < 8

  datatype Size = Size(width: real, height: real)

  predicate Turned(t: Code) {
    t % 2 == 1
  }

  predicate Flipped(t: Code) {
    t >= 4
  }

  /** The size of the plane after a transform (`transform_coords`). */
  function Mapped(t: Code, s: Size): Size {
    if Turned(t) then Size(s.height, s.width) else s
  }

  /** `fbox_transform`. */
  function Apply(t: Code, b: FBox, s: Size): FBox {
    var right := s.width - b.x - b.width;
    var bottom := s.height - b.y - b.height;
    var width := if Turned(t) then b.height else b.width;
    var height := if Turned(t) then b.width else b.height;
    match t
    case 0 => FBox(b.x, b.y, width, height)
    case 1 => FBox(bottom, b.x, width, height)
    case 2 => FBox(right, bottom, width, height)
    case 3 => FBox(b.y, right, width, height)
    case 4 => FBox(right, b.y, width, height)
    case 5 => FBox(b.y, b.x, width, height)
    case 6 => FBox(b.x, bottom, width, height)
    case _ => FBox(bottom, right, width, height)
  }

  /** `transform_invert`: an unflipped quarter turn becomes the opposite quarter turn (exclusive-or with 2). */
  function Invert(t: Code): Code {
    if Turned(t) && !Flipped(t) then (if t / 2 % 2 == 1 then t - 2 else t + 2) else t
  }

  /** `transform_compose`; the difference is taken modulo 2^32, of which only the low two bits are kept. */
  function Compose(a: Code, b: Code): Code {
    var flipped := if Flipped(a) != Flipped(b) then 4 else 0;
    var turns: int := if Flipped(b) then b as int - a as int else a as int + b as int;
    (flipped + turns % 4) as Code
  }

  /** Composition acts as one transform after the other, on every box and every size. */
  lemma ComposeActs(a: Code, b: Code, box: FBox, s: Size)
    ensures Apply(Compose(a, b), box, s) == Apply(a, Apply(b, box, s), Mapped(b, s))
    ensures Mapped(Compose(a, b), s) == Mapped(a, Mapped(b, s))
  {
    match a {
      case 0 => ComposeWith(0, b, box, s);
      case 1 => ComposeWith(1, b, box, s);
      case 2 => ComposeWith(2, b, box, s);
      case 3 => ComposeWith(3, b, box, s);
      case 4 => ComposeWith(4, b, box, s);
      case 5 => ComposeWith(5, b, box, s);
      case 6 => ComposeWith(6, b, box, s);
      case _ => ComposeWith(7, b, box, s);
    }
  }

  lemma ComposeWith(a: Code, b: Code, box: FBox, s: Size)
    ensures Apply(Compose(a, b), box, s) == Apply(a, Apply(b, box, s), Mapped(b, s))
    ensures Mapped(Compose(a, b), s) == Mapped(a, Mapped(b, s))
  {
    hide Apply, Compose, Mapped;
    if b < 4 {
      ComposeWithRotated(a, b, box, s);
    } else {
      ComposeWithFlipped(a, b, box, s);
    }
  }

  lemma ComposeWithRotated(a: Code, b: Code, box: FBox, s: Size)
    requires b < 4
    ensures Apply(Compose(a, b), box, s) == Apply(a, Apply(b, box, s), Mapped(b, s))
    ensures Mapped(Compose(a, b), s) == Mapped(a, Mapped(b, s))
  {
    assert b in {0, 1, 2, 3};
  }

  lemma ComposeWithFlipped(a: Code, b: Code, box: FBox, s: Size)
    requires b >= 4
    ensures Apply(Compose(a, b), box, s) == Apply(a, Apply(b, box, s), Mapped(b, s))
    ensures Mapped(Compose(a, b), s) == Mapped(a, Mapped(b, s))
  {
    assert b in {4, 5, 6, 7};
  }

  /** The inverse undoes a transform, given the mapped size. */
  lemma InvertUndoes(t: Code, box: FBox, s: Size)
    ensures Apply(Invert(t), Apply(t, box, s), Mapped(t, s)) == box
    ensures Mapped(Invert(t), Mapped(t, s)) == s
  {
    assert t in {0, 1, 2, 3, 4, 5, 6, 7};
  }

  /** The action tells the eight transforms apart, so the laws of the action are laws of the codes. */
  lemma ActionFaithful(a: Code, b: Code)
    requires forall box, s :: Apply(a, box, s) == Apply(b, box, s)
    ensures a == b
  {
    var box, s := FBox(1.0, 2.0, 3.0, 5.0), Size(20.0, 40.0);
    assert Apply(a, box, s) == Apply(b, box, s);
  }

  /** The codes form a group. */
  lemma ComposeAssociative(a: Code, b: Code, c: Code)
    ensures Compose(a, Compose(b, c)) == Compose(Compose(a, b), c)
  {
    forall box, s
      ensures Apply(Compose(a, Compose(b, c)), box, s) == Apply(Compose(Compose(a, b), c), box, s)
    {
      ComposeActs(a, Compose(b, c), box, s);
      ComposeActs(b, c, box, s);
      ComposeActs(Compose(a, b), c, box, s);
      ComposeActs(a, b, Apply(c, box, s), Mapped(c, s));
    }
    ActionFaithful(Compose(a, Compose(b, c)), Compose(Compose(a, b), c));
  }

  lemma InverseInGroup(t: Code)
    ensures Compose(Invert(t), t) == 0 && Compose(t, Invert(t)) == 0
    ensures Compose(0, t) == t && Compose(t, 0) == t
  {
    assert t in {0, 1, 2, 3, 4, 5, 6, 7};
  }

  /** Code 1 turns clockwise: what was left is on top, and what was on top is on the right. */
  lemma QuarterTurn(box: FBox, s: Size)
    ensures var r, m := Apply(1, box, s), Mapped(1, s);
      && r.y == box.x && m.width - (r.x + r.width) == box.y
      && r.x == s.height - (box.y + box.height) && m.height - (r.y + r.height) == s.width - (box.x + box.width)
      && r.width == box.height && r.height == box.width && m.width == s.height && m.height == s.width
  {
  }

  /** Code 4 exchanges left and right. */
  lemma Flip(box: FBox, s: Size)
    ensures var r := Apply(4, box, s);
      && r.x == s.width - (box.x + box.width) && r.y == box.y && r.width == box.width && r.height == box.height
      && Mapped(4, s) == s
  {
  }

  /** The other codes are turns, and turns followed by the flip. */
  lemma Generated()
    ensures Compose(1, 1) == 2 && Compose(1, 2) == 3 && Compose(1, 3) == 0
    ensures Compose(4, 1) == 5 && Compose(4, 2) == 6 && Compose(4, 3) == 7 && Compose(4, 4) == 0
  {
  }

  /** A box inside the plane stays inside the mapped plane. */
  lemma ApplyStaysInside(t: Code, box: FBox, s: Size)
    ensures var r, m := Apply(t, box, s), Mapped(t, s);
      (0.0 <= box.x && 0.0 <= box.y && box.x + box.width <= s.width && box.y + box.height <= s.height) <==>
      (0.0 <= r.x && 0.0 <= r.y && r.x + r.width <= m.width && r.y + r.height <= m.height)
  {
    assert t in {0, 1, 2, 3, 4, 5, 6, 7};
  }
}
