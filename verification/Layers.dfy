/** Layer-shell placement: exclusive zones in two passes over the layers (native/layer.c). */
module Layers {
  import opened Boxes
  import opened FixedPoint
  import opened Folding

  datatype Edge = NoEdge | Top | Bottom | Left | Right

  /** The anchor bits of `zwlr_layer_surface_v1`. */
  datatype Anchors = Anchors(top: bool, bottom: bool, left: bool, right: bool)

  const UNANCHORED := Anchors(false, false, false, false)

  datatype Margin = Margin(top: int, right: int, bottom: int, left: int)

  /**
   * What the plan knows of one surface: `out` is its planned output, or -1, and `unplaced` is set for a mapped surface
   * while there is no active output.
   */
  datatype Surface = Surface(out: int, layer: int, zone: int, anchor: Anchors, exclusive: Anchors,
                             width: nat, height: nat, margin: Margin, mapped: bool, visible: bool, unplaced: bool)

  /** What the plan decides about it. */
  datatype Placement = Placement(configured: bool, reserve: bool, edge: Edge, logical: Box, physical: Box)

  datatype Out = Out(x: int, y: int, scale: int, full: Box, usable: Box)

  /** The mask the edge is taken from: what the client chose, or else its anchor. */
  function EdgeMask(anchor: Anchors, exclusive: Anchors): Anchors {
    if exclusive != UNANCHORED then exclusive else anchor
  }

  /** `exclusive_edge_for`: the one edge the mask is attached to, if the zone is positive and there is such an edge. */
  function ExclusiveEdge(anchor: Anchors, exclusive: Anchors, zone: int): (e: Edge)
    ensures e != NoEdge <==> zone > 0 && exists f :: AttachedTo(EdgeMask(anchor, exclusive), f)
    ensures zone > 0 ==> forall f :: AttachedTo(EdgeMask(anchor, exclusive), f) ==> e == f
  {
    var a := EdgeMask(anchor, exclusive);
    var e :=
      if zone <= 0 then NoEdge
      else if a == Anchors(true, false, false, false) || a == Anchors(true, false, true, true) then Top
      else if a == Anchors(false, true, false, false) || a == Anchors(false, true, true, true) then Bottom
      else if a == Anchors(false, false, true, false) || a == Anchors(true, true, true, false) then Left
      else if a == Anchors(false, false, false, true) || a == Anchors(true, true, false, true) then Right
      else NoEdge;
    assert e != NoEdge ==> AttachedTo(a, e);
    e
  }

  /** A client that chooses one edge gets that edge. */
  lemma ChosenEdge(anchor: Anchors, e: Edge, zone: int)
    requires e != NoEdge && zone > 0
    ensures ExclusiveEdge(anchor, Only(e), zone) == e
  {
    assert AttachedTo(Only(e), e);
  }

  /** The mask of one edge. */
  function Only(e: Edge): Anchors {
    Anchors(e == Top, e == Bottom, e == Left, e == Right)
  }

  /** Anchored to this edge, not to the opposite one, and to both or neither of the others. */
  predicate AttachedTo(a: Anchors, e: Edge) {
    match e
    case NoEdge => false
    case Top => a.top && !a.bottom && a.left == a.right
    case Bottom => a.bottom && !a.top && a.left == a.right
    case Left => a.left && !a.right && a.top == a.bottom
    case Right => a.right && !a.left && a.top == a.bottom
  }

  /**
   * One axis of `plan_layer_geometry`: position and length.  Without a wish the margins are the gaps on both sides;
   * anchored to one side its margin is the gap there; otherwise the span is centred to within one unit.
   */
  function Axis(at: int, size: int, want: nat, low: bool, high: bool, marginLow: int, marginHigh: int): (r: (int, int))
    ensures want > 0 ==> r.1 == want
    ensures want == 0 || (low && !high) ==> r.0 - at == marginLow
    ensures want == 0 || (high && !low) ==> (at + size) - (r.0 + r.1) == marginHigh
    ensures want > 0 && low == high ==> -1 <= (r.0 - at) - ((at + size) - (r.0 + r.1)) <= 1
  {
    if want == 0 then (at + marginLow, size - (marginLow + marginHigh))
    else if low && high then (at + size / 2 - want / 2, want)
    else if low then (at + marginLow, want)
    else if high then (at + size - want - marginHigh, want)
    else (at + size / 2 - want / 2, want)
  }

  /** `plan_layer_geometry`. */
  function Geometry(s: Surface, bounds: Box): Box {
    var (x, width) := Axis(bounds.x, bounds.width, s.width, s.anchor.left, s.anchor.right, s.margin.left,
                           s.margin.right);
    var (y, height) := Axis(bounds.y, bounds.height, s.height, s.anchor.top, s.anchor.bottom, s.margin.top,
                            s.margin.bottom);
    Box(ToInt(x), ToInt(y), ToInt(Max(width, 0)), ToInt(Max(height, 0)))
  }

  function EdgeMargin(m: Margin, e: Edge): int {
    match e
    case NoEdge => 0
    case Top => m.top
    case Bottom => m.bottom
    case Left => m.left
    case Right => m.right
  }

  function EdgeOf(s: Surface): Edge {
    ExclusiveEdge(s.anchor, s.exclusive, s.zone)
  }

  predicate Reserves(s: Surface) {
    s.mapped && s.visible && s.zone > 0 && EdgeOf(s) != NoEdge
  }

  /** `plan_reserve` on the usable box. */
  function Reserve(usable: Box, s: Surface): Box {
    var amount := s.zone + EdgeMargin(s.margin, EdgeOf(s));
    var u := match EdgeOf(s)
      case NoEdge => usable
      case Top => usable.(y := ToInt(usable.y + amount), height := ToInt(usable.height - amount))
      case Bottom => usable.(height := ToInt(usable.height - amount))
      case Left => usable.(x := ToInt(usable.x + amount), width := ToInt(usable.width - amount))
      case Right => usable.(width := ToInt(usable.width - amount));
    Box(u.x, u.y, Max(u.width, 0), Max(u.height, 0))
  }

  function Bounds(s: Surface, o: Out): Box {
    if s.zone == -1 then o.full else o.usable
  }

  function PhysicalBox(o: Out, b: Box): Box {
    var left, top := LogicalToPhysical(b.x, o.scale), LogicalToPhysical(b.y, o.scale);
    Box(ToInt(o.x + left), ToInt(o.y + top),
        ToInt(LogicalToPhysical(b.x + b.width, o.scale) - left),
        ToInt(LogicalToPhysical(b.y + b.height, o.scale) - top))
  }

  function PlaceIn(s: Surface, o: Out): Placement {
    var logical := Geometry(s, Bounds(s, o));
    Placement(true, Reserves(s), EdgeOf(s), logical, PhysicalBox(o, logical))
  }

  predicate Planned(s: Surface, outs: nat) {
    0 <= s.out < outs && 0 <= s.layer <= 3
  }

  // ----- the order of the two passes

  /** Surface `s` is handled in this pass (0: with a positive zone) and layer. */
  predicate Visited(s: Surface, pass: nat, want: int) {
    s.out >= 0 && s.layer == want && ((s.zone > 0) <==> (pass == 0))
  }

  function Visits(ss: seq<Surface>, pass: nat, want: int, n: nat): (v: seq<nat>)
    requires n <= |ss|
    ensures forall i :: 0 <= i < |v| ==> v[i] < n && Visited(ss[v[i]], pass, want)
  {
    if n == 0 then []
    else if Visited(ss[n - 1], pass, want) then Visits(ss, pass, want, n - 1) + [n - 1]
    else Visits(ss, pass, want, n - 1)
  }

  /** Layers from 3 (overlay) down to `want`. */
  function Down(ss: seq<Surface>, pass: nat, want: int): (v: seq<nat>)
    ensures forall i :: 0 <= i < |v| ==>
      v[i] < |ss| && ss[v[i]].out >= 0 && ss[v[i]].layer >= want && (ss[v[i]].zone > 0 <==> pass == 0)
    decreases 4 - want
  {
    if want > 3 then [] else Down(ss, pass, want + 1) + Visits(ss, pass, want, |ss|)
  }

  /** First every surface with an exclusive zone, then the others, each pass from the overlay layer down. */
  function Order(ss: seq<Surface>): (v: seq<nat>)
    ensures forall i :: 0 <= i < |v| ==> v[i] < |ss| && ss[v[i]].out >= 0
  {
    Down(ss, 0, 0) + Down(ss, 1, 0)
  }

  /** The outputs once surface `i` has taken its strip. */
  function Reserved(ss: seq<Surface>, outs: seq<Out>, i: nat): (r: seq<Out>)
    ensures |r| == |outs|
  {
    if i < |ss| && 0 <= ss[i].out < |outs| && Reserves(ss[i]) then
      outs[ss[i].out := outs[ss[i].out].(usable := Reserve(outs[ss[i].out].usable, ss[i]))]
    else
      outs
  }

  /** What surface `i` is given in the plan so far. */
  function Placed(ss: seq<Surface>, outs: seq<Out>, i: nat): Placement {
    if i < |ss| && 0 <= ss[i].out < |outs| then PlaceIn(ss[i], outs[ss[i].out])
    else Placement(false, false, NoEdge, NO_BOX, NO_BOX)
  }

  type Step = (seq<Out>, nat) -> seq<Out>
  type Emit = (seq<Out>, nat) -> Placement

  function StepOf(ss: seq<Surface>): Step {
    (outs: seq<Out>, i: nat) => Reserved(ss, outs, i)
  }

  function EmitOf(ss: seq<Surface>): Emit {
    (outs: seq<Out>, i: nat) => Placed(ss, outs, i)
  }

  /** One surface of `plan_layers`: place it, then let it reserve. */
  method Handle(ss: seq<Surface>, i: nat, outs: array<Out>, placed: array<Placement>, ghost step: Step,
                ghost emit: Emit)
    requires i < |ss| == placed.Length && 0 <= ss[i].out < outs.Length && step == StepOf(ss) && emit == EmitOf(ss)
    modifies outs, placed
    ensures outs[..] == step(old(outs[..]), i)
    ensures placed[..] == old(placed[..])[i := emit(old(outs[..]), i)]
  {
    var o := ss[i].out;
    placed[i] := PlaceIn(ss[i], outs[o]);
    if placed[i].reserve {
      outs[o] := outs[o].(usable := Reserve(outs[o].usable, ss[i]));
    }
  }

  /** The innermost loop: one layer of one pass. */
  method PlanLayer(ss: seq<Surface>, pass: nat, layer: nat, outs: array<Out>, placed: array<Placement>,
                   ghost step: Step, ghost emit: Emit, ghost outs0: seq<Out>, ghost placed0: seq<Placement>,
                   ghost higher: seq<nat>)
    returns (ghost done: seq<nat>)
    requires placed.Length == |ss| && step == StepOf(ss) && emit == EmitOf(ss)
    requires forall i :: 0 <= i < |ss| ==> ss[i].out < outs.Length
    requires forall i, k :: 0 <= i < |ss| && Visited(ss[i], pass, layer) && 0 <= k < |higher| ==> higher[k] != i
    requires Progress(step, emit, outs0, placed0, higher, outs[..], placed[..])
    modifies outs, placed
    ensures done == higher + Visits(ss, pass, layer, |ss|)
    ensures Progress(step, emit, outs0, placed0, done, outs[..], placed[..])
  {
    hide Progress, Placed, Reserved;
    done := higher;
    for i := 0 to |ss|
      invariant done == higher + Visits(ss, pass, layer, i)
      invariant Progress(step, emit, outs0, placed0, done, outs[..], placed[..])
    {
      if ss[i].out < 0 || ss[i].layer != layer || (ss[i].zone > 0) != (pass == 0) {
        continue;
      }
      ProgressStep(step, emit, outs0, placed0, done, outs[..], placed[..], i);
      Handle(ss, i, outs, placed, step, emit);
      done := done + [i];
    }
  }

  lemma DownNone(ss: seq<Surface>, pass: nat)
    ensures Down(ss, pass, 4) == []
  {
  }

  lemma DownStep(ss: seq<Surface>, pass: nat, want: int)
    requires want <= 3
    ensures Down(ss, pass, want) == Down(ss, pass, want + 1) + Visits(ss, pass, want, |ss|)
  {
  }

  /** One pass, from the overlay layer down. */
  method PlanPass(ss: seq<Surface>, pass: nat, outs: array<Out>, placed: array<Placement>, ghost step: Step,
                  ghost emit: Emit, ghost outs0: seq<Out>, ghost placed0: seq<Placement>, ghost before: seq<nat>)
    returns (ghost done: seq<nat>)
    requires placed.Length == |ss| && step == StepOf(ss) && emit == EmitOf(ss)
    requires forall i :: 0 <= i < |ss| ==> ss[i].out < outs.Length
    requires forall k :: 0 <= k < |before| ==> before[k] < |ss| && ((ss[before[k]].zone > 0) <==> pass != 0)
    requires Progress(step, emit, outs0, placed0, before, outs[..], placed[..])
    modifies outs, placed
    ensures done == before + Down(ss, pass, 0)
    ensures Progress(step, emit, outs0, placed0, done, outs[..], placed[..])
  {
    hide Progress, Placed, Reserved, Down, Visits;
    DownNone(ss, pass);
    done := before;
    for layer := 4 downto 0
      invariant done == before + Down(ss, pass, layer)
      invariant Progress(step, emit, outs0, placed0, done, outs[..], placed[..])
    {
      NotYet(ss, pass, layer, before, done);
      DownStep(ss, pass, layer);
      done := PlanLayer(ss, pass, layer, outs, placed, step, emit, outs0, placed0, done);
    }
  }

  /**
   * The two-pass loop of `plan_layers`: every planned surface is placed in the plan left by those before it in
   * the order, and nothing else is touched.
   */
  method PlanLayers(ss: seq<Surface>, outs: array<Out>, placed: array<Placement>)
    requires placed.Length == |ss|
    requires forall i :: 0 <= i < |ss| && ss[i].out >= 0 ==> Planned(ss[i], outs.Length)
    modifies outs, placed
    ensures Progress(StepOf(ss), EmitOf(ss), old(outs[..]), old(placed[..]), Order(ss), outs[..], placed[..])
  {
    ghost var outs0, placed0, step, emit := outs[..], placed[..], StepOf(ss), EmitOf(ss);
    ghost var done: seq<nat> := [];
    assert Progress(step, emit, outs0, placed0, done, outs[..], placed[..]);
    hide Progress, Placed, Reserved;
    for pass := 0 to 2
      invariant pass == 0 ==> done == []
      invariant pass == 1 ==> done == Down(ss, 0, 0)
      invariant pass == 2 ==> done == Order(ss)
      invariant Progress(step, emit, outs0, placed0, done, outs[..], placed[..])
    {
      done := PlanPass(ss, pass, outs, placed, step, emit, outs0, placed0, done);
    }
  }

  /** No surface is visited twice. */
  lemma NotYet(ss: seq<Surface>, pass: nat, layer: int, before: seq<nat>, higher: seq<nat>)
    requires forall k :: 0 <= k < |before| ==> before[k] < |ss| && ((ss[before[k]].zone > 0) <==> pass != 0)
    requires higher == before + Down(ss, pass, layer + 1)
    ensures forall i, k :: 0 <= i < |ss| && Visited(ss[i], pass, layer) && 0 <= k < |higher| ==> higher[k] != i
  {
  }
}
