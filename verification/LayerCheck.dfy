/** The overflow check on a finished layer plan (`layers_plan_arithmetic_valid`, native/layer.c). */
module LayerCheck {
  import opened Boxes
  import opened FixedPoint
  import opened Folding
  import opened Layers

  predicate OutAccepted(o: Out) {
    o.scale > 0 && o.full.width > 0 && o.full.height > 0 && o.usable.width >= 0 && o.usable.height >= 0
  }

  /** The physical position and size recomputed without clamping. */
  function Exact(o: Out, b: Box): Box {
    var left, top := LogicalToPhysical(b.x, o.scale), LogicalToPhysical(b.y, o.scale);
    Box(o.x + left, o.y + top,
        LogicalToPhysical(b.x + b.width, o.scale) - left, LogicalToPhysical(b.y + b.height, o.scale) - top)
  }

  /** Every number of the exact box is an `int`: nothing saturated. */
  predicate InRange(o: Out, b: Box) {
    var e := Exact(o, b);
    IsInt(e.x) && IsInt(e.y) && e.width <= INT_MAX && e.height <= INT_MAX
  }

  /** Boxes that touch on the desk touch on the screen, and those that share an edge line there share it here. */
  lemma AdjacentStayAdjacent(o: Out, a: Box, b: Box)
    requires InRange(o, a) && InRange(o, b) && a.width >= 0 && a.height >= 0
    ensures a.x + a.width == b.x ==> PhysicalBox(o, a).x + PhysicalBox(o, a).width == PhysicalBox(o, b).x
    ensures a.y + a.height == b.y ==> PhysicalBox(o, a).y + PhysicalBox(o, a).height == PhysicalBox(o, b).y
  {
    LogicalToPhysicalMonotone(a.x, a.x + a.width, o.scale);
    LogicalToPhysicalMonotone(a.y, a.y + a.height, o.scale);
  }

  /** Without saturation the four edges on the screen are the rounded edges on the desk. */
  lemma EdgesRounded(o: Out, b: Box)
    requires InRange(o, b) && b.width >= 0 && b.height >= 0
    ensures var p := PhysicalBox(o, b);
      && p.x - o.x == LogicalToPhysical(b.x, o.scale)
      && p.x + p.width - o.x == LogicalToPhysical(b.x + b.width, o.scale)
      && p.y - o.y == LogicalToPhysical(b.y, o.scale)
      && p.y + p.height - o.y == LogicalToPhysical(b.y + b.height, o.scale)
  {
    LogicalToPhysicalMonotone(b.x, b.x + b.width, o.scale);
    LogicalToPhysicalMonotone(b.y, b.y + b.height, o.scale);
  }

  /** The numbers fit exactly when the clamps change none of them. */
  lemma InRangeIff(o: Out, b: Box)
    requires b.width >= 0 && b.height >= 0
    ensures InRange(o, b) <==>
      && PhysicalBox(o, b).x == o.x + LogicalToPhysical(b.x, o.scale)
      && PhysicalBox(o, b).y == o.y + LogicalToPhysical(b.y, o.scale)
      && PhysicalBox(o, b).width == LogicalToPhysical(b.x + b.width, o.scale) - LogicalToPhysical(b.x, o.scale)
      && PhysicalBox(o, b).height == LogicalToPhysical(b.y + b.height, o.scale) - LogicalToPhysical(b.y, o.scale)
  {
    LogicalToPhysicalMonotone(b.x, b.x + b.width, o.scale);
    LogicalToPhysicalMonotone(b.y, b.y + b.height, o.scale);
  }

  /** Surfaces the check looks at: mapped ones, but not those that wait for an output. */
  predicate Checked(s: Surface) {
    s.mapped && !s.unplaced
  }

  /** The check of one such surface. */
  predicate SurfaceAccepted(s: Surface, outs: seq<Out>, p: Placement) {
    && 0 <= s.out < |outs| && p.configured && outs[s.out].scale > 0
    && p.logical.width >= 0 && p.logical.height >= 0 && p.physical.width >= 0 && p.physical.height >= 0
    && 0 <= s.layer <= 3
    && var e := Exact(outs[s.out], p.logical);
      0 <= e.width <= INT_MAX && 0 <= e.height <= INT_MAX && IsInt(e.x) && IsInt(e.y) && p.physical == e
  }

  ghost predicate PlanAccepted(ss: seq<Surface>, outs: seq<Out>, placed: seq<Placement>)
    requires |placed| == |ss|
  {
    && (forall o :: 0 <= o < |outs| ==> OutAccepted(outs[o]))
    && (forall i :: 0 <= i < |ss| && Checked(ss[i]) ==> SurfaceAccepted(ss[i], outs, placed[i]))
  }

  /** `layers_plan_arithmetic_valid`. */
  method ArithmeticValid(ss: seq<Surface>, outs: array<Out>, placed: array<Placement>) returns (ok: bool)
    requires placed.Length == |ss|
    ensures ok <==> PlanAccepted(ss, outs[..], placed[..])
  {
    for o := 0 to outs.Length
      invariant forall k :: 0 <= k < o ==> OutAccepted(outs[k])
    {
      if !OutAccepted(outs[o]) {
        assert !OutAccepted(outs[..][o]);
        return false;
      }
    }
    for i := 0 to |ss|
      invariant forall k :: 0 <= k < i && Checked(ss[k]) ==> SurfaceAccepted(ss[k], outs[..], placed[k])
    {
      if !ss[i].mapped {
        continue;
      }
      if ss[i].unplaced {
        continue;
      }
      if !SurfaceAccepted(ss[i], outs[..], placed[i]) {
        assert !SurfaceAccepted(ss[i], outs[..], placed[..][i]);
        return false;
      }
    }
    return true;
  }

  /** What no step of the plan changes. */
  ghost predicate SameOutputs(a: seq<Out>, b: seq<Out>) {
    |a| == |b| && forall o :: 0 <= o < |a| ==> SameOutput(a[o], b[o])
  }

  ghost predicate SameOutput(a: Out, b: Out) {
    a.(usable := b.usable) == b && (OutAccepted(a) ==> OutAccepted(b))
  }

  lemma {:induction false} OutputsKept(ss: seq<Surface>, outs: seq<Out>, order: seq<nat>, n: nat)
    requires n <= |order|
    ensures SameOutputs(outs, After(StepOf(ss), outs, order, n))
  {
    if n > 0 {
      OutputsKept(ss, outs, order, n - 1);
      var was := After(StepOf(ss), outs, order, n - 1);
      assert After(StepOf(ss), outs, order, n) == Reserved(ss, was, order[n - 1]);
      ReservedKeeps(ss, was, order[n - 1]);
    }
  }

  lemma ReservedKeeps(ss: seq<Surface>, outs: seq<Out>, i: nat)
    ensures SameOutputs(outs, Reserved(ss, outs, i))
  {
  }

  lemma {:induction false} VisitsAll(ss: seq<Surface>, pass: nat, want: int, n: nat, i: nat)
    requires i < n <= |ss| && Visited(ss[i], pass, want)
    ensures i in Visits(ss, pass, want, n)
  {
    if i < n - 1 {
      VisitsAll(ss, pass, want, n - 1, i);
    }
  }

  lemma {:induction false} DownHas(ss: seq<Surface>, pass: nat, want: int, i: nat)
    requires i < |ss| && want <= ss[i].layer <= 3 && Visited(ss[i], pass, ss[i].layer)
    ensures i in Down(ss, pass, want)
    decreases ss[i].layer - want
  {
    if want < ss[i].layer {
      DownHas(ss, pass, want + 1, i);
    } else {
      VisitsAll(ss, pass, want, |ss|, i);
    }
  }

  /** Every surface with an output is handled. */
  lemma OrderHas(ss: seq<Surface>, i: nat)
    requires i < |ss| && ss[i].out >= 0 && 0 <= ss[i].layer <= 3
    ensures i in Order(ss)
  {
    DownHas(ss, if ss[i].zone > 0 then 0 else 1, 0, i);
  }

  /** A fresh placement passes exactly when nothing saturates. */
  lemma FreshAccepted(s: Surface, o: Out, outs: seq<Out>)
    requires 0 <= s.out < |outs| && 0 <= s.layer <= 3 && outs[s.out].scale > 0
    requires o.(usable := outs[s.out].usable) == outs[s.out]
    ensures SurfaceAccepted(s, outs, PlaceIn(s, o)) <==> InRange(o, PlaceIn(s, o).logical)
  {
    var b := PlaceIn(s, o).logical;
    assert b.width >= 0 && b.height >= 0;
    hide Geometry, LogicalToPhysical, Reserve;
    LogicalToPhysicalMonotone(b.x, b.x + b.width, o.scale);
    LogicalToPhysicalMonotone(b.y, b.y + b.height, o.scale);
  }

  lemma SameExact(a: Out, b: Out, box: Box)
    requires SameOutput(a, b)
    ensures InRange(a, box) <==> InRange(b, box)
  {
  }

  /** The plan `plan_layers` leaves for these surfaces and outputs. */
  ghost predicate Made(ss: seq<Surface>, outs0: seq<Out>, placed0: seq<Placement>, outs: seq<Out>,
                       placed: seq<Placement>) {
    |placed0| == |ss| && Progress(StepOf(ss), EmitOf(ss), outs0, placed0, Order(ss), outs, placed)
  }

  lemma Handled(ss: seq<Surface>, outs0: seq<Out>, placed0: seq<Placement>, outs: seq<Out>, placed: seq<Placement>,
                i: nat)
    returns (was: Out)
    requires Made(ss, outs0, placed0, outs, placed) && i < |ss| && Planned(ss[i], |outs0|)
    ensures |placed| == |ss| && SameOutputs(outs0, outs)
    ensures placed[i] == PlaceIn(ss[i], was) && SameOutput(outs0[ss[i].out], was)
  {
    hide PlaceIn, Reserved;
    var order := Order(ss);
    OutputsKept(ss, outs0, order, |order|);
    OrderHas(ss, i);
    var m :| 0 <= m < |order| && order[m] == i;
    EmittedAt(StepOf(ss), EmitOf(ss), outs0, order, |order|, m);
    OutputsKept(ss, outs0, order, m);
    was := After(StepOf(ss), outs0, order, m)[ss[i].out];
  }

  /** Surface `i` found an output, and nothing about it saturates. */
  ghost predicate Representable(ss: seq<Surface>, outs: seq<Out>, placed: seq<Placement>, i: nat)
    requires i < |ss| == |placed|
  {
    0 <= ss[i].out < |outs| && InRange(outs[ss[i].out], placed[i].logical)
  }

  lemma OneAccepted(ss: seq<Surface>, outs0: seq<Out>, placed0: seq<Placement>, outs: seq<Out>, placed: seq<Placement>,
                    i: nat)
    requires Made(ss, outs0, placed0, outs, placed) && i < |ss| == |placed|
    requires forall o :: 0 <= o < |outs0| ==> OutAccepted(outs0[o])
    requires ss[i].out >= 0 ==> Planned(ss[i], |outs0|)
    ensures SurfaceAccepted(ss[i], outs, placed[i]) <==> Representable(ss, outs0, placed, i)
  {
    hide Made, PlaceIn;
    if ss[i].out >= 0 {
      var was := Handled(ss, outs0, placed0, outs, placed, i);
      FreshAccepted(ss[i], was, outs);
      SameExact(outs0[ss[i].out], was, placed[i].logical);
    }
  }

  /**
   * The check accepts the plan `plan_layers` makes if and only if every mapped surface not waiting for an output found
   * one and none of its physical coordinates saturated.
   */
  lemma PlanAcceptedIff(ss: seq<Surface>, outs0: seq<Out>, placed0: seq<Placement>, outs: seq<Out>,
                        placed: seq<Placement>)
    requires Made(ss, outs0, placed0, outs, placed)
    requires forall o :: 0 <= o < |outs0| ==> OutAccepted(outs0[o])
    requires forall i :: 0 <= i < |ss| && ss[i].out >= 0 ==> Planned(ss[i], |outs0|)
    ensures |placed| == |ss| && |outs| == |outs0|
    ensures PlanAccepted(ss, outs, placed) <==>
      forall i :: 0 <= i < |ss| && Checked(ss[i]) ==> Representable(ss, outs0, placed, i)
  {
    hide SurfaceAccepted, Representable;
    OutputsKept(ss, outs0, Order(ss), |Order(ss)|);
    forall i | 0 <= i < |ss|
      ensures SurfaceAccepted(ss[i], outs, placed[i]) <==> Representable(ss, outs0, placed, i)
    {
      OneAccepted(ss, outs0, placed0, outs, placed, i);
    }
  }
}
