/** Who is placed before whom in the layer plan, and where that puts each surface. */
module LayerOrder {
  import opened Boxes
  import opened FixedPoint
  import opened Folding
  import opened Layers
  import opened LayerLaws
  import opened LayerCheck

  /** Surfaces with an exclusive zone come first, then higher layers, then earlier entries of the list. */
  predicate Comes(ss: seq<Surface>, i: int, j: int)
    requires 0 <= i < |ss| && 0 <= j < |ss|
  {
    || (ss[i].zone > 0 && ss[j].zone <= 0)
    || ((ss[i].zone > 0 <==> ss[j].zone > 0)
        && (ss[i].layer > ss[j].layer || (ss[i].layer == ss[j].layer && i < j)))
  }

  ghost predicate Sorted(ss: seq<Surface>, v: seq<nat>) {
    && (forall m :: 0 <= m < |v| ==> v[m] < |ss|)
    && (forall m, n :: 0 <= m < n < |v| ==> Comes(ss, v[m], v[n]))
  }

  lemma {:induction false} VisitsSorted(ss: seq<Surface>, pass: nat, want: int, n: nat)
    requires n <= |ss|
    ensures Sorted(ss, Visits(ss, pass, want, n))
  {
    if n > 0 {
      VisitsSorted(ss, pass, want, n - 1);
    }
  }

  lemma {:induction false} DownSorted(ss: seq<Surface>, pass: nat, want: int)
    ensures Sorted(ss, Down(ss, pass, want))
    decreases 4 - want
  {
    if want <= 3 {
      DownSorted(ss, pass, want + 1);
      VisitsSorted(ss, pass, want, |ss|);
    }
  }

  /** The order of `plan_layers` is sorted, and holds every planned surface. */
  lemma OrderSorted(ss: seq<Surface>, m: nat, n: nat)
    requires m < n < |Order(ss)|
    ensures Comes(ss, Order(ss)[m], Order(ss)[n])
  {
    DownSorted(ss, 0, 0);
    DownSorted(ss, 1, 0);
  }

  lemma OrderHolds(ss: seq<Surface>, i: nat)
    requires i < |ss| && ss[i].out >= 0 && 0 <= ss[i].layer <= 3
    ensures exists m :: 0 <= m < |Order(ss)| && Order(ss)[m] == i
  {
    OrderHas(ss, i);
  }

  /** What is handled before a surface is exactly what comes before it. */
  lemma HandledBefore(ss: seq<Surface>, m: nat, j: nat)
    requires m < |Order(ss)| && j < |ss| && ss[j].out >= 0 && 0 <= ss[j].layer <= 3
    ensures j in Order(ss)[..m] <==> Comes(ss, j, Order(ss)[m])
  {
    OrderHolds(ss, j);
    var n :| 0 <= n < |Order(ss)| && Order(ss)[n] == j;
    if n < m {
      assert Order(ss)[..m][n] == j;
      OrderSorted(ss, n, m);
    } else {
      if m < n {
        OrderSorted(ss, m, n);
      }
      forall k: nat | k < m
        ensures Order(ss)[k] != j
      {
        OrderSorted(ss, k, n);
      }
    }
  }

  // ----- what is taken before a surface

  /** What the first `n` surfaces take that come before surface `i`. */
  function Earlier(ss: seq<Surface>, i: nat, o: int, e: Edge, n: nat): int
    requires i < |ss| && n <= |ss|
  {
    if n == 0 then 0
    else Earlier(ss, i, o, e, n - 1) + if Comes(ss, n - 1, i) then Amount(ss[n - 1], o, e) else 0
  }

  /** The weight of the first `n` surfaces that are in `chosen`. */
  function SumIn(ss: seq<Surface>, chosen: seq<nat>, o: int, e: Edge, n: nat): int
    requires n <= |ss|
  {
    if n == 0 then 0 else SumIn(ss, chosen, o, e, n - 1) + if n - 1 in chosen then Amount(ss[n - 1], o, e) else 0
  }

  lemma {:induction false} SumInMore(ss: seq<Surface>, chosen: seq<nat>, x: nat, o: int, e: Edge, n: nat)
    requires n <= |ss| && x < |ss| && x !in chosen
    ensures SumIn(ss, chosen + [x], o, e, n) == SumIn(ss, chosen, o, e, n) + if x < n then Amount(ss[x], o, e) else 0
  {
    if n > 0 {
      SumInMore(ss, chosen, x, o, e, n - 1);
    }
  }

  lemma {:induction false} SumInNone(ss: seq<Surface>, o: int, e: Edge, n: nat)
    requires n <= |ss|
    ensures SumIn(ss, [], o, e, n) == 0
  {
    if n > 0 {
      SumInNone(ss, o, e, n - 1);
    }
  }

  lemma {:induction false} TakenIn(ss: seq<Surface>, m: nat, o: int, e: Edge)
    requires m <= |Order(ss)|
    ensures Taken(ss, Order(ss), m, o, e) == SumIn(ss, Order(ss)[..m], o, e, |ss|)
  {
    var order := Order(ss);
    if m == 0 {
      SumInNone(ss, o, e, |ss|);
    } else {
      TakenIn(ss, m - 1, o, e);
      forall k | 0 <= k < m - 1
        ensures order[k] != order[m - 1]
      {
        OrderSorted(ss, k, m - 1);
      }
      SumInMore(ss, order[..m - 1], order[m - 1], o, e, |ss|);
      assert order[..m] == order[..m - 1] + [order[m - 1]];
    }
  }

  lemma {:induction false} EarlierIn(ss: seq<Surface>, m: nat, o: int, e: Edge, n: nat)
    requires m < |Order(ss)| && n <= |ss| && o >= 0
    requires forall i :: 0 <= i < |ss| && ss[i].out >= 0 ==> 0 <= ss[i].layer <= 3
    ensures SumIn(ss, Order(ss)[..m], o, e, n) == Earlier(ss, Order(ss)[m], o, e, n)
  {
    if n > 0 {
      EarlierIn(ss, m, o, e, n - 1);
      if ss[n - 1].out >= 0 {
        HandledBefore(ss, m, n - 1);
      }
    }
  }

  /** Before a surface is placed, exactly what comes before it has been taken. */
  lemma TakenBefore(ss: seq<Surface>, m: nat, o: int, e: Edge)
    requires m < |Order(ss)| && o >= 0
    requires forall i :: 0 <= i < |ss| && ss[i].out >= 0 ==> 0 <= ss[i].layer <= 3
    ensures Taken(ss, Order(ss), m, o, e) == Earlier(ss, Order(ss)[m], o, e, |ss|)
  {
    TakenIn(ss, m, o, e);
    EarlierIn(ss, m, o, e, |ss|);
  }

  // ----- where surfaces end up

  /** The second pass reserves nothing. */
  lemma {:induction false} RestKeeps(ss: seq<Surface>, outs: seq<Out>, m: nat, n: nat)
    requires m <= n <= |Order(ss)| && forall k :: m <= k < n ==> ss[Order(ss)[k]].zone <= 0
    ensures PlanAt(ss, outs, n) == PlanAt(ss, outs, m)
  {
    if m < n {
      RestKeeps(ss, outs, m, n - 1);
      assert PlanAt(ss, outs, n) == Reserved(ss, PlanAt(ss, outs, n - 1), Order(ss)[n - 1]);
    }
  }

  /**
   * After `plan_layers` a surface without an exclusive zone lies in the usable area that is left in the end, or in the
   * whole output when its zone is -1.
   */
  lemma UnzonedInFinal(ss: seq<Surface>, outs0: seq<Out>, placed0: seq<Placement>, outs: seq<Out>,
                       placed: seq<Placement>, i: nat)
    requires Made(ss, outs0, placed0, outs, placed) && i < |ss| && Planned(ss[i], |outs0|) && ss[i].zone <= 0
    ensures |placed| == |ss| && |outs| == |outs0|
    ensures placed[i].configured && !placed[i].reserve && placed[i].edge == NoEdge
    ensures placed[i].logical ==
      Geometry(ss[i], if ss[i].zone == -1 then outs0[ss[i].out].full else outs[ss[i].out].usable)
  {
    hide Geometry;
    var m := PlacedFrom(ss, outs0, placed0, outs, placed, i);
    var order := Order(ss);
    forall k | m <= k < |order|
      ensures ss[order[k]].zone <= 0
    {
      if m < k {
        OrderSorted(ss, m, k);
      }
    }
    RestKeeps(ss, outs0, m, |order|);
  }

  /** Where in the order a planned surface is, and what it is given there. */
  lemma PlacedFrom(ss: seq<Surface>, outs0: seq<Out>, placed0: seq<Placement>, outs: seq<Out>, placed: seq<Placement>,
                   i: nat) returns (m: nat)
    requires Made(ss, outs0, placed0, outs, placed) && i < |ss| && Planned(ss[i], |outs0|)
    ensures |placed| == |ss| && |outs| == |outs0| && outs == PlanAt(ss, outs0, |Order(ss)|)
    ensures m < |Order(ss)| && Order(ss)[m] == i && |PlanAt(ss, outs0, m)| == |outs0|
    ensures PlanAt(ss, outs0, m)[ss[i].out].full == outs0[ss[i].out].full
    ensures placed[i] == PlaceIn(ss[i], PlanAt(ss, outs0, m)[ss[i].out])
  {
    hide PlaceIn, Reserved;
    var order := Order(ss);
    OrderHolds(ss, i);
    m :| 0 <= m < |order| && order[m] == i;
    OutputsKept(ss, outs0, order, |order|);
    OutputsKept(ss, outs0, order, m);
    EmittedAt(StepOf(ss), EmitOf(ss), outs0, order, |order|, m);
  }

  /**
   * A surface with an exclusive zone lies in the area that exactly the surfaces before it leave: those with a zone on a
   * higher layer, or on its layer and earlier in the list.
   */
  lemma ZonedInLeft(ss: seq<Surface>, outs0: seq<Out>, placed0: seq<Placement>, outs: seq<Out>, placed: seq<Placement>,
                    i: nat)
    requires Made(ss, outs0, placed0, outs, placed) && i < |ss| && Planned(ss[i], |outs0|) && ss[i].zone > 0
    requires Ready(ss, outs0, ss[i].out)
    ensures |placed| == |ss|
    ensures var o, full := ss[i].out, outs0[ss[i].out].full;
      placed[i].logical == Geometry(ss[i],
        Inset(full, Earlier(ss, i, o, Top, |ss|), Earlier(ss, i, o, Bottom, |ss|),
              Earlier(ss, i, o, Left, |ss|), Earlier(ss, i, o, Right, |ss|)))
  {
    hide Geometry, Inset, Earlier, Order, Total;
    var m := PlacedFrom(ss, outs0, placed0, outs, placed, i);
    var o := ss[i].out;
    TakenBefore(ss, m, o, Top);
    TakenBefore(ss, m, o, Bottom);
    TakenBefore(ss, m, o, Left);
    TakenBefore(ss, m, o, Right);
    UsableLeft(ss, outs0, o, m);
  }

  lemma UsableLeft(ss: seq<Surface>, outs: seq<Out>, o: nat, m: nat)
    requires Ready(ss, outs, o) && m <= |Order(ss)|
    ensures |PlanAt(ss, outs, m)| == |outs|
    ensures PlanAt(ss, outs, m)[o].usable == InsetAfter(ss, Order(ss), m, o, outs[o].full)
  {
    hide Order, Inset, InsetAfter;
    OrderTakesTotal(ss, o, Left);
    OrderTakesTotal(ss, o, Right);
    OrderTakesTotal(ss, o, Top);
    OrderTakesTotal(ss, o, Bottom);
    TakenGrows(ss, Order(ss), 0, |Order(ss)|, o, Left);
    TakenGrows(ss, Order(ss), 0, |Order(ss)|, o, Top);
    TakenGrows(ss, Order(ss), 0, |Order(ss)|, o, Right);
    TakenGrows(ss, Order(ss), 0, |Order(ss)|, o, Bottom);
    UsableAfter(ss, outs, Order(ss), m, o);
  }

  /** A surface reserves its strip if and only if it is mapped and visible, and its zone is positive and has an edge. */
  lemma ReservesIff(s: Surface)
    ensures Reserves(s) <==>
      s.mapped && s.visible && s.zone > 0 && exists e :: AttachedTo(EdgeMask(s.anchor, s.exclusive), e)
  {
  }

  /** The margins of a placed surface are on its own sides, as far as the numbers fit an `int`. */
  lemma GeometrySides(s: Surface, b: Box)
    ensures var r := Geometry(s, b);
      && (s.width == 0 || (s.anchor.left && !s.anchor.right) ==> r.x == ToInt(b.x + s.margin.left))
      && (s.width > 0 && s.anchor.right && !s.anchor.left ==> r.x == ToInt(b.x + b.width - s.width - s.margin.right))
      && (s.height == 0 || (s.anchor.top && !s.anchor.bottom) ==> r.y == ToInt(b.y + s.margin.top))
      && (s.height > 0 && s.anchor.bottom && !s.anchor.top ==>
        r.y == ToInt(b.y + b.height - s.height - s.margin.bottom))
      && (s.width == 0 ==> r.width == ToInt(Max(b.width - (s.margin.left + s.margin.right), 0)))
      && (s.height == 0 ==> r.height == ToInt(Max(b.height - (s.margin.top + s.margin.bottom), 0)))
      && (s.width > 0 ==> r.width == ToInt(s.width)) && (s.height > 0 ==> r.height == ToInt(s.height))
  {
    hide ToInt;
  }
}
