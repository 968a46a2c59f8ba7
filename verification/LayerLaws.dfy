/** What the layer plan guarantees: the usable area, strips that stay free, and exact physical edges. */
module LayerLaws {
  import opened Boxes
  import opened FixedPoint
  import opened Folding
  import opened Layers

  /** What a surface takes from edge `e` of output `o`. */
  function Amount(s: Surface, o: int, e: Edge): int {
    if s.out == o && Reserves(s) && EdgeOf(s) == e then s.zone + EdgeMargin(s.margin, e) else 0
  }

  function AmountOf(o: int, e: Edge): Surface -> int {
    (s: Surface) => Amount(s, o, e)
  }

  /** What all surfaces together take. */
  function Total(ss: seq<Surface>, o: int, e: Edge): int {
    Sum(ss, AmountOf(o, e))
  }

  /** What the first `n` surfaces of an order take. */
  function Taken(ss: seq<Surface>, order: seq<nat>, n: nat, o: int, e: Edge): int
    requires n <= |order| && forall i :: 0 <= i < |order| ==> order[i] < |ss|
  {
    SumOf(ss, order, n, AmountOf(o, e))
  }

  // ----- the visiting order takes every surface once

  function All(ss: seq<Surface>, order: seq<nat>, f: Surface -> int): int
    requires forall i :: 0 <= i < |order| ==> order[i] < |ss|
  {
    SumOf(ss, order, |order|, f)
  }

  function Layer(ss: seq<Surface>, pass: nat, want: int, n: nat, f: Surface -> int): int
    requires n <= |ss|
  {
    All(ss, Visits(ss, pass, want, n), f)
  }

  lemma LayerStep(ss: seq<Surface>, pass: nat, want: int, n: nat, f: Surface -> int)
    requires 0 < n <= |ss|
    ensures Layer(ss, pass, want, n, f) ==
      Layer(ss, pass, want, n - 1, f) + if Visited(ss[n - 1], pass, want) then f(ss[n - 1]) else 0
  {
    if Visited(ss[n - 1], pass, want) {
      SumOfTwo(ss, Visits(ss, pass, want, n - 1), [n - 1], 1, f);
    }
  }

  /** Only surfaces of some layer visited in the first pass weigh anything. */
  ghost predicate FirstPassOnly(ss: seq<Surface>, f: Surface -> int) {
    forall i :: 0 <= i < |ss| && f(ss[i]) != 0 ==> exists want :: 0 <= want <= 3 && Visited(ss[i], 0, want)
  }

  lemma {:induction false} FirstPassTakesAll(ss: seq<Surface>, n: nat, f: Surface -> int)
    requires n <= |ss| && FirstPassOnly(ss, f)
    ensures Layer(ss, 0, 3, n, f) + Layer(ss, 0, 2, n, f) + Layer(ss, 0, 1, n, f) + Layer(ss, 0, 0, n, f) ==
      Sum(ss[..n], f)
  {
    hide Layer;
    if n > 0 {
      FirstPassTakesAll(ss, n - 1, f);
      LayerStep(ss, 0, 3, n, f);
      LayerStep(ss, 0, 2, n, f);
      LayerStep(ss, 0, 1, n, f);
      LayerStep(ss, 0, 0, n, f);
      assert ss[..n] == ss[..n - 1] + [ss[n - 1]];
      SumTwo(ss[..n - 1], [ss[n - 1]], f);
      SumOne(ss[n - 1], f);
    } else {
      EmptyLayers(ss, f);
    }
  }

  lemma EmptyLayers(ss: seq<Surface>, f: Surface -> int)
    ensures Layer(ss, 0, 3, 0, f) == Layer(ss, 0, 2, 0, f) == Layer(ss, 0, 1, 0, f) == Layer(ss, 0, 0, 0, f) == 0
  {
  }

  lemma DownTakes(ss: seq<Surface>, pass: nat, want: int, f: Surface -> int)
    requires want <= 3
    ensures All(ss, Down(ss, pass, want), f) == All(ss, Down(ss, pass, want + 1), f) + Layer(ss, pass, want, |ss|, f)
  {
    SumOfTwo(ss, Down(ss, pass, want + 1), Visits(ss, pass, want, |ss|), |Visits(ss, pass, want, |ss|)|, f);
  }

  lemma FirstPassTotal(ss: seq<Surface>, f: Surface -> int)
    requires FirstPassOnly(ss, f)
    ensures All(ss, Down(ss, 0, 0), f) == Sum(ss, f)
  {
    hide All, Layer, Down, Visits, Visited, Sum, FirstPassOnly;
    DownTakes(ss, 0, 3, f);
    DownTakes(ss, 0, 2, f);
    DownTakes(ss, 0, 1, f);
    DownTakes(ss, 0, 0, f);
    FirstPassTakesAll(ss, |ss|, f);
    assert ss[..|ss|] == ss;
    NothingAbove(ss, f);
  }

  lemma NothingAbove(ss: seq<Surface>, f: Surface -> int)
    ensures All(ss, Down(ss, 0, 4), f) == 0
  {
  }

  /** The second pass only has surfaces without a positive zone. */
  lemma {:induction false} SecondPassTakesNothing(ss: seq<Surface>, order: seq<nat>, n: nat, f: Surface -> int)
    requires n <= |order| && forall i :: 0 <= i < |order| ==> order[i] < |ss| && f(ss[order[i]]) == 0
    ensures SumOf(ss, order, n, f) == 0
  {
    if n > 0 {
      SecondPassTakesNothing(ss, order, n - 1, f);
    }
  }

  /** The order of the two passes takes exactly the total. */
  lemma OrderTakesTotal(ss: seq<Surface>, o: int, e: Edge)
    requires o >= 0 && forall i :: 0 <= i < |ss| && ss[i].out >= 0 ==> 0 <= ss[i].layer <= 3
    ensures Taken(ss, Order(ss), |Order(ss)|, o, e) == Total(ss, o, e)
  {
    var f := AmountOf(o, e);
    forall i | 0 <= i < |ss| && f(ss[i]) != 0
      ensures exists want :: 0 <= want <= 3 && Visited(ss[i], 0, want)
    {
      assert Visited(ss[i], 0, ss[i].layer);
    }
    FirstPassTotal(ss, f);
    SumOfTwo(ss, Down(ss, 0, 0), Down(ss, 1, 0), |Down(ss, 1, 0)|, f);
    SecondPassTakesNothing(ss, Down(ss, 1, 0), |Down(ss, 1, 0)|, f);
  }

  // ----- the usable area

  function Inset(b: Box, top: int, bottom: int, left: int, right: int): Box {
    Box(b.x + left, b.y + top, Max(b.width - left - right, 0), Max(b.height - top - bottom, 0))
  }

  /** Whatever is taken is not negative. */
  ghost predicate NonNegative(ss: seq<Surface>, o: int) {
    forall i, e :: 0 <= i < |ss| ==> Amount(ss[i], o, e) >= 0
  }

  function Ints(b: Box): bool {
    IsInt(b.x) && IsInt(b.y) && 0 <= b.width <= INT_MAX && 0 <= b.height <= INT_MAX
  }

  lemma {:induction false} TakenGrows(ss: seq<Surface>, order: seq<nat>, n: nat, m: nat, o: int, e: Edge)
    requires n <= m <= |order| && NonNegative(ss, o) && forall i :: 0 <= i < |order| ==> order[i] < |ss|
    ensures 0 <= Taken(ss, order, n, o, e) <= Taken(ss, order, m, o, e)
  {
    if n < m {
      TakenGrows(ss, order, n, m - 1, o, e);
    } else if n > 0 {
      TakenGrows(ss, order, n - 1, n - 1, o, e);
    }
  }

  function InsetAfter(ss: seq<Surface>, order: seq<nat>, n: nat, o: int, full: Box): Box
    requires n <= |order| && forall i :: 0 <= i < |order| ==> order[i] < |ss|
  {
    Inset(full, Taken(ss, order, n, o, Top), Taken(ss, order, n, o, Bottom),
          Taken(ss, order, n, o, Left), Taken(ss, order, n, o, Right))
  }

  /** One strip less: insets add up, floors and clamps included. */
  lemma ReserveInsets(full: Box, s: Surface, t: int, b: int, l: int, r: int)
    requires Ints(full) && Reserves(s) && s.zone + EdgeMargin(s.margin, EdgeOf(s)) >= 0
    requires t >= 0 && b >= 0 && l >= 0 && r >= 0
    requires IsInt(full.x + l + Amount(s, s.out, Left)) && IsInt(full.y + t + Amount(s, s.out, Top))
    ensures Reserve(Inset(full, t, b, l, r), s) ==
      Inset(full, t + Amount(s, s.out, Top), b + Amount(s, s.out, Bottom), l + Amount(s, s.out, Left),
            r + Amount(s, s.out, Right))
  {
  }

  /** The usable box after one more surface, from the box after those before it. */
  lemma UsableStep(ss: seq<Surface>, was: seq<Out>, order: seq<nat>, n: nat, o: nat, full: Box)
    requires o < |was| && Ints(full) && NonNegative(ss, o)
    requires 0 < n <= |order| && forall i :: 0 <= i < |order| ==> order[i] < |ss|
    requires was[o].usable == InsetAfter(ss, order, n - 1, o, full)
    requires IsInt(full.x + Taken(ss, order, |order|, o, Left)) && IsInt(full.y + Taken(ss, order, |order|, o, Top))
    ensures Reserved(ss, was, order[n - 1])[o].usable == InsetAfter(ss, order, n, o, full)
  {
    var s := ss[order[n - 1]];
    forall e: Edge
      ensures 0 <= Taken(ss, order, n - 1, o, e) <= Taken(ss, order, n, o, e) <= Taken(ss, order, |order|, o, e)
      ensures Taken(ss, order, n, o, e) == Taken(ss, order, n - 1, o, e) + Amount(s, o, e) && Amount(s, o, e) >= 0
    {
      TakenGrows(ss, order, n - 1, n, o, e);
      TakenGrows(ss, order, n, |order|, o, e);
    }
    hide SumOf;
    if s.out == o && Reserves(s) {
      assert Amount(s, o, EdgeOf(s)) >= 0;
      ReserveInsets(full, s, Taken(ss, order, n - 1, o, Top), Taken(ss, order, n - 1, o, Bottom),
                    Taken(ss, order, n - 1, o, Left), Taken(ss, order, n - 1, o, Right));
    }
  }

  lemma {:induction false} UsableAfter(ss: seq<Surface>, outs: seq<Out>, order: seq<nat>, n: nat, o: nat)
    requires o < |outs| && outs[o].usable == outs[o].full && Ints(outs[o].full) && NonNegative(ss, o)
    requires n <= |order| && forall i :: 0 <= i < |order| ==> order[i] < |ss|
    requires IsInt(outs[o].full.x + Taken(ss, order, |order|, o, Left))
    requires IsInt(outs[o].full.y + Taken(ss, order, |order|, o, Top))
    ensures var r := After(StepOf(ss), outs, order, n);
      |r| == |outs| && r[o].usable == InsetAfter(ss, order, n, o, outs[o].full)
  {
    if n > 0 {
      UsableAfter(ss, outs, order, n - 1, o);
      var was := After(StepOf(ss), outs, order, n - 1);
      UsableStep(ss, was, order, n, o, outs[o].full);
      hide Reserved, InsetAfter;
      assert After(StepOf(ss), outs, order, n) == Reserved(ss, was, order[n - 1]);
    }
  }

  /**
   * After `plan_layers` the usable area of an output is its full box, inset on each edge by the sum of the
   * reservations and floored at zero.  The sums do not depend on the order of the surfaces.
   */
  lemma UsableIsInset(ss: seq<Surface>, outs: seq<Out>, o: nat)
    requires o < |outs| && outs[o].usable == outs[o].full && Ints(outs[o].full) && NonNegative(ss, o)
    requires forall i :: 0 <= i < |ss| && ss[i].out >= 0 ==> Planned(ss[i], |outs|)
    requires IsInt(outs[o].full.x + Total(ss, o, Left)) && IsInt(outs[o].full.y + Total(ss, o, Top))
    ensures var r := After(StepOf(ss), outs, Order(ss), |Order(ss)|);
      |r| == |outs| && r[o].usable ==
        Inset(outs[o].full, Total(ss, o, Top), Total(ss, o, Bottom), Total(ss, o, Left), Total(ss, o, Right))
  {
    hide Order, Total, Inset;
    OrderTakesTotal(ss, o, Top);
    OrderTakesTotal(ss, o, Bottom);
    OrderTakesTotal(ss, o, Left);
    OrderTakesTotal(ss, o, Right);
    UsableAfter(ss, outs, Order(ss), |Order(ss)|, o);
  }

  /** The usable area does not depend on the order in which the surfaces are listed. */
  lemma UsableIgnoresOrder(ss: seq<Surface>, tt: seq<Surface>, outs: seq<Out>, o: nat)
    requires multiset(ss) == multiset(tt)
    requires o < |outs| && outs[o].usable == outs[o].full && Ints(outs[o].full) && NonNegative(ss, o)
    requires forall i :: 0 <= i < |ss| && ss[i].out >= 0 ==> Planned(ss[i], |outs|)
    requires IsInt(outs[o].full.x + Total(ss, o, Left)) && IsInt(outs[o].full.y + Total(ss, o, Top))
    ensures var r := After(StepOf(ss), outs, Order(ss), |Order(ss)|);
      var q := After(StepOf(tt), outs, Order(tt), |Order(tt)|);
      |r| == |q| == |outs| && r[o].usable == q[o].usable
  {
    forall i | 0 <= i < |tt|
      ensures tt[i] in ss
    {
      assert tt[i] in multiset(tt);
    }
    forall e: Edge
      ensures Total(ss, o, e) == Total(tt, o, e)
    {
      SumOfPermutation(ss, tt, AmountOf(o, e));
    }
    UsableIsInset(ss, outs, o);
    UsableIsInset(tt, outs, o);
  }

  // ----- reserved strips stay free

  ghost predicate Disjoint(a: Box, b: Box) {
    forall p :: !(In(p, a) && In(p, b))
  }

  ghost predicate Inside(a: Box, b: Box) {
    b.x <= a.x && b.y <= a.y && a.x + a.width <= b.x + b.width && a.y + a.height <= b.y + b.height
  }

  /** The reservations on opposite edges leave a non-negative length. */
  ghost predicate Fits(ss: seq<Surface>, o: int, full: Box) {
    && Total(ss, o, Left) + Total(ss, o, Right) <= full.width
    && Total(ss, o, Top) + Total(ss, o, Bottom) <= full.height
  }

  /** The extent a surface asks for on one axis. */
  function Thickness(size: int, want: nat, marginLow: int, marginHigh: int): int {
    if want == 0 then size - (marginLow + marginHigh) else want
  }

  /** The surface lies against the edge it reserves and is no thicker than its zone. */
  predicate ThinAtEdge(s: Surface, usable: Box) {
    var high := Thickness(usable.height, s.height, s.margin.top, s.margin.bottom);
    var wide := Thickness(usable.width, s.width, s.margin.left, s.margin.right);
    match EdgeOf(s)
    case NoEdge => false
    case Top => high <= s.zone && (s.height == 0 || (s.anchor.top && !s.anchor.bottom))
    case Bottom => high <= s.zone && (s.height == 0 || (s.anchor.bottom && !s.anchor.top))
    case Left => wide <= s.zone && (s.width == 0 || (s.anchor.left && !s.anchor.right))
    case Right => wide <= s.zone && (s.width == 0 || (s.anchor.right && !s.anchor.left))
  }

  /** What it takes fits in the usable box it finds. */
  ghost predicate StripFits(s: Surface, usable: Box) {
    match EdgeOf(s)
    case NoEdge => false
    case Top => s.zone + s.margin.top <= usable.height
    case Bottom => s.zone + s.margin.bottom <= usable.height
    case Left => s.zone + s.margin.left <= usable.width
    case Right => s.zone + s.margin.right <= usable.width
  }

  lemma OwnStrip(s: Surface, usable: Box)
    requires Ints(usable) && IsInt(usable.x + usable.width) && IsInt(usable.y + usable.height)
    requires Reserves(s) && s.zone <= INT_MAX && usable.x >= 0 && usable.y >= 0
    requires s.zone + EdgeMargin(s.margin, EdgeOf(s)) >= 0 && StripFits(s, usable)
    requires ThinAtEdge(s, usable)
    ensures Disjoint(Geometry(s, usable), Reserve(usable, s))
  {
  }

  lemma LaterInside(ss: seq<Surface>, order: seq<nat>, m: nat, n: nat, o: int, full: Box)
    requires NonNegative(ss, o) && m <= n <= |order| && forall i :: 0 <= i < |order| ==> order[i] < |ss|
    requires Taken(ss, order, |order|, o, Left) + Taken(ss, order, |order|, o, Right) <= full.width
    requires Taken(ss, order, |order|, o, Top) + Taken(ss, order, |order|, o, Bottom) <= full.height
    ensures Inside(InsetAfter(ss, order, n, o, full), InsetAfter(ss, order, m, o, full))
    ensures Inside(InsetAfter(ss, order, n, o, full), full)
    ensures InsetAfter(ss, order, n, o, full).width >= 0 && InsetAfter(ss, order, n, o, full).height >= 0
  {
    hide AmountOf;
    TakenGrows(ss, order, m, n, o, Left);
    TakenGrows(ss, order, m, n, o, Right);
    TakenGrows(ss, order, m, n, o, Top);
    TakenGrows(ss, order, m, n, o, Bottom);
    TakenGrows(ss, order, n, |order|, o, Left);
    TakenGrows(ss, order, n, |order|, o, Right);
    TakenGrows(ss, order, n, |order|, o, Top);
    TakenGrows(ss, order, n, |order|, o, Bottom);
  }

  /** The plan when the `m`-th surface of the order is handled. */
  function PlanAt(ss: seq<Surface>, outs: seq<Out>, m: nat): seq<Out>
    requires m <= |Order(ss)|
  {
    After(StepOf(ss), outs, Order(ss), m)
  }

  /** The hypotheses on output `o`: as `plan_output_reset` leaves it, and with reservations that fit. */
  ghost predicate Ready(ss: seq<Surface>, outs: seq<Out>, o: nat) {
    && o < |outs| && outs[o].usable == outs[o].full && Ints(outs[o].full) && outs[o].full.x == 0 && outs[o].full.y == 0
    && NonNegative(ss, o) && Fits(ss, o, outs[o].full)
    && (forall i :: 0 <= i < |ss| ==> ss[i].zone <= INT_MAX && (ss[i].out >= 0 ==> Planned(ss[i], |outs|)))
  }

  lemma UsableAt(ss: seq<Surface>, outs: seq<Out>, o: nat, m: nat, n: nat)
    requires Ready(ss, outs, o) && m <= n <= |Order(ss)|
    ensures |PlanAt(ss, outs, m)| == |PlanAt(ss, outs, n)| == |outs|
    ensures Inside(PlanAt(ss, outs, n)[o].usable, PlanAt(ss, outs, m)[o].usable)
    ensures Inside(PlanAt(ss, outs, m)[o].usable, outs[o].full)
    ensures PlanAt(ss, outs, m)[o].usable.width >= 0 && PlanAt(ss, outs, m)[o].usable.height >= 0
  {
    var order := Order(ss);
    OrderTakesTotal(ss, o, Left);
    OrderTakesTotal(ss, o, Right);
    OrderTakesTotal(ss, o, Top);
    OrderTakesTotal(ss, o, Bottom);
    TakenGrows(ss, order, 0, |order|, o, Left);
    TakenGrows(ss, order, 0, |order|, o, Top);
    TakenGrows(ss, order, 0, |order|, o, Right);
    TakenGrows(ss, order, 0, |order|, o, Bottom);
    UsableAfter(ss, outs, order, m, o);
    UsableAfter(ss, outs, order, n, o);
    LaterInside(ss, order, m, n, o, outs[o].full);
    LaterInside(ss, order, m, m, o, outs[o].full);
  }

  lemma StripFitsAt(ss: seq<Surface>, outs: seq<Out>, m: nat)
    requires m < |Order(ss)| && Reserves(ss[Order(ss)[m]])
    requires Ready(ss, outs, ss[Order(ss)[m]].out)
    ensures |PlanAt(ss, outs, m)| == |outs|
    ensures StripFits(ss[Order(ss)[m]], PlanAt(ss, outs, m)[ss[Order(ss)[m]].out].usable)
  {
    var order := Order(ss);
    var s := ss[order[m]];
    var o := s.out;
    OrderTakesTotal(ss, o, Left);
    OrderTakesTotal(ss, o, Right);
    OrderTakesTotal(ss, o, Top);
    OrderTakesTotal(ss, o, Bottom);
    forall e: Edge
      ensures Taken(ss, order, m, o, e) + Amount(s, o, e) <= Total(ss, o, e) && 0 <= Taken(ss, order, m, o, e)
    {
      OrderTakesTotal(ss, o, e);
      TakenGrows(ss, order, m + 1, |order|, o, e);
      TakenGrows(ss, order, m, m, o, e);
    }
    assert Total(ss, o, Left) >= 0 && Total(ss, o, Top) >= 0;
    UsableAfter(ss, outs, order, m, o);
  }

  /** Where the `m`-th surface of the order is placed (`PlaceIn`, in the plan it finds). */
  function PlacedAt(ss: seq<Surface>, outs: seq<Out>, m: nat): Box
    requires m < |Order(ss)|
  {
    Placed(ss, PlanAt(ss, outs, m), Order(ss)[m]).logical
  }

  /** The `m`-th surface of the order reserves an edge, lies against it, and is no thicker than its zone. */
  ghost predicate KeepsStrip(ss: seq<Surface>, outs: seq<Out>, m: nat)
    requires m < |Order(ss)|
  {
    var s := ss[Order(ss)[m]];
    && Reserves(s) && Ready(ss, outs, s.out) && |PlanAt(ss, outs, m)| == |outs|
    && ThinAtEdge(s, PlanAt(ss, outs, m)[s.out].usable)
  }

  /** It leaves a usable area that it does not cover. */
  lemma StripLeftOut(ss: seq<Surface>, outs: seq<Out>, m: nat)
    requires m < |Order(ss)| && KeepsStrip(ss, outs, m)
    ensures |PlanAt(ss, outs, m + 1)| == |outs|
    ensures Disjoint(PlacedAt(ss, outs, m), PlanAt(ss, outs, m + 1)[ss[Order(ss)[m]].out].usable)
  {
    PlacedInUsable(ss, outs, m);
    hide Order, Geometry, Reserve, Total, Fits, Placed, PlacedAt, PlanAt, ThinAtEdge, Disjoint, StripFits;
    var s := ss[Order(ss)[m]];
    UsableAt(ss, outs, s.out, m, m);
    StripFitsAt(ss, outs, m);
    assert s.zone + EdgeMargin(s.margin, EdgeOf(s)) == Amount(s, s.out, EdgeOf(s)) >= 0;
    OwnStrip(s, PlanAt(ss, outs, m)[s.out].usable);
    NextPlan(ss, outs, m);
  }

  /**
   * A surface against the edge it reserves, no thicker than its zone, is disjoint from every surface placed after it on
   * that output inside the usable area.
   */
  lemma StripsStayFree(ss: seq<Surface>, outs: seq<Out>, m: nat, n: nat)
    requires m < n < |Order(ss)| && KeepsStrip(ss, outs, m)
    requires ss[Order(ss)[n]].out == ss[Order(ss)[m]].out && |PlanAt(ss, outs, n)| == |outs|
    requires Inside(PlacedAt(ss, outs, n), PlanAt(ss, outs, n)[ss[Order(ss)[n]].out].usable)
    ensures Disjoint(PlacedAt(ss, outs, m), PlacedAt(ss, outs, n))
  {
    hide Order, PlanAt, PlacedAt, ThinAtEdge, Total, NonNegative, Fits;
    StripLeftOut(ss, outs, m);
    UsableAt(ss, outs, ss[Order(ss)[m]].out, m + 1, n);
  }

  /** A reserving surface is placed in the usable area it finds. */
  lemma PlacedInUsable(ss: seq<Surface>, outs: seq<Out>, m: nat)
    requires m < |Order(ss)| && Reserves(ss[Order(ss)[m]]) && Ready(ss, outs, ss[Order(ss)[m]].out)
    requires |PlanAt(ss, outs, m)| == |outs|
    ensures PlacedAt(ss, outs, m) == Geometry(ss[Order(ss)[m]], PlanAt(ss, outs, m)[ss[Order(ss)[m]].out].usable)
  {
    hide Geometry, Order, After;
  }

  lemma NextPlan(ss: seq<Surface>, outs: seq<Out>, m: nat)
    requires m < |Order(ss)| && Reserves(ss[Order(ss)[m]]) && Ready(ss, outs, ss[Order(ss)[m]].out)
    requires |PlanAt(ss, outs, m)| == |outs|
    ensures |PlanAt(ss, outs, m + 1)| == |outs|
    ensures var s := ss[Order(ss)[m]];
      PlanAt(ss, outs, m + 1)[s.out].usable == Reserve(PlanAt(ss, outs, m)[s.out].usable, s)
  {
    hide Order, Reserve;
    assert PlanAt(ss, outs, m + 1) == Reserved(ss, PlanAt(ss, outs, m), Order(ss)[m]);
  }
}
