/** Where outputs go: positioned ones, then automatic ones to the right, then mirrors (native/output.c). */
module OutputLayout {
  import opened Boxes
  import opened FixedPoint
  import opened Options

  /** What the layout reads of one output, in its pending or its current view. */
  datatype Wanted = Wanted(name: string, enabled: bool, admitted: bool, width: int, height: int, x: int, y: int,
                           positioned: bool, mirror: string)

  datatype Location = Location(x: int, y: int, width: int, height: int, active: bool, mirrored: bool)

  predicate Active(w: Wanted, pending: bool) {
    w.enabled && (pending || w.admitted)
  }

  predicate Positioned(w: Wanted, pending: bool) {
    Active(w, pending) && w.mirror == "" && w.positioned
  }

  predicate Automatic(w: Wanted, pending: bool) {
    Active(w, pending) && w.mirror == "" && !w.positioned
  }

  predicate Candidate(w: Wanted, pending: bool, name: string) {
    Active(w, pending) && w.mirror == "" && w.name == name
  }

  /** The first active output that is no mirror and has the name, from `j` on. */
  function TargetFrom(outs: seq<Wanted>, pending: bool, name: string, j: nat): (r: Option<nat>)
    requires j <= |outs|
    ensures r.Some? ==> j <= r.value < |outs| && Candidate(outs[r.value], pending, name)
                        && forall k :: j <= k < r.value ==> !Candidate(outs[k], pending, name)
    ensures r.None? ==> forall k :: j <= k < |outs| ==> !Candidate(outs[k], pending, name)
    decreases |outs| - j
  {
    if j == |outs| then None
    else if Candidate(outs[j], pending, name) then Some(j)
    else TargetFrom(outs, pending, name, j + 1)
  }

  function Target(outs: seq<Wanted>, pending: bool, i: nat): Option<nat>
    requires i < |outs|
  {
    TargetFrom(outs, pending, outs[i].mirror, 0)
  }

  predicate Mirror(outs: seq<Wanted>, pending: bool, i: nat)
    requires i < |outs|
  {
    Active(outs[i], pending) && outs[i].mirror != ""
  }

  /** A mirror without a target is placed like an automatic output, after all of them. */
  predicate Stray(outs: seq<Wanted>, pending: bool, i: nat)
    requires i < |outs|
  {
    Mirror(outs, pending, i) && Target(outs, pending, i).None?
  }

  // ----- the running right edge

  function PositionedRight(outs: seq<Wanted>, pending: bool, n: nat): int
    requires n <= |outs|
  {
    if n == 0 then 0
    else
      var right := PositionedRight(outs, pending, n - 1);
      if Positioned(outs[n - 1], pending) then Max(right, outs[n - 1].x + outs[n - 1].width) else right
  }

  function AutomaticRight(outs: seq<Wanted>, pending: bool, n: nat): int
    requires n <= |outs|
  {
    if n == 0 then PositionedRight(outs, pending, |outs|)
    else AutomaticRight(outs, pending, n - 1) + if Automatic(outs[n - 1], pending) then outs[n - 1].width else 0
  }

  function StrayRight(outs: seq<Wanted>, pending: bool, n: nat): int
    requires n <= |outs|
  {
    if n == 0 then AutomaticRight(outs, pending, |outs|)
    else StrayRight(outs, pending, n - 1) + if Stray(outs, pending, n - 1) then outs[n - 1].width else 0
  }

  predicate Sized(outs: seq<Wanted>) {
    forall i :: 0 <= i < |outs| && outs[i].enabled ==> outs[i].width > 0 && outs[i].height > 0
  }

  /** Every right edge that is computed is an `int`. */
  predicate Fits(outs: seq<Wanted>, pending: bool) {
    && Sized(outs)
    && (forall i :: 0 <= i < |outs| && Positioned(outs[i], pending) ==> outs[i].x + outs[i].width <= INT_MAX)
    && StrayRight(outs, pending, |outs|) <= INT_MAX
  }

  /** Where output `i` belongs. */
  function Place(outs: seq<Wanted>, pending: bool, i: nat): Location
    requires i < |outs|
  {
    var w := outs[i];
    var keep := Location(w.x, w.y, w.width, w.height, Active(w, pending), false);
    if Automatic(w, pending) then keep.(x := AutomaticRight(outs, pending, i), y := 0)
    else if Mirror(outs, pending, i) then
      match Target(outs, pending, i)
      case None => keep.(x := StrayRight(outs, pending, i), y := 0)
      case Some(t) =>
        keep.(x := if Automatic(outs[t], pending) then AutomaticRight(outs, pending, t) else outs[t].x,
              y := if Automatic(outs[t], pending) then 0 else outs[t].y, mirrored := true)
    else keep
  }

  // ----- `output_locations`

  /** `output_right_edge`. */
  method RightEdge(left: int, width: int) returns (edge: Option<int>)
    ensures edge == if width <= 0 || left + width > INT_MAX then None else Some(left + width)
  {
    if width <= 0 || left + width > INT_MAX {
      return None;
    }
    return Some(left + width);
  }

  method Resolve(outs: seq<Wanted>, pending: bool) returns (resolved: array<Location>, ok: bool)
    ensures fresh(resolved) && resolved.Length == |outs|
    ensures ok <==> Sized(outs)
    ensures ok ==> forall i :: 0 <= i < |outs| ==>
      resolved[i] == Location(outs[i].x, outs[i].y, outs[i].width, outs[i].height, Active(outs[i], pending), false)
  {
    resolved := new Location[|outs|](_ => Location(0, 0, 0, 0, false, false));
    for i := 0 to |outs|
      invariant forall k :: 0 <= k < i && outs[k].enabled ==> outs[k].width > 0 && outs[k].height > 0
      invariant forall k :: 0 <= k < i ==>
        resolved[k] == Location(outs[k].x, outs[k].y, outs[k].width, outs[k].height, Active(outs[k], pending), false)
    {
      if outs[i].enabled && (outs[i].width <= 0 || outs[i].height <= 0) {
        return resolved, false;
      }
      resolved[i] := Location(outs[i].x, outs[i].y, outs[i].width, outs[i].height, Active(outs[i], pending), false);
    }
    ok := true;
  }

  /** What the loops have placed: automatic outputs before `a`, mirrors before `m`. */
  ghost predicate PlacedSoFar(outs: seq<Wanted>, pending: bool, resolved: seq<Location>, a: nat, m: nat) {
    && |resolved| == |outs|
    && forall i :: 0 <= i < |outs| ==>
      resolved[i] ==
        if (Automatic(outs[i], pending) && i < a) || (Mirror(outs, pending, i) && i < m) then Place(outs, pending, i)
                     else Location(outs[i].x, outs[i].y, outs[i].width, outs[i].height, Active(outs[i], pending), false)
  }

  /** The layout exists exactly when everything fits, and then puts every output in its place. */
  method Locations(outs: seq<Wanted>, pending: bool) returns (r: Option<array<Location>>)
    ensures r.Some? <==> Fits(outs, pending)
    ensures r.Some? ==> fresh(r.value) && r.value.Length == |outs|
    ensures r.Some? ==> forall i :: 0 <= i < |outs| ==> r.value[i] == Place(outs, pending, i)
  {
    var resolved, ok := Resolve(outs, pending);
    if !ok {
      return None;
    }
    var right := 0;
    for i := 0 to |outs|
      invariant PlacedSoFar(outs, pending, resolved[..], 0, 0)
      invariant right == PositionedRight(outs, pending, i) && right <= INT_MAX
      invariant forall k :: 0 <= k < i && Positioned(outs[k], pending) ==> outs[k].x + outs[k].width <= INT_MAX
    {
      if !resolved[i].active || outs[i].mirror != "" || !outs[i].positioned {
        continue;
      }
      var edge := RightEdge(resolved[i].x, resolved[i].width);
      if edge.None? {
        return None;
      }
      if edge.value > right {
        right := edge.value;
      }
    }
    StrayGrows(outs, pending, 0, |outs|);
    ok, right := PlaceAutomatic(outs, pending, resolved, right);
    if !ok {
      return None;
    }
    ok := PlaceMirrors(outs, pending, resolved, right);
    if !ok {
      return None;
    }
    r := Some(resolved);
  }

  method PlaceAutomatic(outs: seq<Wanted>, pending: bool, resolved: array<Location>, left: int)
    returns (ok: bool, right: int)
    requires Sized(outs) && PlacedSoFar(outs, pending, resolved[..], 0, 0)
    requires left == PositionedRight(outs, pending, |outs|) <= INT_MAX
    modifies resolved
    ensures ok <==> AutomaticRight(outs, pending, |outs|) <= INT_MAX
    ensures ok ==> PlacedSoFar(outs, pending, resolved[..], |outs|, 0) && right == AutomaticRight(outs, pending, |outs|)
  {
    right := left;
    for i := 0 to |outs|
      invariant PlacedSoFar(outs, pending, resolved[..], i, 0) && right == AutomaticRight(outs, pending, i) <= INT_MAX
    {
      if !resolved[i].active || outs[i].mirror != "" || outs[i].positioned {
        continue;
      }
      AutomaticGrows(outs, pending, i + 1, |outs|);
      resolved[i] := resolved[i].(x := right, y := 0);
      var edge := RightEdge(right, resolved[i].width);
      if edge.None? {
        return false, right;
      }
      right := edge.value;
    }
    ok := true;
  }

  lemma NoMirror(outs: seq<Wanted>, pending: bool, resolved: seq<Location>, i: nat)
    requires PlacedSoFar(outs, pending, resolved, |outs|, i) && i < |outs| && !Mirror(outs, pending, i)
    ensures PlacedSoFar(outs, pending, resolved, |outs|, i + 1)
  {
    hide Place;
  }

  lemma MirrorPlaced(outs: seq<Wanted>, pending: bool, resolved: seq<Location>, i: nat)
    requires PlacedSoFar(outs, pending, resolved, |outs|, i) && i < |outs| && Mirror(outs, pending, i)
    ensures PlacedSoFar(outs, pending, resolved[i := Place(outs, pending, i)], |outs|, i + 1)
  {
    hide Place;
  }

  /** What the mirror loop writes is the place of the mirror. */
  lemma MirrorPlace(outs: seq<Wanted>, pending: bool, resolved: seq<Location>, i: nat)
    requires PlacedSoFar(outs, pending, resolved, |outs|, i) && i < |outs| && Mirror(outs, pending, i)
    ensures match Target(outs, pending, i)
            case None => Place(outs, pending, i) == resolved[i].(x := StrayRight(outs, pending, i), y := 0)
            case Some(t) =>
              Place(outs, pending, i) == resolved[i].(x := resolved[t].x, y := resolved[t].y, mirrored := true)
  {
    hide AutomaticRight, StrayRight;
  }

  method PlaceMirrors(outs: seq<Wanted>, pending: bool, resolved: array<Location>, left: int) returns (ok: bool)
    requires Sized(outs) && PlacedSoFar(outs, pending, resolved[..], |outs|, 0)
    requires left == AutomaticRight(outs, pending, |outs|) <= INT_MAX
    modifies resolved
    ensures ok <==> StrayRight(outs, pending, |outs|) <= INT_MAX
    ensures ok ==> PlacedSoFar(outs, pending, resolved[..], |outs|, |outs|)
  {
    hide PlacedSoFar, Place, Target;
    PlacedFacts(outs, pending, resolved[..], 0);
    var right := left;
    for i := 0 to |outs|
      invariant resolved.Length == |outs| && PlacedSoFar(outs, pending, resolved[..], |outs|, i)
      invariant right == StrayRight(outs, pending, i) <= INT_MAX
    {
      PlacedFacts(outs, pending, resolved[..], i);
      assert forall k :: 0 <= k < |outs| ==> resolved[..][k] == resolved[k];
      if !resolved[i].active || outs[i].mirror == "" {
        NoMirror(outs, pending, resolved[..], i);
        continue;
      }
      MirrorPlace(outs, pending, resolved[..], i);
      MirrorPlaced(outs, pending, resolved[..], i);
      ghost var next := resolved[..][i := Place(outs, pending, i)];
      var target := FindTarget(outs, pending, resolved, i);
      if target.Some? {
        resolved[i] := resolved[i].(x := resolved[target.value].x, y := resolved[target.value].y, mirrored := true);
        assert resolved[..] == next;
        continue;
      }
      StrayGrows(outs, pending, i + 1, |outs|);
      resolved[i] := resolved[i].(x := right, y := 0);
      assert resolved[..] == next;
      var edge := RightEdge(right, resolved[i].width);
      if edge.None? {
        return false;
      }
      right := edge.value;
    }
    ok := true;
  }

  lemma PlacedFacts(outs: seq<Wanted>, pending: bool, resolved: seq<Location>, m: nat)
    requires PlacedSoFar(outs, pending, resolved, |outs|, m)
    ensures |resolved| == |outs|
    ensures forall k :: 0 <= k < |outs| ==>
      resolved[k].active == Active(outs[k], pending) && resolved[k].width == outs[k].width
    ensures forall k :: 0 <= k < |outs| && Target(outs, pending, k).Some? ==> Target(outs, pending, k).value < |outs|
  {
  }

  /** The innermost loop: the output a mirror shows. */
  method FindTarget(outs: seq<Wanted>, pending: bool, resolved: array<Location>, i: nat) returns (t: Option<nat>)
    requires i < |outs| == resolved.Length && outs[i].mirror != ""
    requires forall k :: 0 <= k < |outs| ==> resolved[k].active == Active(outs[k], pending)
    ensures t == Target(outs, pending, i)
  {
    for j := 0 to |outs|
      invariant TargetFrom(outs, pending, outs[i].mirror, 0) == TargetFrom(outs, pending, outs[i].mirror, j)
    {
      if !resolved[j].active || outs[j].mirror != "" || j == i || outs[j].name != outs[i].mirror {
        continue;
      }
      return Some(j);
    }
    t := None;
  }

  // ----- what the layout promises

  lemma {:induction false} AutomaticGrows(outs: seq<Wanted>, pending: bool, n: nat, m: nat)
    requires Sized(outs) && n <= m <= |outs|
    ensures AutomaticRight(outs, pending, n) <= AutomaticRight(outs, pending, m)
  {
    if n < m {
      AutomaticGrows(outs, pending, n, m - 1);
    }
  }

  lemma {:induction false} StrayGrows(outs: seq<Wanted>, pending: bool, n: nat, m: nat)
    requires Sized(outs) && n <= m <= |outs|
    ensures StrayRight(outs, pending, n) <= StrayRight(outs, pending, m)
  {
    if n < m {
      StrayGrows(outs, pending, n, m - 1);
    }
  }

  lemma {:induction false} PositionedBounds(outs: seq<Wanted>, pending: bool, n: nat, k: nat)
    requires k < n <= |outs| && Positioned(outs[k], pending)
    ensures outs[k].x + outs[k].width <= PositionedRight(outs, pending, n)
  {
    if k < n - 1 {
      PositionedBounds(outs, pending, n - 1, k);
    }
  }

  predicate Appended(outs: seq<Wanted>, pending: bool, i: nat)
    requires i < |outs|
  {
    Automatic(outs[i], pending) || Stray(outs, pending, i)
  }

  /** `j` is placed before `i`: positioned, or appended earlier. */
  predicate Before(outs: seq<Wanted>, pending: bool, j: nat, i: nat)
    requires i < |outs| && j < |outs|
  {
    || Positioned(outs[j], pending)
    || (Automatic(outs[j], pending) && (j < i || Stray(outs, pending, i)))
    || (Stray(outs, pending, j) && Stray(outs, pending, i) && j < i)
  }

  /** An output placed automatically lies at or right of everything placed before it. */
  lemma AppendedRight(outs: seq<Wanted>, pending: bool, i: nat, j: nat)
    requires Fits(outs, pending) && i < |outs| && j < |outs|
    requires Appended(outs, pending, i) && Before(outs, pending, j, i)
    ensures Place(outs, pending, j).x + outs[j].width <= Place(outs, pending, i).x && Place(outs, pending, i).y == 0
  {
    if Positioned(outs[j], pending) {
      PositionedBounds(outs, pending, |outs|, j);
    }
    if Automatic(outs[j], pending) {
      AutomaticGrows(outs, pending, j + 1, if Automatic(outs[i], pending) && j < i then i else |outs|);
    } else if Stray(outs, pending, j) {
      StrayGrows(outs, pending, j + 1, i);
    }
    AutomaticGrows(outs, pending, 0, if Automatic(outs[i], pending) then i else |outs|);
    if Stray(outs, pending, i) {
      StrayGrows(outs, pending, 0, i);
    }
  }

  /** The running edge of the positioned outputs is 0 or the right edge of one of them. */
  lemma {:induction false} PositionedReached(outs: seq<Wanted>, pending: bool, n: nat)
    requires n <= |outs|
    ensures PositionedRight(outs, pending, n) == 0 || exists j: nat ::
      j < n && Positioned(outs[j], pending) && EndsAt(outs, pending, j, PositionedRight(outs, pending, n))
  {
    if n > 0 {
      PositionedReached(outs, pending, n - 1);
      if Positioned(outs[n - 1], pending) {
        assert Place(outs, pending, n - 1).x == outs[n - 1].x;
      }
    }
  }

  /** Output `j` ends at `edge`. */
  predicate EndsAt(outs: seq<Wanted>, pending: bool, j: nat, edge: int)
    requires j < |outs|
  {
    Place(outs, pending, j).x + outs[j].width == edge
  }

  lemma {:induction false} AutomaticReached(outs: seq<Wanted>, pending: bool, n: nat)
    requires n <= |outs|
    ensures AutomaticRight(outs, pending, n) == 0 || exists j: nat ::
      j < |outs| && (Positioned(outs[j], pending) || (Automatic(outs[j], pending) && j < n))
      && EndsAt(outs, pending, j, AutomaticRight(outs, pending, n))
  {
    if n == 0 {
      PositionedReached(outs, pending, |outs|);
    } else if Automatic(outs[n - 1], pending) {
      assert EndsAt(outs, pending, n - 1, AutomaticRight(outs, pending, n));
    } else {
      AutomaticReached(outs, pending, n - 1);
    }
  }

  lemma {:induction false} StrayReached(outs: seq<Wanted>, pending: bool, n: nat)
    requires n <= |outs|
    ensures StrayRight(outs, pending, n) == 0 || exists j: nat ::
      j < |outs| && (Positioned(outs[j], pending) || Automatic(outs[j], pending) || (Stray(outs, pending, j) && j < n))
      && EndsAt(outs, pending, j, StrayRight(outs, pending, n))
  {
    if n == 0 {
      AutomaticReached(outs, pending, |outs|);
    } else if Stray(outs, pending, n - 1) {
      assert EndsAt(outs, pending, n - 1, StrayRight(outs, pending, n));
    } else {
      StrayReached(outs, pending, n - 1);
    }
  }

  /** A row has no gap: an appended output begins at 0, or where an output placed before it ends. */
  lemma AppendedTouches(outs: seq<Wanted>, pending: bool, i: nat)
    requires i < |outs| && Appended(outs, pending, i)
    ensures var at := Place(outs, pending, i).x;
      at == 0 || exists j: nat :: j < |outs| && Before(outs, pending, j, i) && EndsAt(outs, pending, j, at)
  {
    if Automatic(outs[i], pending) {
      AutomaticReached(outs, pending, i);
    } else {
      StrayReached(outs, pending, i);
    }
  }

  /** No appended output begins left of 0. */
  lemma AppendedNonNegative(outs: seq<Wanted>, pending: bool, i: nat)
    requires Fits(outs, pending) && i < |outs| && Appended(outs, pending, i)
    ensures Place(outs, pending, i).x >= 0
  {
    PositionedNonNegative(outs, pending, |outs|);
    AutomaticGrows(outs, pending, 0, if Automatic(outs[i], pending) then i else |outs|);
    if Stray(outs, pending, i) {
      StrayGrows(outs, pending, 0, i);
    }
  }

  lemma {:induction false} PositionedNonNegative(outs: seq<Wanted>, pending: bool, n: nat)
    requires n <= |outs|
    ensures PositionedRight(outs, pending, n) >= 0
  {
    if n > 0 {
      PositionedNonNegative(outs, pending, n - 1);
    }
  }

  /**
   * Every output keeps its size, and only an enabled one is active, in the current view only when it is admitted.  One
   * with a position, and an inactive one, is left where it is.
   */
  lemma KeptPlaces(outs: seq<Wanted>, pending: bool, i: nat)
    requires i < |outs|
    ensures var w, l := outs[i], Place(outs, pending, i);
      && l.width == w.width && l.height == w.height && (l.active <==> w.enabled && (pending || w.admitted))
      && (!l.active || (w.mirror == "" && w.positioned) ==> l.x == w.x && l.y == w.y && !l.mirrored)
      && (l.active && w.mirror == "" && !w.positioned ==> Appended(outs, pending, i) && !l.mirrored)
  {
  }

  /** Every right edge that is computed, that is, but those of mirrors with a target, is an `int`. */
  lemma EdgesFit(outs: seq<Wanted>, pending: bool, i: nat)
    requires Fits(outs, pending) && i < |outs| && (Positioned(outs[i], pending) || Appended(outs, pending, i))
    ensures Place(outs, pending, i).x + outs[i].width <= INT_MAX
  {
    StrayGrows(outs, pending, 0, |outs|);
    if Automatic(outs[i], pending) {
      AutomaticGrows(outs, pending, i + 1, |outs|);
    } else if Stray(outs, pending, i) {
      StrayGrows(outs, pending, i + 1, |outs|);
    }
  }

  /** A mirror with a target is exactly where its target is. */
  lemma MirrorShares(outs: seq<Wanted>, pending: bool, i: nat)
    requires i < |outs| && Mirror(outs, pending, i) && Target(outs, pending, i).Some?
    ensures var t := Target(outs, pending, i).value;
      && outs[t].name == outs[i].mirror && Active(outs[t], pending) && outs[t].mirror == ""
      && Place(outs, pending, i).mirrored && Place(outs, pending, i).x == Place(outs, pending, t).x
      && Place(outs, pending, i).y == Place(outs, pending, t).y
  {
  }

  // ----- placing twice

  /** `place_outputs`: active outputs take the places they were given. */
  function Moved(outs: seq<Wanted>, i: nat): Wanted
    requires i < |outs|
  {
    if Active(outs[i], false) then outs[i].(x := Place(outs, false, i).x, y := Place(outs, false, i).y) else outs[i]
  }

  function PlaceOutputs(outs: seq<Wanted>): (r: seq<Wanted>)
    ensures |r| == |outs| && forall i :: 0 <= i < |outs| ==> r[i] == Moved(outs, i)
  {
    seq(|outs|, i requires 0 <= i < |outs| => Moved(outs, i))
  }

  /** Only what the layout itself decides may differ. */
  ghost predicate SameWishes(a: seq<Wanted>, b: seq<Wanted>, pending: bool) {
    |a| == |b| && forall i :: 0 <= i < |a| ==>
      b[i] == a[i].(x := b[i].x, y := b[i].y) && (Positioned(a[i], pending) || !Active(a[i], pending) ==> b[i] == a[i])
  }

  lemma {:induction false} SameTarget(a: seq<Wanted>, b: seq<Wanted>, pending: bool, name: string, j: nat)
    requires SameWishes(a, b, pending) && j <= |a|
    ensures TargetFrom(a, pending, name, j) == TargetFrom(b, pending, name, j)
    decreases |a| - j
  {
    if j < |a| {
      SameTarget(a, b, pending, name, j + 1);
    }
  }

  lemma {:induction false} SamePositioned(a: seq<Wanted>, b: seq<Wanted>, pending: bool, n: nat)
    requires SameWishes(a, b, pending) && n <= |a|
    ensures PositionedRight(a, pending, n) == PositionedRight(b, pending, n)
  {
    if n > 0 {
      SamePositioned(a, b, pending, n - 1);
    }
  }

  lemma {:induction false} SameAutomatic(a: seq<Wanted>, b: seq<Wanted>, pending: bool, n: nat)
    requires SameWishes(a, b, pending) && n <= |a|
    ensures AutomaticRight(a, pending, n) == AutomaticRight(b, pending, n)
  {
    if n > 0 {
      SameAutomatic(a, b, pending, n - 1);
    } else {
      SamePositioned(a, b, pending, |a|);
    }
  }

  lemma {:induction false} SameStray(a: seq<Wanted>, b: seq<Wanted>, pending: bool, n: nat)
    requires SameWishes(a, b, pending) && n <= |a|
    ensures StrayRight(a, pending, n) == StrayRight(b, pending, n)
  {
    if n > 0 {
      SameStray(a, b, pending, n - 1);
      SameTarget(a, b, pending, a[n - 1].mirror, 0);
    } else {
      SameAutomatic(a, b, pending, |a|);
    }
  }

  /** The layout depends on nothing it decides. */
  lemma SamePlaces(a: seq<Wanted>, b: seq<Wanted>, pending: bool)
    requires SameWishes(a, b, pending)
    ensures Fits(a, pending) <==> Fits(b, pending)
    ensures forall i :: 0 <= i < |a| && Active(a[i], pending) ==> Place(a, pending, i) == Place(b, pending, i)
  {
    SameStray(a, b, pending, |a|);
    forall i | 0 <= i < |a| && Active(a[i], pending)
      ensures Place(a, pending, i) == Place(b, pending, i)
    {
      SameAutomatic(a, b, pending, i);
      SameStray(a, b, pending, i);
      SameTarget(a, b, pending, a[i].mirror, 0);
      if Target(a, pending, i).Some? {
        SameAutomatic(a, b, pending, Target(a, pending, i).value);
      }
    }
  }

  /** Laying out again after `place_outputs` gives the same layout, so placing is idempotent. */
  lemma PlacingIsStable(outs: seq<Wanted>)
    requires Fits(outs, false)
    ensures Fits(PlaceOutputs(outs), false)
    ensures forall i :: 0 <= i < |outs| && Active(outs[i], false) ==>
      Place(PlaceOutputs(outs), false, i) == Place(outs, false, i)
    ensures PlaceOutputs(PlaceOutputs(outs)) == PlaceOutputs(outs)
  {
    var again := PlaceOutputs(outs);
    SamePlaces(outs, again, false);
    assert forall i :: 0 <= i < |outs| ==> PlaceOutputs(again)[i] == again[i];
  }
}
