/** Binding lists: adding, clearing, pointer grips and the replacement of a whole list (native/input.c). */
module Publishing {
  import opened Options
  import opened Ids
  import opened Pointers
  import opened Bindings
  import opened Keys
  import opened Tending

  // ----- adding a binding

  /** What the caller of `tomoe_bind` or `tomoe_present_bind` supplies. */
  datatype Wish = Wish(owner: string, press: string, release: Option<string>, modifiers: nat, keysym: nat, source: nat)

  function Made(wish: Wish, id: nat, active: bool): Binding {
    Binding(wish.owner, wish.press, wish.release, wish.modifiers, wish.keysym, wish.source, id, 1, active, false, NULL)
  }

  /** A fresh binding at the head of a list. */
  function Added(w: World, p: Ptr, wish: Wish, staged: bool): World {
    w.(heap := w.heap[p := Made(wish, w.nextId, !staged)], nextId := NextId(w.nextId),
       bindings := if staged then w.bindings else [p] + w.bindings, plan := if staged then [p] + w.plan else w.plan)
  }

  lemma AddedCounted(w: World, p: Ptr, wish: Wish, staged: bool)
    requires Counted(w.heap, PlacesOf(w)) && p != NULL && p !in w.heap
    ensures Counted(Added(w, p, wish, staged).heap, PlacesOf(Added(w, p, wish, staged)))
    ensures p !in w.bindings && p !in w.plan && p !in w.grips && Latched(w.keyboards, p) == 0
  {
    var v := Added(w, p, wish, staged);
    assert Uses(PlacesOf(w), p) == 0;
    forall q
      ensures Uses(PlacesOf(v), q) == Uses(PlacesOf(w), q) + One(p, q)
    {
    }
  }

  lemma AddedNumbered(w: World, p: Ptr, wish: Wish, staged: bool)
    requires Numbered(w.heap, w.bindings + w.plan, w.nextId) && p !in w.heap && w.nextId != 0
    ensures var v := Added(w, p, wish, staged); Numbered(v.heap, v.bindings + v.plan, v.nextId)
  {
    hide Numbered;
    var v := Added(w, p, wish, staged);
    if staged {
      NumberedWith(w.heap, v.heap, w.bindings, p, w.plan, w.nextId);
    } else {
      assert [] + (w.bindings + w.plan) == w.bindings + w.plan;
      NumberedWith(w.heap, v.heap, [], p, w.bindings + w.plan, w.nextId);
      assert v.bindings + v.plan == [] + ([p] + (w.bindings + w.plan));
    }
  }

  /** A binding with the next id joins the numbered ones. */
  lemma NumberedWith(h: Heap, k: Heap, before: seq<Ptr>, p: Ptr, after: seq<Ptr>, nextId: nat)
    requires Numbered(h, before + after, nextId) && nextId != 0
    requires p !in h && k.Keys == h.Keys + {p} && k[p].id == nextId
    requires forall q :: q in h ==> k[q].id == h[q].id
    ensures Numbered(k, before + ([p] + after), NextId(nextId))
  {
    var was, all, at := before + after, before + ([p] + after), |before|;
    assert all[at] == p && forall i :: 0 <= i < |all| && i != at ==> all[i] == was[if i < at then i else i - 1];
  }

  lemma AddedOpen(w: World, p: Ptr, wish: Wish, staged: bool)
    requires LatchesOpen(w.heap, w.plan, w.keyboards, w.events)
    requires GripsOpen(w.heap, w.plan, w.buttons, w.grips, w.events)
    requires p !in w.heap
    ensures var v := Added(w, p, wish, staged);
      LatchesOpen(v.heap, v.plan, v.keyboards, v.events) && GripsOpen(v.heap, v.plan, v.buttons, v.grips, v.events)
  {
    var v := Added(w, p, wish, staged);
    forall j, code | 0 <= j < |w.keyboards| && 0 <= code < CODES
      ensures LatchOpen(v.heap, v.plan, w.keyboards[j], code, w.events)
    {
      assert LatchOpen(w.heap, w.plan, w.keyboards[j], code, w.events);
    }
  }

  lemma AddedListed(w: World, p: Ptr, wish: Wish, staged: bool)
    requires Listed(w.heap, w.bindings, w.plan) && p != NULL && p !in w.heap
    ensures var v := Added(w, p, wish, staged); Listed(v.heap, v.bindings, v.plan)
  {
  }

  lemma AddedTended(w: World, p: Ptr, wish: Wish, staged: bool)
    requires Tended(w) && p != NULL && p !in w.heap && w.nextId > 0
    ensures Tended(Added(w, p, wish, staged))
  {
    AddedCounted(w, p, wish, staged);
    AddedListed(w, p, wish, staged);
    AddedNumbered(w, p, wish, staged);
    AddedOpen(w, p, wish, staged);
    hide Shapes, Counted, Listed, Numbered, LatchesOpen, GripsOpen, Paired;
  }

  // ----- removing the head of a list

  /** `release_binding_list`, one entry: unlinked, deactivated if asked, and one reference less. */
  function Popped(w: World): World
    requires w.bindings != [] && w.bindings[0] in w.heap && w.heap[w.bindings[0]].references > 0
  {
    var p := w.bindings[0];
    w.(bindings := w.bindings[1..], heap := Unref(w.heap[p := w.heap[p].(active := false)], p))
  }

  function PopHead(s: seq<Ptr>): (r: seq<Ptr>)
    requires s != []
    ensures forall q :: multiset(s)[q] == multiset(r)[q] + One(s[0], q)
  {
    assert s == [s[0]] + s[1..];
    s[1..]
  }

  function Inactive(h: Heap, p: Ptr): Heap
    requires p in h
  {
    h[p := h[p].(active := false)]
  }

  lemma PoppedCounted(w: World)
    requires Counted(w.heap, PlacesOf(w)) && w.bindings != [] && w.bindings[0] != NULL
    ensures var p := w.bindings[0];
      && p in w.heap && w.heap[p].references > 0
      && Counted(Unref(Inactive(w.heap, p), p), PlacesOf(w.(bindings := w.bindings[1..])))
  {
    var p := w.bindings[0];
    assert w.bindings[1..] == PopHead(w.bindings);
    var v := w.(bindings := w.bindings[1..]);
    assert Uses(PlacesOf(w), p) > 0;
    assert forall q :: q != NULL && q in w.heap ==> w.heap[q].references == Uses(PlacesOf(w), q) > 0;
    assert Counted(Inactive(w.heap, p), PlacesOf(w)) by {
      hide Uses;
    }
    hide Counted, Latched;
    UnrefCounted(Inactive(w.heap, p), PlacesOf(w), PlacesOf(v), p);
  }

  lemma PoppedTended(w: World)
    requires Tended(w) && w.bindings != []
    ensures w.bindings[0] in w.heap && w.heap[w.bindings[0]].references > 0
    ensures Tended(Popped(w))
  {
    var p := w.bindings[0];
    PoppedCounted(w);
    var h := Inactive(w.heap, p);
    PoppedListed(w);
    PoppedNumbered(w);
    PoppedOpen(w, h, p);
    UnrefCountsOnly(h, p);
    var v := w.(bindings := w.bindings[1..], heap := h);
    hide Shapes, Counted, Listed, Numbered, LatchesOpen, GripsOpen, Paired, CountsOnly, Unref, Inactive;
    Stays(v, v.(heap := Unref(h, p)));
  }

  lemma PoppedListed(w: World)
    requires Listed(w.heap, w.bindings, w.plan) && Numbered(w.heap, w.bindings + w.plan, w.nextId) && w.bindings != []
    ensures Listed(Inactive(w.heap, w.bindings[0]), w.bindings[1..], w.plan)
  {
    var p := w.bindings[0];
    var all := w.bindings + w.plan;
    forall i | 0 < i < |w.bindings|
      ensures w.bindings[i] != p
    {
      assert w.heap[all[0]].id != w.heap[all[i]].id;
    }
    assert forall q :: q in w.bindings && q != p ==> q in w.bindings[1..];
    hide Numbered;
  }

  lemma PoppedNumbered(w: World)
    requires Numbered(w.heap, w.bindings + w.plan, w.nextId) && w.bindings != [] && w.bindings[0] in w.heap
    ensures Numbered(Inactive(w.heap, w.bindings[0]), w.bindings[1..] + w.plan, w.nextId)
  {
    var all, more := w.bindings + w.plan, w.bindings[1..] + w.plan;
    assert more == all[1..];
  }

  lemma PoppedOpen(w: World, h: Heap, p: Ptr)
    requires LatchesOpen(w.heap, w.plan, w.keyboards, w.events)
    requires GripsOpen(w.heap, w.plan, w.buttons, w.grips, w.events)
    requires p in w.heap && h == Inactive(w.heap, p)
    ensures LatchesOpen(h, w.plan, w.keyboards, w.events) && GripsOpen(h, w.plan, w.buttons, w.grips, w.events)
  {
    forall j, code | 0 <= j < |w.keyboards| && 0 <= code < CODES
      ensures LatchOpen(h, w.plan, w.keyboards[j], code, w.events)
    {
      assert LatchOpen(w.heap, w.plan, w.keyboards[j], code, w.events);
    }
  }

  /** An entry of a plan that is given up. */
  function Dropped(w: World): World
    requires w.plan != [] && w.plan[0] in w.heap && w.heap[w.plan[0]].references > 0
  {
    w.(plan := w.plan[1..], heap := Unref(w.heap, w.plan[0]))
  }

  lemma DroppedTended(w: World)
    requires Tended(w) && w.plan != []
    ensures w.plan[0] in w.heap && w.heap[w.plan[0]].references > 0
    ensures Tended(Dropped(w))
  {
    var p := w.plan[0];
    assert w.plan[1..] == PopHead(w.plan);
    var v := w.(plan := w.plan[1..]);
    UnrefCounted(w.heap, PlacesOf(w), PlacesOf(v), p);
    DroppedLists(w);
    UnrefCountsOnly(w.heap, p);
    hide Shapes, Counted, Listed, Numbered, LatchesOpen, GripsOpen, Paired, CountsOnly, Unref;
    Stays(v, Dropped(w));
  }

  lemma DroppedLists(w: World)
    requires Tended(w) && w.plan != []
    ensures Listed(w.heap, w.bindings, w.plan[1..]) && Numbered(w.heap, w.bindings + w.plan[1..], w.nextId)
    ensures LatchesOpen(w.heap, w.plan[1..], w.keyboards, w.events)
    ensures GripsOpen(w.heap, w.plan[1..], w.buttons, w.grips, w.events)
  {
    var all, more := w.bindings + w.plan, w.bindings + w.plan[1..];
    assert forall i :: 0 <= i < |more| ==> more[i] == all[if i < |w.bindings| then i else i + 1];
    forall j, code | 0 <= j < |w.keyboards| && 0 <= code < CODES
      ensures LatchOpen(w.heap, w.plan[1..], w.keyboards[j], code, w.events)
    {
      assert LatchOpen(w.heap, w.plan, w.keyboards[j], code, w.events);
    }
  }

  // ----- pointer buttons

  /** Buttons are device 0, which no keyboard is. */
  lemma LatchesApart(w: World, es: seq<Event>, button: nat)
    requires Shapes(w.keyboards) && LatchesOpen(w.heap, w.plan, w.keyboards, w.events)
    requires OpenElsewhere(w.events, es, 0, button)
    ensures LatchesOpen(w.heap, w.plan, w.keyboards, es)
  {
    forall j, code | 0 <= j < |w.keyboards| && 0 <= code < CODES
      ensures LatchOpen(w.heap, w.plan, w.keyboards[j], code, es)
    {
      assert LatchOpen(w.heap, w.plan, w.keyboards[j], code, w.events);
    }
  }

  lemma GripOpened(w: World, button: nat, p: Ptr)
    requires Tended(w) && p in w.bindings && button !in w.buttons && |w.grips| < GRIPS
    ensures p in w.heap && p != NULL
    ensures var es := Pressing(w.heap, w.events, 0, button, p);
      && LatchesOpen(w.heap, w.plan, w.keyboards, es) && Paired(es)
      && GripsOpen(w.heap, w.plan, w.buttons + [button], w.grips + [p], es)
  {
    PressingOpens(w, 0, button, p);
    LatchesApart(w, Pressing(w.heap, w.events, 0, button, p), button);
  }

  lemma GripTaken(w: World, button: nat, p: Ptr)
    requires Tended(w) && p in w.bindings && button !in w.buttons && |w.grips| < GRIPS
    ensures p in w.heap && p != NULL
    ensures Tended(w.(buttons := w.buttons + [button], grips := w.grips + [p], heap := Ref(w.heap, p),
                      events := Pressing(w.heap, w.events, 0, button, p)))
  {
    hide Shapes, Counted, Listed, Numbered, LatchesOpen, GripsOpen, Paired, Pressing;
    GripOpened(w, button, p);
    var v := w.(buttons := w.buttons + [button], grips := w.grips + [p],
                events := Pressing(w.heap, w.events, 0, button, p));
    RefCounted(w.heap, PlacesOf(w), PlacesOf(v), p);
    Stays(v, v.(heap := Ref(w.heap, p)));
  }

  /** The last grip takes the place of the one that ends. */
  function SwapRemoved<T>(s: seq<T>, i: nat): seq<T>
    requires i < |s|
  {
    s[i := s[|s| - 1]][..|s| - 1]
  }

  lemma CountAround(a: seq<Ptr>, x: Ptr, b: seq<Ptr>, q: Ptr)
    ensures multiset(a + ([x] + b))[q] == multiset(a)[q] + One(x, q) + multiset(b)[q]
  {
  }

  lemma SwapRemovedCount(s: seq<Ptr>, i: nat, q: Ptr)
    requires i < |s|
    ensures multiset(s)[q] == multiset(SwapRemoved(s, i))[q] + One(s[i], q)
  {
    var last := s[|s| - 1];
    var u := s[i := last];
    assert s == s[..i] + ([s[i]] + s[i + 1..]);
    assert u == s[..i] + ([last] + s[i + 1..]);
    assert u == u[..|s| - 1] + ([last] + []);
    CountAround(s[..i], s[i], s[i + 1..], q);
    CountAround(s[..i], last, s[i + 1..], q);
    CountAround(u[..|s| - 1], last, [], q);
  }

  lemma GripsLeft(h: Heap, plan: seq<Ptr>, buttons: seq<nat>, grips: seq<Ptr>, es: seq<Event>, fs: seq<Event>, i: nat)
    requires GripsOpen(h, plan, buttons, grips, es) && i < |grips| && OpenElsewhere(es, fs, 0, buttons[i])
    ensures GripsOpen(h, plan, SwapRemoved(buttons, i), SwapRemoved(grips, i), fs)
  {
  }

  lemma GripCounted(w: World, v: World, i: nat)
    requires Counted(w.heap, PlacesOf(w)) && i < |w.grips| && w.grips[i] != NULL
    requires PlacesOf(v) == PlacesOf(w).(grips := SwapRemoved(w.grips, i))
    ensures w.grips[i] in w.heap && w.heap[w.grips[i]].references > 0 && Counted(Unref(w.heap, w.grips[i]), PlacesOf(v))
  {
    forall q
      ensures Uses(PlacesOf(w), q) == Uses(PlacesOf(v), q) + One(w.grips[i], q)
    {
      SwapRemovedCount(w.grips, i, q);
    }
    hide Uses, Counted, SwapRemoved;
    UnrefCounted(w.heap, PlacesOf(w), PlacesOf(v), w.grips[i]);
  }

  lemma GripDropped(w: World, i: nat)
    requires Tended(w) && i < |w.grips|
    ensures |w.buttons| == |w.grips| && w.grips[i] in w.heap && w.heap[w.grips[i]].references > 0
    ensures Tended(w.(buttons := SwapRemoved(w.buttons, i), grips := SwapRemoved(w.grips, i),
                      heap := Unref(w.heap, w.grips[i]),
                      events := Releasing(w.heap, w.events, 0, w.buttons[i], w.grips[i])))
  {
    var p, button := w.grips[i], w.buttons[i];
    var es := Releasing(w.heap, w.events, 0, button, p);
    var v := w.(buttons := SwapRemoved(w.buttons, i), grips := SwapRemoved(w.grips, i), events := es);
    ReleasingCloses(w, 0, button, p);
    LatchesApart(w, es, button);
    GripsLeft(w.heap, w.plan, w.buttons, w.grips, w.events, es, i);
    GripCounted(w, v, i);
    UnrefCountsOnly(w.heap, p);
    hide Shapes, Counted, Listed, Numbered, LatchesOpen, GripsOpen, Paired, OpenElsewhere, CountsOnly, Unref;
    hide SwapRemoved;
    Stays(v, v.(heap := Unref(w.heap, p)));
  }
}
