/** What key and button handling keeps true of bindings, latches and events (native/input.c). */
module Tending {
  import opened Options
  import opened Ids
  import opened Pointers
  import opened Bindings
  import opened Keys

  const GRIPS := 32

  /** The bindings, everything that holds one, and the events sent so far. */
  datatype World = World(heap: Heap, bindings: seq<Ptr>, plan: seq<Ptr>, keyboards: seq<Keyboard>, buttons: seq<nat>,
                         grips: seq<Ptr>, events: seq<Event>, nextId: nat, nextDevice: nat)

  function PlacesOf(w: World): Places {
    Places(w.bindings, w.plan, w.keyboards, w.grips)
  }

  /** Published bindings are exactly the active ones. */
  ghost predicate Listed(h: Heap, bs: seq<Ptr>, plan: seq<Ptr>) {
    && (forall i :: 0 <= i < |bs| ==> bs[i] != NULL && bs[i] in h && h[bs[i]].active)
    && (forall i :: 0 <= i < |plan| ==> plan[i] != NULL && plan[i] in h && !h[plan[i]].active)
    && (forall p :: p in h && h[p].active ==> p in bs)
    && (forall p :: p in h ==> !h[p].matched && h[p].replacement == NULL)
  }

  /** Ids of listed bindings are distinct and were all handed out before `nextId`, which is 0 when none is left. */
  ghost predicate Numbered(h: Heap, all: seq<Ptr>, nextId: nat) {
    && nextId <= ID_MAX
    && (forall i :: 0 <= i < |all| ==> all[i] in h && 0 < h[all[i]].id && (nextId == 0 || h[all[i]].id < nextId))
    && (forall i, j :: 0 <= i < j < |all| ==> h[all[i]].id != h[all[j]].id)
  }

  /** A key that holds a binding pressed it last, under the id the binding has now. */
  ghost predicate LatchOpen(h: Heap, plan: seq<Ptr>, k: Keyboard, code: nat, es: seq<Event>) {
    code < |k.held| && k.held[code] != NULL ==>
      k.held[code] in h && k.held[code] !in plan && Open(es, k.id, code) == Some(h[k.held[code]].id)
  }

  ghost predicate LatchesOpen(h: Heap, plan: seq<Ptr>, ks: seq<Keyboard>, es: seq<Event>) {
    forall j, code :: 0 <= j < |ks| && 0 <= code < CODES ==> LatchOpen(h, plan, ks[j], code, es)
  }

  ghost predicate GripsOpen(h: Heap, plan: seq<Ptr>, buttons: seq<nat>, grips: seq<Ptr>, es: seq<Event>) {
    && |buttons| == |grips| <= GRIPS
    && (forall i :: 0 <= i < |grips| ==>
      grips[i] != NULL && grips[i] in h && grips[i] !in plan && Open(es, 0, buttons[i]) == Some(h[grips[i]].id))
    && (forall i, j :: 0 <= i < j < |buttons| ==> buttons[i] != buttons[j])
  }

  /** Device ids were all handed out before `nextDevice`, which is 0 when none is left. */
  ghost predicate Issued(ks: seq<Keyboard>, nextDevice: nat) {
    forall j :: 0 <= j < |ks| ==> nextDevice == 0 || ks[j].id < nextDevice
  }

  ghost predicate Tended(w: World) {
    && Shapes(w.keyboards) && Issued(w.keyboards, w.nextDevice) && Counted(w.heap, PlacesOf(w))
    && Listed(w.heap, w.bindings, w.plan)
    && Numbered(w.heap, w.bindings + w.plan, w.nextId) && LatchesOpen(w.heap, w.plan, w.keyboards, w.events)
    && GripsOpen(w.heap, w.plan, w.buttons, w.grips, w.events) && Paired(w.events)
  }

  // ----- changes of the heap that keep what matters

  /** Only reference counts differ, and bindings of `keep` stay. */
  ghost predicate CountsOnly(h: Heap, k: Heap) {
    forall p :: p in k ==> p in h && k[p] == h[p].(references := k[p].references)
  }

  lemma ListsStay(h: Heap, k: Heap, w: World)
    requires Listed(h, w.bindings, w.plan) && Numbered(h, w.bindings + w.plan, w.nextId)
    requires CountsOnly(h, k) && Counted(k, PlacesOf(w))
    ensures Listed(k, w.bindings, w.plan) && Numbered(k, w.bindings + w.plan, w.nextId)
  {
    forall i | 0 <= i < |w.bindings|
      ensures w.bindings[i] in k
    {
      assert w.bindings[i] in multiset(w.bindings) && Uses(PlacesOf(w), w.bindings[i]) > 0;
    }
    forall i | 0 <= i < |w.plan|
      ensures w.plan[i] in k
    {
      assert w.plan[i] in multiset(w.plan) && Uses(PlacesOf(w), w.plan[i]) > 0;
    }
  }

  lemma LatchesStay(h: Heap, k: Heap, w: World, es: seq<Event>)
    requires LatchesOpen(h, w.plan, w.keyboards, es) && CountsOnly(h, k)
    requires Counted(k, PlacesOf(w)) && Shapes(w.keyboards)
    ensures LatchesOpen(k, w.plan, w.keyboards, es)
  {
    forall j, code | 0 <= j < |w.keyboards| && 0 <= code < CODES
      ensures LatchOpen(k, w.plan, w.keyboards[j], code, es)
    {
      assert LatchOpen(h, w.plan, w.keyboards[j], code, es);
      LatchedAt(w.keyboards, j, code);
      assert w.keyboards[j].held[code] != NULL ==> Uses(PlacesOf(w), w.keyboards[j].held[code]) > 0;
    }
  }

  lemma GripsStay(h: Heap, k: Heap, w: World, es: seq<Event>)
    requires GripsOpen(h, w.plan, w.buttons, w.grips, es) && CountsOnly(h, k) && Counted(k, PlacesOf(w))
    ensures GripsOpen(k, w.plan, w.buttons, w.grips, es)
  {
    forall i | 0 <= i < |w.grips|
      ensures w.grips[i] in k
    {
      assert w.grips[i] in multiset(w.grips) && Uses(PlacesOf(w), w.grips[i]) > 0;
    }
  }

  lemma Stays(w: World, v: World)
    requires v == w.(heap := v.heap) && CountsOnly(w.heap, v.heap) && Counted(v.heap, PlacesOf(w))
    requires Shapes(w.keyboards) && Issued(w.keyboards, w.nextDevice)
    requires Listed(w.heap, w.bindings, w.plan) && Numbered(w.heap, w.bindings + w.plan, w.nextId)
    requires LatchesOpen(w.heap, w.plan, w.keyboards, w.events)
    requires GripsOpen(w.heap, w.plan, w.buttons, w.grips, w.events) && Paired(w.events)
    ensures Tended(v)
  {
    ListsStay(w.heap, v.heap, w);
    LatchesStay(w.heap, v.heap, w, w.events);
    GripsStay(w.heap, v.heap, w, w.events);
  }

  // ----- one key

  /** Keyboard `i` with key `code` set so. */
  function SetKey(ks: seq<Keyboard>, i: nat, code: nat, pressed: bool, consumed: bool, held: Ptr): seq<Keyboard>
    requires i < |ks| && code < |ks[i].pressed| && code < |ks[i].consumed| && code < |ks[i].held|
  {
    ks[i := ks[i].(pressed := ks[i].pressed[code := pressed], consumed := ks[i].consumed[code := consumed],
                   held := ks[i].held[code := held])]
  }

  lemma KeySet(ks: seq<Keyboard>, i: nat, code: nat, pressed: bool, consumed: bool, held: Ptr)
    requires Shapes(ks) && i < |ks| && code < CODES && (consumed ==> pressed) && (held != NULL ==> consumed)
    ensures Shapes(SetKey(ks, i, code, pressed, consumed, held))
    ensures ChangedAt(ks, SetKey(ks, i, code, pressed, consumed, held), i, code)
  {
  }

  /** Setting `pressed` first and the latch later, or not at all, is setting the key. */
  lemma SetInSteps(ks: seq<Keyboard>, i: nat, code: nat, pressed: bool, consumed: bool, held: Ptr)
    requires i < |ks| && code < |ks[i].pressed| && code < |ks[i].consumed| && code < |ks[i].held|
    ensures var part := ks[i := ks[i].(pressed := ks[i].pressed[code := pressed])];
      && SetKey(part, i, code, pressed, consumed, held) == SetKey(ks, i, code, pressed, consumed, held)
      && (ks[i].consumed[code] == consumed && ks[i].held[code] == held ==>
        part == SetKey(ks, i, code, pressed, consumed, held))
  {
    var k := ks[i];
    assert k.pressed[code := pressed][code := pressed] == k.pressed[code := pressed];
    assert k.consumed[code := k.consumed[code]] == k.consumed && k.held[code := k.held[code]] == k.held;
  }

  /** Only the open press of (device, code) may differ. */
  ghost predicate OpenElsewhere(es: seq<Event>, fs: seq<Event>, device: nat, code: nat) {
    forall d: nat, c: nat :: d != device || c != code ==> Open(fs, d, c) == Open(es, d, c)
  }

  lemma LatchesElsewhere(h: Heap, plan: seq<Ptr>, ks: seq<Keyboard>, es: seq<Event>, i: nat, code: nat, pressed: bool,
                         consumed: bool, held: Ptr, fs: seq<Event>)
    requires Shapes(ks) && i < |ks| && code < CODES && LatchesOpen(h, plan, ks, es)
    requires OpenElsewhere(es, fs, ks[i].id, code)
    requires held != NULL ==> held in h && held !in plan && Open(fs, ks[i].id, code) == Some(h[held].id)
    ensures LatchesOpen(h, plan, SetKey(ks, i, code, pressed, consumed, held), fs)
  {
    var ls := SetKey(ks, i, code, pressed, consumed, held);
    forall j, c | 0 <= j < |ls| && 0 <= c < CODES
      ensures LatchOpen(h, plan, ls[j], c, fs)
    {
      assert LatchOpen(h, plan, ks[j], c, es);
    }
  }

  lemma GripsElsewhere(h: Heap, plan: seq<Ptr>, buttons: seq<nat>, grips: seq<Ptr>, es: seq<Event>, fs: seq<Event>,
                       device: nat, code: nat)
    requires GripsOpen(h, plan, buttons, grips, es) && OpenElsewhere(es, fs, device, code) && device > 0
    ensures GripsOpen(h, plan, buttons, grips, fs)
  {
  }

  /** The events after the latch of a key changes: a press if it takes a binding. */
  function Pressing(h: Heap, es: seq<Event>, device: nat, code: nat, p: Ptr): seq<Event>
    requires p == NULL || p in h
  {
    if p == NULL then es else es + [Event(true, device, code, h[p].id)]
  }

  /** The events after a binding is let go: a release if it is still published and has a release command. */
  function Releasing(h: Heap, es: seq<Event>, device: nat, code: nat, p: Ptr): seq<Event>
    requires p == NULL || p in h
  {
    if p != NULL && h[p].active && h[p].release.Some? then es + [Event(false, device, code, h[p].id)] else es
  }

  lemma PressingOpens(w: World, device: nat, code: nat, p: Ptr)
    requires Paired(w.events) && (p == NULL || p in w.heap)
    ensures var es := Pressing(w.heap, w.events, device, code, p);
      && Paired(es) && OpenElsewhere(w.events, es, device, code)
      && (p != NULL ==> Open(es, device, code) == Some(w.heap[p].id))
  {
    if p != NULL {
      var e := Event(true, device, code, w.heap[p].id);
      EventAdded(w.events, e);
      forall d: nat, c: nat
        ensures OpenAfter(w.events, e, d, c)
      {
      }
    }
  }

  lemma ReleasingCloses(w: World, device: nat, code: nat, p: Ptr)
    requires Paired(w.events) && (p == NULL || (p in w.heap && Open(w.events, device, code) == Some(w.heap[p].id)))
    ensures var es := Releasing(w.heap, w.events, device, code, p);
      Paired(es) && OpenElsewhere(w.events, es, device, code)
  {
    if Releasing(w.heap, w.events, device, code, p) != w.events {
      var e := Event(false, device, code, w.heap[p].id);
      EventAdded(w.events, e);
      forall d: nat, c: nat
        ensures OpenAfter(w.events, e, d, c)
      {
      }
    }
  }

  lemma TakeCounted(w: World, v: World, i: nat, code: nat, p: Ptr)
    requires Tended(w) && i < |w.keyboards| && code < CODES
    requires v.bindings == w.bindings && v.plan == w.plan && v.grips == w.grips
    requires |v.keyboards| == |w.keyboards| && v.keyboards == w.keyboards[i := v.keyboards[i]]
    requires w.keyboards[i].held[code] == NULL && v.keyboards[i].held == w.keyboards[i].held[code := p]
    requires p == NULL || p in w.heap
    ensures Counted(Ref(w.heap, p), PlacesOf(v)) && CountsOnly(w.heap, Ref(w.heap, p))
  {
    hide Counted, Latched, Listed, Numbered, LatchesOpen, GripsOpen, Paired;
    LatchMoved(PlacesOf(w), i, code, v.keyboards[i], p);
    assert PlacesOf(v) == PlacesOf(w).(keyboards := PlacesOf(w).keyboards[i := v.keyboards[i]]);
    RefCounted(w.heap, PlacesOf(w), PlacesOf(v), p);
  }

  /** A key goes down, or is already down, and takes binding `p`, or none. */
  lemma TakesLatch(w: World, i: nat, code: nat, consumed: bool, p: Ptr)
    requires Tended(w) && i < |w.keyboards| && code < CODES && w.keyboards[i].held[code] == NULL
    requires p != NULL ==> p in w.heap && p !in w.plan && consumed
    ensures Tended(w.(keyboards := SetKey(w.keyboards, i, code, true, consumed, p), heap := Ref(w.heap, p),
                      events := Pressing(w.heap, w.events, w.keyboards[i].id, code, p)))
  {
    var ks := SetKey(w.keyboards, i, code, true, consumed, p);
    var es := Pressing(w.heap, w.events, w.keyboards[i].id, code, p);
    KeySet(w.keyboards, i, code, true, consumed, p);
    PressingOpens(w, w.keyboards[i].id, code, p);
    LatchesElsewhere(w.heap, w.plan, w.keyboards, w.events, i, code, true, consumed, p, es);
    GripsElsewhere(w.heap, w.plan, w.buttons, w.grips, w.events, es, w.keyboards[i].id, code);
    var v := w.(keyboards := ks, events := es);
    TakeCounted(w, v, i, code, p);
    hide Shapes, Counted, Listed, Numbered, LatchesOpen, GripsOpen, Paired, CountsOnly, Ref, OpenElsewhere;
    Stays(v, v.(heap := Ref(w.heap, p)));
  }

  lemma DropCounted(w: World, v: World, i: nat, code: nat)
    requires Tended(w) && i < |w.keyboards| && code < CODES
    requires v.bindings == w.bindings && v.plan == w.plan && v.grips == w.grips
    requires |v.keyboards| == |w.keyboards| && v.keyboards == w.keyboards[i := v.keyboards[i]]
    requires v.keyboards[i].held == w.keyboards[i].held[code := NULL]
    ensures var p := w.keyboards[i].held[code];
      (p == NULL || (p in w.heap && w.heap[p].references > 0)) && Counted(Unref(w.heap, p), PlacesOf(v))
  {
    hide Counted, Latched, Listed, Numbered, LatchesOpen, GripsOpen, Paired;
    var p := w.keyboards[i].held[code];
    LatchMoved(PlacesOf(w), i, code, v.keyboards[i], NULL);
    assert PlacesOf(v) == PlacesOf(w).(keyboards := PlacesOf(w).keyboards[i := v.keyboards[i]]);
    UnrefCounted(w.heap, PlacesOf(w), PlacesOf(v), p);
  }

  lemma UnrefCountsOnly(h: Heap, p: Ptr)
    requires p == NULL || (p in h && h[p].references > 0)
    ensures CountsOnly(h, Unref(h, p))
  {
  }

  /** A key lets go of its latch, with or without an event. */
  lemma DropsLatch(w: World, i: nat, code: nat, pressed: bool, consumed: bool, es: seq<Event>)
    requires Tended(w) && i < |w.keyboards| && code < CODES && (consumed ==> pressed)
    requires Paired(es) && OpenElsewhere(w.events, es, w.keyboards[i].id, code)
    ensures var p := w.keyboards[i].held[code]; p == NULL || (p in w.heap && w.heap[p].references > 0)
    ensures Tended(w.(keyboards := SetKey(w.keyboards, i, code, pressed, consumed, NULL),
                      heap := Unref(w.heap, w.keyboards[i].held[code]), events := es))
  {
    var ks := SetKey(w.keyboards, i, code, pressed, consumed, NULL);
    KeySet(w.keyboards, i, code, pressed, consumed, NULL);
    LatchesElsewhere(w.heap, w.plan, w.keyboards, w.events, i, code, pressed, consumed, NULL, es);
    GripsElsewhere(w.heap, w.plan, w.buttons, w.grips, w.events, es, w.keyboards[i].id, code);
    var v := w.(keyboards := ks, events := es);
    DropCounted(w, v, i, code);
    UnrefCountsOnly(w.heap, w.keyboards[i].held[code]);
    hide Shapes, Counted, Listed, Numbered, LatchesOpen, GripsOpen, Paired, CountsOnly, Unref, OpenElsewhere;
    Stays(v, v.(heap := Unref(w.heap, w.keyboards[i].held[code])));
  }

  /** The binding a key holds is alive and is the one it pressed last. */
  lemma LatchFacts(w: World, i: nat, code: nat)
    requires Tended(w) && i < |w.keyboards| && code < CODES
    ensures |w.keyboards[i].held| == |w.keyboards[i].pressed| == |w.keyboards[i].consumed| == CODES
    ensures var p := w.keyboards[i].held[code];
      p != NULL ==>
        p in w.heap && w.heap[p].references > 0 && Open(w.events, w.keyboards[i].id, code) == Some(w.heap[p].id)
  {
    assert LatchOpen(w.heap, w.plan, w.keyboards[i], code, w.events);
    assert w.keyboards[i].held[code] != NULL && w.keyboards[i].held[code] in w.heap ==>
        w.heap[w.keyboards[i].held[code]].references == Uses(PlacesOf(w), w.keyboards[i].held[code]) > 0;
  }

  // ----- keyboards come and go

  lemma {:induction false} LatchedWithout(ks: seq<Keyboard>, i: nat, p: Ptr)
    requires i < |ks|
    ensures Latched(ks, p) == Latched(ks[..i] + ks[i + 1..], p) + multiset(ks[i].held)[p]
  {
    assert ks == ks[..i] + ([ks[i]] + ks[i + 1..]);
    LatchedTwo(ks[..i], [ks[i]] + ks[i + 1..], p);
    LatchedTwo(ks[..i], ks[i + 1..], p);
    assert ([ks[i]] + ks[i + 1..])[1..] == ks[i + 1..];
  }

  /** Every key is up. */
  predicate AllUp(k: Keyboard) {
    forall c :: 0 <= c < |k.pressed| ==> !k.pressed[c]
  }

  lemma HoldsNothing(k: Keyboard, p: Ptr)
    requires Shape(k) && AllUp(k) && p != NULL
    ensures multiset(k.held)[p] == 0
  {
    assert p !in k.held;
  }

  /** A keyboard with every key up can be dropped. */
  lemma Unplugged(w: World, i: nat)
    requires Tended(w) && i < |w.keyboards| && AllUp(w.keyboards[i])
    ensures Tended(w.(keyboards := w.keyboards[..i] + w.keyboards[i + 1..]))
  {
    hide Counted, LatchesOpen, GripsOpen, Paired, Listed, Numbered;
    UnpluggedCounted(w, i);
    UnpluggedLatches(w, i);
  }

  lemma UnpluggedCounted(w: World, i: nat)
    requires Counted(w.heap, PlacesOf(w)) && i < |w.keyboards| && AllUp(w.keyboards[i]) && Shapes(w.keyboards)
    ensures Counted(w.heap, PlacesOf(w.(keyboards := w.keyboards[..i] + w.keyboards[i + 1..])))
  {
    var v := w.(keyboards := w.keyboards[..i] + w.keyboards[i + 1..]);
    forall p | p != NULL
      ensures Uses(PlacesOf(v), p) == Uses(PlacesOf(w), p)
    {
      LatchedWithout(w.keyboards, i, p);
      HoldsNothing(w.keyboards[i], p);
    }
  }

  lemma UnpluggedLatches(w: World, i: nat)
    requires LatchesOpen(w.heap, w.plan, w.keyboards, w.events) && i < |w.keyboards|
    ensures LatchesOpen(w.heap, w.plan, w.keyboards[..i] + w.keyboards[i + 1..], w.events)
  {
    hide LatchOpen;
    var ks := w.keyboards[..i] + w.keyboards[i + 1..];
    forall j, code | 0 <= j < |ks| && 0 <= code < CODES
      ensures LatchOpen(w.heap, w.plan, ks[j], code, w.events)
    {
      assert LatchOpen(w.heap, w.plan, w.keyboards[if j < i then j else j + 1], code, w.events);
    }
  }

  function FreshKeyboard(id: nat): (k: Keyboard)
    ensures id > 0 ==> Shape(k) && AllUp(k)
  {
    Keyboard(id, seq(CODES, _ => false), seq(CODES, _ => false), seq(CODES, _ => NULL))
  }

  lemma PluggedLatches(h: Heap, plan: seq<Ptr>, ks: seq<Keyboard>, id: nat, es: seq<Event>)
    requires LatchesOpen(h, plan, ks, es)
    ensures LatchesOpen(h, plan, [FreshKeyboard(id)] + ks, es)
  {
    var ls := [FreshKeyboard(id)] + ks;
    forall j, code | 0 <= j < |ls| && 0 <= code < CODES
      ensures LatchOpen(h, plan, ls[j], code, es)
    {
      if j > 0 {
        assert LatchOpen(h, plan, ks[j - 1], code, es);
      }
    }
  }

  lemma Plugged(w: World, next: nat)
    requires Tended(w) && w.nextDevice > 0 && (next == 0 || next == w.nextDevice + 1)
    ensures Tended(w.(keyboards := [FreshKeyboard(w.nextDevice)] + w.keyboards, nextDevice := next))
  {
    hide LatchesOpen, Listed, Numbered, GripsOpen, Counted, AllUp, Paired;
    PluggedCounted(w, w.nextDevice);
    PluggedLatches(w.heap, w.plan, w.keyboards, w.nextDevice, w.events);
  }

  lemma PluggedCounted(w: World, id: nat)
    requires Counted(w.heap, PlacesOf(w)) && id > 0
    ensures Counted(w.heap, PlacesOf(w.(keyboards := [FreshKeyboard(id)] + w.keyboards)))
  {
    var v := w.(keyboards := [FreshKeyboard(id)] + w.keyboards);
    assert v.keyboards[1..] == w.keyboards;
    forall p | p != NULL
      ensures Uses(PlacesOf(v), p) == Uses(PlacesOf(w), p)
    {
      HoldsNothing(FreshKeyboard(id), p);
    }
  }

  /** The same keys are down and consumed; only what the latches hold may differ. */
  ghost predicate SameKeys(was: seq<Keyboard>, ks: seq<Keyboard>) {
    |ks| == |was| && forall j :: 0 <= j < |ks| ==> ks[j] == was[j].(held := ks[j].held)
  }

  /** Letting go of a binding while the key stays as it is. */
  lemma Forgets(w: World, i: nat, code: nat)
    requires Tended(w) && i < |w.keyboards| && code < CODES
    ensures |w.keyboards[i].held| == CODES
    ensures var p := w.keyboards[i].held[code]; p == NULL || (p in w.heap && w.heap[p].references > 0)
    ensures Tended(w.(keyboards := SetHeld(w.keyboards, i, code, NULL),
                      heap := Unref(w.heap, w.keyboards[i].held[code])))
  {
    var k := w.keyboards[i];
    DropsLatch(w, i, code, k.pressed[code], k.consumed[code], w.events);
    assert k.pressed[code := k.pressed[code]] == k.pressed && k.consumed[code := k.consumed[code]] == k.consumed;
  }

  function SetHeld(ks: seq<Keyboard>, i: nat, code: nat, p: Ptr): seq<Keyboard>
    requires i < |ks| && code < |ks[i].held|
  {
    ks[i := ks[i].(held := ks[i].held[code := p])]
  }
}
