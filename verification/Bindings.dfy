/** Key bindings and the references that keep them alive (native/input.c). */
module Bindings {
  import opened Options
  import opened Pointers

  /** `TOMOE_KEYCODE_COUNT`. */
  const CODES := 768

  /** `struct binding`. */
  datatype Binding = Binding(owner: string, press: string, release: Option<string>, modifiers: nat, keysym: nat,
                             source: nat, id: nat, references: nat, active: bool, matched: bool, replacement: Ptr)

  type Heap = map<Ptr, Binding>

  /** `struct keyboard`: for every key code whether it is down, and its latch. */
  datatype Keyboard = Keyboard(id: nat, pressed: seq<bool>, consumed: seq<bool>, held: seq<Ptr>)

  /** Everywhere a binding can be referred to from. */
  datatype Places = Places(bindings: seq<Ptr>, plan: seq<Ptr>, keyboards: seq<Keyboard>, grips: seq<Ptr>)

  // ----- reference counts

  /** `binding_ref`. */
  function Ref(h: Heap, p: Ptr): Heap
    requires p == NULL || p in h
  {
    if p == NULL then h else h[p := h[p].(references := h[p].references + 1)]
  }

  /** `binding_unref`. */
  function Unref(h: Heap, p: Ptr): Heap
    requires p == NULL || (p in h && h[p].references > 0)
  {
    if p == NULL then h
    else if h[p].references == 1 then h - {p}
    else h[p := h[p].(references := h[p].references - 1)]
  }

  /** How many latches of the keyboards hold `p`. */
  function Latched(ks: seq<Keyboard>, p: Ptr): nat {
    if ks == [] then 0 else multiset(ks[0].held)[p] + Latched(ks[1..], p)
  }

  /** All references to `p`. */
  function Uses(w: Places, p: Ptr): nat {
    multiset(w.bindings)[p] + multiset(w.plan)[p] + Latched(w.keyboards, p) + multiset(w.grips)[p]
  }

  /** Every live binding counts exactly its references, and nothing refers to a freed one. */
  ghost predicate Counted(h: Heap, w: Places) {
    NULL !in h && forall p :: p != NULL ==> if p in h then h[p].references == Uses(w, p) > 0 else Uses(w, p) == 0
  }

  lemma RefCounted(h: Heap, w: Places, v: Places, p: Ptr)
    requires Counted(h, w) && (p == NULL || p in h)
    requires forall q :: q != NULL ==> Uses(v, q) == Uses(w, q) + One(p, q)
    ensures Counted(Ref(h, p), v)
  {
  }

  lemma UnrefCounted(h: Heap, w: Places, v: Places, p: Ptr)
    requires Counted(h, w) && forall q :: q != NULL ==> Uses(w, q) == Uses(v, q) + One(p, q)
    ensures p == NULL || (p in h && h[p].references > 0)
    ensures Counted(Unref(h, p), v)
  {
  }

  lemma {:induction false} LatchedUpdate(ks: seq<Keyboard>, i: nat, k: Keyboard, p: Ptr)
    requires i < |ks|
    ensures Latched(ks[i := k], p) + multiset(ks[i].held)[p] == Latched(ks, p) + multiset(k.held)[p]
  {
    if i == 0 {
      assert ks[i := k][1..] == ks[1..];
    } else {
      assert ks[i := k][1..] == ks[1..][i - 1 := k];
      LatchedUpdate(ks[1..], i - 1, k, p);
    }
  }

  /** Changing one latch moves one reference. */
  lemma LatchMoved(w: Places, i: nat, code: nat, k: Keyboard, p: Ptr)
    requires i < |w.keyboards| && code < |w.keyboards[i].held| && k.held == w.keyboards[i].held[code := p]
    ensures forall q ::
      Uses(w.(keyboards := w.keyboards[i := k]), q) + One(w.keyboards[i].held[code], q) == Uses(w, q) + One(p, q)
  {
    forall q
      ensures Uses(w.(keyboards := w.keyboards[i := k]), q) + One(w.keyboards[i].held[code], q) ==
        Uses(w, q) + One(p, q)
    {
      LatchedUpdate(w.keyboards, i, k, q);
    }
  }

  lemma {:induction false} LatchedAt(ks: seq<Keyboard>, i: nat, code: nat)
    requires i < |ks| && code < |ks[i].held|
    ensures Latched(ks, ks[i].held[code]) > 0
  {
    if i == 0 {
      assert ks[0].held[code] in multiset(ks[0].held);
    } else {
      LatchedAt(ks[1..], i - 1, code);
    }
  }

  lemma {:induction false} LatchedTwo(a: seq<Keyboard>, b: seq<Keyboard>, p: Ptr)
    ensures Latched(a + b, p) == Latched(a, p) + Latched(b, p)
  {
    if a == [] {
      assert a + b == b;
    } else {
      assert (a + b)[1..] == a[1..] + b;
      LatchedTwo(a[1..], b, p);
    }
  }

  // ----- lookup

  predicate Matches(b: Binding, mods: nat, syms: seq<nat>) {
    b.modifiers == mods && b.keysym in syms
  }

  /** `r` is the first binding in the list that `wanted` accepts. */
  ghost predicate IsFirst(h: Heap, bs: seq<Ptr>, wanted: Binding -> bool, r: Ptr)
    requires forall p :: p in bs ==> p in h
  {
    exists i :: 0 <= i < |bs| && bs[i] == r && wanted(h[r]) && forall j :: 0 <= j < i ==> !wanted(h[bs[j]])
  }

  /** The first binding in the list that `wanted` accepts, or none. */
  function First(h: Heap, bs: seq<Ptr>, wanted: Binding -> bool): (r: Ptr)
    requires forall p :: p in bs ==> p in h && p != NULL
    ensures r == NULL <==> forall p :: p in bs ==> !wanted(h[p])
    ensures r != NULL ==> r in bs && IsFirst(h, bs, wanted, r)
  {
    if bs == [] then NULL
    else if wanted(h[bs[0]]) then bs[0]
    else
      assert forall p :: p in bs ==> p == bs[0] || p in bs[1..];
      assert forall p :: p in bs[1..] ==> p in bs;
      var r := First(h, bs[1..], wanted);
      assert r != NULL ==> IsFirst(h, bs, wanted, r) by {
        if r != NULL {
          FirstShifts(h, bs, wanted, r);
        }
      }
      r
  }

  lemma FirstShifts(h: Heap, bs: seq<Ptr>, wanted: Binding -> bool, r: Ptr)
    requires (forall p :: p in bs ==> p in h) && bs != [] && !wanted(h[bs[0]])
    requires (forall p :: p in bs[1..] ==> p in h) && IsFirst(h, bs[1..], wanted, r)
    ensures IsFirst(h, bs, wanted, r)
  {
    var i :| 0 <= i < |bs[1..]| && bs[1..][i] == r && wanted(h[r]) && forall j :: 0 <= j < i ==> !wanted(h[bs[1..][j]]);
    assert bs[i + 1] == r;
    assert forall j :: 0 < j < i + 1 ==> bs[j] == bs[1..][j - 1];
  }

  /** A grab's owner, with the modifiers or without regard to them. */
  predicate Grabs(b: Binding, owner: string, exact: bool, mods: nat, syms: seq<nat>) {
    b.owner == owner && (exact ==> b.modifiers == mods) && b.keysym in syms
  }

  function Find(h: Heap, bs: seq<Ptr>, mods: nat, syms: seq<nat>): Ptr
    requires forall p :: p in bs ==> p in h && p != NULL
  {
    First(h, bs, b => Matches(b, mods, syms))
  }

  /** The grab's owner first with the exact modifiers, then with any. */
  function FindGrab(h: Heap, bs: seq<Ptr>, owner: string, mods: nat, syms: seq<nat>): Ptr
    requires forall p :: p in bs ==> p in h && p != NULL
  {
    var r := First(h, bs, b => Grabs(b, owner, true, mods, syms));
    if r != NULL then r else First(h, bs, b => Grabs(b, owner, false, mods, syms))
  }

  /** `pointer_binding`. */
  function PointerBinding(h: Heap, bs: seq<Ptr>, code: nat, mods: nat): (r: Ptr)
    requires forall p :: p in bs ==> p in h && p != NULL
    ensures r != NULL ==> r in bs
  {
    First(h, bs, (b: Binding) => b.keysym == code && b.modifiers == mods)
  }

  /** `binding_equivalent`. */
  predicate Equivalent(a: Binding, b: Binding) {
    && a.source != 0 && b.source != 0 && a.modifiers == b.modifiers && a.keysym == b.keysym && a.source == b.source
    && a.owner == b.owner && a.press == b.press && a.release == b.release
  }

  // ----- the events a configuration sees

  datatype Event = Event(pressed: bool, device: nat, code: nat, id: nat)

  /** The binding id whose "pressed" is the last event of this device and code, if any. */
  function Open(es: seq<Event>, device: nat, code: nat): Option<nat> {
    if es == [] then None
    else
      var e := es[|es| - 1];
      if e.device == device && e.code == code then if e.pressed then Some(e.id) else None
      else Open(es[..|es| - 1], device, code)
  }

  /** Every "released" answers the "pressed" just before it on its device and code, with the same id. */
  ghost predicate Paired(es: seq<Event>) {
    forall i :: 0 <= i < |es| && !es[i].pressed ==> Open(es[..i], es[i].device, es[i].code) == Some(es[i].id)
  }

  /** What one more event does to the open presses. */
  ghost predicate OpenAfter(es: seq<Event>, e: Event, d: nat, c: nat) {
    Open(es + [e], d, c) ==
      if d == e.device && c == e.code then (if e.pressed then Some(e.id) else None) else Open(es, d, c)
  }

  lemma EventAdded(es: seq<Event>, e: Event)
    requires Paired(es) && (e.pressed || Open(es, e.device, e.code) == Some(e.id))
    ensures Paired(es + [e])
    ensures forall d, c :: OpenAfter(es, e, d, c)
  {
    var more := es + [e];
    assert more[..|es|] == es;
    forall i | 0 <= i < |more| && !more[i].pressed
      ensures Open(more[..i], more[i].device, more[i].code) == Some(more[i].id)
    {
      if i < |es| {
        assert more[..i] == es[..i];
      }
    }
  }

  /** Between two "released" events of one device and code there is a "pressed". */
  lemma {:induction false} OneRelease(es: seq<Event>, i: nat, j: nat)
    requires Paired(es) && i < j < |es| && !es[i].pressed && !es[j].pressed
    requires es[i].device == es[j].device && es[i].code == es[j].code
    ensures exists k :: i < k < j && es[k] == Event(true, es[j].device, es[j].code, es[j].id)
  {
    LastPress(es[..j], i, es[j].device, es[j].code, es[j].id);
    var k :| i < k < j && es[..j][k] == Event(true, es[j].device, es[j].code, es[j].id);
    assert es[k] == es[..j][k];
  }

  lemma {:induction false} LastPress(es: seq<Event>, i: nat, device: nat, code: nat, id: nat)
    requires i < |es| && !es[i].pressed && es[i].device == device
    requires es[i].code == code && Open(es, device, code) == Some(id)
    ensures exists k :: i < k < |es| && es[k] == Event(true, device, code, id)
  {
    var last := es[|es| - 1];
    if last.device == device && last.code == code {
      assert i != |es| - 1;
      assert es[|es| - 1] == Event(true, device, code, id);
    } else {
      LastPress(es[..|es| - 1], i, device, code, id);
      var k :| i < k < |es| - 1 && es[..|es| - 1][k] == Event(true, device, code, id);
      assert es[k] == Event(true, device, code, id);
    }
  }
}
