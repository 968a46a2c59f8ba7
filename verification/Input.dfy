/** Key routing over several keyboards, latches and bindings (native/input.c). */
module Input {
  import opened Options
  import opened Ids
  import opened Pointers
  import opened Bindings
  import opened Keys
  import opened Tending
  import opened Publishing
  import opened Replacing

  /** What the keymap and the modes of the compositor say when a key event arrives. */
  datatype Look = Look(switch: bool, screenshot: bool, grab: Option<string>, locked: bool, mods: nat, syms: seq<nat>)

  /** Who takes a press of a tracked key. */
  datatype Route = Switch | Shot | Grabbed(to: Ptr) | Bound(to: Ptr) | Through

  function RouteOf(h: Heap, bs: seq<Ptr>, look: Look): (r: Route)
    requires forall p :: p in bs ==> p in h && p != NULL
    ensures r.Grabbed? && r.to != NULL ==> r.to in bs
    ensures r.Bound? ==> r.to in bs && r.to != NULL
  {
    if look.switch then Switch
    else if look.screenshot && !look.locked then Shot
    else if look.grab.Some? && !look.locked then Grabbed(FindGrab(h, bs, look.grab.value, look.mods, look.syms))
    else if !look.locked && Find(h, bs, look.mods, look.syms) != NULL then Bound(Find(h, bs, look.mods, look.syms))
    else Through
  }

  /** The binding a press latches. */
  function TakenBy(r: Route): Ptr {
    match r
    case Grabbed(to) => to
    case Bound(to) => to
    case _ => NULL
  }

  /** Releases in the screenshot and grab modes tell the client nothing. */
  predicate Silent(look: Look) {
    !look.locked && (look.screenshot || look.grab.Some?)
  }

  /** What a press of a key that was up does. */
  ghost predicate PressDone(was: World, now: World, sent0: seq<Notice>, sent: seq<Notice>, focused: bool, i: nat,
                            code: nat, look: Look)
    requires Tended(was) && i < |was.keyboards| && code < CODES
  {
    ActiveLive(was);
    LatchFacts(was, i, code);
    var route := RouteOf(was.heap, was.bindings, look);
    && now.keyboards == SetKey(was.keyboards, i, code, true, !route.Through?, TakenBy(route))
    && now.heap == Ref(was.heap, TakenBy(route))
    && now.events == Pressing(was.heap, was.events, was.keyboards[i].id, code, TakenBy(route))
    && sent == if route.Through? && !Shown(was.keyboards, i, code) then Noticed(sent0, focused, code, true) else sent0
  }

  /** What a release of a key that was down does. */
  ghost predicate ReleaseDone(was: World, now: World, sent0: seq<Notice>, sent: seq<Notice>, focused: bool, i: nat,
                              code: nat, look: Look)
    requires Tended(was) && i < |was.keyboards| && code < CODES
  {
    LatchFacts(was, i, code);
    var k := was.keyboards[i];
    && now.keyboards == SetKey(was.keyboards, i, code, false, false, NULL)
    && now.heap == Unref(was.heap, k.held[code])
    && now.events == Releasing(was.heap, was.events, k.id, code, k.held[code])
    && var told := !k.consumed[code] && !Silent(look) && !Shown(was.keyboards, i, code);
    sent == if told then Noticed(sent0, focused, code, false) else sent0
  }

  // ----- who takes a press, and what a release does

  /** `p` is the first binding in the list with a listed symbol, and with this owner and these modifiers if given. */
  ghost predicate Earliest(h: Heap, bs: seq<Ptr>, owner: Option<string>, mods: Option<nat>, syms: seq<nat>, p: Ptr) {
    exists n :: 0 <= n < |bs| && bs[n] == p && Answers(h, p, owner, mods, syms)
                && forall m :: 0 <= m < n ==> !Answers(h, bs[m], owner, mods, syms)
  }

  predicate Answers(h: Heap, p: Ptr, owner: Option<string>, mods: Option<nat>, syms: seq<nat>) {
    && p in h && h[p].keysym in syms
    && (owner.Some? ==> h[p].owner == owner.value) && (mods.Some? ==> h[p].modifiers == mods.value)
  }

  /** The key goes down and hides from clients, and holds binding `p`, or none: `p` gets a reference and an event. */
  ghost predicate TakenAway(was: World, now: World, i: nat, code: nat, p: Ptr)
    requires i < |was.keyboards|
  {
    && |now.keyboards| == |was.keyboards| && (forall j :: 0 <= j < |was.keyboards| && j != i ==>
      now.keyboards[j] == was.keyboards[j])
    && KeyIs(now.keyboards[i], code, true, true, p) && OtherKeys(was.keyboards[i], now.keyboards[i], code)
    && (p == NULL ==> now.heap == was.heap && now.events == was.events)
    && (p != NULL ==> p in was.heap
                      && now.events == was.events + [Event(true, was.keyboards[i].id, code, was.heap[p].id)]
                      && now.heap == was.heap[p := was.heap[p].(references := was.heap[p].references + 1)])
  }

  /** The key goes down for the clients, and no binding is involved. */
  ghost predicate LetThrough(was: World, now: World, i: nat, code: nat)
    requires i < |was.keyboards|
  {
    && |now.keyboards| == |was.keyboards| && (forall j :: 0 <= j < |was.keyboards| && j != i ==>
      now.keyboards[j] == was.keyboards[j])
    && KeyIs(now.keyboards[i], code, true, false, NULL) && OtherKeys(was.keyboards[i], now.keyboards[i], code)
    && now.heap == was.heap && now.events == was.events
  }

  predicate KeyIs(k: Keyboard, code: nat, pressed: bool, consumed: bool, held: Ptr) {
    && code < |k.pressed| && code < |k.consumed| && code < |k.held|
    && k.pressed[code] == pressed && k.consumed[code] == consumed && k.held[code] == held
  }

  /** The keyboards agree on every other key. */
  ghost predicate OtherKeys(a: Keyboard, b: Keyboard, code: nat) {
    && |a.pressed| == |b.pressed| == |a.consumed| == |b.consumed| == |a.held| == |b.held| && a.id == b.id
    && forall c :: 0 <= c < |a.pressed| && c != code ==>
      a.pressed[c] == b.pressed[c] && a.consumed[c] == b.consumed[c] && a.held[c] == b.held[c]
  }

  /**
   * Who takes a press.  A switch of the virtual terminal and the screenshot mode take it and latch nothing.  While the
   * session is locked no binding is looked up.  In the grab mode the owner's binding is latched, one with the exact
   * modifiers before any other, and the press is taken even without one.  Otherwise the first published binding with
   * these modifiers and a listed symbol is latched, if there is one, and without one the client is told.
   */
  ghost predicate PressTaken(was: World, now: World, sent0: seq<Notice>, sent: seq<Notice>, focused: bool, i: nat,
                             code: nat, look: Look)
    requires i < |was.keyboards|
  {
    var h, bs, syms := was.heap, was.bindings, look.syms;
    if look.switch || (look.screenshot && !look.locked) then
      TakenAway(was, now, i, code, NULL) && sent == sent0
    else if look.grab.Some? && !look.locked then
      && sent == sent0
      && (forall p :: Earliest(h, bs, look.grab, Some(look.mods), syms, p) ==> TakenAway(was, now, i, code, p))
      && ((forall p :: p in bs ==> !Answers(h, p, look.grab, Some(look.mods), syms)) ==>
        && (forall p :: Earliest(h, bs, look.grab, None, syms, p) ==> TakenAway(was, now, i, code, p))
        && ((forall p :: p in bs ==> !Answers(h, p, look.grab, None, syms)) ==> TakenAway(was, now, i, code, NULL)))
    else if look.locked || forall p :: p in bs ==> !Answers(h, p, None, Some(look.mods), syms) then
      && LetThrough(was, now, i, code)
      && sent == if focused && !Shown(was.keyboards, i, code) then sent0 + [Press(code)] else sent0
    else
      sent == sent0 && exists p :: Earliest(h, bs, None, Some(look.mods), syms, p) && TakenAway(was, now, i, code, p)
  }

  /** The first binding wanted is the earliest that answers. */
  lemma FirstEarliest(h: Heap, bs: seq<Ptr>, wanted: Binding -> bool, owner: Option<string>, mods: Option<nat>,
                      syms: seq<nat>)
    requires forall p :: p in bs ==> p in h && p != NULL && (wanted(h[p]) <==> Answers(h, p, owner, mods, syms))
    ensures var r := First(h, bs, wanted);
      && (r == NULL <==> forall p :: p in bs ==> !Answers(h, p, owner, mods, syms))
      && (r != NULL ==> Earliest(h, bs, owner, mods, syms, r))
      && forall p :: Earliest(h, bs, owner, mods, syms, p) ==> p == r
  {
    hide Answers;
    var r := First(h, bs, wanted);
    if r != NULL {
      var n :| 0 <= n < |bs| && bs[n] == r && wanted(h[r]) && forall j :: 0 <= j < n ==> !wanted(h[bs[j]]);
      assert Earliest(h, bs, owner, mods, syms, r) by {
        assert forall m :: 0 <= m < n ==> bs[m] in bs;
      }
      forall p | Earliest(h, bs, owner, mods, syms, p)
        ensures p == r
      {
        EarliestOnce(h, bs, owner, mods, syms, p, r);
      }
    }
    EarliestAnswers(h, bs, owner, mods, syms);
  }

  lemma EarliestAnswers(h: Heap, bs: seq<Ptr>, owner: Option<string>, mods: Option<nat>, syms: seq<nat>)
    ensures forall p :: Earliest(h, bs, owner, mods, syms, p) ==> p in bs && Answers(h, p, owner, mods, syms)
  {
    hide Answers;
  }

  lemma EarliestOnce(h: Heap, bs: seq<Ptr>, owner: Option<string>, mods: Option<nat>, syms: seq<nat>, p: Ptr, q: Ptr)
    requires Earliest(h, bs, owner, mods, syms, p) && Earliest(h, bs, owner, mods, syms, q)
    ensures p == q
  {
    hide Answers;
    var n :| 0 <= n < |bs| && bs[n] == p && Answers(h, p, owner, mods, syms)
      && forall m :: 0 <= m < n ==> !Answers(h, bs[m], owner, mods, syms);
    var k :| 0 <= k < |bs| && bs[k] == q && Answers(h, q, owner, mods, syms)
      && forall m :: 0 <= m < k ==> !Answers(h, bs[m], owner, mods, syms);
    assert !(n < k) && !(k < n);
  }

  lemma TakenMeans(was: World, now: World, i: nat, code: nat, p: Ptr)
    requires Sized(was.keyboards) && i < |was.keyboards| && code < CODES && (p == NULL || p in was.heap)
    requires now.keyboards == SetKey(was.keyboards, i, code, true, true, p) && now.heap == Ref(was.heap, p)
    requires now.events == Pressing(was.heap, was.events, was.keyboards[i].id, code, p)
    ensures TakenAway(was, now, i, code, p)
  {
  }

  lemma ThroughMeans(was: World, now: World, i: nat, code: nat)
    requires Sized(was.keyboards) && i < |was.keyboards| && code < CODES && was.keyboards[i].held[code] == NULL
    requires now.keyboards == SetKey(was.keyboards, i, code, true, false, NULL)
    requires now.heap == Ref(was.heap, NULL)
    requires now.events == Pressing(was.heap, was.events, was.keyboards[i].id, code, NULL)
    ensures LetThrough(was, now, i, code)
  {
  }

  lemma PressMeans(was: World, now: World, sent0: seq<Notice>, sent: seq<Notice>, focused: bool, i: nat, code: nat,
                   look: Look)
    requires Tended(was) && i < |was.keyboards| && code < CODES && !Pressed(was.keyboards[i], code)
    requires PressDone(was, now, sent0, sent, focused, i, code, look)
    ensures PressTaken(was, now, sent0, sent, focused, i, code, look)
  {
    hide Tended, Shown, SetKey, Ref, Pressing, TakenAway, LetThrough, Earliest, Answers;
    KeyFacts(was, i, code);
    var h, bs, mods, syms := was.heap, was.bindings, look.mods, look.syms;
    BoundEarliest(h, bs, mods, syms);
    if look.grab.Some? {
      GrabEarliest(h, bs, look.grab.value, mods, syms);
    }
    var route := RouteOf(h, bs, look);
    if route.Through? {
      ThroughMeans(was, now, i, code);
    } else {
      TakenMeans(was, now, i, code, TakenBy(route));
    }
  }

  lemma BoundEarliest(h: Heap, bs: seq<Ptr>, mods: nat, syms: seq<nat>)
    requires forall p :: p in bs ==> p in h && p != NULL
    ensures var r := Find(h, bs, mods, syms);
      && (r == NULL <==> forall p :: p in bs ==> !Answers(h, p, None, Some(mods), syms))
      && (r != NULL ==> Earliest(h, bs, None, Some(mods), syms, r))
  {
    FirstEarliest(h, bs, b => Matches(b, mods, syms), None, Some(mods), syms);
  }

  lemma GrabEarliest(h: Heap, bs: seq<Ptr>, owner: string, mods: nat, syms: seq<nat>)
    requires forall p :: p in bs ==> p in h && p != NULL
    ensures var r := FindGrab(h, bs, owner, mods, syms);
      && (forall p :: Earliest(h, bs, Some(owner), Some(mods), syms, p) ==> p == r)
      && ((forall p :: p in bs ==> !Answers(h, p, Some(owner), Some(mods), syms)) ==>
        && (forall p :: Earliest(h, bs, Some(owner), None, syms, p) ==> p == r)
        && ((forall p :: p in bs ==> !Answers(h, p, Some(owner), None, syms)) ==> r == NULL))
  {
    FirstEarliest(h, bs, b => Grabs(b, owner, true, mods, syms), Some(owner), Some(mods), syms);
    FirstEarliest(h, bs, b => Grabs(b, owner, false, mods, syms), Some(owner), None, syms);
    assert forall p :: Earliest(h, bs, Some(owner), Some(mods), syms, p) ==> p != NULL;
  }

  /**
   * What a release does.  A held binding loses a reference, and while it is published its release command is sent.  A
   * key that clients see is released for the focused one, unless the screenshot or the grab mode is on without a lock,
   * or another keyboard still shows the key.
   */
  ghost predicate Released(was: World, now: World, sent0: seq<Notice>, sent: seq<Notice>, focused: bool, i: nat,
                           code: nat, look: Look)
    requires i < |was.keyboards| && code < |was.keyboards[i].held| && code < |was.keyboards[i].consumed|
  {
    var k := was.keyboards[i];
    var p := k.held[code];
    && |now.keyboards| == |was.keyboards| && (forall j :: 0 <= j < |was.keyboards| && j != i ==>
      now.keyboards[j] == was.keyboards[j])
    && KeyIs(now.keyboards[i], code, false, false, NULL) && OtherKeys(k, now.keyboards[i], code)
    && (p == NULL ==> now.heap == was.heap && now.events == was.events)
    && (p != NULL ==>
      && p in was.heap && was.heap[p].references > 0
      && now.heap == (if was.heap[p].references == 1 then was.heap - {p}
                      else was.heap[p := was.heap[p].(references := was.heap[p].references - 1)])
      && now.events == if was.heap[p].active && was.heap[p].release.Some?
                       then was.events + [Event(false, k.id, code, was.heap[p].id)] else was.events)
    && var hidden := k.consumed[code] || (!look.locked && (look.screenshot || look.grab.Some?));
    sent == if focused && !hidden && !Shown(was.keyboards, i, code) then sent0 + [Release(code)] else sent0
  }

  lemma ReleaseMeans(was: World, now: World, sent0: seq<Notice>, sent: seq<Notice>, focused: bool, i: nat, code: nat,
                     look: Look)
    requires Tended(was) && i < |was.keyboards| && code < CODES
    requires ReleaseDone(was, now, sent0, sent, focused, i, code, look)
    ensures |was.keyboards[i].consumed| == |was.keyboards[i].held| == CODES
    ensures Released(was, now, sent0, sent, focused, i, code, look)
  {
    hide Tended, Shown;
    KeyFacts(was, i, code);
  }

  lemma ReleaseIs(was: World, now: World, sent0: seq<Notice>, sent: seq<Notice>, focused: bool, i: nat, code: nat)
    requires Tended(was) && i < |was.keyboards| && code < CODES && Sized(was.keyboards)
    requires var p := was.keyboards[i].held[code]; p != NULL ==> p in was.heap && was.heap[p].references > 0
    requires var k := was.keyboards[i];
      && now.keyboards == SetKey(was.keyboards, i, code, false, false, NULL)
      && now.heap == Unref(was.heap, k.held[code])
      && now.events == Releasing(was.heap, was.events, k.id, code, k.held[code])
      && var told := !k.consumed[code] && !Shown(was.keyboards, i, code);
      sent == if told then Noticed(sent0, focused, code, false) else sent0
    ensures ReleaseDone(was, now, sent0, sent, focused, i, code, UNPLUGGED)
  {
  }

  /** A key that is not consumed holds no binding. */
  lemma NotHeld(w: World, i: nat, code: nat)
    requires Tended(w) && i < |w.keyboards| && code < CODES && !w.keyboards[i].consumed[code]
    ensures w.keyboards[i].held[code] == NULL
  {
  }

  lemma PressKeeps(w: World, logical: set<nat>, i: nat, code: nat, consumed: bool, p: Ptr, elsewhere: bool)
    requires Tended(w) && Merged(w.keyboards, logical) && i < |w.keyboards| && code < CODES
    requires !Pressed(w.keyboards[i], code) && (p != NULL ==> p in w.heap && p !in w.plan && consumed)
    requires elsewhere <==> Down(w.keyboards, i, code)
    ensures |w.keyboards[i].pressed| == |w.keyboards[i].consumed| == |w.keyboards[i].held| == CODES
    ensures var ks := SetKey(w.keyboards, i, code, true, consumed, p);
      && Tended(w.(keyboards := ks, heap := Ref(w.heap, p),
                   events := Pressing(w.heap, w.events, w.keyboards[i].id, code, p)))
      && Merged(ks, if elsewhere then logical else logical + {code})
    ensures !consumed && p == NULL ==>
      Ref(w.heap, p) == w.heap && Pressing(w.heap, w.events, w.keyboards[i].id, code, p) == w.events
  {
    assert elsewhere ==> code in logical by {
      OneMore(w.keyboards, i, code);
    }
    hide Tended, Merged, Shapes, ChangedAt;
    Unlatched(w, i, code);
    ShapesOf(w);
    KeyFacts(w, i, code);
    TakesLatch(w, i, code, consumed, p);
    KeySet(w.keyboards, i, code, true, consumed, p);
    var ks := SetKey(w.keyboards, i, code, true, consumed, p);
    MergedAfter(w.keyboards, ks, i, code, logical, if elsewhere then logical else logical + {code});
  }

  lemma ReleaseKeeps(w: World, logical: set<nat>, i: nat, code: nat, elsewhere: bool)
    requires Tended(w) && Merged(w.keyboards, logical) && i < |w.keyboards|
    requires code < CODES && (elsewhere <==> Down(w.keyboards, i, code))
    ensures |w.keyboards[i].pressed| == |w.keyboards[i].consumed| == |w.keyboards[i].held| == CODES
    ensures var k, ks := w.keyboards[i], SetKey(w.keyboards, i, code, false, false, NULL);
      && (k.held[code] != NULL ==> k.held[code] in w.heap && w.heap[k.held[code]].references > 0)
      && Tended(w.(keyboards := ks, heap := Unref(w.heap, k.held[code]),
                   events := Releasing(w.heap, w.events, k.id, code, k.held[code])))
      && Merged(ks, if elsewhere then logical else logical - {code})
    ensures !w.keyboards[i].consumed[code] ==> w.keyboards[i].held[code] == NULL && Unref(w.heap, NULL) == w.heap
    ensures Releasing(w.heap, w.events, w.keyboards[i].id, code, NULL) == w.events
  {
    assert elsewhere ==> code in logical by {
      OneMore(w.keyboards, i, code);
    }
    hide Tended, Merged, Shapes, ChangedAt;
    LatchFacts(w, i, code);
    ShapesOf(w);
    PairedOf(w);
    var k := w.keyboards[i];
    if !k.consumed[code] {
      NotHeld(w, i, code);
    }
    ReleasingCloses(w, k.id, code, k.held[code]);
    DropsLatch(w, i, code, false, false, Releasing(w.heap, w.events, k.id, code, k.held[code]));
    KeySet(w.keyboards, i, code, false, false, NULL);
    var ks := SetKey(w.keyboards, i, code, false, false, NULL);
    MergedAfter(w.keyboards, ks, i, code, logical, if elsewhere then logical else logical - {code});
  }

  /** Only keyboard `i` differs: what the others say is the same. */
  lemma OthersSay(was: seq<Keyboard>, ks: seq<Keyboard>, i: nat, code: nat)
    requires i < |was| == |ks| && forall j :: 0 <= j < |ks| && j != i ==> ks[j] == was[j]
    ensures (Down(ks, i, code) <==> Down(was, i, code)) && (Shown(ks, i, code) <==> Shown(was, i, code))
  {
  }

  /** What handling a key relies on. */
  lemma KeyFacts(w: World, i: nat, code: nat)
    requires Tended(w) && i < |w.keyboards| && code < CODES
    ensures Sized(w.keyboards) && forall p :: p in w.bindings ==> p in w.heap && p !in w.plan && p != NULL
    ensures !w.keyboards[i].pressed[code] ==> w.keyboards[i].held[code] == NULL && !w.keyboards[i].consumed[code]
    ensures !w.keyboards[i].consumed[code] ==> w.keyboards[i].held[code] == NULL
    ensures var p := w.keyboards[i].held[code]; p != NULL ==> p in w.heap && w.heap[p].references > 0
  {
    LatchFacts(w, i, code);
  }

  /** A release the focused client should have seen and did not. */
  ghost predicate Swallowed(ks: seq<Keyboard>, focused: bool, i: nat, code: nat, down: bool, look: Look)
    requires i < |ks|
  {
    focused && !down && code < CODES && Silent(look) && Unconsumed(ks[i], code) && !Shown(ks, i, code)
  }

  /** A release that a screenshot swallows: the client goes on holding the key. */
  lemma ScreenshotSwallows()
    ensures var k := FreshKeyboard(1);
      var ks, up := [k.(pressed := k.pressed[30 := true])], [k];
      var sent, look := [Enter({30})], Look(false, true, None, false, 0, []);
      InStep(ks, true, sent) && Swallowed(ks, true, 0, 30, false, look) && !InStep(up, true, sent)
  {
    var k := FreshKeyboard(1);
    var ks, up := [k.(pressed := k.pressed[30 := true])], [k];
    var sent := [Enter({30})];
    assert sent[..0] == [] && Held(sent) == {30};
    assert Unconsumed(ks[0], 30) && Shown(ks, -1, 30);
    assert 30 in Held(sent) && !Shown(up, -1, 30);
    forall c: nat | c < CODES
      ensures c in Held(sent) <==> Shown(ks, -1, c)
    {
    }
  }

  lemma PressRouted(was: World, now: World, sent0: seq<Notice>, sent: seq<Notice>, focused: bool, i: nat, code: nat,
                    look: Look)
    requires Tended(was) && i < |was.keyboards| && code < CODES && !Pressed(was.keyboards[i], code)
    requires PressDone(was, now, sent0, sent, focused, i, code, look) && InStep(was.keyboards, focused, sent0)
    ensures InStep(now.keyboards, focused, sent)
  {
    KeyFacts(was, i, code);
    var route := RouteOf(was.heap, was.bindings, look);
    KeySet(was.keyboards, i, code, true, !route.Through?, TakenBy(route));
    hide InStep, Tended, ChangedAt, RouteOf;
    InStepAfter(was.keyboards, now.keyboards, i, code, focused, sent0, sent,
                route.Through? && !Shown(was.keyboards, i, code));
  }

  lemma ReleaseRouted(was: World, now: World, sent0: seq<Notice>, sent: seq<Notice>, focused: bool, i: nat, code: nat,
                      look: Look)
    requires Tended(was) && i < |was.keyboards| && code < CODES && Pressed(was.keyboards[i], code)
    requires ReleaseDone(was, now, sent0, sent, focused, i, code, look) && InStep(was.keyboards, focused, sent0)
    ensures InStep(now.keyboards, focused, sent) <==> !Swallowed(was.keyboards, focused, i, code, false, look)
  {
    KeyFacts(was, i, code);
    KeySet(was.keyboards, i, code, false, false, NULL);
    hide InStep, Tended, ChangedAt;
    InStepAfter(was.keyboards, now.keyboards, i, code, focused, sent0, sent,
                !was.keyboards[i].consumed[code] && !Silent(look) && !Shown(was.keyboards, i, code));
  }

  lemma UntrackedRouted(ks: seq<Keyboard>, focused: bool, code: nat, sent0: seq<Notice>, sent: seq<Notice>, down: bool)
    requires InStep(ks, focused, sent0) && code >= CODES && sent == Noticed(sent0, focused, code, down)
    ensures InStep(ks, focused, sent)
  {
    if focused {
      Untracked(ks, code, sent0, sent);
    }
  }

  /** A device that goes away is never silent. */
  const UNPLUGGED := Look(false, false, None, true, 0, [])

  /** Only keyboard `i` has changed. */
  ghost predicate OnlyThis(was: seq<Keyboard>, ks: seq<Keyboard>, i: nat) {
    i < |was| == |ks| && forall j :: 0 <= j < |ks| && j != i ==> ks[j] == was[j]
  }

  ghost predicate UpBelow(k: Keyboard, code: nat) {
    forall c :: 0 <= c < code ==> !Pressed(k, c)
  }

  lemma Progressed(was: seq<Keyboard>, ks: seq<Keyboard>, i: nat, code: nat)
    requires i < |was| && UpBelow(was[i], code) && code < CODES
    requires |was[i].pressed| == |was[i].consumed| == |was[i].held| == CODES
    requires (ks == was && !Pressed(was[i], code)) || ks == SetKey(was, i, code, false, false, NULL)
    ensures OnlyThis(was, ks, i) && UpBelow(ks[i], code + 1)
  {
    forall c | 0 <= c < code + 1
      ensures !Pressed(ks[i], c)
    {
      assert c < code ==> !Pressed(was[i], c);
    }
  }

  lemma UpAll(w: World, i: nat)
    requires Tended(w) && i < |w.keyboards| && UpBelow(w.keyboards[i], CODES)
    ensures AllUp(w.keyboards[i])
  {
    forall c | 0 <= c < |w.keyboards[i].pressed|
      ensures !w.keyboards[i].pressed[c]
    {
      assert !Pressed(w.keyboards[i], c);
    }
  }

  /** No latch before key `code` of keyboard `j` holds a binding. */
  ghost predicate EmptyBelow(ks: seq<Keyboard>, j: nat, code: nat) {
    && (forall l, c :: 0 <= l < j && l < |ks| && 0 <= c < |ks[l].held| ==> ks[l].held[c] == NULL)
    && (j < |ks| ==> forall c :: 0 <= c < code && c < |ks[j].held| ==> ks[j].held[c] == NULL)
  }

  lemma EmptyRow(w: World, j: nat)
    requires Tended(w) && j < |w.keyboards| && EmptyBelow(w.keyboards, j, CODES)
    ensures EmptyBelow(w.keyboards, j + 1, 0)
  {
  }

  lemma Nothing(h: Heap)
    ensures CountsOnly(h, h)
  {
  }

  lemma CountsOnlyTwice(h: Heap, k: Heap, l: Heap)
    requires CountsOnly(h, k) && CountsOnly(k, l)
    ensures CountsOnly(h, l)
  {
  }

  const POINTER_BINDING := 0x4000_0000

  /** The binding a button press takes, if any. */
  ghost function TakesButton(w: World, button: nat, down: bool, mods: nat, grabbed: bool): Ptr
    requires Tended(w)
  {
    GripFacts(w);
    if !down || grabbed || |w.grips| == GRIPS || button in w.buttons then NULL
    else PointerBinding(w.heap, w.bindings, POINTER_BINDING + button, mods)
  }

  /** A press is handled by the first published binding of the button with these modifiers, if it can be held. */
  ghost predicate ButtonTaken(was: World, now: World, handled: bool, button: nat, free: bool, mods: nat) {
    var syms := [POINTER_BINDING + button];
    && (handled <==> free && exists p :: p in was.bindings && Answers(was.heap, p, None, Some(mods), syms))
    && (handled ==> exists p ::
      Earliest(was.heap, was.bindings, None, Some(mods), syms, p) && Gripped(was, now, button, p))
  }

  /** Binding `p` is held by the button, with one more reference and its "pressed" event. */
  ghost predicate Gripped(was: World, now: World, button: nat, p: Ptr) {
    && p in was.heap && now.buttons == was.buttons + [button] && now.grips == was.grips + [p]
    && now.heap == was.heap[p := was.heap[p].(references := was.heap[p].references + 1)]
    && now.events == was.events + [Event(true, 0, button, was.heap[p].id)]
  }

  lemma NotTaken(w: World, button: nat, free: bool, mods: nat)
    requires !free || forall p :: p in w.bindings ==> !Answers(w.heap, p, None, Some(mods), [POINTER_BINDING + button])
    ensures ButtonTaken(w, w, false, button, free, mods)
  {
  }

  lemma Taken(was: World, now: World, button: nat, mods: nat, p: Ptr)
    requires Earliest(was.heap, was.bindings, None, Some(mods), [POINTER_BINDING + button], p)
    requires Gripped(was, now, button, p)
    ensures ButtonTaken(was, now, true, button, true, mods)
  {
  }

  lemma GripMeans(w: World, button: nat, p: Ptr)
    requires p in w.heap && p != NULL
    ensures Gripped(w, w.(buttons := w.buttons + [button], grips := w.grips + [p], heap := Ref(w.heap, p),
                          events := Pressing(w.heap, w.events, 0, button, p)), button, p)
  {
  }

  lemma PointerEarliest(h: Heap, bs: seq<Ptr>, code: nat, mods: nat)
    requires forall p :: p in bs ==> p in h && p != NULL
    ensures var r := PointerBinding(h, bs, code, mods);
      && (r == NULL <==> forall p :: p in bs ==> !Answers(h, p, None, Some(mods), [code]))
      && (r != NULL ==> Earliest(h, bs, None, Some(mods), [code], r))
  {
    FirstEarliest(h, bs, (b: Binding) => b.keysym == code && b.modifiers == mods, None, Some(mods), [code]);
  }

  /** Grip `i` has ended: its binding is let go, with a release event if it is still published. */
  ghost predicate Ungripped(was: World, now: World, i: nat)
    requires Tended(was) && i < |was.grips|
  {
    GripFacts(was);
    now == was.(buttons := SwapRemoved(was.buttons, i), grips := SwapRemoved(was.grips, i),
                heap := Unref(was.heap, was.grips[i]),
                events := Releasing(was.heap, was.events, 0, was.buttons[i], was.grips[i]))
  }

  lemma GripFacts(w: World)
    requires Tended(w)
    ensures |w.buttons| == |w.grips| <= GRIPS
    ensures forall i, j :: 0 <= i < j < |w.buttons| ==> w.buttons[i] != w.buttons[j]
    ensures forall i :: 0 <= i < |w.grips| ==> w.grips[i] in w.heap && w.heap[w.grips[i]].references > 0
    ensures forall p :: p in w.bindings ==> p in w.heap && p != NULL
  {
    forall i | 0 <= i < |w.grips|
      ensures w.grips[i] in w.heap && w.heap[w.grips[i]].references > 0
    {
      assert w.heap[w.grips[i]].references == Uses(PlacesOf(w), w.grips[i]);
    }
  }

  lemma ShapesOf(w: World)
    requires Tended(w)
    ensures Shapes(w.keyboards)
  {
  }

  lemma Steps(ks: seq<Keyboard>, focused: bool, sent: seq<Notice>)
    ensures InStep(ks, focused, sent) ==> Legal(sent)
  {
  }

  lemma KeysSized(w: World)
    requires Tended(w)
    ensures Sized(w.keyboards)
  {
  }

  lemma PairedOf(w: World)
    requires Tended(w)
    ensures Paired(w.events)
  {
  }

  lemma Alive(w: World)
    requires Tended(w)
    ensures forall p :: p in w.bindings || p in w.plan ==> p in w.heap && p != NULL
  {
    Apart(w);
  }

  lemma SameDomain(h: Heap, m: Link, back: Link)
    ensures Marked(h, m, back).Keys == h.Keys
  {
  }

  lemma NotYetReplaced(w: World, m: Link, back: Link, p: Ptr)
    requires p in w.heap && p !in m
    ensures p in Marked(w.heap, m, back) && Marked(w.heap, m, back)[p].replacement == NULL
  {
  }

  lemma ChosenFacts(w: World, m: Link, back: Link, p: Ptr, q: Ptr)
    requires Chosen(w, m, back, p, q)
    ensures q in w.heap && q != p && q !in w.bindings
  {
  }

  lemma RefNull(h: Heap)
    ensures Ref(h, NULL) == h
  {
  }

  lemma NothingYet(w: World)
    requires w == World(map[], [], [], [], [], [], [], 1, 1)
    ensures Tended(w)
  {
    forall p
      ensures Uses(PlacesOf(w), p) == 0
    {
    }
    assert GripsOpen(w.heap, w.plan, w.buttons, w.grips, w.events);
    assert Paired(w.events) && LatchesOpen(w.heap, w.plan, w.keyboards, w.events);
    hide Paired, GripsOpen, LatchesOpen, Uses;
  }

  /** Published bindings can be looked up. */
  lemma ActiveLive(w: World)
    requires Tended(w)
    ensures forall p :: p in w.bindings ==> p in w.heap && p != NULL
  {
  }

  /** A key that is up has no latch. */
  lemma Unlatched(w: World, i: nat, code: nat)
    requires Tended(w) && i < |w.keyboards| && code < CODES && !Pressed(w.keyboards[i], code)
    ensures w.keyboards[i].held[code] == NULL && !w.keyboards[i].consumed[code]
  {
  }

  ghost predicate Sized(ks: seq<Keyboard>) {
    forall j :: 0 <= j < |ks| ==> |ks[j].pressed| == |ks[j].consumed| == |ks[j].held| == CODES
  }

  /** The old client is told that it lost the focus, the new one which keys are shown. */
  ghost predicate Refocused(ks: seq<Keyboard>, was: bool, now: bool, sent0: seq<Notice>, sent: seq<Notice>) {
    var left := if was then sent0 + [Leave] else sent0;
    if now then
      |sent| == |left| + 1 && sent[..|left|] == left && sent[|left|].Enter?
      && forall c: nat :: c in sent[|left|].keys <==> Shown(ks, -1, c)
    else
      sent == left
  }

  function Moved(was: bool, now: bool, sent0: seq<Notice>, keys: set<nat>): seq<Notice> {
    (if was then sent0 + [Leave] else sent0) + (if now then [Enter(keys)] else [])
  }

  lemma FocusMoves(ks: seq<Keyboard>, was: bool, now: bool, sent0: seq<Notice>, keys: set<nat>)
    requires forall c: nat :: c in keys <==> Shown(ks, -1, c)
    ensures Refocused(ks, was, now, sent0, Moved(was, now, sent0, keys))
    ensures (was || InStep(ks, was, sent0)) && Legal(sent0) ==> InStep(ks, now, Moved(was, now, sent0, keys))
    ensures InStep(ks, was, sent0) ==> InStep(ks, now, Moved(was, now, sent0, keys))
  {
    var left := if was then sent0 + [Leave] else sent0;
    Steps(ks, was, sent0);
    hide InStep, Legal, Shown;
    if (was || InStep(ks, was, sent0)) && Legal(sent0) {
      FocusLost(ks, was, sent0, Leave);
      if now {
        FocusGained(ks, left, keys);
      }
    }
    assert now || Moved(was, now, sent0, keys) == left;
  }

  class Input {
    var keyboards: seq<Keyboard>
    var logical: set<nat>
    var surface: nat   // the focused surface, or 0
    var focused: bool  // whether its client listens to keys
    var sent: seq<Notice>
    var bindings: seq<Ptr>
    var plan: seq<Ptr>
    var heap: Heap
    var buttons: seq<nat>
    var grips: seq<Ptr>
    var events: seq<Event>
    var nextId: nat
    var nextDevice: nat

    function Now(): World
      reads this
    {
      World(heap, bindings, plan, keyboards, buttons, grips, events, nextId, nextDevice)
    }

    ghost predicate Valid()
      reads this
    {
      Tended(Now()) && Merged(keyboards, logical) && (focused ==> surface != 0)
    }

    /** The focused client holds what it should and every notice made sense. */
    ghost predicate Routed()
      reads this
    {
      InStep(keyboards, focused, sent)
    }

    constructor ()
      ensures Valid() && Routed() && keyboards == [] && bindings == []
      ensures plan == [] && heap == map[] && events == [] && sent == []
    {
      keyboards, logical, surface, focused, sent := [], {}, 0, false, [];
      bindings, plan, heap, buttons, grips, events, nextId, nextDevice := [], [], map[], [], [], [], 1, 1;
      new;
      NothingYet(Now());
    }

    /** `keyboard_has_pressed`. */
    method HasPressed(ignore: int, code: nat) returns (r: bool)
      requires Sized(keyboards)
      ensures r <==> Down(keyboards, ignore, code)
    {
      if code >= CODES {
        return false;
      }
      for j := 0 to |keyboards|
        invariant forall i :: 0 <= i < j && i != ignore ==> !Pressed(keyboards[i], code)
      {
        if j != ignore && keyboards[j].pressed[code] {
          assert Pressed(keyboards[j], code);
          return true;
        }
      }
      return false;
    }

    /** `keyboard_has_unconsumed`. */
    method HasUnconsumed(ignore: int, code: nat) returns (r: bool)
      requires Sized(keyboards)
      ensures r <==> Shown(keyboards, ignore, code)
    {
      if code >= CODES {
        return false;
      }
      for j := 0 to |keyboards|
        invariant forall i :: 0 <= i < j && i != ignore ==> !Unconsumed(keyboards[i], code)
      {
        if j != ignore && keyboards[j].pressed[code] && !keyboards[j].consumed[code] {
          assert Unconsumed(keyboards[j], code);
          return true;
        }
      }
      return false;
    }

    /** `keyboard_pressed`: the keys a newly focused client is told. */
    method KeysPressed() returns (keys: set<nat>)
      requires Shapes(keyboards)
      ensures forall c: nat :: c in keys <==> Shown(keyboards, -1, c)
    {
      keys := {};
      for code := 0 to CODES
        invariant forall c: nat :: c in keys <==> c < code && Shown(keyboards, -1, c)
      {
        var shown := HasUnconsumed(-1, code);
        if shown {
          keys := keys + {code};
        }
      }
    }

    /**
     * `keyboard_enter` and `seat_keyboard_enter`: focus moves to surface `to`, whose client may not listen, or to none
     * when it is 0.  Nothing happens when the surface has the focus already.
     */
    method Focus(to: nat, listens: bool)
      requires Valid()
      modifies `surface, `focused, `sent
      ensures Valid() && surface == to
      ensures to == old(surface) ==> focused == old(focused) && sent == old(sent)
      ensures to != old(surface) ==> focused == (to != 0 && listens)
      ensures to != old(surface) ==> Refocused(keyboards, old(focused), focused, old(sent), sent)
      ensures to != old(surface) && old(focused || Routed()) && old(Legal(sent)) ==> Routed()
      ensures old(Routed()) ==> Routed()
    {
      hide Tended, Merged, InStep, Shown, Legal, Refocused, Shapes;
      ShapesOf(Now());
      var keys := KeysPressed();
      if surface == to {
        return;
      }
      FocusMoves(keyboards, focused, to != 0 && listens, sent, keys);
      ghost var moved := Moved(focused, to != 0 && listens, sent, keys);
      if focused {
        sent := sent + [Leave];
      }
      surface, focused := to, to != 0 && listens;
      if focused {
        sent := sent + [Enter(keys)];
      }
      assert sent == moved;
    }

    /** `keyboard_surface_destroyed`. */
    method SurfaceGone()
      requires Valid()
      modifies `surface, `focused, `sent
      ensures Valid() && surface == 0 && !focused && sent == old(sent) + (if old(focused) then [Gone] else [])
      ensures old(Routed()) ==> Routed()
    {
      Steps(keyboards, focused, sent);
      hide Tended, Merged, InStep;
      if Routed() {
        FocusLost(keyboards, focused, sent, Gone);
      }
      if focused {
        sent := sent + [Gone];
      }
      surface, focused := 0, false;
    }

    /** `seat_keyboard_notify_key` reaches only a focused client. */
    method Notify(code: nat, down: bool)
      modifies `sent
      ensures sent == Noticed(old(sent), focused, code, down)
    {
      if focused {
        sent := sent + [if down then Press(code) else Release(code)];
      }
    }

    /** `logical_key_event_done`. */
    method LogicalKey(code: nat, down: bool, changed: bool)
      modifies `logical
      ensures logical == if !changed || code >= CODES then old(logical)
                         else if down then old(logical) + {code} else old(logical) - {code}
    {
      if changed && code < CODES {
        logical := if down then logical + {code} else logical - {code};
      }
    }

    /** `input_key` for a press of a tracked key. */
    method PressKey(i: nat, code: nat, look: Look)
      requires Valid() && i < |keyboards| && code < CODES
      modifies `keyboards, `logical, `sent, `heap, `events
      ensures Valid()
      ensures Pressed(old(keyboards[i]), code) ==>
        keyboards == old(keyboards) && heap == old(heap) && events == old(events) && sent == old(sent)
      ensures !Pressed(old(keyboards[i]), code) ==>
        PressDone(old(Now()), Now(), old(sent), sent, focused, i, code, look)
      ensures !Pressed(old(keyboards[i]), code) ==>
        PressTaken(old(Now()), Now(), old(sent), sent, focused, i, code, look)
    {
      hide Tended, Merged, RouteOf, Ref, Pressing, SetKey, Shown, Down, PressTaken;
      ghost var was := Now();
      KeyFacts(was, i, code);
      var k := keyboards[i];
      if k.pressed[code] {
        return;
      }
      var elsewhere := HasPressed(i, code);
      keyboards := keyboards[i := k.(pressed := k.pressed[code := true])];
      var route := RouteOf(heap, bindings, look);
      SetInSteps(was.keyboards, i, code, true, !route.Through?, TakenBy(route));
      PressKeeps(was, logical, i, code, !route.Through?, TakenBy(route), elsewhere);
      OthersSay(was.keyboards, keyboards, i, code);
      if route.Through? {
        var duplicate := HasUnconsumed(i, code);
        if !duplicate {
          Notify(code, true);
        }
      } else {
        keyboards := SetKey(keyboards, i, code, true, true, TakenBy(route));
        events := Pressing(heap, events, k.id, code, TakenBy(route));
        heap := Ref(heap, TakenBy(route));
      }
      LogicalKey(code, true, !elsewhere);
      PressMeans(was, Now(), old(sent), sent, focused, i, code, look);
    }

    /** `input_key` for a release of a tracked key. */
    method ReleaseKey(i: nat, code: nat, look: Look)
      requires Valid() && i < |keyboards| && code < CODES
      modifies `keyboards, `logical, `sent, `heap, `events
      ensures Valid()
      ensures !Pressed(old(keyboards[i]), code) ==>
        keyboards == old(keyboards) && heap == old(heap) && events == old(events) && sent == old(sent)
      ensures Pressed(old(keyboards[i]), code) ==>
        ReleaseDone(old(Now()), Now(), old(sent), sent, focused, i, code, look)
      ensures Sized(old(keyboards)) && (Pressed(old(keyboards[i]), code) ==>
        Released(old(Now()), Now(), old(sent), sent, focused, i, code, look))
    {
      hide Tended, Merged, Unref, Releasing, SetKey, Shown, Down, Released;
      ghost var was := Now();
      KeyFacts(was, i, code);
      var k := keyboards[i];
      if !k.pressed[code] {
        return;
      }
      keyboards := keyboards[i := k.(pressed := k.pressed[code := false])];
      OthersSay(was.keyboards, keyboards, i, code);
      var elsewhere := HasPressed(i, code);
      SetInSteps(was.keyboards, i, code, false, false, NULL);
      ReleaseKeeps(was, logical, i, code, elsewhere);
      if k.consumed[code] {
        events := Releasing(heap, events, k.id, code, k.held[code]);
        heap := Unref(heap, k.held[code]);
        keyboards := SetKey(keyboards, i, code, false, false, NULL);
      } else {
        if !Silent(look) {
          var heldElsewhere := HasUnconsumed(i, code);
          if !heldElsewhere {
            Notify(code, false);
          }
        }
      }
      LogicalKey(code, false, !elsewhere);
      ReleaseMeans(was, Now(), old(sent), sent, focused, i, code, look);
    }

    /**
     * `input_key`.  The client stays in step except when a silent mode swallows the release of a key that only this
     * keyboard was showing.
     */
    method Key(i: nat, code: nat, down: bool, look: Look)
      requires Valid() && i < |keyboards|
      modifies `keyboards, `logical, `sent, `heap, `events
      ensures Valid()
      ensures code >= CODES ==>
        Now() == old(Now()) && logical == old(logical) && sent == Noticed(old(sent), focused, code, down)
      ensures code < CODES && Pressed(old(keyboards[i]), code) == down ==> Now() == old(Now()) && sent == old(sent)
      ensures code < CODES && down && !Pressed(old(keyboards[i]), code) ==>
        PressTaken(old(Now()), Now(), old(sent), sent, focused, i, code, look)
      ensures Sized(old(keyboards)) && (code < CODES && !down && Pressed(old(keyboards[i]), code) ==>
        Released(old(Now()), Now(), old(sent), sent, focused, i, code, look))
      ensures old(Routed()) ==> (Routed() <==> !Swallowed(old(keyboards), focused, i, code, down, look))
    {
      hide Tended, Merged, InStep, PressTaken, Released, PressDone, ReleaseDone;
      ghost var was, sent0 := Now(), sent;
      KeysSized(was);
      if code >= CODES {
        Notify(code, down);
        if InStep(keyboards, focused, sent0) {
          UntrackedRouted(keyboards, focused, code, sent0, sent, down);
        }
      } else if down {
        PressKey(i, code, look);
        if InStep(was.keyboards, focused, sent0) && !Pressed(was.keyboards[i], code) {
          PressRouted(was, Now(), sent0, sent, focused, i, code, look);
        }
      } else {
        ReleaseKey(i, code, look);
        if InStep(was.keyboards, focused, sent0) && Pressed(was.keyboards[i], code) {
          ReleaseRouted(was, Now(), sent0, sent, focused, i, code, look);
        }
      }
    }

    /** One key of `keyboard_latches_finish`. */
    method FinishKey(i: nat, code: nat)
      requires Valid() && i < |keyboards| && code < CODES
      modifies `keyboards, `logical, `sent, `heap, `events
      ensures Valid()
      ensures !Pressed(old(keyboards[i]), code) ==> Now() == old(Now()) && sent == old(sent) && logical == old(logical)
      ensures Pressed(old(keyboards[i]), code) ==>
        ReleaseDone(old(Now()), Now(), old(sent), sent, focused, i, code, UNPLUGGED)
      ensures old(Routed()) ==> Routed()
    {
      hide Tended, Merged, Unref, Releasing, InStep, SetKey, Shown, Down, ReleaseDone;
      ghost var was, sent0 := Now(), sent;
      KeyFacts(was, i, code);
      var k := keyboards[i];
      if !k.pressed[code] {
        return;  // a key that is up has no latch, and clearing it changes nothing
      }
      var consumed, p := k.consumed[code], k.held[code];
      if consumed {
        events := Releasing(heap, events, k.id, code, p);
      }
      keyboards := keyboards[i := k.(pressed := k.pressed[code := false])];
      OthersSay(was.keyboards, keyboards, i, code);
      var elsewhere := HasPressed(i, code);
      var shownElsewhere := HasUnconsumed(i, code);
      SetInSteps(was.keyboards, i, code, false, false, NULL);
      ReleaseKeeps(was, logical, i, code, elsewhere);
      LogicalKey(code, false, !elsewhere);
      if !consumed && !shownElsewhere {
        Notify(code, false);
      }
      heap := Unref(heap, p);
      keyboards := SetKey(keyboards, i, code, false, false, NULL);
      ReleaseIs(was, Now(), sent0, sent, focused, i, code);
      if InStep(was.keyboards, focused, sent0) {
        ReleaseRouted(was, Now(), sent0, sent, focused, i, code, UNPLUGGED);
      }
    }

    /** `keyboard_destroy`: the keys of the device come up and its latches are let go, then it leaves the list. */
    method Unplug(i: nat)
      requires Valid() && i < |keyboards|
      modifies `keyboards, `logical, `sent, `heap, `events
      ensures Valid()
      ensures keyboards == old(keyboards[..i]) + old(keyboards[i + 1..])
      ensures old(Routed()) ==> Routed()
    {
      hide Tended, Merged, InStep;
      ghost var was := keyboards;
      for code := 0 to CODES
        invariant Valid() && (old(Routed()) ==> Routed())
        invariant OnlyThis(was, keyboards, i) && UpBelow(keyboards[i], code)
      {
        ghost var now := keyboards;
        KeyFacts(Now(), i, code);
        FinishKey(i, code);
        Progressed(now, keyboards, i, code);
      }
      UpAll(Now(), i);
      Unplugged(Now(), i);
      UnpluggedKeys(keyboards, i, focused, sent, logical);
      keyboards := keyboards[..i] + keyboards[i + 1..];
    }

    /** `input_add` for a keyboard; fails when device ids are exhausted. */
    method Plug() returns (ok: bool)
      requires Valid()
      modifies `keyboards, `nextDevice
      ensures Valid() && ok == (old(nextDevice) != 0)
      ensures keyboards == if ok then [FreshKeyboard(old(nextDevice))] + old(keyboards) else old(keyboards)
      ensures nextDevice == NextId(old(nextDevice))
      ensures old(Routed()) ==> Routed()
    {
      if nextDevice == 0 {
        return false;
      }
      ghost var ks := [FreshKeyboard(nextDevice)] + keyboards;
      hide Tended, Merged, InStep;
      Plugged(Now(), NextId(nextDevice));
      UnpluggedKeys(ks, 0, focused, sent, logical);
      assert ks[..0] + ks[1..] == keyboards;
      keyboards, nextDevice := [FreshKeyboard(nextDevice)] + keyboards, NextId(nextDevice);
      ok := true;
    }

    /** `keyboard_latches_cancel`: no key holds a binding any more, without an event; keys stay consumed. */
    method CancelLatches()
      requires Valid()
      modifies `keyboards, `heap
      ensures Valid() && SameKeys(old(keyboards), keyboards)
      ensures forall j, c :: 0 <= j < |keyboards| && 0 <= c < |keyboards[j].held| ==> keyboards[j].held[c] == NULL
      ensures CountsOnly(old(heap), heap)
      ensures old(Routed()) ==> Routed()
    {
      hide Tended, Merged, InStep, Unref, CountsOnly;
      ghost var was, heap0 := keyboards, heap;
      assert CountsOnly(heap0, heap) by { Nothing(heap0); }
      for j := 0 to |keyboards|
        invariant Valid() && SameKeys(was, keyboards) && CountsOnly(heap0, heap)
        invariant EmptyBelow(keyboards, j, 0)
      {
        for code := 0 to CODES
          invariant Valid() && SameKeys(was, keyboards) && CountsOnly(heap0, heap)
          invariant EmptyBelow(keyboards, j, code)
        {
          Forgets(Now(), j, code);
          SameKeysInStep(keyboards, SetHeld(keyboards, j, code, NULL), focused, sent, logical);
          UnrefCountsOnly(heap, keyboards[j].held[code]);
          CountsOnlyTwice(heap0, heap, Unref(heap, keyboards[j].held[code]));
          heap := Unref(heap, keyboards[j].held[code]);
          keyboards := SetHeld(keyboards, j, code, NULL);
        }
        EmptyRow(Now(), j);
      }
      SameKeysInStep(was, keyboards, focused, sent, logical);
    }

    /** `tomoe_bind`, or `tomoe_present_bind` when `staged`; fails when ids run out or nothing is being replaced. */
    method Bind(wish: Wish, p: Ptr, staged: bool, replacing: bool) returns (ok: bool)
      requires Valid() && p != NULL && p !in heap
      modifies `bindings, `plan, `heap, `nextId
      ensures Valid() && ok == (old(nextId) != 0 && (staged ==> replacing))
      ensures Now() == if ok then Added(old(Now()), p, wish, staged) else old(Now())
      ensures ok ==> p in heap && WishOf(heap[p]) == wish && heap[p].id == old(nextId) && heap[p].active == !staged
      ensures ok ==> nextId == if old(nextId) == ID_MAX then 0 else old(nextId) + 1
      ensures ok ==> bindings == (if staged then [] else [p]) + old(bindings)
      ensures ok ==> plan == (if staged then [p] else []) + old(plan)
      ensures old(Routed()) ==> Routed()
    {
      hide Tended, Merged;
      if (staged && !replacing) || nextId == 0 {
        return false;
      }
      AddedTended(Now(), p, wish, staged);
      heap := heap[p := Made(wish, nextId, !staged)];
      if staged {
        plan := [p] + plan;
      } else {
        bindings := [p] + bindings;
      }
      nextId := NextId(nextId);
      ok := true;
    }

    /** `release_binding_list` on the published bindings, deactivating them. */
    method ReleaseBindings()
      requires Valid()
      modifies `bindings, `heap
      ensures Valid() && bindings == [] && (old(Routed()) ==> Routed())
    {
      hide Tended, Merged;
      while bindings != []
        invariant Valid() && (old(Routed()) ==> Routed())
        decreases |bindings|
      {
        PoppedTended(Now());
        var p := bindings[0];
        heap := Unref(heap[p := heap[p].(active := false)], p);
        bindings := bindings[1..];
      }
    }

    /** `tomoe_clear_bindings`: no binding is published, none is held by a key, and none that lives on is active. */
    method ClearBindings()
      requires Valid()
      modifies `keyboards, `bindings, `heap
      ensures Valid() && bindings == [] && SameKeys(old(keyboards), keyboards)
      ensures forall j, c :: 0 <= j < |keyboards| && 0 <= c < |keyboards[j].held| ==> keyboards[j].held[c] == NULL
      ensures forall p :: p in heap ==> !heap[p].active
      ensures old(Routed()) ==> Routed()
    {
      CancelLatches();
      ReleaseBindings();
    }

    /** `presentation_bindings_finish`: a plan that is given up leaves nothing behind. */
    method FinishPlan()
      requires Valid()
      modifies `plan, `heap
      ensures Valid() && plan == [] && (old(Routed()) ==> Routed())
    {
      hide Tended, Merged;
      while plan != []
        invariant Valid() && (old(Routed()) ==> Routed())
        decreases |plan|
      {
        DroppedTended(Now());
        heap := Unref(heap, plan[0]);
        plan := plan[1..];
      }
    }

    /** `pointer_binding_button`. */
    method Button(button: nat, down: bool, mods: nat, grabbed: bool) returns (handled: bool)
      requires Valid()
      modifies `buttons, `grips, `heap, `events
      ensures Valid() && (old(Routed()) ==> Routed())
      ensures handled <==> button in old(buttons) || TakesButton(old(Now()), button, down, mods, grabbed) != NULL
      ensures var p := TakesButton(old(Now()), button, down, mods, grabbed);
        p != NULL ==> Now() == old(Now()).(buttons := old(buttons) + [button], grips := old(grips) + [p],
                                           heap := Ref(old(heap), p),
                                           events := Pressing(old(heap), old(events), 0, button, p))
      ensures forall i :: 0 <= i < |old(buttons)| && old(buttons)[i] == button && !down ==>
        Ungripped(old(Now()), Now(), i)
      ensures !handled || (button in old(buttons) && down) ==> Now() == old(Now())
      ensures button !in old(buttons) ==>
        ButtonTaken(old(Now()), Now(), handled, button, down && !grabbed && |old(grips)| < GRIPS, mods)
    {
      hide Tended, Merged, SwapRemoved, Unref, Releasing, Pressing, Ref, Answers, Earliest, ButtonTaken, Gripped;
      hide InStep;
      ghost var was := Now();
      GripFacts(was);
      PointerEarliest(heap, bindings, POINTER_BINDING + button, mods);
      for i := 0 to |buttons|
        invariant Now() == was && forall j :: 0 <= j < i ==> buttons[j] != button
      {
        if buttons[i] == button {
          if !down {
            GripDropped(was, i);
            events := Releasing(heap, events, 0, button, grips[i]);
            heap := Unref(heap, grips[i]);
            grips := SwapRemoved(grips, i);
            buttons := SwapRemoved(buttons, i);
          }
          return true;
        }
      }
      ghost var free := down && !grabbed && |grips| < GRIPS;
      if !free || PointerBinding(heap, bindings, POINTER_BINDING + button, mods) == NULL {
        NotTaken(was, button, free, mods);
      }
      if !down || grabbed || |grips| == GRIPS {
        return false;
      }
      var p := PointerBinding(heap, bindings, POINTER_BINDING + button, mods);
      if p == NULL {
        return false;
      }
      GripTaken(was, button, p);
      GripMeans(was, button, p);
      events := Pressing(heap, events, 0, button, p);
      heap := Ref(heap, p);
      buttons := buttons + [button];
      grips := grips + [p];
      Taken(was, Now(), button, mods, p);
      return true;
    }

    /** One round of the matching loop of `presentation_input_publish`. */
    method MatchBinding(i: nat, ghost w: World, ghost m: Link, ghost back: Link)
      returns (ghost m': Link, ghost back': Link)
      requires Tended(w) && Now() == w.(heap := Marked(w.heap, m, back))
      requires Partners(w, m, back) && Exhausted(w, m, back, i)
      requires i < |bindings| && bindings[i] !in m
      modifies `heap
      ensures heap == Marked(w.heap, m', back') && Partners(w, m', back') && Exhausted(w, m', back', i + 1)
      ensures m'.Keys <= m.Keys + {bindings[i]}
    {
      hide Tended, Marked, Partners, Exhausted, Chosen, Equivalent;
      Alive(w);
      SameDomain(w.heap, m, back);
      var p := bindings[i];
      NotYetReplaced(w, m, back, p);
      heap := heap[p := heap[p].(replacement := NULL)];
      assert heap == Marked(w.heap, m, back);
      var q := FindEquivalent(heap, plan, heap[p]);
      MatchStep(w, m, back, i, q);
      m', back' := m, back;
      if q != NULL {
        ChosenPartners(w, m, back, p, q);
        ChosenExhausted(w, m, back, i, q);
        ChosenMarked(w, m, back, p, q);
        ChosenFacts(w, m, back, p, q);
        heap := heap[q := heap[q].(matched := true, id := heap[p].id)];
        heap := heap[p := heap[p].(replacement := q)];
        m', back' := m[p := q], back[q := p];
      }
    }

    /** The first loop of `presentation_input_publish`: pairs published bindings with planned equivalents. */
    method MatchBindings() returns (ghost m: Link, ghost back: Link)
      requires Tended(Now())
      modifies `heap
      ensures Partners(old(Now()), m, back) && Exhausted(old(Now()), m, back, |bindings|)
      ensures heap == Marked(old(heap), m, back)
    {
      hide Tended, Marked, Partners, Exhausted;
      ghost var w := Now();
      Apart(w);
      NotMarkedYet(w);
      m, back := map[], map[];
      for i := 0 to |bindings|
        invariant heap == Marked(w.heap, m, back) && Partners(w, m, back) && Exhausted(w, m, back, i)
        invariant forall j :: i <= j < |bindings| ==> bindings[j] !in m
      {
        m, back := MatchBinding(i, w, m, back);
      }
    }

    /** The replaced bindings become inactive and forget their partners. */
    method RetireBindings(ghost w: Places)
      requires Counted(heap, w) && forall i :: 0 <= i < |bindings| ==> bindings[i] in heap
      modifies `heap
      ensures heap == Retired(old(heap), bindings) && Counted(heap, w)
    {
      ghost var h := heap;
      RetiredNone(h);
      RetiredCounted(h, bindings, w);
      assert bindings[..|bindings|] == bindings;
      hide Counted, Retired;
      for i := 0 to |bindings|
        invariant heap == Retired(h, bindings[..i])
      {
        assert bindings[..i + 1] == bindings[..i] + [bindings[i]];
        RetiredOne(h, bindings[..i], bindings[i]);
        heap := heap[bindings[i] := heap[bindings[i]].(active := false, replacement := NULL)];
      }
    }

    /** `release_binding_list` on the retired bindings. */
    method ReleaseRetired(ghost w: World)
      requires Counted(heap, With(w, keyboards)) && bindings == w.bindings && NULL !in bindings
      modifies `bindings, `heap
      ensures bindings == [] && CountsOnly(old(heap), heap) && Counted(heap, With(w.(bindings := []), keyboards))
    {
      ghost var h := heap;
      Nothing(h);
      assert w.(bindings := w.bindings) == w;
      hide Counted, CountsOnly, With, Unref;
      while bindings != []
        invariant NULL !in bindings && CountsOnly(h, heap) && Counted(heap, With(w.(bindings := bindings), keyboards))
        decreases |bindings|
      {
        UnlinkCounted(w, heap, bindings, keyboards);
        UnrefCountsOnly(heap, bindings[0]);
        CountsOnlyTwice(h, heap, Unref(heap, bindings[0]));
        heap := Unref(heap, bindings[0]);
        bindings := bindings[1..];
      }
    }

    /** The planned bindings become active. */
    method PromotePlan(ghost w: World)
      requires plan == w.plan && NULL !in w.plan && Counted(heap, With(w.(bindings := []), keyboards))
      modifies `heap
      ensures heap == Promoted(old(heap), plan) && Counted(heap, With(w.(bindings := []), keyboards))
    {
      ghost var h := heap;
      PlanLives(h, w, keyboards);
      PromotedNone(h);
      PromotedCounted(h, plan, With(w.(bindings := []), keyboards));
      assert plan[..|plan|] == plan;
      hide Counted, Promoted;
      for i := 0 to |plan|
        invariant heap == Promoted(h, plan[..i])
      {
        assert plan[..i + 1] == plan[..i] + [plan[i]];
        PromotedOne(h, plan[..i], plan[i]);
        heap := heap[plan[i] := heap[plan[i]].(active := true, matched := false)];
      }
    }

    /** One latch of `keyboard_latches_adopt`. */
    method AdoptLatch(ghost w: World, ghost m: Link, ghost back: Link, j: nat, code: nat)
      requires Tended(w) && Partners(w, m, back) && j < |keyboards| && code < CODES
      requires Adopted(m, w.keyboards, keyboards, j, code)
      requires CountsOnly(Marked(w.heap, m, back), heap) && Counted(heap, With(w, keyboards))
      modifies `keyboards, `heap
      ensures |keyboards| == |old(keyboards)| && Adopted(m, w.keyboards, keyboards, j, code + 1)
      ensures CountsOnly(Marked(w.heap, m, back), heap) && Counted(heap, With(w, keyboards))
    {
      hide Tended, Marked, Partners, Adopted, CountsOnly, Counted, Unref, Ref, With;
      LatchedBinding(w, m, back, heap, keyboards, j, code);
      AdoptedStep(m, w.keyboards, keyboards, j, code);
      var p := keyboards[j].held[code];
      if !keyboards[j].consumed[code] || p == NULL {
        return;
      }
      AdoptCounted(w, heap, keyboards, j, code, Heir(m, p));
      AdoptCountsOnly(Marked(w.heap, m, back), heap, p, Heir(m, p));
      if !heap[p].active || heap[p].replacement == NULL {
        RefNull(heap);
        heap := Unref(heap, p);
        keyboards := SetHeld(keyboards, j, code, NULL);
      } else {
        var q := heap[p].replacement;
        heap := Ref(heap, q);
        keyboards := SetHeld(keyboards, j, code, q);
        heap := Unref(heap, p);
      }
    }

    /** `keyboard_latches_adopt`. */
    method AdoptLatches(ghost w: World, ghost m: Link, ghost back: Link)
      requires Tended(w) && Partners(w, m, back) && Now() == w.(heap := Marked(w.heap, m, back))
      modifies `keyboards, `heap
      ensures Adopted(m, w.keyboards, keyboards, |keyboards|, 0)
      ensures CountsOnly(Marked(w.heap, m, back), heap) && Counted(heap, With(w, keyboards))
    {
      MarkedCounted(w, m, back);
      AdoptStart(w, m);
      Nothing(heap);
      hide Tended, Marked, Partners, Adopted, CountsOnly, Counted, With;
      for j := 0 to |keyboards|
        invariant Adopted(m, w.keyboards, keyboards, j, 0)
        invariant CountsOnly(Marked(w.heap, m, back), heap) && Counted(heap, With(w, keyboards))
      {
        for code := 0 to CODES
          invariant j < |keyboards| && Adopted(m, w.keyboards, keyboards, j, code)
          invariant CountsOnly(Marked(w.heap, m, back), heap) && Counted(heap, With(w, keyboards))
        {
          AdoptLatch(w, m, back, j, code);
        }
        AdoptedRow(m, w.keyboards, keyboards, j);
      }
    }

    /**
     * `presentation_input_publish` for a plan that replaces the bindings.  Equivalent bindings are paired one to one as
     * far as possible; a partner keeps the id, and a held key moves to its binding's partner or lets go.
     */
    method Publish() returns (ghost m: Link, ghost back: Link)
      requires Valid()
      modifies `keyboards, `bindings, `plan, `heap
      ensures Valid() && (old(Routed()) ==> Routed())
      ensures Partners(old(Now()), m, back) && Exhausted(old(Now()), m, back, |old(bindings)|)
      ensures bindings == old(plan) && plan == []
      ensures Adopted(m, old(keyboards), keyboards, |keyboards|, 0)
      ensures CountsOnly(Replaced(old(heap), back, old(plan)), heap)
    {
      hide Tended, Partners, Exhausted, CountsOnly, Counted, Adopted, Marked, Retired, Promoted, Replaced, With;
      hide Merged, InStep;
      ghost var w := Now();
      NoNullBinding(w);
      m, back := MatchBindings();
      AdoptLatches(w, m, back);
      ghost var h2 := heap;
      BindingsAlive(heap, w, keyboards);
      RetireBindings(With(w, keyboards));
      ReleaseRetired(w);
      FieldsReplaced(w, m, back, h2, heap);
      PromotePlan(w);
      bindings, plan := plan, [];
      MovedOver(w, heap, keyboards);
      EndTended(w, m, back, heap, keyboards);
      SameKeysInStep(w.keyboards, keyboards, focused, sent, logical);
    }
  }
}
