/** Which keys are down, and which of them the focused client sees (native/input.c). */
module Keys {
  import opened Pointers
  import opened Bindings

  /** What a focused client is told; with `Gone` its focused surface is destroyed. */
  datatype Notice = Press(code: nat) | Release(code: nat) | Enter(keys: set<nat>) | Leave | Gone

  /** A notice that ends the focus, or begins a new one. */
  predicate Refocuses(n: Notice) {
    n.Enter? || n.Leave? || n.Gone?
  }

  /** The keys a client holds after one more notice. */
  function HeldAfter(before: set<nat>, n: Notice): set<nat> {
    match n
    case Press(code) => before + {code}
    case Release(code) => before - {code}
    case Enter(keys) => keys
    case Leave => {}
    case Gone => {}
  }

  /** The keys a client holds that believes everything it was told. */
  function Held(sent: seq<Notice>): set<nat> {
    if sent == [] then {} else HeldAfter(Held(sent[..|sent| - 1]), sent[|sent| - 1])
  }

  /** A tracked key is pressed only when up and released only when down. */
  predicate Proper(before: set<nat>, n: Notice) {
    match n
    case Press(code) => code < CODES ==> code !in before
    case Release(code) => code < CODES ==> code in before
    case Enter(_) => true
    case Leave => true
    case Gone => true
  }

  ghost predicate Legal(sent: seq<Notice>) {
    forall i :: 0 <= i < |sent| ==> Proper(Held(sent[..i]), sent[i])
  }

  lemma Told(sent: seq<Notice>, n: Notice)
    requires Legal(sent) && Proper(Held(sent), n)
    ensures Legal(sent + [n]) && Held(sent + [n]) == HeldAfter(Held(sent), n)
  {
    var more := sent + [n];
    assert more[..|sent|] == sent;
    forall i | 0 <= i < |more|
      ensures Proper(Held(more[..i]), more[i])
    {
      if i < |sent| {
        assert more[..i] == sent[..i];
      }
    }
  }

  /** Between two presses of a tracked key there is a release of it or a change of focus. */
  lemma PressesAlternate(sent: seq<Notice>, i: nat, j: nat, code: nat)
    requires Legal(sent) && i < j < |sent| && sent[i] == Press(code) && sent[j] == Press(code) && code < CODES
    ensures exists k :: i < k < j && (sent[k] == Release(code) || Refocuses(sent[k]))
  {
    Dropped(sent, i, j, code);
  }

  lemma {:induction false} Dropped(sent: seq<Notice>, i: nat, j: nat, code: nat)
    requires i < j <= |sent| && sent[i] == Press(code) && code !in Held(sent[..j])
    ensures exists k :: i < k < j && (sent[k] == Release(code) || Refocuses(sent[k]))
  {
    assert sent[..j][..j - 1] == sent[..j - 1];
    if sent[j - 1] == Release(code) || Refocuses(sent[j - 1]) {
      assert j - 1 != i;
    } else {
      assert j - 1 != i;
      Dropped(sent, i, j - 1, code);
    }
  }

  // ----- keyboards

  predicate Shape(k: Keyboard) {
    && |k.pressed| == CODES && |k.consumed| == CODES && |k.held| == CODES && k.id > 0
    && forall c :: 0 <= c < CODES ==> (k.consumed[c] ==> k.pressed[c]) && (k.held[c] != NULL ==> k.consumed[c])
  }

  ghost predicate Shapes(ks: seq<Keyboard>) {
    && (forall j :: 0 <= j < |ks| ==> Shape(ks[j]))
    && (forall i, j :: 0 <= i < j < |ks| ==> ks[i].id != ks[j].id)
  }

  /** A key that is down and not consumed by a binding. */
  predicate Unconsumed(k: Keyboard, code: nat) {
    code < |k.pressed| && code < |k.consumed| && k.pressed[code] && !k.consumed[code]
  }

  predicate Pressed(k: Keyboard, code: nat) {
    code < |k.pressed| && k.pressed[code]
  }

  /** `keyboard_has_pressed`, ignoring keyboard `ignore`. */
  ghost predicate Down(ks: seq<Keyboard>, ignore: int, code: nat) {
    code < CODES && exists j :: 0 <= j < |ks| && j != ignore && Pressed(ks[j], code)
  }

  /** `keyboard_has_unconsumed`. */
  ghost predicate Shown(ks: seq<Keyboard>, ignore: int, code: nat) {
    code < CODES && exists j :: 0 <= j < |ks| && j != ignore && Unconsumed(ks[j], code)
  }

  /** The merged keyboard has exactly the keys down that some keyboard has down. */
  ghost predicate Merged(ks: seq<Keyboard>, logical: set<nat>) {
    forall c: nat :: c in logical <==> Down(ks, -1, c)
  }

  /** The focused client holds exactly the tracked keys that some keyboard has down and not consumed. */
  ghost predicate InSync(ks: seq<Keyboard>, sent: seq<Notice>) {
    forall c: nat :: c < CODES ==> (c in Held(sent) <==> Shown(ks, -1, c))
  }

  /** Only key `code` of keyboard `i` may differ. */
  ghost predicate ChangedAt(was: seq<Keyboard>, ks: seq<Keyboard>, i: nat, code: nat) {
    && i < |was| && |ks| == |was| && (forall j :: 0 <= j < |ks| && j != i ==> ks[j] == was[j])
    && ks[i].id == was[i].id
    && forall c :: 0 <= c < CODES && c != code ==>
      (Pressed(ks[i], c) <==> Pressed(was[i], c)) && (Unconsumed(ks[i], c) <==> Unconsumed(was[i], c))
  }

  lemma Elsewhere(was: seq<Keyboard>, ks: seq<Keyboard>, i: nat, code: nat)
    requires ChangedAt(was, ks, i, code)
    ensures forall c: nat :: c != code ==>
      (Down(ks, -1, c) <==> Down(was, -1, c)) && (Shown(ks, -1, c) <==> Shown(was, -1, c))
    ensures Down(ks, i, code) <==> Down(was, i, code)
    ensures Shown(ks, i, code) <==> Shown(was, i, code)
  {
    forall c: nat, j | 0 <= j < |ks| && c < CODES && (c != code || j != i)
      ensures (Pressed(ks[j], c) <==> Pressed(was[j], c)) && (Unconsumed(ks[j], c) <==> Unconsumed(was[j], c))
    {
    }
  }

  lemma OneMore(ks: seq<Keyboard>, i: nat, code: nat)
    requires i < |ks| && code < CODES
    ensures Down(ks, -1, code) <==> Down(ks, i, code) || Pressed(ks[i], code)
    ensures Shown(ks, -1, code) <==> Shown(ks, i, code) || Unconsumed(ks[i], code)
  {
  }

  /** The merged keyboard after key `code` of keyboard `i` went down or up. */
  lemma MergedAfter(was: seq<Keyboard>, ks: seq<Keyboard>, i: nat, code: nat, logical: set<nat>, after: set<nat>)
    requires Merged(was, logical) && ChangedAt(was, ks, i, code) && code < CODES
    requires after == if Down(was, i, code) || Pressed(ks[i], code) then logical + {code} else logical - {code}
    ensures Merged(ks, after)
  {
    Elsewhere(was, ks, i, code);
    OneMore(ks, i, code);
  }

  /** The client stays in step exactly when it is told of a key it should hold differently. */
  lemma InSyncAfter(was: seq<Keyboard>, ks: seq<Keyboard>, i: nat, code: nat, sent: seq<Notice>, more: seq<Notice>)
    requires Legal(sent) && InSync(was, sent) && ChangedAt(was, ks, i, code) && code < CODES
    requires more == sent || more == sent + [if Unconsumed(ks[i], code) then Press(code) else Release(code)]
    requires more != sent ==> !Shown(was, i, code) && (Unconsumed(was[i], code) <==> !Unconsumed(ks[i], code))
    ensures Legal(more)
    ensures InSync(ks, more) <==>
      (more != sent || Shown(was, i, code) || (Unconsumed(was[i], code) <==> Unconsumed(ks[i], code)))
  {
    Elsewhere(was, ks, i, code);
    OneMore(was, i, code);
    OneMore(ks, i, code);
    if more != sent {
      Told(sent, more[|sent|]);
    }
    assert InSync(ks, more) ==> (code in Held(more) <==> Shown(ks, -1, code));
  }

  /** Keys the compositor does not track do not matter. */
  lemma Untracked(ks: seq<Keyboard>, code: nat, sent: seq<Notice>, more: seq<Notice>)
    requires Legal(sent) && InSync(ks, sent) && code >= CODES
    requires more == sent + [Press(code)] || more == sent + [Release(code)]
    ensures Legal(more) && InSync(ks, more)
  {
    Told(sent, more[|sent|]);
  }

  /** The focused client is in step and every notice so far made sense. */
  ghost predicate InStep(ks: seq<Keyboard>, focused: bool, sent: seq<Notice>) {
    Legal(sent) && if focused then InSync(ks, sent) else Held(sent) == {}
  }

  /** A client that loses the focus holds nothing, whatever it missed before. */
  lemma FocusLost(ks: seq<Keyboard>, focused: bool, sent: seq<Notice>, n: Notice)
    requires Legal(sent) && (n.Leave? || n.Gone?)
    requires focused || InStep(ks, false, sent)
    ensures InStep(ks, false, if focused then sent + [n] else sent)
  {
    Told(sent, n);
  }

  /** A client that is told the shown keys on entering is in step. */
  lemma FocusGained(ks: seq<Keyboard>, sent: seq<Notice>, keys: set<nat>)
    requires InStep(ks, false, sent) && forall c: nat :: c in keys <==> Shown(ks, -1, c)
    ensures InStep(ks, true, sent + [Enter(keys)])
  {
    Told(sent, Enter(keys));
  }

  /** `seat_keyboard_notify_key` reaches only a focused client. */
  function Noticed(sent: seq<Notice>, focused: bool, code: nat, down: bool): seq<Notice> {
    if focused then sent + [if down then Press(code) else Release(code)] else sent
  }

  /**
   * After a key changed, the client is in step if and only if it was told, or another keyboard shows the key anyway, or
   * what this keyboard shows did not change.
   */
  lemma InStepAfter(was: seq<Keyboard>, ks: seq<Keyboard>, i: nat, code: nat, focused: bool, sent: seq<Notice>,
                    more: seq<Notice>, told: bool)
    requires InStep(was, focused, sent) && ChangedAt(was, ks, i, code) && code < CODES
    requires more == if told then Noticed(sent, focused, code, Unconsumed(ks[i], code)) else sent
    requires told ==> !Shown(was, i, code) && (Unconsumed(was[i], code) <==> !Unconsumed(ks[i], code))
    ensures InStep(ks, focused, more) <==>
      (!focused || told || Shown(was, i, code) || (Unconsumed(was[i], code) <==> Unconsumed(ks[i], code)))
  {
    if focused {
      InSyncAfter(was, ks, i, code, sent, more);
    }
  }

  /** Dropping or adding a keyboard with every key up changes nothing. */
  lemma UnpluggedKeys(ks: seq<Keyboard>, i: nat, focused: bool, sent: seq<Notice>, logical: set<nat>)
    requires i < |ks| && forall c :: 0 <= c < |ks[i].pressed| ==> !ks[i].pressed[c]
    ensures var ls := ks[..i] + ks[i + 1..];
      (Merged(ks, logical) <==> Merged(ls, logical)) && (InStep(ks, focused, sent) <==> InStep(ls, focused, sent))
  {
    var ls := ks[..i] + ks[i + 1..];
    forall c: nat
      ensures Down(ls, -1, c) <==> Down(ks, -1, c)
      ensures Shown(ls, -1, c) <==> Shown(ks, -1, c)
    {
      if j :| 0 <= j < |ks| && Pressed(ks[j], c) {
        assert ls[if j < i then j else j - 1] == ks[j];
      }
      if j :| 0 <= j < |ks| && Unconsumed(ks[j], c) {
        assert ls[if j < i then j else j - 1] == ks[j];
      }
      forall j | 0 <= j < |ls|
        ensures ls[j] == ks[if j < i then j else j + 1]
      {
      }
    }
  }

  lemma SameKeysInStep(was: seq<Keyboard>, ks: seq<Keyboard>, focused: bool, sent: seq<Notice>, logical: set<nat>)
    requires |ks| == |was| && forall j :: 0 <= j < |ks| ==> ks[j] == was[j].(held := ks[j].held)
    ensures Merged(ks, logical) <==> Merged(was, logical)
    ensures InStep(ks, focused, sent) <==> InStep(was, focused, sent)
  {
    forall c: nat
      ensures Down(ks, -1, c) <==> Down(was, -1, c)
      ensures Shown(ks, -1, c) <==> Shown(was, -1, c)
    {
    }
  }
}
