/** The session lock (native/lock.c, ext-session-lock-v1). */
module Lock {
  import opened Options

  datatype LockState = Unlocked | Waiting | Locking | Locked

  datatype Screen = Screen(id: nat, active: bool, off: bool, rendered: bool)

  /** A lock surface: the screen it covers, unless that is gone, and whether it is mapped. */
  datatype Cover = Cover(resource: nat, screen: Option<nat>, mapped: bool)

  /**
   * What happened: `locked` and `finished` events sent, and as history when locking began, a frame was shown, a new
   * lock took over, or an unlock was accepted.  `SentLocked` keeps the screens that had to be covered at that moment.
   */
  datatype Event =
    | Began
    | Frame(screen: nat)
    | TookOver(lock: nat)
    | SentLocked(lock: nat, screens: set<nat>)
    | SentFinished(lock: nat)
    | Opened(lock: nat)

  /** Locking has begun and no unlock was accepted since. */
  function Secured(es: seq<Event>): bool {
    if es == [] then false
    else if es[|es| - 1].Began? then true
    else if es[|es| - 1].Opened? then false
    else Secured(es[..|es| - 1])
  }

  /** A frame of the screen was shown since locking last began. */
  function ShownSince(es: seq<Event>, screen: nat): bool {
    if es == [] then false
    else if es[|es| - 1] == Frame(screen) then true
    else if es[|es| - 1].Began? then false
    else ShownSince(es[..|es| - 1], screen)
  }

  ghost predicate Told(es: seq<Event>, lock: nat) {
    exists i :: 0 <= i < |es| && es[i].SentLocked? && es[i].lock == lock
  }

  /** The lock object that was sent `locked` last. */
  function LastTold(es: seq<Event>): Option<nat> {
    if es == [] then None
    else if es[|es| - 1].SentLocked? then Some(es[|es| - 1].lock)
    else LastTold(es[..|es| - 1])
  }

  /** An event that may come after the events `es`. */
  ghost predicate Rightful(es: seq<Event>, e: Event) {
    match e
    case SentLocked(lock, screens) =>
      && Secured(es) && !Told(es, lock)
      && ((es != [] && es[|es| - 1] == TookOver(lock)) || forall s :: s in screens ==> ShownSince(es, s))
    case Opened(lock) => Secured(es) && LastTold(es) == Some(lock)
    case TookOver(_) => Secured(es)
    case Frame(_) => Secured(es)
    case Began => !Secured(es)
    case SentFinished(_) => true
  }

  ghost predicate History(es: seq<Event>) {
    forall i :: 0 <= i < |es| ==> Rightful(es[..i], es[i])
  }

  lemma Happens(es: seq<Event>, e: Event)
    requires History(es) && Rightful(es, e)
    ensures History(es + [e])
    ensures Secured(es + [e]) == (e.Began? || (!e.Opened? && Secured(es)))
    ensures forall s :: ShownSince(es + [e], s) == (e == Frame(s) || (!e.Began? && ShownSince(es, s)))
    ensures forall lock :: Told(es + [e], lock) <==> Told(es, lock) || (e.SentLocked? && e.lock == lock)
    ensures LastTold(es + [e]) == if e.SentLocked? then Some(e.lock) else LastTold(es)
  {
    var more := es + [e];
    assert more[..|es|] == es;
    forall i | 0 <= i < |more|
      ensures Rightful(more[..i], more[i])
    {
      if i < |es| {
        assert more[..i] == es[..i];
      }
    }
    forall lock
      ensures Told(more, lock) <==> Told(es, lock) || (e.SentLocked? && e.lock == lock)
    {
      if i :| 0 <= i < |es| && es[i].SentLocked? && es[i].lock == lock {
        assert more[i] == es[i];
      }
      if e.SentLocked? && e.lock == lock {
        assert more[|es|] == e;
      }
    }
  }

  // ----- what every history promises

  /** `locked` is sent at most once to a lock object. */
  lemma LockedOnce(es: seq<Event>, i: nat, j: nat)
    requires History(es) && i < j < |es| && es[i].SentLocked? && es[j].SentLocked?
    ensures es[i].lock != es[j].lock
  {
    assert Rightful(es[..j], es[j]);
    assert es[..j][i] == es[i];
  }

  /**
   * A session that was secured and no longer is was opened in between, by the current lock object: the one that was
   * sent `locked` last.
   */
  lemma {:induction false} OpenedByTheLocked(es: seq<Event>, i: nat, j: nat)
    requires History(es) && i <= j <= |es| && Secured(es[..i]) && !Secured(es[..j])
    ensures exists k :: i <= k < j && es[k].Opened? && LastTold(es[..k]) == Some(es[k].lock)
  {
    assert es[..j] != [];
    assert es[..j][..j - 1] == es[..j - 1];
    if es[j - 1].Opened? {
      assert Rightful(es[..j - 1], es[j - 1]);
    } else {
      OpenedByTheLocked(es, i, j - 1);
    }
  }

  /** The lock object that was sent `locked` last was sent it, and no other one since. */
  lemma {:induction false} LastToldMeans(es: seq<Event>, lock: nat)
    requires LastTold(es) == Some(lock)
    ensures exists k :: 0 <= k < |es| && es[k].SentLocked? && es[k].lock == lock && NoneTold(es, k + 1)
  {
    var last := |es| - 1;
    if es[last].SentLocked? {
      assert NoneTold(es, last + 1);
    } else {
      LastToldMeans(es[..last], lock);
      var k :| 0 <= k < last && es[..last][k].SentLocked? && es[..last][k].lock == lock && NoneTold(es[..last], k + 1);
      assert es[k] == es[..last][k];
      forall m | k + 1 <= m < |es|
        ensures !es[m].SentLocked?
      {
        assert m < last ==> es[m] == es[..last][m];
      }
      assert NoneTold(es, k + 1);
    }
  }

  ghost predicate NoneTold(es: seq<Event>, from: nat) {
    forall m :: from <= m < |es| ==> !es[m].SentLocked?
  }

  /** Between the beginning of locking at `b` and `n`, with no other beginning, the screen showed a frame at `f`. */
  ghost predicate FrameBetween(es: seq<Event>, b: nat, f: nat, n: nat, screen: nat) {
    b < f < n <= |es| && es[b] == Began && es[f] == Frame(screen) && forall k :: b < k < n ==> !es[k].Began?
  }

  /** Without a take-over, `locked` is sent only once every screen in question has shown a frame since locking began. */
  lemma CoveredBeforeLocked(es: seq<Event>, i: nat, screen: nat)
    requires History(es) && i < |es| && es[i].SentLocked? && screen in es[i].screens
    requires i == 0 || es[i - 1] != TookOver(es[i].lock)
    ensures exists b, f :: FrameBetween(es, b, f, i, screen)
  {
    assert Rightful(es[..i], es[i]);
    assert es[..i] != [] ==> es[..i][|es[..i]| - 1] == es[i - 1];
    var b, f := FrameSinceBegan(es, i, screen);
  }

  lemma ShownStep(es: seq<Event>, n: nat, screen: nat)
    requires n <= |es| && ShownSince(es[..n], screen)
    ensures n > 0 && (es[n - 1] == Frame(screen) || (!es[n - 1].Began? && ShownSince(es[..n - 1], screen)))
  {
    assert n > 0 ==> es[..n][..n - 1] == es[..n - 1];
  }

  lemma FrameSecured(es: seq<Event>, k: nat)
    requires History(es) && k < |es| && es[k].Frame?
    ensures Secured(es[..k])
  {
    assert Rightful(es[..k], es[k]);
  }

  lemma {:induction false} FrameSinceBegan(es: seq<Event>, n: nat, screen: nat) returns (b: nat, f: nat)
    requires History(es) && n <= |es| && ShownSince(es[..n], screen)
    ensures FrameBetween(es, b, f, n, screen)
  {
    hide History, ShownSince, Secured, Rightful;
    ShownStep(es, n, screen);
    if es[n - 1] == Frame(screen) {
      FrameSecured(es, n - 1);
      b := LastBegan(es, n - 1);
      f := n - 1;
    } else {
      b, f := FrameSinceBegan(es, n - 1, screen);
    }
  }

  lemma {:induction false} LastBegan(es: seq<Event>, n: nat) returns (b: nat)
    requires n <= |es| && Secured(es[..n])
    ensures b < n && es[b] == Began && forall k :: b < k < n ==> !es[k].Began?
  {
    assert es[..n][..n - 1] == es[..n - 1];
    if es[n - 1].Began? {
      b := n - 1;
    } else {
      b := LastBegan(es, n - 1);
    }
  }

  // ----- the handlers

  /** The screens that have to show the lock before it counts. */
  function Needed(screens: seq<Screen>): set<nat> {
    set i | 0 <= i < |screens| && screens[i].active && !screens[i].off :: screens[i].id
  }

  lemma NeededIs(screens: seq<Screen>, s: nat)
    ensures s in Needed(screens) <==>
      exists i :: 0 <= i < |screens| && screens[i].active && !screens[i].off && screens[i].id == s
  {
  }

  lemma NeededKept(was: seq<Screen>, now: seq<Screen>)
    requires |now| == |was| && forall i :: 0 <= i < |now| ==> now[i] == was[i].(rendered := now[i].rendered)
    ensures Needed(now) == Needed(was)
  {
    forall s | s in Needed(was)
      ensures s in Needed(now)
    {
      var i :| 0 <= i < |was| && was[i].active && !was[i].off && was[i].id == s;
      assert now[i].id == s;
    }
  }

  /** While locking, a screen marked as rendered has shown a frame. */
  ghost predicate Marked(screens: seq<Screen>, es: seq<Event>) {
    forall i :: 0 <= i < |screens| && screens[i].rendered ==> ShownSince(es, screens[i].id)
  }

  /** A mapped lock surface is on the screen. */
  ghost predicate Covered(covers: seq<Cover>, screen: nat) {
    exists k :: 0 <= k < |covers| && covers[k].screen == Some(screen) && covers[k].mapped
  }

  /** What a request for a lock surface gets: nothing, a protocol error, or the surface. */
  datatype Answer = Ignored | DuplicateOutput | AlreadyConstructed | RoleTaken | Made

  ghost predicate HasSurface(covers: seq<Cover>, screen: Option<nat>) {
    exists k :: 0 <= k < |covers| && covers[k].screen == screen
  }

  /** Every screen the lock waits for has shown a frame since locking began. */
  ghost predicate AllShown(events: seq<Event>, screens: seq<Screen>) {
    forall s :: s in Needed(screens) ==> ShownSince(events, s)
  }

  /** `surfaces_ready`. */
  ghost predicate AllCovered(screens: seq<Screen>, covers: seq<Cover>) {
    forall i :: 0 <= i < |screens| && screens[i].active ==> Covered(covers, screens[i].id)
  }

  /** The screens with nothing rendered. */
  ghost predicate Blanked(was: seq<Screen>, screens: seq<Screen>) {
    |screens| == |was| && forall i :: 0 <= i < |screens| ==> screens[i] == was[i].(rendered := false)
  }

  /** What the current lock object is told when the session is locked. */
  ghost function ToldOf(lock: Option<nat>, screens: seq<Screen>): seq<Event> {
    if lock.Some? then [SentLocked(lock.value, Needed(screens))] else []
  }

  /** What locking that begins is told: with no screen to wait for, the lock object hears of it at once. */
  ghost function BeganWith(es: seq<Event>, lock: Option<nat>, screens: seq<Screen>): seq<Event> {
    es + [Began] + (if Needed(screens) == {} then ToldOf(lock, screens) else [])
  }

  /** Locking has begun: nothing counts as rendered, and without a screen to wait for the session is locked at once. */
  ghost predicate JustBegun(lock: Option<nat>, state: LockState, before: seq<Screen>, after: seq<Screen>,
                            es: seq<Event>, events: seq<Event>) {
    && state == (if Needed(before) == {} then Locked else Locking)
    && Blanked(before, after) && events == BeganWith(es, lock, before)
  }

  /** Locking begins exactly for a waiting lock whose screens are all covered; otherwise nothing happens. */
  ghost predicate Begins(lock: Option<nat>, covers: seq<Cover>, was: LockState, state: LockState, before: seq<Screen>,
                         after: seq<Screen>, es: seq<Event>, events: seq<Event>) {
    if was.Waiting? && AllCovered(before, covers) then
      JustBegun(lock, state, before, after, es, events)
    else
      state == was && after == before && events == es
  }

  /** A frame of `screen` is shown while locking. */
  ghost predicate FrameMarked(screen: nat, before: seq<Screen>, after: seq<Screen>) {
    && |after| == |before|
    && forall i :: 0 <= i < |after| ==>
      after[i] == before[i].(rendered := before[i].rendered || before[i].id == screen)
  }

  /** Every active powered screen has rendered. */
  ghost predicate AllRendered(screens: seq<Screen>) {
    forall k :: 0 <= k < |screens| && screens[k].active && !screens[k].off ==> screens[k].rendered
  }

  class Session {
    var state: LockState
    var lock: Option<nat>
    var confirmed: bool
    var deadline: bool
    var screens: seq<Screen>
    var covers: seq<Cover>
    /** Lock resources alive, and whether they are bound to the session or were refused. */
    var resources: map<nat, bool>
    var events: seq<Event>
    /** Every resource id ever used. */
    ghost var used: set<nat>

    ghost predicate Valid()
      reads this
    {
      && History(events) && (state.Locking? || state.Locked? <==> Secured(events))
      && (state.Locking? ==> Marked(screens, events))
      && (lock.Some? ==> lock.value in resources && resources[lock.value] && (confirmed <==> Told(events, lock.value)))
      && (lock.None? ==> !confirmed)
      && (state.Waiting? ==> lock.Some? && !confirmed)
      && (confirmed ==> state.Locked? && LastTold(events) == lock)
      && (state.Unlocked? ==> lock.None?)
      && resources.Keys <= used && forall r :: Told(events, r) ==> r in used
    }

    constructor ()
      ensures Valid() && state == Unlocked && lock == None && events == [] && resources == map[]
    {
      state, lock, confirmed, deadline, screens := Unlocked, None, false, false, [];
      covers, resources, events, used := [], map[], [], {};
    }

    method Record(e: Event)
      requires History(events) && Rightful(events, e)
      modifies `events
      ensures events == old(events) + [e] && History(events)
      ensures Secured(events) == (e.Began? || (!e.Opened? && Secured(old(events))))
      ensures forall s :: ShownSince(events, s) == (e == Frame(s) || (!e.Began? && ShownSince(old(events), s)))
      ensures forall r: nat :: Told(events, r) <==> Told(old(events), r) || (e.SentLocked? && e.lock == r)
      ensures LastTold(events) == if e.SentLocked? then Some(e.lock) else LastTold(old(events))
    {
      Happens(events, e);
      events := events + [e];
    }

    /** `confirm`. */
    method Confirm()
      requires History(events) && Secured(events)
      requires lock.Some? && !confirmed ==> !Told(events, lock.value)
      requires lock.Some? && confirmed ==> Told(events, lock.value)
      requires lock.Some? && !confirmed ==>
        (events != [] && events[|events| - 1] == TookOver(lock.value)) || AllShown(events, screens)
      modifies `state, `confirmed, `events
      ensures state == Locked && confirmed == lock.Some? && History(events) && Secured(events)
      ensures events ==
        old(events) + (if lock.Some? && !old(confirmed) then [SentLocked(lock.value, Needed(screens))] else [])
      ensures forall r: nat :: Told(events, r) <==> Told(old(events), r) || (lock == Some(r) && !old(confirmed))
      ensures LastTold(events) == if lock.Some? && !old(confirmed) then lock else LastTold(old(events))
    {
      hide History, Secured, ShownSince, Told, LastTold, Needed;
      state := Locked;
      if lock.Some? && !confirmed {
        Record(SentLocked(lock.value, Needed(screens)));
      }
      confirmed := lock.Some?;
    }

    /** `begin_locking`: nothing counts as rendered yet; with no screen to wait for the lock is confirmed at once. */
    method BeginLocking()
      requires History(events) && !Secured(events) && !confirmed
      requires lock.Some? ==> !Told(events, lock.value)
      modifies `state, `confirmed, `deadline, `screens, `events
      ensures !deadline && Secured(events) && History(events) && Needed(screens) == Needed(old(screens))
      ensures JustBegun(lock, state, old(screens), screens, old(events), events)
      ensures state.Locking? ==> !confirmed
      ensures state.Locked? ==> confirmed == lock.Some?
      ensures forall r: nat :: Told(events, r) <==> Told(old(events), r) || (lock == Some(r) && confirmed)
      ensures confirmed ==> LastTold(events) == lock
    {
      hide History, Secured, ShownSince, Told, LastTold;
      deadline := false;
      state := Locking;
      var any := false;
      for i := 0 to |screens|
        invariant |screens| == |old(screens)| && events == old(events) && state == Locking && !confirmed && !deadline
        invariant forall k :: 0 <= k < |screens| ==>
          screens[k] == if k < i then old(screens[k]).(rendered := false) else old(screens[k])
        invariant any <==> exists k :: 0 <= k < i && screens[k].active && !screens[k].off
      {
        screens := screens[i := screens[i].(rendered := false)];
        any := any || (screens[i].active && !screens[i].off);
      }
      assert any ==> exists k :: 0 <= k < |screens| && screens[k].id in Needed(screens);
      NeededKept(old(screens), screens);
      Record(Began);
      if !any {
        assert Needed(screens) == {};
        Confirm();
      }
    }

    /** `lock`: one lock object at a time; a session already secured is taken over. */
    method LockRequest(id: nat, timer: bool)
      requires Valid() && id !in used
      modifies this
      ensures Valid() && id in resources && resources[id] == old(lock.None?) && id in used && old(used) <= used
      ensures old(lock.Some?) ==> lock == old(lock) && state == old(state) && events == old(events) + [SentFinished(id)]
      ensures old(lock.Some?) ==> screens == old(screens) && deadline == old(deadline) && confirmed == old(confirmed)
      ensures covers == old(covers) && used == old(used) + {id} && resources == old(resources)[id := old(lock.None?)]
      ensures old(lock.None?) && old(state.Locking? || state.Locked?) ==> deadline == old(deadline)
      ensures old(lock.None?) && old(!state.Locking? && !state.Locked?) ==> deadline == timer
      ensures old(lock.None?) ==> lock == Some(id) && old(events) <= events
      ensures old(lock.None?) && old(state.Locking? || state.Locked?) ==> state == Locked && confirmed
      ensures old(lock.None?) && old(state.Locking? || state.Locked?) ==>
        events == old(events) + [TookOver(id), SentLocked(id, Needed(screens))] && screens == old(screens)
      ensures old(lock.None?) && old(!state.Locking? && !state.Locked?) && timer ==>
        state == Waiting && deadline && events == old(events) && screens == old(screens)
      ensures old(lock.None?) && old(!state.Locking? && !state.Locked?) && !timer ==>
        JustBegun(lock, state, old(screens), screens, old(events), events)
    {
      hide History, Secured, ShownSince, Told, LastTold, Needed;
      used := used + {id};
      resources := resources[id := lock.None?];
      if lock.Some? {
        Record(SentFinished(id));
        return;
      }
      lock := Some(id);
      if state.Locking? || state.Locked? {
        Record(TookOver(id));
        Confirm();
        return;
      }
      state := Waiting;
      deadline := timer;
      if !timer {
        BeginLocking();
      }
    }

    /** `surfaces_ready`: every active screen has a mapped lock surface. */
    method SurfacesReady() returns (ready: bool)
      ensures ready <==> AllCovered(screens, covers)
    {
      for i := 0 to |screens|
        invariant forall k :: 0 <= k < i && screens[k].active ==> Covered(covers, screens[k].id)
      {
        if !screens[i].active {
          continue;
        }
        var found := false;
        for j := 0 to |covers|
          invariant found <==> exists k :: 0 <= k < j && covers[k].screen == Some(screens[i].id) && covers[k].mapped
        {
          found := found || (covers[j].screen == Some(screens[i].id) && covers[j].mapped);
        }
        if !found {
          return false;
        }
      }
      ready := true;
    }

    /** `lock_refresh`: a waiting lock begins once all active screens are covered. */
    method Refresh()
      requires Valid()
      modifies `state, `confirmed, `deadline, `screens, `events
      ensures Valid() && old(events) <= events
      ensures Begins(lock, covers, old(state), state, old(screens), screens, old(events), events)
    {
      hide History, Secured, ShownSince, Told, LastTold, Needed, Rightful;
      if state.Waiting? {
        var ready := SurfacesReady();
        if ready {
          BeginLocking();
        }
      }
    }

    /** `lock_surface_commit`: surface `k` is mapped or unmapped. */
    method SurfaceCommit(k: nat, mapped: bool)
      requires Valid() && k < |covers|
      modifies `covers, `state, `confirmed, `deadline, `screens, `events
      ensures Valid() && old(events) <= events
      ensures covers == old(covers)[k := old(covers[k]).(mapped := mapped)]
      ensures Begins(lock, covers, old(state), state, old(screens), screens, old(events), events)
    {
      covers := covers[k := covers[k].(mapped := mapped)];
      Refresh();
    }

    /**
     * `get_lock_surface`: only the current lock, one surface a screen, and a surface without a buffer or another role.
     * `screen` is missing when the output is gone.
     */
    method GetLockSurface(resource: nat, screen: Option<nat>, surface: nat, buffered: bool, taken: bool)
      returns (answer: Answer)
      requires Valid()
      modifies `covers
      ensures Valid()
      ensures answer == Ignored <==> old(lock) != Some(resource) || screen.None?
      ensures answer == DuplicateOutput <==>
        old(lock) == Some(resource) && screen.Some? && HasSurface(old(covers), screen)
      ensures answer == AlreadyConstructed ==> buffered
      ensures answer == RoleTaken ==> taken && !buffered
      ensures answer == Made ==> !taken && !buffered
      ensures covers == if answer == Made then old(covers) + [Cover(surface, screen, false)] else old(covers)
    {
      if lock != Some(resource) || screen.None? {
        return Ignored;
      }
      for k := 0 to |covers|
        invariant forall j :: 0 <= j < k ==> covers[j].screen != screen
      {
        if covers[k].screen == screen {
          return DuplicateOutput;
        }
      }
      if buffered {
        return AlreadyConstructed;
      }
      if taken {
        return RoleTaken;
      }
      covers := covers + [Cover(surface, screen, false)];
      answer := Made;
    }

    /** `lock_surface_free`: a lock surface goes away with its resource or its surface, while its lock stays. */
    method SurfaceGone(k: nat)
      requires Valid() && k < |covers|
      modifies `covers
      ensures Valid() && covers == old(covers[..k]) + old(covers[k + 1..])
    {
      covers := covers[..k] + covers[k + 1..];
    }

    /** `lock_surface_output_destroy`: the surface stays and covers nothing. */
    method ScreenGone(k: nat)
      requires Valid() && k < |covers|
      modifies `covers
      ensures Valid() && covers == old(covers)[k := old(covers[k]).(screen := None)]
      ensures forall s: nat :: Covered(covers, s) ==> Covered(old(covers), s)
    {
      covers := covers[k := covers[k].(screen := None)];
    }

    /** `lock_frame_rendered`. */
    method FrameRendered(screen: nat)
      requires Valid()
      modifies `state, `confirmed, `screens, `events
      ensures Valid() && old(events) <= events
      ensures !old(state.Locking?) ==> state == old(state) && screens == old(screens) && events == old(events)
      ensures old(state.Locking?) ==> FrameMarked(screen, old(screens), screens)
      ensures old(state.Locking?) ==> state == (if AllRendered(screens) then Locked else Locking)
      ensures old(state.Locking?) ==>
        events == old(events) + [Frame(screen)] + (if AllRendered(screens) then ToldOf(lock, screens) else [])
      ensures state != old(state) ==> AllShown(events, screens)
    {
      hide History, Secured, ShownSince, Told, LastTold;
      if !state.Locking? {
        return;
      }
      Record(Frame(screen));
      ghost var shown := events;
      var all := true;
      for i := 0 to |screens|
        invariant |screens| == |old(screens)| && events == shown && state == Locking && confirmed == old(confirmed)
        invariant forall k :: 0 <= k < |screens| ==>
          var was := old(screens[k]);
          screens[k] == was.(rendered := was.rendered || (k < i && was.id == screen))
        invariant Marked(screens, events)
        invariant all <==> forall k :: 0 <= k < i && screens[k].active && !screens[k].off ==> screens[k].rendered
      {
        if screens[i].id == screen {
          screens := screens[i := screens[i].(rendered := true)];
        }
        if screens[i].active && !screens[i].off && !screens[i].rendered {
          all := false;
        }
      }
      if all {
        Confirm();
        forall s | s in Needed(screens)
          ensures ShownSince(events, s)
        {
          assert ShownSince(shown, s);
          StillShown(shown, events, s);
        }
      }
    }

    /** `lock_deadline`. */
    method Deadline()
      requires Valid()
      modifies `state, `confirmed, `deadline, `screens, `events
      ensures Valid() && !deadline && old(events) <= events
      ensures old(state.Waiting?) ==> JustBegun(lock, state, old(screens), screens, old(events), events)
      ensures !old(state.Waiting?) ==> state == old(state) && events == old(events) && screens == old(screens)
    {
      hide History, Secured, ShownSince, Told, LastTold, Needed, Rightful;
      deadline := false;
      if state.Waiting? {
        BeginLocking();
      }
    }

    /** `lock_forget`. */
    method Forget()
      modifies `lock, `confirmed, `covers
      ensures lock == None && !confirmed && covers == []
    {
      lock, confirmed, covers := None, false, [];
    }

    /** `lock_resource_destroy`: a client that goes away leaves the session secured, or secures it if it was waiting. */
    method ResourceDestroyed(id: nat)
      requires Valid() && id in resources
      modifies this
      ensures Valid() && resources == old(resources) - {id} && old(events) <= events && used == old(used)
      ensures lock == if old(lock) == Some(id) then None else old(lock)
      ensures covers == if old(lock) == Some(id) then [] else old(covers)
      ensures old(lock) == Some(id) && old(state.Waiting?) ==>
        JustBegun(None, state, old(screens), screens, old(events), events)
      ensures old(lock) != Some(id) || !old(state.Waiting?) ==>
        state == old(state) && events == old(events) && screens == old(screens) && deadline == old(deadline)
      ensures old(lock) != Some(id) ==> confirmed == old(confirmed)
      ensures old(lock) == Some(id) ==> !confirmed
    {
      hide History, Secured, ShownSince, Told, LastTold, Needed, Rightful;
      resources := resources - {id};
      if lock != Some(id) {
        return;
      }
      Forget();
      if state.Waiting? {
        BeginLocking();
      }
    }

    /**
     * `unlock_and_destroy`: an error before `locked` was sent; accepted only from the current lock; otherwise the
     * object just goes away.
     */
    method UnlockAndDestroy(id: nat) returns (error: bool)
      requires Valid() && id in resources
      modifies this
      ensures Valid() && used == old(used)
      ensures error == (old(lock) == Some(id) && !old(confirmed))
      ensures !error && old(lock) == Some(id) ==>
        state == Unlocked && lock == None && LastTold(old(events)) == Some(id) && events == old(events) + [Opened(id)]
      ensures error || old(lock) != Some(id) ==> state == old(state) && events == old(events) && lock == old(lock)
      ensures resources == if error then old(resources) else old(resources) - {id}
      ensures screens == old(screens)
      ensures covers == if !error && old(lock) == Some(id) then [] else old(covers)
      ensures !deadline || (deadline == old(deadline) && (error || old(lock) != Some(id)))
      ensures error || old(lock) != Some(id) ==> confirmed == old(confirmed) && deadline == old(deadline)
    {
      hide History, Secured, ShownSince, Told, LastTold, Needed;
      if lock == Some(id) && !confirmed {
        return true;
      }
      if lock == Some(id) {
        Forget();
        deadline := false;
        state := Unlocked;
        Record(Opened(id));
      }
      resources := resources - {id};
      error := false;
    }

    // ----- what the rest of the compositor does to the screens

    /** Screens come, go, and change their activity and power at any time; a new one has not rendered. */
    method ScreensChange(now: seq<Screen>)
      requires Valid()
      requires forall i :: 0 <= i < |now| && now[i].rendered ==>
        exists j :: 0 <= j < |screens| && screens[j].id == now[i].id && screens[j].rendered
      modifies `screens
      ensures Valid() && screens == now
    {
      forall i | 0 <= i < |now| && now[i].rendered && state.Locking?
        ensures ShownSince(events, now[i].id)
      {
        var j :| 0 <= j < |screens| && screens[j].id == now[i].id && screens[j].rendered;
        assert ShownSince(events, screens[j].id);
      }
      screens := now;
    }
  }

  lemma StillShown(es: seq<Event>, more: seq<Event>, screen: nat)
    requires ShownSince(es, screen)
    requires more == es || (|more| == |es| + 1 && more[..|es|] == es && !more[|es|].Began?)
    ensures ShownSince(more, screen)
  {
  }
}
