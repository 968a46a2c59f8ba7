/** Output requests that wait for the next configuration (native/output.c). */
module OutputRequests {
  import opened Ids
  import opened Options

  /** `SCREEN_MODE_FIXED` with its mode, if it has one, `SCREEN_MODE_CUSTOM`, or neither. */
  datatype Mode = Fixed(mode: Option<nat>) | Custom(width: int, height: int, refresh: int) | Unset

  /** `struct screen_state`: a committed field is `Some`.  `gamma` stands for the fields no request carries over. */
  datatype ScreenState = ScreenState(enabled: Option<bool>, mode: Option<Mode>, scale: Option<int>,
                                     transform: Option<int>, vrr: Option<bool>, gamma: Option<nat>)

  const EMPTY := ScreenState(None, None, None, None, None, None)

  /** A mode that can be set again: a fixed one must exist. */
  predicate Usable(s: ScreenState) {
    s.mode.Some? ==> s.mode.value.Custom? || (s.mode.value.Fixed? && s.mode.value.mode.Some?)
  }

  function Later<T>(first: Option<T>, second: Option<T>): Option<T> {
    if second.Some? then second else first
  }

  /** `set_output_state_fields` with mode, scale, transform, adaptive sync, and `enabled` if asked for. */
  function Set(d: ScreenState, s: ScreenState, enabled: bool): Option<ScreenState> {
    if !Usable(s) then None
    else Some(ScreenState(if enabled then Later(d.enabled, s.enabled) else d.enabled, Later(d.mode, s.mode),
                          Later(d.scale, s.scale), Later(d.transform, s.transform), Later(d.vrr, s.vrr), d.gamma))
  }

  predicate HasRequestFields(s: ScreenState) {
    s.mode.Some? || s.scale.Some? || s.transform.Some? || s.vrr.Some?
  }

  /**
   * One output.  As history, `log` lists every request it accepted and `cleared` counts those that no longer wait.
   * Of the configuration being made, `source` is the state `pending` was copied from and `settings` what was set in it
   * since; `begun` is the request id when it was begun, `included` counts the requests laid into `source`, and
   * `snapshot` tells whether `tomoe_output_hold` replaced it.
   */
  datatype Output = Output(initial: ScreenState, deferred: ScreenState, pending: ScreenState, waiting: bool, id: nat,
                           admitted: bool, configured: bool, pendingConfigured: bool, hold: bool,
                           log: seq<ScreenState>, cleared: nat,
                           source: ScreenState, settings: ScreenState, begun: nat, included: nat, snapshot: bool)

  /** What `tomoe_outputs_apply` captures of an output before it commits. */
  datatype Capture = Capture(id: nat, hold: bool, state: ScreenState)

  /** The fields a request can set. */
  datatype Field = ModeField | ScaleField | TransformField | VrrField

  predicate Sets(s: ScreenState, f: Field) {
    match f
    case ModeField => s.mode.Some?
    case ScaleField => s.scale.Some?
    case TransformField => s.transform.Some?
    case VrrField => s.vrr.Some?
  }

  /** Two states have the same field. */
  predicate Agree(s: ScreenState, t: ScreenState, f: Field) {
    match f
    case ModeField => s.mode == t.mode
    case ScaleField => s.scale == t.scale
    case TransformField => s.transform == t.transform
    case VrrField => s.vrr == t.vrr
  }

  /** Request `k` is the last one in the list that sets the field. */
  ghost predicate LastWriter(rs: seq<ScreenState>, k: nat, f: Field) {
    k < |rs| && Sets(rs[k], f) && forall j :: k < j < |rs| ==> !Sets(rs[j], f)
  }

  // ----- what `deferred` must be

  /** The fields that requests are laid over. */
  function Carried(s: ScreenState): ScreenState {
    s.(gamma := None)
  }

  /** One state with a request laid over it. */
  function Over(d: ScreenState, r: ScreenState): ScreenState {
    ScreenState(d.enabled, Later(d.mode, r.mode), Later(d.scale, r.scale), Later(d.transform, r.transform),
                Later(d.vrr, r.vrr), d.gamma)
  }

  /** Requests laid over a state, the last writer of each field winning. */
  function Overlaid(d: ScreenState, rs: seq<ScreenState>): ScreenState {
    if rs == [] then d else Over(Overlaid(d, rs[..|rs| - 1]), rs[|rs| - 1])
  }

  /** The last request that sets a field decides it. */
  lemma {:induction false} LastWriterWins(d: ScreenState, rs: seq<ScreenState>, k: nat, f: Field)
    requires LastWriter(rs, k, f)
    ensures Agree(Overlaid(d, rs), rs[k], f)
  {
    if k < |rs| - 1 {
      LastWriterWins(d, rs[..|rs| - 1], k, f);
    }
  }

  /** A field that no request sets stays as it was. */
  lemma {:induction false} NoWriter(d: ScreenState, rs: seq<ScreenState>, f: Field)
    requires forall k :: 0 <= k < |rs| ==> !Sets(rs[k], f)
    ensures Agree(Overlaid(d, rs), d, f)
  {
    if rs != [] {
      NoWriter(d, rs[..|rs| - 1], f);
    }
  }

  /** Laying requests over a state is laying their sum over it. */
  lemma {:induction false} OverlaidSum(d: ScreenState, rs: seq<ScreenState>)
    ensures Overlaid(d, rs) == Over(d, Overlaid(EMPTY, rs))
  {
    if rs != [] {
      OverlaidSum(d, rs[..|rs| - 1]);
    }
  }

  /** Requests laid over a state that has some of them already. */
  lemma OverlaidAgain(d: ScreenState, a: seq<ScreenState>, b: seq<ScreenState>)
    ensures Overlaid(Overlaid(d, a), a + b) == Overlaid(d, a + b)
  {
    OverlaidTwo(d, a, b);
    OverlaidTwo(Overlaid(d, a), a, b);
    OverlaidSum(d, a);
    OverlaidSum(Overlaid(d, a), a);
  }

  lemma {:induction false} OverlaidTwo(d: ScreenState, a: seq<ScreenState>, b: seq<ScreenState>)
    ensures Overlaid(d, a + b) == Overlaid(Overlaid(d, a), b)
  {
    if b == [] {
      assert a + b == a;
    } else {
      assert (a + b)[..|a + b| - 1] == a + b[..|b| - 1];
      OverlaidTwo(d, a, b[..|b| - 1]);
    }
  }

  lemma {:induction false} OverlaidUsable(d: ScreenState, rs: seq<ScreenState>)
    requires Usable(d) && forall k :: 0 <= k < |rs| ==> Usable(rs[k])
    ensures Usable(Overlaid(d, rs)) && Overlaid(d, rs).gamma == d.gamma && Overlaid(d, rs).enabled == d.enabled
  {
    if rs != [] {
      OverlaidUsable(d, rs[..|rs| - 1]);
    }
  }

  /**
   * Ids count the accepted requests, and while any of them waits `deferred` is the initial state with all waiting ones
   * laid over it.
   */
  ghost predicate Faithful(o: Output) {
    && o.id == |o.log| <= ID_MAX && o.cleared <= |o.log| && Usable(o.initial)
    && (forall k :: 0 <= k < |o.log| ==> Usable(o.log[k]))
    && (o.waiting <==> o.cleared < |o.log|)
    && (o.waiting ==> o.deferred == Overlaid(Carried(o.initial), o.log[o.cleared..]))
    && (!o.waiting ==> o.deferred == EMPTY)
  }

  // ----- `store_output_request`

  /** A request asks for something exactly when it sets one of the four fields. */
  lemma RequestFieldsIff(r: ScreenState)
    ensures HasRequestFields(r) <==> exists f :: Sets(r, f)
  {
    if HasRequestFields(r) {
      assert Sets(r, ModeField) || Sets(r, ScaleField) || Sets(r, TransformField) || Sets(r, VrrField);
    }
  }

  /** The state a stored request leaves, or nothing when it cannot be kept. */
  function Stored(o: Output, r: ScreenState): Option<Output> {
    if !HasRequestFields(r) then Some(o)
    else
      var copied := Set(EMPTY, if o.waiting then o.deferred else o.initial, true);
      if copied.None? then None
      else
        var deferred := Set(copied.value, r, false);
        if deferred.None? || o.id == ID_MAX then None
        else Some(o.(deferred := deferred.value, waiting := true, id := o.id + 1, log := o.log + [r]))
  }

  /** An output with one more request. */
  function Asked(o: Output, r: ScreenState): Output {
    o.(deferred := Over(Carried(if o.waiting then o.deferred else o.initial), r), waiting := true,
       id := o.id + 1, log := o.log + [r])
  }

  lemma OverlaidOne(d: ScreenState, rs: seq<ScreenState>, r: ScreenState)
    ensures Overlaid(d, rs + [r]) == Over(Overlaid(d, rs), r)
  {
    assert (rs + [r])[..|rs|] == rs;
  }

  lemma SetOver(d: ScreenState, r: ScreenState)
    requires Usable(d) && Usable(r)
    ensures Set(EMPTY, d, true) == Some(Carried(d)) && Set(Carried(d), r, false) == Some(Over(Carried(d), r))
  {
  }

  lemma StoredValue(o: Output, r: ScreenState)
    requires Faithful(o) && HasRequestFields(r) && Usable(r) && o.id < ID_MAX
    ensures Usable(o.deferred) && Usable(o.initial)
    ensures Stored(o, r) == Some(Asked(o, r))
  {
    if o.waiting {
      OverlaidUsable(Carried(o.initial), o.log[o.cleared..]);
    }
    hide Usable, Overlaid, Set, Over;
    UsableEmpty();
    SetOver(if o.waiting then o.deferred else o.initial, r);
  }

  lemma UsableEmpty()
    ensures Usable(EMPTY)
  {
  }

  lemma StoredNone(o: Output, r: ScreenState)
    requires Faithful(o) && HasRequestFields(r) && (!Usable(r) || o.id == ID_MAX)
    ensures Stored(o, r).None?
  {
  }

  /** A request is refused only without a usable mode or when ids are exhausted; otherwise it is kept. */
  lemma StoredFaithful(o: Output, r: ScreenState)
    requires Faithful(o)
    ensures Stored(o, r).None? <==> HasRequestFields(r) && (!Usable(r) || o.id == ID_MAX)
    ensures Stored(o, r).Some? ==> Faithful(Stored(o, r).value)
    ensures Stored(o, r).Some? && HasRequestFields(r) ==> Stored(o, r).value.id == o.id + 1
  {
    if HasRequestFields(r) {
      if !Usable(r) || o.id == ID_MAX {
        StoredNone(o, r);
      } else {
        StoredValue(o, r);
        StillFaithful(o, r);
      }
    }
  }

  lemma StillFaithful(o: Output, r: ScreenState)
    requires Faithful(o) && Usable(r) && o.id < ID_MAX && (o.waiting ==> Usable(o.deferred))
    ensures Faithful(Asked(o, r))
  {
    hide Overlaid, Over, Usable, Carried;
    var more := o.log + [r];
    if o.waiting {
      assert more[o.cleared..] == o.log[o.cleared..] + [r];
    } else {
      assert more[o.cleared..] == [] + [r];
      OverlaidNone(Carried(o.initial));
    }
    var waiting := more[o.cleared..][..|more[o.cleared..]| - 1];
    OverlaidOne(Carried(o.initial), waiting, r);
    CarriedBase(o.initial);
    OverlaidCarried(Carried(o.initial), waiting);
  }

  lemma OverlaidNone(d: ScreenState)
    ensures Overlaid(d, []) == d
  {
  }

  lemma CarriedBase(d: ScreenState)
    ensures Carried(d).gamma.None?
  {
  }

  lemma {:induction false} OverlaidCarried(d: ScreenState, rs: seq<ScreenState>)
    requires d.gamma.None?
    ensures Carried(Overlaid(d, rs)) == Overlaid(d, rs)
  {
    if rs != [] {
      OverlaidCarried(d, rs[..|rs| - 1]);
    }
  }

  // ----- apply

  function Captured(o: Output): Capture {
    Capture(if o.waiting then o.id else 0, o.hold, if o.waiting then o.deferred else EMPTY)
  }

  /** Since the capture only requests were stored; what counts as admitted and configured may have changed. */
  ghost predicate Since(o: Output, c: Capture, n: Output) {
    && Faithful(o) && Faithful(n) && c == Captured(o) && o.log <= n.log && n.cleared == o.cleared
    && n.initial == o.initial && SamePlan(o, n)
  }

  /** The same configuration is being made. */
  predicate SamePlan(o: Output, n: Output) {
    && n.pending == o.pending && n.hold == o.hold && n.source == o.source && n.settings == o.settings
    && n.begun == o.begun && n.included == o.included && n.snapshot == o.snapshot
  }

  /** Requests stored during an apply only add to what was captured. */
  lemma SinceStored(o: Output, c: Capture, n: Output, r: ScreenState)
    requires Since(o, c, n) && Stored(n, r).Some?
    ensures Since(o, c, Stored(n, r).value)
  {
    StoredFaithful(n, r);
  }

  /** The end of a successful apply: promote the captured state unless held, clear the exact request captured. */
  function Settled(n: Output, c: Capture): Output {
    if c.id == 0 then n
    else
      var promoted := if c.hold then n else n.(initial := c.state);
      if promoted.waiting && promoted.id == c.id then
        promoted.(deferred := EMPTY, waiting := false, cleared := |promoted.log|)
      else promoted
  }

  /** A request that arrived during the apply survives it, laid over what was applied, or over everything if held. */
  lemma SettledFaithful(o: Output, c: Capture, n: Output)
    requires Since(o, c, n)
    ensures Faithful(Settled(n, c))
    ensures Settled(n, c).waiting <==> |n.log| > |o.log| || (c.id == 0 && n.waiting)
    ensures |n.log| > |o.log| ==> Settled(n, c).deferred == n.deferred
    ensures Settled(n, c).id == n.id && Settled(n, c).log == n.log
  {
    if c.id != 0 {
      OverlaidUsable(Carried(o.initial), o.log[o.cleared..]);
      assert n.log[..|o.log|] == o.log;
      if n.id != c.id && !c.hold {
        assert n.log[o.cleared..] == o.log[o.cleared..] + n.log[c.id..];
        OverlaidAgain(Carried(o.initial), o.log[o.cleared..], n.log[c.id..]);
        assert Carried(c.state) == c.state;
      }
    }
  }

  // ----- the configuration being made

  /** `tomoe_output` and `tomoe_output_options` set fields of the pending state. */
  function Adjusted(d: ScreenState, given: ScreenState): ScreenState {
    ScreenState(Later(d.enabled, given.enabled), Later(d.mode, given.mode), Later(d.scale, given.scale),
                Later(d.transform, given.transform), Later(d.vrr, given.vrr), d.gamma)
  }

  /** `tomoe_outputs_begin` for one output; `current` is the snapshot of the screen. */
  function Begun(o: Output, current: ScreenState): Output {
    var source := if o.waiting then o.deferred else if !o.admitted || o.configured then o.initial else current;
    o.(pending := source, hold := false, pendingConfigured := false,
       source := source, settings := EMPTY, begun := o.id, included := o.id, snapshot := false)
  }

  /** `tomoe_output_hold` for one output: the pending state is copied anew, without the waiting requests. */
  function HeldBack(o: Output, current: ScreenState): Output {
    var source := if o.admitted then current else o.initial.(enabled := Some(false));
    o.(pending := source, hold := true, pendingConfigured := true,
       source := source, settings := EMPTY, included := o.cleared, snapshot := true)
  }

  /** Settings for one output, from `tomoe_output` when `configures`, else from `tomoe_output_options`. */
  function SetUp(o: Output, given: ScreenState, configures: bool): Output {
    o.(pending := Adjusted(o.pending, given), hold := false, pendingConfigured := o.pendingConfigured || configures,
       settings := Adjusted(o.settings, given))
  }

  /** A successful commit admits the output. */
  function Admitted(o: Output): Output {
    o.(admitted := true, configured := o.pendingConfigured)
  }

  /**
   * Between begin and apply: the pending state is its source with the settings in it, and the source is the initial
   * state with exactly the waiting requests numbered below `included` laid over it, if there are any.
   */
  ghost predicate Configuring(o: Output) {
    && Faithful(o) && o.cleared <= o.included <= o.begun <= o.id && o.pending == Adjusted(o.source, o.settings)
    && (o.hold ==> o.snapshot) && o.included == (if o.snapshot then o.cleared else o.begun)
    && (o.cleared < o.included ==> o.source == Overlaid(Carried(o.initial), o.log[o.cleared..o.included]))
  }

  /** What is begun takes in every waiting request. */
  lemma BegunTakesAll(o: Output, current: ScreenState)
    requires Faithful(o)
    ensures Configuring(Begun(o, current)) && Begun(o, current).included == o.id
    ensures o.waiting ==> Begun(o, current).pending == Overlaid(Carried(o.initial), o.log[o.cleared..])
  {
    assert o.log[o.cleared..o.id] == o.log[o.cleared..];
  }

  /** Without a waiting request: from the initial state before the first commit or after a set-up, else as it is now. */
  lemma BegunFrom(o: Output, current: ScreenState)
    requires !o.waiting
    ensures !o.admitted ==> Begun(o, current).pending == o.initial
    ensures o.admitted && o.configured ==> Begun(o, current).pending == o.initial
    ensures o.admitted && !o.configured ==> Begun(o, current).pending == current
  {
  }

  /** What a configuration of an output was, decides where the next one begins when nothing is asked in between. */
  lemma NextBegins(o: Output, given: ScreenState, current: ScreenState, later: ScreenState)
    requires !o.waiting
    ensures var b := Begun(o, current);
      && Begun(Admitted(b), later).pending == later
      && Begun(Admitted(SetUp(b, given, false)), later).pending == later
      && Begun(Admitted(SetUp(b, given, true)), later).pending == o.initial
      && Begun(Admitted(HeldBack(b, current)), later).pending == o.initial
  {
  }

  /** A setting replaces the field, and the fields that are not set stay. */
  lemma SetUpFields(o: Output, given: ScreenState, configures: bool, f: Field)
    ensures var p := SetUp(o, given, configures).pending;
      && (if Sets(given, f) then Agree(p, given, f) else Agree(p, o.pending, f))
      && p.enabled == (if given.enabled.Some? then given.enabled else o.pending.enabled) && p.gamma == o.pending.gamma
      && !SetUp(o, given, configures).hold
  {
  }

  /** A held output is kept as it is: its screen, or disabled if it was never committed. */
  lemma HeldBackFrom(o: Output, current: ScreenState)
    ensures var h := HeldBack(o, current);
      && h.hold && h.pendingConfigured && (o.admitted ==> h.pending == current)
      && (!o.admitted ==> h.pending == o.initial.(enabled := Some(false)))
  {
  }

  /** A held output takes in none. */
  lemma HeldTakesNone(o: Output, current: ScreenState)
    requires Configuring(o)
    ensures Configuring(HeldBack(o, current)) && HeldBack(o, current).included == o.cleared
    ensures o.admitted ==> HeldBack(o, current).pending == current
  {
  }

  lemma SetUpConfiguring(o: Output, given: ScreenState, configures: bool)
    requires Configuring(o)
    ensures Configuring(SetUp(o, given, configures))
  {
  }

  lemma StoredConfiguring(o: Output, r: ScreenState)
    requires Configuring(o) && Stored(o, r).Some?
    ensures Configuring(Stored(o, r).value)
  {
    StoredFaithful(o, r);
    assert o.cleared < o.included ==> (o.log + [r])[o.cleared..o.included] == o.log[o.cleared..o.included];
  }

  lemma SinceConfiguring(o: Output, c: Capture, n: Output)
    requires Configuring(o) && Since(o, c, n)
    ensures Configuring(n)
  {
    assert n.log[..|o.log|] == o.log;
    assert o.cleared < o.included ==> n.log[o.cleared..o.included] == o.log[o.cleared..o.included];
  }

  // ----- what gets lost

  /** `strip_disabled_state`: what is committed of a pending state. */
  function Committed(p: ScreenState): ScreenState {
    if p.enabled == Some(false) then p.(mode := None, vrr := None, gamma := None) else p
  }

  /** What request `k` asks for field `f` waited, waits no longer, and is not what was committed. */
  ghost predicate LostAt(n: Output, s: Output, k: nat, f: Field) {
    && n.waiting && !s.waiting && n.cleared <= k && LastWriter(n.log, k, f)
    && !Agree(n.log[k], Committed(n.pending), f)
  }

  ghost predicate Loses(n: Output, s: Output) {
    exists k, f :: LostAt(n, s, k, f)
  }

  /**
   * What a caller can see of request `k`: the output is not being disabled, a setting of the same field agrees with the
   * request, and without a setting the request came before begin with no hold since, or what was copied has it anyway.
   */
  predicate WillKeep(o: Output, k: nat, f: Field)
    requires k < |o.log|
  {
    && (f.ModeField? || f.VrrField? ==> o.pending.enabled != Some(false))
    && if Sets(o.settings, f) then Agree(o.settings, o.log[k], f)
       else (k < o.begun && !o.snapshot) || Agree(o.source, o.log[k], f)
  }

  /** The last request for a field is in the committed state if and only if a caller can see that it will be. */
  lemma KeptIff(o: Output, k: nat, f: Field)
    requires Configuring(o) && o.cleared <= k && LastWriter(o.log, k, f)
    ensures Agree(o.log[k], Committed(o.pending), f) <==> WillKeep(o, k, f)
  {
    if k < o.included {
      var laid := o.log[o.cleared..o.included];
      assert laid[k - o.cleared] == o.log[k];
      LastWriterWins(Carried(o.initial), laid, k - o.cleared, f);
    }
  }

  /** Something is cleared, and a caller can see that it will not be kept. */
  ghost predicate WillLose(o: Output, n: Output) {
    o.waiting && n.id == o.id && exists k: nat, f :: o.cleared <= k && LastWriter(o.log, k, f) && !WillKeep(o, k, f)
  }

  /** A successful apply loses what a request asks if and only if no newer request came and it will not be kept. */
  lemma LosesIff(o: Output, c: Capture, n: Output)
    requires Configuring(o) && Since(o, c, n)
    ensures Loses(n, Settled(n, c)) <==> WillLose(o, n)
  {
    SettledFaithful(o, c, n);
    var s := Settled(n, c);
    if n.id == o.id {
      assert n.log == o.log;
      forall k: nat, f | o.cleared <= k && LastWriter(o.log, k, f)
        ensures Agree(o.log[k], Committed(o.pending), f) <==> WillKeep(o, k, f)
      {
        KeptIff(o, k, f);
      }
      if WillLose(o, n) {
        var k: nat, f :| o.cleared <= k && LastWriter(o.log, k, f) && !WillKeep(o, k, f);
        assert LostAt(n, s, k, f);
      }
    }
  }

  /** Request `k` is cleared although the committed state was copied without it. */
  predicate DroppedAt(n: Output, s: Output, k: nat) {
    n.waiting && !s.waiting && n.cleared <= k < |n.log| && k >= n.included
  }

  /** A successful apply drops a request if and only if none came during it, and one came after begin or a hold. */
  lemma DropsIff(o: Output, c: Capture, n: Output)
    requires Configuring(o) && Since(o, c, n)
    ensures (exists k :: DroppedAt(n, Settled(n, c), k)) <==>
      o.waiting && n.id == o.id && (o.id > o.begun || o.snapshot)
  {
    SettledFaithful(o, c, n);
    if o.waiting && n.id == o.id && (o.id > o.begun || o.snapshot) {
      assert DroppedAt(n, Settled(n, c), n.included);
    }
  }

  /** Nothing is lost of requests from before begin, without a hold, when nothing contradicts or disables them. */
  lemma NothingLost(o: Output, c: Capture, n: Output)
    requires Configuring(o) && Since(o, c, n) && o.id == o.begun && !o.snapshot && o.pending.enabled != Some(false)
    requires forall f :: Sets(o.settings, f) ==> Agree(o.settings, o.deferred, f)
    ensures !Loses(n, Settled(n, c))
  {
    hide Loses, Settled, Overlaid, Usable;
    LosesIff(o, c, n);
    if WillLose(o, n) {
      var k: nat, f :| o.cleared <= k && LastWriter(o.log, k, f) && !WillKeep(o, k, f);
      assert o.log[o.cleared..][k - o.cleared] == o.log[k];
      LastWriterWins(Carried(o.initial), o.log[o.cleared..], k - o.cleared, f);
    }
  }

  /** What is lost under a hold is forgotten; otherwise it lives on in the initial state of later configurations. */
  lemma LostAndForgotten(o: Output, c: Capture, n: Output)
    requires Configuring(o) && Since(o, c, n) && o.waiting
    ensures o.hold ==> Settled(n, c).initial == o.initial
    ensures !o.hold ==> Settled(n, c).initial == Overlaid(Carried(o.initial), o.log[o.cleared..])
    ensures n.id == o.id ==> !Settled(n, c).waiting && Settled(n, c).deferred == EMPTY
  {
  }

  // ----- inputs that lose a request

  const PLAIN := EMPTY.(mode := Some(Custom(640, 480, 60)))
  const LARGER := EMPTY.(scale := Some(240))
  const WIDER := EMPTY.(mode := Some(Custom(1280, 720, 60)))

  lemma AskedStored(o: Output, r: ScreenState)
    requires Faithful(o) && !o.waiting && o.id < ID_MAX && HasRequestFields(r) && Usable(r)
    ensures Stored(o, r) == Some(Asked(o, r)) && Faithful(Asked(o, r))
  {
    StoredFaithful(o, r);
    StoredValue(o, r);
  }

  /** A new output for which `r` was stored before a configuration was begun. */
  function Waiting(r: ScreenState, current: ScreenState): Output {
    Begun(Asked(New(PLAIN), r), current)
  }

  lemma WaitingConfiguring(r: ScreenState, current: ScreenState)
    requires HasRequestFields(r) && Usable(r)
    ensures var o := Waiting(r, current);
      Configuring(o) && o.waiting && o.cleared == 0 && o.log == [r] && !o.hold && o.pending == Over(Carried(PLAIN), r)
  {
    AskedStored(New(PLAIN), r);
    BegunTakesAll(Asked(New(PLAIN), r), current);
  }

  lemma WaitingOf(r: ScreenState, current: ScreenState)
    ensures Waiting(r, current).initial == PLAIN && !Waiting(r, current).admitted
  {
  }

  lemma NewFaithful(baseline: ScreenState)
    requires Usable(baseline)
    ensures Faithful(New(baseline))
  {
  }

  lemma BegunFaithful(o: Output, current: ScreenState)
    requires Faithful(o)
    ensures Faithful(Begun(o, current))
  {
  }

  lemma ConfiguringFaithful(o: Output)
    requires Configuring(o)
    ensures Faithful(o) && o.id == |o.log|
  {
  }

  /** The only request of an output is lost when the committed state differs from it. */
  lemma OnlyRequestLost(o: Output, r: ScreenState, f: Field)
    requires o.waiting && o.cleared == 0 && o.log == [r] && o.id == 1 && Sets(r, f)
    ensures LostAt(o, Settled(o, Captured(o)), 0, f) <==> !Agree(r, Committed(o.pending), f)
  {
  }

  /** An output that is held loses the request it had before the configuration was begun. */
  lemma HeldRequestLost(current: ScreenState)
    ensures var o := HeldBack(Waiting(LARGER, current), current);
      var s := Settled(o, Captured(o));
      Configuring(o) && LostAt(o, s, 0, ScaleField) && s.initial == PLAIN && s.deferred == EMPTY
  {
    hide Configuring, LostAt, Waiting, Over;
    var o := HeldBack(Waiting(LARGER, current), current);
    WaitingConfiguring(LARGER, current);
    HeldTakesNone(Waiting(LARGER, current), current);
    ConfiguringFaithful(o);
    WaitingOf(LARGER, current);
    OnlyRequestLost(o, LARGER, ScaleField);
  }

  /** A request that comes after begin is cleared although the committed state was copied before it. */
  lemma LateRequestLost(current: ScreenState)
    ensures var o := Asked(Begun(New(PLAIN), current), LARGER);
      var s := Settled(o, Captured(o));
      Configuring(o) && LostAt(o, s, 0, ScaleField) && o.pending == PLAIN
  {
    hide Configuring, Faithful, Settled, LostAt, Over, Stored;
    var begun, o := Begun(New(PLAIN), current), Asked(Begun(New(PLAIN), current), LARGER);
    NewFaithful(PLAIN);
    BegunTakesAll(New(PLAIN), current);
    BegunFaithful(New(PLAIN), current);
    AskedStored(begun, LARGER);
    StoredConfiguring(begun, LARGER);
    ConfiguringFaithful(o);
    OnlyRequestLost(o, LARGER, ScaleField);
  }

  lemma LaidOver()
    ensures Over(Over(Carried(PLAIN), LARGER), WIDER).scale == LARGER.scale
    ensures Carried(Over(Carried(PLAIN), LARGER)) == Over(Carried(PLAIN), LARGER)
  {
  }

  /** A newer request during the apply saves them both. */
  lemma NewerRequestSaves(current: ScreenState)
    ensures var o := Asked(Begun(New(PLAIN), current), LARGER);
      var n := Asked(o, WIDER);
      var s := Settled(n, Captured(o));
      Configuring(o) && Since(o, Captured(o), n) && !Loses(n, s) && s.waiting && s.deferred.scale == LARGER.scale
  {
    hide Configuring, Faithful, Settled, Over, Stored, Loses, LostAt;
    LateRequestLost(current);
    var o := Asked(Begun(New(PLAIN), current), LARGER);
    ConfiguringFaithful(o);
    StoredValue(o, WIDER);
    SinceStored(o, Captured(o), o, WIDER);
    LosesIff(o, Captured(o), Asked(o, WIDER));
    SettledFaithful(o, Captured(o), Asked(o, WIDER));
    LaidOver();
  }

  /** Setting up an output after a hold clears the hold; the request is lost unless it is given again. */
  lemma SetUpAfterHoldLost(current: ScreenState, given: ScreenState)
    ensures var o := SetUp(HeldBack(Waiting(LARGER, current), current), given, true);
      var s := Settled(o, Captured(o));
      Configuring(o) && !o.hold && (LostAt(o, s, 0, ScaleField) <==> given.scale != LARGER.scale)
  {
    hide Configuring, Settled, LostAt, Waiting, Over;
    var o := SetUp(HeldBack(Waiting(LARGER, current), current), given, true);
    WaitingConfiguring(LARGER, current);
    HeldTakesNone(Waiting(LARGER, current), current);
    SetUpConfiguring(HeldBack(Waiting(LARGER, current), current), given, true);
    ConfiguringFaithful(o);
    WaitingOf(LARGER, current);
    OnlyRequestLost(o, LARGER, ScaleField);
  }

  /** A setting that contradicts the request wins, and the request is cleared. */
  lemma OverriddenRequestLost(current: ScreenState)
    ensures var o := SetUp(Waiting(LARGER, current), EMPTY.(scale := Some(120)), true);
      var s := Settled(o, Captured(o));
      Configuring(o) && LostAt(o, s, 0, ScaleField) && o.pending.scale == Some(120)
  {
    hide Configuring, Settled, LostAt, Waiting, Over;
    var o := SetUp(Waiting(LARGER, current), EMPTY.(scale := Some(120)), true);
    WaitingConfiguring(LARGER, current);
    SetUpConfiguring(Waiting(LARGER, current), EMPTY.(scale := Some(120)), true);
    ConfiguringFaithful(o);
    OnlyRequestLost(o, LARGER, ScaleField);
  }

  /** A mode requested of an output that is being disabled is stripped from what is committed, and cleared. */
  lemma DisabledRequestLost(current: ScreenState)
    ensures var o := SetUp(Waiting(WIDER, current), EMPTY.(enabled := Some(false)), false);
      var s := Settled(o, Captured(o));
      Configuring(o) && LostAt(o, s, 0, ModeField) && o.pending.mode == WIDER.mode
  {
    hide Configuring, Settled, LostAt, Waiting;
    var o := SetUp(Waiting(WIDER, current), EMPTY.(enabled := Some(false)), false);
    WaitingConfiguring(WIDER, current);
    SetUpConfiguring(Waiting(WIDER, current), EMPTY.(enabled := Some(false)), false);
    ConfiguringFaithful(o);
    OnlyRequestLost(o, WIDER, ModeField);
  }

  // ----- the outputs

  function New(baseline: ScreenState): Output {
    Output(baseline, EMPTY, baseline, false, 0, false, false, false, false, [], 0, baseline, EMPTY, 0, 0, false)
  }

  class Outputs {
    var list: array<Output>

    ghost predicate Valid()
      reads this, list
    {
      forall i :: 0 <= i < list.Length ==> Faithful(list[i])
    }

    /** Outputs as `output_added` makes them: nothing waits, and the baseline is what the screen prefers. */
    constructor (baselines: seq<ScreenState>)
      requires forall i :: 0 <= i < |baselines| ==> Usable(baselines[i])
      ensures Valid() && fresh(list) && list.Length == |baselines|
      ensures forall i :: 0 <= i < |baselines| ==> list[i] == New(baselines[i])
    {
      list := new Output[|baselines|](i requires 0 <= i < |baselines| => New(baselines[i]));
    }

    /** `output_request`. */
    method Store(i: nat, r: ScreenState) returns (ok: bool)
      requires Valid() && i < list.Length
      modifies list
      ensures Valid() && ok == (!HasRequestFields(r) || (Usable(r) && old(list[i]).id < ID_MAX))
      ensures ok ==> Stored(old(list[i]), r) == Some(list[i])
      ensures old(Configuring(list[i])) ==> Configuring(list[i])
      ensures list[..] == old(list[..])[i := list[i]] && (!ok ==> list[i] == old(list[i]))
    {
      StoredFaithful(list[i], r);
      if Configuring(list[i]) && Stored(list[i], r).Some? {
        StoredConfiguring(list[i], r);
      }
      var o := list[i];
      if !HasRequestFields(r) {
        return true;
      }
      var copied := Set(EMPTY, if o.waiting then o.deferred else o.initial, true);
      if copied.None? {
        return false;
      }
      var deferred := Set(copied.value, r, false);
      if deferred.None? {
        return false;
      }
      if o.id == ID_MAX {
        return false;
      }
      list[i] := o.(deferred := deferred.value, waiting := true, id := o.id + 1, log := o.log + [r]);
      ok := true;
    }

    /** `tomoe_outputs_begin`. */
    method Begin(current: seq<ScreenState>)
      requires Valid() && |current| == list.Length
      modifies list
      ensures Valid()
      ensures forall i :: 0 <= i < list.Length ==> list[i] == Begun(old(list[i]), current[i]) && Configuring(list[i])
      ensures forall i :: 0 <= i < list.Length ==>
        list[i].pending == if old(list[i]).waiting then old(list[i]).deferred
                           else if old(list[i]).admitted && !old(list[i]).configured then current[i]
                           else old(list[i]).initial
    {
      for k := 0 to list.Length
        invariant forall i :: 0 <= i < list.Length ==>
          list[i] == if i < k then Begun(old(list[i]), current[i]) else old(list[i])
      {
        var o := list[k];
        var pending := current[k];
        if o.waiting {
          pending := o.deferred;
        } else if !o.admitted || o.configured {
          pending := o.initial;
        }
        list[k] := o.(pending := pending, hold := false, pendingConfigured := false,
                      source := pending, settings := EMPTY, begun := o.id, included := o.id, snapshot := false);
      }
      forall i | 0 <= i < list.Length
        ensures Faithful(list[i]) && Configuring(list[i])
      {
        BegunTakesAll(old(list[i]), current[i]);
      }
    }

    /** `tomoe_output_hold`; `current` is the snapshot of the screen. */
    method Hold(i: nat, current: ScreenState)
      requires Valid() && i < list.Length
      modifies list
      ensures Valid() && list[..] == old(list[..])[i := HeldBack(old(list[i]), current)]
      ensures old(Configuring(list[i])) ==> Configuring(list[i])
    {
      var o := list[i];
      var pending := current;
      if !o.admitted {
        pending := o.initial.(enabled := Some(false));
      }
      list[i] := o.(pending := pending, hold := true, pendingConfigured := true,
                    source := pending, settings := EMPTY, included := o.cleared, snapshot := true);
      if old(Configuring(list[i])) {
        HeldTakesNone(o, current);
      }
    }

    /** `tomoe_output`, or `tomoe_output_options` when it does not configure. */
    method Configure(i: nat, given: ScreenState, configures: bool)
      requires Valid() && i < list.Length
      modifies list
      ensures Valid() && list[..] == old(list[..])[i := SetUp(old(list[i]), given, configures)]
      ensures old(Configuring(list[i])) ==> Configuring(list[i])
    {
      list[i] := SetUp(list[i], given, configures);
      if old(Configuring(list[i])) {
        SetUpConfiguring(old(list[i]), given, configures);
      }
    }

    /** The loop of `tomoe_outputs_apply` after a successful commit. */
    method AdmitAll()
      requires Valid()
      modifies list
      ensures Valid()
      ensures forall i :: 0 <= i < list.Length ==> list[i] == Admitted(old(list[i]))
      ensures forall i :: 0 <= i < list.Length ==>
        list[i].admitted && list[i].configured == old(list[i]).pendingConfigured
    {
      for k := 0 to list.Length
        invariant forall i :: 0 <= i < list.Length ==> list[i] == if i < k then Admitted(old(list[i])) else old(list[i])
      {
        list[k] := list[k].(admitted := true, configured := list[k].pendingConfigured);
      }
      forall i | 0 <= i < list.Length
        ensures Faithful(list[i])
      {
        assert Faithful(old(list[i]));
      }
    }

    /** The first loop of `tomoe_outputs_apply`. */
    method CaptureAll() returns (cs: array<Capture>)
      requires Valid()
      ensures fresh(cs) && cs.Length == list.Length
      ensures forall i :: 0 <= i < list.Length ==> cs[i] == Captured(list[i]) && Since(list[i], cs[i], list[i])
    {
      cs := new Capture[list.Length](_ => Capture(0, false, EMPTY));
      for k := 0 to list.Length
        invariant forall i :: 0 <= i < k ==> cs[i] == Captured(list[i])
      {
        var o := list[k];
        cs[k] := Capture(if o.waiting then o.id else 0, o.hold, if o.waiting then o.deferred else EMPTY);
      }
    }

    /**
     * The end of `tomoe_outputs_apply`.  `was` is the list when it was captured; requests may have come in since.  A
     * failed apply keeps every request; a successful one clears the captured ids only.
     */
    method Settle(cs: array<Capture>, failed: bool, ghost was: seq<Output>)
      requires Valid() && cs.Length == list.Length == |was|
      requires forall i :: 0 <= i < |was| ==> Since(was[i], cs[i], list[i])
      modifies list
      ensures Valid()
      ensures failed ==> list[..] == old(list[..])
      ensures !failed ==> forall i :: 0 <= i < list.Length ==> list[i] == Settled(old(list[i]), old(cs[i]))
      ensures forall i :: 0 <= i < list.Length && |old(list[i]).log| > |was[i].log| ==>
        list[i].waiting && list[i].deferred == old(list[i]).deferred
      ensures !failed ==> forall i :: 0 <= i < list.Length && Configuring(was[i]) ==>
        (Loses(old(list[i]), list[i]) <==> WillLose(was[i], old(list[i])))
    {
      if failed {
        return;
      }
      for k := 0 to list.Length
        invariant cs[..] == old(cs[..])
        invariant forall i :: 0 <= i < list.Length ==>
          list[i] == if i < k then Settled(old(list[i]), cs[i]) else old(list[i])
      {
        var c := cs[k];
        if c.id != 0 {
          if !c.hold {
            list[k] := list[k].(initial := c.state);
          }
          if list[k].waiting && list[k].id == c.id {
            list[k] := list[k].(deferred := EMPTY, waiting := false, cleared := |list[k].log|);
          }
        }
      }
      forall i | 0 <= i < list.Length
        ensures Faithful(list[i])
        ensures |old(list[i]).log| > |was[i].log| ==> list[i].waiting && list[i].deferred == old(list[i]).deferred
      {
        SettledFaithful(was[i], cs[i], old(list[i]));
      }
      forall i | 0 <= i < list.Length && Configuring(was[i])
        ensures Loses(old(list[i]), list[i]) <==> WillLose(was[i], old(list[i]))
      {
        LosesIff(was[i], cs[i], old(list[i]));
      }
    }
  }
}
