/**
 * The output's ring of buffers, its damage history and the partial repaint (native/space.c `scene_damage`
 * and `render_scene_buffer`, native/render.c `ring_acquire` and `ring_finish`).
 */
module Ring {
  import opened Boxes
  import opened Options
  import opened Painting
  import opened Damage
  import opened Diff
  import opened Frames
  import opened Exactness

  const SLOTS := 4
  const HISTORY := 8

  /** Each swap with something in a backdrop either damages that backdrop or damages the whole reader. */
  ghost predicate SwapsDamaged(now: seq<Op>, pairs: seq<int>, damage: set<Px>, buffer: set<Px>)
    requires |pairs| == |now|
  {
    forall i: nat, k: nat :: i < |now| && k < |now| && Swapped(pairs, i, k) && Reads(now, i, k, buffer) ==>
      BoxInside(now[i], damage, buffer) || !ReachOutside(now[i], damage, buffer)
  }

  ghost predicate AllFine(ops: seq<Op>) {
    forall op :: op in ops ==> FineScale(op)
  }

  /** `damage` accounts for everything that changed from `was` to `now`. */
  ghost predicate StepFact(w: World, was: seq<Op>, now: seq<Op>, damage: set<Px>, buffer: set<Px>) {
    || buffer <= damage
    || (&& Comparable(w, was, now)
        && Covers(w, was, now, Pairs(was, now), damage, buffer)
        && SwapsDamaged(now, Pairs(was, now), damage, buffer))
  }

  ghost predicate Inside(damage: set<Px>, region: set<Px>, buffer: set<Px>) {
    forall p :: p in buffer && p in damage ==> p in region
  }

  /** Safety of a region passes from the new list to the old one, and outside it nothing changed. */
  lemma StepBack(w: World, was: seq<Op>, now: seq<Op>, damage: set<Px>, region: set<Px>, buffer: set<Px>)
    requires StepFact(w, was, now, damage, buffer) && Inside(damage, region, buffer) && Safe(now, region, buffer)
    ensures Safe(was, region, buffer)
    ensures forall p :: p in buffer && p !in region ==> Full(w, was, buffer)[p] == Full(w, now, buffer)[p]
  {
    if !(buffer <= damage) {
      var pairs := Pairs(was, now);
      forall i: nat, k: nat | i < |now| && k < |now| && Swapped(pairs, i, k) && Reads(now, i, k, buffer)
        ensures BoxInside(now[i], region, buffer)
      {
        assert now[i] in now;
      }
      assert Diffed(w, was, now, pairs, region, buffer);
      forall p | p in buffer && p !in region
        ensures Full(w, was, buffer)[p] == Full(w, now, buffer)[p]
      {
        FrameStep(w, was, now, pairs, region, buffer, p);
      }
      forall j | 0 <= j < |was|
        ensures ReachOutside(was[j], region, buffer) || BoxInside(was[j], region, buffer)
      {
        OldSafe(w, was, now, pairs, region, buffer, j);
      }
    }
  }

  lemma OldSafe(w: World, was: seq<Op>, now: seq<Op>, pairs: seq<int>, region: set<Px>, buffer: set<Px>, j: nat)
    requires Diffed(w, was, now, pairs, region, buffer) && j < |was|
    ensures ReachOutside(was[j], region, buffer) || BoxInside(was[j], region, buffer)
  {
    if p :| p in buffer && In(p, was[j].box) && p !in region {
      var i := OldPartner(w, was, now, pairs, region, buffer, j, p);
      Partner(w, was, now, pairs, region, buffer, i, p);
    }
  }

  /** Outside a safe region holding all the damage since frame `g`, frame `g` looks like frame `f`. */
  lemma {:induction false} Chain(w: World, scenes: seq<seq<Op>>, damages: seq<set<Px>>, g: nat, f: nat,
                                 region: set<Px>, buffer: set<Px>)
    requires g <= f < |scenes| == |damages| && Safe(scenes[f], region, buffer)
    requires forall h :: g < h <= f ==>
      StepFact(w, scenes[h - 1], scenes[h], damages[h], buffer) && Inside(damages[h], region, buffer)
    ensures forall p :: p in buffer && p !in region ==> Full(w, scenes[g], buffer)[p] == Full(w, scenes[f], buffer)[p]
    decreases f - g
  {
    if g < f {
      StepBack(w, scenes[f - 1], scenes[f], damages[f], region, buffer);
      Chain(w, scenes, damages, g, f - 1, region, buffer);
    }
  }

  /** Everything recorded since the ring was last configured; `facts` tells which comparisons met their conditions. */
  ghost predicate History(w: World, scenes: seq<seq<Op>>, damages: seq<set<Px>>, facts: seq<bool>, epoch: nat,
                          buffer: set<Px>) {
    && |scenes| == |damages| == |facts| && epoch < |scenes|
    && forall h :: epoch < h < |scenes| ==>
      Opaque(w, scenes[h], buffer) && (facts[h] ==> StepFact(w, scenes[h - 1], scenes[h], damages[h], buffer))
  }

  /** Every comparison after frame `g` met its conditions. */
  ghost predicate FactsSince(facts: seq<bool>, g: nat) {
    forall h :: g < h < |facts| ==> facts[h]
  }

  /** The repaint theorem for one buffer that last held frame `g`. */
  lemma RepaintSince(w: World, scenes: seq<seq<Op>>, damages: seq<set<Px>>, facts: seq<bool>, epoch: nat,
                     buffer: set<Px>, g: nat, region: set<Px>, clip: set<Px>)
    requires History(w, scenes, damages, facts, epoch, buffer) && epoch < g < |scenes| && FactsSince(facts, g)
    requires ReachClosed(scenes[|scenes| - 1], region) && ReachesItself(scenes[|scenes| - 1])
    requires forall h :: g < h < |scenes| ==> damages[h] <= region
    requires region * buffer <= clip && NoLateReads(scenes[|scenes| - 1], clip, buffer)
    ensures var now := scenes[|scenes| - 1];
      Paint(w, now, |now|, clip, Full(w, scenes[g], buffer)) == Full(w, now, buffer)
  {
    var f := |scenes| - 1;
    ReachClosedNoLateReads(scenes[f], region, buffer);
    Chain(w, scenes, damages, g, f, region * buffer, buffer);
    Repaint(w, scenes[f], clip, buffer, Full(w, scenes[g], buffer));
  }

  /** A pass over the whole buffer does not depend on what was in it. */
  lemma RepaintAll(w: World, scene: seq<Op>, buffer: set<Px>, canvas: Canvas)
    requires Opaque(w, scene, buffer) && canvas.Keys == buffer
    ensures Paint(w, scene, |scene|, buffer, canvas) == Full(w, scene, buffer)
  {
    Repaint(w, scene, buffer, buffer, canvas);
  }

  function Hull(left: Px, right: Px, top: Px, end: Px): Box {
    Box(left.x, top.y, right.x + 1 - left.x, end.y + 1 - top.y)
  }

  /** `b` holds the region, and each of its sides meets a pixel of the region. */
  ghost predicate Bounding(region: set<Px>, b: Box) {
    && (forall p :: p in region ==> In(p, b))
    && (region == {} ==> b == NO_BOX)
    && (region != {} ==> exists l, r, t, e :: {l, r, t, e} <= region && b == Hull(l, r, t, e))
  }

  /** The bounding box of a region (`pixman_region32_extents`). */
  method Extents(region: set<Px>) returns (b: Box)
    ensures Bounding(region, b)
  {
    if region == {} {
      return NO_BOX;
    }
    var first :| first in region;
    var l, r, t, e := first, first, first, first;
    var rest := region;
    while rest != {}
      invariant l in region && r in region && t in region && e in region && rest <= region
      invariant forall p :: p in region && p !in rest ==> l.x <= p.x <= r.x && t.y <= p.y <= e.y
      decreases rest
    {
      var p :| p in rest;
      l := if p.x < l.x then p else l;
      r := if p.x > r.x then p else r;
      t := if p.y < t.y then p else t;
      e := if p.y > e.y then p else e;
      rest := rest - {p};
    }
    b := Hull(l, r, t, e);
  }

  /** Each marked buffer known to be right holds exactly the full painting of the frame it is marked with. */
  ghost predicate Held(w: World, scenes: seq<seq<Op>>, marks: seq<nat>, right: seq<bool>, slots: seq<Option<Canvas>>,
                       buffer: set<Px>)
    requires |marks| == |slots| == |right|
  {
    forall s :: 0 <= s < |marks| && marks[s] != 0 && right[s] ==>
      marks[s] < |scenes| && slots[s] == Some(Full(w, scenes[marks[s]], buffer))
  }

  ghost predicate HoldsSince(damages: seq<set<Px>>, g: nat, f: nat, region: set<Px>)
    requires f < |damages|
  {
    forall h :: g < h <= f ==> damages[h] <= region
  }

  /** The least region with the damage of the frames after `g` up to `f`, and each reach wholly inside or outside. */
  ghost predicate LeastClosed(scene: seq<Op>, damages: seq<set<Px>>, g: nat, f: nat, region: set<Px>)
    requires f < |damages|
  {
    && ReachClosed(scene, region) && HoldsSince(damages, g, f, region)
    && forall other: set<Px> :: ReachClosed(scene, other) && HoldsSince(damages, g, f, other) ==> region <= other
  }

  /** What is painted for a region inside the buffer: the region itself, or its bounding box when it has many parts. */
  ghost predicate ClipOf(inside: set<Px>, many: bool, clip: set<Px>) {
    if many then exists b :: Bounding(inside, b) && clip == Pixels(b) else clip == inside
  }

  /** The bounding box of pixels of a box lies in the box. */
  lemma BoundingInside(region: set<Px>, b: Box, within: Box)
    requires Bounding(region, b) && region <= Pixels(within)
    ensures Pixels(b) <= Pixels(within)
  {
    if region != {} {
      var l, r, t, e :| {l, r, t, e} <= region && b == Hull(l, r, t, e);
      assert In(l, within) && In(r, within) && In(t, within) && In(e, within);
    }
  }

  /** `changed` is what the pairing of the two lists leaves unexplained. */
  ghost predicate ExactDamage(w: World, was: seq<Op>, now: seq<Op>, changed: set<Px>) {
    && Matching(was, now, Pairs(was, now))
    && forall p :: p in changed <==> Damaged(w, was, now, Pairs(was, now), p)
  }

  class Output {
    const w: World
    const rectangles: set<Px> -> nat  // how many rectangles pixman keeps a region in
    const damage: array<set<Px>>      // raw damage of the last HISTORY frames, by frame number modulo HISTORY
    const slotFrame: array<nat>       // the frame each buffer holds, or 0
    const slots: array<Option<Canvas>>
    const locks: array<nat>
    var ops: OpList
    var frames: nat
    var size: Box                     // the rectangle of the buffers
    var buffer: set<Px>               // its pixels

    ghost var scenes: seq<seq<Op>>    // what was drawn at every frame so far
    ghost var damages: seq<set<Px>>
    ghost var facts: seq<bool>        // whether the comparison that made each frame met its conditions
    ghost var epoch: nat              // the last frame before the ring was configured
    ghost var right: seq<bool>        // which buffers are known to hold the painting of their frame

    ghost predicate Shape()
      reads this, damage, slotFrame, slots, locks
    {
      && damage.Length == HISTORY && slotFrame.Length == slots.Length == locks.Length == SLOTS == |right|
      && slotFrame != locks && buffer == Pixels(size)
      && |scenes| == |damages| == |facts| == frames + 1 && epoch <= frames
      && (!ops.lost ==> ops.ops == scenes[frames])
      && (forall h :: 0 < h <= frames && frames < h + HISTORY ==> damage[h % HISTORY] == damages[h])
      && (forall s :: 0 <= s < SLOTS && slots[s].Some? ==> slots[s].value.Keys == buffer)
      && (forall s :: 0 <= s < SLOTS && slots[s].None? ==> slotFrame[s] == 0 && locks[s] == 0)
      && (forall s :: 0 <= s < SLOTS && slotFrame[s] != 0 ==> epoch < slotFrame[s] <= frames)
      && History(w, scenes, damages, facts, epoch, buffer)
    }

    ghost predicate Valid()
      reads this, damage, slotFrame, slots, locks
    {
      Shape() && Held(w, scenes, slotFrame[..], right, slots[..], buffer)
    }

    constructor (w: World, rectangles: set<Px> -> nat)
      ensures Valid() && frames == 0 && fresh(damage) && fresh(slotFrame) && fresh(slots) && fresh(locks)
      ensures this.w == w && this.rectangles == rectangles
    {
      this.w, this.rectangles := w, rectangles;
      damage := new set<Px>[HISTORY](_ => {});
      slotFrame := new nat[SLOTS](_ => 0);
      slots := new Option<Canvas>[SLOTS](_ => None);
      locks := new nat[SLOTS](_ => 0);
      ops, frames, size, buffer := OpList([], false), 0, NO_BOX, {};
      scenes, damages, facts, epoch, right := [[]], [{}], [true], 0, seq(SLOTS, _ => true);
    }

    /** `ring_finish` and `ring_configure`: drop the buffers and forget what they held, so that none can be wrong. */
    method Configure(width: nat, height: nat)
      requires Valid()
      modifies this`size, this`buffer, this`epoch, this`right, slotFrame, slots, locks
      ensures Valid() && epoch == frames && forall p :: p in buffer <==> 0 <= p.x < width && 0 <= p.y < height
      ensures forall s :: 0 <= s < SLOTS ==> slots[s] == None && slotFrame[s] == 0 && locks[s] == 0 && right[s]
    {
      for s := 0 to SLOTS
        modifies slotFrame, slots, locks
        invariant forall i :: 0 <= i < s ==> slots[i] == None && slotFrame[i] == 0 && locks[i] == 0
      {
        slots[s], slotFrame[s], locks[s] := None, 0, 0;
      }
      size := Box(0, 0, width, height);
      buffer, epoch, right := Pixels(size), frames, seq(SLOTS, _ => true);
    }

    /** `buffer_unlock`: a buffer that is no longer shown can be acquired again. */
    method Release(slot: nat)
      requires Valid() && slot < SLOTS && locks[slot] > 0
      modifies locks
      ensures Valid() && locks[..] == old(locks[..])[slot := old(locks[slot]) - 1]
    {
      locks[slot] := locks[slot] - 1;
    }

    /** `ring_acquire`: lock a free buffer, else allocate one in an empty slot, else fail. */
    method Acquire(garbage: Canvas) returns (slot: nat)
      requires Valid() && garbage.Keys == buffer
      modifies slots, locks
      ensures Valid() && slot <= SLOTS
      ensures slot < SLOTS ==> slots[slot].Some? && locks[slot] == old(locks[slot]) + 1
      ensures slot < SLOTS && old(slots[slot].Some?) ==> old(locks[slot]) == 0 && slots[slot] == old(slots[slot])
      ensures slot < SLOTS && old(slots[slot].None?) ==>
        forall s :: 0 <= s < SLOTS && old(slots[s].Some?) ==> old(locks[s]) != 0
      ensures slot == SLOTS ==> forall s :: 0 <= s < SLOTS ==> slots[s].Some? && locks[s] != 0
      ensures forall s :: 0 <= s < SLOTS && s != slot ==> slots[s] == old(slots[s]) && locks[s] == old(locks[s])
    {
      var empty: nat := SLOTS;
      for s := 0 to SLOTS
        invariant empty == SLOTS ==> forall i :: 0 <= i < s ==> slots[i].Some?
        invariant empty < SLOTS ==> slots[empty].None? && empty < s
        invariant empty <= SLOTS && forall i :: 0 <= i < s && slots[i].Some? ==> locks[i] != 0
      {
        if slots[s].None? {
          if empty == SLOTS {
            empty := s;
          }
        } else if locks[s] == 0 {
          locks[s] := 1;
          return s;
        }
      }
      slot := empty;
      if empty < SLOTS {
        slots[empty] := Some(garbage);
        locks[empty] := 1;
      }
    }

    /**
     * The first half of `scene_damage`: compare the recorded scene with the last one and enter the damage in
     * the history.  A comparison that cannot be made damages everything.  Equal hashes are taken to mean equal painters
     * only from the second frame on that is drawn after the ring was configured.
     */
    method Compare(scene: seq<Op>, recorded: OpList) returns (complete: bool, changed: set<Px>)
      requires Valid() && SinceSound(w) && Opaque(w, scene, buffer)
      requires !recorded.lost ==> recorded.ops == scene
      requires !ops.lost && !recorded.lost && epoch < frames ==> Faithful(ops.ops, scene)
      modifies this`ops, this`frames, this`scenes, this`damages, this`facts, damage
      ensures Valid() && frames == old(frames) + 1 && ops == recorded && scenes == old(scenes) + [scene]
      ensures complete <==> !old(ops).lost && !recorded.lost
      ensures complete ==> ExactDamage(w, old(ops).ops, scene, changed)
      ensures damages == old(damages) + [if complete then changed else buffer]
      ensures facts == old(facts) + [FactOf(epoch, old(frames), complete, old(ops).ops, scene, changed, buffer)]
    {
      complete, changed := OplistDamage(w, ops, recorded);
      ghost var fine := FactOf(epoch, frames, complete, ops.ops, scene, changed, buffer);
      if fine && complete {
        assert Comparable(w, ops.ops, scene);
        assert Covers(w, ops.ops, scene, Pairs(ops.ops, scene), changed, buffer);
      }
      Enter(scene, recorded, if complete then changed else buffer, fine);
    }

    /** Makes `scene` the newest frame, with `entry` in its place of the damage history. */
    method Enter(scene: seq<Op>, recorded: OpList, entry: set<Px>, ghost fine: bool)
      requires Valid() && Opaque(w, scene, buffer)
      requires !recorded.lost ==> recorded.ops == scene
      requires fine ==> StepFact(w, scenes[frames], scene, entry, buffer)
      modifies this`ops, this`frames, this`scenes, this`damages, this`facts, damage
      ensures Valid() && frames == old(frames) + 1 && ops == recorded
      ensures scenes == old(scenes) + [scene] && damages == old(damages) + [entry] && facts == old(facts) + [fine]
    {
      hide Held, History, StepFact, Opaque;
      HistoryGrows(w, scenes, damages, facts, epoch, buffer, scene, entry, fine);
      HeldGrows(w, scenes, scene, slotFrame[..], right, slots[..], buffer);
      ops := recorded;
      frames := frames + 1;
      damage[frames % HISTORY] := entry;
      scenes, damages, facts := scenes + [scene], damages + [entry], facts + [fine];
    }

    /** The union of the damage since frame `rendered`, read from the history modulo HISTORY. */
    method Since(rendered: nat) returns (clip: set<Px>)
      requires Shape() && 0 < rendered <= frames <= rendered + HISTORY
      ensures forall p :: p in clip <==> exists h :: rendered < h <= frames && p in damages[h]
    {
      clip := {};
      for f := rendered + 1 to frames + 1
        invariant forall p :: p in clip <==> exists h :: rendered < h < f && p in damages[h]
      {
        clip := clip + damage[f % HISTORY];
      }
    }

    /** The second half of `scene_damage`: the clip for a buffer that holds frame `rendered`. */
    method Clip(rendered: nat, ghost scene: seq<Op>) returns (clip: set<Px>)
      requires Shape() && !ops.lost && 0 < rendered <= frames <= rendered + HISTORY
      requires scene == scenes[frames] && ReachesItself(scene)
      ensures Clips(rendered, clip) && clip <= buffer
      ensures !NoLateReads(scene, clip, buffer) ==>
        exists region :: TightClip(rendered, region) && rectangles(region * buffer) > 16
    {
      clip := Since(rendered);
      ghost var raw := clip;
      clip := OplistExpand(ops.ops, clip);
      ghost var region := clip;
      assert TightClip(rendered, region) by {
        forall other: set<Px> | HoldsSince(damages, rendered, frames, other)
          ensures raw <= other
        {
        }
      }
      ReachClosedNoLateReads(scene, region, buffer);
      clip := clip * buffer;
      if rectangles(clip) > 16 {
        var e := Extents(clip);
        BoundingInside(clip, e, size);
        clip := Pixels(e);
      }
    }

    /** The least reach-closed region holding all the damage since frame `rendered`. */
    ghost predicate TightClip(rendered: nat, region: set<Px>)
      requires Shape()
      reads this, damage, slotFrame, slots, locks
    {
      LeastClosed(scenes[frames], damages, rendered, frames, region)
    }

    /** The clip is that region inside the buffer, or its bounding box when pixman needs many rectangles for it. */
    ghost predicate Clips(rendered: nat, clip: set<Px>)
      requires Shape()
      reads this, damage, slotFrame, slots, locks
    {
      exists region :: TightClip(rendered, region) && region * buffer <= clip &&
                       ClipOf(region * buffer, rectangles(region * buffer) > 16, clip)
    }

    /** `scene_damage`: compare, mark the buffer, and choose what to paint. */
    method SceneDamage(scene: seq<Op>, recorded: OpList, slot: nat)
      returns (partial: bool, clip: set<Px>, changed: set<Px>, rendered: nat)
      requires Valid() && slot < SLOTS && SinceSound(w) && Opaque(w, scene, buffer) && ReachesItself(scene)
      requires !recorded.lost ==> recorded.ops == scene
      requires !ops.lost && !recorded.lost && epoch < frames ==> Faithful(ops.ops, scene)
      requires slots[slot].Some?
      modifies this`ops, this`frames, this`scenes, this`damages, this`facts, damage, slotFrame
      ensures Shape() && frames == old(frames) + 1 && ops == recorded && scenes == old(scenes) + [scene]
      ensures slotFrame[..] == old(slotFrame[..])[slot := frames] && rendered == old(slotFrame[slot])
      ensures partial <==> !old(ops).lost && !recorded.lost && 0 < rendered && frames <= rendered + HISTORY
      ensures var complete := !old(ops).lost && !recorded.lost;
        facts == old(facts) + [FactOf(epoch, old(frames), complete, old(ops).ops, scene, changed, buffer)]
      ensures Held(w, scenes, old(slotFrame[..]), right, slots[..], buffer)
      ensures damages == old(damages) + [if !old(ops).lost && !recorded.lost then changed else buffer]
      ensures !old(ops).lost && !recorded.lost ==> ExactDamage(w, old(ops).ops, scene, changed)
      ensures partial ==> Clips(rendered, clip) && clip <= buffer
      ensures partial && !NoLateReads(scene, clip, buffer) ==>
        exists region :: TightClip(rendered, region) && rectangles(region * buffer) > 16
    {
      var complete;
      complete, changed := Compare(scene, recorded);
      rendered := slotFrame[slot];
      slotFrame[slot] := frames;
      partial := complete && rendered != 0 && frames - rendered <= HISTORY;
      clip := {};
      if partial {
        clip := Clip(rendered, scene);
      }
    }

    /**
     * The tracked part of `render_scene_buffer`.  A full repaint makes the buffer right whatever came before; a partial
     * one does if the buffer was right, every comparison since met its conditions and the clip causes no late read.
     */
    method RenderScene(scene: seq<Op>, recorded: OpList, slot: nat, begins: bool, fenced: bool)
      returns (success: bool, partial: bool, clip: set<Px>, changed: set<Px>)
      requires Valid() && slot < SLOTS && SinceSound(w) && Opaque(w, scene, buffer) && ReachesItself(scene)
      requires !recorded.lost ==> recorded.ops == scene
      requires !ops.lost && !recorded.lost && epoch < frames ==> Faithful(ops.ops, scene)
      requires slots[slot].Some?
      modifies this`ops, this`frames, this`scenes, this`damages, this`facts, this`right, damage, slotFrame, slots
      ensures Valid() && frames == old(frames) + 1 && scenes == old(scenes) + [scene] && success == (begins && fenced)
      ensures slotFrame[..] == old(slotFrame[..])[slot := if begins then frames else 0]
      ensures begins && right[slot] ==> slots[slot] == Some(Full(w, scene, buffer))
      ensures !begins ==> slots[slot] == old(slots[slot])
      ensures partial ==> Clips(old(slotFrame[slot]), clip) && clip <= buffer
      ensures slots[slot].Some? && (begins && partial ==> Untouched(old(slots[slot]).value, slots[slot].value, clip))
      ensures forall s :: 0 <= s < SLOTS && s != slot ==> slots[s] == old(slots[s])
      ensures damages == old(damages) + [if !old(ops).lost && !recorded.lost then changed else buffer]
      ensures !old(ops).lost && !recorded.lost ==> ExactDamage(w, old(ops).ops, scene, changed)
      ensures partial <==>
        !old(ops).lost && !recorded.lost && 0 < old(slotFrame[slot]) && frames <= old(slotFrame[slot]) + HISTORY
      ensures var complete := !old(ops).lost && !recorded.lost;
        facts == old(facts) + [FactOf(epoch, old(frames), complete, old(ops).ops, scene, changed, buffer)]
      ensures right == old(right)[slot :=
        || !begins || !partial
        || (old(right[slot]) && FactsSince(facts, old(slotFrame[slot])) && NoLateReads(scene, clip, buffer))]
    {
      hide Held, History, Full, ClipOf, LeastClosed, ExactDamage, Untouched, FactOf, FactsSince, NoLateReads, Opaque;
      var rendered;
      partial, clip, changed, rendered := SceneDamage(scene, recorded, slot);
      if !begins {
        HeldUnmarked(w, scenes, old(slotFrame[..]), right, slots[..], buffer, slot);
        slotFrame[slot] := 0;
        assert slotFrame[..] == old(slotFrame[..])[slot := 0];
        right := right[slot := true];
        return false, partial, clip, changed;
      }
      Draw(scene, slot, partial, clip, old(slotFrame[..]));
      success := fenced;
    }

    /** One pass over the marked buffer, inside the clip or over everything. */
    method Draw(scene: seq<Op>, slot: nat, partial: bool, clip: set<Px>, ghost marks: seq<nat>)
      requires Shape() && slot < SLOTS && slots[slot].Some? && frames > 0 && scene == scenes[frames]
      requires |marks| == SLOTS && slotFrame[..] == marks[slot := frames]
      requires Opaque(w, scene, buffer) && ReachesItself(scene)
      requires Held(w, scenes, marks, right, slots[..], buffer)
      requires partial ==> epoch < marks[slot] < frames
      requires partial ==> Clips(marks[slot], clip)
      modifies slots, this`right
      ensures Valid()
      ensures right == old(right)[slot :=
        !partial || (old(right[slot]) && FactsSince(facts, marks[slot]) && NoLateReads(scene, clip, buffer))]
      ensures right[slot] ==> slots[slot] == Some(Full(w, scene, buffer))
      ensures slots[slot].Some? && (partial ==> Untouched(old(slots[slot]).value, slots[slot].value, clip))
      ensures forall s :: 0 <= s < SLOTS && s != slot ==> slots[s] == old(slots[s])
    {
      hide Held, History, Full, Opaque, Paint, FactsSince, NoLateReads;
      var canvas := slots[slot].value;
      var painted := Paint(w, scene, |scene|, if partial then clip else buffer, canvas);
      PaintUntouched(w, scene, clip, canvas);
      ghost var rights :=
        !partial || (right[slot] && FactsSince(facts, marks[slot]) && NoLateReads(scene, clip, buffer));
      if rights {
        if partial {
          var region :| TightClip(marks[slot], region) && region * buffer <= clip;
          assert HoldsSince(damages, marks[slot], frames, region);
          HeldAt(w, scenes, marks, right, slots[..], buffer, slot);
          RepaintSince(w, scenes, damages, facts, epoch, buffer, marks[slot], region, clip);
        } else {
          RepaintAll(w, scene, buffer, canvas);
        }
      }
      HeldPainted(w, scenes, marks, right, slots[..], buffer, slot, frames, painted, rights);
      slots[slot] := Some(painted);
      right := right[slot := rights];
      assert slots[..] == old(slots[..])[slot := Some(painted)];
    }

    /**
     * A frame whose recording fails: everything is painted, but the frame counter and the mark of the buffer stay.
     * The mark is right only if the two scenes happen to look the same.
     */
    method RenderUnrecorded(scene: seq<Op>, slot: nat, begins: bool, fenced: bool) returns (success: bool)
      requires Valid() && slot < SLOTS && Opaque(w, scene, buffer) && slots[slot].Some?
      modifies this`right, slotFrame, slots
      ensures Valid() && success == (begins && fenced)
      ensures begins ==> slots[slot] == Some(Full(w, scene, buffer)) && slotFrame[..] == old(slotFrame[..])
      ensures !begins ==> slots[slot] == old(slots[slot]) && slotFrame[..] == old(slotFrame[..])[slot := 0]
      ensures forall s :: 0 <= s < SLOTS && s != slot ==> slots[s] == old(slots[s])
      ensures right == old(right)[slot :=
        slotFrame[slot] == 0 || Full(w, scene, buffer) == Full(w, scenes[slotFrame[slot]], buffer)]
    {
      hide Held, History, Full, Opaque, Paint;
      if !begins {
        HeldUnmarked(w, scenes, slotFrame[..], right, slots[..], buffer, slot);
        slotFrame[slot] := 0;
        right := right[slot := true];
        return false;
      }
      var canvas := slots[slot].value;
      RepaintAll(w, scene, buffer, canvas);
      ghost var same := slotFrame[slot] == 0 || Full(w, scene, buffer) == Full(w, scenes[slotFrame[slot]], buffer);
      HeldUnrecorded(w, scenes, slotFrame[..], right, slots[..], buffer, slot, Full(w, scene, buffer), same);
      slots[slot] := Some(Paint(w, scene, |scene|, buffer, canvas));
      right := right[slot := same];
      assert slots[..] == old(slots[..])[slot := Some(Full(w, scene, buffer))];
      success := fenced;
    }
  }

  /** Outside the clip every pixel keeps its colour. */
  ghost predicate Untouched(was: Canvas, now: Canvas, clip: set<Px>) {
    now.Keys == was.Keys && forall p :: p in was && p !in clip ==> now[p] == was[p]
  }

  lemma PaintUntouched(w: World, scene: seq<Op>, clip: set<Px>, canvas: Canvas)
    ensures Untouched(canvas, Paint(w, scene, |scene|, clip, canvas), clip)
  {
    forall p | p in canvas && p !in clip
      ensures Paint(w, scene, |scene|, clip, canvas)[p] == canvas[p]
    {
      OutsideClip(w, scene, |scene|, clip, canvas, p);
    }
  }

  /** The conditions under which a comparison accounts for everything that changed. */
  ghost predicate Compared(was: seq<Op>, now: seq<Op>, changed: set<Px>, buffer: set<Px>) {
    AllFine(now) && |Pairs(was, now)| == |now| && SwapsDamaged(now, Pairs(was, now), changed, buffer)
  }

  /**
   * Whether a comparison accounts for everything: one that cannot be made damages everything, and one with a scene from
   * before the ring was configured says nothing, because hashes do not tell buffers of different sizes apart.
   */
  ghost predicate FactOf(epoch: nat, frames: nat, complete: bool, was: seq<Op>, now: seq<Op>, changed: set<Px>,
                         buffer: set<Px>) {
    complete ==> epoch < frames && Compared(was, now, changed, buffer)
  }

  lemma HeldPainted(w: World, scenes: seq<seq<Op>>, marks: seq<nat>, right: seq<bool>, slots: seq<Option<Canvas>>,
                    buffer: set<Px>, slot: nat, frame: nat, painted: Canvas, rights: bool)
    requires slot < |marks| == |slots| == |right| && frame < |scenes| && Held(w, scenes, marks, right, slots, buffer)
    requires rights ==> painted == Full(w, scenes[frame], buffer)
    ensures Held(w, scenes, marks[slot := frame], right[slot := rights], slots[slot := Some(painted)], buffer)
  {
  }

  lemma HeldAt(w: World, scenes: seq<seq<Op>>, marks: seq<nat>, right: seq<bool>, slots: seq<Option<Canvas>>,
               buffer: set<Px>, slot: nat)
    requires slot < |marks| == |slots| == |right| && Held(w, scenes, marks, right, slots, buffer)
    ensures marks[slot] != 0 && right[slot] ==>
      marks[slot] < |scenes| && slots[slot] == Some(Full(w, scenes[marks[slot]], buffer))
  {
  }

  lemma HeldUnmarked(w: World, scenes: seq<seq<Op>>, marks: seq<nat>, right: seq<bool>, slots: seq<Option<Canvas>>,
                     buffer: set<Px>, slot: nat)
    requires slot < |marks| == |slots| == |right| && Held(w, scenes, marks, right, slots, buffer)
    ensures Held(w, scenes, marks[slot := 0], right[slot := true], slots, buffer)
  {
  }

  lemma HeldUnrecorded(w: World, scenes: seq<seq<Op>>, marks: seq<nat>, right: seq<bool>, slots: seq<Option<Canvas>>,
                       buffer: set<Px>, slot: nat, painted: Canvas, same: bool)
    requires slot < |marks| == |slots| == |right| && Held(w, scenes, marks, right, slots, buffer)
    requires same ==> marks[slot] == 0 || (marks[slot] < |scenes| && painted == Full(w, scenes[marks[slot]], buffer))
    ensures Held(w, scenes, marks, right[slot := same], slots[slot := Some(painted)], buffer)
  {
  }

  lemma HistoryGrows(w: World, scenes: seq<seq<Op>>, damages: seq<set<Px>>, facts: seq<bool>, epoch: nat,
                     buffer: set<Px>, scene: seq<Op>, changed: set<Px>, fine: bool)
    requires History(w, scenes, damages, facts, epoch, buffer) && Opaque(w, scene, buffer)
    requires fine ==> StepFact(w, scenes[|scenes| - 1], scene, changed, buffer)
    ensures History(w, scenes + [scene], damages + [changed], facts + [fine], epoch, buffer)
  {
  }

  lemma HeldGrows(w: World, scenes: seq<seq<Op>>, scene: seq<Op>, marks: seq<nat>, right: seq<bool>,
                  slots: seq<Option<Canvas>>, buffer: set<Px>)
    requires |marks| == |slots| == |right| && Held(w, scenes, marks, right, slots, buffer)
    ensures Held(w, scenes + [scene], marks, right, slots, buffer)
  {
  }
}
