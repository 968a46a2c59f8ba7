/**
 * When the frame step and the partial repaint are right for every shader, and when they are not.
 *
 * `oplist_damage` compares boxes with boxes when two operations swap places, so it does not see a swap with
 * something that only lies in a backdrop.  `scene_damage` may replace a reach-closed clip by its extents,
 * which need not be reach-closed.  Both lemmas give the exact condition, for lists without repeated hashes.
 */
module Exactness {
  import opened Boxes
  import opened Painting
  import opened Damage
  import opened Diff
  import opened Frames

  type Shader = (nat, Seen, Px, Color, map<Px, Color>) -> Color

  predicate UniqueHashes(ops: seq<Op>) {
    forall i, k :: 0 <= i < k < |ops| ==> ops[i].hash != ops[k].hash
  }

  // ----- which pixels the comparison damages

  /** Nothing about pixel `p` changed: the same operations cover it in the same order, with the same contents there. */
  ghost predicate Quiet(w: World, was: seq<Op>, now: seq<Op>, p: Px) {
    && (forall i :: 0 <= i < |now| && In(p, now[i].box) ==> exists j :: 0 <= j < |was| && was[j].hash == now[i].hash)
    && (forall j :: 0 <= j < |was| && In(p, was[j].box) ==> exists i :: 0 <= i < |now| && now[i].hash == was[j].hash)
    && (forall i, k, j, l :: Crossed(was, now, i, k, j, l) ==> !(In(p, now[i].box) && In(p, now[k].box)))
    && (forall i, j :: 0 <= i < |now| && 0 <= j < |was| && was[j].hash == now[i].hash ==>
      now[i].surface == 0 || now[i].commit == was[j].commit || !In(p, ContentDamage(w, was[j], now[i])))
  }

  /** Operations `i` and `k` come in this order, and in the old list in the other one. */
  predicate Crossed(was: seq<Op>, now: seq<Op>, i: int, k: int, j: int, l: int) {
    0 <= i < k < |now| && 0 <= l < j < |was| && was[j].hash == now[i].hash && was[l].hash == now[k].hash
  }

  lemma PairedUnique(was: seq<Op>, now: seq<Op>, i: nat, j: nat)
    requires UniqueHashes(was) && UniqueHashes(now) && i < |now| && j < |was| && was[j].hash == now[i].hash
    ensures |Pairs(was, now)| == |now| && Pairs(was, now)[i] == j
  {
    PairsMatch(was, now);
    if Pairs(was, now)[i] < 0 {
      assert j in Pairs(was, now);
    }
  }

  /** In lists without repeated hashes the damage is exactly the pixels that are not quiet. */
  lemma DamagedIff(w: World, was: seq<Op>, now: seq<Op>, p: Px)
    requires UniqueHashes(was) && UniqueHashes(now)
    ensures Matching(was, now, Pairs(was, now))
    ensures Damaged(w, was, now, Pairs(was, now), p) <==> !Quiet(w, was, now, p)
  {
    PairsMatch(was, now);
    if Quiet(w, was, now, p) {
      UndamagedIfQuiet(w, was, now, p);
    } else if !Damaged(w, was, now, Pairs(was, now), p) {
      QuietIfUndamaged(w, was, now, p);
    }
  }

  lemma QuietIfUndamaged(w: World, was: seq<Op>, now: seq<Op>, p: Px)
    requires UniqueHashes(was) && UniqueHashes(now) && Matching(was, now, Pairs(was, now))
    requires !Damaged(w, was, now, Pairs(was, now), p)
    ensures Quiet(w, was, now, p)
  {
    var pairs := Pairs(was, now);
    forall i | 0 <= i < |now| && In(p, now[i].box)
      ensures exists j :: 0 <= j < |was| && was[j].hash == now[i].hash
    {
      assert !NewHit(w, was, now[i], pairs[i], p);
    }
    forall j | 0 <= j < |was| && In(p, was[j].box)
      ensures exists i :: 0 <= i < |now| && now[i].hash == was[j].hash
    {
      assert j in pairs;
    }
    forall i, k, j, l | Crossed(was, now, i, k, j, l)
      ensures !(In(p, now[i].box) && In(p, now[k].box))
    {
      PairedUnique(was, now, i, j);
      PairedUnique(was, now, k, l);
      assert Inverted(pairs, i, k);
    }
    forall i, j | 0 <= i < |now| && 0 <= j < |was| && was[j].hash == now[i].hash
      ensures now[i].surface == 0 || now[i].commit == was[j].commit || !In(p, ContentDamage(w, was[j], now[i]))
    {
      PairedUnique(was, now, i, j);
      assert !NewHit(w, was, now[i], pairs[i], p);
    }
  }

  lemma UndamagedIfQuiet(w: World, was: seq<Op>, now: seq<Op>, p: Px)
    requires UniqueHashes(was) && UniqueHashes(now) && Matching(was, now, Pairs(was, now)) && Quiet(w, was, now, p)
    ensures !Damaged(w, was, now, Pairs(was, now), p)
  {
    var pairs := Pairs(was, now);
    forall i | 0 <= i < |now|
      ensures !NewHit(w, was, now[i], pairs[i], p)
    {
      if pairs[i] < 0 && In(p, now[i].box) {
        var j :| 0 <= j < |was| && was[j].hash == now[i].hash;
        PairedUnique(was, now, i, j);
      }
    }
    forall j | 0 <= j < |was| && In(p, was[j].box)
      ensures j in pairs
    {
      var i :| 0 <= i < |now| && now[i].hash == was[j].hash;
      PairedUnique(was, now, i, j);
    }
    forall i: nat, k: nat | i < |now| && k < |now| && Inverted(pairs, i, k)
      ensures !(In(p, now[i].box) && In(p, now[k].box))
    {
      assert Crossed(was, now, i, k, pairs[i], pairs[k]);
    }
  }

  /** The list starts with a rectangle over the buffer that reads no backdrop. */
  ghost predicate Grounded(ops: seq<Op>, buffer: set<Px>) {
    |ops| > 0 && ops[0].reach.Empty() && forall p :: p in buffer ==> In(p, ops[0].box)
  }

  /**
   * A shader that tells whether `writer` has painted pixel `q` yet: `writer` sets `q` to 1, `reader` shows 3
   * or 2 elsewhere depending on whether its backdrop has that 1, `base` clears to 0, and everything
   * else is transparent.
   */
  function Probe(writer: nat, reader: nat, q: Px, base: nat): Shader {
    (hash: nat, seen: Seen, p: Px, was: Color, backdrop: map<Px, Color>) =>
      if hash == writer && p == q then 1
      else if hash == reader then (if q in backdrop && backdrop[q] == 1 then 3 else 2)
      else if hash == base then 0
      else was
  }

  /** The list `ops` with `writer` at `x` over `q` and `reader` at `b` reading `q`. */
  ghost predicate Probed(w: World, ops: seq<Op>, buffer: set<Px>, x: nat, b: nat, q: Px, base: nat) {
    && Grounded(ops, buffer) && UniqueHashes(ops) && 0 < x < |ops| && 0 < b < |ops|
    && w.shade == Probe(ops[x].hash, ops[b].hash, q, base)
    && ops[0].hash == base
    && q in buffer && In(q, ops[x].box) && In(q, ops[b].reach)
  }

  lemma ProbedOpaque(w: World, ops: seq<Op>, buffer: set<Px>, x: nat, b: nat, q: Px, base: nat)
    requires Probed(w, ops, buffer, x, b, q, base)
    ensures Opaque(w, ops, buffer)
  {
  }

  /** What `q` holds after `n` operations: 1 from the writer on, until the reader has drawn. */
  lemma {:induction false} ProbeAtWriter(w: World, ops: seq<Op>, buffer: set<Px>, x: nat, b: nat, q: Px, base: nat,
                                         clip: set<Px>, c: Canvas, n: nat)
    requires Probed(w, ops, buffer, x, b, q, base) && c.Keys == buffer && q in clip
    requires 0 < n <= |ops| && (n <= b || x == b || !In(q, ops[b].box))
    ensures Paint(w, ops, n, clip, c)[q] == if x < n then 1 else 0
  {
    if n > 1 {
      ProbeAtWriter(w, ops, buffer, x, b, q, base, clip, c, n - 1);
    }
  }

  /** What the reader leaves at `p`, given the colour that `q` had when it drew. */
  lemma {:induction false} ProbeAtReader(w: World, ops: seq<Op>, buffer: set<Px>, x: nat, b: nat, q: Px, base: nat,
                                         clip: set<Px>, c: Canvas, n: nat, p: Px)
    requires Probed(w, ops, buffer, x, b, q, base) && c.Keys == buffer
    requires b < n <= |ops| && p in buffer && p in clip && In(p, ops[b].box) && p != q
    ensures Paint(w, ops, n, clip, c)[p] == if Paint(w, ops, b, clip, c)[q] == 1 then 3 else 2
  {
    if n > b + 1 {
      ProbeAtReader(w, ops, buffer, x, b, q, base, clip, c, n - 1, p);
    }
  }

  // ----- the frame step

  /** With this shader, the two lists paint the same pixels outside the region. */
  ghost predicate StepRight(w: World, shade: Shader, was: seq<Op>, now: seq<Op>, region: set<Px>, buffer: set<Px>) {
    var v := w.(shade := shade);
    Opaque(v, was, buffer) && Opaque(v, now, buffer) ==>
      forall p :: p in buffer && p !in region ==> Full(v, was, buffer)[p] == Full(v, now, buffer)[p]
  }

  /** If some pixel is outside the damage, the two base rectangles are partners. */
  lemma BasesPaired(w: World, was: seq<Op>, now: seq<Op>, pairs: seq<int>, region: set<Px>, buffer: set<Px>, p: Px)
    requires Diffless(w, was, now, pairs, region, buffer) && p in buffer && p !in region
    requires Grounded(was, buffer) && Grounded(now, buffer)
    ensures pairs[0] == 0 && was[0].hash == now[0].hash
  {
    assert !NewHit(w, was, now[0], pairs[0], p);
    assert !OldDamage(was, pairs, |was|, p);
    var m :| 0 <= m < |pairs| && pairs[m] == 0;
    assert was[0] in was && now[m] in now && SameHash(was[0], now[m]);
  }

  /** `Diffed` without the condition on swaps. */
  ghost predicate Diffless(w: World, was: seq<Op>, now: seq<Op>, pairs: seq<int>, region: set<Px>, buffer: set<Px>) {
    Comparable(w, was, now) && Covers(w, was, now, pairs, region, buffer) && Safe(now, region, buffer)
  }

  lemma UnseenSwapShows(w: World, was: seq<Op>, now: seq<Op>, pairs: seq<int>, region: set<Px>, buffer: set<Px>,
                        i: nat, k: nat, p: Px, q: Px)
    requires Diffless(w, was, now, pairs, region, buffer)
    requires UniqueHashes(was) && UniqueHashes(now) && Grounded(was, buffer) && Grounded(now, buffer)
    requires i < |now| && k < |now| && Swapped(pairs, i, k) && q in buffer && In(q, now[i].reach) && In(q, now[k].box)
    requires p in buffer && p !in region && In(p, now[i].box)
    ensures exists shade :: !StepRight(w, shade, was, now, region, buffer)
  {
    BasesPaired(w, was, now, pairs, region, buffer, p);
    var x, b := pairs[k], pairs[i];
    assert was[x] in was && now[k] in now && SameHash(was[x], now[k]);
    assert was[b] in was && now[i] in now && SameHash(was[b], now[i]);
    assert !OrderDamage(now, pairs, p);
    assert !In(p, now[k].box);
    var shade := Probe(now[k].hash, now[i].hash, q, now[0].hash);
    var v := w.(shade := shade);
    ProbedOpaque(v, now, buffer, k, i, q, now[0].hash);
    ProbedOpaque(v, was, buffer, x, b, q, now[0].hash);
    ProbeAtWriter(v, now, buffer, k, i, q, now[0].hash, buffer, Blank(buffer), i);
    ProbeAtWriter(v, was, buffer, x, b, q, now[0].hash, buffer, Blank(buffer), b);
    ProbeAtReader(v, now, buffer, k, i, q, now[0].hash, buffer, Blank(buffer), |now|, p);
    ProbeAtReader(v, was, buffer, x, b, q, now[0].hash, buffer, Blank(buffer), |was|, p);
    assert !StepRight(w, shade, was, now, region, buffer);
  }

  /**
   * For lists without repeated hashes, the damage region is right for every shader exactly when each
   * operation that swapped places with something in its backdrop lies inside the region.
   */
  lemma FrameStepExact(w: World, was: seq<Op>, now: seq<Op>, pairs: seq<int>, region: set<Px>, buffer: set<Px>)
    requires Diffless(w, was, now, pairs, region, buffer)
    requires UniqueHashes(was) && UniqueHashes(now) && Grounded(was, buffer) && Grounded(now, buffer)
    ensures InversionsCovered(now, pairs, region, buffer) <==>
      forall shade :: StepRight(w, shade, was, now, region, buffer)
  {
    if InversionsCovered(now, pairs, region, buffer) {
      forall shade
        ensures StepRight(w, shade, was, now, region, buffer)
      {
        var v := w.(shade := shade);
        ShaderIrrelevant(w, v, was, now, pairs, region, buffer);
        forall p | p in buffer && p !in region
          ensures Full(v, was, buffer)[p] == Full(v, now, buffer)[p]
        {
          FrameStep(v, was, now, pairs, region, buffer, p);
        }
      }
    } else {
      var i: nat, k: nat :| i < |now| && k < |now| && Swapped(pairs, i, k) && Reads(now, i, k, buffer) &&
        !BoxInside(now[i], region, buffer);
      var q :| q in buffer && In(q, now[i].reach) && In(q, now[k].box);
      var p :| p in buffer && In(p, now[i].box) && p !in region;
      UnseenSwapShows(w, was, now, pairs, region, buffer, i, k, p, q);
    }
  }

  /** Damage does not look at the shader. */
  lemma ShaderIrrelevant(w: World, v: World, was: seq<Op>, now: seq<Op>, pairs: seq<int>, region: set<Px>,
                         buffer: set<Px>)
    requires Diffless(w, was, now, pairs, region, buffer) && v.texel == w.texel && v.since == w.since
    ensures Diffless(v, was, now, pairs, region, buffer)
  {
    forall p | p in buffer && Damaged(v, was, now, pairs, p)
      ensures p in region
    {
      forall i | 0 <= i < |now|
        ensures NewHit(v, was, now[i], pairs[i], p) == NewHit(w, was, now[i], pairs[i], p)
      {
      }
      assert Damaged(w, was, now, pairs, p);
    }
  }

  // ----- the partial repaint

  ghost predicate Drawn(op: Op, clip: set<Px>, buffer: set<Px>) {
    exists p :: p in buffer && p in clip && In(p, op.box)
  }

  /** `op` is drawn in the clip and reads `q` outside it. */
  ghost predicate Late(op: Op, clip: set<Px>, buffer: set<Px>, q: Px) {
    Drawn(op, clip, buffer) && q in buffer && q !in clip && In(q, op.reach)
  }

  /** No operation drawn in the clip reads a pixel outside it that it or a later operation covers. */
  ghost predicate NoLateReads(ops: seq<Op>, clip: set<Px>, buffer: set<Px>) {
    forall i, k, q :: 0 <= i <= k < |ops| && Late(ops[i], clip, buffer, q) ==> !In(q, ops[k].box)
  }

  /** Outside the clip a pass changes nothing. */
  lemma {:induction false} OutsideClip(w: World, ops: seq<Op>, n: nat, clip: set<Px>, c: Canvas, p: Px)
    requires n <= |ops| && p in c && p !in clip
    ensures Paint(w, ops, n, clip, c)[p] == c[p]
  {
    if n > 0 {
      OutsideClip(w, ops, n - 1, clip, c, p);
    }
  }

  /** A pixel that no operation from `n` on covers keeps its colour. */
  lemma {:induction false} Uncovered(w: World, ops: seq<Op>, n: nat, m: nat, clip: set<Px>, c: Canvas, p: Px)
    requires n <= m <= |ops| && p in c && forall k :: n <= k < m ==> !In(p, ops[k].box)
    ensures Paint(w, ops, m, clip, c)[p] == Paint(w, ops, n, clip, c)[p]
  {
    if n < m {
      Uncovered(w, ops, n, m - 1, clip, c, p);
    }
  }

  ghost predicate StaleOutside(w: World, ops: seq<Op>, clip: set<Px>, buffer: set<Px>, stale: Canvas) {
    stale.Keys == buffer && forall p :: p in buffer && p !in clip ==> stale[p] == Full(w, ops, buffer)[p]
  }

  /** A pixel outside the clip that is read has its final colour already. */
  lemma ReadOutside(w: World, ops: seq<Op>, n: nat, clip: set<Px>, buffer: set<Px>, stale: Canvas, p: Px, q: Px)
    requires StaleOutside(w, ops, clip, buffer, stale) && NoLateReads(ops, clip, buffer)
    requires 0 < n <= |ops| && p in buffer && p in clip && In(p, ops[n - 1].box)
    requires q in buffer && q !in clip && In(q, ops[n - 1].reach)
    ensures Paint(w, ops, n - 1, clip, stale)[q] == Paint(w, ops, n - 1, buffer, Blank(buffer))[q]
  {
    hide Paint;
    OutsideClip(w, ops, n - 1, clip, stale, q);
    assert Late(ops[n - 1], clip, buffer, q);
    Uncovered(w, ops, n - 1, |ops|, buffer, Blank(buffer), q);
  }

  /** Inside the clip, each prefix paints what it paints on a blank buffer. */
  lemma {:induction false} InsideClip(w: World, ops: seq<Op>, n: nat, clip: set<Px>, buffer: set<Px>, stale: Canvas,
                                      p: Px)
    requires Opaque(w, ops, buffer) && StaleOutside(w, ops, clip, buffer, stale) && NoLateReads(ops, clip, buffer)
    requires 0 < n <= |ops| && p in buffer && p in clip
    ensures Paint(w, ops, n, clip, stale)[p] == Paint(w, ops, n, buffer, Blank(buffer))[p]
  {
    var op := ops[n - 1];
    var cs, cb := Paint(w, ops, n - 1, clip, stale), Paint(w, ops, n - 1, buffer, Blank(buffer));
    if n == 1 {
      assert Backdrop(op, cs) == map[] && Backdrop(op, cb) == map[];
      assert Plain(w, op.hash, View(w, op, p), p, cs[p]) == Plain(w, op.hash, View(w, op, p), p, cb[p]);
    } else {
      InsideClip(w, ops, n - 1, clip, buffer, stale, p);
      if In(p, op.box) {
        forall q | q in buffer && In(q, op.reach)
          ensures cs[q] == cb[q]
        {
          if q in clip {
            InsideClip(w, ops, n - 1, clip, buffer, stale, q);
          } else {
            ReadOutside(w, ops, n, clip, buffer, stale, p, q);
          }
        }
        assert Backdrop(op, cs) == Backdrop(op, cb);
      }
    }
  }

  /** Painting inside the clip over a buffer that is right outside it gives the full painting. */
  lemma Repaint(w: World, ops: seq<Op>, clip: set<Px>, buffer: set<Px>, stale: Canvas)
    requires Opaque(w, ops, buffer) && StaleOutside(w, ops, clip, buffer, stale) && NoLateReads(ops, clip, buffer)
    ensures Paint(w, ops, |ops|, clip, stale) == Full(w, ops, buffer)
  {
    forall p | p in buffer
      ensures Paint(w, ops, |ops|, clip, stale)[p] == Full(w, ops, buffer)[p]
    {
      if p in clip {
        InsideClip(w, ops, |ops|, clip, buffer, stale, p);
      } else {
        OutsideClip(w, ops, |ops|, clip, stale, p);
      }
    }
  }

  /** With this shader, repainting inside the clip always ends with the full painting. */
  ghost predicate RepaintRight(w: World, shade: Shader, ops: seq<Op>, clip: set<Px>, buffer: set<Px>) {
    var v := w.(shade := shade);
    Opaque(v, ops, buffer) ==>
      forall stale :: StaleOutside(v, ops, clip, buffer, stale) ==>
        Paint(v, ops, |ops|, clip, stale) == Full(v, ops, buffer)
  }

  lemma LateReadShows(w: World, ops: seq<Op>, clip: set<Px>, buffer: set<Px>, i: nat, k: nat, q: Px)
    requires UniqueHashes(ops) && Grounded(ops, buffer)
    requires i <= k < |ops| && Late(ops[i], clip, buffer, q) && In(q, ops[k].box) && (k == i || !In(q, ops[i].box))
    ensures exists shade :: !RepaintRight(w, shade, ops, clip, buffer)
  {
    var p :| p in buffer && p in clip && In(p, ops[i].box);
    var base := ops[0].hash;
    var shade := Probe(ops[k].hash, ops[i].hash, q, base);
    var v := w.(shade := shade);
    ProbedOpaque(v, ops, buffer, k, i, q, base);
    var full := Full(v, ops, buffer);
    ProbeAtWriter(v, ops, buffer, k, i, q, base, buffer, Blank(buffer), i);
    ProbeAtWriter(v, ops, buffer, k, i, q, base, buffer, Blank(buffer), |ops|);
    ProbeAtReader(v, ops, buffer, k, i, q, base, buffer, Blank(buffer), |ops|, p);
    OutsideClip(v, ops, i, clip, full, q);
    ProbeAtReader(v, ops, buffer, k, i, q, base, clip, full, |ops|, p);
    assert StaleOutside(v, ops, clip, buffer, full);
    assert !RepaintRight(w, shade, ops, clip, buffer);
  }

  /**
   * For a list without repeated hashes, a partial repaint is right for every shader and every buffer that is
   * right outside the clip, exactly when nothing drawn in the clip reads a pixel outside it too late.
   */
  lemma RepaintExact(w: World, ops: seq<Op>, clip: set<Px>, buffer: set<Px>)
    requires UniqueHashes(ops) && Grounded(ops, buffer)
    ensures NoLateReads(ops, clip, buffer) <==> forall shade :: RepaintRight(w, shade, ops, clip, buffer)
  {
    if NoLateReads(ops, clip, buffer) {
      forall shade
        ensures RepaintRight(w, shade, ops, clip, buffer)
      {
        var v := w.(shade := shade);
        if Opaque(v, ops, buffer) {
          forall stale | StaleOutside(v, ops, clip, buffer, stale)
            ensures Paint(v, ops, |ops|, clip, stale) == Full(v, ops, buffer)
          {
            Repaint(v, ops, clip, buffer, stale);
          }
        }
      }
    } else {
      var i, k, q :| 0 <= i <= k < |ops| && Late(ops[i], clip, buffer, q) && In(q, ops[k].box);
      LateReadShows(w, ops, clip, buffer, i, if In(q, ops[i].box) then i else k, q);
    }
  }

  /** A reach-closed clip never causes a late read. */
  lemma ReachClosedNoLateReads(ops: seq<Op>, region: set<Px>, buffer: set<Px>)
    requires ReachClosed(ops, region) && ReachesItself(ops)
    ensures NoLateReads(ops, region * buffer, buffer) && Safe(ops, region * buffer, buffer)
  {
    forall op | op in ops
      ensures Drawn(op, region * buffer, buffer) ==> forall q :: q in buffer && In(q, op.reach) ==> q in region
      ensures ReachOutside(op, region * buffer, buffer) || BoxInside(op, region * buffer, buffer)
    {
      if Pixels(op.reach) <= region {
        assert op.reach.Empty() || BoxInside(op, region * buffer, buffer);
      } else {
        assert forall q :: q in Pixels(op.reach) ==> q !in region;
      }
    }
  }

  // ----- both conditions can fail

  function Plainly(hash: nat, box: Box, reach: Box): Op {
    Op(hash, 0, 0, box, reach, FBox(0.0, 0.0, 0.0, 0.0), false, false)
  }

  /** A blur over the left pixel of two, whose backdrop is both. */
  const BASE := Plainly(1, Box(0, 0, 2, 1), NO_BOX)
  const BLUR := Plainly(2, Box(0, 0, 1, 1), Box(0, 0, 2, 1))
  const RECT := Plainly(3, Box(1, 0, 1, 1), NO_BOX)

  const BLUR_BELOW := [BASE, BLUR, RECT]
  const BLUR_ABOVE := [BASE, RECT, BLUR]

  lemma NothingDamaged(w: World, p: Px)
    requires SinceSound(w)
    ensures !Damaged(w, BLUR_BELOW, BLUR_ABOVE, [0, 2, 1], p)
  {
    var pairs := [0, 2, 1];
    assert pairs[0] == 0 && pairs[1] == 2 && pairs[2] == 1;
    assert !In(p, BLUR.box) || !In(p, RECT.box);
  }

  /** Lowering the rectangle below the blur damages nothing, and yet some shader shows the difference. */
  lemma UnseenSwap(w: World)
    requires SinceSound(w)
    ensures Pairs(BLUR_BELOW, BLUR_ABOVE) == [0, 2, 1] && Matching(BLUR_BELOW, BLUR_ABOVE, [0, 2, 1])
    ensures forall p :: !Damaged(w, BLUR_BELOW, BLUR_ABOVE, [0, 2, 1], p)
    ensures exists shade :: !StepRight(w, shade, BLUR_BELOW, BLUR_ABOVE, {}, Pixels(Box(0, 0, 2, 1)))
  {
    SwappedPairs(BLUR_BELOW, BLUR_ABOVE);
    PairsMatch(BLUR_BELOW, BLUR_ABOVE);
    forall p
      ensures !Damaged(w, BLUR_BELOW, BLUR_ABOVE, [0, 2, 1], p)
    {
      NothingDamaged(w, p);
    }
    var buffer := Pixels(Box(0, 0, 2, 1));
    SwapUncovered(w, buffer);
    assert In(Px(1, 0), BLUR_ABOVE[2].reach) && In(Px(1, 0), BLUR_ABOVE[1].box);
    hide Damaged, Matching, Pairs;
    UnseenSwapShows(w, BLUR_BELOW, BLUR_ABOVE, [0, 2, 1], {}, buffer, 2, 1, Px(0, 0), Px(1, 0));
  }

  lemma SwapUncovered(w: World, buffer: set<Px>)
    requires SinceSound(w) && buffer == Pixels(Box(0, 0, 2, 1)) && Matching(BLUR_BELOW, BLUR_ABOVE, [0, 2, 1])
    requires forall p :: !Damaged(w, BLUR_BELOW, BLUR_ABOVE, [0, 2, 1], p)
    ensures Diffless(w, BLUR_BELOW, BLUR_ABOVE, [0, 2, 1], {}, buffer)
    ensures UniqueHashes(BLUR_BELOW) && UniqueHashes(BLUR_ABOVE)
    ensures Grounded(BLUR_BELOW, buffer) && Grounded(BLUR_ABOVE, buffer)
  {
    hide Damaged, Matching;
  }

  lemma SwappedPairs(was: seq<Op>, now: seq<Op>)
    requires was == [BASE, BLUR, RECT] && now == [BASE, RECT, BLUR]
    ensures Pairs(was, now) == [0, 2, 1]
  {
    assert Find(was, [], 1, 0, 0) == 0;
    PairUpStep(was, now, 0, [], 0, 0, [0]);
    assert Find(was, [0], 3, 1, 1) == 2;
    PairUpStep(was, now, 1, [0], 1, 2, [0, 2]);
    assert Find(was, [0, 2], 2, 3, 1) == 1;
    PairUpStep(was, now, 2, [0, 2], 3, 1, [0, 2, 1]);
  }

  lemma PairUpStep(was: seq<Op>, now: seq<Op>, n: nat, done: seq<int>, start: nat, j: nat, more: seq<int>)
    requires more == done + [j] && n < |now| && start <= |was|
    requires PairUp(was, now, n) == (done, start) && Find(was, done, now[n].hash, start, 0) == j
    ensures PairUp(was, now, n + 1) == (more, j + 1)
  {
  }

  /** Seventeen pixels along a diagonal: no two of them fit into one rectangle. */
  function Diagonal(): (s: set<Px>)
    ensures forall p :: p in s <==> 0 <= p.x == p.y < 17
  {
    var s := set i: int | 0 <= i < 17 :: Px(i, i);
    assert forall p: Px :: 0 <= p.x == p.y < 17 ==> Px(p.x, p.x) in s;
    s
  }

  /** A blur at the end of the diagonal, whose backdrop sticks out of the square around it, under a later rectangle. */
  const CORNER_BLUR := Plainly(2, Box(16, 0, 1, 1), Box(16, 0, 2, 1))
  const CORNER := [Plainly(1, Box(0, 0, 18, 17), NO_BOX), CORNER_BLUR, Plainly(3, Box(17, 0, 1, 1), NO_BOX)]

  function Square(): set<Px> {
    Pixels(Box(0, 0, 17, 17))
  }

  function Desk(): set<Px> {
    Pixels(Box(0, 0, 18, 17))
  }

  lemma DiagonalClosed()
    ensures ReachClosed(CORNER, Diagonal()) && Diagonal() <= Square()
  {
    forall q | q in Pixels(CORNER_BLUR.reach)
      ensures q !in Diagonal()
    {
    }
  }

  lemma CornerReadsLate()
    ensures Late(CORNER[1], Square(), Desk(), Px(17, 0)) && In(Px(17, 0), CORNER[2].box)
    ensures !NoLateReads(CORNER, Square(), Desk())
  {
    assert Px(16, 0) in Square() && Px(16, 0) in Desk() && In(Px(16, 0), CORNER[1].box);
    assert Late(CORNER[1], Square(), Desk(), Px(17, 0));
  }

  lemma CornerPlain()
    ensures UniqueHashes(CORNER) && Grounded(CORNER, Desk())
  {
  }

  /** A reach-closed clip whose extents cut through a backdrop: repainting inside the extents can go wrong. */
  lemma ExtentsReadLate(w: World)
    ensures ReachClosed(CORNER, Diagonal()) && Diagonal() <= Square() && !NoLateReads(CORNER, Square(), Desk())
    ensures exists shade :: !RepaintRight(w, shade, CORNER, Square(), Desk())
  {
    hide *;
    DiagonalClosed();
    CornerReadsLate();
    CornerPlain();
    RepaintExact(w, CORNER, Square(), Desk());
  }
}
