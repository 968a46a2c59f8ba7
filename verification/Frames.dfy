/** Why painting only the damage is enough: the step from one recorded frame to the next. */
module Frames {
  import opened Boxes
  import opened Painting
  import opened Damage
  import opened Diff

  /** `now[i]` reads its backdrop at a pixel that `now[k]` covers. */
  ghost predicate Reads(now: seq<Op>, i: nat, k: nat, buffer: set<Px>)
    requires i < |now| && k < |now|
  {
    exists q :: q in buffer && In(q, now[i].reach) && In(q, now[k].box)
  }

  ghost predicate BoxInside(op: Op, region: set<Px>, buffer: set<Px>) {
    forall p :: p in buffer && In(p, op.box) ==> p in region
  }

  ghost predicate ReachOutside(op: Op, region: set<Px>, buffer: set<Px>) {
    forall q :: q in buffer && In(q, op.reach) ==> q !in region
  }

  /** Each operation is either confined to the region or reads nothing of it. */
  ghost predicate Safe(ops: seq<Op>, region: set<Px>, buffer: set<Px>) {
    forall op :: op in ops ==> ReachOutside(op, region, buffer) || BoxInside(op, region, buffer)
  }

  /** Two new operations whose partners were in the other order. */
  predicate Swapped(pairs: seq<int>, i: nat, k: nat)
    requires i < |pairs| && k < |pairs|
  {
    Inverted(pairs, i, k) || Inverted(pairs, k, i)
  }

  /** An operation that swapped places with something in its backdrop lies inside the region. */
  ghost predicate InversionsCovered(now: seq<Op>, pairs: seq<int>, region: set<Px>, buffer: set<Px>)
    requires |pairs| == |now|
  {
    forall i: nat, k: nat :: i < |now| && k < |now| && Swapped(pairs, i, k) && Reads(now, i, k, buffer) ==>
      BoxInside(now[i], region, buffer)
  }

  /** What the renderer guarantees about two consecutive recordings. */
  ghost predicate Comparable(w: World, was: seq<Op>, now: seq<Op>) {
    SinceSound(w) && Faithful(was, now) && forall op :: op in now ==> FineScale(op)
  }

  /** All the damage of the step is inside the region. */
  ghost predicate Covers(w: World, was: seq<Op>, now: seq<Op>, pairs: seq<int>, region: set<Px>, buffer: set<Px>) {
    && Matching(was, now, pairs)
    && forall p :: p in buffer && Damaged(w, was, now, pairs, p) ==> p in region
  }

  ghost predicate Diffed(w: World, was: seq<Op>, now: seq<Op>, pairs: seq<int>, region: set<Px>, buffer: set<Px>) {
    && Comparable(w, was, now)
    && Covers(w, was, now, pairs, region, buffer)
    && Safe(now, region, buffer)
    && InversionsCovered(now, pairs, region, buffer)
  }

  /** Outside the region every new operation has an old partner that looks the same there. */
  lemma Partner(w: World, was: seq<Op>, now: seq<Op>, pairs: seq<int>, region: set<Px>, buffer: set<Px>, i: nat, p: Px)
    requires Diffed(w, was, now, pairs, region, buffer) && p in buffer && p !in region
    requires i < |now| && In(p, now[i].box)
    ensures 0 <= pairs[i] < |was| && was[pairs[i]].box == now[i].box && was[pairs[i]].reach == now[i].reach
    ensures was[pairs[i]].hash == now[i].hash && View(w, was[pairs[i]], p) == View(w, now[i], p)
    ensures ReachOutside(now[i], region, buffer)
  {
    assert now[i] in now;
    assert !NewHit(w, was, now[i], pairs[i], p);
    var a, b := was[pairs[i]], now[i];
    assert a in was && SameHash(a, b);
    if b.surface != 0 && b.commit != a.commit {
      ContentDamageSound(w, a, b, p);
    } else {
      ViewSame(w, a, b, p);
    }
  }

  /** Outside the region every old operation is somebody's partner. */
  lemma OldPartner(w: World, was: seq<Op>, now: seq<Op>, pairs: seq<int>, region: set<Px>, buffer: set<Px>, j: nat,
                   p: Px)
    returns (i: nat)
    requires Diffed(w, was, now, pairs, region, buffer) && p in buffer && p !in region
    requires j < |was| && In(p, was[j].box)
    ensures i < |now| && pairs[i] == j && In(p, now[i].box)
  {
    assert !OldDamage(was, pairs, |was|, p);
    i :| 0 <= i < |pairs| && pairs[i] == j;
    assert was[j] in was && now[i] in now && SameHash(was[j], now[i]);
  }

  /** The prefixes `now[..n]` and `was[..m]` hold the same operations over `p`. */
  ghost predicate Aligned(now: seq<Op>, pairs: seq<int>, n: nat, m: nat, p: Px)
    requires |pairs| == |now|
  {
    forall i :: 0 <= i < |now| && In(p, now[i].box) ==> (i < n <==> pairs[i] < m)
  }

  /** Just below two partners over `p`, whatever their backdrop shows is aligned as well. */
  lemma BackdropAligned(w: World, was: seq<Op>, now: seq<Op>, pairs: seq<int>, region: set<Px>, buffer: set<Px>,
                        i: nat, p: Px, q: Px)
    requires Diffed(w, was, now, pairs, region, buffer) && p in buffer && p !in region
    requires i < |now| && In(p, now[i].box) && pairs[i] >= 0
    requires q in buffer && q !in region && In(q, now[i].reach)
    ensures Aligned(now, pairs, i, pairs[i], q)
  {
    forall k | 0 <= k < |now| && In(q, now[k].box)
      ensures k < i <==> pairs[k] < pairs[i]
    {
      Partner(w, was, now, pairs, region, buffer, k, q);
      assert Reads(now, i, k, buffer);
      assert !BoxInside(now[i], region, buffer);
      assert !Swapped(pairs, i, k);
      assert k != i ==> pairs[k] != pairs[i];
    }
  }

  /** Aligned prefixes paint the same colour. */
  lemma {:induction false} AlignedSame(w: World, was: seq<Op>, now: seq<Op>, pairs: seq<int>, region: set<Px>,
                                       buffer: set<Px>, n: nat, m: nat, p: Px)
    requires Diffed(w, was, now, pairs, region, buffer) && p in buffer && p !in region
    requires n <= |now| && m <= |was| && Aligned(now, pairs, n, m, p)
    ensures Paint(w, now, n, buffer, Blank(buffer))[p] == Paint(w, was, m, buffer, Blank(buffer))[p]
    decreases n + m
  {
    hide Diffed, Aligned;
    PairsForAll(w, was, now, pairs, region, buffer);
    if n > 0 && !In(p, now[n - 1].box) {
      WithoutNew(now, pairs, n, m, p);
      AlignedSame(w, was, now, pairs, region, buffer, n - 1, m, p);
    } else if m > 0 && !In(p, was[m - 1].box) {
      WithoutOld(w, was, now, pairs, region, buffer, n, m, p);
      AlignedSame(w, was, now, pairs, region, buffer, n, m - 1, p);
    } else if n > 0 || m > 0 {
      TopPartners(w, was, now, pairs, region, buffer, n, m, p);
      TopSame(w, was, now, pairs, region, buffer, n - 1, p);
    }
  }

  lemma PairsForAll(w: World, was: seq<Op>, now: seq<Op>, pairs: seq<int>, region: set<Px>, buffer: set<Px>)
    requires Diffed(w, was, now, pairs, region, buffer)
    ensures |pairs| == |now|
  {
  }

  lemma WithoutNew(now: seq<Op>, pairs: seq<int>, n: nat, m: nat, p: Px)
    requires |pairs| == |now| && 0 < n <= |now| && !In(p, now[n - 1].box) && Aligned(now, pairs, n, m, p)
    ensures Aligned(now, pairs, n - 1, m, p)
  {
  }

  lemma WithoutOld(w: World, was: seq<Op>, now: seq<Op>, pairs: seq<int>, region: set<Px>, buffer: set<Px>, n: nat,
                   m: nat, p: Px)
    requires Diffed(w, was, now, pairs, region, buffer) && p in buffer && p !in region
    requires n <= |now| && 0 < m <= |was| && !In(p, was[m - 1].box) && Aligned(now, pairs, n, m, p)
    ensures Aligned(now, pairs, n, m - 1, p)
  {
    forall i | 0 <= i < |now| && In(p, now[i].box)
      ensures i < n <==> pairs[i] < m - 1
    {
      Partner(w, was, now, pairs, region, buffer, i, p);
    }
  }

  /** Where both prefixes end with an operation over `p`, the two are partners. */
  lemma TopPartners(w: World, was: seq<Op>, now: seq<Op>, pairs: seq<int>, region: set<Px>, buffer: set<Px>, n: nat,
                    m: nat, p: Px)
    requires Diffed(w, was, now, pairs, region, buffer) && p in buffer && p !in region
    requires n <= |now| && m <= |was| && Aligned(now, pairs, n, m, p) && (n > 0 || m > 0)
    requires (n > 0 ==> In(p, now[n - 1].box)) && (m > 0 ==> In(p, was[m - 1].box))
    ensures n > 0 && m > 0 && pairs[n - 1] == m - 1
  {
    if n > 0 {
      Partner(w, was, now, pairs, region, buffer, n - 1, p);
    }
    var i := OldPartner(w, was, now, pairs, region, buffer, m - 1, p);
    if i != n - 1 {
      NotInverted(w, was, now, pairs, region, buffer, i, n - 1, p);
    }
  }

  lemma NotInverted(w: World, was: seq<Op>, now: seq<Op>, pairs: seq<int>, region: set<Px>, buffer: set<Px>, i: nat,
                    k: nat, p: Px)
    requires Diffed(w, was, now, pairs, region, buffer) && p in buffer && p !in region
    requires i < k < |now| && In(p, now[i].box) && In(p, now[k].box) && pairs[k] >= 0
    ensures pairs[i] <= pairs[k]
  {
    if pairs[i] > pairs[k] {
      assert Inverted(pairs, i, k);
      assert OrderDamage(now, pairs, p);
    }
  }

  /** Partners over `p`, painted on aligned prefixes, leave the same colour. */
  lemma {:induction false} TopSame(w: World, was: seq<Op>, now: seq<Op>, pairs: seq<int>, region: set<Px>,
                                   buffer: set<Px>, i: nat, p: Px)
    requires Diffed(w, was, now, pairs, region, buffer) && p in buffer && p !in region
    requires i < |now| && In(p, now[i].box) && pairs[i] >= 0 && Aligned(now, pairs, i + 1, pairs[i] + 1, p)
    ensures Paint(w, now, i + 1, buffer, Blank(buffer))[p] == Paint(w, was, pairs[i] + 1, buffer, Blank(buffer))[p]
    decreases i + pairs[i] + 1
  {
    var j := pairs[i];
    Partner(w, was, now, pairs, region, buffer, i, p);
    var cn, cw := Paint(w, now, i, buffer, Blank(buffer)), Paint(w, was, j, buffer, Blank(buffer));
    assert Aligned(now, pairs, i, j, p);
    AlignedSame(w, was, now, pairs, region, buffer, i, j, p);
    forall q | q in buffer && In(q, now[i].reach)
      ensures cn[q] == cw[q]
    {
      BackdropAligned(w, was, now, pairs, region, buffer, i, p, q);
      AlignedSame(w, was, now, pairs, region, buffer, i, j, q);
    }
    assert Backdrop(now[i], cn) == Backdrop(was[j], cw);
  }

  /**
   * One frame step: outside a region that covers the damage of the two lists, both paint the same pixels.
   */
  lemma FrameStep(w: World, was: seq<Op>, now: seq<Op>, pairs: seq<int>, region: set<Px>, buffer: set<Px>, p: Px)
    requires Diffed(w, was, now, pairs, region, buffer) && p in buffer && p !in region
    ensures Full(w, was, buffer)[p] == Full(w, now, buffer)[p]
  {
    AlignedSame(w, was, now, pairs, region, buffer, |now|, |was|, p);
  }
}
