/** `oplist_damage` and `oplist_expand` (native/render.c). */
module Diff {
  import opened Boxes
  import opened Painting
  import opened Damage

  /** `pairs[i]` is the old operation matched with new operation `i`, or -1. */
  ghost predicate Matching(was: seq<Op>, now: seq<Op>, pairs: seq<int>) {
    && |pairs| == |now|
    && (forall i :: 0 <= i < |now| ==> -1 <= pairs[i] < |was|)
    && (forall i :: 0 <= i < |now| && pairs[i] >= 0 ==> was[pairs[i]].hash == now[i].hash)
    && (forall i, k :: 0 <= i < k < |now| && pairs[i] >= 0 ==> pairs[i] != pairs[k])
  }

  /** Nothing that could still be paired is left over. */
  ghost predicate Maximal(was: seq<Op>, now: seq<Op>, pairs: seq<int>) {
    forall i, j :: 0 <= i < |now| && i < |pairs| && pairs[i] < 0 && 0 <= j < |was| && was[j].hash == now[i].hash ==>
      j in pairs
  }

  predicate Inverted(pairs: seq<int>, i: nat, k: nat)
    requires i < |pairs| && k < |pairs|
  {
    i < k && 0 <= pairs[k] < pairs[i]
  }

  predicate NewHit(w: World, was: seq<Op>, op: Op, pair: int, p: Px)
    requires pair < |was|
  {
    if pair < 0 then
      In(p, op.box)
    else
      op.surface != 0 && op.commit != was[pair].commit && In(p, ContentDamage(w, was[pair], op))
  }

  ghost predicate NewDamage(w: World, was: seq<Op>, now: seq<Op>, pairs: seq<int>, p: Px)
    requires |pairs| <= |now| && forall i :: 0 <= i < |pairs| ==> pairs[i] < |was|
  {
    exists i :: 0 <= i < |pairs| && NewHit(w, was, now[i], pairs[i], p)
  }

  ghost predicate OldDamage(was: seq<Op>, pairs: seq<int>, n: nat, p: Px)
    requires n <= |was|
  {
    exists j :: 0 <= j < n && j !in pairs && In(p, was[j].box)
  }

  ghost predicate OrderDamage(now: seq<Op>, pairs: seq<int>, p: Px)
    requires |pairs| == |now|
  {
    exists i: nat, k: nat :: i < |now| && k < |now| && Inverted(pairs, i, k) && In(p, now[i].box) && In(p, now[k].box)
  }

  /** The pixels that a matching marks as changed. */
  ghost predicate Damaged(w: World, was: seq<Op>, now: seq<Op>, pairs: seq<int>, p: Px)
    requires Matching(was, now, pairs)
  {
    || NewDamage(w, was, now, pairs, p)
    || OldDamage(was, pairs, |was|, p)
    || OrderDamage(now, pairs, p)
  }

  function Wrap(start: nat, n: nat, len: nat): (j: nat)
    requires start <= len && n < len
    ensures j < len
  {
    if start + n < len then start + n else start + n - len
  }

  lemma WrapIsModulo(start: nat, n: nat, len: nat)
    requires start <= len && n < len
    ensures (start + n) % len == Wrap(start, n, len)
  {
    var q := (start + n) / len;
    assert start + n == q * len + (start + n) % len;
    if q >= 2 {
      TimesAtLeast(q, 2, len);
    } else if q < 1 {
      TimesAtLeast(0, q, len);
    }
  }

  lemma TimesAtLeast(a: int, b: int, len: nat)
    requires a >= b
    ensures a * len >= b * len
  {
  }

  /**
   * The matching as a function.  `Find` is one search: the first old operation with this hash that is not
   * taken yet, looking from `start` on and wrapping around, after `n` unsuccessful probes.
   */
  function Find(was: seq<Op>, done: seq<int>, hash: nat, start: nat, n: nat): (j: int)
    requires start <= |was| && n <= |was|
    ensures -1 <= j < |was|
    decreases |was| - n
  {
    if n == |was| then
      -1
    else
      var j := Wrap(start, n, |was|);
      if j !in done && was[j].hash == hash then j else Find(was, done, hash, start, n + 1)
  }

  /** The partners of the first `n` new operations, and where the next search starts. */
  function PairUp(was: seq<Op>, now: seq<Op>, n: nat): (r: (seq<int>, nat))
    requires n <= |now|
    ensures |r.0| == n && r.1 <= |was| && forall i :: 0 <= i < n ==> -1 <= r.0[i] < |was|
  {
    if n == 0 then
      ([], 0)
    else
      var (done, start) := PairUp(was, now, n - 1);
      var j := Find(was, done, now[n - 1].hash, start, 0);
      (done + [j], if j < 0 then start else j + 1)
  }

  function Pairs(was: seq<Op>, now: seq<Op>): seq<int> {
    PairUp(was, now, |now|).0
  }

  lemma {:induction false} FindFound(was: seq<Op>, done: seq<int>, hash: nat, start: nat, n: nat)
    requires start <= |was| && n <= |was|
    ensures var j := Find(was, done, hash, start, n);
      && (j >= 0 ==> j !in done && was[j].hash == hash)
      && (j < 0 ==> forall m: nat :: n <= m < |was| && was[Wrap(start, m, |was|)].hash == hash ==>
        Wrap(start, m, |was|) in done)
    decreases |was| - n
  {
    if n < |was| {
      FindFound(was, done, hash, start, n + 1);
    }
  }

  /** The search visits every old operation. */
  lemma FindExhaustive(was: seq<Op>, done: seq<int>, hash: nat, start: nat)
    requires start <= |was| && Find(was, done, hash, start, 0) < 0
    ensures forall m :: 0 <= m < |was| && was[m].hash == hash ==> m in done
  {
    FindFound(was, done, hash, start, 0);
    forall m: nat | m < |was| && was[m].hash == hash
      ensures m in done
    {
      var n: nat := if start <= m then m - start else m + |was| - start;
      assert Wrap(start, n, |was|) == m;
    }
  }

  /** The partners form a hash-preserving partial injection to which nothing can be added. */
  lemma {:induction false} PairUpMatches(was: seq<Op>, now: seq<Op>, n: nat)
    requires n <= |now|
    ensures Matching(was, now[..n], PairUp(was, now, n).0) && Maximal(was, now[..n], PairUp(was, now, n).0)
  {
    hide Matching, Maximal;
    if n == 0 {
      NothingPaired(was);
    } else {
      PairUpMatches(was, now, n - 1);
      var (done, start) := PairUp(was, now, n - 1);
      FindFound(was, done, now[n - 1].hash, start, 0);
      if Find(was, done, now[n - 1].hash, start, 0) < 0 {
        FindExhaustive(was, done, now[n - 1].hash, start);
      }
      ExtendMatching(was, now, done, Find(was, done, now[n - 1].hash, start, 0));
    }
  }

  lemma NothingPaired(was: seq<Op>)
    ensures Matching(was, [], []) && Maximal(was, [], [])
  {
  }

  lemma PairsMatch(was: seq<Op>, now: seq<Op>)
    ensures Matching(was, now, Pairs(was, now)) && Maximal(was, now, Pairs(was, now))
  {
    PairUpMatches(was, now, |now|);
    assert now[..|now|] == now;
  }

  /** Through the moving cursor, lists with the same hashes are paired in place, repeated hashes included. */
  lemma {:induction false} SameHashesPairInPlace(was: seq<Op>, now: seq<Op>, n: nat)
    requires n <= |now| <= |was| && forall i :: 0 <= i < n ==> was[i].hash == now[i].hash
    ensures PairUp(was, now, n).1 == n && forall i :: 0 <= i < n ==> PairUp(was, now, n).0[i] == i
  {
    if n > 0 {
      SameHashesPairInPlace(was, now, n - 1);
    }
  }

  /** The probes from `n` up to `k` find nothing that is free and has the hash. */
  ghost predicate Skipped(was: seq<Op>, done: seq<int>, hash: nat, start: nat, n: nat, k: nat)
    requires start <= |was| && k <= |was|
  {
    forall m: nat :: n <= m < k ==> Wrap(start, m, |was|) in done || was[Wrap(start, m, |was|)].hash != hash
  }

  /** The search stops at the first free old operation with the hash, going round from the cursor. */
  lemma {:induction false} FindNearest(was: seq<Op>, done: seq<int>, hash: nat, start: nat, n: nat)
    requires start <= |was| && n <= |was| && Find(was, done, hash, start, n) >= 0
    ensures exists k: nat ::
      && n <= k < |was| && Wrap(start, k, |was|) == Find(was, done, hash, start, n)
      && Skipped(was, done, hash, start, n, k)
    decreases |was| - n
  {
    if Wrap(start, n, |was|) in done || was[Wrap(start, n, |was|)].hash != hash {
      FindNearest(was, done, hash, start, n + 1);
    } else {
      assert Skipped(was, done, hash, start, n, n);
    }
  }

  /** A run of operations is paired as a run: the search for the next one begins behind the last partner. */
  lemma RunsStayTogether(was: seq<Op>, now: seq<Op>, i: nat)
    requires i + 1 < |now| && var j := Pairs(was, now[..i + 1])[i];
      0 <= j && j + 1 < |was| && was[j + 1].hash == now[i + 1].hash && j + 1 !in Pairs(was, now[..i + 1])
    ensures Pairs(was, now[..i + 2]) == Pairs(was, now[..i + 1]) + [Pairs(was, now[..i + 1])[i] + 1]
  {
    PairUpPrefix(was, now[..i + 1], now[..i + 2], i + 1);
    var (done, start) := PairUp(was, now[..i + 1], i + 1);
    assert Wrap(start, 0, |was|) == start;
  }

  lemma {:induction false} PairUpPrefix(was: seq<Op>, a: seq<Op>, b: seq<Op>, n: nat)
    requires a <= b && n <= |a|
    ensures PairUp(was, a, n) == PairUp(was, b, n)
  {
    if n > 0 {
      assert a[n - 1] == b[n - 1];
      PairUpPrefix(was, a, b, n - 1);
    }
  }

  method FindPair(was: seq<Op>, used: array<bool>, hash: nat, start: nat, ghost done: seq<int>) returns (j: int)
    requires used.Length == |was| && start <= |was|
    requires forall m :: 0 <= m < |was| ==> (used[m] <==> m in done)
    ensures j == Find(was, done, hash, start, 0)
  {
    for n := 0 to |was|
      invariant Find(was, done, hash, start, 0) == Find(was, done, hash, start, n)
    {
      WrapIsModulo(start, n, |was|);
      j := (start + n) % |was|;
      if used[j] || was[j].hash != hash {
        continue;
      }
      return;
    }
    j := -1;
  }

  lemma NewDamageExtends(w: World, was: seq<Op>, now: seq<Op>, pairs: seq<int>, pair: int, p: Px)
    requires |pairs| < |now| && pair < |was| && forall i :: 0 <= i < |pairs| ==> pairs[i] < |was|
    ensures NewDamage(w, was, now, pairs + [pair], p) <==>
      NewDamage(w, was, now, pairs, p) || NewHit(w, was, now[|pairs|], pair, p)
  {
    var more := pairs + [pair];
    if NewDamage(w, was, now, pairs, p) {
      var i :| 0 <= i < |pairs| && NewHit(w, was, now[i], pairs[i], p);
      assert NewHit(w, was, now[i], more[i], p);
    }
    if NewHit(w, was, now[|pairs|], pair, p) {
      assert NewHit(w, was, now[|pairs|], more[|pairs|], p);
    }
  }

  lemma ExtendMatching(was: seq<Op>, now: seq<Op>, pairs: seq<int>, j: int)
    requires |pairs| < |now| && Matching(was, now[..|pairs|], pairs) && Maximal(was, now[..|pairs|], pairs)
    requires -1 <= j < |was|
    requires j >= 0 ==> was[j].hash == now[|pairs|].hash && j !in pairs
    requires j < 0 ==> forall m :: 0 <= m < |was| && was[m].hash == now[|pairs|].hash ==> m in pairs
    ensures Matching(was, now[..|pairs| + 1], pairs + [j]) && Maximal(was, now[..|pairs| + 1], pairs + [j])
  {
    var more := pairs + [j];
    forall i, m | 0 <= i < |more| && more[i] < 0 && 0 <= m < |was| && was[m].hash == now[i].hash
      ensures m in more
    {
      assert m in pairs;
    }
  }

  /** Marks what one new operation changes. */
  method MarkNew(w: World, was: seq<Op>, op: Op, pair: int, out: set<Px>) returns (r: set<Px>)
    requires pair < |was|
    ensures forall p :: p in r <==> p in out || NewHit(w, was, op, pair, p)
  {
    r := out;
    if pair < 0 {
      r := r + Pixels(op.box);
    } else if op.surface != 0 && op.commit != was[pair].commit {
      r := r + Pixels(ContentDamage(w, was[pair], op));
    }
  }

  /** The first loop of `oplist_damage`: pair operations by hash and mark new and changed ones. */
  method MatchOps(w: World, was: seq<Op>, now: seq<Op>) returns (pairs: seq<int>, out: set<Px>)
    ensures pairs == Pairs(was, now)
    ensures forall p :: p in out <==> NewDamage(w, was, now, pairs, p)
  {
    var matched := new int[|now|];
    var used := new bool[|was|](_ => false);
    var start := 0;
    out := {};
    ghost var done: seq<int> := [];
    for i := 0 to |now|
      invariant (done, start) == PairUp(was, now, i) && matched[..i] == done
      invariant forall j :: 0 <= j < |was| ==> (used[j] <==> j in done)
      invariant forall p :: p in out <==> NewDamage(w, was, now, done, p)
    {
      var j := FindPair(was, used, now[i].hash, start, done);
      matched[i] := j;
      if j >= 0 {
        used[j] := true;
        start := j + 1;
      }
      out := MarkNew(w, was, now[i], j, out);
      forall p
        ensures NewDamage(w, was, now, done + [j], p) <==>
          NewDamage(w, was, now, done, p) || NewHit(w, was, now[i], j, p)
      {
        NewDamageExtends(w, was, now, done, j, p);
      }
      done := done + [j];
    }
    pairs := matched[..];
  }

  /** The second loop: old operations nobody was paired with. */
  method MarkOld(was: seq<Op>, pairs: seq<int>, out: set<Px>) returns (r: set<Px>)
    ensures forall p :: p in r <==> p in out || OldDamage(was, pairs, |was|, p)
  {
    r := out;
    for j := 0 to |was|
      invariant forall p :: p in r <==> p in out || OldDamage(was, pairs, j, p)
    {
      if j !in pairs {
        r := r + Pixels(was[j].box);
      }
    }
  }

  ghost predicate OrderHit(now: seq<Op>, pairs: seq<int>, i: nat, n: nat, p: Px)
    requires i < |now| && n <= |now| == |pairs|
  {
    exists k: nat :: k < n && Inverted(pairs, i, k) && In(p, now[i].box) && In(p, now[k].box)
  }

  /** The third loop: overlaps of pairs that changed their order. */
  method MarkOrder(now: seq<Op>, pairs: seq<int>, out: set<Px>) returns (r: set<Px>)
    requires |pairs| == |now|
    ensures forall p :: p in r <==> p in out || OrderDamage(now, pairs, p)
  {
    r := out;
    for i := 0 to |now|
      invariant forall p :: p in r <==> p in out || exists m: nat :: m < i && OrderHit(now, pairs, m, |now|, p)
    {
      if pairs[i] < 0 {
        continue;
      }
      ghost var before := r;
      for k := i + 1 to |now|
        invariant forall p :: p in r <==> p in before || OrderHit(now, pairs, i, k, p)
      {
        if pairs[k] >= 0 && pairs[k] < pairs[i] {
          var overlap := Intersection(now[i].box, now[k].box);
          r := r + Pixels(overlap);
        }
      }
    }
    forall p
      ensures OrderDamage(now, pairs, p) <==> exists m: nat :: m < |now| && OrderHit(now, pairs, m, |now|, p)
    {
      OrderDamageByRow(now, pairs, p);
    }
  }

  lemma OrderDamageByRow(now: seq<Op>, pairs: seq<int>, p: Px)
    requires |pairs| == |now|
    ensures OrderDamage(now, pairs, p) <==> exists m: nat :: m < |now| && OrderHit(now, pairs, m, |now|, p)
  {
    if OrderDamage(now, pairs, p) {
      var i: nat, k: nat :| i < |now| && k < |now| && Inverted(pairs, i, k) && In(p, now[i].box) && In(p, now[k].box);
      assert OrderHit(now, pairs, i, |now|, p);
    }
  }

  /**
   * `oplist_damage`: fails exactly when a list was lost, and otherwise returns the damage of the matching.
   */
  method OplistDamage(w: World, was: OpList, now: OpList) returns (ok: bool, out: set<Px>)
    ensures ok <==> !was.lost && !now.lost
    ensures Matching(was.ops, now.ops, Pairs(was.ops, now.ops))
    ensures ok ==> forall p :: p in out <==> Damaged(w, was.ops, now.ops, Pairs(was.ops, now.ops), p)
  {
    PairsMatch(was.ops, now.ops);
    if was.lost || now.lost {
      return false, {};
    }
    var pairs;
    pairs, out := MatchOps(w, was.ops, now.ops);
    out := MarkOld(was.ops, pairs, out);
    out := MarkOrder(now.ops, pairs, out);
    ok := true;
  }

  /** Drawing the same scene again damages nothing. */
  lemma SameListUndamaged(w: World, ops: seq<Op>)
    ensures Pairs(ops, ops) == seq(|ops|, i => i) && Matching(ops, ops, Pairs(ops, ops))
    ensures forall p :: !Damaged(w, ops, ops, Pairs(ops, ops), p)
  {
    PairsMatch(ops, ops);
    SameHashesPairInPlace(ops, ops, |ops|);
    forall j | 0 <= j < |ops|
      ensures j in Pairs(ops, ops)
    {
      assert Pairs(ops, ops)[j] == j;
    }
  }

  // ----- oplist_expand

  /** Every backdrop that is read is wholly inside the region or disjoint from it. */
  ghost predicate ReachClosed(ops: seq<Op>, region: set<Px>) {
    forall op :: op in ops ==> Pixels(op.reach) <= region || Pixels(op.reach) !! region
  }

  /** `PIXMAN_REGION_PART`: the region covers some of the box but not all of it. */
  predicate Part(region: set<Px>, b: Box) {
    Pixels(b) * region != {} && !(Pixels(b) <= region)
  }

  ghost function Open(ops: seq<Op>, region: set<Px>): set<int> {
    set i | 0 <= i < |ops| && !(Pixels(ops[i].reach) <= region)
  }

  /**
   * `oplist_expand` terminates with the least reach-closed region around its input, whatever the order of
   * the operations.
   */
  method OplistExpand(ops: seq<Op>, input: set<Px>) returns (region: set<Px>)
    ensures input <= region && ReachClosed(ops, region)
    ensures forall other: set<Px> :: input <= other && ReachClosed(ops, other) ==> region <= other
  {
    region := input;
    var grew := true;
    while grew
      invariant input <= region
      invariant forall other: set<Px> :: input <= other && ReachClosed(ops, other) ==> region <= other
      invariant !grew ==> ReachClosed(ops, region)
      decreases |Open(ops, region)|, grew
    {
      grew := false;
      ghost var open := Open(ops, region);
      for i := 0 to |ops|
        invariant input <= region
        invariant forall other: set<Px> :: input <= other && ReachClosed(ops, other) ==> region <= other
        invariant !grew ==> Open(ops, region) == open && forall m :: 0 <= m < i ==> !Part(region, ops[m].reach)
        invariant grew ==> Open(ops, region) < open
      {
        if ops[i].reach.Empty() || !Part(region, ops[i].reach) {
          continue;
        }
        assert i in Open(ops, region);
        forall other: set<Px> | input <= other && ReachClosed(ops, other)
          ensures Pixels(ops[i].reach) <= other
        {
          assert region <= other && ops[i] in ops;
        }
        region := region + Pixels(ops[i].reach);
        assert i !in Open(ops, region);
        grew := true;
      }
      if grew {
        SmallerSet(Open(ops, region), open);
      } else {
        NoPartIsClosed(ops, region);
      }
    }
  }

  lemma NoPartIsClosed(ops: seq<Op>, region: set<Px>)
    requires forall m :: 0 <= m < |ops| ==> !Part(region, ops[m].reach)
    ensures ReachClosed(ops, region)
  {
    forall op | op in ops
      ensures Pixels(op.reach) <= region || Pixels(op.reach) !! region
    {
      var m :| 0 <= m < |ops| && ops[m] == op;
      assert !Part(region, ops[m].reach);
      if Pixels(op.reach) * region == {} {
        forall x | x in Pixels(op.reach)
          ensures x !in region
        {
          assert x in region ==> x in Pixels(op.reach) * region;
        }
      }
    }
  }

  lemma SmallerSet(a: set<int>, b: set<int>)
    requires a < b
    ensures |a| < |b|
  {
    assert b == a + (b - a);
    assert b - a == {} ==> a == b;
  }
}
