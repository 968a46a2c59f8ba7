/** Replacing the published bindings by a plan, under held keys (`presentation_input_publish`, native/input.c). */
module Replacing {
  import opened Options
  import opened Ids
  import opened Pointers
  import opened Bindings
  import opened Keys
  import opened Tending
  import opened Publishing

  type Link = map<Ptr, Ptr>

  /** `m` takes published bindings to equivalent planned ones, one to one; `back` is its inverse. */
  ghost predicate Partners(w: World, m: Link, back: Link) {
    && (forall p :: p in m ==> p in w.bindings && m[p] in w.plan && m[p] in back && back[m[p]] == p)
    && (forall q :: q in back ==> back[q] in m && m[back[q]] == q)
    && (forall p :: p in m ==> p in w.heap && m[p] in w.heap && Equivalent(w.heap[p], w.heap[m[p]]))
  }

  /** Every planned binding equivalent to `p` is taken. */
  ghost predicate NoneLeft(w: World, back: Link, p: Ptr)
    requires p in w.heap
  {
    forall q :: q in w.plan && q in w.heap && Equivalent(w.heap[p], w.heap[q]) ==> q in back
  }

  /** A published binding is left without a partner only when no planned equivalent is left. */
  ghost predicate Exhausted(w: World, m: Link, back: Link, n: nat) {
    forall i :: 0 <= i < n && i < |w.bindings| && w.bindings[i] in w.heap ==>
      w.bindings[i] in m || NoneLeft(w, back, w.bindings[i])
  }

  /** The id a binding has once partners share one. */
  function SharedId(h: Heap, back: Link, p: Ptr): nat
    requires p in h
  {
    if p in back && back[p] in h then h[back[p]].id else h[p].id
  }

  /** The heap after the matching loop. */
  function Marked(h: Heap, m: Link, back: Link): Heap {
    map p | p in h :: h[p].(replacement := if p in m then m[p] else NULL, matched := p in back,
                            id := SharedId(h, back, p))
  }

  /** The heap at the end, but for the reference counts and the bindings that were freed. */
  function Replaced(h: Heap, back: Link, plan: seq<Ptr>): Heap {
    map p | p in h :: h[p].(active := p in plan, replacement := NULL, matched := false, id := SharedId(h, back, p))
  }

  function Retired(h: Heap, s: seq<Ptr>): Heap {
    map p | p in h :: if p in s then h[p].(active := false, replacement := NULL) else h[p]
  }

  function Promoted(h: Heap, s: seq<Ptr>): Heap {
    map p | p in h :: if p in s then h[p].(active := true, matched := false) else h[p]
  }

  // ----- matching

  /** `find_equivalent_binding`. */
  function FindEquivalent(h: Heap, plan: seq<Ptr>, wanted: Binding): (r: Ptr)
    requires forall p :: p in plan ==> p in h && p != NULL
    ensures r == NULL <==> forall p :: p in plan ==> h[p].matched || !Equivalent(wanted, h[p])
    ensures r != NULL ==> r in plan && !h[r].matched && Equivalent(wanted, h[r])
  {
    var f := (b: Binding) => !b.matched && Equivalent(wanted, b);
    var r := First(h, plan, f);
    assert forall p :: p in plan && !(h[p].matched || !Equivalent(wanted, h[p])) ==> f(h[p]);
    r
  }

  /** Lists do not share bindings. */
  lemma Apart(w: World)
    requires Tended(w)
    ensures forall p :: p in w.bindings ==> p in w.heap && p != NULL && p !in w.plan && w.heap[p].active
    ensures forall p :: p in w.plan ==> p in w.heap && p != NULL && p !in w.bindings && !w.heap[p].active
    ensures forall p :: p in w.heap ==>
      !w.heap[p].matched && w.heap[p].replacement == NULL && (w.heap[p].active ==> p in w.bindings)
    ensures forall i, j :: 0 <= i < j < |w.bindings| ==> w.bindings[i] != w.bindings[j]
  {
    forall i, j | 0 <= i < j < |w.bindings|
      ensures w.bindings[i] != w.bindings[j]
    {
      var all := w.bindings + w.plan;
      assert all[i] == w.bindings[i] && all[j] == w.bindings[j] && w.heap[all[i]].id != w.heap[all[j]].id;
    }
  }

  lemma NotMarkedYet(w: World)
    requires Tended(w)
    ensures Marked(w.heap, map[], map[]) == w.heap && Partners(w, map[], map[]) && Exhausted(w, map[], map[], 0)
  {
    Apart(w);
  }

  /** A partner the matching loop may choose for `p`. */
  ghost predicate Chosen(w: World, m: Link, back: Link, p: Ptr, q: Ptr) {
    && p in w.bindings && p in w.heap && p !in m && p !in w.plan && p != NULL
    && q in w.plan && q in w.heap && q !in back && q !in w.bindings && q != NULL && Equivalent(w.heap[p], w.heap[q])
  }

  lemma ChosenPartners(w: World, m: Link, back: Link, p: Ptr, q: Ptr)
    requires Partners(w, m, back) && Chosen(w, m, back, p, q)
    ensures Partners(w, m[p := q], back[q := p])
  {
  }

  lemma ChosenExhausted(w: World, m: Link, back: Link, n: nat, q: Ptr)
    requires Exhausted(w, m, back, n) && n < |w.bindings|
    ensures Exhausted(w, m[w.bindings[n] := q], back[q := w.bindings[n]], n + 1)
  {
    var l := back[q := w.bindings[n]];
    forall i | 0 <= i < n && w.bindings[i] in w.heap && w.bindings[i] !in m
      ensures NoneLeft(w, l, w.bindings[i])
    {
      assert NoneLeft(w, back, w.bindings[i]);
    }
  }

  lemma ChosenMarked(w: World, m: Link, back: Link, p: Ptr, q: Ptr)
    requires Partners(w, m, back) && Chosen(w, m, back, p, q)
    ensures var h := Marked(w.heap, m, back);
      Marked(w.heap, m[p := q], back[q := p]) ==
        h[q := h[q].(matched := true, id := h[p].id)][p := h[p].(replacement := q)]
  {
    hide Equivalent;
  }

  lemma MarkedFields(h: Heap, m: Link, back: Link, p: Ptr)
    requires p in h
    ensures p in Marked(h, m, back)
    ensures var b := Marked(h, m, back)[p];
      b == h[p].(replacement := b.replacement, matched := b.matched, id := b.id) && (b.matched <==> p in back)
  {
  }

  /** One round of the matching loop. */
  lemma MatchStep(w: World, m: Link, back: Link, n: nat, q: Ptr)
    requires Tended(w) && Partners(w, m, back) && Exhausted(w, m, back, n) && n < |w.bindings| && w.bindings[n] !in m
    requires forall p :: p in w.plan ==> p in w.heap && p != NULL
    requires w.bindings[n] in w.heap
    requires q == FindEquivalent(Marked(w.heap, m, back), w.plan, Marked(w.heap, m, back)[w.bindings[n]])
    ensures if q == NULL then Exhausted(w, m, back, n + 1) else Chosen(w, m, back, w.bindings[n], q)
  {
    hide Tended, Marked, Partners;
    Apart(w);
    var p, h := w.bindings[n], Marked(w.heap, m, back);
    MarkedFields(w.heap, m, back, p);
    forall r | r in w.plan
      ensures r in h && (Equivalent(h[p], h[r]) <==> Equivalent(w.heap[p], w.heap[r])) && (h[r].matched <==> r in back)
    {
      MarkedFields(w.heap, m, back, r);
    }
    if q == NULL {
      assert NoneLeft(w, back, p);
    }
  }

  // ----- latches

  /** What a latch holds once its binding is replaced. */
  function Heir(m: Link, p: Ptr): Ptr {
    if p in m then m[p] else NULL
  }

  /** Latches before key `code` of keyboard `j` hold the heirs, the others what they held. */
  ghost predicate Adopted(m: Link, was: seq<Keyboard>, ks: seq<Keyboard>, j: nat, code: nat) {
    && SameKeys(was, ks)
    && (forall l :: 0 <= l < |ks| ==> |ks[l].held| == |was[l].held| == CODES)
    && (forall l, c :: 0 <= l < |ks| && 0 <= c < CODES ==>
      ks[l].held[c] == if l < j || (l == j && c < code) then Heir(m, was[l].held[c]) else was[l].held[c])
  }

  function With(w: World, ks: seq<Keyboard>): Places {
    Places(w.bindings, w.plan, ks, w.grips)
  }

  /** One latch moves from its binding to the heir. */
  lemma AdoptCounted(w: World, h: Heap, ks: seq<Keyboard>, j: nat, code: nat, q: Ptr)
    requires Counted(h, With(w, ks)) && j < |ks| && code < |ks[j].held| && (q == NULL || q in h)
    ensures var p := ks[j].held[code];
      && (p == NULL || (p in Ref(h, q) && Ref(h, q)[p].references > 0))
      && Counted(Unref(Ref(h, q), p), With(w, SetHeld(ks, j, code, q)))
  {
    var p, ls := ks[j].held[code], SetHeld(ks, j, code, q);
    var more := With(w, ks).(grips := w.grips + [q]);
    LatchMoved(With(w, ks), j, code, ls[j], q);
    assert With(w, ls) == With(w, ks).(keyboards := With(w, ks).keyboards[j := ls[j]]);
    forall x
      ensures Uses(more, x) == Uses(With(w, ks), x) + One(q, x)
    {
    }
    hide Counted, Latched, Uses, Unref, Ref;
    RefCounted(h, With(w, ks), more, q);
    UnrefCounted(Ref(h, q), more, With(w, ls), p);
  }

  lemma AdoptCountsOnly(h0: Heap, h: Heap, p: Ptr, q: Ptr)
    requires CountsOnly(h0, h) && (q == NULL || q in h)
    requires p == NULL || (p in Ref(h, q) && Ref(h, q)[p].references > 0)
    ensures CountsOnly(h0, Unref(Ref(h, q), p))
  {
  }

  lemma AdoptedStep(m: Link, was: seq<Keyboard>, ks: seq<Keyboard>, j: nat, code: nat)
    requires Adopted(m, was, ks, j, code) && j < |ks| && code < CODES
    ensures Adopted(m, was, SetHeld(ks, j, code, Heir(m, ks[j].held[code])), j, code + 1)
    ensures Heir(m, ks[j].held[code]) == ks[j].held[code] ==> Adopted(m, was, ks, j, code + 1)
  {
  }

  lemma AdoptedRow(m: Link, was: seq<Keyboard>, ks: seq<Keyboard>, j: nat)
    requires Adopted(m, was, ks, j, CODES) && j < |ks|
    ensures Adopted(m, was, ks, j + 1, 0)
  {
  }

  lemma AdoptStart(w: World, m: Link)
    requires Tended(w)
    ensures Adopted(m, w.keyboards, w.keyboards, 0, 0)
  {
  }

  lemma MarkedCounted(w: World, m: Link, back: Link)
    requires Counted(w.heap, PlacesOf(w))
    ensures Counted(Marked(w.heap, m, back), With(w, w.keyboards))
  {
    hide Uses;
    assert With(w, w.keyboards) == PlacesOf(w);
  }

  /** What `keyboard_latches_adopt` reads from the binding a latch holds tells the heir. */
  lemma LatchedBinding(w: World, m: Link, back: Link, h: Heap, ks: seq<Keyboard>, j: nat, code: nat)
    requires Tended(w) && Partners(w, m, back) && CountsOnly(Marked(w.heap, m, back), h) && Counted(h, With(w, ks))
    requires Adopted(m, w.keyboards, ks, j, code) && j < |ks| && code < CODES
    ensures |ks[j].held| == |ks[j].consumed| == CODES && (!ks[j].consumed[code] ==> ks[j].held[code] == NULL)
    ensures var p := ks[j].held[code];
      && (p == NULL ==> Heir(m, p) == NULL)
      && (p != NULL ==> p in h && Heir(m, p) == (if h[p].active then h[p].replacement else NULL))
      && (Heir(m, p) != NULL ==> Heir(m, p) in h && p != NULL)
  {
    Apart(w);
    var p := ks[j].held[code];
    if p != NULL {
      LatchedAt(ks, j, code);
      assert Uses(With(w, ks), p) > 0;
      MarkedFields(w.heap, m, back, p);
    }
    if p in m {
      assert m[p] in multiset(w.plan) && Uses(With(w, ks), m[p]) > 0;
    }
  }

  // ----- the end

  lemma FieldsReplaced(w: World, m: Link, back: Link, h2: Heap, h4: Heap)
    requires Tended(w) && Partners(w, m, back) && CountsOnly(Marked(w.heap, m, back), h2)
    requires CountsOnly(Retired(h2, w.bindings), h4)
    ensures CountsOnly(Replaced(w.heap, back, w.plan), Promoted(h4, w.plan))
  {
    Apart(w);
    hide Tended;
    var end, goal := Promoted(h4, w.plan), Replaced(w.heap, back, w.plan);
    forall p | p in end
      ensures p in goal && end[p] == goal[p].(references := end[p].references)
    {
      MarkedFields(w.heap, m, back, p);
    }
  }

  /** Where in the two lists the id of a planned binding comes from. */
  lemma IdSource(w: World, m: Link, back: Link, i: nat) returns (k: nat)
    requires Tended(w) && Partners(w, m, back) && i < |w.plan|
    ensures k < |w.bindings + w.plan| && w.plan[i] in w.heap && (w.bindings + w.plan)[k] in w.heap
    ensures SharedId(w.heap, back, w.plan[i]) == w.heap[(w.bindings + w.plan)[k]].id
    ensures if w.plan[i] in back then k < |w.bindings| && w.bindings[k] == back[w.plan[i]] else k == |w.bindings| + i
  {
    Apart(w);
    hide Tended, Equivalent;
    var q := w.plan[i];
    if q in back {
      assert m[back[q]] == q;
      k :| 0 <= k < |w.bindings| && w.bindings[k] == back[q];
    } else {
      k := |w.bindings| + i;
    }
  }

  /** Distinct places in the two lists have distinct ids, handed out already. */
  lemma IdsDiffer(w: World, k: nat, l: nat)
    requires Tended(w) && k < |w.bindings + w.plan| && l < |w.bindings + w.plan| && k != l
    ensures var all := w.bindings + w.plan;
      && all[k] in w.heap && all[l] in w.heap && w.heap[all[k]].id != w.heap[all[l]].id && all[k] != all[l]
  {
  }

  lemma BackOnce(w: World, m: Link, back: Link, p: Ptr, q: Ptr)
    requires Partners(w, m, back) && p in back && q in back && p != q
    ensures back[p] != back[q]
  {
    assert m[back[p]] == p && m[back[q]] == q;
  }

  lemma SharedIdsDiffer(w: World, m: Link, back: Link, i: nat, j: nat)
    requires Tended(w) && Partners(w, m, back) && i < j < |w.plan|
    ensures w.plan[i] in w.heap && w.plan[j] in w.heap
    ensures SharedId(w.heap, back, w.plan[i]) != SharedId(w.heap, back, w.plan[j])
  {
    hide Tended, Partners, SharedId;
    IdsDiffer(w, |w.bindings| + i, |w.bindings| + j);
    var k := IdSource(w, m, back, i);
    var l := IdSource(w, m, back, j);
    if w.plan[i] in back && w.plan[j] in back {
      BackOnce(w, m, back, w.plan[i], w.plan[j]);
    }
    IdsDiffer(w, k, l);
  }

  lemma SharedIdIssued(w: World, m: Link, back: Link, i: nat)
    requires Tended(w) && Partners(w, m, back) && i < |w.plan|
    ensures w.plan[i] in w.heap && 0 < SharedId(w.heap, back, w.plan[i])
    ensures w.nextId == 0 || SharedId(w.heap, back, w.plan[i]) < w.nextId
  {
    var k := IdSource(w, m, back, i);
    Issue(w, k);
  }

  lemma Issue(w: World, k: nat)
    requires Tended(w) && k < |w.bindings + w.plan|
    ensures var p := (w.bindings + w.plan)[k];
      p in w.heap && 0 < w.heap[p].id && (w.nextId == 0 || w.heap[p].id < w.nextId)
  {
  }

  /** The world when the plan has replaced the published bindings. */
  function Ended(w: World, h: Heap, ks: seq<Keyboard>): World {
    w.(heap := h, bindings := w.plan, plan := [], keyboards := ks)
  }

  lemma EndNumbered(w: World, m: Link, back: Link, h: Heap)
    requires Tended(w) && Partners(w, m, back) && CountsOnly(Replaced(w.heap, back, w.plan), h)
    requires forall i :: 0 <= i < |w.plan| ==> w.plan[i] in h
    ensures Numbered(h, w.plan + [], w.nextId)
  {
    hide Tended, Partners;
    IdLimit(w);
    assert w.plan + [] == w.plan;
    forall i | 0 <= i < |w.plan|
      ensures 0 < h[w.plan[i]].id && (w.nextId == 0 || h[w.plan[i]].id < w.nextId)
    {
      SharedIdIssued(w, m, back, i);
    }
    forall i, j | 0 <= i < j < |w.plan|
      ensures h[w.plan[i]].id != h[w.plan[j]].id
    {
      SharedIdsDiffer(w, m, back, i, j);
    }
  }

  lemma IdLimit(w: World)
    requires Tended(w)
    ensures w.nextId <= ID_MAX
  {
  }

  lemma PlanAlive(w: World, h: Heap, ks: seq<Keyboard>)
    requires Tended(w) && Counted(h, PlacesOf(Ended(w, h, ks)))
    ensures forall i :: 0 <= i < |w.plan| ==> w.plan[i] in h
  {
    Apart(w);
    forall i | 0 <= i < |w.plan|
      ensures w.plan[i] in h
    {
      assert w.plan[i] in multiset(w.plan) && Uses(PlacesOf(Ended(w, h, ks)), w.plan[i]) > 0;
    }
  }

  /** A heir has the id its predecessor had; a grip's binding is not in the plan and keeps its own. */
  lemma EndOpen(w: World, m: Link, back: Link, h: Heap, ks: seq<Keyboard>)
    requires Tended(w) && Partners(w, m, back) && CountsOnly(Replaced(w.heap, back, w.plan), h)
    requires Counted(h, PlacesOf(Ended(w, h, ks))) && Adopted(m, w.keyboards, ks, |ks|, 0)
    ensures LatchesOpen(h, [], ks, w.events)
  {
    Apart(w);
    forall l, c | 0 <= l < |ks| && 0 <= c < CODES
      ensures LatchOpen(h, [], ks[l], c, w.events)
    {
      assert LatchOpen(w.heap, w.plan, w.keyboards[l], c, w.events);
      if ks[l].held[c] != NULL {
        LatchedAt(ks, l, c);
        assert Uses(PlacesOf(Ended(w, h, ks)), ks[l].held[c]) > 0;
      }
    }
  }

  lemma EndGrips(w: World, m: Link, back: Link, h: Heap, ks: seq<Keyboard>)
    requires Tended(w) && Partners(w, m, back) && CountsOnly(Replaced(w.heap, back, w.plan), h)
    requires Counted(h, PlacesOf(Ended(w, h, ks)))
    ensures GripsOpen(h, [], w.buttons, w.grips, w.events)
  {
    forall i | 0 <= i < |w.grips|
      ensures w.grips[i] in h && w.grips[i] !in back
    {
      assert w.grips[i] in multiset(w.grips) && Uses(PlacesOf(Ended(w, h, ks)), w.grips[i]) > 0;
    }
  }

  lemma EndListed(w: World, back: Link, h: Heap)
    requires Tended(w) && CountsOnly(Replaced(w.heap, back, w.plan), h)
    requires forall i :: 0 <= i < |w.plan| ==> w.plan[i] in h
    ensures Listed(h, w.plan, [])
  {
    Apart(w);
  }

  lemma EndShapes(w: World, m: Link, ks: seq<Keyboard>)
    requires Tended(w) && NULL !in m && Adopted(m, w.keyboards, ks, |ks|, 0)
    ensures Shapes(ks) && Issued(ks, w.nextDevice) && SameKeys(w.keyboards, ks)
  {
    hide Listed, Numbered, LatchesOpen, GripsOpen, Counted, Paired;
    forall l | 0 <= l < |ks|
      ensures Shape(ks[l])
    {
      assert Shape(w.keyboards[l]);
    }
  }

  /**
   * The whole replacement keeps everything: counts exact, active ids distinct, and every key that still holds a
   * binding holds one with the id it pressed.
   */
  lemma EndTended(w: World, m: Link, back: Link, h: Heap, ks: seq<Keyboard>)
    requires Tended(w) && Partners(w, m, back) && CountsOnly(Replaced(w.heap, back, w.plan), h)
    requires Counted(h, PlacesOf(Ended(w, h, ks))) && Adopted(m, w.keyboards, ks, |ks|, 0)
    ensures Tended(Ended(w, h, ks)) && SameKeys(w.keyboards, ks)
  {
    NoNullPartner(w, m, back);
    PlanAlive(w, h, ks);
    EndNumbered(w, m, back, h);
    EndOpen(w, m, back, h, ks);
    EndGrips(w, m, back, h, ks);
    EndListed(w, back, h);
    EndShapes(w, m, ks);
    PairedEvents(w);
    hide Shapes, Counted, Listed, Numbered, LatchesOpen, GripsOpen, Paired, Issued, CountsOnly, Partners, Adopted;
    hide Tended;
    TendedParts(Ended(w, h, ks));
  }

  lemma PairedEvents(w: World)
    requires Tended(w)
    ensures Paired(w.events)
  {
  }

  lemma NoNullPartner(w: World, m: Link, back: Link)
    requires Tended(w) && Partners(w, m, back)
    ensures NULL !in m
  {
    Apart(w);
  }

  lemma TendedParts(w: World)
    requires Shapes(w.keyboards) && Issued(w.keyboards, w.nextDevice) && Counted(w.heap, PlacesOf(w))
    requires Listed(w.heap, w.bindings, w.plan) && Numbered(w.heap, w.bindings + w.plan, w.nextId)
    requires LatchesOpen(w.heap, w.plan, w.keyboards, w.events)
    requires GripsOpen(w.heap, w.plan, w.buttons, w.grips, w.events)
    requires Paired(w.events)
    ensures Tended(w)
  {
    hide Shapes, Counted, Listed, Numbered, LatchesOpen, GripsOpen, Paired, Issued;
  }

  // ----- the loops at the end

  lemma BindingsAlive(h: Heap, w: World, ks: seq<Keyboard>)
    requires Tended(w) && Counted(h, With(w, ks))
    ensures NULL !in w.bindings && forall i :: 0 <= i < |w.bindings| ==> w.bindings[i] in h
  {
    Apart(w);
    forall i | 0 <= i < |w.bindings|
      ensures w.bindings[i] in h
    {
      assert w.bindings[i] in multiset(w.bindings) && Uses(With(w, ks), w.bindings[i]) > 0;
    }
  }

  lemma PlanLives(h: Heap, w: World, ks: seq<Keyboard>)
    requires Counted(h, With(w.(bindings := []), ks)) && NULL !in w.plan
    ensures forall i :: 0 <= i < |w.plan| ==> w.plan[i] in h
  {
    forall i | 0 <= i < |w.plan|
      ensures w.plan[i] in h
    {
      assert w.plan[i] in multiset(w.plan) && Uses(With(w.(bindings := []), ks), w.plan[i]) > 0;
    }
  }

  lemma RetiredNone(h: Heap)
    ensures Retired(h, []) == h
  {
  }

  lemma PromotedNone(h: Heap)
    ensures Promoted(h, []) == h
  {
  }

  lemma RetiredOne(h: Heap, s: seq<Ptr>, p: Ptr)
    requires p in h
    ensures p in Retired(h, s)
    ensures Retired(h, s + [p]) == Retired(h, s)[p := Retired(h, s)[p].(active := false, replacement := NULL)]
  {
  }

  lemma PromotedOne(h: Heap, s: seq<Ptr>, p: Ptr)
    requires p in h
    ensures p in Promoted(h, s)
    ensures Promoted(h, s + [p]) == Promoted(h, s)[p := Promoted(h, s)[p].(active := true, matched := false)]
  {
  }

  lemma RetiredCounted(h: Heap, s: seq<Ptr>, w: Places)
    requires Counted(h, w)
    ensures Counted(Retired(h, s), w)
  {
    hide Uses;
  }

  lemma PromotedCounted(h: Heap, s: seq<Ptr>, w: Places)
    requires Counted(h, w)
    ensures Counted(Promoted(h, s), w)
  {
    hide Uses;
  }

  lemma UnlinkCounted(w: World, h: Heap, s: seq<Ptr>, ks: seq<Keyboard>)
    requires s != [] && s[0] != NULL && Counted(h, With(w.(bindings := s), ks))
    ensures s[0] in h && h[s[0]].references > 0
    ensures Counted(Unref(h, s[0]), With(w.(bindings := s[1..]), ks))
  {
    assert s[1..] == PopHead(s);
    hide Counted, Latched;
    UnrefCounted(h, With(w.(bindings := s), ks), With(w.(bindings := s[1..]), ks), s[0]);
  }

  lemma NoNullBinding(w: World)
    requires Tended(w)
    ensures NULL !in w.bindings && NULL !in w.plan
  {
    Apart(w);
  }

  /** Moving the plan over to the published list moves no reference. */
  lemma MovedOver(w: World, h: Heap, ks: seq<Keyboard>)
    requires Counted(h, With(w.(bindings := []), ks))
    ensures Counted(h, PlacesOf(Ended(w, h, ks)))
  {
    forall q
      ensures Uses(PlacesOf(Ended(w, h, ks)), q) == Uses(With(w.(bindings := []), ks), q)
    {
    }
    hide Uses;
  }

  // ----- what the replacement means

  /** What the client asked for when it made the binding. */
  function WishOf(b: Binding): Wish {
    Wish(b.owner, b.press, b.release, b.modifiers, b.keysym, b.source)
  }

  /** Partners were asked for alike, by the same source, which is not 0. */
  lemma PartnersAlike(w: World, m: Link, back: Link, p: Ptr)
    requires Partners(w, m, back) && p in m
    ensures p in w.heap && m[p] in w.heap && WishOf(w.heap[p]) == WishOf(w.heap[m[p]]) && w.heap[p].source != 0
  {
  }

  /** A published binding with a source stays alone only when every planned one asked for alike has a partner. */
  lemma AloneOnly(w: World, m: Link, back: Link, p: Ptr, q: Ptr)
    requires Exhausted(w, m, back, |w.bindings|) && p in w.bindings && p in w.heap && p !in m
    requires q in w.plan && q in w.heap && WishOf(w.heap[p]) == WishOf(w.heap[q]) && w.heap[p].source != 0
    ensures q in back
  {
    var i :| 0 <= i < |w.bindings| && w.bindings[i] == p;
    assert NoneLeft(w, back, w.bindings[i]);
  }

  /** A replaced binding hands its id to its partner, alone among the published ones. */
  lemma PartnerKeepsId(w: World, m: Link, back: Link, v: World, p: Ptr)
    requires Tended(w) && Partners(w, m, back) && Tended(v) && v.bindings == w.plan
    requires CountsOnly(Replaced(w.heap, back, w.plan), v.heap)
    requires p in m
    ensures p in w.heap && m[p] in v.bindings && m[p] in v.heap
    ensures v.heap[m[p]].active && v.heap[m[p]].id == w.heap[p].id
    ensures forall q :: q in v.heap && v.heap[q].active && v.heap[q].id == w.heap[p].id ==> q == m[p]
  {
    Apart(w);
    Apart(v);
    forall q | q in v.heap && v.heap[q].active && v.heap[q].id == v.heap[m[p]].id
      ensures q == m[p]
    {
      var i :| 0 <= i < |v.bindings| && v.bindings[i] == q;
      var j :| 0 <= j < |v.bindings| && v.bindings[j] == m[p];
      SameIdSamePlace(v, i, j);
    }
  }

  lemma SameIdSamePlace(w: World, k: nat, l: nat)
    requires Tended(w) && k < |w.bindings| && l < |w.bindings| && w.bindings[k] in w.heap && w.bindings[l] in w.heap
    requires w.heap[w.bindings[k]].id == w.heap[w.bindings[l]].id
    ensures k == l
  {
    assert (w.bindings + w.plan)[k] == w.bindings[k] && (w.bindings + w.plan)[l] == w.bindings[l];
  }

  /** A key that held a published binding without a partner, or one already replaced, holds nothing any more. */
  lemma NoPartnerNoLatch(w: World, m: Link, back: Link, ks: seq<Keyboard>, l: nat, c: nat)
    requires Tended(w) && Partners(w, m, back) && Adopted(m, w.keyboards, ks, |ks|, 0) && l < |ks| && c < CODES
    ensures |ks[l].held| == |w.keyboards[l].held| == CODES
    ensures ks[l].held[c] != NULL <==> w.keyboards[l].held[c] in m
    ensures ks[l].held[c] != NULL ==> ks[l].held[c] in w.plan
  {
    Apart(w);
  }
}
