/** Handling the entries of a table in some order, each in the state left by those before it. */
module Folding {

  function After<S>(step: (S, nat) -> S, s0: S, order: seq<nat>, n: nat): S
    requires n <= |order|
  {
    if n == 0 then s0 else step(After(step, s0, order, n - 1), order[n - 1])
  }

  function Emitted<S, R>(step: (S, nat) -> S, emit: (S, nat) -> R, s0: S, order: seq<nat>, n: nat): (r: seq<R>)
    requires n <= |order|
    ensures |r| == n
  {
    if n == 0 then [] else Emitted(step, emit, s0, order, n - 1) + [emit(After(step, s0, order, n - 1), order[n - 1])]
  }

  lemma {:induction false} Prefix<S, R>(step: (S, nat) -> S, emit: (S, nat) -> R, s0: S, order: seq<nat>,
                                        more: seq<nat>, n: nat)
    requires n <= |order| && order <= more
    ensures After(step, s0, order, n) == After(step, s0, more, n)
    ensures Emitted(step, emit, s0, order, n) == Emitted(step, emit, s0, more, n)
  {
    if n > 0 {
      assert order[n - 1] == more[n - 1];
      Prefix(step, emit, s0, order, more, n - 1);
    }
  }

  lemma {:induction false} EmittedAt<S, R>(step: (S, nat) -> S, emit: (S, nat) -> R, s0: S, order: seq<nat>, n: nat,
                                           m: nat)
    requires m < n <= |order|
    ensures Emitted(step, emit, s0, order, n)[m] == emit(After(step, s0, order, m), order[m])
  {
    if m < n - 1 {
      EmittedAt(step, emit, s0, order, n - 1, m);
    }
  }

  /** `a` is `a0` with `given[m]` at `done[m]` and nothing else changed. */
  ghost predicate Filled<T>(done: seq<nat>, given: seq<T>, a0: seq<T>, a: seq<T>) {
    && |a| == |a0| && |given| == |done|
    && (forall m :: 0 <= m < |done| ==> done[m] < |a| && a[done[m]] == given[m])
    && (forall i :: 0 <= i < |a| && i !in done ==> a[i] == a0[i])
  }

  lemma FilledStep<T>(done: seq<nat>, given: seq<T>, a0: seq<T>, a: seq<T>, i: nat, x: T)
    requires Filled(done, given, a0, a) && i < |a| && i !in done
    ensures Filled(done + [i], given + [x], a0, a[i := x])
  {
  }

  /** The state and the table after handling the entries of `done`. */
  ghost predicate Progress<S, R>(step: (S, nat) -> S, emit: (S, nat) -> R, s0: S, a0: seq<R>, done: seq<nat>, s: S,
                                 a: seq<R>) {
    s == After(step, s0, done, |done|) && Filled(done, Emitted(step, emit, s0, done, |done|), a0, a)
  }

  lemma ProgressStep<S, R>(step: (S, nat) -> S, emit: (S, nat) -> R, s0: S, a0: seq<R>, done: seq<nat>, s: S,
                           a: seq<R>, i: nat)
    requires Progress(step, emit, s0, a0, done, s, a) && i < |a| && i !in done
    ensures Progress(step, emit, s0, a0, done + [i], step(s, i), a[i := emit(s, i)])
  {
    Prefix(step, emit, s0, done, done + [i], |done|);
    FilledStep(done, Emitted(step, emit, s0, done, |done|), a0, a, i, emit(s, i));
    assert Emitted(step, emit, s0, done + [i], |done| + 1) == Emitted(step, emit, s0, done, |done|) + [emit(s, i)];
  }

  // ----- sums of a weight

  function Sum<T>(s: seq<T>, f: T -> int): int {
    if s == [] then 0 else f(s[0]) + Sum(s[1..], f)
  }

  /** The weight of the first `n` entries of an order of `s`. */
  function SumOf<T>(s: seq<T>, order: seq<nat>, n: nat, f: T -> int): int
    requires n <= |order| && forall i :: 0 <= i < |order| ==> order[i] < |s|
  {
    if n == 0 then 0 else SumOf(s, order, n - 1, f) + f(s[order[n - 1]])
  }

  lemma SumOne<T>(x: T, f: T -> int)
    ensures Sum([x], f) == f(x)
  {
    assert [x][1..] == [];
  }

  lemma {:induction false} SumTwo<T>(a: seq<T>, b: seq<T>, f: T -> int)
    ensures Sum(a + b, f) == Sum(a, f) + Sum(b, f)
  {
    if a == [] {
      assert a + b == b;
    } else {
      assert (a + b)[1..] == a[1..] + b;
      SumTwo(a[1..], b, f);
    }
  }

  /** A sum does not depend on the order of its terms. */
  lemma {:induction false} SumOfPermutation<T>(a: seq<T>, b: seq<T>, f: T -> int)
    requires multiset(a) == multiset(b)
    ensures Sum(a, f) == Sum(b, f)
  {
    if a == [] {
      assert |b| == |multiset(b)|;
    } else {
      assert a[0] in multiset(b);
      var i :| 0 <= i < |b| && b[i] == a[0];
      Without(a, b, i);
      SumOfPermutation(a[1..], b[..i] + b[i + 1..], f);
      SumTwo(b[..i], b[i + 1..], f);
      SumTwo(b[..i], [b[i]] + b[i + 1..], f);
      SumTwo([b[i]], b[i + 1..], f);
      SumOne(b[i], f);
    }
  }

  lemma Without<T>(a: seq<T>, b: seq<T>, i: nat)
    requires a != [] && i < |b| && b[i] == a[0] && multiset(a) == multiset(b)
    ensures b == b[..i] + ([b[i]] + b[i + 1..])
    ensures multiset(a[1..]) == multiset(b[..i] + b[i + 1..])
  {
    assert b == b[..i] + ([b[i]] + b[i + 1..]);
    assert a == [a[0]] + a[1..];
    assert multiset(a) == multiset([a[0]] + a[1..]) == multiset{b[i]} + multiset(a[1..]);
    calc {
      multiset(b);
      multiset(b[..i]) + multiset([b[i]] + b[i + 1..]);
      multiset(b[..i]) + (multiset([b[i]]) + multiset(b[i + 1..]));
      multiset{b[i]} + multiset(b[..i] + b[i + 1..]);
    }
    assert multiset(a[1..]) == multiset(a) - multiset{b[i]};
  }

  lemma {:induction false} SumOfPrefix<T>(s: seq<T>, a: seq<nat>, more: seq<nat>, n: nat, f: T -> int)
    requires a <= more && n <= |a| && forall i :: 0 <= i < |more| ==> more[i] < |s|
    ensures forall i :: 0 <= i < |a| ==> a[i] < |s|
    ensures SumOf(s, a, n, f) == SumOf(s, more, n, f)
  {
    assert forall i :: 0 <= i < |a| ==> a[i] == more[i];
    if n > 0 {
      SumOfPrefix(s, a, more, n - 1, f);
    }
  }

  lemma {:induction false} SumOfTwo<T>(s: seq<T>, a: seq<nat>, b: seq<nat>, n: nat, f: T -> int)
    requires n <= |b| && (forall i :: 0 <= i < |a| ==> a[i] < |s|) && (forall i :: 0 <= i < |b| ==> b[i] < |s|)
    ensures SumOf(s, a + b, |a| + n, f) == SumOf(s, a, |a|, f) + SumOf(s, b, n, f)
  {
    if n == 0 {
      SumOfPrefix(s, a, a + b, |a|, f);
    } else {
      SumOfTwo(s, a, b, n - 1, f);
    }
  }
}
