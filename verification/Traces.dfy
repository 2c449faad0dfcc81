/** Runs of a transition system given by a guard and a transition function. */
module Traces {
  import opened Base

  ghost predicate Runs<S(!new), T(!new)>(ok: (S, T) -> bool, next: (S, T) -> S, s: S, steps: seq<T>, s': S)
    decreases |steps|
  {
    if steps == [] then s == s' else ok(s, steps[0]) && Runs(ok, next, next(s, steps[0]), steps[1..], s')
  }

  ghost predicate Reaches<S(!new), T(!new)>(ok: (S, T) -> bool, next: (S, T) -> S, s: S, s': S) {
    exists steps :: Runs(ok, next, s, steps, s')
  }

  lemma ReachesSelf<S(!new), T(!new)>(ok: (S, T) -> bool, next: (S, T) -> S, s: S)
    ensures Reaches(ok, next, s, s)
  {
    assert Runs(ok, next, s, [], s);
  }

  lemma ReachesStep<S(!new), T(!new)>(ok: (S, T) -> bool, next: (S, T) -> S, s: S, step: T, s': S)
    requires ok(s, step) && Reaches(ok, next, next(s, step), s')
    ensures Reaches(ok, next, s, s')
  {
    var steps :| Runs(ok, next, next(s, step), steps, s');
    assert ([step] + steps)[1..] == steps;
    assert Runs(ok, next, s, [step] + steps, s');
  }

  lemma {:induction false} RunsConcat<S(!new), T(!new)>(
      ok: (S, T) -> bool, next: (S, T) -> S, s: S, a: seq<T>, mid: S, b: seq<T>, s': S)
    requires Runs(ok, next, s, a, mid) && Runs(ok, next, mid, b, s')
    ensures Runs(ok, next, s, a + b, s')
    decreases |a|
  {
    if a == [] {
      assert a + b == b;
    } else {
      RunsConcat(ok, next, next(s, a[0]), a[1..], mid, b, s');
      assert (a + b)[0] == a[0] && (a + b)[1..] == a[1..] + b;
    }
  }

  lemma ReachesTrans<S(!new), T(!new)>(ok: (S, T) -> bool, next: (S, T) -> S, s: S, mid: S, s': S)
    requires Reaches(ok, next, s, mid) && Reaches(ok, next, mid, s')
    ensures Reaches(ok, next, s, s')
  {
    var a :| Runs(ok, next, s, a, mid);
    var b :| Runs(ok, next, mid, b, s');
    RunsConcat(ok, next, s, a, mid, b, s');
  }

  lemma {:induction false} RunsWeaken<S(!new), T(!new)>(
      ok: (S, T) -> bool, ok': (S, T) -> bool, next: (S, T) -> S, s: S, steps: seq<T>, s': S)
    requires Runs(ok, next, s, steps, s') && forall x, t :: ok(x, t) ==> ok'(x, t)
    ensures Runs(ok', next, s, steps, s')
    decreases |steps|
  {
    if steps != [] {
      RunsWeaken(ok, ok', next, next(s, steps[0]), steps[1..], s');
    }
  }

  /** A weaker guard reaches at least as much. */
  lemma ReachesWeaken<S(!new), T(!new)>(ok: (S, T) -> bool, ok': (S, T) -> bool, next: (S, T) -> S, s: S, s': S)
    requires Reaches(ok, next, s, s') && forall x, t :: ok(x, t) ==> ok'(x, t)
    ensures Reaches(ok', next, s, s')
  {
    var steps :| Runs(ok, next, s, steps, s');
    RunsWeaken(ok, ok', next, s, steps, s');
  }

  ghost predicate Inductive<S(!new), T(!new)>(inv: S -> bool, ok: (S, T) -> bool, next: (S, T) -> S) {
    forall s, t :: inv(s) && ok(s, t) ==> inv(next(s, t))
  }

  lemma {:induction false} RunsKeep<S(!new), T(!new)>(
      inv: S -> bool, ok: (S, T) -> bool, next: (S, T) -> S, s: S, steps: seq<T>, s': S)
    requires Inductive(inv, ok, next) && inv(s) && Runs(ok, next, s, steps, s')
    ensures inv(s')
    decreases |steps|
  {
    if steps != [] {
      RunsKeep(inv, ok, next, next(s, steps[0]), steps[1..], s');
    }
  }

  /** What every step keeps holds in every reachable state. */
  lemma ReachesKeep<S(!new), T(!new)>(inv: S -> bool, ok: (S, T) -> bool, next: (S, T) -> S, s: S, s': S)
    requires Inductive(inv, ok, next) && inv(s) && Reaches(ok, next, s, s')
    ensures inv(s')
  {
    var steps :| Runs(ok, next, s, steps, s');
    RunsKeep(inv, ok, next, s, steps, s');
  }

  /** A loop over a list is a run when each round is one. `inv` ties the state to the rest of the list. */
  lemma {:induction false} FoldReaches<S(!new), T(!new), X(!new)>(
      ok: (S, T) -> bool, next: (S, T) -> S, f: (S, X) -> S, inv: (S, seq<X>) -> bool, s: S, xs: seq<X>)
    requires inv(s, xs)
    requires forall z, zs :: inv(z, zs) && zs != [] ==> Reaches(ok, next, z, f(z, zs[0])) && inv(f(z, zs[0]), zs[1..])
    ensures Reaches(ok, next, s, Fold(f, s, xs)) && inv(Fold(f, s, xs), [])
    decreases |xs|
  {
    if xs == [] {
      ReachesSelf(ok, next, s);
    } else {
      FoldReaches(ok, next, f, inv, f(s, xs[0]), xs[1..]);
      ReachesTrans(ok, next, s, f(s, xs[0]), Fold(f, s, xs));
    }
  }

  /** A counting loop is a run when its body is. */
  lemma {:induction false} UntilReaches<S(!new), T(!new)>(
      ok: (S, T) -> bool, next: (S, T) -> S, count: S -> int, body: S -> S, target: int, s: S)
    requires Counts(count, body) && forall z :: Reaches(ok, next, z, body(z))
    ensures Reaches(ok, next, s, Until(count, body, target, s))
    decreases target - count(s)
  {
    if count(s) >= target {
      ReachesSelf(ok, next, s);
    } else {
      UntilReaches(ok, next, count, body, target, body(s));
      ReachesTrans(ok, next, s, body(s), Until(count, body, target, s));
    }
  }

  // ---------- paths of a relation ----------

  ghost function Target<S>(): (S, S) -> S {
    (s: S, s': S) => s'
  }

  ghost predicate Path<S(!new)>(move: (S, S) -> bool, s: S, s': S) {
    Reaches(move, Target(), s, s')
  }

  lemma {:induction false} RunsMove<S(!new), T(!new)>(
      ok: (S, T) -> bool, next: (S, T) -> S, move: (S, S) -> bool, s: S, steps: seq<T>, s': S)
    requires Runs(ok, next, s, steps, s') && forall x, t :: ok(x, t) ==> move(x, next(x, t))
    ensures Path(move, s, s')
    decreases |steps|
  {
    if steps == [] {
      ReachesSelf(move, Target(), s);
    } else {
      var mid := next(s, steps[0]);
      RunsMove(ok, next, move, mid, steps[1..], s');
      ReachesStep(move, Target(), s, mid, s');
    }
  }

  /** A run whose every step is a move is a path. */
  lemma ReachesPath<S(!new), T(!new)>(ok: (S, T) -> bool, next: (S, T) -> S, move: (S, S) -> bool, s: S, s': S)
    requires Reaches(ok, next, s, s') && forall x, t :: ok(x, t) ==> move(x, next(x, t))
    ensures Path(move, s, s')
  {
    var steps :| Runs(ok, next, s, steps, s');
    RunsMove(ok, next, move, s, steps, s');
  }

  lemma PathKeeps<S(!new)>(inv: S -> bool, move: (S, S) -> bool, s: S, s': S)
    requires Path(move, s, s') && inv(s) && forall x, y :: inv(x) && move(x, y) ==> inv(y)
    ensures inv(s')
  {
    ReachesKeep(inv, move, Target(), s, s');
  }
}
