/** Collections shared by every component: the order Go uses on strings, sums over
    sequences, filtering, and the stable sort behind `sort.SliceStable`. */
module Base {

  datatype Option<+T> = None | Some(value: T)

  type Id = string

  /** Times and durations are nanoseconds; 0 is Go's zero time. */
  type Time = int

  // ---------- integer helpers ----------

  function Max(a: int, b: int): (r: int)
    ensures r >= a && r >= b && (r == a || r == b)
  {
    if a > b then a else b
  }

  function Min(a: int, b: int): (r: int)
    ensures r <= a && r <= b && (r == a || r == b)
  {
    if a < b then a else b
  }

  /** Go's `/` on signed integers: truncation toward zero. */
  function TruncDiv(a: int, b: int): int
    requires b > 0
  {
    if a >= 0 then a / b else -((-a) / b)
  }

  // ---------- map lookups with Go's zero value ----------

  function Get<K>(m: map<K, int>, k: K): int {
    if k in m then m[k] else 0
  }

  function GetSet<K, V>(m: map<K, set<V>>, k: K): set<V> {
    if k in m then m[k] else {}
  }

  // ---------- byte order on strings ----------

  predicate LexLess(a: string, b: string) {
    if b == "" then false
    else if a == "" then true
    else if a[0] != b[0] then a[0] < b[0]
    else LexLess(a[1..], b[1..])
  }

  lemma {:induction false} LexIrreflexive(a: string)
    ensures !LexLess(a, a)
  {
    if a != "" {
      LexIrreflexive(a[1..]);
    }
  }

  lemma {:induction false} LexTransitive(a: string, b: string, c: string)
    requires LexLess(a, b) && LexLess(b, c)
    ensures LexLess(a, c)
  {
    if a != "" && a[0] == b[0] && b[0] == c[0] {
      LexTransitive(a[1..], b[1..], c[1..]);
    }
  }

  lemma {:induction false} LexTotal(a: string, b: string)
    requires a != b
    ensures LexLess(a, b) || LexLess(b, a)
  {
    if a != "" && b != "" && a[0] == b[0] {
      assert a == [a[0]] + a[1..] && b == [b[0]] + b[1..];
      LexTotal(a[1..], b[1..]);
    }
  }

  lemma LexAsymmetric(a: string, b: string)
    requires LexLess(a, b)
    ensures !LexLess(b, a)
  {
    if LexLess(b, a) {
      LexTransitive(a, b, a);
      LexIrreflexive(a);
    }
  }

  /** The negation of the order is transitive too: `LexLess` is a strict weak order. */
  lemma LexNegTransitive(a: string, b: string, c: string)
    requires !LexLess(a, b) && !LexLess(b, c)
    ensures !LexLess(a, c)
  {
    if LexLess(a, c) {
      if a != b {
        LexTotal(a, b);
        LexTransitive(b, a, c);
      }
    }
  }

  predicate Least(m: string, s: set<string>) {
    m in s && forall y :: y in s ==> !LexLess(y, m)
  }

  lemma LeastExists(s: set<string>)
    requires s != {}
    ensures exists m :: Least(m, s)
  {
    var x :| x in s;
    if s == {x} {
      LexIrreflexive(x);
      assert Least(x, s);
    } else {
      var rest := s - {x};
      assert rest != {};
      LeastExists(rest);
      var m :| Least(m, rest);
      LexIrreflexive(x);
      LexIrreflexive(m);
      if LexLess(x, m) {
        forall y | y in s ensures !LexLess(y, x) {
          if y != x && LexLess(y, x) {
            LexTransitive(y, x, m);
          }
        }
        assert Least(x, s);
      } else {
        assert Least(m, s);
      }
    }
  }

  lemma LeastUnique(a: string, b: string, s: set<string>)
    requires Least(a, s) && Least(b, s)
    ensures a == b
  {
    if a != b {
      LexTotal(a, b);
    }
  }

  function MinKey(s: set<string>): (m: string)
    requires s != {}
    ensures Least(m, s)
  {
    LeastExists(s);
    assert forall a, b :: Least(a, s) && Least(b, s) ==> a == b by {
      forall a, b | Least(a, s) && Least(b, s) ensures a == b {
        LeastUnique(a, b, s);
      }
    }
    var m :| m in s && Least(m, s);
    m
  }

  predicate StrictlySorted(s: seq<string>) {
    forall i, j :: 0 <= i < j < |s| ==> LexLess(s[i], s[j])
  }

  /** The keys of a Go map in sorted order: what `sort.Slice` by ID yields. */
  function SortedKeys(s: set<string>): (r: seq<string>)
    ensures forall x :: x in r <==> x in s
    ensures StrictlySorted(r)
    decreases |s|
  {
    if s == {} then []
    else
      var m := MinKey(s);
      var rest := SortedKeys(s - {m});
      assert forall j :: 0 <= j < |rest| ==> LexLess(m, rest[j]) by {
        forall j | 0 <= j < |rest| ensures LexLess(m, rest[j]) {
          assert rest[j] in rest;
          LexTotal(m, rest[j]);
        }
      }
      [m] + rest
  }

  // ---------- sums ----------

  function Sum<T>(s: seq<T>, f: T -> int): int {
    if s == [] then 0 else Sum(s[..|s| - 1], f) + f(s[|s| - 1])
  }

  lemma SumAppend<T>(s: seq<T>, x: T, f: T -> int)
    ensures Sum(s + [x], f) == Sum(s, f) + f(x)
  {
    assert (s + [x])[..|s|] == s;
  }

  lemma {:induction false} SumConcat<T>(s: seq<T>, t: seq<T>, f: T -> int)
    ensures Sum(s + t, f) == Sum(s, f) + Sum(t, f)
  {
    if t == [] {
      assert s + t == s;
    } else {
      var t' := t[..|t| - 1];
      SumConcat(s, t', f);
      assert (s + t)[..|s + t| - 1] == s + t';
      assert (s + t)[|s + t| - 1] == t[|t| - 1];
    }
  }

  // ---------- filtering ----------

  function Filter<T>(s: seq<T>, p: T -> bool): seq<T> {
    if s == [] then [] else (if p(s[0]) then [s[0]] else []) + Filter(s[1..], p)
  }

  lemma {:induction false} FilterMember<T>(s: seq<T>, p: T -> bool, x: T)
    ensures x in Filter(s, p) <==> x in s && p(x)
  {
    if s != [] {
      FilterMember(s[1..], p, x);
      assert s == [s[0]] + s[1..];
    }
  }

  lemma FilterCons<T>(x: T, s: seq<T>, p: T -> bool)
    ensures Filter([x] + s, p) == if p(x) then [x] + Filter(s, p) else Filter(s, p)
  {
    assert ([x] + s)[1..] == s;
    assert [] + Filter(s, p) == Filter(s, p);
  }

  lemma ConsConcat<T>(x: T, a: seq<T>, b: seq<T>)
    ensures [x] + (a + b) == ([x] + a) + b
  {
  }

  lemma FilterConcatStep<T>(x: T, a: seq<T>, t: seq<T>, p: T -> bool)
    requires Filter(a + t, p) == Filter(a, p) + Filter(t, p)
    ensures Filter([x] + (a + t), p) == Filter([x] + a, p) + Filter(t, p)
  {
    FilterCons(x, a, p);
    FilterCons(x, a + t, p);
    ConsConcat(x, Filter(a, p), Filter(t, p));
  }

  lemma {:induction false} FilterConcat<T>(s: seq<T>, t: seq<T>, p: T -> bool)
    ensures Filter(s + t, p) == Filter(s, p) + Filter(t, p)
  {
    if s == [] {
      assert s + t == t && [] + Filter(t, p) == Filter(t, p);
    } else {
      FilterConcat(s[1..], t, p);
      FilterConcatStep(s[0], s[1..], t, p);
      assert s == [s[0]] + s[1..];
      ConsConcat(s[0], s[1..], t);
    }
  }

  /** The concatenation of `f` over `s`: what nested loops with `append` build. */
  function FlatMap<T, U>(s: seq<T>, f: T -> seq<U>): seq<U> {
    if s == [] then [] else f(s[0]) + FlatMap(s[1..], f)
  }

  lemma {:induction false} FlatMapMember<T, U>(s: seq<T>, f: T -> seq<U>, y: U)
    ensures y in FlatMap(s, f) <==> exists x :: x in s && y in f(x)
  {
    if s != [] {
      FlatMapMember(s[1..], f, y);
      assert s == [s[0]] + s[1..];
    }
  }

  lemma {:induction false} FilterFlatMap<T, U>(s: seq<T>, f: T -> seq<U>, g: T -> seq<U>, p: U -> bool)
    requires forall x :: x in s ==> g(x) == Filter(f(x), p)
    ensures Filter(FlatMap(s, f), p) == FlatMap(s, g)
  {
    if s != [] {
      FilterConcat(f(s[0]), FlatMap(s[1..], f), p);
      FilterFlatMap(s[1..], f, g, p);
    }
  }

  /** One round of a loop that collects into `out`. */
  lemma FlatMapStep<T, U>(s: seq<T>, f: T -> seq<U>, i: nat, out: seq<U>)
    requires i < |s|
    ensures out + FlatMap(s[i..], f) == (out + f(s[i])) + FlatMap(s[i + 1..], f)
  {
    assert s[i..][1..] == s[i + 1..];
  }

  lemma FilterStep<T>(s: seq<T>, p: T -> bool, i: nat, out: seq<T>)
    requires i < |s|
    ensures out + Filter(s[i..], p) == (if p(s[i]) then out + [s[i]] else out) + Filter(s[i + 1..], p)
  {
    assert s[i..][1..] == s[i + 1..];
  }

  function Map<T, U>(s: seq<T>, f: T -> U): (r: seq<U>)
    ensures |r| == |s| && forall i :: 0 <= i < |s| ==> r[i] == f(s[i])
  {
    seq(|s|, i requires 0 <= i < |s| => f(s[i]))
  }

  lemma MapMember<T, U>(s: seq<T>, f: T -> U, y: U)
    ensures y in Map(s, f) <==> exists x :: x in s && y == f(x)
  {
    var r := Map(s, f);
    if y in r {
      var i :| 0 <= i < |r| && r[i] == y;
      assert s[i] in s;
    }
    if x :| x in s && y == f(x) {
      var i :| 0 <= i < |s| && s[i] == x;
      assert r[i] == y;
    }
  }

  // ---------- loops as functions ----------

  /** `for _, x := range xs { s = f(s, x) }`. */
  function Fold<S, X>(f: (S, X) -> S, s: S, xs: seq<X>): S
    decreases |xs|
  {
    if xs == [] then s else Fold(f, f(s, xs[0]), xs[1..])
  }

  lemma {:induction false} FoldConcat<S, X>(f: (S, X) -> S, s: S, xs: seq<X>, ys: seq<X>)
    ensures Fold(f, s, xs + ys) == Fold(f, Fold(f, s, xs), ys)
    decreases |xs|
  {
    if xs == [] {
      assert xs + ys == ys;
    } else {
      assert (xs + ys)[0] == xs[0] && (xs + ys)[1..] == xs[1..] + ys;
      FoldConcat(f, f(s, xs[0]), xs[1..], ys);
    }
  }

  /** Every round of the loop body counts one more. */
  ghost predicate Counts<S(!new)>(count: S -> int, body: S -> S) {
    forall s :: count(body(s)) == count(s) + 1
  }

  /** `for count(s) < target { s = body(s) }`. */
  function Until<S(!new)>(count: S -> int, body: S -> S, target: int, s: S): (r: S)
    requires Counts(count, body)
    ensures count(r) == Max(count(s), target)
    decreases target - count(s)
  {
    if count(s) >= target then s else Until(count, body, target, body(s))
  }

  lemma {:induction false} UntilKeeps<S(!new)>(count: S -> int, body: S -> S, target: int, s: S, inv: S -> bool)
    requires Counts(count, body) && inv(s) && forall z :: inv(z) ==> inv(body(z))
    ensures inv(Until(count, body, target, s))
    decreases target - count(s)
  {
    if count(s) < target {
      UntilKeeps(count, body, target, body(s), inv);
    }
  }

  /** The index of the first element that satisfies `p`, or the length. */
  function FirstIndex<T>(s: seq<T>, p: T -> bool): (k: nat)
    ensures k <= |s|
    ensures k < |s| ==> p(s[k])
    ensures forall i :: 0 <= i < k ==> !p(s[i])
  {
    if s == [] || p(s[0]) then 0 else 1 + FirstIndex(s[1..], p)
  }

  // ---------- loops that rewrite the values of a map ----------

  function MapValues<V>(m: map<Id, V>, f: V -> V): map<Id, V> {
    map k | k in m :: f(m[k])
  }

  /** What a loop over a map has done: applied `f` to all values but those still to do. */
  ghost predicate MappedSoFar<V>(now: map<Id, V>, before: map<Id, V>, f: V -> V, todo: set<Id>) {
    && now.Keys == before.Keys && todo <= before.Keys
    && forall k :: k in before ==> now[k] == if k in todo then before[k] else f(before[k])
  }

  lemma MapNext<V>(now: map<Id, V>, before: map<Id, V>, f: V -> V, todo: set<Id>, id: Id)
    requires MappedSoFar(now, before, f, todo) && id in todo
    ensures now[id] == before[id] && MappedSoFar(now[id := f(before[id])], before, f, todo - {id})
    ensures f(before[id]) == before[id] ==> MappedSoFar(now, before, f, todo - {id})
  {
  }

  lemma MapDone<V>(now: map<Id, V>, before: map<Id, V>, f: V -> V)
    requires MappedSoFar(now, before, f, {})
    ensures now == MapValues(before, f)
  {
  }

  // ---------- stable sorting ----------

  function Insert<T>(x: T, s: seq<T>, less: (T, T) -> bool): seq<T> {
    if s == [] || !less(s[0], x) then [x] + s else [s[0]] + Insert(x, s[1..], less)
  }

  /** The result of `sort.SliceStable`: sorted by `less`, ties in their original order. */
  function StableSort<T>(s: seq<T>, less: (T, T) -> bool): seq<T> {
    if s == [] then [] else Insert(s[0], StableSort(s[1..], less), less)
  }

  lemma {:induction false} InsertPermutes<T>(x: T, s: seq<T>, less: (T, T) -> bool)
    ensures multiset(Insert(x, s, less)) == multiset(s) + multiset{x}
  {
    if s != [] && less(s[0], x) {
      InsertPermutes(x, s[1..], less);
      assert s == [s[0]] + s[1..];
    }
  }

  lemma {:induction false} StableSortPermutes<T>(s: seq<T>, less: (T, T) -> bool)
    ensures multiset(StableSort(s, less)) == multiset(s)
  {
    if s != [] {
      StableSortPermutes(s[1..], less);
      InsertPermutes(s[0], StableSort(s[1..], less), less);
      assert s == [s[0]] + s[1..];
    }
  }

  lemma StableSortMember<T>(s: seq<T>, less: (T, T) -> bool, x: T)
    ensures x in StableSort(s, less) <==> x in s
  {
    StableSortPermutes(s, less);
    assert x in multiset(StableSort(s, less)) <==> x in multiset(s);
  }

  ghost predicate StrictWeakOrder<T(!new)>(less: (T, T) -> bool) {
    && (forall a, b :: less(a, b) ==> !less(b, a))
    && (forall a, b, c :: !less(a, b) && !less(b, c) ==> !less(a, c))
  }

  ghost predicate SortedBy<T>(s: seq<T>, less: (T, T) -> bool) {
    forall i, j :: 0 <= i < j < |s| ==> !less(s[j], s[i])
  }

  lemma {:induction false} InsertSorted<T(!new)>(x: T, s: seq<T>, less: (T, T) -> bool)
    requires StrictWeakOrder(less) && SortedBy(s, less)
    ensures SortedBy(Insert(x, s, less), less)
  {
    if s == [] || !less(s[0], x) {
    } else {
      InsertSorted(x, s[1..], less);
      var rest := Insert(x, s[1..], less);
      InsertPermutes(x, s[1..], less);
      forall j | 0 <= j < |rest| ensures !less(rest[j], s[0]) {
        assert rest[j] in multiset(rest);
        if rest[j] != x {
          assert rest[j] in multiset(s[1..]);
          assert rest[j] in s[1..];
        }
      }
    }
  }

  lemma {:induction false} StableSortSorted<T(!new)>(s: seq<T>, less: (T, T) -> bool)
    requires StrictWeakOrder(less)
    ensures SortedBy(StableSort(s, less), less)
  {
    if s != [] {
      StableSortSorted(s[1..], less);
      InsertSorted(s[0], StableSort(s[1..], less), less);
    }
  }

  lemma InsertFirst<T>(x: T, s: seq<T>, less: (T, T) -> bool)
    requires s != [] ==> !less(s[0], x)
    ensures Insert(x, s, less) == [x] + s
  {
  }

  /** Once an element is not below `x`, nothing after it is. */
  ghost predicate CutAt<T>(x: T, s: seq<T>, less: (T, T) -> bool) {
    forall i, j :: 0 <= i < j < |s| && !less(s[i], x) ==> !less(s[j], x)
  }

  lemma SortedCut<T(!new)>(x: T, s: seq<T>, less: (T, T) -> bool)
    requires StrictWeakOrder(less) && SortedBy(s, less)
    ensures CutAt(x, s, less)
  {
  }

  lemma InsertLater<T>(x: T, y: T, s: seq<T>, less: (T, T) -> bool)
    requires less(y, x)
    ensures Insert(x, [y] + s, less) == [y] + Insert(x, s, less)
  {
    assert ([y] + s)[1..] == s;
  }

  lemma {:induction false} FilterInsert<T(!new)>(x: T, s: seq<T>, p: T -> bool, less: (T, T) -> bool)
    requires CutAt(x, s, less)
    ensures Filter(Insert(x, s, less), p) == if p(x) then Insert(x, Filter(s, p), less) else Filter(s, p)
  {
    if s == [] {
      FilterCons(x, s, p);
    } else if !less(s[0], x) {
      FilterCons(x, s, p);
      var kept := Filter(s, p);
      if kept != [] {
        FilterMember(s, p, kept[0]);
      }
      InsertFirst(x, kept, less);
    } else {
      var y, rest := s[0], s[1..];
      assert s == [y] + rest;
      FilterInsert(x, rest, p, less);
      InsertLater(x, y, rest, less);
      FilterCons(y, Insert(x, rest, less), p);
      FilterCons(y, rest, p);
      InsertLater(x, y, Filter(rest, p), less);
    }
  }

  /** Filtering before or after a stable sort gives the same sequence. */
  lemma {:induction false} FilterStableSort<T(!new)>(s: seq<T>, p: T -> bool, less: (T, T) -> bool)
    requires StrictWeakOrder(less)
    ensures Filter(StableSort(s, less), p) == StableSort(Filter(s, p), less)
  {
    if s != [] {
      FilterStableSort(s[1..], p, less);
      StableSortSorted(s[1..], less);
      SortedCut(s[0], StableSort(s[1..], less), less);
      FilterInsert(s[0], StableSort(s[1..], less), p, less);
      assert s == [s[0]] + s[1..];
      FilterCons(s[0], s[1..], p);
      if p(s[0]) {
        assert ([s[0]] + Filter(s[1..], p))[1..] == Filter(s[1..], p);
      }
    }
  }

  lemma {:induction false} InsertAgree<T(!new)>(x: T, s: seq<T>, less: (T, T) -> bool, less': (T, T) -> bool)
    requires forall y :: y in s ==> less(y, x) == less'(y, x)
    ensures Insert(x, s, less) == Insert(x, s, less')
  {
    if s != [] && less(s[0], x) {
      InsertAgree(x, s[1..], less, less');
    }
  }

  /** `s` already lists the ties of `coarse` in the order `fine` breaks them. */
  ghost predicate TiesOrdered<T>(s: seq<T>, coarse: (T, T) -> bool, fine: (T, T) -> bool) {
    forall i, j :: 0 <= i < j < |s| && !coarse(s[i], s[j]) && !coarse(s[j], s[i]) ==> !fine(s[j], s[i])
  }

  /** A finer comparison sorts like the coarse one when the input already orders its ties. */
  lemma {:induction false} StableSortRefines<T(!new)>(s: seq<T>, coarse: (T, T) -> bool, fine: (T, T) -> bool)
    requires TiesOrdered(s, coarse, fine)
    requires forall a, b :: coarse(a, b) ==> fine(a, b) && !fine(b, a)
    ensures StableSort(s, coarse) == StableSort(s, fine)
  {
    if s != [] {
      var rest := s[1..];
      assert TiesOrdered(rest, coarse, fine) by {
        forall i, j | 0 <= i < j < |rest| && !coarse(rest[i], rest[j]) && !coarse(rest[j], rest[i])
          ensures !fine(rest[j], rest[i])
        {
          assert rest[i] == s[i + 1] && rest[j] == s[j + 1];
        }
      }
      StableSortRefines(rest, coarse, fine);
      forall y | y in StableSort(rest, coarse) ensures coarse(y, s[0]) == fine(y, s[0]) {
        StableSortMember(rest, coarse, y);
        var k :| 0 <= k < |rest| && rest[k] == y;
        assert s[k + 1] == y;
      }
      InsertAgree(s[0], StableSort(rest, coarse), coarse, fine);
    }
  }

  lemma {:induction false} SumInsert<T>(x: T, s: seq<T>, less: (T, T) -> bool, f: T -> int)
    ensures Sum(Insert(x, s, less), f) == Sum(s, f) + f(x)
  {
    if s == [] || !less(s[0], x) {
      SumConcat([x], s, f);
      SumAppend([], x, f);
      assert [] + [x] == [x];
    } else {
      SumInsert(x, s[1..], less, f);
      SumConcat([s[0]], Insert(x, s[1..], less), f);
      SumConcat([s[0]], s[1..], f);
      assert s == [s[0]] + s[1..];
    }
  }

  /** Sorting does not change a sum. */
  lemma {:induction false} SumStableSort<T>(s: seq<T>, less: (T, T) -> bool, f: T -> int)
    ensures Sum(StableSort(s, less), f) == Sum(s, f)
  {
    if s != [] {
      SumStableSort(s[1..], less, f);
      SumInsert(s[0], StableSort(s[1..], less), less, f);
      SumConcat([s[0]], s[1..], f);
      SumAppend([], s[0], f);
      assert [] + [s[0]] == [s[0]] && s == [s[0]] + s[1..];
    }
  }
}
