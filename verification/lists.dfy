/**
  Sequence operations the handlers use in the shape JavaScript's array
  methods give them: `filter`, a conditional `map` and `find`.
*/
module Lists {
  import opened Wrappers

  /** `xs.filter(keep)`. */
  function Filter<T(!new)>(xs: seq<T>, keep: T -> bool): (r: seq<T>)
    ensures |r| <= |xs|
    ensures forall x :: x in r <==> x in xs && keep(x)
  {
    if |xs| == 0 then []
    else (if keep(xs[0]) then [xs[0]] else []) + Filter(xs[1..], keep)
  }

  /** Filtering a concatenation filters each part: the kept elements stay in their order. */
  lemma {:induction false} FilterAppend<T(!new)>(a: seq<T>, b: seq<T>, keep: T -> bool)
    ensures Filter(a + b, keep) == Filter(a, keep) + Filter(b, keep)
  {
    if |a| == 0 {
      assert a + b == b;
    } else {
      assert (a + b)[1..] == a[1..] + b;
      FilterAppend(a[1..], b, keep);
    }
  }

  /** When every element is kept, the filter is the identity. */
  lemma {:induction false} FilterAll<T(!new)>(xs: seq<T>, keep: T -> bool)
    requires forall i | 0 <= i < |xs| :: keep(xs[i])
    ensures Filter(xs, keep) == xs
  {
    if |xs| > 0 {
      FilterAll(xs[1..], keep);
    }
  }

  /** `xs.map(x => hit(x) ? f(x) : x)`. */
  function MapIf<T>(xs: seq<T>, hit: T -> bool, f: T -> T): (r: seq<T>)
    ensures |r| == |xs|
    ensures forall i | 0 <= i < |xs| :: r[i] == if hit(xs[i]) then f(xs[i]) else xs[i]
  {
    seq(|xs|, i requires 0 <= i < |xs| => if hit(xs[i]) then f(xs[i]) else xs[i])
  }

  /**
    Filtering away every element the map touches, when the map keeps them
    filtered away, gives the same result as filtering the original.
  */
  lemma {:induction false} FilterMapIf<T(!new)>(xs: seq<T>, hit: T -> bool, f: T -> T, keep: T -> bool)
    requires forall x :: hit(x) ==> !keep(x) && !keep(f(x))
    ensures Filter(MapIf(xs, hit, f), keep) == Filter(xs, keep)
  {
    if |xs| > 0 {
      var m := MapIf(xs, hit, f);
      assert m[1..] == MapIf(xs[1..], hit, f);
      FilterMapIf(xs[1..], hit, f, keep);
    }
  }

  predicate Distinct<T(==)>(xs: seq<T>) {
    forall i, j | 0 <= i < j < |xs| :: xs[i] != xs[j]
  }

  /** The index `Array.prototype.findIndex` reports: the first element satisfying `p`. */
  function FindIndex<T>(xs: seq<T>, p: T -> bool): (r: Option<nat>)
    ensures r.Some? ==> r.value < |xs| && p(xs[r.value]) && forall j | 0 <= j < r.value :: !p(xs[j])
    ensures r.None? <==> forall j | 0 <= j < |xs| :: !p(xs[j])
  {
    if |xs| == 0 then None
    else if p(xs[0]) then Some(0)
    else match FindIndex(xs[1..], p)
      case None => None
      case Some(k) => Some(k + 1)
  }

  /** The first satisfying index is the one `FindIndex` reports. */
  lemma FindIndexIs<T>(xs: seq<T>, p: T -> bool, k: nat)
    requires k < |xs| && p(xs[k])
    requires forall j | 0 <= j < k :: !p(xs[j])
    ensures FindIndex(xs, p) == Some(k)
  {
  }
}
