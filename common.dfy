/** Small value types shared by the overlay, the session state and the chat panel. */
module Common {

  datatype Option<T> = None | Some(value: T)

  /** What an awaited `fetch` followed by `response.json()` yields, seen from the caller:
      either the decoded body arrives, or the promise rejects (transport failure, or a
      body that is not JSON) and the `catch` branch runs. */
  datatype Reply<T> = Arrived(value: T) | Failed

  lemma ConcatAssoc<T>(a: seq<T>, b: seq<T>, c: seq<T>)
    ensures (a + b) + c == a + (b + c)
  {
  }

  /** A window of `a + b` that lies inside `b`. */
  lemma SliceRight<T>(a: seq<T>, b: seq<T>, k: int, n: int)
    requires 0 <= k && 0 <= n && k + n <= |b|
    ensures (a + b)[|a| + k..|a| + k + n] == b[k..k + n]
  {
  }

  /** A window of `a + b` that lies inside `a`. */
  lemma SliceLeft<T>(a: seq<T>, b: seq<T>, k: int, n: int)
    requires 0 <= k && 0 <= n && k + n <= |a|
    ensures (a + b)[k..k + n] == a[k..k + n]
  {
  }

  /** Four single appends are one append of four. */
  lemma AppendFour<T>(s: seq<T>, a: T, b: T, c: T, d: T)
    ensures s + [a] + [b] + [c] + [d] == s + [a, b, c, d]
  {
  }

  /** `f(x)` for every `x` of `xs`, concatenated in order. */
  function FlatMap<A, B>(f: A -> seq<B>, xs: seq<A>): seq<B>
    decreases |xs|
  {
    if xs == [] then [] else FlatMap(f, xs[..|xs| - 1]) + f(xs[|xs| - 1])
  }

  /** When every element maps to four values, the result has four per element. */
  lemma {:induction false} FlatMapLength<A, B>(f: A -> seq<B>, xs: seq<A>)
    requires forall x :: |f(x)| == 4
    ensures |FlatMap(f, xs)| == 4 * |xs|
    decreases |xs|
  {
    if xs != [] {
      FlatMapLength(f, xs[..|xs| - 1]);
    }
  }

  /** ... and element `i` owns positions 4i .. 4i+3. */
  lemma {:induction false} FlatMapAt<A, B>(f: A -> seq<B>, xs: seq<A>, i: int)
    requires forall x :: |f(x)| == 4
    requires 0 <= i < |xs|
    ensures |FlatMap(f, xs)| == 4 * |xs|
    ensures FlatMap(f, xs)[4 * i..4 * i + 4] == f(xs[i])
    decreases |xs|
  {
    var init := xs[..|xs| - 1];
    FlatMapLength(f, xs);
    FlatMapLength(f, init);
    if i < |xs| - 1 {
      FlatMapAt(f, init, i);
      assert init[i] == xs[i];
      SliceLeft(FlatMap(f, init), f(xs[|xs| - 1]), 4 * i, 4);
    } else {
      SliceRight(FlatMap(f, init), f(xs[|xs| - 1]), 0, 4);
    }
  }

  /** Mapping one more element appends its values. */
  lemma FlatMapSnoc<A, B>(f: A -> seq<B>, xs: seq<A>, i: int)
    requires 0 <= i < |xs|
    ensures FlatMap(f, xs[..i + 1]) == FlatMap(f, xs[..i]) + f(xs[i])
  {
    assert xs[..i + 1][..i] == xs[..i];
  }

  /** Every value of the result comes from the image of some element. */
  lemma {:induction false} FlatMapMember<A, B>(f: A -> seq<B>, xs: seq<A>, j: int)
    requires 0 <= j < |FlatMap(f, xs)|
    ensures exists i, m :: 0 <= i < |xs| && 0 <= m < |f(xs[i])| && FlatMap(f, xs)[j] == f(xs[i])[m]
    decreases |xs|
  {
    var init := xs[..|xs| - 1];
    var front := FlatMap(f, init);
    if j < |front| {
      FlatMapMember(f, init, j);
      var i, m :| 0 <= i < |init| && 0 <= m < |f(init[i])| && front[j] == f(init[i])[m];
      assert init[i] == xs[i];
    } else {
      assert FlatMap(f, xs)[j] == f(xs[|xs| - 1])[j - |front|];
    }
  }
}
