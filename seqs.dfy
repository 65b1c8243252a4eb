/** Sequence helpers shared by the models: mapping each element to a run of results. */
module Seqs {
  import opened Options

  /** The runs `f(xs[0]) + f(xs[1]) + ...`, in order (a loop that appends per element). */
  function FlatMap<T, U>(f: T -> seq<U>, xs: seq<T>): seq<U>
  {
    if |xs| == 0 then [] else FlatMap(f, xs[..|xs| - 1]) + f(xs[|xs| - 1])
  }

  lemma {:induction false} FlatMapAppend<T, U>(f: T -> seq<U>, a: seq<T>, b: seq<T>)
    ensures FlatMap(f, a + b) == FlatMap(f, a) + FlatMap(f, b)
    decreases |b|
  {
    if |b| == 0 {
      assert a + b == a;
    } else {
      var ab := a + b;
      assert ab[..|ab| - 1] == a + b[..|b| - 1];
      assert ab[|ab| - 1] == b[|b| - 1];
      FlatMapAppend(f, a, b[..|b| - 1]);
    }
  }

  /** Extending the input by one element extends the output by that element's run. */
  lemma FlatMapSnoc<T, U>(f: T -> seq<U>, xs: seq<T>, i: nat)
    requires i < |xs|
    ensures FlatMap(f, xs[..i + 1]) == FlatMap(f, xs[..i]) + f(xs[i])
  {
    assert xs[..i + 1][..i] == xs[..i];
  }

  /** Every output element comes from the run of some input element. */
  lemma {:induction false} FlatMapMember<T, U>(f: T -> seq<U>, xs: seq<T>, e: U)
    requires e in FlatMap(f, xs)
    ensures exists x :: x in xs && e in f(x)
    decreases |xs|
  {
    var init := xs[..|xs| - 1];
    if e in FlatMap(f, init) {
      FlatMapMember(f, init, e);
      var x :| x in init && e in f(x);
      assert x in xs;
    } else {
      assert xs[|xs| - 1] in xs;
    }
  }

  /** A single input element gives exactly its own run. */
  lemma FlatMapSingle<T, U>(f: T -> seq<U>, x: T)
    ensures FlatMap(f, [x]) == f(x)
  {
    assert [x][..0] == [];
  }

  /** Every element of the run of an input element is in the output. */
  lemma {:induction false} FlatMapIn<T, U>(f: T -> seq<U>, xs: seq<T>, i: nat, e: U)
    requires i < |xs| && e in f(xs[i])
    ensures e in FlatMap(f, xs)
  {
    FlatMapSnoc(f, xs, i);
    FlatMapAppend(f, xs[..i + 1], xs[i + 1..]);
    assert xs == xs[..i + 1] + xs[i + 1..];
  }

  /** An element whose run is empty can be dropped from anywhere in the input. */
  lemma FlatMapSkip<T, U>(f: T -> seq<U>, a: seq<T>, x: T, b: seq<T>)
    requires f(x) == []
    ensures FlatMap(f, a + [x] + b) == FlatMap(f, a + b)
  {
    var ax := a + [x];
    assert ax[..|ax| - 1] == a;
    FlatMapAppend(f, ax, b);
    FlatMapAppend(f, a, b);
  }

  /**
   * `f` applied to every element, in order, as a loop that stops at the first failure: the results
   * when every application succeeds, None otherwise.
   */
  function MapAll<T, U>(f: T -> Option<U>, xs: seq<T>): (r: Option<seq<U>>)
    ensures r.Some? <==> forall i :: 0 <= i < |xs| ==> f(xs[i]).Some?
    ensures r.Some? ==> |r.value| == |xs| && forall i :: 0 <= i < |xs| ==> f(xs[i]) == Some(r.value[i])
  {
    if |xs| == 0 then Some([])
    else
      match MapAll(f, xs[..|xs| - 1])
      case None => None
      case Some(init) =>
        match f(xs[|xs| - 1])
        case None => None
        case Some(y) => Some(init + [y])
  }

  /** Python's `xs[:stop]`: a negative stop counts from the end. */
  function PySliceTo<T>(xs: seq<T>, stop: int): seq<T>
  {
    if stop >= 0 then xs[..if stop < |xs| then stop else |xs|]
    else xs[..if |xs| + stop > 0 then |xs| + stop else 0]
  }

  /** A slice `xs[:stop]` is a prefix of `xs`. */
  lemma PySlicePrefix<T>(xs: seq<T>, stop: int)
    ensures |PySliceTo(xs, stop)| <= |xs| && PySliceTo(xs, stop) == xs[..|PySliceTo(xs, stop)|]
  {
  }

  /** A failure in a prefix is a failure of the whole loop. */
  lemma {:induction false} MapAllStops<T, U>(f: T -> Option<U>, xs: seq<T>, n: nat)
    requires n <= |xs| && MapAll(f, xs[..n]) == None
    ensures MapAll(f, xs) == None
  {
    var i :| 0 <= i < n && f(xs[..n][i]).None?;
    assert xs[i] == xs[..n][i];
  }

  /** `g` applied to every element, in order. */
  function MapSeq<T, U>(g: T -> U, xs: seq<T>): seq<U>
  {
    if |xs| == 0 then [] else MapSeq(g, xs[..|xs| - 1]) + [g(xs[|xs| - 1])]
  }

  /** `f` succeeds on every element. */
  predicate AllSome<T, U>(f: T -> Option<U>, xs: seq<T>)
  {
    |xs| == 0 || (AllSome(f, xs[..|xs| - 1]) && f(xs[|xs| - 1]).Some?)
  }

  lemma {:induction false} MapSeqIndex<T, U>(g: T -> U, xs: seq<T>)
    ensures |MapSeq(g, xs)| == |xs|
    ensures forall i :: 0 <= i < |xs| ==> MapSeq(g, xs)[i] == g(xs[i])
  {
    if |xs| > 0 {
      MapSeqIndex(g, xs[..|xs| - 1]);
    }
  }

  lemma {:induction false} AllSomeIndex<T, U>(f: T -> Option<U>, xs: seq<T>)
    ensures AllSome(f, xs) <==> forall i :: 0 <= i < |xs| ==> f(xs[i]).Some?
  {
    if |xs| > 0 {
      AllSomeIndex(f, xs[..|xs| - 1]);
    }
  }

  lemma MapSeqSnoc<T, U>(g: T -> U, xs: seq<T>, n: nat)
    requires n < |xs|
    ensures MapSeq(g, xs[..n + 1]) == MapSeq(g, xs[..n]) + [g(xs[n])]
  {
    assert xs[..n + 1][..n] == xs[..n];
  }

  lemma AllSomeSnoc<T, U>(f: T -> Option<U>, xs: seq<T>, n: nat)
    requires n < |xs|
    ensures AllSome(f, xs[..n + 1]) <==> AllSome(f, xs[..n]) && f(xs[n]).Some?
  {
    assert xs[..n + 1][..n] == xs[..n];
  }

  /** A failure on a prefix is a failure on the whole sequence. */
  lemma {:induction false} AllSomeStops<T, U>(f: T -> Option<U>, xs: seq<T>, n: nat)
    requires n <= |xs| && !AllSome(f, xs[..n])
    ensures !AllSome(f, xs)
    decreases |xs| - n
  {
    if n == |xs| {
      assert xs[..n] == xs;
    } else {
      AllSomeSnoc(f, xs, n);
      AllSomeStops(f, xs, n + 1);
    }
  }

  lemma PrefixOfConcat<T>(a: seq<T>, b: seq<T>, n: nat)
    requires n <= |a|
    ensures |a + b| >= n && (a + b)[..n] == a[..n]
  {
  }
}
