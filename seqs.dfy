/**
 * The array pipelines the content layer is built from: `filter`,
 * dropping `null`s, and `Promise.all` over a list of outcomes.
 */
module Seqs {
  import opened GuideTypes

  /** What an asynchronous call ends in: a value, or a thrown error. */
  datatype Outcome<T, F> = Ok(value: T) | Threw(fault: F)

  /** `s.filter(keep)`: the elements of `s` that `keep` accepts, in their order. */
  function Filter<T(!new)>(s: seq<T>, keep: T -> bool): (r: seq<T>)
    ensures |r| <= |s|
    ensures forall x :: x in r <==> x in s && keep(x)
  {
    if s == [] then [] else (if keep(s[0]) then [s[0]] else []) + Filter(s[1..], keep)
  }

  /** Filtering a concatenation filters each part and keeps the parts in order. */
  lemma {:induction false} FilterAppend<T(!new)>(a: seq<T>, b: seq<T>, keep: T -> bool)
    ensures Filter(a + b, keep) == Filter(a, keep) + Filter(b, keep)
  {
    if a == [] {
      assert a + b == b;
    } else {
      assert (a + b)[1..] == a[1..] + b;
      FilterAppend(a[1..], b, keep);
    }
  }

  /** `xs.filter(x => x !== null)`: the present values, in their order. */
  function NonNull<T(!new)>(xs: seq<Option<T>>): (r: seq<T>)
    ensures |r| <= |xs|
    ensures forall y :: y in r <==> Some(y) in xs
  {
    if xs == [] then []
    else
      var rest := NonNull(xs[..|xs| - 1]);
      assert xs == xs[..|xs| - 1] + [xs[|xs| - 1]];
      match xs[|xs| - 1]
      case None => rest
      case Some(y) => rest + [y]
  }

  /** Dropping nulls from a concatenation works part by part, keeping order. */
  lemma {:induction false} NonNullAppend<T(!new)>(a: seq<Option<T>>, b: seq<Option<T>>)
    ensures NonNull(a + b) == NonNull(a) + NonNull(b)
  {
    if b == [] {
      assert a + b == a;
    } else {
      var b' := b[..|b| - 1];
      assert (a + b)[..|a + b| - 1] == a + b';
      NonNullAppend(a, b');
    }
  }

  /**
   * `Promise.all(os)`: every value, in order, when no call threw; otherwise
   * the fault of the first call (in list order) that threw.
   */
  function PromiseAll<T, F>(os: seq<Outcome<T, F>>): (r: Outcome<seq<T>, F>)
    ensures r.Ok? ==> |r.value| == |os| && forall i :: 0 <= i < |os| ==> os[i] == Ok(r.value[i])
    ensures r.Threw? <==> exists i :: 0 <= i < |os| && os[i].Threw?
    ensures r.Threw? ==>
      exists i :: 0 <= i < |os| && os[i] == Threw(r.fault) && forall j :: 0 <= j < i ==> os[j].Ok?
  {
    if os == [] then Ok([]) else Join(PromiseAll(os[..|os| - 1]), os[|os| - 1])
  }

  /** Joining one more outcome: the first fault stays, else the new fault or value is added. */
  function Join<T, F>(acc: Outcome<seq<T>, F>, o: Outcome<T, F>): Outcome<seq<T>, F>
  {
    match acc
    case Threw(f) => Threw(f)
    case Ok(vs) =>
      match o
      case Threw(f) => Threw(f)
      case Ok(v) => Ok(vs + [v])
  }

  lemma PromiseAllSnoc<T, F>(os: seq<Outcome<T, F>>, o: Outcome<T, F>)
    ensures PromiseAll(os + [o]) == Join(PromiseAll(os), o)
  {
    assert (os + [o])[..|os|] == os;
  }

  /**
   * Joining a concatenation succeeds exactly when joining each part does,
   * and then gives the parts' values in order.
   */
  lemma PromiseAllAppend<T, F>(a: seq<Outcome<T, F>>, b: seq<Outcome<T, F>>)
    ensures PromiseAll(a + b).Ok? <==> PromiseAll(a).Ok? && PromiseAll(b).Ok?
    ensures PromiseAll(a + b).Ok? ==> PromiseAll(a + b).value == PromiseAll(a).value + PromiseAll(b).value
  {
    var ab := a + b;
    if PromiseAll(ab).Ok? {
      assert forall i :: 0 <= i < |a| ==> ab[i] == a[i];
      assert forall i :: 0 <= i < |b| ==> ab[|a| + i] == b[i];
      var vs, va, vb := PromiseAll(ab).value, PromiseAll(a).value, PromiseAll(b).value;
      assert forall i :: 0 <= i < |a| ==> Ok(vs[i]) == ab[i] == Ok(va[i]);
      assert forall i :: 0 <= i < |b| ==> Ok(vs[|a| + i]) == ab[|a| + i] == Ok(vb[i]);
      assert vs == va + vb;
    } else {
      var i :| 0 <= i < |ab| && ab[i].Threw?;
      if i < |a| { assert a[i].Threw?; } else { assert b[i - |a|].Threw?; }
    }
  }
}
