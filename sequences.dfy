/**
 * Generic facts about a loop that maps each element of a list to a value or
 * an error and stops at the first error, the shape of the loop in
 * `forecast_weather`.
 */
module Sequences {
  import opened Wrappers

  /** f applied to each element, position by position (see MapResultsAt). */
  function MapResults<A, T, E>(xs: seq<A>, f: A -> Result<T, E>): (rs: seq<Result<T, E>>)
    ensures |rs| == |xs|
  {
    if xs == [] then [] else MapResults(xs[..|xs| - 1], f) + [f(xs[|xs| - 1])]
  }

  lemma {:induction false} MapResultsAt<A, T, E>(xs: seq<A>, f: A -> Result<T, E>, i: nat)
    requires i < |xs|
    ensures MapResults(xs, f)[i] == f(xs[i])
  {
    var init := xs[..|xs| - 1];
    if i < |init| {
      MapResultsAt(init, f, i);
    }
  }

  lemma MapResultsAll<A, T, E>(xs: seq<A>, f: A -> Result<T, E>)
    ensures forall i :: 0 <= i < |xs| ==> MapResults(xs, f)[i] == f(xs[i])
  {
    forall i | 0 <= i < |xs| ensures MapResults(xs, f)[i] == f(xs[i]) {
      MapResultsAt(xs, f, i);
    }
  }

  lemma MapResultsSnoc<A, T, E>(xs: seq<A>, x: A, f: A -> Result<T, E>)
    ensures MapResults(xs + [x], f) == MapResults(xs, f) + [f(x)]
  {
    assert (xs + [x])[..|xs|] == xs;
  }

  lemma {:induction false} MapResultsPrefix<A, T, E>(xs: seq<A>, f: A -> Result<T, E>, n: nat)
    requires n <= |xs|
    ensures MapResults(xs[..n], f) == MapResults(xs, f)[..n]
  {
    if n < |xs| {
      var init := xs[..|xs| - 1];
      MapResultsPrefix(init, f, n);
      assert init[..n] == xs[..n];
    } else {
      assert xs[..n] == xs;
    }
  }

  /** Position k holds the first error of rs. */
  predicate FirstError<T, E>(rs: seq<Result<T, E>>, k: int) {
    && 0 <= k < |rs|
    && rs[k].Err?
    && forall i :: 0 <= i < k ==> rs[i].Ok?
  }

  /**
   * What a loop that stops at the first exception produces: every value, in
   * order, or the first error.
   */
  function Collect<T, E>(rs: seq<Result<T, E>>): (r: Result<seq<T>, E>)
    ensures r.Ok? <==> forall i :: 0 <= i < |rs| ==> rs[i].Ok?
    ensures r.Ok? ==> |r.value| == |rs|
    ensures r.Ok? ==> forall i :: 0 <= i < |rs| ==> r.value[i] == rs[i].value
    ensures r.Err? ==> exists k :: FirstError(rs, k) && r.error == rs[k].error
  {
    if rs == [] then Ok([])
    else
      var init, last := rs[..|rs| - 1], rs[|rs| - 1];
      match Collect(init)
      case Err(e) =>
        assert forall i :: 0 <= i < |init| ==> init[i] == rs[i];
        Err(e)
      case Ok(vs) =>
        assert forall i :: 0 <= i < |init| ==> init[i] == rs[i];
        match last
        case Err(e) =>
          assert FirstError(rs, |rs| - 1);
          Err(e)
        case Ok(v) => Ok(vs + [v])
  }

  lemma CollectSnoc<T, E>(rs: seq<Result<T, E>>, r: Result<T, E>)
    requires Collect(rs).Ok? && r.Ok?
    ensures Collect(rs + [r]) == Ok(Collect(rs).value + [r.value])
  {
    assert (rs + [r])[..|rs|] == rs;
  }

  lemma CollectSnocErr<T, E>(rs: seq<Result<T, E>>, r: Result<T, E>)
    requires Collect(rs).Ok? && r.Err?
    ensures Collect(rs + [r]) == Err(r.error)
  {
    assert (rs + [r])[..|rs|] == rs;
  }

  lemma CollectErrStep<T, E>(rs: seq<Result<T, E>>, init: seq<Result<T, E>>)
    requires rs != [] && init == rs[..|rs| - 1] && Collect(init).Err?
    ensures Collect(rs) == Collect(init)
  {
  }

  /** Once a prefix fails, what follows changes nothing: the first error is the one reported. */
  lemma {:induction false} CollectErrStable<T, E>(a: seq<Result<T, E>>, b: seq<Result<T, E>>)
    requires Collect(a).Err?
    ensures Collect(a + b) == Collect(a)
  {
    if b == [] {
      assert a + b == a;
    } else {
      var b' := b[..|b| - 1];
      CollectErrStable(a, b');
      CollectErrStep(a + b, a + b');
    }
  }

  /** A prefix of results that all succeed collects to the matching prefix of the values. */
  lemma CollectPrefix<T, E>(rs: seq<Result<T, E>>, n: nat)
    requires n <= |rs| && Collect(rs).Ok?
    ensures Collect(rs[..n]) == Ok(Collect(rs).value[..n])
  {
    var vs := Collect(rs).value;
    assert Collect(rs[..n]).Ok?;
    assert Collect(rs[..n]).value == vs[..n];
  }

  /** The loop body on an element that succeeds: the collected prefix grows by its value. */
  lemma CollectStep<A, T, E>(xs: seq<A>, f: A -> Result<T, E>, i: nat)
    requires i < |xs| && Collect(MapResults(xs[..i], f)).Ok? && f(xs[i]).Ok?
    ensures Collect(MapResults(xs[..i + 1], f)) == Ok(Collect(MapResults(xs[..i], f)).value + [f(xs[i]).value])
  {
    assert xs[..i + 1] == xs[..i] + [xs[i]];
    MapResultsSnoc(xs[..i], xs[i], f);
    CollectSnoc(MapResults(xs[..i], f), f(xs[i]));
  }

  /** The loop body on an element that fails, after elements that all succeeded: that error is the outcome of the whole list. */
  lemma CollectStop<A, T, E>(xs: seq<A>, f: A -> Result<T, E>, i: nat)
    requires i < |xs| && Collect(MapResults(xs[..i], f)).Ok? && f(xs[i]).Err?
    ensures Collect(MapResults(xs, f)) == Err(f(xs[i]).error)
  {
    CollectFailsAt(xs, f, i);
    CollectErrPrefix(xs, f, i + 1);
  }

  lemma CollectFailsAt<A, T, E>(xs: seq<A>, f: A -> Result<T, E>, i: nat)
    requires i < |xs| && Collect(MapResults(xs[..i], f)).Ok? && f(xs[i]).Err?
    ensures Collect(MapResults(xs[..i + 1], f)) == Err(f(xs[i]).error)
  {
    assert xs[..i + 1] == xs[..i] + [xs[i]];
    MapResultsSnoc(xs[..i], xs[i], f);
    CollectSnocErr(MapResults(xs[..i], f), f(xs[i]));
  }

  lemma CollectErrPrefix<A, T, E>(xs: seq<A>, f: A -> Result<T, E>, n: nat)
    requires n <= |xs| && Collect(MapResults(xs[..n], f)).Err?
    ensures Collect(MapResults(xs, f)) == Collect(MapResults(xs[..n], f))
  {
    var all := MapResults(xs, f);
    var pre, post := all[..n], all[n..];
    MapResultsPrefix(xs, f, n);
    SplitAt(all, n);
    CollectErrStable(pre, post);
  }

  lemma SplitAt<T>(s: seq<T>, n: nat)
    requires n <= |s|
    ensures s[..n] + s[n..] == s
  {
  }

  lemma AppendAssoc<T>(a: seq<T>, b: seq<T>, c: seq<T>)
    ensures (a + b) + c == a + (b + c)
  {
  }

  lemma PrefixExtend<T>(h: seq<T>, a: seq<T>, b: seq<T>)
    requires a <= b
    ensures h + a <= h + b
  {
    assert (h + b)[..|h + a|] == h + a;
  }

  /** The strings of a list, joined in order. */
  function Concat(ss: seq<string>): string {
    if ss == [] then "" else Concat(ss[..|ss| - 1]) + ss[|ss| - 1]
  }

  lemma ConcatSnoc(ss: seq<string>, s: string)
    ensures Concat(ss + [s]) == Concat(ss) + s
  {
    assert (ss + [s])[..|ss|] == ss;
  }

  /** Joining a prefix of the strings gives a prefix of the joined text. */
  lemma {:induction false} ConcatPrefix(ss: seq<string>, n: nat)
    requires n <= |ss|
    ensures Concat(ss[..n]) <= Concat(ss)
  {
    if n < |ss| {
      var init := ss[..|ss| - 1];
      ConcatPrefix(init, n);
      assert init[..n] == ss[..n];
    } else {
      assert ss[..n] == ss;
    }
  }
}
