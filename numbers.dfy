/** JavaScript number arithmetic as the pages use it, with NaN written as
    `None`. Money is an exact `real`; IEEE rounding is not modelled. */
module Numbers {
  import opened Wrappers

  /** The conversions between form text and numbers that the pages borrow
      from the JavaScript runtime: `parseFloat`, `parseInt` and
      `Number.prototype.toString`. They are parameters of the model; a parse
      that fails yields NaN, written `None`. */
  datatype Conversions = Conversions(
    parseFloat: string -> Option<real>,
    parseInt: string -> Option<int>,
    showReal: real -> string,
    showInt: int -> string)

  /** Printing a number and parsing it back gives the number again, and the
      empty string parses to NaN (as `parseFloat('')` and `parseInt('')` do). */
  ghost predicate RoundTrips(c: Conversions)
  {
    && c.parseFloat("") == None
    && c.parseInt("") == None
    && (forall x: real :: c.parseFloat(c.showReal(x)) == Some(x))
    && (forall n: int :: c.parseInt(c.showInt(n)) == Some(n))
  }

  /** A printed number is never the empty string when printing round-trips. */
  lemma ShownNumbersParse(c: Conversions, x: real, n: int)
    requires RoundTrips(c)
    ensures c.parseFloat(c.showReal(x)) == Some(x) && c.showReal(x) != ""
    ensures c.parseInt(c.showInt(n)) == Some(n) && c.showInt(n) != ""
  {
    assert c.parseFloat(c.showReal(x)) == Some(x);
    assert c.parseInt(c.showInt(n)) == Some(n);
  }

  /** JavaScript `a / 100` on a possibly-NaN number. */
  function Percent(a: Option<real>): (r: Option<real>)
    ensures r.Some? <==> a.Some?
    ensures r.Some? ==> r.value * 100.0 == a.value
  {
    if a.Some? then Some(a.value / 100.0) else None
  }

  /** JavaScript `a + b`: NaN if either side is NaN. */
  function Add(a: Option<real>, b: Option<real>): (r: Option<real>)
    ensures r.Some? <==> a.Some? && b.Some?
    ensures r.Some? ==> r.value == a.value + b.value
  {
    if a.Some? && b.Some? then Some(a.value + b.value) else None
  }

  /** JavaScript `a * b`: NaN if either side is NaN. */
  function Mul(a: Option<real>, b: Option<real>): (r: Option<real>)
    ensures r.Some? <==> a.Some? && b.Some?
    ensures r.Some? ==> r.value == a.value * b.value
  {
    if a.Some? && b.Some? then Some(a.value * b.value) else None
  }

  /** `xs.reduce((acc, x) => acc + f(x), 0)`: a left fold starting at 0. */
  function SumOf<T>(xs: seq<T>, f: T -> Option<real>): Option<real>
  {
    if xs == [] then Some(0.0) else Add(SumOf(xs[..|xs| - 1], f), f(xs[|xs| - 1]))
  }

  /** The fold is defined exactly when no term is NaN. */
  lemma {:induction false} SumOfDefined<T>(xs: seq<T>, f: T -> Option<real>)
    ensures SumOf(xs, f).Some? <==> forall i :: 0 <= i < |xs| ==> f(xs[i]).Some?
  {
    if xs != [] {
      SumOfDefined(xs[..|xs| - 1], f);
      assert forall i :: 0 <= i < |xs| - 1 ==> xs[..|xs| - 1][i] == xs[i];
    }
  }

  /** Folding a concatenation adds the two folds. */
  lemma {:induction false} SumOfAppend<T>(a: seq<T>, b: seq<T>, f: T -> Option<real>)
    ensures SumOf(a + b, f) == Add(SumOf(a, f), SumOf(b, f))
    decreases |b|
  {
    if b == [] {
      assert a + b == a;
    } else {
      var b' := b[..|b| - 1];
      assert (a + b)[..|a + b| - 1] == a + b';
      assert (a + b)[|a + b| - 1] == b[|b| - 1];
      SumOfAppend(a, b', f);
    }
  }

  /** A one-element fold is that element's term (0 + x is x, NaN stays NaN). */
  lemma SumOfSingleton<T>(x: T, f: T -> Option<real>)
    ensures SumOf([x], f) == f(x)
  {
    assert [x][..0] == [];
  }

  /** Moving one term out of the middle of a fold. */
  lemma SumOfExtract<T>(a: seq<T>, x: T, b: seq<T>, f: T -> Option<real>)
    ensures SumOf(a + [x] + b, f) == Add(f(x), SumOf(a + b, f))
  {
    SumOfAppend(a + [x], b, f);
    SumOfSnoc(a, x, f);
    SumOfAppend(a, b, f);
  }

  /** A fold is its first term plus the fold of the rest. */
  lemma SumOfCons<T>(xs: seq<T>, f: T -> Option<real>)
    requires xs != []
    ensures SumOf(xs, f) == Add(f(xs[0]), SumOf(xs[1..], f))
  {
    SumOfAppend([xs[0]], xs[1..], f);
    SumOfSingleton(xs[0], f);
    assert [xs[0]] + xs[1..] == xs;
  }

  /** Removing the first element of xs and a matching element of its
      permutation ys leaves two permutations of each other. */
  lemma MultisetRemove<T>(xs: seq<T>, ys: seq<T>, i: nat)
    requires multiset(xs) == multiset(ys) && xs != [] && i < |ys| && ys[i] == xs[0]
    ensures multiset(xs[1..]) == multiset(ys[..i] + ys[i + 1..])
  {
    assert xs == [xs[0]] + xs[1..];
    assert multiset(xs) == multiset{xs[0]} + multiset(xs[1..]);
    assert ys == ys[..i] + [ys[i]] + ys[i + 1..];
    assert multiset(ys) == multiset(ys[..i]) + multiset{ys[i]} + multiset(ys[i + 1..]);
    assert multiset(ys[..i] + ys[i + 1..]) == multiset(ys[..i]) + multiset(ys[i + 1..]);
    assert multiset(xs[1..]) == multiset(xs) - multiset{xs[0]};
    assert multiset(ys[..i]) + multiset(ys[i + 1..]) == multiset(ys) - multiset{ys[i]};
  }

  /** The order of the terms does not matter: any permutation of the input
      gives the same sum. */
  lemma {:induction false} SumOfPermutation<T>(xs: seq<T>, ys: seq<T>, f: T -> Option<real>)
    requires multiset(xs) == multiset(ys)
    ensures SumOf(xs, f) == SumOf(ys, f)
    decreases |xs|
  {
    if xs == [] {
      assert |ys| == |multiset(ys)| == 0;
    } else {
      var x := xs[0];
      assert x in multiset(ys);
      var i :| 0 <= i < |ys| && ys[i] == x;
      MultisetRemove(xs, ys, i);
      SumOfPermutation(xs[1..], ys[..i] + ys[i + 1..], f);
      SumOfCons(xs, f);
      SumOfExtract(ys[..i], x, ys[i + 1..], f);
      assert ys[..i] + [x] + ys[i + 1..] == ys;
    }
  }

  /** A fold of non-negative terms is non-negative (or NaN). */
  lemma {:induction false} SumOfNonNegative<T>(xs: seq<T>, f: T -> Option<real>)
    requires forall i :: 0 <= i < |xs| ==> f(xs[i]).Some? ==> f(xs[i]).value >= 0.0
    ensures SumOf(xs, f).Some? ==> SumOf(xs, f).value >= 0.0
  {
    if xs != [] {
      assert forall i :: 0 <= i < |xs| - 1 ==> xs[..|xs| - 1][i] == xs[i];
      SumOfNonNegative(xs[..|xs| - 1], f);
    }
  }

  /** Appending one element adds its term. */
  lemma SumOfSnoc<T>(xs: seq<T>, x: T, f: T -> Option<real>)
    ensures SumOf(xs + [x], f) == Add(SumOf(xs, f), f(x))
  {
    assert (xs + [x])[..|xs + [x]| - 1] == xs;
  }

  /** Replacing the element at k changes the sum by the difference of the two
      terms (when neither the old nor the new sum is NaN). */
  lemma SumOfUpdate<T>(xs: seq<T>, k: nat, y: T, f: T -> Option<real>)
    requires k < |xs|
    ensures SumOf(xs[k := y], f) ==
      Add(Add(SumOf(xs[..k], f), f(y)), SumOf(xs[k + 1..], f))
    ensures SumOf(xs, f) ==
      Add(Add(SumOf(xs[..k], f), f(xs[k])), SumOf(xs[k + 1..], f))
  {
    assert xs[k := y] == (xs[..k] + [y]) + xs[k + 1..];
    assert xs == (xs[..k] + [xs[k]]) + xs[k + 1..];
    SumOfAppend(xs[..k] + [y], xs[k + 1..], f);
    SumOfAppend(xs[..k] + [xs[k]], xs[k + 1..], f);
    SumOfSnoc(xs[..k], y, f);
    SumOfSnoc(xs[..k], xs[k], f);
  }
}
