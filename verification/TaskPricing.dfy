/** The price of a task (relay/task/billing.go), with exact products. The other ratios are
    a map, walked in whatever order the runtime chooses. */
module TaskPricing {
  import TaskStore

  const QUOTA_SCALE := 1000.0

  function Times(a: real, b: real): real { a * b }

  function At(ratios: map<string, real>, name: string): real {
    if name in ratios then ratios[name] else 1.0
  }

  /** r times the ratio of every name, from the left. */
  function Product(r: real, ratios: map<string, real>, names: seq<string>): real {
    if names == [] then r
    else Times(Product(r, ratios, names[..|names| - 1]), At(ratios, names[|names| - 1]))
  }

  /** With nothing to walk it is r; every further name multiplies it by that name's ratio. */
  lemma ProductSteps(r: real, ratios: map<string, real>, names: seq<string>, name: string)
    ensures Product(r, ratios, []) == r
    ensures name in ratios ==> Product(r, ratios, names + [name]) == Product(r, ratios, names) * ratios[name]
  {
    assert (names + [name])[..|names|] == names;
  }

  function Without(names: seq<string>, i: nat): seq<string>
    requires i < |names|
  {
    names[..i] + names[i + 1..]
  }

  lemma SwapFactors(a: real, b: real, c: real)
    ensures Times(Times(a, b), c) == Times(Times(a, c), b)
  {
  }

  /** Any factor may be taken last. */
  lemma {:induction false} FactorLast(r: real, ratios: map<string, real>, names: seq<string>, i: nat)
    requires i < |names|
    ensures Product(r, ratios, names) == Times(Product(r, ratios, Without(names, i)), At(ratios, names[i]))
  {
    var n := |names| - 1;
    if i == n {
      assert Without(names, i) == names[..n];
    } else {
      assert Without(names, i)[..n - 1] == Without(names[..n], i);
      FactorLast(r, ratios, names[..n], i);
      SwapFactors(Product(r, ratios, Without(names[..n], i)), At(ratios, names[i]), At(ratios, names[n]));
    }
  }

  /** `names` lists every element of `keys` once. */
  ghost predicate Walk(keys: set<string>, names: seq<string>) {
    && (forall k :: k in keys <==> k in names)
    && forall i, j :: 0 <= i < j < |names| ==> names[i] != names[j]
  }

  lemma WalkWithout(keys: set<string>, names: seq<string>, i: nat)
    requires Walk(keys, names) && i < |names|
    ensures Walk(keys - {names[i]}, Without(names, i))
  {
    var rest := Without(names, i);
    forall k ensures k in keys - {names[i]} <==> k in rest {
      if k in names && k != names[i] {
        var j :| 0 <= j < |names| && names[j] == k;
        assert rest[if j < i then j else j - 1] == k;
      }
    }
  }

  lemma EmptyWalk(keys: set<string>, names: seq<string>)
    requires Walk(keys, names)
    ensures names == [] <==> keys == {}
  {
    if names != [] { assert names[0] in keys; }
  }

  /** The product is the same for every order in which the map can be walked. */
  lemma {:induction false} OrderIsIrrelevant(r: real, ratios: map<string, real>, keys: set<string>,
                                             a: seq<string>, b: seq<string>)
    requires Walk(keys, a) && Walk(keys, b)
    ensures Product(r, ratios, a) == Product(r, ratios, b)
    decreases |b|
  {
    EmptyWalk(keys, a);
    EmptyWalk(keys, b);
    if b != [] {
      var n := |b| - 1;
      assert b[n] in a;
      var i :| 0 <= i < |a| && a[i] == b[n];
      assert Without(b, n) == b[..n];
      WalkWithout(keys, a, i);
      WalkWithout(keys, b, n);
      OrderIsIrrelevant(r, ratios, keys - {b[n]}, Without(a, i), b[..n]);
      FactorLast(r, ratios, a, i);
    }
  }

  /** modelRatio x groupRatio x every other ratio x 1000, truncated. */
  method ComputeQuota(modelRatio: real, groupRatio: real, otherRatios: map<string, real>) returns (quota: int)
    ensures forall names :: Walk(otherRatios.Keys, names) ==>
      quota == TaskStore.Truncate(Product(modelRatio * groupRatio, otherRatios, names) * 1000.0)
  {
    var r := Times(modelRatio, groupRatio);
    var left := otherRatios.Keys;
    ghost var done: seq<string> := [];
    while left != {}
      invariant left <= otherRatios.Keys
      invariant Walk(otherRatios.Keys - left, done)
      invariant r == Product(Times(modelRatio, groupRatio), otherRatios, done)
      decreases |left|
    {
      var k :| k in left;
      r := Times(r, otherRatios[k]);
      left := left - {k};
      assert (done + [k])[..|done|] == done;
      done := done + [k];
    }
    assert otherRatios.Keys - left == otherRatios.Keys;
    forall names | Walk(otherRatios.Keys, names)
      ensures r == Product(Times(modelRatio, groupRatio), otherRatios, names)
    {
      OrderIsIrrelevant(Times(modelRatio, groupRatio), otherRatios, otherRatios.Keys, done, names);
    }
    quota := TaskStore.Truncate(Times(r, QUOTA_SCALE));
  }
}
