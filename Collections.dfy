/** The array helpers the source leans on: `Array.prototype.find` and `Array.prototype.filter`. */
module Collections {
  import opened Wrappers

  /** `a` is obtained from `b` by deleting elements: order is preserved. */
  ghost predicate IsSubsequence<T>(a: seq<T>, b: seq<T>)
    decreases |b|
  {
    a == [] || (b != [] && ((a[0] == b[0] && IsSubsequence(a[1..], b[1..])) || IsSubsequence(a, b[1..])))
  }

  /** `xs.find(p)`: the first element satisfying `p`, or undefined. */
  function FindFirst<T>(xs: seq<T>, p: T -> bool): (r: Option<T>)
    ensures r.None? <==> forall i :: 0 <= i < |xs| ==> !p(xs[i])
    ensures r.Some? ==> exists i :: 0 <= i < |xs| && xs[i] == r.value && p(xs[i]) &&
                                    forall j :: 0 <= j < i ==> !p(xs[j])
  {
    if xs == [] then None
    else if p(xs[0]) then Some(xs[0])
    else
      var r := FindFirst(xs[1..], p);
      assert r.Some? ==> exists i :: 0 <= i < |xs[1..]| && xs[1..][i] == r.value && p(xs[1..][i]) &&
                                       forall j :: 0 <= j < i ==> !p(xs[1..][j]);
      assert r.Some? ==> exists i :: 0 <= i < |xs| && xs[i] == r.value && p(xs[i]) &&
                                       forall j :: 0 <= j < i ==> !p(xs[j]) by {
        if r.Some? {
          var i :| 0 <= i < |xs[1..]| && xs[1..][i] == r.value && p(xs[1..][i]) &&
                   forall j :: 0 <= j < i ==> !p(xs[1..][j]);
          assert xs[i + 1] == r.value && forall j :: 0 <= j < i + 1 ==> !p(xs[j]) by {
            forall j | 0 <= j < i + 1 ensures !p(xs[j]) {
              if j > 0 { assert xs[j] == xs[1..][j - 1]; }
            }
          }
        }
      }
      r
  }

  /** `xs.filter(p)`: exactly the elements satisfying `p`, in their original order. */
  function Filter<T>(xs: seq<T>, p: T -> bool): (r: seq<T>)
    ensures IsSubsequence(r, xs)
    ensures forall i :: 0 <= i < |r| ==> p(r[i])
    ensures forall i :: 0 <= i < |xs| && p(xs[i]) ==> xs[i] in r
    ensures |r| <= |xs|
    ensures forall i :: 0 <= i < |r| ==> r[i] in xs
    ensures forall i {:trigger multiset(r)[xs[i]]} :: 0 <= i < |xs| ==>
              multiset(r)[xs[i]] == if p(xs[i]) then multiset(xs)[xs[i]] else 0
  {
    if xs == [] then []
    else
      var rest := Filter(xs[1..], p);
      assert forall i :: 1 <= i < |xs| ==> xs[i] == xs[1..][i - 1];
      FilterStep(xs, p, rest);
      if p(xs[0]) then
        assert ([xs[0]] + rest)[1..] == rest;
        [xs[0]] + rest
      else rest
  }

  /** One step of `Filter`: keeping or dropping the head preserves the multiplicity contract. */
  lemma FilterStep<T>(xs: seq<T>, p: T -> bool, rest: seq<T>)
    requires xs != []
    requires forall i :: 0 <= i < |rest| ==> rest[i] in xs[1..]
    requires forall i :: 0 <= i < |xs| - 1 ==>
               multiset(rest)[xs[1..][i]] == if p(xs[1..][i]) then multiset(xs[1..])[xs[1..][i]] else 0
    ensures var r := if p(xs[0]) then [xs[0]] + rest else rest;
            && (forall i :: 0 <= i < |r| ==> r[i] in xs)
            && (forall i :: 0 <= i < |xs| ==> multiset(r)[xs[i]] == if p(xs[i]) then multiset(xs)[xs[i]] else 0)
  {
    var tail := xs[1..];
    assert xs == [xs[0]] + tail;
    assert multiset(xs) == multiset{xs[0]} + multiset(tail);
    var r := if p(xs[0]) then [xs[0]] + rest else rest;
    assert multiset(r) == (if p(xs[0]) then multiset{xs[0]} else multiset{}) + multiset(rest);
    forall i | 0 <= i < |xs|
      ensures multiset(r)[xs[i]] == if p(xs[i]) then multiset(xs)[xs[i]] else 0
    {
      var y := xs[i];
      if y in tail {
        var k :| 0 <= k < |tail| && tail[k] == y;
        assert multiset(rest)[y] == if p(y) then multiset(tail)[y] else 0;
      } else {
        assert y !in rest;
        assert multiset(rest)[y] == 0;
        assert multiset(tail)[y] == 0;
      }
    }
  }

  /** Filtering a list extended by one element extends the result by that element exactly when it passes. */
  lemma {:induction false} FilterAppend<T>(xs: seq<T>, x: T, p: T -> bool)
    ensures Filter(xs + [x], p) == Filter(xs, p) + (if p(x) then [x] else [])
  {
    if xs == [] {
      assert [x][1..] == [];
    } else {
      assert (xs + [x])[1..] == xs[1..] + [x];
      FilterAppend(xs[1..], x, p);
    }
  }

  /** Three filters no element passes twice never keep more elements, together, than the list has. */
  lemma {:induction false} FilterDisjointLengths<T>(xs: seq<T>, p: T -> bool, q: T -> bool, r: T -> bool)
    requires forall i :: 0 <= i < |xs| ==> !(p(xs[i]) && q(xs[i])) && !(p(xs[i]) && r(xs[i])) && !(q(xs[i]) && r(xs[i]))
    ensures |Filter(xs, p)| + |Filter(xs, q)| + |Filter(xs, r)| <= |xs|
  {
    if xs != [] {
      FilterDisjointLengths(xs[1..], p, q, r);
    }
  }

  /** The number of elements of a three-element list that pass a filter. */
  lemma FilterCountThree<T>(x: T, y: T, z: T, p: T -> bool)
    ensures |Filter([x, y, z], p)| == (if p(x) then 1 else 0) + (if p(y) then 1 else 0) + (if p(z) then 1 else 0)
  {
    FilterAppend([], x, p);
    assert [] + [x] == [x];
    FilterAppend([x], y, p);
    assert [x] + [y] == [x, y];
    FilterAppend([x, y], z, p);
    assert [x, y] + [z] == [x, y, z];
  }

  /** A filter every element passes keeps the whole list. */
  lemma {:induction false} FilterAllPass<T>(xs: seq<T>, p: T -> bool)
    requires forall i :: 0 <= i < |xs| ==> p(xs[i])
    ensures Filter(xs, p) == xs
  {
    if xs != [] {
      FilterAllPass(xs[1..], p);
    }
  }
}
