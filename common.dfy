/** Small generic building blocks shared by the page models: an optional value
    and the order-preserving `filter` of JavaScript arrays. */
module Common {

  datatype Option<+T> = None | Some(value: T)

  /** `xs.filter(p)`: the elements of `xs` satisfying `p`, in their original order. */
  function Filter<T>(xs: seq<T>, p: T -> bool): (r: seq<T>)
    ensures |r| <= |xs|
    ensures forall i :: 0 <= i < |r| ==> r[i] in xs && p(r[i])
    ensures forall i :: 0 <= i < |xs| && p(xs[i]) ==> xs[i] in r
  {
    if xs == [] then []
    else (if p(xs[0]) then [xs[0]] else []) + Filter(xs[1..], p)
  }

  /** `xs.filter(p).length`. */
  function Count<T>(xs: seq<T>, p: T -> bool): (n: nat)
    ensures n <= |xs|
  {
    |Filter(xs, p)|
  }

  /** `sub` is obtained from `xs` by deleting elements, keeping the order of the rest. */
  ghost predicate IsSublist<T>(sub: seq<T>, xs: seq<T>)
    decreases |xs|
  {
    if sub == [] then true
    else if xs == [] then false
    else if sub[0] == xs[0] then IsSublist(sub[1..], xs[1..])
    else IsSublist(sub, xs[1..])
  }

  lemma {:induction false} FilterIsSublist<T>(xs: seq<T>, p: T -> bool)
    ensures IsSublist(Filter(xs, p), xs)
  {
    if xs != [] {
      FilterIsSublist(xs[1..], p);
      var rest := Filter(xs[1..], p);
      if p(xs[0]) {
        assert Filter(xs, p) == [xs[0]] + rest;
        assert ([xs[0]] + rest)[1..] == rest;
      } else {
        assert Filter(xs, p) == rest;
        SublistSkip(rest, xs);
      }
    }
  }

  /** A sublist of `xs[1..]` is a sublist of `xs`. */
  lemma {:induction false} SublistSkip<T>(sub: seq<T>, xs: seq<T>)
    requires xs != [] && IsSublist(sub, xs[1..])
    ensures IsSublist(sub, xs)
    decreases |xs|, |sub|
  {
    if sub != [] && sub[0] == xs[0] {
      // IsSublist(sub, xs) needs IsSublist(sub[1..], xs[1..]); get it from IsSublist(sub, xs[1..]).
      SublistTail(sub, xs[1..]);
    }
  }

  /** Dropping the head of a non-empty sublist keeps it a sublist. */
  lemma {:induction false} SublistTail<T>(sub: seq<T>, xs: seq<T>)
    requires sub != [] && IsSublist(sub, xs)
    ensures IsSublist(sub[1..], xs)
    decreases |xs|, |sub|
  {
    if xs == [] {
    } else if sub[0] == xs[0] {
      SublistSkip(sub[1..], xs);
    } else {
      SublistTail(sub, xs[1..]);
      SublistSkip(sub[1..], xs);
    }
  }

  /** A filter whose predicate holds everywhere keeps the whole list. */
  lemma {:induction false} FilterAll<T>(xs: seq<T>, p: T -> bool)
    requires forall i :: 0 <= i < |xs| ==> p(xs[i])
    ensures Filter(xs, p) == xs
  {
    if xs != [] {
      FilterAll(xs[1..], p);
      assert [xs[0]] + xs[1..] == xs;
    }
  }

  /** Two complementary filters split the list: their lengths add up to its length. */
  lemma {:induction false} FilterSplit<T>(xs: seq<T>, p: T -> bool, q: T -> bool)
    requires forall i :: 0 <= i < |xs| ==> (p(xs[i]) <==> !q(xs[i]))
    ensures |Filter(xs, p)| + |Filter(xs, q)| == |xs|
  {
    if xs != [] {
      FilterSplit(xs[1..], p, q);
    }
  }

  /** `xs.find(p)`: the first element satisfying `p`, or nothing. */
  function Find<T>(xs: seq<T>, p: T -> bool): (r: Option<T>)
    ensures r.None? <==> forall i :: 0 <= i < |xs| ==> !p(xs[i])
    ensures r.Some? ==> r.value in xs && p(r.value)
  {
    if xs == [] then None
    else if p(xs[0]) then Some(xs[0])
    else Find(xs[1..], p)
  }

  /** No element before position `i` satisfies `p`. */
  ghost predicate FirstMatch<T>(xs: seq<T>, p: T -> bool, i: int)
  {
    0 <= i < |xs| && p(xs[i]) && forall j :: 0 <= j < i ==> !p(xs[j])
  }

  /** `find` returns the FIRST element satisfying `p`. */
  lemma {:induction false} FindIsFirst<T>(xs: seq<T>, p: T -> bool)
    requires Find(xs, p).Some?
    ensures exists i :: FirstMatch(xs, p, i) && xs[i] == Find(xs, p).value
  {
    if p(xs[0]) {
      assert FirstMatch(xs, p, 0);
    } else {
      FindIsFirst(xs[1..], p);
      var i :| FirstMatch(xs[1..], p, i) && xs[1..][i] == Find(xs, p).value;
      assert FirstMatch(xs, p, i + 1);
    }
  }
}
