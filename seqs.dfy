/** Iterator chains of the form `iter().filter(keep).map(f).collect()`, as a
    function over sequences, with the laws every such chain obeys. */
module Seqs {

  /** The elements of `s` that satisfy `keep`, each transformed by `f`, in order. */
  function FilterMap<A, B>(keep: A -> bool, f: A -> B, s: seq<A>): (r: seq<B>)
    ensures |r| <= |s|
  {
    if s == [] then []
    else (if keep(s[0]) then [f(s[0])] else []) + FilterMap(keep, f, s[1..])
  }

  /** How many elements of `s` satisfy `keep`. */
  function Count<A>(keep: A -> bool, s: seq<A>): (n: nat)
    ensures n <= |s|
  {
    if s == [] then 0 else (if keep(s[0]) then 1 else 0) + Count(keep, s[1..])
  }

  /** The chain distributes over concatenation. */
  lemma {:induction false} FilterMapAppend<A, B>(keep: A -> bool, f: A -> B, a: seq<A>, b: seq<A>)
    ensures FilterMap(keep, f, a + b) == FilterMap(keep, f, a) + FilterMap(keep, f, b)
  {
    if a == [] {
      assert a + b == b;
    } else {
      var head := if keep(a[0]) then [f(a[0])] else [];
      assert (a + b)[0] == a[0];
      assert (a + b)[1..] == a[1..] + b;
      FilterMapAppend(keep, f, a[1..], b);
      calc {
        FilterMap(keep, f, a + b);
        head + FilterMap(keep, f, a[1..] + b);
        head + (FilterMap(keep, f, a[1..]) + FilterMap(keep, f, b));
        (head + FilterMap(keep, f, a[1..])) + FilterMap(keep, f, b);
        FilterMap(keep, f, a) + FilterMap(keep, f, b);
      }
    }
  }

  /** Each element contributes its own image, or nothing, at its own place:
      this fixes both the content and the order of the output. */
  lemma {:induction false} FilterMapSplice<A, B>(keep: A -> bool, f: A -> B, a: seq<A>, x: A, b: seq<A>)
    ensures FilterMap(keep, f, a + [x] + b)
         == FilterMap(keep, f, a) + (if keep(x) then [f(x)] else []) + FilterMap(keep, f, b)
  {
    FilterMapAppend(keep, f, a + [x], b);
    FilterMapAppend(keep, f, a, [x]);
    assert [x][1..] == [];
  }

  /** Every output is the image of a kept input. */
  lemma {:induction false} FilterMapSound<A, B>(keep: A -> bool, f: A -> B, s: seq<A>)
    ensures forall y :: y in FilterMap(keep, f, s) ==> exists i :: 0 <= i < |s| && keep(s[i]) && y == f(s[i])
  {
    if s != [] {
      FilterMapSound(keep, f, s[1..]);
      var head := if keep(s[0]) then [f(s[0])] else [];
      assert FilterMap(keep, f, s) == head + FilterMap(keep, f, s[1..]);
      forall y | y in FilterMap(keep, f, s)
        ensures exists i :: 0 <= i < |s| && keep(s[i]) && y == f(s[i])
      {
        if y in head {
          assert keep(s[0]) && y == f(s[0]);
        } else {
          assert y in FilterMap(keep, f, s[1..]);
          var i :| 0 <= i < |s[1..]| && keep(s[1..][i]) && y == f(s[1..][i]);
          assert keep(s[i + 1]) && y == f(s[i + 1]);
        }
      }
    }
  }

  /** Every kept input has its image in the output. */
  lemma {:induction false} FilterMapComplete<A, B>(keep: A -> bool, f: A -> B, s: seq<A>)
    ensures forall i :: 0 <= i < |s| && keep(s[i]) ==> f(s[i]) in FilterMap(keep, f, s)
  {
    if s != [] {
      FilterMapComplete(keep, f, s[1..]);
      var head := if keep(s[0]) then [f(s[0])] else [];
      assert FilterMap(keep, f, s) == head + FilterMap(keep, f, s[1..]);
      forall i | 0 <= i < |s| && keep(s[i])
        ensures f(s[i]) in FilterMap(keep, f, s)
      {
        if i > 0 {
          assert s[1..][i - 1] == s[i];
        }
      }
    }
  }

  /** The output has exactly one entry per kept input. */
  lemma {:induction false} FilterMapCount<A, B>(keep: A -> bool, f: A -> B, s: seq<A>)
    ensures |FilterMap(keep, f, s)| == Count(keep, s)
  {
    if s != [] {
      FilterMapCount(keep, f, s[1..]);
    }
  }

  /** When every element is kept, the chain is a plain map. */
  lemma {:induction false} FilterMapAllKept<A, B>(keep: A -> bool, f: A -> B, s: seq<A>)
    requires forall k :: 0 <= k < |s| ==> keep(s[k])
    ensures |FilterMap(keep, f, s)| == |s|
    ensures forall k :: 0 <= k < |s| ==> FilterMap(keep, f, s)[k] == f(s[k])
  {
    if s != [] {
      FilterMapAllKept(keep, f, s[1..]);
      assert keep(s[0]);
    }
  }
}
