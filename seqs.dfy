/**
 * `Array.prototype.filter` and `Array.from(new Set(xs))`, the two list
 * operations the pages build their views from.
 */
module Seqs {

  /** `s.filter(p)`: the elements satisfying `p`, left to right. */
  function Filter<T>(s: seq<T>, p: T -> bool): seq<T>
  {
    if s == [] then [] else (if p(s[0]) then [s[0]] else []) + Filter(s[1..], p)
  }

  /** `idx` lists, in increasing order, positions of `s` whose elements make up `r`. */
  ghost predicate Embeds<T>(idx: seq<nat>, r: seq<T>, s: seq<T>)
  {
    |idx| == |r| &&
    (forall k :: 0 <= k < |idx| ==> idx[k] < |s| && s[idx[k]] == r[k]) &&
    (forall k, l :: 0 <= k < l < |idx| ==> idx[k] < idx[l])
  }

  /** Every position moved one to the right: indices into `s[1..]` as indices into `s`. */
  function Shift(idx: seq<nat>): (r: seq<nat>)
    ensures |r| == |idx| && forall k :: 0 <= k < |idx| ==> r[k] == idx[k] + 1
  {
    seq(|idx|, k requires 0 <= k < |idx| => idx[k] + 1)
  }

  lemma ShiftEmbeds<T>(idx: seq<nat>, r: seq<T>, s: seq<T>)
    requires s != [] && Embeds(idx, r, s[1..])
    ensures Embeds(Shift(idx), r, s)
    ensures forall i :: 1 <= i < |s| ==> (i in Shift(idx) <==> i - 1 in idx)
    ensures forall k :: 0 <= k < |idx| ==> Shift(idx)[k] >= 1
  {
    var sh := Shift(idx);
    forall i | 1 <= i < |s|
      ensures i in sh <==> i - 1 in idx
    {
      if i in sh {
        var k :| 0 <= k < |sh| && sh[k] == i;
        assert idx[k] == i - 1;
      }
      if i - 1 in idx {
        var k :| 0 <= k < |idx| && idx[k] == i - 1;
        assert sh[k] == i;
      }
    }
  }

  lemma ConsEmbeds<T>(idx: seq<nat>, r: seq<T>, s: seq<T>)
    requires s != [] && Embeds(idx, r, s)
    requires forall k :: 0 <= k < |idx| ==> idx[k] >= 1
    ensures Embeds([0] + idx, [s[0]] + r, s)
  {
  }

  /**
   * The filter keeps exactly the positions where `p` holds, in their original
   * order: the result is an order-preserving subsequence of the input.
   */
  lemma {:induction false} FilterSelects<T>(s: seq<T>, p: T -> bool) returns (idx: seq<nat>)
    ensures Embeds(idx, Filter(s, p), s)
    ensures forall i :: 0 <= i < |s| ==> (p(s[i]) <==> i in idx)
  {
    if s == [] {
      idx := [];
    } else {
      var rest := FilterSelects(s[1..], p);
      var fr := Filter(s[1..], p);
      ShiftEmbeds(rest, fr, s);
      var shifted := Shift(rest);
      assert 0 !in shifted;
      if p(s[0]) {
        ConsEmbeds(shifted, fr, s);
        idx := [0] + shifted;
        assert Filter(s, p) == [s[0]] + fr;
      } else {
        idx := shifted;
        assert Filter(s, p) == fr;
      }
    }
  }

  /** An element is in the filtered list iff it is in the list and passes. */
  lemma {:induction false} FilterMembership<T>(s: seq<T>, p: T -> bool, x: T)
    ensures x in Filter(s, p) <==> x in s && p(x)
  {
    if s != [] {
      FilterMembership(s[1..], p, x);
      assert s == [s[0]] + s[1..];
    }
  }

  /** A filter that passes every element returns the list unchanged. */
  lemma {:induction false} FilterKeepsAll<T>(s: seq<T>, p: T -> bool)
    requires forall x :: x in s ==> p(x)
    ensures Filter(s, p) == s
  {
    if s != [] {
      FilterKeepsAll(s[1..], p);
    }
  }

  /** The filtered list is empty iff no element passes. */
  lemma {:induction false} FilterEmptyIff<T>(s: seq<T>, p: T -> bool)
    ensures Filter(s, p) == [] <==> forall x :: x in s ==> !p(x)
  {
    if s != [] {
      FilterEmptyIff(s[1..], p);
      assert s == [s[0]] + s[1..];
    }
  }

  /** Predicates that agree on the elements of `s` filter it identically. */
  lemma {:induction false} FilterCongruent<T>(s: seq<T>, p: T -> bool, q: T -> bool)
    requires forall x :: x in s ==> p(x) == q(x)
    ensures Filter(s, p) == Filter(s, q)
  {
    if s != [] {
      FilterCongruent(s[1..], p, q);
    }
  }

  predicate NoDuplicates<T(==)>(s: seq<T>)
  {
    forall i, j :: 0 <= i < j < |s| ==> s[i] != s[j]
  }

  /** The position of the first occurrence of `x` in `xs`. */
  function FirstIndex<T(==)>(xs: seq<T>, x: T): (k: nat)
    requires x in xs
    ensures k < |xs| && xs[k] == x && x !in xs[..k]
  {
    if xs[0] == x then 0 else 1 + FirstIndex(xs[1..], x)
  }

  /** The elements of `xs` not in `seen`, each once, as a `Set` would insert them. */
  function DedupFrom<T(==)>(xs: seq<T>, seen: set<T>): seq<T>
  {
    if xs == [] then []
    else if xs[0] in seen then DedupFrom(xs[1..], seen)
    else [xs[0]] + DedupFrom(xs[1..], seen + {xs[0]})
  }

  /** `Array.from(new Set(xs))` */
  function Dedup<T(==)>(xs: seq<T>): seq<T>
  {
    DedupFrom(xs, {})
  }

  /** `DedupFrom` keeps exactly the elements of `xs` that are not yet seen. */
  lemma {:induction false} DedupFromMembers<T>(xs: seq<T>, seen: set<T>)
    ensures forall x :: x in DedupFrom(xs, seen) <==> x in xs && x !in seen
  {
    if xs != [] {
      assert xs == [xs[0]] + xs[1..];
      if xs[0] in seen {
        DedupFromMembers(xs[1..], seen);
      } else {
        DedupFromMembers(xs[1..], seen + {xs[0]});
      }
    }
  }

  /** `DedupFrom` never lists an element twice. */
  lemma {:induction false} DedupFromDistinct<T>(xs: seq<T>, seen: set<T>)
    ensures NoDuplicates(DedupFrom(xs, seen))
  {
    if xs != [] {
      var h, t := xs[0], xs[1..];
      if h in seen {
        DedupFromDistinct(t, seen);
      } else {
        DedupFromDistinct(t, seen + {h});
        DedupFromMembers(t, seen + {h});
        var r' := DedupFrom(t, seen + {h});
        var r := DedupFrom(xs, seen);
        assert r == [h] + r';
        forall i, j | 0 <= i < j < |r|
          ensures r[i] != r[j]
        {
          if i == 0 {
            assert r[j] in r';
          } else {
            assert r[i] == r'[i - 1] && r[j] == r'[j - 1];
          }
        }
      }
    }
  }

  /** `r` lists elements of `xs` in the order of their first occurrence there. */
  ghost predicate InFirstOrder<T>(xs: seq<T>, r: seq<T>)
  {
    (forall x :: x in r ==> x in xs) &&
    forall i, j :: 0 <= i < j < |r| ==> FirstIndex(xs, r[i]) < FirstIndex(xs, r[j])
  }

  /**
   * A list in first-occurrence order over the tail of `xs`, none of whose
   * elements is the head, stays in that order over `xs`, also with the head
   * put in front.
   */
  lemma ConsInFirstOrder<T>(xs: seq<T>, r: seq<T>)
    requires xs != [] && InFirstOrder(xs[1..], r)
    requires forall x :: x in r ==> x != xs[0]
    ensures InFirstOrder(xs, r)
    ensures InFirstOrder(xs, [xs[0]] + r)
  {
    assert xs == [xs[0]] + xs[1..];
    forall k | 0 <= k < |r|
      ensures r[k] in xs && FirstIndex(xs, r[k]) == 1 + FirstIndex(xs[1..], r[k])
    {
      assert r[k] in r;
    }
    var r1 := [xs[0]] + r;
    forall i, j | 0 <= i < j < |r1|
      ensures FirstIndex(xs, r1[i]) < FirstIndex(xs, r1[j])
    {
      assert r1[j] == r[j - 1];
      if i > 0 {
        assert r1[i] == r[i - 1];
      }
    }
  }

  /** `DedupFrom` lists elements in the order of their first occurrence in `xs`. */
  lemma {:induction false} DedupFromOrdered<T>(xs: seq<T>, seen: set<T>)
    ensures InFirstOrder(xs, DedupFrom(xs, seen))
  {
    if xs != [] {
      var h, t := xs[0], xs[1..];
      var seen' := if h in seen then seen else seen + {h};
      DedupFromOrdered(t, seen');
      DedupFromMembers(t, seen');
      ConsInFirstOrder(xs, DedupFrom(t, seen'));
    }
  }

  /**
   * `Array.from(new Set(xs))` holds each element of `xs` exactly once, and
   * in the order of first occurrence.
   */
  lemma DedupSpec<T>(xs: seq<T>)
    ensures forall x :: x in Dedup(xs) <==> x in xs
    ensures NoDuplicates(Dedup(xs))
    ensures forall i, j :: 0 <= i < j < |Dedup(xs)| ==>
              FirstIndex(xs, Dedup(xs)[i]) < FirstIndex(xs, Dedup(xs)[j])
  {
    DedupFromMembers(xs, {});
    DedupFromDistinct(xs, {});
    DedupFromOrdered(xs, {});
  }
}
