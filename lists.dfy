/** `Array.prototype.filter` and `join`, with the facts the core's list operations rely on. */
module Lists {

  /** `s.filter(keep)`: the elements satisfying `keep`, in their original order. */
  function Filter<T>(s: seq<T>, keep: T -> bool): seq<T> {
    if s == [] then [] else (if keep(s[0]) then [s[0]] else []) + Filter(s[1..], keep)
  }

  /** `parts.join(sep)`. */
  function Join(parts: seq<string>, sep: string): string {
    if |parts| == 0 then ""
    else if |parts| == 1 then parts[0]
    else parts[0] + sep + Join(parts[1..], sep)
  }

  /** Joining a non-empty tail after a first part puts one separator between them. */
  lemma JoinCons(first: string, rest: seq<string>, sep: string)
    requires rest != []
    ensures Join([first] + rest, sep) == first + sep + Join(rest, sep)
  {
    assert ([first] + rest)[1..] == rest;
  }

  /** `r` is the order-preserving sub-list of `s` made of the elements that satisfy
      `keep`, and `idx` gives where each element of `r` sits in `s`. */
  ghost predicate SelectedBy<T>(r: seq<T>, s: seq<T>, keep: T -> bool, idx: seq<nat>) {
    && |idx| == |r|
    && (forall k :: 0 <= k < |idx| ==> idx[k] < |s| && r[k] == s[idx[k]])
    && (forall k, l :: 0 <= k < l < |idx| ==> idx[k] < idx[l])
    && (forall i :: 0 <= i < |s| ==> (keep(s[i]) <==> i in idx))
  }

  /** `Filter` keeps exactly the positions whose element satisfies `keep`, in order. */
  lemma {:induction false} FilterSelects<T>(s: seq<T>, keep: T -> bool) returns (idx: seq<nat>)
    ensures SelectedBy(Filter(s, keep), s, keep, idx)
  {
    if s == [] {
      idx := [];
    } else {
      var rest := FilterSelects(s[1..], keep);
      var shifted := Shift(rest);
      ShiftSelects(s, keep, Filter(s[1..], keep), rest);
      if keep(s[0]) {
        idx := [0] + shifted;
        assert Filter(s, keep) == [s[0]] + Filter(s[1..], keep);
        PrependSelected(s, keep, Filter(s[1..], keep), shifted);
      } else {
        idx := shifted;
        assert Filter(s, keep) == Filter(s[1..], keep);
      }
    }
  }

  /** Every position moved one place to the right. */
  function Shift(idx: seq<nat>): (r: seq<nat>)
    ensures |r| == |idx| && forall k :: 0 <= k < |idx| ==> r[k] == idx[k] + 1
  {
    seq(|idx|, k requires 0 <= k < |idx| => idx[k] + 1)
  }

  /** A selection from the tail of `s`, shifted, is a selection from `s` that skips position 0. */
  lemma ShiftSelects<T>(s: seq<T>, keep: T -> bool, r: seq<T>, idx: seq<nat>)
    requires s != [] && SelectedBy(r, s[1..], keep, idx)
    ensures |Shift(idx)| == |r|
    ensures forall k :: 0 <= k < |r| ==> Shift(idx)[k] < |s| && r[k] == s[Shift(idx)[k]]
    ensures forall k, l :: 0 <= k < l < |r| ==> Shift(idx)[k] < Shift(idx)[l]
    ensures forall i :: 1 <= i < |s| ==> (keep(s[i]) <==> i in Shift(idx))
    ensures 0 !in Shift(idx)
  {
    var sh := Shift(idx);
    forall i | 1 <= i < |s| ensures keep(s[i]) <==> i in sh {
      assert s[i] == s[1..][i - 1];
      ShiftMember(idx, i);
    }
  }

  /** Position `i` is among the shifted positions exactly when `i - 1` was among the originals. */
  lemma ShiftMember(idx: seq<nat>, i: nat)
    requires i >= 1
    ensures i in Shift(idx) <==> (i - 1) in idx
  {
    var sh := Shift(idx);
    if i in sh {
      var k :| 0 <= k < |sh| && sh[k] == i;
      assert idx[k] == i - 1;
    }
    if (i - 1) in idx {
      var k :| 0 <= k < |idx| && idx[k] == i - 1;
      assert sh[k] == i;
    }
  }

  /** Putting position 0 in front of a selection that skips it selects `s[0]` too. */
  lemma PrependSelected<T>(s: seq<T>, keep: T -> bool, r: seq<T>, sh: seq<nat>)
    requires s != [] && keep(s[0]) && |sh| == |r| && 0 !in sh
    requires forall k :: 0 <= k < |r| ==> sh[k] < |s| && r[k] == s[sh[k]]
    requires forall k, l :: 0 <= k < l < |r| ==> sh[k] < sh[l]
    requires forall i :: 1 <= i < |s| ==> (keep(s[i]) <==> i in sh)
    ensures SelectedBy([s[0]] + r, s, keep, [0] + sh)
  {
    var idx := [0] + sh;
    forall k, l | 0 <= k < l < |idx| ensures idx[k] < idx[l] {
      if k == 0 {
        assert idx[l] == sh[l - 1] && sh[l - 1] != 0;
      }
    }
  }

  /** An element survives `Filter` exactly when it is in the list and satisfies `keep`. */
  lemma {:induction false} FilterMembership<T>(s: seq<T>, keep: T -> bool, x: T)
    ensures x in Filter(s, keep) <==> x in s && keep(x)
  {
    if s != [] {
      FilterMembership(s[1..], keep, x);
      assert s == [s[0]] + s[1..];
    }
  }

  /** When every element satisfies `keep`, `Filter` returns the list unchanged. */
  lemma {:induction false} FilterKeepsAll<T>(s: seq<T>, keep: T -> bool)
    requires forall i :: 0 <= i < |s| ==> keep(s[i])
    ensures Filter(s, keep) == s
  {
    if s != [] {
      FilterKeepsAll(s[1..], keep);
    }
  }

  /** When no element satisfies `keep`, `Filter` returns the empty list. */
  lemma {:induction false} FilterDropsAll<T>(s: seq<T>, keep: T -> bool)
    requires forall i :: 0 <= i < |s| ==> !keep(s[i])
    ensures Filter(s, keep) == []
  {
    if s != [] {
      FilterDropsAll(s[1..], keep);
    }
  }

  /** Filtering two lists of equal length whose elements are related position by position,
      and kept or dropped alike, gives lists related position by position. */
  lemma {:induction false} FilterPointwise<T>(a: seq<T>, b: seq<T>, keep: T -> bool, related: (T, T) -> bool)
    requires |a| == |b|
    requires forall i :: 0 <= i < |a| ==> keep(a[i]) == keep(b[i]) && related(a[i], b[i])
    ensures |Filter(a, keep)| == |Filter(b, keep)|
    ensures forall i :: 0 <= i < |Filter(a, keep)| ==> related(Filter(a, keep)[i], Filter(b, keep)[i])
  {
    if a != [] {
      FilterPointwise(a[1..], b[1..], keep, related);
      var fa, fb := Filter(a, keep), Filter(b, keep);
      var ta, tb := Filter(a[1..], keep), Filter(b[1..], keep);
      if keep(a[0]) {
        assert fa == [a[0]] + ta && fb == [b[0]] + tb;
        forall i | 0 < i < |fa| ensures related(fa[i], fb[i]) {
          assert fa[i] == ta[i - 1] && fb[i] == tb[i - 1];
        }
      } else {
        assert fa == ta && fb == tb;
      }
    }
  }

  /** Two filters in a row are one filter by the conjunction of their conditions. */
  lemma {:induction false} FilterFilter<T>(s: seq<T>, first: T -> bool, second: T -> bool, both: T -> bool)
    requires forall x :: both(x) == (first(x) && second(x))
    ensures Filter(Filter(s, first), second) == Filter(s, both)
  {
    if s != [] {
      FilterFilter(s[1..], first, second, both);
      var head := if first(s[0]) then [s[0]] else [];
      assert Filter(s, first) == head + Filter(s[1..], first);
      FilterAppend(head, Filter(s[1..], first), second);
    }
  }

  /** Filtering distributes over concatenation. */
  lemma {:induction false} FilterAppend<T>(a: seq<T>, b: seq<T>, keep: T -> bool)
    ensures Filter(a + b, keep) == Filter(a, keep) + Filter(b, keep)
  {
    if a != [] {
      FilterAppend(a[1..], b, keep);
      assert (a + b)[1..] == a[1..] + b;
    } else {
      assert a + b == b;
    }
  }

  /** Filters whose conditions agree on every element of the list give the same result. */
  lemma {:induction false} FilterCongruent<T>(s: seq<T>, p: T -> bool, q: T -> bool)
    requires forall i :: 0 <= i < |s| ==> p(s[i]) == q(s[i])
    ensures Filter(s, p) == Filter(s, q)
  {
    if s != [] {
      FilterCongruent(s[1..], p, q);
    }
  }
}
