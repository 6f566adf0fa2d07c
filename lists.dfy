/**
 * The part of `Array.prototype.filter` that the tracker relies on: keep, in
 * their original order, exactly the elements a predicate accepts.
 */
module Lists {

  function Filter<T(!new)>(s: seq<T>, keep: T -> bool): (r: seq<T>)
    ensures |r| <= |s|
    ensures forall x :: x in r <==> x in s && keep(x)
  {
    if s == [] then []
    else if keep(s[0]) then [s[0]] + Filter(s[1..], keep)
    else Filter(s[1..], keep)
  }

  /** Filtering a concatenation filters each part and keeps the parts in order. */
  lemma {:induction false} FilterConcat<T(!new)>(a: seq<T>, b: seq<T>, keep: T -> bool)
    ensures Filter(a + b, keep) == Filter(a, keep) + Filter(b, keep)
  {
    if a != [] {
      assert (a + b)[1..] == a[1..] + b;
      FilterConcat(a[1..], b, keep);
    } else {
      assert a + b == b;
    }
  }

  /** A sequence whose every element is accepted comes back unchanged. */
  lemma {:induction false} FilterKeepsAll<T(!new)>(s: seq<T>, keep: T -> bool)
    requires forall i :: 0 <= i < |s| ==> keep(s[i])
    ensures Filter(s, keep) == s
  {
    if s != [] {
      FilterKeepsAll(s[1..], keep);
    }
  }

  /**
   * Removing the single element at position i that the predicate rejects,
   * when every other element is accepted, leaves the rest in order.
   */
  lemma {:induction false} FilterDropsOne<T(!new)>(s: seq<T>, i: nat, keep: T -> bool)
    requires i < |s|
    requires !keep(s[i])
    requires forall j :: 0 <= j < |s| && j != i ==> keep(s[j])
    ensures Filter(s, keep) == s[..i] + s[i + 1..]
  {
    var tail := s[1..];
    if i == 0 {
      assert forall j :: 0 <= j < |tail| ==> keep(tail[j]) by {
        forall j | 0 <= j < |tail| ensures keep(tail[j]) { assert tail[j] == s[j + 1]; }
      }
      FilterKeepsAll(tail, keep);
    } else {
      assert forall j :: 0 <= j < |tail| && j != i - 1 ==> keep(tail[j]) by {
        forall j | 0 <= j < |tail| && j != i - 1 ensures keep(tail[j]) { assert tail[j] == s[j + 1]; }
      }
      FilterDropsOne(tail, i - 1, keep);
      assert s[..i] + s[i + 1..] == [s[0]] + (tail[..i - 1] + tail[i..]);
    }
  }
}
