/**
 * A JavaScript `Set` of tab ids. A `Set` iterates in insertion order, and the
 * extension depends on that order (`Array.from(set)[0]` is "the first tracked
 * tab"), so a set is modelled as a duplicate-free sequence in insertion order.
 */
module JsSet {
  import opened Wrappers

  predicate NoDup(s: seq<int>)
  {
    forall i, j :: 0 <= i < j < |s| ==> s[i] != s[j]
  }

  /** `set.add(x)`: a new element goes to the end; an existing one keeps its place. */
  function Add(s: seq<int>, x: int): (r: seq<int>)
    ensures forall y :: y in r <==> y in s || y == x
    ensures NoDup(s) ==> NoDup(r)
    ensures x in s ==> r == s
    ensures x !in s ==> r == s + [x]
  {
    if x in s then s else s + [x]
  }

  /** `set.delete(x)`: removes `x` and keeps the order of the others. */
  function Delete(s: seq<int>, x: int): (r: seq<int>)
    ensures forall y :: y in r <==> y in s && y != x
    ensures NoDup(s) ==> NoDup(r)
    ensures |r| <= |s|
    ensures x !in s ==> r == s
    ensures |s| > 0 && s[0] != x ==> |r| > 0 && r[0] == s[0]
  {
    if s == [] then []
    else if s[0] == x then Delete(s[1..], x)
    else
      var rest := Delete(s[1..], x);
      assert NoDup(s) ==> s[0] !in rest by {
        if NoDup(s) {
          assert forall j :: 1 <= j < |s| ==> s[0] != s[j];
        }
      }
      [s[0]] + rest
  }

  /**
   * Deleting a member of a duplicate-free set cuts it out at its place: the
   * elements before it and after it keep their order.
   */
  lemma DeleteAt(s: seq<int>, k: int)
    requires NoDup(s) && 0 <= k < |s|
    ensures Delete(s, s[k]) == s[..k] + s[k + 1..]
  {
    OnlyAt(s, k);
    DeleteSingle(s[..k], s[k], s[k + 1..]);
    SplitAt(s, k);
  }

  /** A sequence is what comes before position `k`, the element there, and what comes after. */
  lemma SplitAt(s: seq<int>, k: int)
    requires 0 <= k < |s|
    ensures s == s[..k] + ([s[k]] + s[k + 1..])
  {
    assert s[..k] + ([s[k]] + s[k + 1..]) == s[..k] + s[k..];
  }

  /** Deleting an element that occurs once, between `a` and `b`, leaves `a + b`. */
  lemma DeleteSingle(a: seq<int>, x: int, b: seq<int>)
    requires x !in a && x !in b
    ensures Delete(a + ([x] + b), x) == a + b
  {
    DeleteAppend(a, [x] + b, x);
    assert ([x] + b)[1..] == b;
  }

  /** Deleting from a concatenation deletes from each part. */
  lemma {:induction false} DeleteAppend(a: seq<int>, b: seq<int>, x: int)
    ensures Delete(a + b, x) == Delete(a, x) + Delete(b, x)
  {
    if a == [] {
      assert a + b == b;
    } else {
      assert (a + b)[1..] == a[1..] + b;
      DeleteAppend(a[1..], b, x);
    }
  }

  /** In a duplicate-free sequence, the element at `k` occurs nowhere else. */
  lemma OnlyAt(s: seq<int>, k: int)
    requires NoDup(s) && 0 <= k < |s|
    ensures s[k] !in s[..k] && s[k] !in s[k + 1..]
  {
  }

  /** `Array.from(set)[0]`: the element inserted first, `undefined` for an empty set. */
  function First(s: seq<int>): (r: Option<int>)
    ensures r.Some? <==> |s| > 0
    ensures r.Some? ==> r.value == s[0]
  {
    if |s| > 0 then Some(s[0]) else None
  }

  /** `new Set(array)`: the elements of `a`, each at its first occurrence. */
  function FromArray(a: seq<int>): (r: seq<int>)
    ensures NoDup(r)
    ensures forall y :: y in r <==> y in a
  {
    if a == [] then [] else Add(FromArray(a[..|a| - 1]), a[|a| - 1])
  }

  /** `new Set(Array.from(set))` gives back the same set, in the same order. */
  lemma {:induction false} FromArrayOfNoDup(a: seq<int>)
    requires NoDup(a)
    ensures FromArray(a) == a
  {
    if a != [] {
      var init := a[..|a| - 1];
      assert NoDup(init);
      FromArrayOfNoDup(init);
      assert a[|a| - 1] !in init;
      assert init + [a[|a| - 1]] == a;
    }
  }

  /** Adding an element never changes which element is first. */
  lemma AddKeepsFirst(s: seq<int>, x: int)
    requires |s| > 0
    ensures First(Add(s, x)) == First(s)
  {
  }
}
