/** Small generic helpers shared by the whole model: the .NET list operations the
    scripts use (List.Remove, List.IndexOf, List.Contains) and an Option type. */
module Common {

  datatype Option<T> = None | Some(value: T)

  /** No element occurs twice. */
  predicate NoDup<T(==)>(s: seq<T>) {
    forall i, j :: 0 <= i < j < |s| ==> s[i] != s[j]
  }

  /** List<T>.Remove(x): drops the first occurrence of x; a list without x is returned as is. */
  function RemoveFirst<T(==)>(s: seq<T>, x: T): (r: seq<T>)
    ensures x !in s ==> r == s
    ensures x in s ==> |r| == |s| - 1
  {
    if s == [] then []
    else
      assert s == [s[0]] + s[1..];
      if s[0] == x then s[1..]
      else [s[0]] + RemoveFirst(s[1..], x)
  }

  /** List.Remove takes exactly one x out of the list's contents, if there is one. */
  lemma {:induction false} RemoveFirstMultiset<T>(s: seq<T>, x: T)
    ensures multiset(RemoveFirst(s, x)) == multiset(s) - multiset{x}
  {
    if s != [] {
      assert s == [s[0]] + s[1..];
      RemoveFirstMultiset(s[1..], x);
    }
  }

  /** Removing the first occurrence of s[k], when no earlier element equals it, closes the gap at k. */
  lemma {:induction false} RemoveFirstAt<T>(s: seq<T>, k: nat)
    requires k < |s|
    requires forall j :: 0 <= j < k ==> s[j] != s[k]
    ensures RemoveFirst(s, s[k]) == s[..k] + s[k + 1..]
  {
    if k == 0 {
      assert s[..0] + s[1..] == s[1..];
    } else {
      var t := s[1..];
      assert t[k - 1] == s[k];
      assert forall j :: 0 <= j < k - 1 ==> t[j] != t[k - 1] by {
        forall j | 0 <= j < k - 1 ensures t[j] != t[k - 1] {
          assert t[j] == s[j + 1];
        }
      }
      RemoveFirstAt(t, k - 1);
      RemoveFirstSkips(s, s[k]);
      assert [s[0]] + t[..k - 1] == s[..k];
    }
  }

  /** List.Remove passes over a first element that differs. */
  lemma RemoveFirstSkips<T>(s: seq<T>, x: T)
    requires s != [] && s[0] != x
    ensures RemoveFirst(s, x) == [s[0]] + RemoveFirst(s[1..], x)
  {
  }

  /** Removing from a list without duplicates keeps it without duplicates. */
  lemma {:induction false} RemoveFirstNoDup<T>(s: seq<T>, x: T)
    requires NoDup(s)
    ensures NoDup(RemoveFirst(s, x)) && x !in RemoveFirst(s, x)
  {
    if x in s {
      var k :| 0 <= k < |s| && s[k] == x;
      RemoveFirstAt(s, k);
      var r := s[..k] + s[k + 1..];
      forall i, j | 0 <= i < j < |r| ensures r[i] != r[j] {
        ClosedGap(s, k, i);
        ClosedGap(s, k, j);
      }
      forall i | 0 <= i < |r| ensures r[i] != x {
        ClosedGap(s, k, i);
      }
    }
  }

  /** Where the element at position i of s with position k removed comes from. */
  lemma ClosedGap<T>(s: seq<T>, k: nat, i: nat)
    requires k < |s| && i < |s| - 1
    ensures (s[..k] + s[k + 1..])[i] == s[if i < k then i else i + 1]
  {
  }

  /** List.Remove only ever drops an element: whatever is left was in the list. */
  lemma RemoveFirstKeeps<T>(s: seq<T>, x: T, y: T)
    requires y in RemoveFirst(s, x)
    ensures y in s
  {
    RemoveFirstMultiset(s, x);
    assert y in multiset(RemoveFirst(s, x));
  }

  /** List<T>.IndexOf(x): the index of the first occurrence of x, or -1. */
  function IndexOf<T(==)>(s: seq<T>, x: T): (r: int)
    ensures -1 <= r < |s|
    ensures r == -1 <==> x !in s
    ensures 0 <= r ==> s[r] == x && forall j :: 0 <= j < r ==> s[j] != x
  {
    if s == [] then -1
    else if s[0] == x then 0
    else
      var k := IndexOf(s[1..], x);
      if k == -1 then -1 else k + 1
  }

  /** In a list without duplicates, the first index of s[i] is i. */
  lemma IndexOfNoDup<T>(s: seq<T>, i: nat)
    requires NoDup(s) && i < |s|
    ensures IndexOf(s, s[i]) == i
  {
  }

  /** The elements of s in the opposite order. */
  function Reverse<T>(s: seq<T>): (r: seq<T>)
    ensures |r| == |s|
    ensures forall k :: 0 <= k < |s| ==> r[k] == s[|s| - 1 - k]
  {
    if s == [] then [] else Reverse(s[1..]) + [s[0]]
  }
}
