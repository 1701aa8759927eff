/** Sequences as lists of distinct things. */
module Sequences {

  predicate Distinct<T(==)>(s: seq<T>) {
    forall i, j :: 0 <= i < j < |s| ==> s[i] != s[j]
  }

  /** The list with `x` put in front of element number `k`. */
  function InsertedAt<T>(s: seq<T>, k: nat, x: T): seq<T>
    requires k <= |s|
  {
    s[..k] + [x] + s[k..]
  }

  /** The list without element number `j`. */
  function Dropped<T>(s: seq<T>, j: nat): seq<T>
    requires j < |s|
  {
    s[..j] + s[j + 1..]
  }

  /** Where element number `i` of the shorter list stands in the longer one. */
  function Shifted(k: nat, i: nat): nat {
    if i < k then i else i + 1
  }

  /** Where an element of the longer list other than number `k` stands in the shorter one. */
  function Unshifted(k: nat, i: nat): (r: nat)
    requires i != k
    ensures Shifted(k, r) == i
  {
    if i < k then i else i - 1
  }

  lemma DroppedInserted<T>(s: seq<T>, k: nat, x: T)
    requires k <= |s|
    ensures Dropped(InsertedAt(s, k, x), k) == s
  {
  }

  /** Takes an element out of a list. */
  function Unlinked<T(==)>(s: seq<T>, x: T): seq<T> {
    if s == [] then [] else if s[0] == x then s[1..] else [s[0]] + Unlinked(s[1..], x)
  }

  lemma {:induction false} UnlinkedIsDropped<T>(s: seq<T>, j: nat)
    requires Distinct(s) && j < |s|
    ensures Unlinked(s, s[j]) == Dropped(s, j)
  {
    if j > 0 {
      UnlinkedIsDropped(s[1..], j - 1);
      assert s[1..][..j - 1] == s[1..j];
    }
  }

  lemma {:induction false} UnlinkedMembers<T>(s: seq<T>, x: T)
    requires Distinct(s)
    ensures Distinct(Unlinked(s, x))
    ensures forall y :: y in Unlinked(s, x) <==> y in s && y != x
  {
    if s != [] {
      UnlinkedMembers(s[1..], x);
      assert forall y :: y in s <==> y == s[0] || y in s[1..];
      var t := Unlinked(s, x);
      assert s[0] != x ==> forall j :: 0 < j < |t| ==> t[j] in Unlinked(s[1..], x);
    }
  }
}
