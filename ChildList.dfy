/**
 * The ordered child list of a native view group, and the three list
 * operations the bridge relies on: `indexOfChild`, `addView` (last or at
 * index 0) and `removeView`.
 */
module ChildList {

  /** `indexOfChild`: the first position of `v` in `cs`, or -1 when it is not a child. */
  function IndexOfChild<T(==)>(cs: seq<T>, v: T): (r: int)
    ensures -1 <= r < |cs|
    ensures r == -1 <==> v !in cs
    ensures r >= 0 ==> cs[r] == v && forall j :: 0 <= j < r ==> cs[j] != v
  {
    if cs == [] then -1
    else if cs[0] == v then 0
    else
      var i := IndexOfChild(cs[1..], v);
      if i < 0 then -1 else i + 1
  }

  /** `addView(v)` puts `v` last; `addView(v, 0)` puts it first; the other children keep their order. */
  function AddView<T>(cs: seq<T>, v: T, atFront: bool): (r: seq<T>)
    ensures |r| == |cs| + 1
    ensures atFront ==> r[0] == v && r[1..] == cs
    ensures !atFront ==> r[|cs|] == v && r[..|cs|] == cs
  {
    if atFront then [v] + cs else cs + [v]
  }

  /** `removeView(v)`: drops the first occurrence of `v`; a view that is not a child leaves the list as it was. */
  function RemoveView<T(==)>(cs: seq<T>, v: T): (r: seq<T>)
    ensures v !in cs ==> r == cs
    ensures v in cs ==> |r| == |cs| - 1 && multiset(r) == multiset(cs) - multiset{v}
    ensures forall x :: x in r ==> x in cs
    ensures v in cs ==> exists i :: 0 <= i < |cs| && cs[i] == v && v !in cs[..i] && r == cs[..i] + cs[i + 1..]
  {
    var i := IndexOfChild(cs, v);
    if i < 0 then cs
    else
      assert cs == cs[..i] + [cs[i]] + cs[i + 1..];
      cs[..i] + cs[i + 1..]
  }

  /** No view occurs twice among a group's children. */
  ghost predicate Distinct<T>(cs: seq<T>)
  {
    forall i, j :: 0 <= i < j < |cs| ==> cs[i] != cs[j]
  }

  /** Removing a child from a list without repeats leaves it out altogether, and keeps the list without repeats. */
  lemma {:induction false} RemovedNotListed<T>(cs: seq<T>, v: T)
    requires Distinct(cs)
    ensures v !in RemoveView(cs, v)
    ensures Distinct(RemoveView(cs, v))
  {
  }

  /** Adding a view that is not yet a child keeps the list without repeats. */
  lemma {:induction false} AddKeepsDistinct<T>(cs: seq<T>, v: T, atFront: bool)
    requires Distinct(cs) && v !in cs
    ensures Distinct(AddView(cs, v, atFront))
  {
  }

  /** Removing a freshly added view, at either end, restores the child list. */
  lemma {:induction false} RemoveUndoesAdd<T>(cs: seq<T>, v: T, atFront: bool)
    requires v !in cs
    ensures RemoveView(AddView(cs, v, atFront), v) == cs
  {
  }
}
