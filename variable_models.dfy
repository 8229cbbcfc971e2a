/**
 * Workspace variable records and the name ordering the "Variables" flyout
 * sorts them by.
 *
 * `Blockly.VariableModel.compareByName` is foreign code; the model only
 * assumes that it induces a total preorder on names, passed as `le`
 * (`le(a, b)` stands for `compareByName(a, b) <= 0`).
 */
module VariableModels {

  /** One declared variable: its name, its type tag ("" for scalars,
      "list" for lists) and its workspace id. */
  datatype VariableModel = VariableModel(name: string, vtype: string, id: string)

  /** `le` is total (hence reflexive) and transitive: a total preorder.
      Distinct names may compare equal. */
  ghost predicate TotalPreorder(le: (string, string) -> bool) {
    && (forall x, y :: le(x, y) || le(y, x))
    && (forall x, y, z :: le(x, y) && le(y, z) ==> le(x, z))
  }

  /** Names are non-decreasing under `le`, pair by pair. */
  ghost predicate SortedByName(s: seq<VariableModel>, le: (string, string) -> bool) {
    forall i, j :: 0 <= i < j < |s| ==> le(s[i].name, s[j].name)
  }

  /** `sorted` is one of the possible results of sorting `original` by name:
      the same records, each as often, in non-decreasing name order.
      Nothing is said about the relative order of records whose names
      compare equal, since the sort is not assumed to be stable. */
  ghost predicate IsSortedPermutation(sorted: seq<VariableModel>, original: seq<VariableModel>,
                                      le: (string, string) -> bool)
  {
    multiset(sorted) == multiset(original) && SortedByName(sorted, le)
  }

  /** The first record of a sorted permutation has a least name among all
      the original records. */
  lemma FirstIsLeast(sorted: seq<VariableModel>, original: seq<VariableModel>,
                     le: (string, string) -> bool)
    requires TotalPreorder(le)
    requires IsSortedPermutation(sorted, original, le)
    requires |original| > 0
    ensures |sorted| == |original| && sorted[0] in original
    ensures forall v :: v in original ==> le(sorted[0].name, v.name)
  {
    assert |sorted| == |multiset(sorted)| == |multiset(original)| == |original|;
    assert sorted[0] in multiset(sorted);
    forall v | v in original
      ensures le(sorted[0].name, v.name)
    {
      assert v in multiset(original);
      var k :| 0 <= k < |sorted| && sorted[k] == v;
      if k == 0 {
        assert le(v.name, v.name);  // totality makes `le` reflexive
      }
    }
  }

  /** A fresh array holding the records of `s`. The flyout sorts what
      `getVariablesOfType` returns in place. That this is a fresh array,
      not shared with the workspace, is an assumption of the model. */
  method ToArray(s: seq<VariableModel>) returns (a: array<VariableModel>)
    ensures fresh(a) && a[..] == s
  {
    a := new VariableModel[|s|](k requires 0 <= k < |s| => s[k]);
  }

  /** `Array.prototype.sort` with the name comparator: sorts `a` in place.
      The postcondition is all that is assumed of the JavaScript sort. */
  method SortByName(a: array<VariableModel>, le: (string, string) -> bool)
    requires TotalPreorder(le)
    modifies a
    ensures SortedByName(a[..], le)
    ensures multiset(a[..]) == old(multiset(a[..]))
  {
    var i := 1;
    while i < a.Length
      invariant a.Length == 0 || 1 <= i <= a.Length
      invariant forall k, l :: 0 <= k < l < i && l < a.Length ==> le(a[k].name, a[l].name)
      invariant multiset(a[..]) == old(multiset(a[..]))
    {
      InsertInto(a, i, le);
      i := i + 1;
    }
  }

  /** One insertion step: with `a[..i]` sorted, moves `a[i]` down past the
      records whose names are greater, leaving `a[..i + 1]` sorted. */
  method InsertInto(a: array<VariableModel>, i: int, le: (string, string) -> bool)
    requires TotalPreorder(le)
    requires 0 < i < a.Length
    requires forall k, l :: 0 <= k < l < i ==> le(a[k].name, a[l].name)
    modifies a
    ensures forall k, l :: 0 <= k < l <= i ==> le(a[k].name, a[l].name)
    ensures multiset(a[..]) == old(multiset(a[..]))
  {
    var j := i;
    while j > 0 && !le(a[j - 1].name, a[j].name)
      invariant 0 <= j <= i
      invariant forall k, l :: 0 <= k < l <= i && k != j && l != j ==> le(a[k].name, a[l].name)
      invariant forall l :: j < l <= i ==> le(a[j].name, a[l].name)
      invariant multiset(a[..]) == old(multiset(a[..]))
    {
      Swap(a, j - 1, j);
      j := j - 1;
    }
  }

  /** Exchanges two elements of `a`, keeping its multiset of records. */
  method Swap(a: array<VariableModel>, i: int, j: int)
    requires 0 <= i < a.Length && 0 <= j < a.Length
    modifies a
    ensures a[..] == old(a[..])[i := old(a[j])][j := old(a[i])]
    ensures multiset(a[..]) == old(multiset(a[..]))
  {
    a[i], a[j] := a[j], a[i];
  }
}
