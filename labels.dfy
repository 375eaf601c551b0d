/**
 * The label list of the labeler as values: an ordered list of class names in
 * which a name's position is its class id.
 */
module Labels {
  import opened Wrappers

  predicate NoDuplicates<T(==)>(s: seq<T>) {
    forall i, j :: 0 <= i < j < |s| ==> s[i] != s[j]
  }

  /** Python's `s.index(x)`, with `None` where Python raises: the first position holding `x`. */
  function IndexOf<T(==)>(s: seq<T>, x: T): (r: Option<nat>)
    ensures r.None? <==> x !in s
    ensures r.Some? ==> r.value < |s| && s[r.value] == x && x !in s[..r.value]
  {
    if s == [] then None
    else if s[0] == x then Some(0)
    else
      match IndexOf(s[1..], x)
      case None => None
      case Some(k) =>
        assert s[..k + 1] == [s[0]] + s[1..][..k];
        Some(k + 1)
  }

  /**
   * The YOLO class id of a label: its index in the label list, or 0 when the
   * label is no longer in the list (for instance after it was removed).
   */
  function ClassId(labels: seq<string>, name: string): (id: nat)
    ensures name in labels ==> id < |labels| && labels[id] == name && name !in labels[..id]
    ensures name !in labels ==> id == 0
  {
    match IndexOf(labels, name)
    case Some(i) => i
    case None => 0
  }

  /** In a duplicate-free list, the element at position k is found at k. */
  lemma IndexOfPosition<T>(s: seq<T>, k: nat)
    requires NoDuplicates(s) && k < |s|
    ensures IndexOf(s, s[k]) == Some(k)
  {
  }

  /** In a duplicate-free list, the class id of the label at position k is k. */
  lemma ClassIdOfPosition(labels: seq<string>, k: nat)
    requires NoDuplicates(labels) && k < |labels|
    ensures ClassId(labels, labels[k]) == k
  {
  }

  /** Appending an element the list does not hold keeps it duplicate-free. */
  lemma AppendNoDuplicates<T>(s: seq<T>, x: T)
    ensures NoDuplicates(s) && x !in s ==> NoDuplicates(s + [x])
  {
    var r := s + [x];
    if NoDuplicates(s) && x !in s {
      forall i, j | 0 <= i < j < |r| ensures r[i] != r[j] {
        if j == |s| { assert r[i] == s[i]; }
      }
    }
  }

  /** The list after Python's `del labels[k]`. */
  function RemoveAt<T>(s: seq<T>, k: nat): (r: seq<T>)
    requires k < |s|
    ensures |r| == |s| - 1
    ensures forall j :: 0 <= j < k ==> r[j] == s[j]
    ensures forall j :: k <= j < |r| ==> r[j] == s[j + 1]
  {
    s[..k] + s[k + 1..]
  }

  /** Removing an element keeps a list duplicate-free. */
  lemma RemoveAtNoDuplicates<T>(s: seq<T>, k: nat)
    requires NoDuplicates(s) && k < |s|
    ensures NoDuplicates(RemoveAt(s, k))
  {
    var r := RemoveAt(s, k);
    forall i, j | 0 <= i < j < |r| ensures r[i] != r[j] {
      var i' := if i < k then i else i + 1;
      var j' := if j < k then j else j + 1;
      assert r[i] == s[i'] && r[j] == s[j'];
    }
  }

  /**
   * Class ids after `remove_label` deletes position k: the removed label falls
   * back to class 0, labels before k keep their id, and every label after k
   * moves down by one.
   */
  lemma ClassIdAfterRemove(labels: seq<string>, k: nat)
    requires NoDuplicates(labels) && k < |labels|
    ensures ClassId(RemoveAt(labels, k), labels[k]) == 0
    ensures forall j :: 0 <= j < k ==> ClassId(RemoveAt(labels, k), labels[j]) == j
    ensures forall j :: k < j < |labels| ==> ClassId(RemoveAt(labels, k), labels[j]) == j - 1
  {
    var r := RemoveAt(labels, k);
    RemoveAtNoDuplicates(labels, k);
    assert labels[k] !in r;
    forall j | 0 <= j < k ensures ClassId(r, labels[j]) == j {
      assert r[j] == labels[j];
      ClassIdOfPosition(r, j);
    }
    forall j | k < j < |labels| ensures ClassId(r, labels[j]) == j - 1 {
      assert r[j - 1] == labels[j];
      ClassIdOfPosition(r, j - 1);
    }
  }

  /**
   * The label merge of `load_existing_annotations`: each saved label, in file
   * order, is appended unless the list already holds it.
   */
  function MergeLabels(current: seq<string>, saved: seq<string>): (r: seq<string>)
    ensures |current| <= |r| && r[..|current|] == current
    ensures forall x :: x in r <==> x in current || x in saved
    ensures NoDuplicates(current) ==> NoDuplicates(r)
    decreases |saved|
  {
    if saved == [] then current
    else
      var next := if saved[0] in current then current else current + [saved[0]];
      AppendNoDuplicates(current, saved[0]);
      var r := MergeLabels(next, saved[1..]);
      assert r[..|current|] == next[..|current|];
      assert forall x :: x in saved <==> x == saved[0] || x in saved[1..];
      r
  }

  /**
   * The labels a load adds, defined independently of the merge loop: each saved
   * label that is neither in `current` nor earlier in `saved`, in file order.
   */
  function Unseen(current: seq<string>, saved: seq<string>): (u: seq<string>)
    ensures forall x :: x in u <==> x in saved && x !in current
  {
    if saved == [] then []
    else
      var n := |saved| - 1;
      assert saved == saved[..n] + [saved[n]];
      Unseen(current, saved[..n])
        + (if saved[n] in current || saved[n] in saved[..n] then [] else [saved[n]])
  }

  /** Merging one more saved label appends it exactly when the merged list lacks it. */
  lemma {:induction false} MergeSnoc(current: seq<string>, s: seq<string>, x: string)
    ensures MergeLabels(current, s + [x])
      == (var r := MergeLabels(current, s); if x in r then r else r + [x])
    decreases |s|
  {
    if s == [] {
      assert s + [x] == [x];
      assert [x][1..] == [];
    } else {
      assert (s + [x])[0] == s[0];
      assert (s + [x])[1..] == s[1..] + [x];
      var next := if s[0] in current then current else current + [s[0]];
      MergeSnoc(next, s[1..], x);
    }
  }

  /**
   * The merge of a load keeps the current list as it is and appends the unseen
   * saved labels in file order, each once; this order fixes their class ids.
   */
  lemma {:induction false} MergeAppendsUnseen(current: seq<string>, saved: seq<string>)
    ensures MergeLabels(current, saved) == current + Unseen(current, saved)
    decreases |saved|
  {
    if saved != [] {
      var n := |saved| - 1;
      assert saved == saved[..n] + [saved[n]];
      MergeSnoc(current, saved[..n], saved[n]);
      MergeAppendsUnseen(current, saved[..n]);
    }
  }

  /** A merge that appends: current `["cat"]` and saved `["dog", "bird"]` give `["cat", "dog", "bird"]`. */
  lemma MergeExample()
    ensures MergeLabels(["cat"], ["dog", "bird"]) == ["cat", "dog", "bird"]
  {
    MergeAppendsUnseen(["cat"], ["dog", "bird"]);
    assert ["dog", "bird"][..1] == ["dog"];
    assert ["dog"][..0] == [];
  }

  /** Merging only labels the list already holds leaves the list as it was. */
  lemma {:induction false} MergeKnown(current: seq<string>, saved: seq<string>)
    requires forall x :: x in saved ==> x in current
    ensures MergeLabels(current, saved) == current
    decreases |saved|
  {
    if saved != [] {
      assert saved[0] in saved;
      assert forall x :: x in saved[1..] ==> x in saved;
      MergeKnown(current, saved[1..]);
    }
  }

  /** Merging into an empty list a duplicate-free list gives that list back. */
  lemma {:induction false} MergeIntoEmpty(saved: seq<string>)
    requires NoDuplicates(saved)
    ensures MergeLabels([], saved) == saved
  {
    MergeSuffix([], saved, 0);
  }

  /** Invariant behind MergeIntoEmpty: merging the rest of a duplicate-free list onto its prefix. */
  lemma {:induction false} MergeSuffix(current: seq<string>, saved: seq<string>, k: nat)
    requires NoDuplicates(saved) && k <= |saved| && current == saved[..k]
    ensures MergeLabels(current, saved[k..]) == saved
    decreases |saved| - k
  {
    if k == |saved| {
      assert saved[k..] == [];
      assert current == saved;
    } else {
      var rest := saved[k..];
      assert rest[0] == saved[k] && saved[k] !in current;
      assert rest[1..] == saved[k + 1..];
      assert current + [saved[k]] == saved[..k + 1];
      MergeSuffix(saved[..k + 1], saved, k + 1);
    }
  }
}
