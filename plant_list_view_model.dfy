/**
 * The in-memory plant list (Planto/ViewModel/PlantListViewModel.swift).
 *
 * The class keeps the ordered `plants` array as a `seq<Plant>` field that its
 * four mutating methods reassign. What each method does to the sequence is
 * given by a function over sequences (`Updated`, `WithoutId`,
 * `ToggledAtFirst`); the lemmas below state what those functions promise.
 */
module PlantStore {
  import opened Wrappers
  import opened PlantModel

  /** Some record in `s` has identifier `id`. */
  predicate HasId(s: seq<Plant>, id: Uuid) {
    exists j :: 0 <= j < |s| && s[j].id == id
  }

  /** `i` is the first position of `s` whose record has identifier `id`. */
  predicate IsFirstMatch(s: seq<Plant>, id: Uuid, i: int) {
    0 <= i < |s| && s[i].id == id && forall j :: 0 <= j < i ==> s[j].id != id
  }

  /** No two records of `s` share an identifier. */
  predicate UniqueIds(s: seq<Plant>) {
    forall i, j :: 0 <= i < j < |s| ==> s[i].id != s[j].id
  }

  /** `firstIndex(where: { $0.id == id })`: a scan from the front. */
  function FirstIndex(s: seq<Plant>, id: Uuid): (r: Option<nat>)
    ensures r.Some? <==> HasId(s, id)
    ensures r.Some? ==> IsFirstMatch(s, id, r.value)
    decreases |s|
  {
    if s == [] then None
    else if s[0].id == id then Some(0)
    else
      match FirstIndex(s[1..], id)
      case None => None
      case Some(k) => Some(k + 1)
  }

  /** The records of `s` that are done today, in order (`filter { $0.isDoneToday }`). */
  function DoneOnes(s: seq<Plant>): (r: seq<Plant>)
    ensures |r| <= |s|
    ensures forall q :: q in r <==> q in s && q.isDoneToday
    decreases |s|
  {
    if s == [] then []
    else (if s[0].isDoneToday then [s[0]] else []) + DoneOnes(s[1..])
  }

  /** The list after `update(p)`: the first record with `p.id`, if any, replaced by `p`. */
  function Updated(s: seq<Plant>, p: Plant): (r: seq<Plant>)
    ensures |r| == |s|
    ensures !HasId(s, p.id) ==> r == s
    ensures forall i :: IsFirstMatch(s, p.id, i) ==> r == s[i := p]
    ensures forall k :: 0 <= k < |s| ==> r[k].id == s[k].id
  {
    match FirstIndex(s, p.id)
    case None => s
    case Some(i) => s[i := p]
  }

  /** The list after `delete(p)`: every record with identifier `id` removed. */
  function WithoutId(s: seq<Plant>, id: Uuid): (r: seq<Plant>)
    ensures |r| <= |s|
    ensures forall q :: q in r <==> q in s && q.id != id
    ensures !HasId(r, id)
    decreases |s|
  {
    if s == [] then []
    else (if s[0].id == id then [] else [s[0]]) + WithoutId(s[1..], id)
  }

  /** The list after `toggleDone(p)`: the first record with identifier `id`, if any, toggled. */
  function ToggledAtFirst(s: seq<Plant>, id: Uuid): (r: seq<Plant>)
    ensures |r| == |s|
    ensures !HasId(s, id) ==> r == s
    ensures forall i :: IsFirstMatch(s, id, i) ==> r == s[i := s[i].WithDoneToggled()]
    ensures forall k :: 0 <= k < |s| ==> r[k].id == s[k].id
  {
    match FirstIndex(s, id)
    case None => s
    case Some(i) => s[i := s[i].WithDoneToggled()]
  }

  /** `FormMode`: what the sheet was opened for. */
  datatype FormMode = Add(defaults: Option<Plant>) | Edit(original: Plant)

  class PlantListViewModel {
    var plants: seq<Plant>

    constructor ()
      ensures plants == []
    {
      plants := [];
    }

    /** `completedCount`: how many records are done today. */
    function CompletedCount(): (n: nat)
      reads this
      ensures n <= |plants|
      ensures n == |plants| <==> forall i :: 0 <= i < |plants| ==> plants[i].isDoneToday
      ensures n == 0 <==> forall i :: 0 <= i < |plants| ==> !plants[i].isDoneToday
      ensures n == |DonePositions(plants)|
    {
      CompletedCountIsNumberDone(plants);
      AllDoneIff(plants);
      NoneDoneIff(plants);
      |DoneOnes(plants)|
    }

    /** `totalCount` */
    function TotalCount(): (n: nat)
      reads this
      ensures n == |plants|
    {
      |plants|
    }

    /** `allDone`: there is at least one record and every record is done. */
    function AllDone(): (b: bool)
      reads this
      ensures b <==> |plants| > 0 && forall i :: 0 <= i < |plants| ==> plants[i].isDoneToday
      ensures b ==> CompletedCount() == TotalCount() > 0
    {
      TotalCount() > 0 && CompletedCount() == TotalCount()
    }

    /** `add(_:)`: appends, with no check that the identifier is new. */
    method Add(p: Plant)
      modifies this
      ensures plants == old(plants) + [p]
    {
      plants := plants + [p];
    }

    /** `update(_:)` */
    method Update(p: Plant)
      modifies this
      ensures plants == Updated(old(plants), p)
    {
      var idx := FirstIndex(plants, p.id);
      if idx.None? {
        return;
      }
      plants := plants[idx.value := p];
    }

    /** `delete(_:)` */
    method Delete(p: Plant)
      modifies this
      ensures plants == WithoutId(old(plants), p.id)
    {
      plants := WithoutId(plants, p.id);
    }

    /** `toggleDone(_:)` */
    method ToggleDone(p: Plant)
      modifies this
      ensures plants == ToggledAtFirst(old(plants), p.id)
    {
      var idx := FirstIndex(plants, p.id);
      if idx.None? {
        return;
      }
      plants := plants[idx.value := plants[idx.value].WithDoneToggled()];
    }
  }

  /** Every record is done exactly when all of them are counted as done. */
  lemma {:induction false} AllDoneIff(s: seq<Plant>)
    ensures |DoneOnes(s)| == |s| <==> forall i :: 0 <= i < |s| ==> s[i].isDoneToday
    decreases |s|
  {
    if s != [] {
      AllDoneIff(s[1..]);
      assert forall i :: 1 <= i < |s| ==> s[i] == s[1..][i - 1];
    }
  }

  /** No record is done exactly when none is counted as done. */
  lemma {:induction false} NoneDoneIff(s: seq<Plant>)
    ensures |DoneOnes(s)| == 0 <==> forall i :: 0 <= i < |s| ==> !s[i].isDoneToday
    decreases |s|
  {
    if s != [] {
      NoneDoneIff(s[1..]);
      assert forall i :: 1 <= i < |s| ==> s[i] == s[1..][i - 1];
    }
  }

  /** The positions of `s` whose record is done today. */
  function DonePositions(s: seq<Plant>): set<nat> {
    set i: nat | i < |s| && s[i].isDoneToday
  }

  /** Filtering a concatenation filters each part. */
  lemma {:induction false} DoneOnesAppend(a: seq<Plant>, b: seq<Plant>)
    ensures DoneOnes(a + b) == DoneOnes(a) + DoneOnes(b)
    decreases |a|
  {
    if a != [] {
      assert (a + b)[1..] == a[1..] + b;
      DoneOnesAppend(a[1..], b);
    } else {
      assert a + b == b;
    }
  }

  /** Appending a record adds its position to the done positions exactly when it is done. */
  lemma DonePositionsSnoc(init: seq<Plant>, last: Plant)
    ensures |DonePositions(init + [last])| == |DonePositions(init)| + DoneWeight(last)
  {
    var s := init + [last];
    forall i: nat | i < |init| ensures s[i] == init[i] { }
    var added := if last.isDoneToday then {|init|} else {};
    assert DonePositions(s) == DonePositions(init) + added;
    assert |init| !in DonePositions(init);
  }

  /** Appending a record adds one to the done count exactly when it is done. */
  lemma DoneOnesSnoc(init: seq<Plant>, last: Plant)
    ensures |DoneOnes(init + [last])| == |DoneOnes(init)| + DoneWeight(last)
  {
    DoneOnesAppend(init, [last]);
    assert [last][1..] == [];
  }

  /** `completedCount` is the number of positions whose record is done. */
  lemma {:induction false} CompletedCountIsNumberDone(s: seq<Plant>)
    ensures |DoneOnes(s)| == |DonePositions(s)|
    decreases |s|
  {
    if s != [] {
      var init, last := s[..|s| - 1], s[|s| - 1];
      assert s == init + [last];
      CompletedCountIsNumberDone(init);
      DoneOnesSnoc(init, last);
      DonePositionsSnoc(init, last);
    }
  }

  /** 1 for a record that is done, 0 otherwise. */
  function DoneWeight(p: Plant): nat {
    if p.isDoneToday then 1 else 0
  }

  /** Replacing one record changes the done count by the difference of the two records. */
  lemma {:induction false} DoneCountAfterReplace(s: seq<Plant>, i: nat, x: Plant)
    requires i < |s|
    ensures |DoneOnes(s[i := x])| + DoneWeight(s[i]) == |DoneOnes(s)| + DoneWeight(x)
    decreases |s|
  {
    if i > 0 {
      DoneCountAfterReplace(s[1..], i - 1, x);
      assert s[i := x][1..] == s[1..][i - 1 := x];
    } else {
      assert s[i := x][1..] == s[1..];
    }
  }

  /** Updating a record with the value it already has changes nothing. */
  lemma UpdateWithSameRecord(s: seq<Plant>, i: nat)
    requires i < |s| && IsFirstMatch(s, s[i].id, i)
    ensures Updated(s, s[i]) == s
  {
    assert s[i := s[i]] == s;
  }

  /** Toggling a record that is there moves `completedCount` by exactly one. */
  lemma ToggleMovesCompletedByOne(s: seq<Plant>, id: Uuid, i: nat)
    requires IsFirstMatch(s, id, i)
    ensures s[i].isDoneToday ==> |DoneOnes(ToggledAtFirst(s, id))| == |DoneOnes(s)| - 1
    ensures !s[i].isDoneToday ==> |DoneOnes(ToggledAtFirst(s, id))| == |DoneOnes(s)| + 1
  {
    DoneCountAfterReplace(s, i, s[i].WithDoneToggled());
  }

  /** `toggleDone` twice on the same identifier restores the list. */
  lemma ToggleTwiceRestores(s: seq<Plant>, id: Uuid)
    ensures ToggledAtFirst(ToggledAtFirst(s, id), id) == s
  {
    var r := ToggledAtFirst(s, id);
    match FirstIndex(s, id)
    case None =>
    case Some(i) =>
      assert r == s[i := s[i].WithDoneToggled()];
      assert IsFirstMatch(r, id, i);
      assert r[i := r[i].WithDoneToggled()] == s;
  }

  /** A list with no record of identifier `id` is left alone by `delete`. */
  lemma {:induction false} DeleteMissingIsNoOp(s: seq<Plant>, id: Uuid)
    requires !HasId(s, id)
    ensures WithoutId(s, id) == s
    decreases |s|
  {
    if s != [] {
      assert s[0].id != id;
      assert !HasId(s[1..], id) by {
        forall j | 0 <= j < |s[1..]| ensures s[1..][j].id != id {
          assert s[1..][j] == s[j + 1];
        }
      }
      DeleteMissingIsNoOp(s[1..], id);
    }
  }

  /** A second `delete` with the same identifier changes nothing. */
  lemma DeleteIdempotent(s: seq<Plant>, id: Uuid)
    ensures WithoutId(WithoutId(s, id), id) == WithoutId(s, id)
  {
    DeleteMissingIsNoOp(WithoutId(s, id), id);
  }

  /**
   * `delete` works record by record: deleting from a concatenation deletes
   * from each part, so the survivors keep their relative order.
   */
  lemma {:induction false} DeleteKeepsOrder(a: seq<Plant>, b: seq<Plant>, id: Uuid)
    ensures WithoutId(a + b, id) == WithoutId(a, id) + WithoutId(b, id)
    decreases |a|
  {
    if a != [] {
      assert (a + b)[1..] == a[1..] + b;
      DeleteKeepsOrder(a[1..], b, id);
    } else {
      assert a + b == b;
    }
  }

  /** Deleting a single record keeps it exactly when its identifier differs. */
  lemma DeleteOne(p: Plant, id: Uuid)
    ensures WithoutId([p], id) == if p.id == id then [] else [p]
  {
    assert [p][1..] == [];
  }

  /** `add` keeps identifiers unique exactly when the new identifier is not yet present. */
  lemma AddUniqueIff(s: seq<Plant>, p: Plant)
    requires UniqueIds(s)
    ensures UniqueIds(s + [p]) <==> !HasId(s, p.id)
  {
    var r := s + [p];
    if HasId(s, p.id) {
      var j :| 0 <= j < |s| && s[j].id == p.id;
      assert r[j].id == r[|s|].id;
    }
  }

  /** After adding a record with a new identifier, looking that identifier up finds it at the end. */
  lemma AddThenFind(s: seq<Plant>, p: Plant)
    requires !HasId(s, p.id)
    ensures FirstIndex(s + [p], p.id) == Some(|s|)
  {
    var r := s + [p];
    assert forall j :: 0 <= j < |s| ==> r[j] == s[j];
    assert IsFirstMatch(r, p.id, |s|);
  }

  /** `update`, `toggleDone` and `delete` keep identifiers unique. */
  lemma MutationsKeepUniqueIds(s: seq<Plant>, p: Plant)
    requires UniqueIds(s)
    ensures UniqueIds(Updated(s, p))
    ensures UniqueIds(ToggledAtFirst(s, p.id))
    ensures UniqueIds(WithoutId(s, p.id))
  {
    SameIdsKeepUnique(s, Updated(s, p));
    SameIdsKeepUnique(s, ToggledAtFirst(s, p.id));
    WithoutIdKeepsUniqueIds(s, p.id);
  }

  /** A list with the same identifiers position by position has unique identifiers too. */
  lemma SameIdsKeepUnique(s: seq<Plant>, r: seq<Plant>)
    requires UniqueIds(s) && |r| == |s|
    requires forall k :: 0 <= k < |s| ==> r[k].id == s[k].id
    ensures UniqueIds(r)
  {
  }

  lemma {:induction false} WithoutIdKeepsUniqueIds(s: seq<Plant>, id: Uuid)
    requires UniqueIds(s)
    ensures UniqueIds(WithoutId(s, id))
    decreases |s|
  {
    if s != [] {
      WithoutIdKeepsUniqueIds(s[1..], id);
      var rest := WithoutId(s[1..], id);
      forall q | q in rest ensures q.id != s[0].id {
        assert q in s[1..];
        var k :| 0 <= k < |s[1..]| && s[1..][k] == q;
        assert s[k + 1] == q;
      }
    }
  }

  /** With unique identifiers, `delete` of a present record removes exactly one. */
  lemma {:induction false} DeleteUniqueRemovesOne(s: seq<Plant>, id: Uuid)
    requires UniqueIds(s) && HasId(s, id)
    ensures |WithoutId(s, id)| == |s| - 1
    decreases |s|
  {
    if s[0].id == id {
      assert !HasId(s[1..], id) by {
        forall j | 0 <= j < |s[1..]| ensures s[1..][j].id != id {
          assert s[1..][j] == s[j + 1];
        }
      }
      DeleteMissingIsNoOp(s[1..], id);
    } else {
      var j :| 0 <= j < |s| && s[j].id == id;
      assert s[1..][j - 1].id == id;
      DeleteUniqueRemovesOne(s[1..], id);
    }
  }
}
