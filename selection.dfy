/** The list edits that every checkbox group of the wizard's forms performs on
    its ordered sequence of selected option ids. Two handler shapes occur:

    - the checked-flag shape `checked ? [...ids, id] : ids.filter(x => x !== id)`
      (Change), which never tests membership, and
    - the toggle shape `ids.includes(id) ? ids.filter(x => x !== id) : [...ids, id]`
      (Toggle), which flips membership.

    Option ids are opaque strings. */
module Selection {

  /** `ids` holds no id twice. */
  ghost predicate NoDup(ids: seq<string>) {
    forall x :: multiset(ids)[x] <= 1
  }

  /** `a` is `b` with some entries left out, the rest in their original order. */
  predicate IsSubsequence(a: seq<string>, b: seq<string>)
    decreases |b|
  {
    if a == [] then true
    else if b == [] then false
    else if a[0] == b[0] then IsSubsequence(a[1..], b[1..])
    else IsSubsequence(a, b[1..])
  }

  /** `r` is what `ids.filter(x => x !== id)` yields: every occurrence of `id`
      is gone, every other id keeps its multiplicity, and the order of what
      remains is the order it had in `ids`. */
  ghost predicate Removed(ids: seq<string>, id: string, r: seq<string>) {
    && IsSubsequence(r, ids)
    && multiset(r)[id] == 0
    && forall x :: x != id ==> multiset(r)[x] == multiset(ids)[x]
  }

  /** `r` is what `[...ids, id]` yields: all earlier entries in order, then `id`. */
  ghost predicate Appended(ids: seq<string>, id: string, r: seq<string>) {
    && |r| == |ids| + 1
    && r[..|ids|] == ids
    && r[|ids|] == id
  }

  /** Spread-append: the list grows by one even when `id` is already present. */
  function AddId(ids: seq<string>, id: string): (r: seq<string>)
    ensures Appended(ids, id, r)
    ensures multiset(r) == multiset(ids) + multiset{id}
  {
    ids + [id]
  }

  /** `filter(x => x !== id)`: removes every occurrence of `id` and no other id. */
  function RemoveAll(ids: seq<string>, id: string): (r: seq<string>)
    ensures Removed(ids, id, r)
    ensures id !in r
    ensures forall x :: x in r <==> x in ids && x != id
    ensures |r| <= |ids|
    decreases |ids|
  {
    if ids == [] then []
    else
      assert ids == [ids[0]] + ids[1..];
      var rest := RemoveAll(ids[1..], id);
      if ids[0] == id then rest
      else
        assert ([ids[0]] + rest)[1..] == rest;
        [ids[0]] + rest
  }

  /** Toggle handler: removes every occurrence when present, appends when absent. */
  function Toggle(ids: seq<string>, id: string): (r: seq<string>)
    ensures id in ids ==> Removed(ids, id, r)
    ensures id !in ids ==> Appended(ids, id, r)
    ensures (id in r) <==> (id !in ids)
    ensures forall x :: x != id ==> (x in r <==> x in ids)
  {
    if id in ids then RemoveAll(ids, id) else AddId(ids, id)
  }

  /** Checked-flag handler: appends when checked, removes every occurrence when not. */
  function Change(ids: seq<string>, id: string, checked: bool): (r: seq<string>)
    ensures checked ==> Appended(ids, id, r)
    ensures !checked ==> Removed(ids, id, r)
    ensures (id in r) <==> checked
    ensures forall x :: x != id ==> (x in r <==> x in ids)
  {
    if checked then AddId(ids, id) else RemoveAll(ids, id)
  }

  /** The "custom" option's free-text card is shown iff "custom" is selected. */
  predicate ShowsCustom(ids: seq<string>) {
    "custom" in ids
  }

  /** Removing an id appended at the end is the same as removing it from the list before. */
  lemma {:induction false} RemoveAllAppended(ids: seq<string>, id: string)
    ensures RemoveAll(ids + [id], id) == RemoveAll(ids, id)
    decreases |ids|
  {
    if ids == [] {
      assert [id][1..] == [];
    } else {
      assert (ids + [id])[1..] == ids[1..] + [id];
      RemoveAllAppended(ids[1..], id);
    }
  }

  /** Removing an id that does not occur changes nothing. */
  lemma {:induction false} RemoveAllAbsent(ids: seq<string>, id: string)
    requires id !in ids
    ensures RemoveAll(ids, id) == ids
    decreases |ids|
  {
    if ids != [] {
      RemoveAllAbsent(ids[1..], id);
      assert ids == [ids[0]] + ids[1..];
    }
  }

  /** Toggling an absent id twice restores the original list. */
  lemma ToggleTwiceAbsent(ids: seq<string>, id: string)
    requires id !in ids
    ensures Toggle(Toggle(ids, id), id) == ids
  {
    RemoveAllAppended(ids, id);
    RemoveAllAbsent(ids, id);
  }

  /** Toggling a present id twice does not restore the list: the id moves to the end. */
  lemma ToggleTwicePresent(ids: seq<string>, id: string)
    requires id in ids
    ensures Toggle(Toggle(ids, id), id) == RemoveAll(ids, id) + [id]
  {
  }

  /** Toggling keeps a duplicate-free list duplicate-free. */
  lemma ToggleKeepsNoDup(ids: seq<string>, id: string)
    requires NoDup(ids)
    ensures NoDup(Toggle(ids, id))
  {
    var r := Toggle(ids, id);
    forall x ensures multiset(r)[x] <= 1 {
      if id !in ids {
        assert multiset(r) == multiset(ids) + multiset{id};
        assert multiset(ids)[id] == 0;
      }
    }
  }

  /** Checking never tests membership: checking a present id creates a duplicate. */
  lemma CheckPresentDuplicates(ids: seq<string>, id: string)
    requires id in ids
    ensures !NoDup(Change(ids, id, true))
  {
    var r := Change(ids, id, true);
    assert multiset(r) == multiset(ids) + multiset{id};
    assert multiset(r)[id] >= 2;
  }

  /** Checking then unchecking an absent id restores the original list. */
  lemma CheckUncheckAbsent(ids: seq<string>, id: string)
    requires id !in ids
    ensures Change(Change(ids, id, true), id, false) == ids
  {
    RemoveAllAppended(ids, id);
    RemoveAllAbsent(ids, id);
  }

  /** Unchecking keeps a duplicate-free list duplicate-free. */
  lemma UncheckKeepsNoDup(ids: seq<string>, id: string)
    requires NoDup(ids)
    ensures NoDup(Change(ids, id, false))
  {
    var r := Change(ids, id, false);
    forall x ensures multiset(r)[x] <= 1 {
      if x != id {
        assert multiset(r)[x] == multiset(ids)[x];
      }
    }
  }

  /** The custom card follows the "custom" checkbox and no other. */
  lemma ShowsCustomAfterChange(ids: seq<string>, id: string, checked: bool)
    ensures ShowsCustom(Change(ids, id, checked)) == if id == "custom" then checked else ShowsCustom(ids)
  {
  }
}
