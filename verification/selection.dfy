/**
 The selection-list operations that the selection pages share. A selection is
 an ordered list of ids; a universe is the ordered list of every id a page
 can show (a flattened id list).

 The pages keep no set: they keep an array, toggle membership with
 `includes`/`filter`/append, decide "select all" by comparing LENGTHS, and
 union with `[...new Set([...prev, ...ids])]`. The invariant that makes the
 length test mean "everything is selected" is `Wellformed`: no duplicates and
 nothing outside the universe.
 */
module Selection {

  /** Item ids, template ids, asset ids and platform names are all strings. */
  type Id = string

  /** No element occurs twice. */
  predicate NoDup(s: seq<Id>) {
    forall i, j :: 0 <= i < j < |s| ==> s[i] != s[j]
  }

  /** Every selected id is one the page can show. */
  predicate Within(sel: seq<Id>, universe: seq<Id>) {
    forall x :: x in sel ==> x in universe
  }

  /** Every id of `ids` is selected: `ids.every(id => sel.includes(id))`. */
  predicate AllSelected(sel: seq<Id>, ids: seq<Id>) {
    forall x :: x in ids ==> x in sel
  }

  /** The invariant the selection pages keep. */
  predicate Wellformed(sel: seq<Id>, universe: seq<Id>) {
    NoDup(sel) && Within(sel, universe)
  }

  /** The set of elements of a list. */
  function Elements(s: seq<Id>): set<Id> {
    set x | x in s
  }

  // ---------------------------------------------------------------------
  // Flattening: `flatMap` and `Object.values(..).flat()`
  // ---------------------------------------------------------------------

  /** The in-order concatenation of a list of lists. */
  function Flatten(ss: seq<seq<Id>>): (r: seq<Id>)
    ensures forall x :: x in r <==> exists i :: 0 <= i < |ss| && x in ss[i]
  {
    if |ss| == 0 then []
    else
      var rest := Flatten(ss[1..]);
      ss[0] + rest
  }

  /** Flattening lists that are duplicate-free and pairwise disjoint gives a
      duplicate-free list. */
  lemma {:induction false} FlattenNoDup(ss: seq<seq<Id>>)
    requires forall i :: 0 <= i < |ss| ==> NoDup(ss[i])
    requires forall i, j, x :: 0 <= i < j < |ss| && x in ss[i] ==> x !in ss[j]
    ensures NoDup(Flatten(ss))
  {
    if |ss| > 0 {
      FlattenNoDup(ss[1..]);
      var rest := Flatten(ss[1..]);
      forall x | x in ss[0]
        ensures x !in rest
      {
        forall i | 0 <= i < |ss| - 1 ensures x !in ss[1..][i] {
          assert ss[1..][i] == ss[i + 1];
        }
      }
      NoDupConcat(ss[0], rest);
    }
  }

  /** Two duplicate-free, disjoint lists concatenate to a duplicate-free list. */
  lemma NoDupConcat(a: seq<Id>, b: seq<Id>)
    requires NoDup(a) && NoDup(b)
    requires forall x :: x in a ==> x !in b
    ensures NoDup(a + b)
  {
    var s := a + b;
    forall i, j | 0 <= i < j < |s|
      ensures s[i] != s[j]
    {
      if i < |a| && j >= |a| {
        assert s[i] in a && s[j] == b[j - |a|];
      }
    }
  }

  // ---------------------------------------------------------------------
  // Filtering: `prev.filter(x => !drop.includes(x))`
  // ---------------------------------------------------------------------

  /** The elements of `s` not in `drop`, in their original order. */
  function Without(s: seq<Id>, drop: seq<Id>): (r: seq<Id>)
    ensures forall x :: x in r <==> x in s && x !in drop
    ensures |r| <= |s|
  {
    if |s| == 0 then []
    else if s[0] in drop then Without(s[1..], drop)
    else [s[0]] + Without(s[1..], drop)
  }

  /** `r` is `s` with some elements deleted and the rest in their order
      (matched greedily, which decides the relation). */
  predicate IsSubsequence(r: seq<Id>, s: seq<Id>)
    decreases |s|
  {
    |r| == 0 || (|s| > 0 && if r[0] == s[0] then IsSubsequence(r[1..], s[1..]) else IsSubsequence(r, s[1..]))
  }

  /** Dropping the head of a subsequence leaves a subsequence. */
  lemma {:induction false} SubsequenceDropHead(r: seq<Id>, s: seq<Id>)
    requires |r| > 0 && IsSubsequence(r, s)
    ensures IsSubsequence(r[1..], s)
    decreases |s|
  {
    if |r| > 1 {
      if r[0] != s[0] {
        SubsequenceDropHead(r, s[1..]);
      }
      assert IsSubsequence(r[1..], s[1..]);
      if r[1] == s[0] {
        SubsequenceDropHead(r[1..], s[1..]);
      }
    }
  }

  /** A subsequence of a list is a subsequence of any longer list ending in it. */
  lemma SubsequenceCons(r: seq<Id>, s: seq<Id>, x: Id)
    requires IsSubsequence(r, s)
    ensures IsSubsequence(r, [x] + s)
  {
    assert ([x] + s)[1..] == s;
    if |r| > 0 && r[0] == x {
      SubsequenceDropHead(r, s);
    }
  }

  /** Filtering deletes elements and keeps the rest in their order. */
  lemma {:induction false} WithoutIsSubsequence(s: seq<Id>, drop: seq<Id>)
    ensures IsSubsequence(Without(s, drop), s)
  {
    if |s| > 0 {
      WithoutIsSubsequence(s[1..], drop);
      assert s == [s[0]] + s[1..];
      if s[0] in drop {
        SubsequenceCons(Without(s[1..], drop), s[1..], s[0]);
      } else {
        assert ([s[0]] + Without(s[1..], drop))[1..] == Without(s[1..], drop);
      }
    }
  }

  /** Filtering distributes over concatenation, so it keeps the relative order
      of the elements it keeps. */
  lemma {:induction false} WithoutAppend(a: seq<Id>, b: seq<Id>, drop: seq<Id>)
    ensures Without(a + b, drop) == Without(a, drop) + Without(b, drop)
  {
    if |a| > 0 {
      assert (a + b)[1..] == a[1..] + b;
      WithoutAppend(a[1..], b, drop);
    } else {
      assert a + b == b;
    }
  }

  /** Filtering out nothing that occurs is the identity. */
  lemma {:induction false} WithoutNothing(s: seq<Id>, drop: seq<Id>)
    requires forall x :: x in s ==> x !in drop
    ensures Without(s, drop) == s
  {
    if |s| > 0 {
      WithoutNothing(s[1..], drop);
      assert [s[0]] + s[1..] == s;
    }
  }

  /** Filtering keeps a duplicate-free list duplicate-free. */
  lemma {:induction false} WithoutNoDup(s: seq<Id>, drop: seq<Id>)
    requires NoDup(s)
    ensures NoDup(Without(s, drop))
  {
    if |s| > 0 {
      NoDupTail(s);
      WithoutNoDup(s[1..], drop);
      if s[0] !in drop {
        NoDupConcat([s[0]], Without(s[1..], drop));
      }
    }
  }

  // ---------------------------------------------------------------------
  // Toggle: `prev.includes(id) ? prev.filter(x => x !== id) : [...prev, id]`
  // ---------------------------------------------------------------------

  /** Removes `x` when it is selected, appends it at the end otherwise. */
  function Toggle(s: seq<Id>, x: Id): (r: seq<Id>)
    ensures x in r <==> x !in s
    ensures forall y :: y != x ==> (y in r <==> y in s)
  {
    if x in s then Without(s, [x]) else s + [x]
  }

  /** Toggling an absent id appends it at the end and changes nothing else. */
  lemma ToggleAbsentAppends(s: seq<Id>, x: Id)
    requires x !in s
    ensures Toggle(s, x) == s + [x]
  {
  }

  /** Filtering out an id that ends a list and occurs nowhere else drops just
      that last element. */
  lemma WithoutLast(a: seq<Id>, x: Id)
    requires x !in a
    ensures Without(a + [x], [x]) == a
  {
    WithoutAppend(a, [x], [x]);
    WithoutNothing(a, [x]);
    assert Without([x], [x]) == Without([], [x]);
  }

  /** Filtering out an id that occurs once, between `a` and `b`, leaves
      `a + b`. */
  lemma WithoutSingle(a: seq<Id>, x: Id, b: seq<Id>)
    requires x !in a && x !in b
    ensures Without(a + [x] + b, [x]) == a + b
  {
    WithoutAppend(a + [x], b, [x]);
    WithoutLast(a, x);
    WithoutNothing(b, [x]);
  }

  /** Toggling an id that occurs once removes exactly that position and keeps
      every other element in its order. */
  lemma ToggleRemovesInPlace(s: seq<Id>, i: nat)
    requires NoDup(s)
    requires i < |s|
    ensures Toggle(s, s[i]) == s[..i] + s[i + 1..]
  {
    var x, a, b := s[i], s[..i], s[i + 1..];
    assert s == a + [x] + b;
    assert x !in a by {
      forall k | 0 <= k < |a| ensures a[k] != x {
        assert a[k] == s[k];
      }
    }
    assert x !in b by {
      forall k | 0 <= k < |b| ensures b[k] != x {
        assert b[k] == s[i + 1 + k];
      }
    }
    WithoutSingle(a, x, b);
  }

  /** Toggling twice restores membership; when the id was absent it restores
      the very same list. */
  lemma ToggleTwice(s: seq<Id>, x: Id)
    ensures forall y :: y in Toggle(Toggle(s, x), x) <==> y in s
    ensures x !in s ==> Toggle(Toggle(s, x), x) == s
  {
    if x !in s {
      WithoutLast(s, x);
    }
  }

  /** Toggling an id of the universe keeps the invariant. */
  lemma ToggleKeepsWellformed(s: seq<Id>, u: seq<Id>, x: Id)
    requires Wellformed(s, u)
    requires x in u
    ensures Wellformed(Toggle(s, x), u)
  {
    if x in s {
      WithoutNoDup(s, [x]);
    } else {
      NoDupConcat(s, [x]);
    }
  }

  // ---------------------------------------------------------------------
  // Union: `[...new Set([...prev, ...ids])]`
  // ---------------------------------------------------------------------

  /** Appends the elements of `s` that are not yet in `acc`, first occurrence
      first; a JavaScript `Set` iterates in first-insertion order. */
  function AppendNew(acc: seq<Id>, s: seq<Id>): (r: seq<Id>)
    ensures forall x :: x in r <==> x in acc || x in s
    ensures NoDup(acc) ==> NoDup(r)
    ensures acc <= r
    decreases |s|
  {
    if |s| == 0 then acc
    else if s[0] in acc then AppendNew(acc, s[1..])
    else
      assert NoDup(acc) ==> NoDup(acc + [s[0]]) by {
        if NoDup(acc) { NoDupConcat(acc, [s[0]]); }
      }
      AppendNew(acc + [s[0]], s[1..])
  }

  /** `[...new Set(s)]`: the first occurrence of every element, in order. */
  function Dedup(s: seq<Id>): (r: seq<Id>)
    ensures NoDup(r)
    ensures forall x :: x in r <==> x in s
  {
    AppendNew([], s)
  }

  /** Inserting `a` then `b` is inserting `a + b`. */
  lemma {:induction false} AppendNewConcat(acc: seq<Id>, a: seq<Id>, b: seq<Id>)
    ensures AppendNew(acc, a + b) == AppendNew(AppendNew(acc, a), b)
    decreases |a|
  {
    if |a| == 0 {
      assert a + b == b;
    } else {
      assert (a + b)[0] == a[0] && (a + b)[1..] == a[1..] + b;
      if a[0] in acc {
        AppendNewConcat(acc, a[1..], b);
      } else {
        AppendNewConcat(acc + [a[0]], a[1..], b);
      }
    }
  }

  /** Inserting duplicate-free ids none of which is present appends them all. */
  lemma {:induction false} AppendNewFresh(acc: seq<Id>, s: seq<Id>)
    requires NoDup(acc + s)
    ensures AppendNew(acc, s) == acc + s
    decreases |s|
  {
    if |s| > 0 {
      assert s[0] == (acc + s)[|acc|];
      assert s[0] !in acc by {
        forall k | 0 <= k < |acc| ensures acc[k] != s[0] {
          assert acc[k] == (acc + s)[k];
        }
      }
      assert acc + s == (acc + [s[0]]) + s[1..];
      AppendNewFresh(acc + [s[0]], s[1..]);
    }
  }

  /** Inserting duplicate-free ids after a list keeps the list and appends the
      missing ids in their own order. */
  lemma {:induction false} AppendNewIsMissing(acc: seq<Id>, s: seq<Id>)
    requires NoDup(acc) && NoDup(s)
    ensures AppendNew(acc, s) == acc + Without(s, acc)
    decreases |s|
  {
    if |s| > 0 {
      var x := s[0];
      assert NoDup(s[1..]) by {
        forall i, j | 0 <= i < j < |s| - 1 ensures s[1..][i] != s[1..][j] {
          assert s[1..][i] == s[i + 1] && s[1..][j] == s[j + 1];
        }
      }
      assert x !in s[1..] by {
        forall k | 0 <= k < |s| - 1 ensures s[1..][k] != x {
          assert s[1..][k] == s[k + 1];
        }
      }
      if x in acc {
        AppendNewIsMissing(acc, s[1..]);
      } else {
        NoDupConcat(acc, [x]);
        AppendNewIsMissing(acc + [x], s[1..]);
        WithoutExtraDrop(s[1..], acc, x);
      }
    }
  }

  /** Dropping also an element that does not occur changes nothing. */
  lemma {:induction false} WithoutExtraDrop(s: seq<Id>, drop: seq<Id>, x: Id)
    requires x !in s
    ensures Without(s, drop + [x]) == Without(s, drop)
  {
    if |s| > 0 {
      WithoutExtraDrop(s[1..], drop, x);
    }
  }

  /** The union `[...new Set([...prev, ...ids])]` of a duplicate-free
      selection and duplicate-free ids: the selection in its own order, then
      the ids it lacked, in the order of `ids`. */
  lemma {:induction false} UnionAppendsMissing(prev: seq<Id>, ids: seq<Id>)
    requires NoDup(prev) && NoDup(ids)
    ensures Dedup(prev + ids) == prev + Without(ids, prev)
  {
    AppendNewConcat([], prev, ids);
    AppendNewFresh([], prev);
    assert [] + prev == prev;
    AppendNewIsMissing(prev, ids);
  }

  // ---------------------------------------------------------------------
  // Select all
  // ---------------------------------------------------------------------

  /** The global select-all button: clear the selection when it is as long as
      the universe, otherwise select the whole universe. */
  function SelectAllToggle(sel: seq<Id>, universe: seq<Id>): (r: seq<Id>)
    ensures |sel| == |universe| ==> r == []
    ensures |sel| != |universe| ==> r == universe
  {
    if |sel| == |universe| then [] else universe
  }

  /** A group's select-all button: when every id of the group is selected it
      filters them out, otherwise it unions them in. */
  function GroupSelectAll(sel: seq<Id>, ids: seq<Id>): (r: seq<Id>)
    ensures AllSelected(sel, ids) ==> forall x :: x in r <==> x in sel && x !in ids
    ensures !AllSelected(sel, ids) ==> AllSelected(r, ids) && AllSelected(r, sel)
  {
    if AllSelected(sel, ids) then Without(sel, ids) else Dedup(sel + ids)
  }

  /** The tail of a duplicate-free list is duplicate-free and lacks the head. */
  lemma NoDupTail(s: seq<Id>)
    requires NoDup(s)
    requires |s| > 0
    ensures NoDup(s[1..])
    ensures s[0] !in s[1..]
  {
    forall i, j | 0 <= i < j < |s| - 1 ensures s[1..][i] != s[1..][j] {
      assert s[1..][i] == s[i + 1] && s[1..][j] == s[j + 1];
    }
    forall k | 0 <= k < |s| - 1 ensures s[1..][k] != s[0] {
      assert s[1..][k] == s[k + 1];
    }
  }

  /** A duplicate-free list has as many elements as its length. */
  lemma {:induction false} NoDupCard(s: seq<Id>)
    requires NoDup(s)
    ensures |Elements(s)| == |s|
  {
    if |s| > 0 {
      NoDupTail(s);
      NoDupCard(s[1..]);
      assert s[0] !in Elements(s[1..]);
      assert Elements(s) == {s[0]} + Elements(s[1..]) by {
        assert s == [s[0]] + s[1..];
      }
    }
  }

  /** A proper subset is strictly smaller. */
  lemma {:induction false} SubsetCard(a: set, b: set)
    requires a <= b
    ensures |a| <= |b|
    ensures |a| == |b| ==> a == b
    decreases b
  {
    if a != b {
      var x :| x in b && x !in a;
      SubsetCard(a, b - {x});
    }
  }

  /** The key fact of the selection pages: for a well-formed selection over a
      duplicate-free universe, "as long as the universe" is the same as
      "everything is selected". */
  lemma LengthMeansAllSelected(sel: seq<Id>, universe: seq<Id>)
    requires Wellformed(sel, universe)
    requires NoDup(universe)
    ensures |sel| == |universe| <==> AllSelected(sel, universe)
  {
    NoDupCard(sel);
    NoDupCard(universe);
    SubsetCard(Elements(sel), Elements(universe));
    if AllSelected(sel, universe) {
      assert Elements(sel) == Elements(universe);
    }
    if |sel| == |universe| {
      assert Elements(sel) == Elements(universe);
      forall x | x in universe ensures x in sel {
        assert x in Elements(universe);
      }
    }
  }

  /** The global select-all button, read through the invariant: it clears a
      complete selection and selects everything otherwise, and it keeps the
      invariant. */
  lemma SelectAllToggleMeaning(sel: seq<Id>, universe: seq<Id>)
    requires Wellformed(sel, universe)
    requires NoDup(universe)
    ensures AllSelected(sel, universe) ==> SelectAllToggle(sel, universe) == []
    ensures !AllSelected(sel, universe) ==> SelectAllToggle(sel, universe) == universe
    ensures Wellformed(SelectAllToggle(sel, universe), universe)
  {
    LengthMeansAllSelected(sel, universe);
  }

  /** A group's select-all keeps the invariant when the group lies inside the
      universe. */
  lemma GroupSelectAllKeepsWellformed(sel: seq<Id>, ids: seq<Id>, universe: seq<Id>)
    requires Wellformed(sel, universe)
    requires Within(ids, universe)
    ensures Wellformed(GroupSelectAll(sel, ids), universe)
  {
    if AllSelected(sel, ids) {
      WithoutNoDup(sel, ids);
    }
  }

  /** When the group is not fully selected, the union keeps the selection in
      its order and appends exactly the missing ids in group order. */
  lemma {:induction false} GroupSelectAllAppendsMissing(sel: seq<Id>, ids: seq<Id>)
    requires NoDup(sel) && NoDup(ids)
    requires !AllSelected(sel, ids)
    ensures GroupSelectAll(sel, ids) == sel + Without(ids, sel)
  {
    UnionAppendsMissing(sel, ids);
  }

  /** Pressing a group's select-all twice from a partial selection: the first
      press selects the whole group, the second removes exactly the group's
      ids and keeps the rest of the selection in its order. */
  lemma GroupSelectAllTwice(sel: seq<Id>, ids: seq<Id>)
    requires NoDup(sel) && NoDup(ids)
    requires !AllSelected(sel, ids)
    ensures AllSelected(GroupSelectAll(sel, ids), ids)
    ensures GroupSelectAll(GroupSelectAll(sel, ids), ids) == Without(sel, ids)
  {
    var once := GroupSelectAll(sel, ids);
    UnionAppendsMissing(sel, ids);
    WithoutAppend(sel, Without(ids, sel), ids);
    assert Without(Without(ids, sel), ids) == [] by {
      var w := Without(ids, sel);
      if |w| > 0 {
        assert w[0] in w;
      }
      WithoutAllGone(w, ids);
    }
  }

  /** Filtering out a superset of a list's elements leaves nothing. */
  lemma {:induction false} WithoutAllGone(s: seq<Id>, drop: seq<Id>)
    requires forall x :: x in s ==> x in drop
    ensures Without(s, drop) == []
  {
    if |s| > 0 {
      assert s[0] in s;
      WithoutAllGone(s[1..], drop);
    }
  }
}
