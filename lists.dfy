/**
 * The array idioms the table components share: `Array.prototype.filter`,
 * `map` with a replacement, the row-selection toggle, select-all, the
 * action-menu toggle and `Array.from(new Set(...))`.
 */
module Lists {
  import opened Wrappers

  /** `s.filter(keep)`. */
  function Filter<T(==,!new)>(s: seq<T>, keep: T -> bool): (r: seq<T>)
    ensures |r| <= |s|
    ensures forall x :: x in r <==> x in s && keep(x)
    decreases |s|
  {
    if s == [] then [] else (if keep(s[0]) then [s[0]] else []) + Filter(s[1..], keep)
  }

  /** Filtering keeps every copy of a kept value and no copy of a dropped one. */
  lemma {:induction false} FilterCount<T(!new)>(s: seq<T>, keep: T -> bool, x: T)
    ensures multiset(Filter(s, keep))[x] == if keep(x) then multiset(s)[x] else 0
    decreases |s|
  {
    if s != [] {
      assert s == [s[0]] + s[1..];
      FilterCount(s[1..], keep, x);
    }
  }

  /** `idx` lists, in increasing order, positions of `b` that spell out `a`. */
  ghost predicate Embeds<T>(idx: seq<nat>, a: seq<T>, b: seq<T>) {
    && |idx| == |a|
    && (forall k :: 0 <= k < |idx| ==> idx[k] < |b| && b[idx[k]] == a[k])
    && (forall k, l :: 0 <= k < l < |idx| ==> idx[k] < idx[l])
  }

  /** `a` is `b` with some elements left out and the rest kept in order. */
  ghost predicate IsSubsequence<T>(a: seq<T>, b: seq<T>) {
    exists idx: seq<nat> :: Embeds(idx, a, b)
  }

  function Shift(idx: seq<nat>): (r: seq<nat>)
    ensures |r| == |idx|
    ensures forall k :: 0 <= k < |idx| ==> r[k] == idx[k] + 1
  {
    seq(|idx|, k requires 0 <= k < |idx| => idx[k] + 1)
  }

  /** Positions in `s[1..]` that spell out `a` are, shifted by one, positions in `s`. */
  lemma ShiftEmbeds<T>(idx: seq<nat>, a: seq<T>, s: seq<T>)
    requires s != [] && Embeds(idx, a, s[1..])
    ensures Embeds(Shift(idx), a, s)
  {
    var sh := Shift(idx);
    forall k | 0 <= k < |sh| ensures sh[k] < |s| && s[sh[k]] == a[k] {
      assert s[idx[k] + 1] == s[1..][idx[k]];
    }
  }

  /** Every list is a subsequence of itself. */
  lemma SubsequenceOfSelf<T>(s: seq<T>)
    ensures IsSubsequence(s, s)
  {
    var idx := seq(|s|, i requires 0 <= i < |s| => i as nat);
    assert Embeds(idx, s, s);
  }

  /** Filtering keeps the surviving elements in their original order. */
  lemma {:induction false} FilterIsSubsequence<T(!new)>(s: seq<T>, keep: T -> bool)
    ensures IsSubsequence(Filter(s, keep), s)
    decreases |s|
  {
    if s == [] {
      assert Embeds([], Filter(s, keep), s);
    } else {
      FilterIsSubsequence(s[1..], keep);
      var rest := Filter(s[1..], keep);
      var idx :| Embeds(idx, rest, s[1..]);
      ShiftEmbeds(idx, rest, s);
      var sh := Shift(idx);
      if keep(s[0]) {
        var f := [s[0]] + rest;
        var idx' := [0] + sh;
        forall k | 0 <= k < |idx'| ensures idx'[k] < |s| && s[idx'[k]] == f[k] {
          if k > 0 {
            assert idx'[k] == sh[k - 1] && f[k] == rest[k - 1];
          }
        }
        forall k, l | 0 <= k < l < |idx'| ensures idx'[k] < idx'[l] {
          assert idx'[l] == sh[l - 1];
          if k > 0 {
            assert idx'[k] == sh[k - 1];
          }
        }
        assert Embeds(idx', f, s);
      } else {
        assert Embeds(sh, Filter(s, keep), s);
      }
    }
  }

  /** A filter that keeps every element is the identity. */
  lemma {:induction false} FilterKeepsAll<T(!new)>(s: seq<T>, keep: T -> bool)
    requires forall x :: x in s ==> keep(x)
    ensures Filter(s, keep) == s
    decreases |s|
  {
    if s != [] {
      FilterKeepsAll(s[1..], keep);
    }
  }

  /** Filtering a concatenation filters each part. */
  lemma {:induction false} FilterAppend<T(!new)>(a: seq<T>, b: seq<T>, keep: T -> bool)
    ensures Filter(a + b, keep) == Filter(a, keep) + Filter(b, keep)
    decreases |a|
  {
    if a == [] {
      assert a + b == b;
    } else {
      var head := if keep(a[0]) then [a[0]] else [];
      assert (a + b)[0] == a[0];
      assert (a + b)[1..] == a[1..] + b;
      FilterAppend(a[1..], b, keep);
      calc {
        Filter(a + b, keep);
        head + Filter(a[1..] + b, keep);
        head + (Filter(a[1..], keep) + Filter(b, keep));
        (head + Filter(a[1..], keep)) + Filter(b, keep);
      }
    }
  }

  /** `prev.filter(x => x !== id)`: every occurrence of `id` dropped. */
  function RemoveAll<T(==,!new)>(s: seq<T>, id: T): (r: seq<T>)
    ensures id !in r
    ensures forall x :: x != id ==> multiset(r)[x] == multiset(s)[x]
  {
    forall x | x != id ensures multiset(Filter(s, y => y != id))[x] == multiset(s)[x] {
      FilterCount(s, y => y != id, x);
    }
    Filter(s, y => y != id)
  }

  /** `s.map(key)`: for example the ids of a page of rows. */
  function Keys<T, K>(s: seq<T>, key: T -> K): (r: seq<K>)
    ensures |r| == |s|
    ensures forall i :: 0 <= i < |s| ==> r[i] == key(s[i])
  {
    seq(|s|, i requires 0 <= i < |s| => key(s[i]))
  }

  /**
   * `s.filter(x => key(x) !== k)`: every element with key `k` removed, every
   * other kept with its multiplicity and in its order.
   */
  function WithoutKey<T(==,!new), K(==)>(s: seq<T>, key: T -> K, k: K): (r: seq<T>)
    ensures forall x :: x in r <==> x in s && key(x) != k
    ensures forall x :: key(x) != k ==> multiset(r)[x] == multiset(s)[x]
    ensures IsSubsequence(r, s)
  {
    forall x | key(x) != k ensures multiset(Filter(s, y => key(y) != k))[x] == multiset(s)[x] {
      FilterCount(s, y => key(y) != k, x);
    }
    FilterIsSubsequence(s, y => key(y) != k);
    Filter(s, y => key(y) != k)
  }

  /** Removing the key of an element just appended, when no other element has it, gives the list back. */
  lemma WithoutKeyUndoesAppend<T(!new), K>(s: seq<T>, key: T -> K, a: T)
    requires forall x :: x in s ==> key(x) != key(a)
    ensures WithoutKey(s + [a], key, key(a)) == s
  {
    var keep := y => key(y) != key(a);
    FilterAppend(s, [a], keep);
    FilterKeepsAll(s, keep);
    assert [a][1..] == [];
  }

  /**
   * The row-select (and column-hide) toggle:
   * `prev.includes(id) ? prev.filter(x => x !== id) : [...prev, id]`.
   */
  function ToggleRow<T(==,!new)>(prev: seq<T>, id: T): (r: seq<T>)
    ensures id in r <==> id !in prev
    ensures forall x :: x != id ==> multiset(r)[x] == multiset(prev)[x]
    ensures id !in prev ==> r == prev + [id]
    ensures id in prev ==> IsSubsequence(r, prev)
  {
    if id in prev then
      FilterIsSubsequence(prev, x => x != id);
      RemoveAll(prev, id)
    else prev + [id]
  }

  /** Toggling an absent id twice restores the list exactly. */
  lemma ToggleRowTwice<T(!new)>(prev: seq<T>, id: T)
    requires id !in prev
    ensures ToggleRow(ToggleRow(prev, id), id) == prev
  {
    FilterAppend(prev, [id], x => x != id);
    FilterKeepsAll(prev, x => x != id);
  }

  /**
   * The select-all handler: clear the selection when its length equals
   * `compareTo`, otherwise select exactly `allIds`.
   */
  function SelectAll<T>(selected: seq<T>, compareTo: nat, allIds: seq<T>): (r: seq<T>)
    ensures |selected| == compareTo ==> r == []
    ensures |selected| != compareTo ==> r == allIds
  {
    if |selected| == compareTo then [] else allIds
  }

  /** `setMenuOpenId(menuOpenId === id ? null : id)`. */
  function ToggleMenu(open: Option<int>, id: int): (r: Option<int>)
    ensures r == Some(id) <==> open != Some(id)
    ensures r == None <==> open == Some(id)
  {
    if open == Some(id) then None else Some(id)
  }

  /** A closed menu opened and toggled again on the same row is closed. */
  lemma ToggleMenuTwice(open: Option<int>, id: int)
    requires open == None || open == Some(id)
    ensures ToggleMenu(ToggleMenu(open, id), id) == open
  {
  }

  /** `s.map(x => key(x) === key(upd) ? upd : x)`: every element with the key of `upd` replaced by it. */
  function ReplaceKey<T, K(==)>(s: seq<T>, key: T -> K, upd: T): (r: seq<T>)
    ensures |r| == |s|
    ensures forall i :: 0 <= i < |s| ==> r[i] == if key(s[i]) == key(upd) then upd else s[i]
  {
    seq(|s|, i requires 0 <= i < |s| => if key(s[i]) == key(upd) then upd else s[i])
  }

  /** A replacement leaves the elements with other keys, in order, as they were. */
  lemma {:induction false} ReplaceKeyKeepsOthers<T(!new), K>(s: seq<T>, key: T -> K, upd: T)
    ensures WithoutKey(ReplaceKey(s, key, upd), key, key(upd)) == WithoutKey(s, key, key(upd))
    decreases |s|
  {
    if s != [] {
      var r := ReplaceKey(s, key, upd);
      assert r[1..] == ReplaceKey(s[1..], key, upd);
      ReplaceKeyKeepsOthers(s[1..], key, upd);
    }
  }

  /** After a replacement `upd` is present exactly when an element with its key was. */
  lemma ReplaceKeyPresent<T(!new), K>(s: seq<T>, key: T -> K, upd: T)
    ensures upd in ReplaceKey(s, key, upd) <==> exists x :: x in s && key(x) == key(upd)
  {
    var r := ReplaceKey(s, key, upd);
    if exists x :: x in s && key(x) == key(upd) {
      var x :| x in s && key(x) == key(upd);
      var i :| 0 <= i < |s| && s[i] == x;
      assert r[i] == upd;
    }
    if upd in r {
      var i :| 0 <= i < |r| && r[i] == upd;
      assert s[i] in s;
    }
  }

  /** `s` has no repeated element. */
  predicate NoDuplicates<T(==,!new)>(s: seq<T>) {
    forall i, j :: 0 <= i < j < |s| ==> s[i] != s[j]
  }

  /** Position of the first occurrence of `x` in `s`. */
  function FirstIndex<T(==,!new)>(s: seq<T>, x: T): (i: nat)
    requires x in s
    ensures i < |s| && s[i] == x
    ensures forall j :: 0 <= j < i ==> s[j] != x
  {
    if s[0] == x then 0 else 1 + FirstIndex(s[1..], x)
  }

  /** `Array.from(new Set(s))`: a set iterates in insertion order. */
  function Dedup<T(==,!new)>(s: seq<T>): (r: seq<T>)
    ensures |r| <= |s|
    ensures forall x :: x in r ==> x in s
    decreases |s|
  {
    if s == [] then []
    else
      var d := Dedup(s[..|s| - 1]);
      if s[|s| - 1] in d then d else d + [s[|s| - 1]]
  }

  lemma {:induction false} FirstIndexOfPrefix<T(!new)>(s: seq<T>, x: T)
    requires s != [] && x in s[..|s| - 1]
    ensures FirstIndex(s, x) == FirstIndex(s[..|s| - 1], x)
  {
    var p := s[..|s| - 1];
    var i := FirstIndex(p, x);
    assert s[i] == x;
    var j := FirstIndex(s, x);
    assert j <= i;
    assert p[j] == s[j];
  }

  /**
   * The distinct values of `s`, each exactly once, in the order of their
   * first occurrence in `s`.
   */
  lemma {:induction false} DedupSpec<T(!new)>(s: seq<T>)
    ensures forall x :: x in Dedup(s) <==> x in s
    ensures NoDuplicates(Dedup(s))
    ensures forall i, j :: 0 <= i < j < |Dedup(s)| ==> FirstIndex(s, Dedup(s)[i]) < FirstIndex(s, Dedup(s)[j])
    decreases |s|
  {
    if s != [] {
      var p := s[..|s| - 1];
      var last := s[|s| - 1];
      DedupSpec(p);
      var d := Dedup(p);
      assert s == p + [last];
      forall x | x in d ensures FirstIndex(s, x) == FirstIndex(p, x) {
        FirstIndexOfPrefix(s, x);
      }
      if last !in d {
        assert last !in p;
        assert FirstIndex(s, last) == |s| - 1;
      }
    }
  }
}
