/**
 * The `QList`/`QListWidget` operations the dock performs on its lists:
 * removing the first occurrence of an item (`QList::removeOne`, and
 * `takeItem` on the first row `findItems` reports), and moving an item to the
 * top of a view without duplicating it.
 */
module Lists {

  /** No item occurs twice: the head is not in the tail, and so on down the list. */
  predicate NoDuplicates<T(==)>(s: seq<T>)
  {
    s == [] || (s[0] !in s[1..] && NoDuplicates(s[1..]))
  }

  /** The same, position by position: no two positions hold equal items. */
  lemma {:induction false} NoDuplicatesByIndex<T>(s: seq<T>)
    ensures NoDuplicates(s) <==> forall i, j :: 0 <= i < j < |s| ==> s[i] != s[j]
  {
    if s != [] {
      NoDuplicatesByIndex(s[1..]);
      if NoDuplicates(s) {
        forall i, j | 0 <= i < j < |s|
          ensures s[i] != s[j]
        {
          assert s[j] == s[1..][j - 1];
          if i > 0 {
            assert s[i] == s[1..][i - 1];
          }
        }
      }
      if forall i, j :: 0 <= i < j < |s| ==> s[i] != s[j] {
        forall k | 0 <= k < |s[1..]|
          ensures s[1..][k] != s[0]
        {
          assert s[1..][k] == s[k + 1];
        }
        forall i, j | 0 <= i < j < |s[1..]|
          ensures s[1..][i] != s[1..][j]
        {
          assert s[1..][i] == s[i + 1] && s[1..][j] == s[j + 1];
        }
      }
    }
  }

  /** The items of a list, as a set. */
  function Elements<T>(s: seq<T>): set<T>
  {
    set x | x in s
  }

  /** Appending an item the list does not hold keeps it duplicate-free. */
  lemma AppendNewNoDuplicates<T>(s: seq<T>, x: T)
    requires NoDuplicates(s) && x !in s
    ensures NoDuplicates(s + [x])
  {
    NoDuplicatesByIndex(s);
    NoDuplicatesByIndex(s + [x]);
    var r := s + [x];
    forall i, j | 0 <= i < j < |r|
      ensures r[i] != r[j]
    {
      assert r[i] == s[i];
      if j < |s| {
        assert r[j] == s[j];
      }
    }
  }

  /** The index of the first occurrence of `x`. */
  function IndexOf<T(==)>(s: seq<T>, x: T): (i: nat)
    requires x in s
    ensures i < |s| && s[i] == x && x !in s[..i]
  {
    if s[0] == x then 0
    else
      var j := IndexOf(s[1..], x);
      assert s[..j + 1] == [s[0]] + s[1..][..j];
      j + 1
  }

  /**
   * `QList::removeOne`: `s` with its first occurrence of `x` cut out, the rest
   * in the same order; `s` itself when `x` does not occur.
   */
  function RemoveFirst<T(==)>(s: seq<T>, x: T): (r: seq<T>)
    ensures x !in s ==> r == s
    ensures x in s ==> |r| == |s| - 1 && multiset(r) == multiset(s) - multiset{x}
    ensures x in s ==> forall k :: 0 <= k < |r| ==> r[k] == if k < IndexOf(s, x) then s[k] else s[k + 1]
  {
    if x !in s then s
    else
      var i := IndexOf(s, x);
      assert s == s[..i] + [x] + s[i + 1..];
      s[..i] + s[i + 1..]
  }

  /** Cutting an item out of a duplicate-free list keeps it duplicate-free and removes the item entirely. */
  lemma RemoveFirstNoDuplicates<T>(s: seq<T>, x: T)
    requires NoDuplicates(s)
    ensures NoDuplicates(RemoveFirst(s, x))
    ensures x !in RemoveFirst(s, x)
  {
    var r := RemoveFirst(s, x);
    NoDuplicatesByIndex(s);
    NoDuplicatesByIndex(r);
    if x in s {
      var i := IndexOf(s, x);
      forall a, b | 0 <= a < b < |r|
        ensures r[a] != r[b]
      {
        var a' := if a < i then a else a + 1;
        var b' := if b < i then b else b + 1;
        assert r[a] == s[a'] && r[b] == s[b'] && a' < b';
      }
      forall k | 0 <= k < |r|
        ensures r[k] != x
      {
        var k' := if k < i then k else k + 1;
        assert r[k] == s[k'] && s[i] == x && k' != i;
      }
    }
  }

  /**
   * The history view's move-to-top: `item` ends up in row 0, an earlier row
   * holding it is removed first, and the other rows keep their order.
   */
  function MoveToFront<T(==)>(view: seq<T>, item: T): (r: seq<T>)
    ensures |r| > 0 && r[0] == item
    ensures multiset(r) == if item in view then multiset(view) else multiset(view) + multiset{item}
    ensures r[1..] == RemoveFirst(view, item)
  {
    [item] + RemoveFirst(view, item)
  }

  /** Moving an item to the top of a duplicate-free view leaves exactly one copy of it, at the top. */
  lemma MoveToFrontKeepsOneCopy<T>(view: seq<T>, item: T)
    requires NoDuplicates(view)
    ensures NoDuplicates(MoveToFront(view, item))
    ensures multiset(MoveToFront(view, item))[item] == 1
  {
    RemoveFirstNoDuplicates(view, item);
    var r := MoveToFront(view, item);
    assert r == [item] + RemoveFirst(view, item);
    assert r[1..] == RemoveFirst(view, item);
    assert multiset(RemoveFirst(view, item))[item] == 0;
  }

  /** The selected names removed from `s` one after the other, first occurrence each. */
  function RemoveEach<T(==)>(s: seq<T>, names: seq<T>): (r: seq<T>)
    ensures |r| <= |s|
  {
    if names == [] then s
    else RemoveFirst(RemoveEach(s, names[..|names| - 1]), names[|names| - 1])
  }

  /** From a duplicate-free list, removing each selected name removes all of them and keeps it duplicate-free. */
  lemma {:induction false} RemoveEachRemovesAll<T>(s: seq<T>, names: seq<T>)
    requires NoDuplicates(s)
    ensures NoDuplicates(RemoveEach(s, names))
    ensures forall n :: n in names ==> n !in RemoveEach(s, names)
    decreases |names|
  {
    if names != [] {
      var init := names[..|names| - 1];
      var last := names[|names| - 1];
      RemoveEachRemovesAll(s, init);
      var p := RemoveEach(s, init);
      RemoveFirstNoDuplicates(p, last);
      forall n | n in names
        ensures n !in RemoveEach(s, names)
      {
        if n != last {
          assert n in init;
          assert multiset(RemoveFirst(p, last))[n] <= multiset(p)[n];
        }
      }
    }
  }
}
