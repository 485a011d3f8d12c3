/**
 * Connection handles and the lists of handles held under each key of the
 * role index. A PHP array keyed by handle keeps its keys in insertion order,
 * each key once; a sequence without duplicates models it.
 */
module Handles {
  import opened Wrappers

  /** Stands in for `spl_object_hash($conn)`: unique among open connections. */
  type Handle = nat

  predicate NoDup(s: seq<Handle>)
  {
    forall i, j :: 0 <= i < j < |s| ==> s[i] != s[j]
  }

  lemma ConcatAssoc<T>(a: seq<T>, b: seq<T>, c: seq<T>)
    ensures (a + b) + c == a + (b + c)
  {
  }

  lemma PairConcat<T>(x: T, y: T)
    ensures [x] + [y] == [x, y]
  {
  }

  lemma EmptyConcat<T>(s: seq<T>)
    ensures [] + s == s && s + [] == s
  {
  }

  lemma {:induction false} NoDupSnoc(s: seq<Handle>, x: Handle)
    requires NoDup(s) && x !in s
    ensures NoDup(s + [x])
  {
    forall i, j | 0 <= i < j < |s + [x]|
      ensures (s + [x])[i] != (s + [x])[j]
    {
      if j == |s| {
        assert (s + [x])[i] == s[i];
      }
    }
  }

  /**
   * `$list[$id] = $conn`: storing under a key that is already there keeps
   * the list as it is; a new key goes to the end.
   */
  function KeyedInsert(s: seq<Handle>, h: Handle): (r: seq<Handle>)
    ensures forall x :: x in r <==> x in s || x == h
    ensures s <= r && |r| <= |s| + 1
  {
    if h in s then s else s + [h]
  }

  lemma KeyedInsertNoDup(s: seq<Handle>, h: Handle)
    requires NoDup(s)
    ensures NoDup(KeyedInsert(s, h))
  {
    if h !in s {
      NoDupSnoc(s, h);
    }
  }

  /**
   * The list without `h`, in its original order; with no handle given, the
   * list itself. It models `unset($list[$id])` and also the iteration over a
   * list that skips the sender.
   */
  function Except(s: seq<Handle>, h: Option<Handle>): (r: seq<Handle>)
    ensures |r| <= |s|
    ensures h.Some? ==> h.value !in r
  {
    if s == [] then []
    else
      var last := s[|s| - 1];
      assert s == s[..|s| - 1] + [last];
      Except(s[..|s| - 1], h) + (if Some(last) == h then [] else [last])
  }

  /** What is left is exactly the list without `h`. */
  lemma {:induction false} ExceptMembership(s: seq<Handle>, h: Option<Handle>)
    ensures forall x :: x in Except(s, h) <==> x in s && Some(x) != h
    decreases |s|
  {
    if s != [] {
      var init, last := s[..|s| - 1], s[|s| - 1];
      assert s == init + [last];
      ExceptMembership(init, h);
    }
  }

  lemma {:induction false} ExceptNoDup(s: seq<Handle>, h: Option<Handle>)
    requires NoDup(s)
    ensures NoDup(Except(s, h))
  {
    if s != [] {
      var init, last := s[..|s| - 1], s[|s| - 1];
      assert NoDup(init) by {
        forall i, j | 0 <= i < j < |init| ensures init[i] != init[j] {
          assert init[i] == s[i] && init[j] == s[j];
        }
      }
      assert last !in init by {
        forall i | 0 <= i < |init| ensures init[i] != last {
          assert init[i] == s[i];
        }
      }
      ExceptNoDup(init, h);
      ExceptMembership(init, h);
      if Some(last) != h {
        NoDupSnoc(Except(init, h), last);
      }
    }
  }

  lemma ExceptOne(x: Handle, h: Option<Handle>)
    ensures Except([x], h) == if Some(x) == h then [] else [x]
  {
    assert [x][..0] == [];
  }

  lemma ExceptTwo(x: Handle, y: Handle, h: Option<Handle>)
    ensures Except([x, y], h) == Except([x], h) + (if Some(y) == h then [] else [y])
  {
    assert [x, y][..1] == [x];
  }
}
