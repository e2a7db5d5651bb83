/**
 * The `links` array of a waypoint as a value: an ordered sequence kept free
 * of repeats by `add(link:)`, grown element by element by `add(links:)` and
 * shrunk by `remove(Link:)`. The methods of `GPXWaypoint.Waypoint` are proved
 * against these functions.
 */
module LinkList {

  predicate NoDuplicates<T(==)>(s: seq<T>)
  {
    forall i, j :: 0 <= i < j < |s| ==> s[i] != s[j]
  }

  /** `links` after `add(link:)` of a non-nil `x`: appended unless already present. */
  function Appended<T(==)>(s: seq<T>, x: T): (r: seq<T>)
    ensures s <= r && x in r
    ensures |r| == if x in s then |s| else |s| + 1
    ensures forall k :: |s| <= k < |r| ==> r[k] == x
    ensures NoDuplicates(s) ==> NoDuplicates(r)
  {
    if x in s then s else s + [x]
  }

  /** Adding the same element twice is adding it once. */
  lemma AppendedIdempotent<T>(s: seq<T>, x: T)
    ensures Appended(Appended(s, x), x) == Appended(s, x)
  {
  }

  /** `links` after `add(links:)`: `Appended` once per element, in input order. */
  function AppendEach<T(==)>(s: seq<T>, xs: seq<T>): seq<T>
    decreases |xs|
  {
    if xs == [] then s else Appended(AppendEach(s, xs[..|xs| - 1]), xs[|xs| - 1])
  }

  /**
   * The elements of `xs` that `s` does not hold, each once, in the order of
   * their first occurrence in `xs`.
   */
  function NewElements<T(==)>(s: seq<T>, xs: seq<T>): seq<T>
    decreases |xs|
  {
    if xs == [] then []
    else
      var x := xs[0];
      if x in s then NewElements(s, xs[1..]) else [x] + NewElements(s + [x], xs[1..])
  }

  /**
   * Adding a list of elements keeps the old ones in front and appends the new
   * ones, without repeats, in input order.
   */
  lemma {:induction false} AppendEachIsNewElements<T>(s: seq<T>, xs: seq<T>)
    ensures AppendEach(s, xs) == s + NewElements(s, xs)
    decreases |xs|
  {
    if xs != [] {
      var x := xs[0];
      var s' := Appended(s, x);
      AppendEachCons(s, x, xs[1..]);
      assert xs == [x] + xs[1..];
      AppendEachIsNewElements(s', xs[1..]);
      if x !in s {
        assert s' + NewElements(s', xs[1..]) == s + ([x] + NewElements(s', xs[1..]));
      }
    }
  }

  /** Adding `x` and then `xs` is adding `[x] + xs`. */
  lemma {:induction false} AppendEachCons<T>(s: seq<T>, x: T, xs: seq<T>)
    ensures AppendEach(s, [x] + xs) == AppendEach(Appended(s, x), xs)
    decreases |xs|
  {
    if xs == [] {
      assert ([x] + xs)[..0] == [];
    } else {
      var n := |xs|;
      assert ([x] + xs)[..n] == [x] + xs[..n - 1];
      assert ([x] + xs)[n] == xs[n - 1];
      AppendEachCons(s, x, xs[..n - 1]);
    }
  }

  /** What the new elements are: exactly those of `xs` outside `s`, each once. */
  lemma {:induction false} NewElementsMembers<T>(s: seq<T>, xs: seq<T>)
    ensures forall y :: y in NewElements(s, xs) <==> y in xs && y !in s
    ensures NoDuplicates(NewElements(s, xs))
    decreases |xs|
  {
    if xs != [] {
      var x := xs[0];
      var tail := xs[1..];
      assert xs == [x] + tail;
      if x in s {
        NewElementsMembers(s, tail);
      } else {
        NewElementsMembers(s + [x], tail);
        var r := NewElements(s + [x], tail);
        assert x !in r;
        assert NoDuplicates([x] + r) by {
          forall i, j | 0 <= i < j < |[x] + r| ensures ([x] + r)[i] != ([x] + r)[j] {
            if i > 0 {
              assert ([x] + r)[i] == r[i - 1];
            }
            assert ([x] + r)[j] == r[j - 1];
          }
        }
      }
    }
  }

  /** When the new elements are all new and distinct, they are appended unchanged. */
  lemma {:induction false} NewElementsOfFresh<T>(s: seq<T>, xs: seq<T>)
    requires NoDuplicates(xs)
    requires forall y :: y in xs ==> y !in s
    ensures NewElements(s, xs) == xs
    decreases |xs|
  {
    if xs != [] {
      var x := xs[0];
      var tail := xs[1..];
      assert xs == [x] + tail;
      assert x !in tail by {
        forall j | 0 <= j < |tail| ensures tail[j] != x {
          assert tail[j] == xs[j + 1];
        }
      }
      assert NoDuplicates(tail) by {
        forall i, j | 0 <= i < j < |tail| ensures tail[i] != tail[j] {
          assert tail[i] == xs[i + 1] && tail[j] == xs[j + 1];
        }
      }
      NewElementsOfFresh(s + [x], tail);
    }
  }

  /** After adding a list, the collection holds exactly the old elements and the added ones. */
  lemma AppendEachMembers<T>(s: seq<T>, xs: seq<T>)
    ensures forall y :: y in AppendEach(s, xs) <==> y in s || y in xs
  {
    AppendEachIsNewElements(s, xs);
    NewElementsMembers(s, xs);
  }

  /** Adding a list keeps the collection free of repeats. */
  lemma AppendEachNoDuplicates<T>(s: seq<T>, xs: seq<T>)
    requires NoDuplicates(s)
    ensures NoDuplicates(AppendEach(s, xs))
    ensures forall y :: y in AppendEach(s, xs) <==> y in s || y in xs
  {
    AppendEachMembers(s, xs);
    AppendEachIsNewElements(s, xs);
    NewElementsMembers(s, xs);
    var n := NewElements(s, xs);
    forall i, j | 0 <= i < j < |s + n| ensures (s + n)[i] != (s + n)[j] {
      if j >= |s| {
        assert (s + n)[j] == n[j - |s|];
        assert n[j - |s|] in n;
        if i >= |s| {
          assert (s + n)[i] == n[i - |s|];
        } else {
          assert (s + n)[i] in s;
        }
      }
    }
  }

  /** The first position of `x` in `s` (Swift's `firstIndex(of:)`). */
  function IndexOf<T(==)>(s: seq<T>, x: T): (i: nat)
    requires x in s
    ensures i < |s| && s[i] == x
    ensures x !in s[..i]
  {
    if s[0] == x then 0
    else
      assert s == [s[0]] + s[1..];
      1 + IndexOf(s[1..], x)
  }

  /** `links` after `remove(Link:)` of `x`: its first occurrence goes, if there is one. */
  function Removed<T(==)>(s: seq<T>, x: T): seq<T>
  {
    if x in s then s[..IndexOf(s, x)] + s[IndexOf(s, x) + 1..] else s
  }

  /**
   * Removing a contained element drops the length by one and keeps the
   * others in their relative order; removing an absent one changes nothing.
   */
  lemma RemovedContents<T>(s: seq<T>, x: T)
    ensures x !in s ==> Removed(s, x) == s
    ensures x in s ==> |Removed(s, x)| == |s| - 1
    ensures x in s ==>
      var i := IndexOf(s, x);
      Removed(s, x)[..i] == s[..i] && Removed(s, x)[i..] == s[i + 1..]
  {
    if x in s {
      var i := IndexOf(s, x);
      var r := Removed(s, x);
      assert r == s[..i] + s[i + 1..];
      assert r[..i] == s[..i];
      assert r[i..] == s[i + 1..];
    }
  }

  /** Removal takes away exactly one copy of a contained element. */
  lemma RemovedMultiset<T>(s: seq<T>, x: T)
    ensures x in s ==> multiset(Removed(s, x)) == multiset(s) - multiset{x}
  {
    if x in s {
      var i := IndexOf(s, x);
      assert s == s[..i] + [x] + s[i + 1..];
      calc {
        multiset(s);
        multiset(s[..i]) + multiset{x} + multiset(s[i + 1..]);
        multiset(Removed(s, x)) + multiset{x};
      }
    }
  }

  /** Without repeats, removal takes the element out for good and keeps the rest distinct. */
  lemma RemovedNoDuplicates<T>(s: seq<T>, x: T)
    requires NoDuplicates(s)
    ensures NoDuplicates(Removed(s, x))
    ensures x !in Removed(s, x)
    ensures forall y :: y != x ==> (y in Removed(s, x) <==> y in s)
  {
    if x in s {
      var i := IndexOf(s, x);
      var r := Removed(s, x);
      assert |r| == |s| - 1;
      forall k | 0 <= k < |r| ensures r[k] == s[if k < i then k else k + 1] {
        if k < i {
          assert r[k] == s[..i][k];
        } else {
          assert r[k] == s[i + 1..][k - i];
        }
      }
      forall k | 0 <= k < |r| ensures r[k] != x {
        assert s[i] == x;
      }
      forall y | y != x && y in s ensures y in r {
        var j :| 0 <= j < |s| && s[j] == y;
        assert j != i;
        assert r[if j < i then j else j - 1] == y;
      }
    }
  }

  /** Removing what was just added restores the collection. */
  lemma RemovedAppended<T>(s: seq<T>, x: T)
    requires x !in s
    ensures Removed(Appended(s, x), x) == s
  {
    var t := s + [x];
    assert t[|s|] == x;
    assert t[..|s|] == s;
    var i := IndexOf(t, x);
    assert i == |s|;
  }
}
