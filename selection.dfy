/** The chip-toggle idiom of the registration and profile forms:
    `list.includes(x) ? list.filter(y => y !== x) : [...list, x]`. */
module Selection {

  /** `s.filter(y => y !== x)`: no occurrence of `x` is left, and the list does
      not grow. */
  function Without<T(==)>(s: seq<T>, x: T): (r: seq<T>)
    ensures x !in r && |r| <= |s|
  {
    if s == [] then []
    else if s[0] == x then Without(s[1..], x) else [s[0]] + Without(s[1..], x)
  }

  /** The filter removes every occurrence of `x` and keeps every other element
      with its multiplicity. */
  lemma {:induction false} WithoutCounts<T>(s: seq<T>, x: T)
    ensures multiset(Without(s, x)) == multiset(s)[x := 0]
  {
    if s != [] {
      WithoutCounts(s[1..], x);
      assert s == [s[0]] + s[1..];
    }
  }

  /** One click on a chip: the item leaves the list if it is in it (every copy of
      it), and is appended at the end otherwise. */
  function Toggle<T(==)>(s: seq<T>, x: T): (r: seq<T>)
    ensures x in r <==> x !in s
    ensures x in s ==> multiset(r) == multiset(s)[x := 0]
    ensures x !in s ==> r == s + [x]
  {
    if x in s then
      WithoutCounts(s, x);
      Without(s, x)
    else s + [x]
  }

  predicate NoDuplicates<T(==)>(s: seq<T>) {
    forall i, j :: 0 <= i < j < |s| ==> s[i] != s[j]
  }

  /** Removing an item that is not there changes nothing. */
  lemma {:induction false} WithoutAbsent<T>(s: seq<T>, x: T)
    requires x !in s
    ensures Without(s, x) == s
  {
    if s != [] {
      WithoutAbsent(s[1..], x);
      assert [s[0]] + s[1..] == s;
    }
  }

  /** Filtering distributes over concatenation, so it keeps the surviving
      elements in their original order. */
  lemma {:induction false} WithoutAppend<T>(s: seq<T>, t: seq<T>, x: T)
    ensures Without(s + t, x) == Without(s, x) + Without(t, x)
  {
    if s == [] {
      assert s + t == t;
    } else {
      WithoutAppend(s[1..], t, x);
      assert s + t == [s[0]] + (s[1..] + t);
      WithoutCons(s[0], s[1..] + t, x);
      WithoutCons(s[0], s[1..], x);
      assert [s[0]] + s[1..] == s;
      if s[0] != x {
        assert [s[0]] + (Without(s[1..], x) + Without(t, x)) == ([s[0]] + Without(s[1..], x)) + Without(t, x);
      }
    }
  }

  /** Filtering a list with a known head. */
  lemma WithoutCons<T>(head: T, rest: seq<T>, x: T)
    ensures Without([head] + rest, x) == if head == x then Without(rest, x) else [head] + Without(rest, x)
  {
    var s := [head] + rest;
    assert s[0] == head && s[1..] == rest;
  }

  /** Clicking an unselected chip twice restores the list exactly. */
  lemma ToggleTwiceAbsent<T>(s: seq<T>, x: T)
    requires x !in s
    ensures Toggle(Toggle(s, x), x) == s
  {
    WithoutAppend(s, [x], x);
    WithoutAbsent(s, x);
    assert Without([x], x) == [];
  }

  /** A list without repeated items stays without repeated items under any
      number of toggles. */
  lemma {:induction false} TogglePreservesNoDuplicates<T>(s: seq<T>, x: T)
    requires NoDuplicates(s)
    ensures NoDuplicates(Toggle(s, x))
  {
    if x in s {
      WithoutNoDuplicates(s, x);
    }
  }

  lemma {:induction false} WithoutNoDuplicates<T>(s: seq<T>, x: T)
    requires NoDuplicates(s)
    ensures NoDuplicates(Without(s, x))
  {
    if s != [] {
      WithoutNoDuplicates(s[1..], x);
      var rest := Without(s[1..], x);
      if s[0] != x {
        WithoutCounts(s[1..], x);
        assert s[0] !in multiset(s[1..]);
        assert s[0] !in multiset(rest);
        assert s[0] !in rest;
      }
    }
  }
}
