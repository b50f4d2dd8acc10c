/** The dashboard's list of recent searches: most recent first, at most five,
    no two entries equal up to letter case. */
module RecentSearches {
  import Js

  /** The number of entries the list keeps at most. */
  const MaxRecent: nat := 5

  /** Two city names match when they are equal after `toLowerCase`. */
  predicate SameCity(a: string, b: string)
  {
    Js.Lower(a) == Js.Lower(b)
  }

  /** No two entries of `list` match. */
  predicate NoCaseDuplicates(list: seq<string>)
  {
    forall i, j :: 0 <= i < j < |list| ==> !SameCity(list[i], list[j])
  }

  /** `list.filter(c => c.toLowerCase() !== city.toLowerCase())`. */
  function Without(list: seq<string>, city: string): (r: seq<string>)
    ensures |r| <= |list|
    ensures forall x :: x in r <==> x in list && !SameCity(x, city)
  {
    if list == [] then []
    else (if SameCity(list[0], city) then [] else [list[0]]) + Without(list[1..], city)
  }

  /** The list after searching for `city`. */
  function UpdateRecent(list: seq<string>, city: string): (r: seq<string>)
    ensures 1 <= |r| <= MaxRecent
    ensures r[0] == city
    ensures forall i :: 1 <= i < |r| ==> !SameCity(r[i], city)
  {
    Js.Take([city] + Without(list, city), MaxRecent)
  }

  // ---------------------------------------------------------------------
  // Properties of the filter

  /** The filter works element by element, keeping order. */
  lemma {:induction false} WithoutAppend(a: seq<string>, b: seq<string>, city: string)
    ensures Without(a + b, city) == Without(a, city) + Without(b, city)
    decreases |a|
  {
    if a != [] {
      assert (a + b)[0] == a[0];
      assert (a + b)[1..] == a[1..] + b;
      WithoutAppend(a[1..], b, city);
    } else {
      assert a + b == b;
    }
  }

  /** The filter keeps a list none of whose entries match. */
  lemma {:induction false} WithoutNoMatch(list: seq<string>, city: string)
    requires forall i :: 0 <= i < |list| ==> !SameCity(list[i], city)
    ensures Without(list, city) == list
    decreases |list|
  {
    if list != [] {
      WithoutNoMatch(list[1..], city);
    }
  }

  /** Filtering cannot create a duplicate. */
  lemma {:induction false} WithoutNoCaseDuplicates(list: seq<string>, city: string)
    requires NoCaseDuplicates(list)
    ensures NoCaseDuplicates(Without(list, city))
    decreases |list|
  {
    if list != [] {
      var tail := list[1..];
      assert NoCaseDuplicates(tail) by {
        forall i, j | 0 <= i < j < |tail| ensures !SameCity(tail[i], tail[j]) {
          assert tail[i] == list[i + 1] && tail[j] == list[j + 1];
        }
      }
      WithoutNoCaseDuplicates(tail, city);
      var rest := Without(tail, city);
      if !SameCity(list[0], city) {
        var r := [list[0]] + rest;
        forall i, j | 0 <= i < j < |r| ensures !SameCity(r[i], r[j]) {
          if i == 0 {
            assert r[j] == rest[j - 1];
            assert rest[j - 1] in tail;
            var k :| 0 <= k < |tail| && tail[k] == rest[j - 1];
            assert list[k + 1] == tail[k];
          } else {
            assert r[i] == rest[i - 1] && r[j] == rest[j - 1];
          }
        }
      }
    }
  }

  // ---------------------------------------------------------------------
  // Properties of the update

  /** After the new first entry come the old entries that do not match it,
      in their old order, cut to four. */
  lemma UpdateRecentKeepsOrder(list: seq<string>, city: string)
    ensures UpdateRecent(list, city)[1..] == Js.Take(Without(list, city), MaxRecent - 1)
  {
  }

  /** The update keeps the list free of case-insensitive duplicates. */
  lemma UpdateRecentNoCaseDuplicates(list: seq<string>, city: string)
    requires NoCaseDuplicates(list)
    ensures NoCaseDuplicates(UpdateRecent(list, city))
  {
    WithoutNoCaseDuplicates(list, city);
    var r := UpdateRecent(list, city);
    var w := Without(list, city);
    forall i, j | 0 <= i < j < |r| ensures !SameCity(r[i], r[j]) {
      if i == 0 {
        assert r[j] == w[j - 1];
        assert SameCity(r[j], city) == SameCity(city, r[j]);
      } else {
        assert r[i] == w[i - 1] && r[j] == w[j - 1];
      }
    }
  }

  /** Searching for the same city twice in a row is searching once. */
  lemma UpdateRecentIdempotent(list: seq<string>, city: string)
    ensures UpdateRecent(UpdateRecent(list, city), city) == UpdateRecent(list, city)
  {
    var r := UpdateRecent(list, city);
    assert r == [city] + r[1..];
    WithoutAppend([city], r[1..], city);
    assert Without([city], city) == [];
    WithoutNoMatch(r[1..], city);
  }

  /** `["Paris", "Tokyo"]` updated with `"paris"` is `["paris", "Tokyo"]`. */
  lemma UpdateRecentExample()
    ensures UpdateRecent(["Paris", "Tokyo"], "paris") == ["paris", "Tokyo"]
  {
    assert Js.Lower("Paris") == "paris";
    assert Js.Lower("paris") == "paris";
    assert Js.Lower("Tokyo") == "tokyo";
    assert Without(["Tokyo"], "paris") == ["Tokyo"];
    assert Without(["Paris", "Tokyo"], "paris") == ["Tokyo"];
  }

  // ---------------------------------------------------------------------
  // The list as page state

  /** The page's `recentSearches` state. */
  class RecentSearchList {
    var items: seq<string>

    ghost predicate Valid()
      reads this
    {
      |items| <= MaxRecent && NoCaseDuplicates(items)
    }

    constructor ()
      ensures Valid() && items == []
    {
      items := [];
    }

    /** `handleSearch`'s update of the list. */
    method Search(city: string)
      modifies this
      ensures items == UpdateRecent(old(items), city)
      ensures |items| <= MaxRecent
      ensures old(Valid()) ==> Valid()
    {
      if Valid() {
        UpdateRecentNoCaseDuplicates(items, city);
      }
      items := UpdateRecent(items, city);
    }

    /** `handleClearRecent`. */
    method Clear()
      modifies this
      ensures Valid() && items == []
    {
      items := [];
    }
  }
}
