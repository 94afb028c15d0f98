/**
 * The SwiftData model context the views write to, reduced to the
 * collection of live items. The app relies on three of its operations:
 * `insert`, `delete` and the `@Query` that lists every live item.
 */
module Store {
  import opened ListItemModel

  /** `@Attribute(.unique) var uuid`: no two live items share a uuid (and
      so no item is listed twice). */
  ghost predicate UniqueIds(s: seq<ListItem>)
    reads s
  {
    forall i, j :: 0 <= i < j < |s| ==> s[i].uuid != s[j].uuid
  }

  function Ids(s: seq<ListItem>): set<Uuid>
    reads s
  {
    set x | x in s :: x.uuid
  }

  /** `s` with every occurrence of the object `x` taken out. */
  function Without(s: seq<ListItem>, x: ListItem): (r: seq<ListItem>)
    ensures forall y :: y in r ==> y in s && y != x
    ensures forall y :: y in s && y != x ==> y in r
  {
    if s == [] then []
    else
      assert s == [s[0]] + s[1..];
      (if s[0] == x then [] else [s[0]]) + Without(s[1..], x)
  }

  /** Deleting an object drops all its occurrences and keeps the count
      of every other object. */
  lemma {:induction false} WithoutCounts(s: seq<ListItem>, x: ListItem)
    ensures multiset(Without(s, x)) == multiset(s)[x := 0]
  {
    if s != [] {
      assert s == [s[0]] + s[1..];
      WithoutCounts(s[1..], x);
    }
  }

  /** `s` with every item whose uuid is `u` taken out. */
  function WithoutId(s: seq<ListItem>, u: Uuid): (r: seq<ListItem>)
    reads s
    ensures forall y :: y in r ==> y in s && y.uuid != u
    ensures forall y :: y in s && y.uuid != u ==> y in r
  {
    if s == [] then []
    else
      assert s == [s[0]] + s[1..];
      (if s[0].uuid == u then [] else [s[0]]) + WithoutId(s[1..], u)
  }

  lemma UniqueCons(a: ListItem, t: seq<ListItem>)
    ensures UniqueIds([a] + t) <==> UniqueIds(t) && a.uuid !in Ids(t)
  {
    var s := [a] + t;
    assert s[0] == a;
    if UniqueIds(t) && a.uuid !in Ids(t) {
      forall i, j | 0 <= i < j < |s| ensures s[i].uuid != s[j].uuid {
        assert s[j] == t[j - 1];
        if i > 0 {
          assert s[i] == t[i - 1];
        } else {
          assert s[j] in t;
        }
      }
    }
    if UniqueIds(s) {
      forall i, j | 0 <= i < j < |t| ensures t[i].uuid != t[j].uuid {
        assert s[i + 1] == t[i] && s[j + 1] == t[j];
      }
      forall y | y in t ensures y.uuid != a.uuid {
        var k :| 0 <= k < |t| && t[k] == y;
        assert s[k + 1] == t[k];
      }
    }
  }

  /** Under unique ids, equal uuids mean the same object. */
  lemma UniqueIdsIdentify(s: seq<ListItem>, x: ListItem, y: ListItem)
    requires UniqueIds(s) && x in s && y in s && x.uuid == y.uuid
    ensures x == y
  {
    var i :| 0 <= i < |s| && s[i] == x;
    var j :| 0 <= j < |s| && s[j] == y;
    assert !(i < j) && !(j < i);
  }

  /** Under unique ids every live item occurs exactly once. */
  lemma {:induction false} UniqueCountsOnce(s: seq<ListItem>, x: ListItem)
    requires UniqueIds(s) && x in s
    ensures multiset(s)[x] == 1
  {
    assert s == [s[0]] + s[1..];
    UniqueCons(s[0], s[1..]);
    if s[0] == x {
      assert x !in s[1..] by {
        assert x.uuid !in Ids(s[1..]);
      }
    } else {
      UniqueCountsOnce(s[1..], x);
    }
  }

  lemma {:induction false} WithoutAbsent(s: seq<ListItem>, x: ListItem)
    requires x !in s
    ensures Without(s, x) == s
  {
    if s != [] {
      WithoutAbsent(s[1..], x);
      assert s == [s[0]] + s[1..];
    }
  }

  /** Deleting an item keeps ids unique. */
  lemma {:induction false} WithoutKeepsUnique(s: seq<ListItem>, x: ListItem)
    requires UniqueIds(s)
    ensures UniqueIds(Without(s, x))
  {
    if s != [] {
      assert s == [s[0]] + s[1..];
      UniqueCons(s[0], s[1..]);
      WithoutKeepsUnique(s[1..], x);
      if s[0] != x {
        var t := Without(s[1..], x);
        assert Without(s, x) == [s[0]] + t;
        forall y | y in t ensures y.uuid != s[0].uuid {
          assert y in s[1..];
        }
        UniqueCons(s[0], t);
      }
    }
  }

  /** Deleting a live item removes exactly one entry and exactly its uuid. */
  lemma {:induction false} WithoutLiveItem(s: seq<ListItem>, x: ListItem)
    requires UniqueIds(s) && x in s
    ensures Ids(Without(s, x)) == Ids(s) - {x.uuid}
    ensures |Without(s, x)| == |s| - 1
  {
    assert s == [s[0]] + s[1..];
    UniqueCons(s[0], s[1..]);
    if s[0] == x {
      assert x !in s[1..];
      WithoutAbsent(s[1..], x);
    } else {
      WithoutLiveItem(s[1..], x);
    }
    forall y | y in Without(s, x) ensures y.uuid != x.uuid {
      if y.uuid == x.uuid { UniqueIdsIdentify(s, x, y); }
    }
    forall u | u in Ids(s) - {x.uuid} ensures u in Ids(Without(s, x)) {
      var y :| y in s && y.uuid == u;
      assert y in Without(s, x);
    }
  }

  /** Deleting an object whose uuid, when live, is carried only by that
      object drops exactly that uuid. */
  lemma DeleteDropsId(s: seq<ListItem>, x: ListItem)
    requires UniqueIds(s) && (x.uuid in Ids(s) ==> x in s)
    ensures Ids(Without(s, x)) == Ids(s) - {x.uuid}
  {
    if x in s {
      WithoutLiveItem(s, x);
    } else {
      WithoutAbsent(s, x);
    }
  }

  /** Deleting a live item and appending it again gives back the same
      contents and the same uuids. */
  lemma WithoutThenAppend(s: seq<ListItem>, x: ListItem)
    requires UniqueIds(s) && x in s
    ensures multiset(Without(s, x) + [x]) == multiset(s)
    ensures Ids(Without(s, x) + [x]) == Ids(s)
  {
    WithoutThenAppendCounts(s, x);
    WithoutLiveItem(s, x);
    var w := Without(s, x);
    assert Ids(w + [x]) == Ids(w) + {x.uuid} by {
      assert forall y :: y in w + [x] <==> y in w || y == x;
    }
  }

  lemma WithoutThenAppendCounts(s: seq<ListItem>, x: ListItem)
    requires UniqueIds(s) && x in s
    ensures multiset(Without(s, x) + [x]) == multiset(s)
  {
    UniqueCountsOnce(s, x);
    WithoutCounts(s, x);
    var w := Without(s, x);
    forall y ensures multiset(w + [x])[y] == multiset(s)[y] {
      assert multiset(w + [x]) == multiset(w) + multiset{x};
    }
  }

  /** Dropping a uuid keeps ids unique. */
  lemma {:induction false} WithoutIdKeepsUnique(s: seq<ListItem>, u: Uuid)
    requires UniqueIds(s)
    ensures UniqueIds(WithoutId(s, u))
  {
    if s != [] {
      assert s == [s[0]] + s[1..];
      UniqueCons(s[0], s[1..]);
      WithoutIdKeepsUnique(s[1..], u);
      if s[0].uuid != u {
        var t := WithoutId(s[1..], u);
        assert WithoutId(s, u) == [s[0]] + t;
        UniqueCons(s[0], t);
      }
    }
  }

  lemma WithoutIdIds(s: seq<ListItem>, u: Uuid)
    ensures Ids(WithoutId(s, u)) == Ids(s) - {u}
  {
    forall v | v in Ids(s) - {u} ensures v in Ids(WithoutId(s, u)) {
      var y :| y in s && y.uuid == v;
      assert y in WithoutId(s, u);
    }
  }

  /** Inserting `x` after dropping its uuid keeps ids unique. */
  lemma InsertKeepsUnique(s: seq<ListItem>, x: ListItem)
    requires UniqueIds(s)
    ensures UniqueIds(WithoutId(s, x.uuid) + [x])
    ensures Ids(WithoutId(s, x.uuid) + [x]) == Ids(s) + {x.uuid}
  {
    var r := WithoutId(s, x.uuid);
    WithoutIdKeepsUnique(s, x.uuid);
    WithoutIdIds(s, x.uuid);
    var t := r + [x];
    forall i, j | 0 <= i < j < |t| ensures t[i].uuid != t[j].uuid {
      if j == |r| {
        assert t[i] == r[i];
        assert r[i].uuid in Ids(r);
      } else {
        assert t[i] == r[i] && t[j] == r[j];
      }
    }
    assert Ids(t) == Ids(r) + {x.uuid} by {
      assert forall y :: y in t <==> y in r || y == x;
    }
  }

  /** Dropping a uuid that no live item carries changes nothing. */
  lemma {:induction false} WithoutAbsentId(s: seq<ListItem>, u: Uuid)
    requires u !in Ids(s)
    ensures WithoutId(s, u) == s
  {
    if s != [] {
      WithoutAbsentId(s[1..], u);
      assert s == [s[0]] + s[1..];
    }
  }

  class ModelContext {
    /** Every item the `@Query` of the views lists. Their order is left
        to the store; the views sort it themselves. */
    var live: seq<ListItem>

    ghost predicate Valid()
      reads this, live
    {
      UniqueIds(live)
    }

    constructor ()
      ensures Valid() && live == []
    {
      live := [];
    }

    /** `modelContext.insert(x)`. Under the unique-uuid attribute an
        insert replaces any item with the same uuid. */
    method Insert(x: ListItem)
      requires Valid()
      modifies this
      ensures Valid()
      ensures live == WithoutId(old(live), x.uuid) + [x]
    {
      InsertKeepsUnique(live, x);
      live := WithoutId(live, x.uuid) + [x];
    }

    /** `modelContext.delete(x)`. */
    method Delete(x: ListItem)
      requires Valid()
      modifies this
      ensures Valid()
      ensures live == Without(old(live), x)
    {
      WithoutKeepsUnique(live, x);
      live := Without(live, x);
    }
  }
}
