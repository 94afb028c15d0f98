/**
 * The integrity check of Utils/DataManager.swift. `DataManager` holds no
 * state, so its operation is a method of the module.
 */
module Integrity {
  import opened Strings
  import opened ListItemModel
  import opened Store

  /** Every live item's title has something besides whitespace. */
  predicate TitlesPresent(s: seq<ListItem>)
    reads s
  {
    forall i :: 0 <= i < |s| ==> Trim(s[i].title) != []
  }

  /** `validateDataIntegrity(_:)`: fetches every item and fails at the
      first whose trimmed title is empty. Whether the fetch succeeds is
      the `fetchSucceeds` argument; a failed fetch fails the check. */
  method ValidateDataIntegrity(context: ModelContext, fetchSucceeds: bool) returns (valid: bool)
    ensures valid <==> fetchSucceeds && TitlesPresent(context.live)
    ensures valid <==> fetchSucceeds && forall x :: x in context.live ==> !IsBlank(x.title)
  {
    if !fetchSucceeds {
      return false;
    }
    var items := context.live;
    var i := 0;
    while i < |items|
      invariant 0 <= i <= |items|
      invariant forall k :: 0 <= k < i ==> Trim(items[k].title) != []
    {
      if Trim(items[i].title) == [] {
        assert !TitlesPresent(items);
        return false;
      }
      i := i + 1;
    }
    return true;
  }

  /** An empty store passes. */
  lemma EmptyStoreIsValid()
    ensures TitlesPresent([])
  {
  }

  /** Deleting any item keeps the check passing. */
  lemma DeleteKeepsTitlesPresent(s: seq<ListItem>, x: ListItem)
    requires TitlesPresent(s)
    ensures TitlesPresent(Without(s, x))
  {
    var r := Without(s, x);
    forall i | 0 <= i < |r| ensures Trim(r[i].title) != [] {
      assert r[i] in s;
    }
  }

  /** Inserting an item with a present title keeps the check passing. */
  lemma InsertKeepsTitlesPresent(s: seq<ListItem>, x: ListItem)
    requires TitlesPresent(s) && Trim(x.title) != []
    ensures TitlesPresent(WithoutId(s, x.uuid) + [x])
  {
    var r := WithoutId(s, x.uuid) + [x];
    forall i | 0 <= i < |r| ensures Trim(r[i].title) != [] {
      if i < |r| - 1 {
        assert r[i] in WithoutId(s, x.uuid);
      }
    }
  }
}
