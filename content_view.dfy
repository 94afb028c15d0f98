/**
 * The main list screen (ContentView.swift): the filter/sort pipeline
 * behind `items`, the choice of what the screen shows, the single-slot
 * undo buffer of `deleteItems` / `undoDelete`, and the row's done toggle.
 */
module ContentScreen {
  import opened Optional
  import opened Strings
  import opened ListItemModel
  import opened Store
  import opened FilterSortView
  import opened Notifications

  // ---------------------------------------------------------------------
  // Filter stages

  predicate InCategory(c: Option<Category>, x: ListItem)
    reads x
  {
    c.None? || x.category == c.value
  }

  predicate HasStatus(f: StatusFilter, x: ListItem)
    reads x
  {
    match f
    case All => true
    case Open => !x.isDone
    case Completed => x.isDone
  }

  /** Both filter stages let `x` through. */
  predicate Matches(sel: Selection, x: ListItem)
    reads x
  {
    InCategory(sel.category, x) && HasStatus(sel.status, x)
  }

  /** `filter { $0.category == c }`. */
  function FilterCategory(s: seq<ListItem>, c: Category): (r: seq<ListItem>)
    reads s
    ensures forall x: ListItem :: x in r ==> x in s && x.category == c
  {
    if s == [] then []
    else (if s[0].category == c then [s[0]] else []) + FilterCategory(s[1..], c)
  }

  /** `filter { !$0.isDone }` (done = false) and `filter { $0.isDone }`
      (done = true). */
  function FilterDone(s: seq<ListItem>, done: bool): (r: seq<ListItem>)
    reads s
    ensures forall x: ListItem :: x in r ==> x in s && x.isDone == done
  {
    if s == [] then []
    else (if s[0].isDone == done then [s[0]] else []) + FilterDone(s[1..], done)
  }

  lemma {:induction false} FilterDoneAppend(s: seq<ListItem>, t: seq<ListItem>, done: bool)
    ensures FilterDone(s + t, done) == FilterDone(s, done) + FilterDone(t, done)
  {
    if s == [] {
      assert s + t == t;
    } else {
      assert (s + t)[0] == s[0] && (s + t)[1..] == s[1..] + t;
      FilterDoneAppend(s[1..], t, done);
      var head := if s[0].isDone == done then [s[0]] else [];
      assert FilterDone(s + t, done) == head + (FilterDone(s[1..], done) + FilterDone(t, done));
    }
  }

  /** The category stage: `filter { $0.category == c }` when a category is
      selected, everything otherwise. */
  function ByCategory(s: seq<ListItem>, c: Option<Category>): seq<ListItem>
    reads s
  {
    if c.None? then s else FilterCategory(s, c.value)
  }

  /** The status stage. */
  function ByStatus(s: seq<ListItem>, f: StatusFilter): seq<ListItem>
    reads s
  {
    match f
    case All => s
    case Open => FilterDone(s, false)
    case Completed => FilterDone(s, true)
  }

  /** The reference filter: one pass keeping, in store order, the items
      both stages let through. */
  function Filtered(all: seq<ListItem>, sel: Selection): (r: seq<ListItem>)
    reads all
    ensures forall x: ListItem :: x in r ==> x in all && Matches(sel, x)
  {
    if all == [] then []
    else (if Matches(sel, all[0]) then [all[0]] else []) + Filtered(all[1..], sel)
  }

  /** The category stage followed by the status stage is the reference
      filter, order included. */
  lemma {:induction false} StagesAreFiltered(all: seq<ListItem>, sel: Selection)
    ensures ByStatus(ByCategory(all, sel.category), sel.status) == Filtered(all, sel)
  {
    if all != [] {
      var a, t := all[0], all[1..];
      assert all == [a] + t;
      StagesAreFiltered(t, sel);
      var head := if InCategory(sel.category, a) then [a] else [];
      assert ByCategory(all, sel.category) == head + ByCategory(t, sel.category);
      if sel.status != All {
        var done := sel.status == Completed;
        FilterDoneAppend(head, ByCategory(t, sel.category), done);
      }
    }
  }

  /** The filters keep exactly the matching items, each as often as it
      occurs in the store. */
  lemma {:induction false} FilteredIsExact(all: seq<ListItem>, sel: Selection)
    ensures forall x: ListItem :: multiset(Filtered(all, sel))[x] == if Matches(sel, x) then multiset(all)[x] else 0
    ensures forall x :: x in Filtered(all, sel) <==> x in all && Matches(sel, x)
  {
    if all != [] {
      assert all == [all[0]] + all[1..];
      FilteredIsExact(all[1..], sel);
    }
    forall x ensures x in Filtered(all, sel) <==> x in all && Matches(sel, x) {
      assert x in Filtered(all, sel) <==> x in multiset(Filtered(all, sel));
      assert x in all <==> x in multiset(all);
    }
  }

  // ---------------------------------------------------------------------
  // Sort stage

  /** The comparator closure of `items`: "`a` goes before `b`". */
  predicate Less(o: SortOption, a: ListItem, b: ListItem)
    reads a, b
  {
    match o
    case ByPriority => a.priority.SortIndex() < b.priority.SortIndex()
    case ByTitle => CaseInsensitiveLess(a.title, b.title)
    case ByDueDate =>
      (match (a.dueDate, b.dueDate)
       case (None, None) => false
       case (None, _) => false
       case (_, None) => true
       case (Some(d1), Some(d2)) => d1 < d2)
    case ByCreatedAt => a.createdAt > b.createdAt
  }

  /** Neither item goes before the other. */
  predicate Tied(o: SortOption, a: ListItem, b: ListItem)
    reads a, b
  {
    !Less(o, a, b) && !Less(o, b, a)
  }

  /** Every comparator is a strict weak order: irreflexive, transitive,
      and with transitive ties. */
  lemma LessIsStrictWeakOrder(o: SortOption, a: ListItem, b: ListItem, c: ListItem)
    ensures !Less(o, a, a)
    ensures Less(o, a, b) && Less(o, b, c) ==> Less(o, a, c)
    ensures Tied(o, a, b) && Tied(o, b, c) ==> Tied(o, a, c)
  {
    if o == ByTitle {
      var fa, fb, fc := Folded(a.title), Folded(b.title), Folded(c.title);
      LexLessIrreflexive(fa);
      if LexLess(fa, fb) && LexLess(fb, fc) {
        LexLessTransitive(fa, fb, fc);
      }
      LexLessTotal(fa, fb);
      LexLessTotal(fb, fc);
    }
  }

  /** No later item goes before an earlier one. */
  ghost predicate Sorted(o: SortOption, s: seq<ListItem>)
    reads s
  {
    forall i, j :: 0 <= i < j < |s| ==> !Less(o, s[j], s[i])
  }

  /** One step of an insertion sort: `x` goes in front of the first item
      it goes before. */
  function InsertSorted(o: SortOption, x: ListItem, s: seq<ListItem>): (r: seq<ListItem>)
    reads x, s
    ensures |r| == |s| + 1
    ensures multiset(r) == multiset(s) + multiset{x}
  {
    if s == [] then [x]
    else if Less(o, x, s[0]) then [x] + s
    else
      assert s == [s[0]] + s[1..];
      [s[0]] + InsertSorted(o, x, s[1..])
  }

  lemma SortedTail(o: SortOption, s: seq<ListItem>)
    requires s != [] && Sorted(o, s)
    ensures Sorted(o, s[1..])
  {
    forall i, j | 0 <= i < j < |s[1..]| ensures !Less(o, s[1..][j], s[1..][i]) {
      assert s[1..][i] == s[i + 1] && s[1..][j] == s[j + 1];
    }
  }

  lemma SortedCons(o: SortOption, a: ListItem, t: seq<ListItem>)
    requires Sorted(o, t)
    requires forall k :: 0 <= k < |t| ==> !Less(o, t[k], a)
    ensures Sorted(o, [a] + t)
  {
    var r := [a] + t;
    forall i, j | 0 <= i < j < |r| ensures !Less(o, r[j], r[i]) {
      assert r[j] == t[j - 1];
      if i > 0 {
        assert r[i] == t[i - 1];
      }
    }
  }

  lemma {:induction false} InsertKeepsSorted(o: SortOption, x: ListItem, s: seq<ListItem>)
    requires Sorted(o, s)
    ensures Sorted(o, InsertSorted(o, x, s))
  {
    if s == [] {
    } else if Less(o, x, s[0]) {
      forall k | 0 <= k < |s| ensures !Less(o, s[k], x) {
        LessIsStrictWeakOrder(o, s[k], x, s[0]);
        LessIsStrictWeakOrder(o, x, s[0], x);
      }
      SortedCons(o, x, s);
    } else {
      SortedTail(o, s);
      InsertKeepsSorted(o, x, s[1..]);
      var t := InsertSorted(o, x, s[1..]);
      forall k | 0 <= k < |t| ensures !Less(o, t[k], s[0]) {
        assert t[k] in multiset(t);
        if t[k] != x {
          assert t[k] in s[1..];
          var m :| 0 <= m < |s[1..]| && s[1..][m] == t[k];
          assert s[m + 1] == t[k];
        }
      }
      SortedCons(o, s[0], t);
    }
  }

  /** Sorted by priority: `sortIndex` never decreases, so every high item
      precedes every medium one and every medium one every low one. */
  lemma SortedByPriority(s: seq<ListItem>)
    requires Sorted(ByPriority, s)
    ensures forall i, j :: 0 <= i < j < |s| ==> s[i].priority.SortIndex() <= s[j].priority.SortIndex()
    ensures forall i, j :: 0 <= i < j < |s| && s[j].priority == High ==> s[i].priority == High
    ensures forall i, j :: 0 <= i < j < |s| && s[j].priority == Medium ==> s[i].priority != Low
  {
  }

  /** Sorted by due date: every dated item precedes every undated one, and
      dates ascend. */
  lemma SortedByDueDate(s: seq<ListItem>)
    requires Sorted(ByDueDate, s)
    ensures forall i, j :: 0 <= i < j < |s| && s[i].dueDate.None? ==> s[j].dueDate.None?
    ensures forall i, j :: 0 <= i < j < |s| && s[i].dueDate.Some? && s[j].dueDate.Some? ==>
      s[i].dueDate.value <= s[j].dueDate.value
  {
  }

  /** Sorted by creation: newest first. */
  lemma SortedByCreatedAt(s: seq<ListItem>)
    requires Sorted(ByCreatedAt, s)
    ensures forall i, j :: 0 <= i < j < |s| ==> s[i].createdAt >= s[j].createdAt
  {
  }

  /** Sorted by title: the case-folded titles never decrease. */
  lemma SortedByTitle(s: seq<ListItem>)
    requires Sorted(ByTitle, s)
    ensures forall i, j :: 0 <= i < j < |s| ==>
      Folded(s[i].title) == Folded(s[j].title) || LexLess(Folded(s[i].title), Folded(s[j].title))
  {
    forall i, j | 0 <= i < j < |s|
      ensures Folded(s[i].title) == Folded(s[j].title) || LexLess(Folded(s[i].title), Folded(s[j].title))
    {
      LexLessTotal(Folded(s[i].title), Folded(s[j].title));
    }
  }

  /** `SortOption.sortDescriptor` names the key path and direction the
      list's comparator sorts by. For priority, creation and (among dated
      items) due date it orders items the same way; for titles it does so
      only while neither title has a digit. */
  lemma DescriptorAgreesWithComparator(o: SortOption, a: ListItem, b: ListItem)
    requires o == ByDueDate ==> a.dueDate.Some? && b.dueDate.Some?
    ensures o != ByTitle ==> DescriptorLess(o.Descriptor(), a, b) == Less(o, a, b)
    ensures o == ByTitle ==> o.Descriptor() == SortDescriptor(TitleKey, Forward)
    ensures o == ByTitle && NoDigits(a.title) && NoDigits(b.title) ==>
      DescriptorLess(o.Descriptor(), a, b) == Less(o, a, b)
  {
    if o == ByTitle && NoDigits(a.title) && NoDigits(b.title) {
      StandardLessWithoutDigits(a.title, b.title);
    }
  }

  /** The title descriptor and the list's comparator order "Item 9" and
      "Item 10" oppositely, so the list sorted by title is not sorted by
      the descriptor. */
  lemma TitleDescriptorDisagrees(a: ListItem, b: ListItem)
    requires a.title == "Item 9" && b.title == "Item 10"
    ensures DescriptorLess(ByTitle.Descriptor(), a, b)
    ensures Less(ByTitle, b, a)
    ensures Sorted(ByTitle, [b, a]) && !Sorted(ByTitle, [a, b])
  {
    StandardOrdersNumbersByValue();
    CaseInsensitiveOrdersNumbersByDigit();
    var s := [a, b];
    assert s[0] == a && s[1] == b;
    LexLessIrreflexive(Folded(a.title));
    LessIsStrictWeakOrder(ByTitle, a, b, a);
  }

  // ---------------------------------------------------------------------
  // The pipeline

  /** `v` is a possible value of `items`: the filtered items, each as
      often as there, in an order the comparator accepts. Swift's `sort`
      is not stable, so the order of tied items is not fixed. */
  ghost predicate IsView(all: seq<ListItem>, sel: Selection, v: seq<ListItem>)
    reads all, v
  {
    multiset(v) == multiset(Filtered(all, sel)) && Sorted(sel.sort, v)
  }

  /** `filteredItems.sort(by:)`: a permutation of `s` that the comparator
      accepts. Swift's algorithm is not specified beyond that; an insertion
      sort stands in for it. */
  method Sort(o: SortOption, s: seq<ListItem>) returns (r: seq<ListItem>)
    ensures multiset(r) == multiset(s)
    ensures Sorted(o, r)
  {
    r := [];
    var i := 0;
    while i < |s|
      invariant 0 <= i <= |s|
      invariant multiset(r) == multiset(s[..i])
      invariant Sorted(o, r)
    {
      assert s[..i + 1] == s[..i] + [s[i]];
      InsertKeepsSorted(o, s[i], r);
      r := InsertSorted(o, s[i], r);
      i := i + 1;
    }
    assert s[..i] == s;
  }

  /** The computed property `items`. */
  method Items(all: seq<ListItem>, sel: Selection) returns (r: seq<ListItem>)
    ensures IsView(all, sel, r)
    ensures |r| == |Filtered(all, sel)|
    ensures forall x :: x in r <==> x in all && Matches(sel, x)
  {
    var filteredItems := all;
    if sel.category.Some? {
      filteredItems := FilterCategory(filteredItems, sel.category.value);
    }
    match sel.status {
      case All =>
      case Open => filteredItems := FilterDone(filteredItems, false);
      case Completed => filteredItems := FilterDone(filteredItems, true);
    }
    assert filteredItems == ByStatus(ByCategory(all, sel.category), sel.status);
    StagesAreFiltered(all, sel);
    r := Sort(sel.sort, filteredItems);
    ViewMembers(all, sel, r);
  }

  /** A reordering of the filtered items has their length and lists
      exactly the matching live items. */
  lemma ViewMembers(all: seq<ListItem>, sel: Selection, v: seq<ListItem>)
    requires multiset(v) == multiset(Filtered(all, sel))
    ensures |v| == |Filtered(all, sel)|
    ensures forall x :: x in v <==> x in all && Matches(sel, x)
  {
    var f := Filtered(all, sel);
    assert |v| == |multiset(v)| == |f|;
    FilteredIsExact(all, sel);
    forall x ensures x in v <==> x in f {
      assert x in v <==> x in multiset(v);
      assert x in f <==> x in multiset(f);
    }
  }

  /** With unique ids every matching item is listed exactly once. */
  lemma ViewListsEachMatchOnce(all: seq<ListItem>, sel: Selection, v: seq<ListItem>)
    requires UniqueIds(all) && IsView(all, sel, v)
    ensures forall x :: x in all && Matches(sel, x) ==> multiset(v)[x] == 1
    ensures forall x :: x in v <==> x in all && Matches(sel, x)
  {
    FilteredIsExact(all, sel);
    ViewMembers(all, sel, v);
    forall x | x in all
      ensures multiset(all)[x] == 1
    {
      UniqueCountsOnce(all, x);
    }
  }

  /** The example of two items, one open ("Buy milk") and one done
      ("Clean"): the open filter lists exactly the first. */
  lemma OpenFilterExample(milk: ListItem, clean: ListItem, v: seq<ListItem>)
    requires milk != clean && !milk.isDone && clean.isDone
    requires IsView([milk, clean], Selection(None, ByPriority, Open), v)
    ensures v == [milk]
  {
    var all: seq<ListItem> := [milk, clean];
    FilteredIsExact(all, Selection(None, ByPriority, Open));
    assert multiset(v) == multiset{milk} by {
      assert multiset(all)[milk] == 1 && multiset(all)[clean] == 1;
      forall x | x in multiset(v) ensures x == milk {
        assert x in v;
      }
    }
    assert |v| == 1;
    assert v[0] in multiset(v);
  }

  // ---------------------------------------------------------------------
  // What the screen shows

  datatype MainContent = WelcomeState | FilteredEmptyState | ItemList

  function ChooseMainContent(all: seq<ListItem>, items: seq<ListItem>): MainContent {
    if items == [] then
      if all == [] then WelcomeState else FilteredEmptyState
    else
      ItemList
  }

  /** The list shows exactly when some item matches; the welcome screen
      exactly when the store is empty; the "no entries found" screen only
      when a filter hides every item, which cannot happen with no filter. */
  lemma MainContentOfView(all: seq<ListItem>, sel: Selection, v: seq<ListItem>)
    requires IsView(all, sel, v)
    ensures ChooseMainContent(all, v) == ItemList <==> exists x :: x in all && Matches(sel, x)
    ensures ChooseMainContent(all, v) == WelcomeState <==> all == []
    ensures ChooseMainContent(all, v) == FilteredEmptyState ==>
      all != [] && forall x :: x in all ==> !Matches(sel, x)
    ensures sel.category.None? && sel.status == All ==> ChooseMainContent(all, v) != FilteredEmptyState
  {
    ViewMembers(all, sel, v);
    if v != [] {
      assert v[0] in v;
    }
    if all != [] && sel.category.None? && sel.status == All {
      assert all[0] in all && Matches(sel, all[0]);
    }
  }

  // ---------------------------------------------------------------------
  // The screen's state

  class ContentView {
    const context: ModelContext
    const center: NotificationManager
    /** `selectedCategory`, `sortOption`, `statusFilter`. */
    var selection: Selection
    var deletedItem: ListItem?
    var showingUndoMessage: bool
    var showingSuccessMessage: bool

    /** The banner is up exactly while an item is buffered, and the
        buffered item's uuid is not live. */
    ghost predicate Valid()
      reads this, context, context.live, if deletedItem != null then {deletedItem} else {}
    {
      && context.Valid()
      && showingUndoMessage == (deletedItem != null)
      && (deletedItem != null ==> deletedItem.uuid !in Ids(context.live))
    }

    constructor (context: ModelContext, center: NotificationManager)
      requires context.Valid()
      ensures Valid()
      ensures this.context == context && this.center == center
      ensures selection == InitialSelection
      ensures deletedItem == null && !showingUndoMessage && !showingSuccessMessage
    {
      this.context := context;
      this.center := center;
      selection := InitialSelection;
      deletedItem := null;
      showingUndoMessage := false;
      showingSuccessMessage := false;
    }

    /** `items[row]`: the item the list shows in that row. */
    method RowItem(row: nat) returns (x: ListItem, ghost shown: seq<ListItem>)
      requires row < |Filtered(context.live, selection)|
      ensures IsView(context.live, selection, shown) && row < |shown| && shown[row] == x
      ensures x in context.live && Matches(selection, x)
    {
      var items := Items(context.live, selection);
      x := items[row];
      shown := items;
    }

    /** The effect of deleting the live item `x`: its reminder is
        cancelled, it replaces whatever the buffer held, it leaves the
        store, and the undo banner comes up. */
    method Remove(x: ListItem)
      requires Valid() && x in context.live
      modifies this`deletedItem, this`showingUndoMessage, this`showingSuccessMessage, context, center
      ensures Valid()
      ensures deletedItem == x
      ensures context.live == Without(old(context.live), x)
      ensures |context.live| == |old(context.live)| - 1
      ensures center.pending == AfterCancel(old(center.pending), x.uuid)
      ensures showingUndoMessage && !showingSuccessMessage
    {
      center.CancelReminder(x);
      deletedItem := x;
      WithoutLiveItem(context.live, x);
      context.Delete(x);
      showingUndoMessage := true;
      showingSuccessMessage := false;
    }

    /** Deleting the item shown in row `row`: the row is looked up in
        the sorted, filtered list and the item is removed. */
    method DeleteRow(row: nat) returns (x: ListItem, ghost shown: seq<ListItem>)
      requires Valid()
      requires row < |Filtered(context.live, selection)|
      modifies this`deletedItem, this`showingUndoMessage, this`showingSuccessMessage, context, center
      ensures Valid()
      ensures deletedItem == x
      ensures multiset(shown) == multiset(old(Filtered(context.live, selection))) && Sorted(selection.sort, shown)
      ensures row < |shown| && shown[row] == x
      ensures x in old(context.live) && old(Matches(selection, x))
      ensures context.live == Without(old(context.live), x)
      ensures |context.live| == |old(context.live)| - 1
      ensures center.pending == AfterCancel(old(center.pending), x.uuid)
      ensures showingUndoMessage && !showingSuccessMessage
    {
      x, shown := RowItem(row);
      Remove(x);
      assert Sorted(selection.sort, shown);
    }

    /** `deleteItems(offsets:)`. `offsets` is the `IndexSet` of swiped rows
        in ascending order; only its first row goes, and the earlier
        buffer content is lost for good. */
    method DeleteItems(offsets: seq<nat>) returns (removed: ListItem?, ghost shown: seq<ListItem>)
      requires Valid()
      requires forall i, j :: 0 <= i < j < |offsets| ==> offsets[i] < offsets[j]
      requires offsets != [] ==> offsets[|offsets| - 1] < |Filtered(context.live, selection)|
      modifies this`deletedItem, this`showingUndoMessage, this`showingSuccessMessage, context, center
      ensures Valid()
      ensures offsets == [] ==>
        && removed == null && context.live == old(context.live) && center.pending == old(center.pending)
        && deletedItem == old(deletedItem) && showingUndoMessage == old(showingUndoMessage)
        && showingSuccessMessage == old(showingSuccessMessage)
      ensures offsets != [] ==>
        && removed != null && deletedItem == removed
        && multiset(shown) == multiset(old(Filtered(context.live, selection))) && Sorted(selection.sort, shown)
        && offsets[0] < |shown| && shown[offsets[0]] == removed
        && removed in old(context.live) && old(Matches(selection, removed))
        && context.live == Without(old(context.live), removed)
        && |context.live| == |old(context.live)| - 1
        && center.pending == AfterCancel(old(center.pending), removed.uuid)
        && showingUndoMessage && !showingSuccessMessage
    {
      removed, shown := null, [];
      if offsets != [] {
        assert offsets[0] <= offsets[|offsets| - 1];
        removed, shown := DeleteRow(offsets[0]);
      }
    }

    /** `undoDelete()`: puts the buffered item back, unchanged, and clears
        buffer and banner. Its reminder is not scheduled again (the
        notification manager is not touched). */
    method UndoDelete()
      requires Valid()
      modifies this`deletedItem, this`showingUndoMessage, context
      ensures Valid()
      ensures old(deletedItem) == null ==>
        context.live == old(context.live) && deletedItem == null && !showingUndoMessage
      ensures old(deletedItem) != null ==>
        context.live == old(context.live) + [old(deletedItem)] && deletedItem == null && !showingUndoMessage
    {
      if deletedItem == null {
        return;
      }
      var item := deletedItem;
      ghost var before := context.live;
      WithoutAbsentId(before, item.uuid);
      context.Insert(item);
      assert context.live == before + [item];
      showingUndoMessage := false;
      deletedItem := null;
    }

    /** The banner's five-second timer firing: banner and buffer are
        cleared whatever the buffer holds, and the deletion is final. */
    method ExpireUndo()
      requires Valid()
      modifies this`deletedItem, this`showingUndoMessage
      ensures Valid()
      ensures deletedItem == null && !showingUndoMessage
    {
      showingUndoMessage := false;
      deletedItem := null;
    }

    /** The "Filter zurücksetzen" button: category back to all and sort back
        to priority; the status filter stays as it is. */
    method ResetFilters()
      modifies this`selection
      ensures selection.category == None && selection.sort == ByPriority
      ensures selection.status == old(selection.status)
    {
      selection := selection.(category := None, sort := ByPriority);
    }
  }

  /** One row of the list. */
  class ListItemRowView {
    const item: ListItem
    const center: NotificationManager

    constructor (item: ListItem, center: NotificationManager)
      ensures this.item == item && this.center == center
    {
      this.item := item;
      this.center := center;
    }

    /** `toggleDone()`: flips `isDone`, stamps `updatedAt`, and cancels the
        reminder only when the item became done. A failing save is only
        logged and changes nothing here. */
    method ToggleDone(now: Timestamp)
      modifies item`isDone, item`updatedAt, center
      ensures item.isDone == !old(item.isDone) && item.updatedAt == now
      ensures center.pending == if item.isDone then AfterCancel(old(center.pending), item.uuid)
                                else old(center.pending)
    {
      item.isDone := !item.isDone;
      item.updatedAt := now;
      if item.isDone {
        center.CancelReminder(item);
      }
    }
  }
}
