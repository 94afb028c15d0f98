# InderAppistausdemKopf — a Dafny model of the to-do list core

InderAppistausdemKopf is a SwiftUI to-do list. A list item has:
- a title, a note, a category and a priority;
- an optional due date and a done flag;
- creation and update instants.

Items live in a SwiftData store. This project models the parts of the app that hold its logic:

- **The item record** (`ListItemModel`): the `ListItem` class, its initialiser's defaults, and the `Category` and `Priority` enumerations with their raw values, emojis, display names and sort rank.
- **The store** (`Store`): the `ModelContext` as a class holding the sequence of live items.
  - Its `insert` keeps uuids unique: an insert replaces any item with the same uuid.
  - Its `delete` removes the object.
- **The filter bar** (`FilterSortView`):
  - the status filter and the sort options;
  - the sort descriptors of the sort options;
  - the menus that set the category, the status and the sort.
- **The main screen** (`ContentScreen`):
  - The computed list `items`: a category filter and a status filter, then a sort by the chosen comparator.
  - Which of the welcome screen, the "no entries" screen and the list is shown.
  - Swipe-to-delete with its single-slot undo buffer. The banner's timer is an explicit `ExpireUndo` event.
  - The filter reset.
  - The row's done toggle.
- **The detail screen** (`ItemDetail`): its own single-slot delete/undo buffer for the item it shows.
- **The add/edit sheet** (`AddEdit`):
  - trimming and validating titles, with the alert messages;
  - the form's initial state and the date picker's binding;
  - `save()`, which edits in place or inserts, then saves the store, plans the reminder and dismisses the sheet.
- **The reminder manager** (`Notifications`): the notification centre's pending requests as a map from identifier to request; scheduling, cancelling and cancelling all.
- **The integrity check** (`Integrity`): `validateDataIntegrity` as a loop over the live items.

Three things outside the app become parameters:
- Randomness: each `UUID()` is a `Uuid` argument.
- The clock: each `.now` / `Date()` is a `Timestamp` argument, in whole seconds.
- The outcomes of calls into the frameworks: `saveSucceeds`, `fetchSucceeds`, and `accepted` (whether the notification centre takes a request).

Each method is proved against functions of the inputs and the old state. Those functions are related by lemmas:
- The two filter stages are one reference filter.
- The sort gives a permutation that the comparator accepts. Every comparator is a strict weak order.
- Delete then undo restores the store's contents.
- Scheduling twice is scheduling once.
- A new item's reminder outlives the item.

## Model

| member | source | states |
|---|---|---|
| Strings.IsWhitespace | InderAppistausdemKopf/View/AddEditItemView.swift:131 | defined as the characters of Foundation's `whitespacesAndNewlines` set |
| Strings.IsBlank | InderAppistausdemKopf/View/AddEditItemView.swift:131 | defined as "every character is whitespace"; Strings.Trim trims exactly such strings to empty |
| Strings.DropLeadingWhitespace | InderAppistausdemKopf/View/AddEditItemView.swift:131 | the result is no longer than the input and does not start with whitespace |
| Strings.DropLeadingSplits | InderAppistausdemKopf/View/AddEditItemView.swift:131 | the input is a blank prefix followed by the result |
| Strings.DropTrailingWhitespace | InderAppistausdemKopf/View/AddEditItemView.swift:131 | the result is no longer than the input and does not end with whitespace |
| Strings.DropTrailingSplits | InderAppistausdemKopf/View/AddEditItemView.swift:131 | the input is the result followed by a blank suffix |
| Strings.Trim | InderAppistausdemKopf/View/AddEditItemView.swift:131 | trimming gives the empty string exactly when the input is all whitespace; otherwise the result starts and ends with a non-whitespace character |
| Strings.TrimIsInfix | InderAppistausdemKopf/View/AddEditItemView.swift:131 | the trimmed title is a contiguous piece of the input with only whitespace before and after it |
| Strings.TrimOfTrimmed | InderAppistausdemKopf/View/AddEditItemView.swift:149 | a string with no whitespace at either end trims to itself |
| Strings.TrimIdempotent | InderAppistausdemKopf/View/AddEditItemView.swift:131-150 | trimming twice (as validateAndSave and then save do) is trimming once |
| Strings.FoldCase | InderAppistausdemKopf/ContentView.swift:39 | upper-case ASCII letters map to their lower-case letter; every other character is unchanged |
| Strings.Folded | InderAppistausdemKopf/ContentView.swift:39 | folding keeps the length and folds each character |
| Strings.LexLess | InderAppistausdemKopf/ContentView.swift:39 | defined as strict lexicographic order on code points; its properties are in Strings.LexLessIrreflexive, Strings.LexLessTransitive and Strings.LexLessTotal |
| Strings.LexLessIrreflexive | InderAppistausdemKopf/ContentView.swift:39 | no title sorts before itself |
| Strings.LexLessTransitive | InderAppistausdemKopf/ContentView.swift:39 | the title order is transitive |
| Strings.LexLessTotal | InderAppistausdemKopf/ContentView.swift:39 | any two distinct folded titles are ordered one way or the other |
| Strings.CaseDoesNotOrder | InderAppistausdemKopf/ContentView.swift:39 | titles that differ only in case sort before neither one another |
| Strings.CaseInsensitiveLess | InderAppistausdemKopf/ContentView.swift:39 | defined as the lexicographic order of the case-folded titles; its properties are in Strings.CaseDoesNotOrder and ContentScreen.LessIsStrictWeakOrder |
| Strings.DigitRun | InderAppistausdemKopf/View/FilterSortView.swift:146 | the run of leading digits is as long as it can be: all its characters are digits and the next one is not |
| Strings.DigitsValue | InderAppistausdemKopf/View/FilterSortView.swift:146 | defined as the decimal value of a run of digits; used by Strings.StandardLess |
| Strings.StandardLess | InderAppistausdemKopf/View/FilterSortView.swift:146 | defined as the case-blind order in which digit runs compare by value, standing in for `.localizedStandard`; its properties are in Strings.StandardLessWithoutDigits and Strings.StandardOrdersNumbersByValue |
| Strings.StandardLessWithoutDigits | InderAppistausdemKopf/View/FilterSortView.swift:146 | on titles without digits, the title descriptor's comparator and the list's case-insensitive comparison agree |
| Strings.StandardOrdersNumbersByValue | InderAppistausdemKopf/View/FilterSortView.swift:146 | `.localizedStandard` puts "Item 9" before "Item 10" |
| Strings.CaseInsensitiveOrdersNumbersByDigit | InderAppistausdemKopf/ContentView.swift:39 | the case-insensitive comparison puts "Item 10" before "Item 9" |
| ListItemModel.CategoryCasesAreComplete | InderAppistausdemKopf/Models/ListItem.swift:39-45 | `allCases` lists every category, six in all |
| ListItemModel.Category.RawValue | InderAppistausdemKopf/Models/ListItem.swift:40-45 | defined as the German raw value of each case; its properties are in ListItemModel.CategoryIdInjective |
| ListItemModel.Category.Id | InderAppistausdemKopf/Models/ListItem.swift:47 | defined as the raw value; ListItemModel.CategoryIdInjective shows it tells the cases apart |
| ListItemModel.Category.Emoji | InderAppistausdemKopf/Models/ListItem.swift:49-58 | defined as the emoji of each case; ListItemModel.CategoryEmojiInjective shows they are distinct |
| ListItemModel.Category.DisplayName | InderAppistausdemKopf/Models/ListItem.swift:60-62 | defined as emoji, space and raw value; ListItemModel.CategoryDisplayNameInjective shows the labels are distinct |
| ListItemModel.CategoryIdInjective | InderAppistausdemKopf/Models/ListItem.swift:39-47 | distinct categories have distinct ids (raw values) |
| ListItemModel.CategoryEmojiInjective | InderAppistausdemKopf/Models/ListItem.swift:49-58 | distinct categories have distinct emojis |
| ListItemModel.CategoryDisplayNameInjective | InderAppistausdemKopf/Models/ListItem.swift:60-62 | distinct categories have distinct labels of the form emoji + space + raw value |
| ListItemModel.PriorityCasesAreComplete | InderAppistausdemKopf/Models/ListItem.swift:65-69 | `allCases` lists every priority, three in all |
| ListItemModel.Priority.RawValue | InderAppistausdemKopf/Models/ListItem.swift:66-68 | defined as the German raw value of each case; its properties are in ListItemModel.PriorityIdInjective |
| ListItemModel.Priority.Id | InderAppistausdemKopf/Models/ListItem.swift:70 | defined as the raw value; ListItemModel.PriorityIdInjective shows it tells the cases apart |
| ListItemModel.Priority.DisplayName | InderAppistausdemKopf/Models/ListItem.swift:72-78 | defined as the spelled-out label of each case; ListItemModel.PriorityDisplayNameShape relates it to emoji and raw value |
| ListItemModel.Priority.Emoji | InderAppistausdemKopf/Models/ListItem.swift:88-94 | defined as the coloured dot of each case; ListItemModel.PriorityDisplayNameShape shows they are distinct |
| ListItemModel.PriorityIdInjective | InderAppistausdemKopf/Models/ListItem.swift:65-70 | distinct priorities have distinct ids |
| ListItemModel.PriorityDisplayNameShape | InderAppistausdemKopf/Models/ListItem.swift:72-94 | each spelled-out display name is the emoji, a space and the raw value; the emojis are distinct |
| ListItemModel.Priority.SortIndex | InderAppistausdemKopf/Models/ListItem.swift:80-86 | the rank is 0, 1 or 2 |
| ListItemModel.SortIndexIsARanking | InderAppistausdemKopf/Models/ListItem.swift:80-86 | `sortIndex` is injective and ranks high before medium before low |
| ListItemModel.PriorityLevel | InderAppistausdemKopf/ContentView.swift:454-460 | the indicator shows 1 to 3 filled dots, three minus the sort rank |
| ListItemModel.ListItem.constructor | InderAppistausdemKopf/Models/ListItem.swift:16-36 | every field takes its argument; `updatedAt` defaults to the creation instant |
| ListItemModel.DefaultsScenario | InderAppistausdemKopf/Models/ListItem.swift:16-26 | the defaults give no note, category personal, priority medium, no due date, not done |
| Store.UniqueIds | InderAppistausdemKopf/Models/ListItem.swift:6 | defined as "no two live items share a uuid"; kept by Store.ModelContext.Valid through Store.ModelContext.Insert and Store.ModelContext.Delete |
| Store.Ids | InderAppistausdemKopf/Models/ListItem.swift:6 | defined as the set of uuids of the live items |
| Store.Without | InderAppistausdemKopf/ContentView.swift:333 | deleting keeps exactly the items other than the deleted object |
| Store.WithoutCounts | InderAppistausdemKopf/ContentView.swift:333 | deleting drops every occurrence of the object and keeps the count of every other |
| Store.WithoutId | InderAppistausdemKopf/Models/ListItem.swift:6 | dropping a uuid keeps exactly the items with other uuids |
| Store.UniqueCons | InderAppistausdemKopf/Models/ListItem.swift:6 | uuids are unique in a list exactly when they are unique in its tail and the head's uuid is not in the tail |
| Store.UniqueIdsIdentify | InderAppistausdemKopf/Models/ListItem.swift:6 | under unique uuids, two live items with the same uuid are the same object |
| Store.UniqueCountsOnce | InderAppistausdemKopf/Models/ListItem.swift:6 | under unique uuids each live item occurs once |
| Store.WithoutAbsent | InderAppistausdemKopf/ContentView.swift:333 | deleting an object that is not live changes nothing |
| Store.WithoutKeepsUnique | InderAppistausdemKopf/ContentView.swift:333 | deleting keeps uuids unique |
| Store.WithoutLiveItem | InderAppistausdemKopf/ContentView.swift:333 | deleting a live item removes one entry and exactly its uuid |
| Store.DeleteDropsId | InderAppistausdemKopf/View/ItemDetailView.swift:213 | deleting an object that is the only carrier of its uuid drops exactly that uuid |
| Store.WithoutThenAppend | InderAppistausdemKopf/ContentView.swift:333-349 | deleting a live item and inserting it again restores the contents and the uuids |
| Store.WithoutThenAppendCounts | InderAppistausdemKopf/ContentView.swift:333-349 | deleting a live item and appending it again restores each item's count |
| Store.WithoutIdKeepsUnique | InderAppistausdemKopf/Models/ListItem.swift:6 | dropping a uuid keeps uuids unique |
| Store.WithoutIdIds | InderAppistausdemKopf/Models/ListItem.swift:6 | dropping a uuid removes exactly that uuid from the set of uuids |
| Store.InsertKeepsUnique | InderAppistausdemKopf/Models/ListItem.swift:6 | inserting keeps uuids unique and adds exactly the inserted uuid |
| Store.WithoutAbsentId | InderAppistausdemKopf/ContentView.swift:349 | dropping a uuid no live item carries changes nothing |
| Store.ModelContext.constructor | InderAppistausdemKopf/InderAppistausdemKopfApp.swift:6-20 | a newly created store holds no items and its uuids are unique |
| Store.ModelContext.Insert | InderAppistausdemKopf/View/AddEditItemView.swift:169 | insert replaces any item with the same uuid by the new item, at the end, and keeps uuids unique |
| Store.ModelContext.Delete | InderAppistausdemKopf/ContentView.swift:333 | delete removes the object and keeps uuids unique |
| Notifications.ReminderKey | InderAppistausdemKopf/Utils/NotificationManager.swift:35 | defined as "reminder_" followed by the uuid string; its properties are in Notifications.ReminderKeyInjective and Notifications.ReminderKeyIsNotTestId |
| Notifications.ReminderKeyInjective | InderAppistausdemKopf/Utils/NotificationManager.swift:35 | distinct uuids get distinct request identifiers |
| Notifications.ReminderKeyIsNotTestId | InderAppistausdemKopf/Utils/NotificationManager.swift:35-100 | no reminder identifier equals the test notification's |
| Notifications.MinuteOf | InderAppistausdemKopf/Utils/NotificationManager.swift:38-39 | the trigger instant is the start of the due date's minute |
| Notifications.SameTriggerIffSameMinute | InderAppistausdemKopf/Utils/NotificationManager.swift:38-40 | two due dates give the same trigger exactly when they lie in the same minute |
| Notifications.ReminderRequest | InderAppistausdemKopf/Utils/NotificationManager.swift:28-42 | defined as the request `scheduleReminder` builds; its properties are in Notifications.ReminderRequestShape |
| Notifications.ReminderRequestShape | InderAppistausdemKopf/Utils/NotificationManager.swift:28-42 | the request has the item's key, the fixed title, a body of the item's title followed by " ist jetzt fällig", badge 1, and fires once within the due minute |
| Notifications.AfterCancel | InderAppistausdemKopf/Utils/NotificationManager.swift:54-58 | cancelling removes the item's key and keeps every other request |
| Notifications.AfterSchedule | InderAppistausdemKopf/Utils/NotificationManager.swift:22-51 | without a due date nothing changes; otherwise the item's request is replaced by the new one if accepted, and is gone if rejected; other requests are kept |
| Notifications.ScheduleTwiceIsScheduleOnce | InderAppistausdemKopf/Utils/NotificationManager.swift:26 | because of cancel-then-add, only the last scheduling of an item counts |
| Notifications.ScheduleThenCancel | InderAppistausdemKopf/Utils/NotificationManager.swift:22-58 | scheduling and then cancelling is cancelling |
| Notifications.CancelAbsentIsNoop | InderAppistausdemKopf/Utils/NotificationManager.swift:54-58 | cancelling a reminder that is not pending changes nothing |
| Notifications.CancelIsLocal | InderAppistausdemKopf/Utils/NotificationManager.swift:54-58 | cancelling one item's reminder keeps another item's request |
| Notifications.NotificationManager.constructor | InderAppistausdemKopf/Utils/NotificationManager.swift:22-64 | the manager starts from the centre's pending requests |
| Notifications.NotificationManager.ScheduleReminder | InderAppistausdemKopf/Utils/NotificationManager.swift:22-51 | the pending requests become the scheduled state of the old ones |
| Notifications.NotificationManager.CancelReminder | InderAppistausdemKopf/Utils/NotificationManager.swift:54-58 | the pending requests become the cancelled state of the old ones |
| Notifications.NotificationManager.CancelAllReminders | InderAppistausdemKopf/Utils/NotificationManager.swift:61-64 | nothing stays pending, including the test notification |
| FilterSortView.StatusFilterCasesAreComplete | InderAppistausdemKopf/View/FilterSortView.swift:94-98 | `allCases` lists the three status filters |
| FilterSortView.StatusFilter.RawValue | InderAppistausdemKopf/View/FilterSortView.swift:101-107 | defined as the raw value of each case; distinct per case by FilterSortView.StatusFilterLabelsAreDistinct |
| FilterSortView.StatusFilter.Id | InderAppistausdemKopf/View/FilterSortView.swift:99 | defined as the raw value; distinct per case by FilterSortView.StatusFilterLabelsAreDistinct |
| FilterSortView.StatusFilter.DisplayName | InderAppistausdemKopf/View/FilterSortView.swift:109-115 | defined as the German label of each case; distinct per case by FilterSortView.StatusFilterLabelsAreDistinct |
| FilterSortView.StatusFilter.Icon | InderAppistausdemKopf/View/FilterSortView.swift:117-123 | defined as the SF Symbol name of each case; distinct per case by FilterSortView.StatusFilterLabelsAreDistinct |
| FilterSortView.StatusFilterLabelsAreDistinct | InderAppistausdemKopf/View/FilterSortView.swift:99-123 | distinct status filters have distinct ids, raw values, display names and icons |
| FilterSortView.SortOptionCasesAreComplete | InderAppistausdemKopf/View/FilterSortView.swift:126-130 | `allCases` lists the four sort options |
| FilterSortView.SortOption.DisplayName | InderAppistausdemKopf/View/FilterSortView.swift:132-139 | defined as the German label of each sort option |
| FilterSortView.SortOption.Descriptor | InderAppistausdemKopf/View/FilterSortView.swift:141-152 | defined as the key path and direction of each option; related to the list's comparator by ContentScreen.DescriptorAgreesWithComparator and ContentScreen.TitleDescriptorDisagrees |
| FilterSortView.KeyAscending | InderAppistausdemKopf/View/FilterSortView.swift:141-152 | defined as the ascending order of each key path's values, with `.localizedStandard` (Strings.StandardLess) for titles |
| FilterSortView.DescriptorLess | InderAppistausdemKopf/View/FilterSortView.swift:141-152 | defined as the key order, reversed for a reverse descriptor |
| FilterSortView.ChooseAllCategories | InderAppistausdemKopf/View/FilterSortView.swift:12-14 | the button clears the category and keeps sort and status |
| FilterSortView.ChooseCategory | InderAppistausdemKopf/View/FilterSortView.swift:16-19 | a category button selects that category and keeps sort and status |
| FilterSortView.ChooseStatus | InderAppistausdemKopf/View/FilterSortView.swift:39-42 | a status button selects that status and keeps category and sort |
| FilterSortView.ChooseSort | InderAppistausdemKopf/View/FilterSortView.swift:64-65 | a sort button selects that sort and keeps category and status |
| FilterSortView.MenuChoicesOverwriteAndCommute | InderAppistausdemKopf/View/FilterSortView.swift:12-65 | a later choice in a menu overrides an earlier one, and choices in different menus commute |
| ContentScreen.InCategory | InderAppistausdemKopf/ContentView.swift:19-21 | defined as "no category is selected, or the item has the selected one" |
| ContentScreen.HasStatus | InderAppistausdemKopf/ContentView.swift:24-31 | defined as the status filter's test of the done flag |
| ContentScreen.Matches | InderAppistausdemKopf/ContentView.swift:15-31 | defined as both stages letting the item through; ContentScreen.FilteredIsExact shows the filter keeps exactly such items |
| ContentScreen.FilterCategory | InderAppistausdemKopf/ContentView.swift:19-21 | the category filter keeps only items of that category |
| ContentScreen.FilterDone | InderAppistausdemKopf/ContentView.swift:24-31 | the status filter keeps only items with that done flag |
| ContentScreen.FilterDoneAppend | InderAppistausdemKopf/ContentView.swift:24-31 | the status filter distributes over concatenation |
| ContentScreen.ByCategory | InderAppistausdemKopf/ContentView.swift:19-21 | defined as the category stage; ContentScreen.StagesAreFiltered relates it to the reference filter |
| ContentScreen.ByStatus | InderAppistausdemKopf/ContentView.swift:24-31 | defined as the status stage; ContentScreen.StagesAreFiltered relates it to the reference filter |
| ContentScreen.Filtered | InderAppistausdemKopf/ContentView.swift:15-31 | the reference filter keeps only live items that both stages let through |
| ContentScreen.StagesAreFiltered | InderAppistausdemKopf/ContentView.swift:15-31 | the category stage followed by the status stage equals the reference filter, order included |
| ContentScreen.FilteredIsExact | InderAppistausdemKopf/ContentView.swift:15-31 | an item is kept exactly when it is live and matches, as often as it is live |
| ContentScreen.Less | InderAppistausdemKopf/ContentView.swift:34-50 | defined as the comparator closure of `items`; its properties are in ContentScreen.LessIsStrictWeakOrder and the four Sorted-by lemmas |
| ContentScreen.Tied | InderAppistausdemKopf/ContentView.swift:34-50 | defined as "neither item goes before the other" |
| ContentScreen.LessIsStrictWeakOrder | InderAppistausdemKopf/ContentView.swift:34-50 | each of the four comparators is irreflexive and transitive, with transitive ties |
| ContentScreen.Sorted | InderAppistausdemKopf/ContentView.swift:34-50 | defined as "no later item goes before an earlier one"; established by ContentScreen.Sort |
| ContentScreen.InsertSorted | InderAppistausdemKopf/ContentView.swift:34 | one insertion step adds exactly the one item |
| ContentScreen.SortedTail | InderAppistausdemKopf/ContentView.swift:34 | the tail of a sorted list is sorted |
| ContentScreen.SortedCons | InderAppistausdemKopf/ContentView.swift:34 | putting an item that no later item precedes in front keeps the list sorted |
| ContentScreen.InsertKeepsSorted | InderAppistausdemKopf/ContentView.swift:34-50 | an insertion step keeps a list sorted under any of the comparators |
| ContentScreen.SortedByPriority | InderAppistausdemKopf/ContentView.swift:36-37 | sorted by priority: high items first, then medium, then low |
| ContentScreen.SortedByDueDate | InderAppistausdemKopf/ContentView.swift:40-46 | sorted by due date: dated items precede undated ones, and dates ascend |
| ContentScreen.SortedByCreatedAt | InderAppistausdemKopf/ContentView.swift:47-48 | sorted by creation: newest first |
| ContentScreen.SortedByTitle | InderAppistausdemKopf/ContentView.swift:38-39 | sorted by title: the case-folded titles never decrease |
| ContentScreen.DescriptorAgreesWithComparator | InderAppistausdemKopf/View/FilterSortView.swift:141-152 | each sort option's descriptor names the key and direction of the list's comparator; for priority, creation and (among dated items) due date it orders items the same way, and for titles only when neither title contains a digit |
| ContentScreen.TitleDescriptorDisagrees | InderAppistausdemKopf/View/FilterSortView.swift:146 | for the titles "Item 9" and "Item 10" the title descriptor and the list's comparator give opposite orders |
| ContentScreen.IsView | InderAppistausdemKopf/ContentView.swift:15-53 | defined as "a sorted permutation of the reference filter", the possible values of `items` |
| ContentScreen.Sort | InderAppistausdemKopf/ContentView.swift:34-50 | the result is a permutation of the input that the comparator accepts |
| ContentScreen.Items | InderAppistausdemKopf/ContentView.swift:15-53 | `items` is a sorted permutation of the reference filter: it lists exactly the live matching items |
| ContentScreen.ViewMembers | InderAppistausdemKopf/ContentView.swift:15-53 | any reordering of the filtered items has their length and lists exactly the live matching items |
| ContentScreen.ViewListsEachMatchOnce | InderAppistausdemKopf/ContentView.swift:15-53 | with unique uuids each matching live item is listed exactly once |
| ContentScreen.OpenFilterExample | InderAppistausdemKopf/ContentView.swift:27-28 | with one open and one done item, the open filter lists only the open one |
| ContentScreen.ChooseMainContent | InderAppistausdemKopf/ContentView.swift:69-77 | defined as the screen's choice between welcome, "no entries" and list; its properties are in ContentScreen.MainContentOfView |
| ContentScreen.MainContentOfView | InderAppistausdemKopf/ContentView.swift:69-77 | the list shows exactly when some item matches, and the welcome screen exactly when the store is empty; the "no entries" screen appears only when the filters hide every item, which cannot happen without filters |
| ContentScreen.ContentView.constructor | InderAppistausdemKopf/ContentView.swift:8-13 | the screen starts with all categories, sort by priority, status all, an empty buffer and no banners |
| ContentScreen.ContentView.RowItem | InderAppistausdemKopf/ContentView.swift:328 | the item in a row is a live, matching item at that position of a possible `items` |
| ContentScreen.ContentView.Remove | InderAppistausdemKopf/ContentView.swift:329-336 | deleting a live item cancels its reminder, buffers it, removes it from the store and shows the undo banner |
| ContentScreen.ContentView.DeleteRow | InderAppistausdemKopf/ContentView.swift:328-336 | the row's item in the sorted, filtered list is the one deleted, buffered and un-scheduled |
| ContentScreen.ContentView.DeleteItems | InderAppistausdemKopf/ContentView.swift:326-336 | an empty offset set changes nothing; otherwise only the first swiped row's item is deleted, replacing what the buffer held |
| ContentScreen.ContentView.UndoDelete | InderAppistausdemKopf/ContentView.swift:345-352 | with an empty buffer nothing changes; otherwise the buffered item returns to the store and the banner goes, with uuids still unique |
| ContentScreen.ContentView.ExpireUndo | InderAppistausdemKopf/ContentView.swift:316-323 | the expired banner clears the buffer, which makes the deletion final |
| ContentScreen.ContentView.ResetFilters | InderAppistausdemKopf/ContentView.swift:214-217 | the reset restores all categories and sort by priority and keeps the status filter |
| ContentScreen.ListItemRowView.constructor | InderAppistausdemKopf/ContentView.swift:366-368 | the row holds its item |
| ContentScreen.ListItemRowView.ToggleDone | InderAppistausdemKopf/ContentView.swift:422-430 | the done flag flips and the update instant is stamped; the reminder is cancelled exactly when the item becomes done |
| ItemDetail.ItemDetailView.constructor | InderAppistausdemKopf/View/ItemDetailView.swift:9-12 | the detail screen starts with an empty buffer and no banner |
| ItemDetail.ItemDetailView.DeleteItem | InderAppistausdemKopf/View/ItemDetailView.swift:207-215 | the shown item is un-scheduled, buffered and removed, dropping exactly its uuid |
| ItemDetail.ItemDetailView.UndoDelete | InderAppistausdemKopf/View/ItemDetailView.swift:227-234 | with an empty buffer the store is unchanged; otherwise the item returns, at the end |
| ItemDetail.ItemDetailView.ExpireUndo | InderAppistausdemKopf/View/ItemDetailView.swift:197-204 | the expired banner clears the buffer |
| ItemDetail.DeleteThenUndo | InderAppistausdemKopf/View/ItemDetailView.swift:207-234 | delete then undo restores the store's contents and uuids; the reminder stays cancelled |
| ItemDetail.DeleteExpireUndo | InderAppistausdemKopf/View/ItemDetailView.swift:197-234 | after the banner expires, undo does nothing and the item stays deleted |
| Integrity.TitlesPresent | InderAppistausdemKopf/Utils/DataManager.swift:39-44 | defined as "every live title has a non-whitespace character"; Integrity.ValidateDataIntegrity decides it |
| Integrity.ValidateDataIntegrity | InderAppistausdemKopf/Utils/DataManager.swift:33-52 | the check passes exactly when the fetch succeeds and every live title has a non-whitespace character |
| Integrity.EmptyStoreIsValid | InderAppistausdemKopf/Utils/DataManager.swift:39-47 | an empty store passes |
| Integrity.DeleteKeepsTitlesPresent | InderAppistausdemKopf/Utils/DataManager.swift:39-44 | deleting keeps the check passing |
| Integrity.InsertKeepsTitlesPresent | InderAppistausdemKopf/Utils/DataManager.swift:39-44 | inserting an item with a present title keeps the check passing |
| AddEdit.TitleMissing | InderAppistausdemKopf/View/AddEditItemView.swift:42-43 | the hint shows, and the save button is disabled, exactly when the title is all whitespace |
| AddEdit.Validate | InderAppistausdemKopf/View/AddEditItemView.swift:130-143 | a blank title is rejected as empty; a trimmed title under three characters is rejected as too short; otherwise the trimmed title is accepted |
| AddEdit.Message | InderAppistausdemKopf/View/AddEditItemView.swift:133-143 | defined as the alert text of each rejection; AddEdit.AddEditItemView.ValidateAndSave shows it for the rejected title |
| AddEdit.EnabledButtonRejectsOnlyShortTitles | InderAppistausdemKopf/View/AddEditItemView.swift:103-143 | with the button enabled the empty-title branch cannot fire; a title is rejected exactly when it is too short |
| AddEdit.AcceptedTitleIsStable | InderAppistausdemKopf/View/AddEditItemView.swift:131-154 | an accepted title is already trimmed and is not empty after trimming, which is what the integrity check asks of every title |
| AddEdit.BlankTitleExample | InderAppistausdemKopf/View/AddEditItemView.swift:133-137 | three spaces are rejected as empty |
| AddEdit.ShortTitleExample | InderAppistausdemKopf/View/AddEditItemView.swift:139-143 | " ab " is rejected as too short |
| AddEdit.TrimmedTitleExample | InderAppistausdemKopf/View/AddEditItemView.swift:131-145 | " Milch\n" is accepted as "Milch" |
| AddEdit.StoredNote | InderAppistausdemKopf/View/AddEditItemView.swift:155 | an empty note is stored as no note, any other note as it is |
| AddEdit.StoredDueDate | InderAppistausdemKopf/View/AddEditItemView.swift:158 | a due date is stored exactly when the toggle is on and a date is set |
| AddEdit.DisplayedDueDate | InderAppistausdemKopf/View/AddEditItemView.swift:72-77 | the picker shows the set date, or the current instant when none is set |
| AddEdit.UntouchedPickerStoresNothing | InderAppistausdemKopf/View/AddEditItemView.swift:72-77 | turning the toggle on shows the current instant but stores no due date until the picker is touched |
| AddEdit.PrefillRoundTrip | InderAppistausdemKopf/View/AddEditItemView.swift:21-31 | saving a prefilled form keeps note and due date, except that an empty note becomes no note |
| AddEdit.NewItemReminderOutlivesItem | InderAppistausdemKopf/View/AddEditItemView.swift:187-196 | a new item's reminder is filed under a second uuid, so deleting the item leaves that reminder pending |
| AddEdit.AddEditItemView.constructor | InderAppistausdemKopf/View/AddEditItemView.swift:21-31 | the form starts from the item or from the new-item defaults; both toggles are on exactly when there is a due date |
| AddEdit.AddEditItemView.NavigationTitle | InderAppistausdemKopf/View/AddEditItemView.swift:93 | defined as "Neuer Eintrag" for a new item and "Eintrag bearbeiten" when editing |
| AddEdit.AddEditItemView.PickDate | InderAppistausdemKopf/View/AddEditItemView.swift:72-76 | picking a date sets it |
| AddEdit.AddEditItemView.ValidateAndSave | InderAppistausdemKopf/View/AddEditItemView.swift:130-146 | a rejected title raises the alert with its message and changes nothing else; an accepted one is saved, trimmed |
| AddEdit.AddEditItemView.ShowValidationAlert | InderAppistausdemKopf/View/AddEditItemView.swift:134-142 | the alert shows the message for the rejection |
| AddEdit.AddEditItemView.Save | InderAppistausdemKopf/View/AddEditItemView.swift:148-202 | a blank title changes nothing; otherwise the item is edited in place or a new one inserted, and after a successful save the reminder is planned if asked for and the sheet dismissed |
| AddEdit.AddEditItemView.WriteEdit | InderAppistausdemKopf/View/AddEditItemView.swift:152-159 | the form is written into the item; its uuid, creation instant and done flag stay |
| AddEdit.AddEditItemView.WriteNew | InderAppistausdemKopf/View/AddEditItemView.swift:160-170 | a new item built from the form, not done and stamped now, is inserted |
| AddEdit.AddEditItemView.FinishSave | InderAppistausdemKopf/View/AddEditItemView.swift:172-201 | a failed save plans nothing and keeps the sheet; a successful one plans the reminder when asked and dated, then dismisses |

## Left out

- Swift's `String.count` counts grapheme clusters. The model counts characters (code points), so its three-character minimum is the same only for titles without combining sequences.
- `trimmingCharacters(in: .whitespacesAndNewlines)` uses the Unicode whitespace set. The model lists those characters explicitly (`Strings.IsWhitespace`); there is no Unicode normalisation.
- Strings.CaseInsensitiveLess: `localizedCaseInsensitiveCompare` uses locale-aware comparison. The model folds ASCII case and compares code points lexicographically.
- FilterSortView.KeyAscending: where Foundation's `SortDescriptor` puts `nil` due dates is not modelled. The sort descriptors are not used by the list itself.
- ContentScreen.DescriptorAgreesWithComparator: the title descriptor compares with `.localizedStandard`, which orders runs of digits by value, while the list compares with `localizedCaseInsensitiveCompare`. The model proves they agree on titles without digits; where digits occur they can disagree (ContentScreen.TitleDescriptorDisagrees gives a pair they order oppositely). Due dates agree only among dated items, because the descriptor's `nil` placement is not modelled.
- Strings.StandardLess: `.localizedStandard` is approximated as ASCII case folding with digit runs compared by value. Locale collation, how leading zeros or equal values break ties, and punctuation rules are not modelled.
- ContentScreen.Sort: Swift's `sort(by:)` is not stable and its algorithm is unspecified. The model promises only a permutation that the comparator accepts, with an insertion sort standing in. The `items` computed by the app may therefore order tied items differently from the model's sort; the ghost `shown` out-parameters of the deletion methods stand for that unknown order.
- AddEdit.AddEditItemView.Save: a failed `context.save()` keeps the in-place edit or the insert that came before it, as the code does. The error is only printed, and nothing is rolled back.
- The result of the integrity check inside `save()` is only printed. The model does not call it there. Integrity.InsertKeepsTitlesPresent and AddEdit.AcceptedTitleIsStable show it would pass.
- `DataManager.saveContext` and `setupAutoSave` only save and print. They are not modelled. `DataManager` holds no state, so `validateDataIntegrity` is a module-level method.
- A failed save in `toggleDone` (ListItemRowView) is only printed, and the model leaves it out. The toggle keeps its effect, as in the code.
- ModelContext.Insert models `@Attribute(.unique)` as an upsert: an item with the same uuid is replaced. The position of items in the store is the model's choice (appended at the end), because the views never rely on it.
- PriorityLevel is written three times in the source: ContentView.swift:454-460, View/ItemDetailView.swift:167-173 and View/AddEditItemView.swift:214-220. The three copies are identical, so the model has one function.
- Time: timers and dispatch queues (the 5-second undo banner, the 2-second success banner, the 0.5-second dismiss after deleting from the detail screen) become explicit events or are dropped. Races between a timer and a user action are not modelled.
- Dates are whole seconds. The calendar trigger is the start of the due minute, with no time zones or calendars.
- The notification centre's answer to `add` arrives asynchronously; it is the `accepted` parameter. Sound, permission requests (`requestPermission`), `clearDeliveredNotifications`, `clearBadge`, `checkNotificationStatus` and `showTestNotification` talk only to the system; they are left out, except for the test notification's identifier.
- Haptic feedback, animations, colours, layout (`Theme/AppTheme.swift`) and the app entry point are presentation only.
- The `showingSuccessMessage` banner is only ever cleared in the modelled code, so the model tracks the flag but not the banner's content.
- The filter bar's visibility (shown only when the store is non-empty, ContentView.swift:59) is presentation and is not modelled.
