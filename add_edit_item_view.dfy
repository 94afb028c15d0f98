/**
 * The add/edit sheet (View/AddEditItemView.swift): title validation, the
 * form's state, and saving an item with its reminder.
 */
module AddEdit {
  import opened Optional
  import opened Strings
  import opened ListItemModel
  import opened Store
  import opened Notifications

  const MinimumTitleLength: nat := 3
  const EmptyTitleMessage: string := "Der Titel ist ein Pflichtfeld und darf nicht leer sein."
  const TooShortMessage: string := "Der Titel muss mindestens 3 Zeichen lang sein."

  /** The form shows the "Titel ist ein Pflichtfeld" hint and disables the
      save button exactly when this holds. */
  function TitleMissing(title: string): (missing: bool)
    ensures missing <==> IsBlank(title)
  {
    Trim(title) == []
  }

  datatype Validation = EmptyTitle | TooShort | Accepted(trimmed: string)

  /** The checks of `validateAndSave()`, in their order. */
  function Validate(title: string): (v: Validation)
    ensures v == EmptyTitle <==> IsBlank(title)
    ensures v == TooShort <==> !IsBlank(title) && |Trim(title)| < MinimumTitleLength
    ensures v.Accepted? ==> v.trimmed == Trim(title) && |v.trimmed| >= MinimumTitleLength
    ensures v.Accepted? ==> !IsWhitespace(v.trimmed[0]) && !IsWhitespace(v.trimmed[|v.trimmed| - 1])
  {
    var trimmedTitle := Trim(title);
    if trimmedTitle == [] then EmptyTitle
    else if |trimmedTitle| < MinimumTitleLength then TooShort
    else Accepted(trimmedTitle)
  }

  /** The alert text for a rejected title. */
  function Message(v: Validation): string
    requires !v.Accepted?
  {
    if v == EmptyTitle then EmptyTitleMessage else TooShortMessage
  }

  /** Because the button is disabled for a missing title, the empty-title
      branch of the validation is reachable only through the button's
      state, never by pressing it; what validation rejects for an enabled
      button is a title of one or two characters. */
  lemma EnabledButtonRejectsOnlyShortTitles(title: string)
    requires !TitleMissing(title)
    ensures Validate(title) != EmptyTitle
    ensures Validate(title) == TooShort <==> |Trim(title)| < MinimumTitleLength
  {
  }

  /** A title the sheet accepts is stored trimmed: trimming it again
      changes nothing, and it passes the integrity check. */
  lemma AcceptedTitleIsStable(title: string)
    requires Validate(title).Accepted?
    ensures Trim(Validate(title).trimmed) == Validate(title).trimmed
    ensures Trim(Validate(title).trimmed) != []
  {
    TrimIdempotent(title);
  }

  /** A title of spaces only is rejected as empty. */
  lemma BlankTitleExample()
    ensures Validate("   ") == EmptyTitle
  {
    assert IsBlank("   ");
  }

  /** Two letters between spaces are rejected as too short. */
  lemma ShortTitleExample()
    ensures Validate(" ab ") == TooShort
  {
    var s := " ab ";
    assert IsWhitespace(s[0]) && s[1..] == "ab ";
    assert !IsWhitespace("ab "[0]);
    assert DropLeadingWhitespace(s) == "ab ";
    var h := "ab ";
    assert IsWhitespace(h[2]) && h[..2] == "ab";
    assert !IsWhitespace("ab"[1]);
    assert DropTrailingWhitespace(h) == "ab";
  }

  /** Surrounding whitespace is dropped from an accepted title. */
  lemma TrimmedTitleExample()
    ensures Validate(" Milch\n") == Accepted("Milch")
  {
    var s := " Milch\n";
    assert IsWhitespace(s[0]) && s[1..] == "Milch\n";
    assert !IsWhitespace("Milch\n"[0]);
    assert DropLeadingWhitespace(s) == "Milch\n";
    var h := "Milch\n";
    assert IsWhitespace(h[5]) && h[..5] == "Milch";
    assert !IsWhitespace("Milch"[4]);
    assert DropTrailingWhitespace(h) == "Milch";
  }

  /** `note.isEmpty ? nil : note`. */
  function StoredNote(note: string): (n: Option<string>)
    ensures n == None <==> note == []
    ensures n.Some? ==> n.value == note
  {
    if note == [] then None else Some(note)
  }

  /** `setDueDate ? dueDate : nil`. */
  function StoredDueDate(setDueDate: bool, dueDate: Option<Timestamp>): (d: Option<Timestamp>)
    ensures d.Some? <==> setDueDate && dueDate.Some?
    ensures d.Some? ==> d == dueDate
  {
    if setDueDate then dueDate else None
  }

  /** The date picker's getter: `dueDate ?? Date()`. */
  function DisplayedDueDate(dueDate: Option<Timestamp>, now: Timestamp): (shown: Timestamp)
    ensures dueDate.Some? ==> shown == dueDate.value
    ensures dueDate.None? ==> shown == now
  {
    if dueDate.Some? then dueDate.value else now
  }

  /** Turning the due date on shows the current instant, but until the
      picker is touched nothing is stored, so no due date is saved and no
      reminder is planned. */
  lemma UntouchedPickerStoresNothing(now: Timestamp)
    ensures DisplayedDueDate(None, now) == now
    ensures StoredDueDate(true, None) == None
  {
  }

  /** Opening an item and saving the prefilled form keeps its note and due
      date, except that an empty note becomes no note. */
  lemma PrefillRoundTrip(note: Option<string>, dueDate: Option<Timestamp>)
    ensures StoredNote(if note.Some? then note.value else "") == if note == Some("") then None else note
    ensures StoredDueDate(dueDate.Some?, dueDate) == dueDate
  {
  }

  /** A new item's reminder is planned under a second, throw-away uuid
      (the sheet builds another `ListItem` to schedule). Deleting the new
      item cancels only its own key, so that reminder is left pending. */
  lemma NewItemReminderOutlivesItem(pending: PendingRequests, itemUuid: Uuid, reminderUuid: Uuid,
                                    title: string, due: Timestamp)
    requires itemUuid != reminderUuid
    ensures var scheduled := AfterSchedule(pending, reminderUuid, title, Some(due), true);
      && ReminderKey(itemUuid) !in AfterCancel(scheduled, itemUuid)
      && ReminderKey(reminderUuid) in AfterCancel(scheduled, itemUuid)
      && AfterCancel(scheduled, itemUuid)[ReminderKey(reminderUuid)] == ReminderRequest(reminderUuid, title, due)
  {
    var scheduled := AfterSchedule(pending, reminderUuid, title, Some(due), true);
    CancelIsLocal(scheduled, itemUuid, reminderUuid);
  }

  class AddEditItemView {
    const context: ModelContext
    const center: NotificationManager
    /** The item being edited, or null for a new one. */
    const item: ListItem?
    var title: string
    var note: string
    var category: Category
    var priority: Priority
    var dueDate: Option<Timestamp>
    var setDueDate: bool
    var enableReminder: bool
    var showingValidationAlert: bool
    var validationMessage: string
    var dismissed: bool

    /** `init(item:)`: the form starts from the item, or from the defaults
        of a new item; both toggles start on exactly when there is a due
        date. */
    constructor (context: ModelContext, center: NotificationManager, item: ListItem?)
      ensures this.context == context && this.center == center && this.item == item
      ensures item != null ==>
        && title == item.title && note == (if item.note.Some? then item.note.value else "")
        && category == item.category && priority == item.priority && dueDate == item.dueDate
      ensures item == null ==>
        title == "" && note == "" && category == Personal && priority == Medium && dueDate == None
      ensures setDueDate == dueDate.Some? && enableReminder == dueDate.Some?
      ensures !showingValidationAlert && validationMessage == "" && !dismissed
    {
      this.context := context;
      this.center := center;
      this.item := item;
      var due: Option<Timestamp> := if item != null then item.dueDate else None;
      title := if item != null then item.title else "";
      note := if item != null && item.note.Some? then item.note.value else "";
      category := if item != null then item.category else Personal;
      priority := if item != null then item.priority else Medium;
      dueDate := due;
      setDueDate := due.Some?;
      enableReminder := due.Some?;
      showingValidationAlert := false;
      validationMessage := "";
      dismissed := false;
    }

    function NavigationTitle(): string
      reads this
    {
      if item == null then "Neuer Eintrag" else "Eintrag bearbeiten"
    }

    /** The date picker's setter. */
    method PickDate(d: Timestamp)
      modifies this`dueDate
      ensures dueDate == Some(d)
    {
      dueDate := Some(d);
    }

    /** `validateAndSave()`: a title that is blank, or shorter than three
        characters once trimmed, only raises the alert with its message;
        an accepted one goes to `save()`. */
    method ValidateAndSave(now: Timestamp, newUuid: Uuid, reminderUuid: Uuid,
                           saveSucceeds: bool, reminderAccepted: bool)
      returns (created: ListItem?)
      requires context.Valid()
      modifies this`showingValidationAlert, this`validationMessage, this`dismissed, context, center, item
      ensures context.Valid()
      ensures !Validate(title).Accepted? ==>
        && created == null
        && showingValidationAlert && validationMessage == Message(Validate(title))
        && context.live == old(context.live) && center.pending == old(center.pending)
        && dismissed == old(dismissed)
        && (item != null ==> unchanged(item))
      ensures Validate(title).Accepted? ==>
        && showingValidationAlert == old(showingValidationAlert)
        && validationMessage == old(validationMessage)
        && dismissed == (saveSucceeds || old(dismissed))
      ensures Validate(title).Accepted? && item != null ==>
        && created == null
        && item.title == Trim(title) && item.note == StoredNote(note)
        && item.category == category && item.priority == priority
        && item.dueDate == StoredDueDate(setDueDate, dueDate) && item.updatedAt == now
        && item.uuid == old(item.uuid) && item.createdAt == old(item.createdAt)
        && item.isDone == old(item.isDone)
        && context.live == old(context.live)
      ensures Validate(title).Accepted? && item == null ==>
        && created != null && fresh(created)
        && created.uuid == newUuid && created.title == Trim(title)
        && created.note == StoredNote(note) && created.category == category
        && created.priority == priority && created.dueDate == StoredDueDate(setDueDate, dueDate)
        && !created.isDone && created.createdAt == now && created.updatedAt == now
        && context.live == old(WithoutId(context.live, newUuid)) + [created]
      ensures Validate(title).Accepted? && saveSucceeds && enableReminder && setDueDate && dueDate.Some? ==>
        center.pending == AfterSchedule(old(center.pending), if item != null then old(item.uuid) else reminderUuid,
                                        Trim(title), dueDate, reminderAccepted)
      ensures !(saveSucceeds && enableReminder && setDueDate && dueDate.Some?) ==>
        center.pending == old(center.pending)
    {
      created := null;
      var v := Validate(title);
      if !v.Accepted? {
        ShowValidationAlert(v);
        return;
      }
      assert !IsBlank(title) && v.trimmed == Trim(title);
      created := Save(now, newUuid, reminderUuid, saveSucceeds, reminderAccepted);
    }

    /** Raises the alert with the message for the rejected title. */
    method ShowValidationAlert(v: Validation)
      requires !v.Accepted?
      modifies this`showingValidationAlert, this`validationMessage
      ensures showingValidationAlert && validationMessage == Message(v)
    {
      validationMessage := Message(v);
      showingValidationAlert := true;
    }

    /** `save()`: writes the trimmed title and the rest of the form, into
        the edited item in place or as a new item inserted into the store,
        then saves the store; `saveSucceeds` says whether that works. Only
        after a successful save is the reminder planned and the sheet
        dismissed; a failed save keeps what was written. Its own guard
        against a blank title repeats the first check of the validation.
        `now`, `newUuid` and `reminderUuid` stand for `.now` and the two
        `UUID()` calls; `reminderAccepted` for the notification centre's
        answer. */
    method Save(now: Timestamp, newUuid: Uuid, reminderUuid: Uuid,
                saveSucceeds: bool, reminderAccepted: bool)
      returns (created: ListItem?)
      requires context.Valid()
      modifies this`dismissed, context, center, item
      ensures context.Valid()
      ensures IsBlank(title) ==>
        && created == null && context.live == old(context.live)
        && center.pending == old(center.pending) && dismissed == old(dismissed)
        && (item != null ==> unchanged(item))
      ensures !IsBlank(title) ==> dismissed == (saveSucceeds || old(dismissed))
      ensures !IsBlank(title) && item != null ==>
        && created == null
        && item.title == Trim(title) && item.note == StoredNote(note)
        && item.category == category && item.priority == priority
        && item.dueDate == StoredDueDate(setDueDate, dueDate) && item.updatedAt == now
        && item.uuid == old(item.uuid) && item.createdAt == old(item.createdAt)
        && item.isDone == old(item.isDone)
        && context.live == old(context.live)
      ensures !IsBlank(title) && item == null ==>
        && created != null && fresh(created)
        && created.uuid == newUuid && created.title == Trim(title)
        && created.note == StoredNote(note) && created.category == category
        && created.priority == priority && created.dueDate == StoredDueDate(setDueDate, dueDate)
        && !created.isDone && created.createdAt == now && created.updatedAt == now
        && context.live == old(WithoutId(context.live, newUuid)) + [created]
      ensures !IsBlank(title) && saveSucceeds && enableReminder && setDueDate && dueDate.Some? ==>
        center.pending == AfterSchedule(old(center.pending), if item != null then old(item.uuid) else reminderUuid,
                                        Trim(title), dueDate, reminderAccepted)
      ensures !(saveSucceeds && enableReminder && setDueDate && dueDate.Some?) ==>
        center.pending == old(center.pending)
    {
      created := null;
      var trimmed := Trim(title);
      if trimmed == [] {
        return;
      }
      if item != null {
        WriteEdit(trimmed, now);
      } else {
        created := WriteNew(trimmed, now, newUuid);
      }
      FinishSave(trimmed, now, reminderUuid, saveSucceeds, reminderAccepted);
    }

    /** The edit branch of `save()`: the form is written into the item;
        its uuid, creation instant and done flag stay. */
    method WriteEdit(trimmed: string, now: Timestamp)
      requires item != null && context.Valid()
      modifies item
      ensures context.Valid()
      ensures item.title == trimmed && item.note == StoredNote(note)
      ensures item.category == category && item.priority == priority
      ensures item.dueDate == StoredDueDate(setDueDate, dueDate) && item.updatedAt == now
      ensures item.uuid == old(item.uuid) && item.createdAt == old(item.createdAt)
      ensures item.isDone == old(item.isDone)
    {
      item.title := trimmed;
      item.note := StoredNote(note);
      item.category := category;
      item.priority := priority;
      item.dueDate := StoredDueDate(setDueDate, dueDate);
      item.updatedAt := now;
    }

    /** The add branch of `save()`: a new item from the form goes into the
        store. */
    method WriteNew(trimmed: string, now: Timestamp, newUuid: Uuid) returns (created: ListItem)
      requires context.Valid()
      modifies context
      ensures context.Valid()
      ensures fresh(created)
      ensures created.uuid == newUuid && created.title == trimmed
      ensures created.note == StoredNote(note) && created.category == category
      ensures created.priority == priority && created.dueDate == StoredDueDate(setDueDate, dueDate)
      ensures !created.isDone && created.createdAt == now && created.updatedAt == now
      ensures context.live == old(WithoutId(context.live, newUuid)) + [created]
    {
      ghost var kept := WithoutId(context.live, newUuid);
      created := new ListItem(newUuid, trimmed, StoredNote(note), category, priority,
                              StoredDueDate(setDueDate, dueDate), createdAt := now);
      context.Insert(created);
      assert context.live == kept + [created];
    }

    /** The rest of `save()` once the form is written: after a successful
        store save, the reminder is planned if asked for and there is a
        date (for the edited item, or for a second item built under
        `reminderUuid`), and the sheet is dismissed. */
    method FinishSave(trimmed: string, now: Timestamp, reminderUuid: Uuid,
                      saveSucceeds: bool, accepted: bool)
      requires item != null ==> item.title == trimmed && item.dueDate == StoredDueDate(setDueDate, dueDate)
      modifies this`dismissed, center
      ensures dismissed == (saveSucceeds || old(dismissed))
      ensures saveSucceeds && enableReminder && setDueDate && dueDate.Some? ==>
        center.pending == AfterSchedule(old(center.pending), if item != null then item.uuid else reminderUuid,
                                        trimmed, dueDate, accepted)
      ensures !(saveSucceeds && enableReminder && setDueDate && dueDate.Some?) ==>
        center.pending == old(center.pending)
    {
      if !saveSucceeds {
        return;
      }
      if enableReminder && setDueDate && dueDate.Some? {
        var itemToSchedule: ListItem;
        if item != null {
          itemToSchedule := item;
        } else {
          itemToSchedule := new ListItem(reminderUuid, trimmed, StoredNote(note), category, priority,
                                         dueDate, createdAt := now);
        }
        center.ScheduleReminder(itemToSchedule, accepted);
      }
      dismissed := true;
    }
  }
}
