/**
 * The reminder scheduler (Utils/NotificationManager.swift). The system's
 * notification centre is reduced to its pending requests, a map from
 * request identifier to request.
 */
module Notifications {
  import opened Optional
  import opened ListItemModel

  const ReminderPrefix: string := "reminder_"
  const ReminderTitle: string := "\U{1F4C5} F\U{E4}lligkeit erreicht"
  const DueSuffix: string := " ist jetzt f\U{E4}llig"
  /** The identifier `showTestNotification` uses. */
  const TestNotificationId: string := "test_notification"

  datatype Content = Content(title: string, body: string, defaultSound: bool, badge: int)

  /** A calendar trigger. Calendar components down to the minute are kept
      as the first second of that minute. */
  datatype Trigger = CalendarTrigger(dateMatching: Timestamp, repeats: bool)

  datatype Request = Request(identifier: string, content: Content, trigger: Trigger)

  type PendingRequests = map<string, Request>

  /** The request identifier of an item's reminder. */
  function ReminderKey(u: Uuid): string {
    ReminderPrefix + u.uuidString
  }

  /** Distinct items never share a request identifier. */
  lemma ReminderKeyInjective(u: Uuid, v: Uuid)
    requires ReminderKey(u) == ReminderKey(v)
    ensures u == v
  {
    assert u.uuidString == ReminderKey(u)[|ReminderPrefix|..];
    assert v.uuidString == ReminderKey(v)[|ReminderPrefix|..];
  }

  /** No reminder can collide with the test notification. */
  lemma ReminderKeyIsNotTestId(u: Uuid)
    ensures ReminderKey(u) != TestNotificationId
  {
    assert ReminderKey(u)[0] == 'r' != TestNotificationId[0];
  }

  /** `dateComponents([.year, .month, .day, .hour, .minute], from: t)`:
      the seconds are dropped. */
  function MinuteOf(t: Timestamp): (m: Timestamp)
    ensures m <= t < m + 60
    ensures m % 60 == 0
  {
    t - t % 60
  }

  /** Two instants give the same trigger exactly when they fall in the
      same minute. */
  lemma SameTriggerIffSameMinute(t1: Timestamp, t2: Timestamp)
    ensures MinuteOf(t1) == MinuteOf(t2) <==> t1 / 60 == t2 / 60
  {
    assert MinuteOf(t1) == (t1 / 60) * 60;
    assert MinuteOf(t2) == (t2 / 60) * 60;
  }

  /** The request `scheduleReminder` builds for an item. */
  function ReminderRequest(u: Uuid, title: string, due: Timestamp): Request {
    Request(ReminderKey(u),
            Content(ReminderTitle, title + DueSuffix, true, 1),
            CalendarTrigger(MinuteOf(due), false))
  }

  /** What the reminder says and when it fires: the fixed title, a body
      that starts with the item's title, badge 1, once, within the due
      minute. */
  lemma ReminderRequestShape(u: Uuid, title: string, due: Timestamp)
    ensures var r := ReminderRequest(u, title, due);
      && r.identifier == ReminderKey(u)
      && r.content.title == ReminderTitle
      && r.content.body[..|title|] == title
      && r.content.body[|title|..] == DueSuffix
      && r.content.badge == 1
      && !r.trigger.repeats
      && r.trigger.dateMatching <= due < r.trigger.dateMatching + 60
  {
  }

  /** The pending requests after `removePendingNotificationRequests` for
      the item's identifier. */
  function AfterCancel(pending: PendingRequests, u: Uuid): (after: PendingRequests)
    ensures ReminderKey(u) !in after
    ensures forall k :: k in after ==> k in pending
    ensures forall k :: k in pending && k != ReminderKey(u) ==> k in after && after[k] == pending[k]
  {
    pending - {ReminderKey(u)}
  }

  /** The pending requests after `scheduleReminder`: nothing changes
      without a due date; otherwise the item's request is removed and, if
      the centre accepts the new one, added again. */
  function AfterSchedule(pending: PendingRequests, u: Uuid, title: string,
                         dueDate: Option<Timestamp>, accepted: bool): (after: PendingRequests)
    ensures dueDate.None? ==> after == pending
    ensures dueDate.Some? && accepted ==>
      ReminderKey(u) in after && after[ReminderKey(u)] == ReminderRequest(u, title, dueDate.value)
    ensures dueDate.Some? && !accepted ==> ReminderKey(u) !in after
    ensures forall k :: k != ReminderKey(u) ==> (k in after <==> k in pending)
    ensures forall k :: k in after && k != ReminderKey(u) ==> after[k] == pending[k]
  {
    if dueDate.None? then pending
    else
      var cleared := AfterCancel(pending, u);
      if accepted then cleared[ReminderKey(u) := ReminderRequest(u, title, dueDate.value)]
      else cleared
  }

  /** Because of cancel-then-add, scheduling again replaces the request:
      the outcome depends only on the last call. */
  lemma ScheduleTwiceIsScheduleOnce(pending: PendingRequests, u: Uuid, title: string,
                                    dueDate: Option<Timestamp>, first: bool, second: bool)
    ensures AfterSchedule(AfterSchedule(pending, u, title, dueDate, first), u, title, dueDate, second)
         == AfterSchedule(pending, u, title, dueDate, second)
  {
  }

  /** Scheduling and then cancelling the same item leaves no request under
      its key, and every other request as it was. */
  lemma ScheduleThenCancel(pending: PendingRequests, u: Uuid, title: string,
                           dueDate: Option<Timestamp>, accepted: bool)
    ensures AfterCancel(AfterSchedule(pending, u, title, dueDate, accepted), u) == AfterCancel(pending, u)
  {
  }

  /** Cancelling a reminder that is not pending is a no-op. */
  lemma CancelAbsentIsNoop(pending: PendingRequests, u: Uuid)
    requires ReminderKey(u) !in pending
    ensures AfterCancel(pending, u) == pending
  {
  }

  /** Cancelling one item's reminder never touches another item's. */
  lemma CancelIsLocal(pending: PendingRequests, u: Uuid, v: Uuid)
    requires u != v && ReminderKey(v) in pending
    ensures ReminderKey(v) in AfterCancel(pending, u)
    ensures AfterCancel(pending, u)[ReminderKey(v)] == pending[ReminderKey(v)]
  {
    if ReminderKey(u) == ReminderKey(v) {
      ReminderKeyInjective(u, v);
    }
  }

  /** The singleton `NotificationManager.shared`, holding the centre's
      pending requests. */
  class NotificationManager {
    var pending: PendingRequests

    constructor (pending: PendingRequests)
      ensures this.pending == pending
    {
      this.pending := pending;
    }

    /** `scheduleReminder(for:)`. Whether the centre accepts the request
        is the `accepted` argument; a rejection is only logged. */
    method ScheduleReminder(item: ListItem, accepted: bool)
      modifies this
      ensures pending == AfterSchedule(old(pending), item.uuid, item.title, item.dueDate, accepted)
    {
      if item.dueDate.None? {
        return;
      }
      var due := item.dueDate.value;
      CancelReminder(item);
      var request := ReminderRequest(item.uuid, item.title, due);
      if accepted {
        pending := pending[request.identifier := request];
      }
    }

    /** `cancelReminder(for:)`. */
    method CancelReminder(item: ListItem)
      modifies this
      ensures pending == AfterCancel(old(pending), item.uuid)
    {
      pending := pending - {ReminderKey(item.uuid)};
    }

    /** `cancelAllReminders()`: every pending request goes, the test
        notification included. */
    method CancelAllReminders()
      modifies this
      ensures pending == map[]
      ensures TestNotificationId !in pending
    {
      pending := map[];
    }
  }
}
