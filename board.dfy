/**
 * The scheduling screen's state and event handlers
 * (src/components/dashboard/WasteSegregationScheduling.jsx): the schedule
 * list, the cooldown entries kept in the browser's key-value storage, and a
 * ghost log of every notification the screen raised. Each call to the
 * remote store is replaced by a parameter that says whether it succeeded.
 */
module Board {
  import opened Wrappers
  import opened Schedules
  import opened Reminders

  /** Where a notification went: the store's notifications table, the browser, or nowhere (logged only). */
  datatype Channel = Stored | BrowserFallback | Dropped

  datatype Notice = Notice(relatedId: string, message: string, via: Channel)

  /** The channel `createNotification` uses when the store insert succeeds or not, and notification permission is granted or not. */
  function Delivery(storeUp: bool, granted: bool): (c: Channel)
    ensures c == Stored <==> storeUp
    ensures c == BrowserFallback <==> !storeUp && granted
  {
    if storeUp then Stored else if granted then BrowserFallback else Dropped
  }

  /** The notices a sequence of reminders produces when every one goes through `via`. */
  function Delivered(rs: seq<Reminder>, via: Channel): (ns: seq<Notice>)
    ensures |ns| == |rs|
    ensures forall i :: 0 <= i < |rs| ==> ns[i] == Notice(rs[i].scheduleId, rs[i].message, via)
  {
    if rs == [] then []
    else Delivered(rs[..|rs| - 1], via) + [Notice(rs[|rs| - 1].scheduleId, rs[|rs| - 1].message, via)]
  }

  /** The index of the first underscore of `s`, or `|s|` when there is none. */
  function FirstUnderscore(s: string): (i: nat)
    ensures i <= |s|
    ensures '_' !in s[..i]
    ensures i < |s| ==> s[i] == '_'
  {
    if s == [] || s[0] == '_' then 0
    else
      var m := FirstUnderscore(s[1..]);
      assert s[..m + 1] == [s[0]] + s[1..][..m];
      m + 1
  }

  /** JavaScript's `replace` with a one-character string pattern: only the first underscore becomes a space. */
  function ReplaceFirstUnderscore(s: string): (r: string)
    ensures |r| == |s|
    ensures '_' !in s ==> r == s
    ensures forall k :: 0 <= k < |s| ==> r[k] == if k == FirstUnderscore(s) then ' ' else s[k]
  {
    var i := FirstUnderscore(s);
    if i == |s| then
      assert s[..i] == s;
      s
    else s[..i] + " " + s[i + 1..]
  }

  /** The status label a notification shows for work in progress. */
  lemma InProgressLabel()
    ensures ReplaceFirstUnderscore(StatusCode(InProgress)) == "in progress"
  {
    var s := StatusCode(InProgress);
    assert s[2] == '_';
    assert s[..2] == "in";
  }

  /** Every status label a notification shows is free of underscores. */
  lemma LabelHasNoUnderscore(status: Status)
    ensures '_' !in ReplaceFirstUnderscore(StatusCode(status))
  {
    if status == InProgress {
      InProgressLabel();
      InProgressHasNoUnderscore(ReplaceFirstUnderscore(StatusCode(status)));
    } else {
      assert '_' !in StatusCode(status);
    }
  }

  lemma InProgressHasNoUnderscore(l: string)
    requires l == "in progress"
    ensures '_' !in l
  {
  }

  /** The status value the store and the list hold. */
  function StatusCode(status: Status): string {
    match status
    case Scheduled => "scheduled"
    case InProgress => "in_progress"
    case Completed => "completed"
    case Cancelled => "cancelled"
  }

  const StatusPrefix := "Schedule status changed to "

  lemma PrefixHasNoUnderscore()
    ensures '_' !in StatusPrefix
  {
    forall i | 0 <= i < |StatusPrefix| ensures StatusPrefix[i] != '_' {
    }
  }

  function StatusMessage(status: Status): (m: string)
    ensures StatusPrefix <= m
    ensures '_' !in m
  {
    PrefixHasNoUnderscore();
    LabelHasNoUnderscore(status);
    StatusPrefix + ReplaceFirstUnderscore(StatusCode(status))
  }

  /** The label of each status, as the notification shows it. */
  lemma LabelOf(status: Status)
    ensures ReplaceFirstUnderscore(StatusCode(status)) ==
              match status
              case Scheduled => "scheduled"
              case InProgress => "in progress"
              case Completed => "completed"
              case Cancelled => "cancelled"
  {
    if status == InProgress {
      InProgressLabel();
    } else {
      assert '_' !in StatusCode(status);
    }
  }

  /** Different statuses carry different labels. */
  lemma LabelsDiffer(a: Status, b: Status)
    requires a != b
    ensures ReplaceFirstUnderscore(StatusCode(a)) != ReplaceFirstUnderscore(StatusCode(b))
  {
    LabelOf(a);
    LabelOf(b);
    var la, lb := ReplaceFirstUnderscore(StatusCode(a)), ReplaceFirstUnderscore(StatusCode(b));
    assert la[0] != lb[0] || la[1] != lb[1];
  }

  /** Different statuses are announced with different messages. */
  lemma StatusMessageInjective(a: Status, b: Status)
    requires a != b
    ensures StatusMessage(a) != StatusMessage(b)
  {
    LabelsDiffer(a, b);
    var n := |StatusPrefix|;
    assert StatusMessage(a)[n..] == ReplaceFirstUnderscore(StatusCode(a));
    assert StatusMessage(b)[n..] == ReplaceFirstUnderscore(StatusCode(b));
  }

  class SchedulingBoard {
    var schedules: seq<Schedule>
    /** The cooldown entries of the browser's key-value storage, keyed by `CooldownKey`. */
    var storage: map<string, int>
    /** Every notification raised, in order. */
    ghost var notices: seq<Notice>

    constructor (loaded: seq<Schedule>, stored: map<string, int>)
      ensures schedules == loaded && storage == stored && notices == []
    {
      schedules := loaded;
      storage := stored;
      notices := [];
    }

    /**
     * `createNotification`: one notice per call, whatever happens; a failed
     * store insert falls back to the browser and never raises an error.
     */
    method CreateNotification(scheduleId: string, message: string, storeUp: bool, granted: bool)
      modifies this`notices
      ensures notices == old(notices) + [Notice(scheduleId, message, Delivery(storeUp, granted))]
    {
      notices := notices + [Notice(scheduleId, message, Delivery(storeUp, granted))];
    }

    /**
     * `checkUpcomingSchedules` at time `now`: the storage and the log move
     * as `Scan` says; the list itself is not touched.
     */
    method CheckUpcomingSchedules(now: int, format: int -> string, storeUp: bool, granted: bool)
      modifies this`storage, this`notices
      ensures storage == Scan(schedules, now, old(storage), format).cooldown
      ensures notices == old(notices) + Delivered(Scan(schedules, now, old(storage), format).reminders, Delivery(storeUp, granted))
      ensures schedules == [] ==> storage == old(storage) && notices == old(notices)
    {
      if |schedules| == 0 {
        return;
      }
      var upcoming := Upcoming(schedules, now);
      RemindAll(upcoming, now, format, storeUp, granted);
    }

    /** The loop of `checkUpcomingSchedules` over the schedules `upcoming` it selected. */
    method RemindAll(upcoming: seq<Schedule>, now: int, format: int -> string, storeUp: bool, granted: bool)
      modifies this`storage, this`notices
      ensures storage == ScanFrom(upcoming, now, old(storage), format).cooldown
      ensures notices == old(notices) + Delivered(ScanFrom(upcoming, now, old(storage), format).reminders, Delivery(storeUp, granted))
    {
      ghost var via := Delivery(storeUp, granted);
      ghost var logged := notices;
      ghost var st := ScanState(storage, []);
      var i := 0;
      while i < |upcoming|
        invariant 0 <= i <= |upcoming|
        invariant st == ScanFrom(upcoming[..i], now, old(storage), format)
        invariant storage == st.cooldown
        invariant notices == logged + Delivered(st.reminders, via)
      {
        ghost var next := Step(st, upcoming[i], now, format);
        assert upcoming[..i + 1][..i] == upcoming[..i];
        assert ScanFrom(upcoming[..i + 1], now, old(storage), format) == next;
        RemindIfDue(upcoming[i], now, format, storeUp, granted, st, logged);
        st := next;
        i := i + 1;
      }
      assert upcoming[..i] == upcoming;
    }

    /** One pass of the scan's loop: remind about `schedule` unless its cooldown entry is under an hour old. */
    method RemindIfDue(schedule: Schedule, now: int, format: int -> string, storeUp: bool, granted: bool,
                       ghost st: ScanState, ghost logged: seq<Notice>)
      requires storage == st.cooldown
      requires notices == logged + Delivered(st.reminders, Delivery(storeUp, granted))
      modifies this`storage, this`notices
      ensures storage == Step(st, schedule, now, format).cooldown
      ensures notices == logged + Delivered(Step(st, schedule, now, format).reminders, Delivery(storeUp, granted))
    {
      var notificationKey := CooldownKey(schedule.id);
      if notificationKey !in storage || now - storage[notificationKey] > CooldownMs {
        var r := Reminder(schedule.id, ReminderMessage(schedule, format));
        assert (st.reminders + [r])[..|st.reminders|] == st.reminders;
        CreateNotification(schedule.id, r.message, storeUp, granted);
        storage := storage[notificationKey := now];
      }
    }

    /** The edit branch of `handleScheduleSubmit`: the list changes only when the store accepted the update. */
    method SubmitEdit(id: string, form: ScheduleForm, stamp: string, storeOk: bool)
      modifies this`schedules
      ensures schedules == if storeOk then EditById(old(schedules), id, form, stamp) else old(schedules)
    {
      if !storeOk {
        return;
      }
      schedules := EditById(schedules, id, form, stamp);
    }

    /** The create branch of `handleScheduleSubmit`: `inserted` is the record the store returned, or `None` on an error. */
    method SubmitCreate(inserted: Option<Schedule>)
      modifies this`schedules
      ensures schedules == if inserted.Some? then Prepend(old(schedules), inserted.value) else old(schedules)
    {
      if inserted.None? {
        return;
      }
      schedules := Prepend(schedules, inserted.value);
    }

    /** `handleDeleteSchedule`: nothing happens unless the user confirmed and the store accepted the delete. */
    method DeleteSchedule(id: string, confirmed: bool, storeOk: bool)
      modifies this`schedules
      ensures schedules == if confirmed && storeOk then DeleteById(old(schedules), id) else old(schedules)
    {
      if !confirmed {
        return;
      }
      if !storeOk {
        return;
      }
      schedules := DeleteById(schedules, id);
    }

    /**
     * `handleUpdateStatus`: on a store error nothing changes and no
     * notification is raised; on success the list is updated and exactly
     * one status-change notification is raised.
     */
    method UpdateStatus(id: string, status: Status, stamp: string, storeOk: bool, notifyStoreUp: bool, granted: bool)
      modifies this`schedules, this`notices
      ensures !storeOk ==> schedules == old(schedules) && notices == old(notices)
      ensures storeOk ==> schedules == SetStatusById(old(schedules), id, status, stamp)
      ensures storeOk ==> notices == old(notices) + [Notice(id, StatusMessage(status), Delivery(notifyStoreUp, granted))]
    {
      if !storeOk {
        return;
      }
      schedules := SetStatusById(schedules, id, status, stamp);
      CreateNotification(id, StatusMessage(status), notifyStoreUp, granted);
    }

    /** `filteredSchedules` for the current list. */
    function FilteredSchedules(filter: StatusFilter): (ys: seq<Schedule>)
      reads this
      ensures filter.All? ==> ys == schedules
      ensures filter.Only? ==> forall s :: s in ys <==> s in schedules && s.status == filter.status
    {
      Filtered(schedules, filter)
    }
  }
}
