/**
 * The reminder scan of the scheduling screen (`checkUpcomingSchedules` in
 * src/components/dashboard/WasteSegregationScheduling.jsx) as a function of
 * the schedule list, the time `now` and the cooldown entries kept in the
 * browser's key-value storage, with what it promises: which schedules get a
 * reminder, what the cooldown entries become, and that a second scan within
 * the hour stays quiet.
 */
module Reminders {
  import opened Wrappers
  import opened Schedules

  /** One hour in milliseconds: the cooldown between two reminders for one schedule. */
  const CooldownMs := 60 * 60 * 1000
  /** Two hours in milliseconds: how far ahead the scan looks. */
  const LookaheadMs := 2 * 60 * 60 * 1000

  const KeyPrefix := "schedule_reminder_"

  /** The storage key of a schedule's cooldown entry. */
  function CooldownKey(id: string): string {
    KeyPrefix + id
  }

  /** Different schedules have different cooldown keys. */
  lemma CooldownKeyInjective(a: string, b: string)
    ensures CooldownKey(a) == CooldownKey(b) ==> a == b
  {
    if CooldownKey(a) == CooldownKey(b) {
      assert a == CooldownKey(a)[|KeyPrefix|..];
      assert b == CooldownKey(b)[|KeyPrefix|..];
    }
  }

  /** The filter of the scan: still scheduled, strictly after `now`, at most two hours ahead. */
  predicate IsUpcoming(s: Schedule, now: int) {
    now < s.date && s.date <= now + LookaheadMs && s.status == Scheduled
  }

  /** `upcomingSchedules`, in list order. */
  function Upcoming(xs: seq<Schedule>, now: int): (ys: seq<Schedule>)
    ensures |ys| <= |xs|
    ensures forall s :: s in ys <==> s in xs && IsUpcoming(s, now)
  {
    Filter(xs, (s: Schedule) => IsUpcoming(s, now))
  }

  /** A reminder for schedule `id` is due: no cooldown entry, or the last one is more than an hour old. */
  predicate ReminderDue(cooldown: map<string, int>, id: string, now: int) {
    CooldownKey(id) !in cooldown || now - cooldown[CooldownKey(id)] > CooldownMs
  }

  /**
   * The cooldown comparison is strict: an entry exactly an hour old still
   * blocks the reminder, one a millisecond older does not, and a schedule
   * with no entry is always due.
   */
  lemma CooldownIsStrict(cooldown: map<string, int>, id: string, now: int)
    ensures CooldownKey(id) !in cooldown ==> ReminderDue(cooldown, id, now)
    ensures ReminderDue(cooldown[CooldownKey(id) := now - CooldownMs - 1], id, now)
    ensures !ReminderDue(cooldown[CooldownKey(id) := now - CooldownMs], id, now)
  {
  }

  datatype Reminder = Reminder(scheduleId: string, message: string)

  /** What the scan leaves behind: the cooldown entries and the reminders it raised, in order. */
  datatype ScanState = ScanState(cooldown: map<string, int>, reminders: seq<Reminder>)

  /** The reminder text, with `format` standing for the locale's date formatting. */
  function ReminderMessage(s: Schedule, format: int -> string): (m: string)
    ensures "Upcoming " <= m
    ensures |m| >= 9 + |s.wasteType| + |format(s.date)|
    ensures m[9..9 + |s.wasteType|] == s.wasteType
    ensures m[|m| - |format(s.date)|..] == format(s.date)
  {
    "Upcoming " + s.wasteType + " collection in " + s.barangay + " scheduled for " + format(s.date)
  }

  /** One iteration of the scan's loop. */
  function Step(st: ScanState, s: Schedule, now: int, format: int -> string): (r: ScanState)
    ensures !ReminderDue(st.cooldown, s.id, now) ==> r == st
    ensures ReminderDue(st.cooldown, s.id, now) ==>
              |r.reminders| == |st.reminders| + 1 && r.reminders[..|st.reminders|] == st.reminders &&
              r.reminders[|st.reminders|].scheduleId == s.id && !ReminderDue(r.cooldown, s.id, now)
    ensures forall key :: key in st.cooldown ==> key in r.cooldown
  {
    if ReminderDue(st.cooldown, s.id, now) then
      ScanState(st.cooldown[CooldownKey(s.id) := now], st.reminders + [Reminder(s.id, ReminderMessage(s, format))])
    else st
  }

  /** The scan's loop over the selected schedules `sel`, from the cooldown entries `cooldown`. */
  function ScanFrom(sel: seq<Schedule>, now: int, cooldown: map<string, int>, format: int -> string): (st: ScanState)
    ensures |st.reminders| <= |sel|
    ensures forall key :: key in cooldown ==> key in st.cooldown
  {
    if sel == [] then ScanState(cooldown, [])
    else Step(ScanFrom(sel[..|sel| - 1], now, cooldown, format), sel[|sel| - 1], now, format)
  }

  /** `checkUpcomingSchedules` at time `now` over the list `xs`. */
  function Scan(xs: seq<Schedule>, now: int, cooldown: map<string, int>, format: int -> string): (st: ScanState)
    ensures xs == [] ==> st == ScanState(cooldown, [])
    ensures |st.reminders| <= |xs|
    ensures forall key :: key in cooldown ==> key in st.cooldown
  {
    if xs == [] then ScanState(cooldown, [])
    else ScanFrom(Upcoming(xs, now), now, cooldown, format)
  }

  predicate HasReminderFor(rs: seq<Reminder>, id: string) {
    exists i :: 0 <= i < |rs| && rs[i].scheduleId == id
  }

  predicate Selects(sel: seq<Schedule>, id: string) {
    exists i :: 0 <= i < |sel| && sel[i].id == id
  }

  /** A schedule the scan does not select gets no reminder and its cooldown entry is untouched. */
  lemma {:induction false} ScanLeavesOthers(sel: seq<Schedule>, now: int, cooldown: map<string, int>, format: int -> string, id: string)
    requires !Selects(sel, id)
    ensures var st := ScanFrom(sel, now, cooldown, format);
            !HasReminderFor(st.reminders, id) &&
            (CooldownKey(id) in st.cooldown <==> CooldownKey(id) in cooldown) &&
            (CooldownKey(id) in cooldown ==> st.cooldown[CooldownKey(id)] == cooldown[CooldownKey(id)])
  {
    if sel != [] {
      var init := sel[..|sel| - 1];
      ScanLeavesOthers(init, now, cooldown, format, id);
      CooldownKeyInjective(sel[|sel| - 1].id, id);
    }
  }

  /** Every reminder the scan raised is recorded: its schedule's cooldown entry is `now`. */
  lemma {:induction false} ScanRecordsReminders(sel: seq<Schedule>, now: int, cooldown: map<string, int>, format: int -> string, id: string)
    requires HasReminderFor(ScanFrom(sel, now, cooldown, format).reminders, id)
    ensures var st := ScanFrom(sel, now, cooldown, format);
            CooldownKey(id) in st.cooldown && st.cooldown[CooldownKey(id)] == now
  {
    var init := sel[..|sel| - 1];
    var last := sel[|sel| - 1];
    var before := ScanFrom(init, now, cooldown, format);
    CooldownKeyInjective(last.id, id);
    if last.id != id {
      var rs := ScanFrom(sel, now, cooldown, format).reminders;
      var i :| 0 <= i < |rs| && rs[i].scheduleId == id;
      assert i < |before.reminders| && before.reminders[i].scheduleId == id;
      ScanRecordsReminders(init, now, cooldown, format, id);
    } else if !ReminderDue(before.cooldown, id, now) {
      ScanRecordsReminders(init, now, cooldown, format, id);
    }
  }

  /** A schedule whose cooldown entry is at most an hour old gets no reminder, and the entry stays as it was. */
  lemma {:induction false} ScanRespectsCooldown(sel: seq<Schedule>, now: int, cooldown: map<string, int>, format: int -> string, id: string)
    requires CooldownKey(id) in cooldown && now - cooldown[CooldownKey(id)] <= CooldownMs
    ensures var st := ScanFrom(sel, now, cooldown, format);
            !HasReminderFor(st.reminders, id) &&
            CooldownKey(id) in st.cooldown && st.cooldown[CooldownKey(id)] == cooldown[CooldownKey(id)]
  {
    if sel != [] {
      ScanRespectsCooldown(sel[..|sel| - 1], now, cooldown, format, id);
      CooldownKeyInjective(sel[|sel| - 1].id, id);
    }
  }

  /**
   * The scan raises a reminder for schedule `id` exactly when it selects a
   * schedule with that id and, before the scan, the reminder was due.
   */
  lemma {:induction false} ScanRemindsIff(sel: seq<Schedule>, now: int, cooldown: map<string, int>, format: int -> string, id: string)
    ensures HasReminderFor(ScanFrom(sel, now, cooldown, format).reminders, id) <==>
              Selects(sel, id) && ReminderDue(cooldown, id, now)
  {
    if !Selects(sel, id) {
      ScanLeavesOthers(sel, now, cooldown, format, id);
    } else if !ReminderDue(cooldown, id, now) {
      ScanRespectsCooldown(sel, now, cooldown, format, id);
    } else {
      var init := sel[..|sel| - 1];
      var last := sel[|sel| - 1];
      var before := ScanFrom(init, now, cooldown, format);
      if Selects(init, id) {
        ScanRemindsIff(init, now, cooldown, format, id);
        var i :| 0 <= i < |before.reminders| && before.reminders[i].scheduleId == id;
        assert ScanFrom(sel, now, cooldown, format).reminders[i] == before.reminders[i];
      } else {
        ScanLeavesOthers(init, now, cooldown, format, id);
        assert last.id == id;
        var rs := ScanFrom(sel, now, cooldown, format).reminders;
        assert rs[|rs| - 1].scheduleId == id;
      }
    }
  }

  /** No two reminders name the same schedule. */
  predicate DistinctIds(rs: seq<Reminder>) {
    forall i, j :: 0 <= i < j < |rs| ==> rs[i].scheduleId != rs[j].scheduleId
  }

  /** Every reminder names a schedule of `sel` and carries that schedule's message. */
  predicate MessagesOf(rs: seq<Reminder>, sel: seq<Schedule>, format: int -> string) {
    forall i :: 0 <= i < |rs| ==>
      exists k :: 0 <= k < |sel| && rs[i] == Reminder(sel[k].id, ReminderMessage(sel[k], format))
  }

  /** One scan raises at most one reminder per schedule id. */
  lemma {:induction false} ScanRemindsOnce(sel: seq<Schedule>, now: int, cooldown: map<string, int>, format: int -> string)
    ensures DistinctIds(ScanFrom(sel, now, cooldown, format).reminders)
  {
    if sel != [] {
      var init := sel[..|sel| - 1];
      var last := sel[|sel| - 1];
      var before := ScanFrom(init, now, cooldown, format);
      ScanRemindsOnce(init, now, cooldown, format);
      if HasReminderFor(before.reminders, last.id) {
        ScanRecordsReminders(init, now, cooldown, format, last.id);
        assert !ReminderDue(before.cooldown, last.id, now);
      } else if ReminderDue(before.cooldown, last.id, now) {
        var rs := ScanFrom(sel, now, cooldown, format).reminders;
        assert rs == before.reminders + [Reminder(last.id, ReminderMessage(last, format))];
        forall i, j | 0 <= i < j < |rs|
          ensures rs[i].scheduleId != rs[j].scheduleId
        {
          if j == |rs| - 1 {
            assert rs[i] == before.reminders[i];
          } else {
            assert rs[i] == before.reminders[i] && rs[j] == before.reminders[j];
          }
        }
      }
    }
  }

  /** Every reminder names a selected schedule and carries that schedule's message. */
  lemma {:induction false} ScanMessages(sel: seq<Schedule>, now: int, cooldown: map<string, int>, format: int -> string)
    ensures MessagesOf(ScanFrom(sel, now, cooldown, format).reminders, sel, format)
  {
    if sel != [] {
      var init := sel[..|sel| - 1];
      ScanMessages(init, now, cooldown, format);
      var rs := ScanFrom(sel, now, cooldown, format).reminders;
      var before := ScanFrom(init, now, cooldown, format).reminders;
      forall i | 0 <= i < |rs|
        ensures exists k :: 0 <= k < |sel| && rs[i] == Reminder(sel[k].id, ReminderMessage(sel[k], format))
      {
        if i < |before| {
          var k :| 0 <= k < |init| && before[i] == Reminder(init[k].id, ReminderMessage(init[k], format));
          assert sel[k] == init[k];
        } else {
          assert rs[i] == Reminder(sel[|sel| - 1].id, ReminderMessage(sel[|sel| - 1], format));
        }
      }
    }
  }

  /** The keys the scan wrote are those of the schedules it reminded; every other entry keeps its value. */
  lemma {:induction false} ScanWritesOnlyReminded(sel: seq<Schedule>, now: int, cooldown: map<string, int>, format: int -> string)
    ensures var st := ScanFrom(sel, now, cooldown, format);
            st.cooldown.Keys == cooldown.Keys + set r | r in st.reminders :: CooldownKey(r.scheduleId)
    ensures var st := ScanFrom(sel, now, cooldown, format);
            forall k :: k in cooldown && (forall r :: r in st.reminders ==> k != CooldownKey(r.scheduleId)) ==>
              st.cooldown[k] == cooldown[k]
  {
    if sel != [] {
      var init := sel[..|sel| - 1];
      var last := sel[|sel| - 1];
      ScanWritesOnlyReminded(init, now, cooldown, format);
      var before := ScanFrom(init, now, cooldown, format);
      if ReminderDue(before.cooldown, last.id, now) {
        var r := Reminder(last.id, ReminderMessage(last, format));
        var after := ScanFrom(sel, now, cooldown, format);
        assert after.reminders == before.reminders + [r];
        assert (set x | x in after.reminders :: CooldownKey(x.scheduleId))
            == (set x | x in before.reminders :: CooldownKey(x.scheduleId)) + {CooldownKey(last.id)};
      }
    }
  }

  /**
   * `checkUpcomingSchedules` raises a reminder for schedule `id` exactly
   * when the list holds an upcoming schedule with that id whose reminder
   * was due; a two-hour horizon and the cooldown are both respected.
   */
  lemma ScanRemindsExactly(xs: seq<Schedule>, now: int, cooldown: map<string, int>, format: int -> string, id: string)
    ensures HasReminderFor(Scan(xs, now, cooldown, format).reminders, id) <==>
              (exists s :: s in xs && IsUpcoming(s, now) && s.id == id) && ReminderDue(cooldown, id, now)
  {
    if xs != [] {
      var sel := Upcoming(xs, now);
      ScanRemindsIff(sel, now, cooldown, format, id);
      if exists s :: s in xs && IsUpcoming(s, now) && s.id == id {
        var s :| s in xs && IsUpcoming(s, now) && s.id == id;
        assert s in sel;
        var i :| 0 <= i < |sel| && sel[i] == s;
      }
      if Selects(sel, id) {
        var i :| 0 <= i < |sel| && sel[i].id == id;
        assert sel[i] in sel;
      }
    }
  }

  /** A skipped schedule's cooldown entry is untouched; a reminded one's becomes `now`. */
  lemma ScanCooldownEffect(xs: seq<Schedule>, now: int, cooldown: map<string, int>, format: int -> string, id: string)
    ensures var st := Scan(xs, now, cooldown, format);
            HasReminderFor(st.reminders, id) ==> CooldownKey(id) in st.cooldown && st.cooldown[CooldownKey(id)] == now
    ensures var st := Scan(xs, now, cooldown, format);
            !HasReminderFor(st.reminders, id) ==>
              (CooldownKey(id) in st.cooldown <==> CooldownKey(id) in cooldown) &&
              (CooldownKey(id) in cooldown ==> st.cooldown[CooldownKey(id)] == cooldown[CooldownKey(id)])
  {
    if xs != [] {
      var sel := Upcoming(xs, now);
      if HasReminderFor(ScanFrom(sel, now, cooldown, format).reminders, id) {
        ScanRecordsReminders(sel, now, cooldown, format, id);
      } else if !Selects(sel, id) {
        ScanLeavesOthers(sel, now, cooldown, format, id);
      } else {
        ScanRemindsIff(sel, now, cooldown, format, id);
        ScanRespectsCooldown(sel, now, cooldown, format, id);
      }
    }
  }

  /**
   * After a scan at `t1` reminded schedule `id`, a scan at `t2` no more
   * than an hour later raises no reminder for it, whatever the list is then.
   */
  lemma SecondScanQuiet(xs: seq<Schedule>, ys: seq<Schedule>, t1: int, t2: int, cooldown: map<string, int>,
                        format: int -> string, id: string)
    requires HasReminderFor(Scan(xs, t1, cooldown, format).reminders, id)
    requires t2 - t1 <= CooldownMs
    ensures !HasReminderFor(Scan(ys, t2, Scan(xs, t1, cooldown, format).cooldown, format).reminders, id)
  {
    var first := Scan(xs, t1, cooldown, format);
    ScanCooldownEffect(xs, t1, cooldown, format, id);
    if ys != [] {
      ScanRespectsCooldown(Upcoming(ys, t2), t2, first.cooldown, format, id);
    }
  }

  /** One scan raises at most one reminder per schedule id. */
  lemma ScanRemindsOncePerSchedule(xs: seq<Schedule>, now: int, cooldown: map<string, int>, format: int -> string)
    ensures DistinctIds(Scan(xs, now, cooldown, format).reminders)
    ensures MessagesOf(Scan(xs, now, cooldown, format).reminders, Upcoming(xs, now), format)
  {
    if xs != [] {
      ScanRemindsOnce(Upcoming(xs, now), now, cooldown, format);
      ScanMessages(Upcoming(xs, now), now, cooldown, format);
    }
  }

  /** A scheduled collection 90 minutes ahead with no cooldown entry gets exactly one reminder. */
  lemma NinetyMinutesAhead(s: Schedule, now: int, cooldown: map<string, int>, format: int -> string)
    requires s.status == Scheduled && s.date == now + 90 * 60 * 1000
    requires CooldownKey(s.id) !in cooldown
    ensures Scan([s], now, cooldown, format).reminders == [Reminder(s.id, ReminderMessage(s, format))]
    ensures Scan([s], now, cooldown, format).cooldown == cooldown[CooldownKey(s.id) := now]
  {
    assert IsUpcoming(s, now);
    assert Upcoming([s], now) == [s];
    assert [s][..0] == [];
    assert ScanFrom([s], now, cooldown, format) == Step(ScanState(cooldown, []), s, now, format);
  }

  /** A collection three hours ahead is outside the horizon: no reminder, no cooldown write. */
  lemma ThreeHoursAhead(s: Schedule, now: int, cooldown: map<string, int>, format: int -> string)
    requires s.date == now + 3 * 60 * 60 * 1000
    ensures Scan([s], now, cooldown, format) == ScanState(cooldown, [])
  {
    assert Upcoming([s], now) == [];
  }
}
