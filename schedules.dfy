/**
 * The in-memory schedule list of the waste-segregation scheduling screen
 * (src/components/dashboard/WasteSegregationScheduling.jsx) and the pure
 * updates the screen applies to it after the remote store reports success.
 * Timestamps are integer milliseconds.
 */
module Schedules {
  import opened Wrappers

  datatype Status = Scheduled | InProgress | Completed | Cancelled

  datatype Schedule = Schedule(
    id: string,
    wasteType: string,
    date: int,
    frequency: string,
    priority: string,
    barangay: string,
    notes: string,
    createdBy: string,
    status: Status,
    updatedAt: Option<string>)

  /** The fields a submitted schedule form sets (`scheduleData`). */
  datatype ScheduleForm = ScheduleForm(
    wasteType: string,
    date: int,
    frequency: string,
    priority: string,
    barangay: string,
    notes: string,
    createdBy: string)

  /** The status filter of the list: 'all' or one status. */
  datatype StatusFilter = All | Only(status: Status)

  /** The form fields of a record, as the edit form would read them back. */
  function FormOf(s: Schedule): ScheduleForm {
    ScheduleForm(s.wasteType, s.date, s.frequency, s.priority, s.barangay, s.notes, s.createdBy)
  }

  /** A record after an edit: the form's fields over the old ones, with the update time set. */
  function Edited(s: Schedule, form: ScheduleForm, stamp: string): (r: Schedule)
    ensures FormOf(r) == form
    ensures r.id == s.id && r.status == s.status && r.updatedAt == Some(stamp)
  {
    s.(wasteType := form.wasteType, date := form.date, frequency := form.frequency,
       priority := form.priority, barangay := form.barangay, notes := form.notes,
       createdBy := form.createdBy, updatedAt := Some(stamp))
  }

  /** The list after a successful edit: every record with the edited id gets the form's fields, the others stay. */
  function EditById(xs: seq<Schedule>, id: string, form: ScheduleForm, stamp: string): (ys: seq<Schedule>)
    ensures |ys| == |xs|
    ensures forall i :: 0 <= i < |xs| && xs[i].id != id ==> ys[i] == xs[i]
    ensures forall i :: 0 <= i < |xs| && xs[i].id == id ==>
              ys[i].id == id && ys[i].status == xs[i].status && FormOf(ys[i]) == form && ys[i].updatedAt == Some(stamp)
  {
    if xs == [] then []
    else [if xs[0].id == id then Edited(xs[0], form, stamp) else xs[0]] + EditById(xs[1..], id, form, stamp)
  }

  /** The list after a successful status change: every record with that id gets the new status and update time. */
  function SetStatusById(xs: seq<Schedule>, id: string, status: Status, stamp: string): (ys: seq<Schedule>)
    ensures |ys| == |xs|
    ensures forall i :: 0 <= i < |xs| && xs[i].id != id ==> ys[i] == xs[i]
    ensures forall i :: 0 <= i < |xs| && xs[i].id == id ==>
              ys[i].id == id && ys[i].status == status && FormOf(ys[i]) == FormOf(xs[i]) && ys[i].updatedAt == Some(stamp)
  {
    if xs == [] then []
    else [if xs[0].id == id then xs[0].(status := status, updatedAt := Some(stamp)) else xs[0]]
         + SetStatusById(xs[1..], id, status, stamp)
  }

  /** The records `keep` accepts, in their original order (the array `filter` of JavaScript). */
  function Filter(xs: seq<Schedule>, keep: Schedule -> bool): (ys: seq<Schedule>)
    ensures |ys| <= |xs|
    ensures forall s :: s in ys <==> s in xs && keep(s)
  {
    if xs == [] then []
    else (if keep(xs[0]) then [xs[0]] else []) + Filter(xs[1..], keep)
  }

  /** Filtering distributes over concatenation, so it keeps the order of what it keeps. */
  lemma {:induction false} FilterConcat(xs: seq<Schedule>, zs: seq<Schedule>, keep: Schedule -> bool)
    ensures Filter(xs + zs, keep) == Filter(xs, keep) + Filter(zs, keep)
  {
    if xs == [] {
      assert xs + zs == zs;
    } else {
      assert (xs + zs)[0] == xs[0];
      assert (xs + zs)[1..] == xs[1..] + zs;
      FilterConcat(xs[1..], zs, keep);
    }
  }

  /** A filter that accepts every record keeps the whole list. */
  lemma {:induction false} FilterKeepsAll(xs: seq<Schedule>, keep: Schedule -> bool)
    requires forall s :: s in xs ==> keep(s)
    ensures Filter(xs, keep) == xs
  {
    if xs != [] {
      FilterKeepsAll(xs[1..], keep);
    }
  }

  /** The list after a successful delete: every record without that id. */
  function DeleteById(xs: seq<Schedule>, id: string): (ys: seq<Schedule>)
    ensures forall s :: s in ys <==> s in xs && s.id != id
  {
    Filter(xs, (s: Schedule) => s.id != id)
  }

  /** Deleting keeps the surviving records in their order. */
  lemma DeleteKeepsOrder(xs: seq<Schedule>, zs: seq<Schedule>, id: string)
    ensures DeleteById(xs + zs, id) == DeleteById(xs, id) + DeleteById(zs, id)
  {
    FilterConcat(xs, zs, (s: Schedule) => s.id != id);
  }

  /** Deleting an id that no record has changes nothing. */
  lemma DeleteAbsent(xs: seq<Schedule>, id: string)
    requires forall s :: s in xs ==> s.id != id
    ensures DeleteById(xs, id) == xs
  {
    FilterKeepsAll(xs, (s: Schedule) => s.id != id);
  }

  /** The list after a successful insert: the created record first, then the old list. */
  function Prepend(xs: seq<Schedule>, created: Schedule): (ys: seq<Schedule>)
    ensures |ys| == |xs| + 1 && ys[0] == created && ys[1..] == xs
  {
    [created] + xs
  }

  /** The records with the given status. */
  function WithStatus(xs: seq<Schedule>, status: Status): (ys: seq<Schedule>)
    ensures forall s :: s in ys <==> s in xs && s.status == status
  {
    Filter(xs, (s: Schedule) => s.status == status)
  }

  /** `filteredSchedules`: the whole list for 'all', otherwise the records with that status. */
  function Filtered(xs: seq<Schedule>, filter: StatusFilter): (ys: seq<Schedule>)
    ensures filter.All? ==> ys == xs
    ensures filter.Only? ==> forall s :: s in ys <==> s in xs && s.status == filter.status
  {
    match filter
    case All => xs
    case Only(status) => WithStatus(xs, status)
  }

  /** The status filter keeps the order of the list. */
  lemma FilteredKeepsOrder(xs: seq<Schedule>, zs: seq<Schedule>, filter: StatusFilter)
    ensures Filtered(xs + zs, filter) == Filtered(xs, filter) + Filtered(zs, filter)
  {
    if filter.Only? {
      FilterConcat(xs, zs, (s: Schedule) => s.status == filter.status);
    }
  }

  /** The number a summary card shows for a status. */
  function CountStatus(xs: seq<Schedule>, status: Status): nat {
    |WithStatus(xs, status)|
  }

  /** The four status counts add up to the total the first card shows. */
  lemma {:induction false} CountsPartitionTotal(xs: seq<Schedule>)
    ensures CountStatus(xs, Scheduled) + CountStatus(xs, InProgress)
            + CountStatus(xs, Completed) + CountStatus(xs, Cancelled) == |xs|
  {
    if xs != [] {
      CountsPartitionTotal(xs[1..]);
    }
  }
}
