/**
 * The medications page: the medication list, the dose log, the reminders, the
 * add-medication form and the toast line, together with the "today's
 * medications" view derived from them.
 */
module Medications {
  import opened Options
  import opened Strings

  datatype Medication = Medication(
    id: string,
    name: string,
    dosage: string,
    frequency: string,
    time: string,           // one or more times of day, separated by ", "
    instructions: string,
    startDate: string,
    endDate: Option<string>,
    isActive: bool)

  /** The three outcomes a dose log can record. */
  datatype DoseStatus = Taken | Missed | Skipped

  datatype MedicationLog = MedicationLog(
    id: string,
    medicationId: string,
    date: string,
    time: string,
    status: DoseStatus,
    notes: Option<string>)

  datatype Reminder = Reminder(
    id: string,
    medicationId: string,
    time: string,
    days: seq<string>,
    isActive: bool)

  /** The status a row of today's view shows: a logged outcome, or "pending". */
  datatype RowStatus = Pending | Logged(dose: DoseStatus)

  /** One row of today's view: the medication, one of its times, and the status of that slot. */
  datatype Row = Row(med: Medication, time: string, status: RowStatus)

  /** The add-medication form. */
  datatype MedicationForm = MedicationForm(
    name: string,
    dosage: string,
    frequency: string,
    time: string,
    instructions: string)

  const TimeSeparator: string := ", "
  const EmptyForm: MedicationForm := MedicationForm("", "", "Once daily", "", "")

  // ---------------------------------------------------------------------------
  // Today's view

  /** `medicationLogs.filter(log => log.date === today)`. */
  function TodayLogs(logs: seq<MedicationLog>, today: string): (r: seq<MedicationLog>)
    ensures |r| <= |logs|
    ensures forall i :: 0 <= i < |r| ==> r[i].date == today
  {
    if logs == [] then []
    else if logs[0].date == today then [logs[0]] + TodayLogs(logs[1..], today)
    else TodayLogs(logs[1..], today)
  }

  /** `todayLogs.filter(log => log.medicationId === med.id)`. */
  function LogsFor(logs: seq<MedicationLog>, medicationId: string): (r: seq<MedicationLog>)
    ensures |r| <= |logs|
    ensures forall i :: 0 <= i < |r| ==> r[i].medicationId == medicationId
  {
    if logs == [] then []
    else if logs[0].medicationId == medicationId then [logs[0]] + LogsFor(logs[1..], medicationId)
    else LogsFor(logs[1..], medicationId)
  }

  /** Exactly the logs dated today survive the first filter, and exactly the medication's logs the second. */
  lemma {:induction false} FilteredLogsExact(logs: seq<MedicationLog>, today: string, medicationId: string)
    ensures forall l :: l in TodayLogs(logs, today) <==> l in logs && l.date == today
    ensures forall l :: l in LogsFor(logs, medicationId) <==> l in logs && l.medicationId == medicationId
  {
    if logs != [] {
      FilteredLogsExact(logs[1..], today, medicationId);
      assert logs == [logs[0]] + logs[1..];
    }
  }

  /** `logs.find(log => log.time === time)?.status || 'pending'`: the first log for the time wins. */
  function FindStatus(logs: seq<MedicationLog>, time: string): (r: RowStatus)
    ensures r == Pending <==> forall i :: 0 <= i < |logs| ==> logs[i].time != time
  {
    if logs == [] then Pending
    else if logs[0].time == time then Logged(logs[0].status)
    else FindStatus(logs[1..], time)
  }

  /** The rows one active medication contributes: one per piece of its time string, in split order. */
  function RowsFor(med: Medication, todayLogs: seq<MedicationLog>): (rows: seq<Row>)
    ensures |rows| == |Split(med.time, TimeSeparator)|
    ensures forall i :: 0 <= i < |rows| ==>
      rows[i].med == med && rows[i].time == Split(med.time, TimeSeparator)[i] &&
      rows[i].status == FindStatus(LogsFor(todayLogs, med.id), rows[i].time)
  {
    var times := Split(med.time, TimeSeparator);
    var forMed := LogsFor(todayLogs, med.id);
    seq(|times|, i requires 0 <= i < |times| => Row(med, times[i], FindStatus(forMed, times[i])))
  }

  /** The number of rows a medication contributes to today's view. */
  function Slots(meds: seq<Medication>): nat
  {
    if meds == [] then 0
    else (if meds[0].isActive then |Split(meds[0].time, TimeSeparator)| else 0) + Slots(meds[1..])
  }

  /** Active medications in list order, each expanded into its rows. */
  function Expand(meds: seq<Medication>, todayLogs: seq<MedicationLog>): (rows: seq<Row>)
    ensures |rows| == Slots(meds)
    ensures forall r :: r in rows ==> r.med in meds && r.med.isActive
    ensures forall r :: r in rows ==> r.time in Split(r.med.time, TimeSeparator)
    ensures forall r :: r in rows ==> r.status == FindStatus(LogsFor(todayLogs, r.med.id), r.time)
  {
    if meds == [] then []
    else if meds[0].isActive then RowsFor(meds[0], todayLogs) + Expand(meds[1..], todayLogs)
    else Expand(meds[1..], todayLogs)
  }

  /** Expanding a list that starts with `med`: its rows, if it is active, come first. */
  lemma ExpandCons(med: Medication, rest: seq<Medication>, todayLogs: seq<MedicationLog>)
    ensures Expand([med] + rest, todayLogs) ==
      (if med.isActive then RowsFor(med, todayLogs) else []) + Expand(rest, todayLogs)
  {
    var s := [med] + rest;
    assert s[0] == med && s[1..] == rest;
  }

  /**
   * The view keeps the medication order: the rows of a concatenation are the rows
   * of the first part followed by those of the second. With `ExpandCons` and
   * `RowsFor`, each active medication contributes its rows in split order and an
   * inactive one contributes none.
   */
  lemma {:induction false} ExpandKeepsOrder(a: seq<Medication>, b: seq<Medication>, todayLogs: seq<MedicationLog>)
    ensures Expand(a + b, todayLogs) == Expand(a, todayLogs) + Expand(b, todayLogs)
  {
    if a == [] {
      assert a + b == b;
    } else {
      var head := if a[0].isActive then RowsFor(a[0], todayLogs) else [];
      assert a == [a[0]] + a[1..];
      assert a + b == [a[0]] + (a[1..] + b);
      calc {
        Expand(a + b, todayLogs);
        { ExpandCons(a[0], a[1..] + b, todayLogs); }
        head + Expand(a[1..] + b, todayLogs);
        { ExpandKeepsOrder(a[1..], b, todayLogs); }
        head + (Expand(a[1..], todayLogs) + Expand(b, todayLogs));
        (head + Expand(a[1..], todayLogs)) + Expand(b, todayLogs);
        { ExpandCons(a[0], a[1..], todayLogs); }
        Expand(a, todayLogs) + Expand(b, todayLogs);
      }
    }
  }

  /** `getTodayMedications()`. */
  function TodayMedications(meds: seq<Medication>, logs: seq<MedicationLog>, today: string): (rows: seq<Row>)
    ensures |rows| == Slots(meds)
    ensures forall r :: r in rows ==> r.med in meds && r.med.isActive && r.time in Split(r.med.time, TimeSeparator)
  {
    Expand(meds, TodayLogs(logs, today))
  }

  /**
   * Every row of today's view shows its slot's status: with `SlotStatusIsFirstMatch`,
   * the status of the first log dated today for that medication and time.
   */
  lemma TodayRowStatus(meds: seq<Medication>, logs: seq<MedicationLog>, today: string)
    ensures forall r :: r in TodayMedications(meds, logs, today) ==>
      r.med in meds && r.med.isActive && r.status == SlotStatus(logs, today, r.med.id, r.time)
  {
  }

  /** The log matches the slot (medication, time) on the given day. */
  predicate LogMatches(log: MedicationLog, today: string, medicationId: string, time: string)
  {
    log.date == today && log.medicationId == medicationId && log.time == time
  }

  /** `logs[k]` is the earliest log that matches the slot. */
  predicate FirstMatchAt(logs: seq<MedicationLog>, today: string, medicationId: string, time: string, k: int)
  {
    0 <= k < |logs| && LogMatches(logs[k], today, medicationId, time) &&
    forall j :: 0 <= j < k ==> !LogMatches(logs[j], today, medicationId, time)
  }

  /** The status the view resolves for a slot. */
  function SlotStatus(logs: seq<MedicationLog>, today: string, medicationId: string, time: string): RowStatus
  {
    FindStatus(LogsFor(TodayLogs(logs, today), medicationId), time)
  }

  /** The slot's status over a non-empty log: the first log decides if it matches, otherwise the rest does. */
  lemma SlotStatusStep(logs: seq<MedicationLog>, today: string, medicationId: string, time: string)
    requires logs != []
    ensures SlotStatus(logs, today, medicationId, time) ==
      if LogMatches(logs[0], today, medicationId, time) then Logged(logs[0].status)
      else SlotStatus(logs[1..], today, medicationId, time)
  {
    var t := TodayLogs(logs, today);
    var rest := TodayLogs(logs[1..], today);
    if logs[0].date == today {
      assert t == [logs[0]] + rest;
      assert t[0] == logs[0] && t[1..] == rest;
    } else {
      assert t == rest;
    }
  }

  /**
   * A slot shows the status of the FIRST log dated today for that medication and
   * that exact time string, and "pending" when there is none; logs of other days
   * play no part.
   */
  lemma {:induction false} SlotStatusIsFirstMatch(logs: seq<MedicationLog>, today: string, medicationId: string, time: string)
    ensures SlotStatus(logs, today, medicationId, time) == Pending <==>
      forall k :: 0 <= k < |logs| ==> !LogMatches(logs[k], today, medicationId, time)
    ensures forall k :: FirstMatchAt(logs, today, medicationId, time, k) ==>
      SlotStatus(logs, today, medicationId, time) == Logged(logs[k].status)
  {
    if logs != [] {
      SlotStatusStep(logs, today, medicationId, time);
      SlotStatusIsFirstMatch(logs[1..], today, medicationId, time);
      assert forall k :: 1 <= k < |logs| ==> logs[k] == logs[1..][k - 1];
    }
  }

  lemma {:induction false} TodayLogsAppend(logs: seq<MedicationLog>, log: MedicationLog, today: string)
    ensures TodayLogs(logs + [log], today) == TodayLogs(logs, today) + (if log.date == today then [log] else [])
  {
    if logs == [] {
      assert [] + [log] == [log];
    } else {
      assert (logs + [log])[1..] == logs[1..] + [log];
      TodayLogsAppend(logs[1..], log, today);
    }
  }

  lemma {:induction false} LogsForAppend(logs: seq<MedicationLog>, log: MedicationLog, medicationId: string)
    ensures LogsFor(logs + [log], medicationId) ==
      LogsFor(logs, medicationId) + (if log.medicationId == medicationId then [log] else [])
  {
    if logs == [] {
      assert [] + [log] == [log];
    } else {
      assert (logs + [log])[1..] == logs[1..] + [log];
      LogsForAppend(logs[1..], log, medicationId);
    }
  }

  lemma {:induction false} FindStatusAppend(logs: seq<MedicationLog>, extra: seq<MedicationLog>, time: string)
    requires |extra| <= 1
    ensures FindStatus(logs + extra, time) ==
      if FindStatus(logs, time) == Pending && extra != [] && extra[0].time == time
      then Logged(extra[0].status) else FindStatus(logs, time)
  {
    if logs == [] {
      assert [] + extra == extra;
    } else {
      assert (logs + extra)[1..] == logs[1..] + extra;
      FindStatusAppend(logs[1..], extra, time);
    }
  }

  /**
   * Logging a dose for a slot (today's date, the slot's medication and time):
   * that slot changes from "pending" to the new status, and every other slot,
   * including a slot already resolved, keeps the status it had.
   */
  lemma SlotStatusAfterLog(logs: seq<MedicationLog>, log: MedicationLog, today: string, medicationId: string, time: string)
    ensures SlotStatus(logs + [log], today, medicationId, time) ==
      if SlotStatus(logs, today, medicationId, time) == Pending && LogMatches(log, today, medicationId, time)
      then Logged(log.status) else SlotStatus(logs, today, medicationId, time)
  {
    TodayLogsAppend(logs, log, today);
    var t := TodayLogs(logs, today);
    var extra := if log.date == today then [log] else [];
    LogsForAppend(t, log, medicationId);
    if log.date == today {
      FindStatusAppend(LogsFor(t, medicationId), if log.medicationId == medicationId then [log] else [], time);
    } else {
      assert t + extra == t;
    }
  }

  /** Once a slot shows a logged status, logging it again does not change what it shows. */
  lemma FirstLogStays(logs: seq<MedicationLog>, log: MedicationLog, today: string, medicationId: string, time: string)
    requires SlotStatus(logs, today, medicationId, time) != Pending
    ensures SlotStatus(logs + [log], today, medicationId, time) == SlotStatus(logs, today, medicationId, time)
  {
    SlotStatusAfterLog(logs, log, today, medicationId, time);
  }

  /** A row's new status once `log` is appended: pending rows of the logged slot take its status. */
  function MarkSlot(rows: seq<Row>, log: MedicationLog): (r: seq<Row>)
  {
    seq(|rows|, i requires 0 <= i < |rows| =>
      if rows[i].status == Pending && rows[i].med.id == log.medicationId && rows[i].time == log.time
      then rows[i].(status := Logged(log.status)) else rows[i])
  }

  lemma MarkSlotConcat(a: seq<Row>, b: seq<Row>, log: MedicationLog)
    ensures MarkSlot(a + b, log) == MarkSlot(a, log) + MarkSlot(b, log)
  {
  }

  lemma {:induction false} ExpandAfterLog(meds: seq<Medication>, todayLogs: seq<MedicationLog>, log: MedicationLog)
    ensures Expand(meds, todayLogs + [log]) == MarkSlot(Expand(meds, todayLogs), log)
  {
    if meds != [] {
      ExpandAfterLog(meds[1..], todayLogs, log);
      if meds[0].isActive {
        var med := meds[0];
        var times := Split(med.time, TimeSeparator);
        LogsForAppend(todayLogs, log, med.id);
        var extra := if log.medicationId == med.id then [log] else [];
        forall i | 0 <= i < |times|
          ensures FindStatus(LogsFor(todayLogs + [log], med.id), times[i]) ==
            MarkSlot(RowsFor(med, todayLogs), log)[i].status
        {
          FindStatusAppend(LogsFor(todayLogs, med.id), extra, times[i]);
        }
        assert RowsFor(med, todayLogs + [log]) == MarkSlot(RowsFor(med, todayLogs), log);
        MarkSlotConcat(RowsFor(med, todayLogs), Expand(meds[1..], todayLogs), log);
      }
    }
  }

  /**
   * Appending a log dated today changes today's view only by marking the pending
   * rows of its slot: same rows, same order, same medications and times.
   */
  lemma TodayAfterLog(meds: seq<Medication>, logs: seq<MedicationLog>, log: MedicationLog, today: string)
    requires log.date == today
    ensures TodayMedications(meds, logs + [log], today) == MarkSlot(TodayMedications(meds, logs, today), log)
    ensures |TodayMedications(meds, logs + [log], today)| == |TodayMedications(meds, logs, today)|
  {
    TodayLogsAppend(logs, log, today);
    ExpandAfterLog(meds, TodayLogs(logs, today), log);
  }

  /** The number of rows depends only on the active medications and their times, never on the logs. */
  lemma RowCountIgnoresLogs(meds: seq<Medication>, logs1: seq<MedicationLog>, logs2: seq<MedicationLog>, today: string)
    ensures |TodayMedications(meds, logs1, today)| == |TodayMedications(meds, logs2, today)| == Slots(meds)
  {
  }

  // ---------------------------------------------------------------------------
  // Summary cards and status labels

  /** `rows.filter(med => med.status === s).length`. */
  function CountStatus(rows: seq<Row>, s: RowStatus): (n: nat)
    ensures n <= |rows|
    ensures n == 0 <==> forall r :: r in rows ==> r.status != s
  {
    if rows == [] then 0
    else (if rows[0].status == s then 1 else 0) + CountStatus(rows[1..], s)
  }

  /** The taken, missed and pending cards, with the skipped rows no card shows, add up to the total card. */
  lemma {:induction false} SummaryAddsUp(rows: seq<Row>)
    ensures CountStatus(rows, Logged(Taken)) + CountStatus(rows, Logged(Missed)) +
            CountStatus(rows, Pending) + CountStatus(rows, Logged(Skipped)) == |rows|
  {
    if rows != [] {
      SummaryAddsUp(rows[1..]);
      match rows[0].status
      case Pending =>
      case Logged(d) =>
        assert d == Taken || d == Missed || d == Skipped;
    }
  }

  /** The code a status carries in the source ('taken', 'missed', 'skipped', 'pending'). */
  function StatusCode(s: RowStatus): string
  {
    match s
    case Pending => "pending"
    case Logged(Taken) => "taken"
    case Logged(Missed) => "missed"
    case Logged(Skipped) => "skipped"
  }

  /** `getStatusText(status)`: the three logged codes get their label, anything else reads "Pending". */
  function StatusText(code: string): (text: string)
    ensures text == "Taken" <==> code == "taken"
    ensures text == "Missed" <==> code == "missed"
    ensures text == "Skipped" <==> code == "skipped"
    ensures code !in {"taken", "missed", "skipped"} ==> text == "Pending"
  {
    if code == "taken" then "Taken"
    else if code == "missed" then "Missed"
    else if code == "skipped" then "Skipped"
    else "Pending"
  }

  /** Distinct statuses read differently. */
  lemma StatusTextDistinct(s: RowStatus, t: RowStatus)
    requires s != t
    ensures StatusText(StatusCode(s)) != StatusText(StatusCode(t))
  {
  }

  // ---------------------------------------------------------------------------
  // Handlers as functions on values

  /** The note each dose action writes into its log. */
  function NoteFor(s: DoseStatus): string
  {
    match s
    case Taken => "Taken on time"
    case Skipped => "Skipped by user"
    case Missed => "Missed dose"
  }

  /** The log one dose action appends. */
  function DoseLog(logId: string, medicationId: string, today: string, time: string, s: DoseStatus): (log: MedicationLog)
    ensures LogMatches(log, today, medicationId, time) && log.status == s
  {
    MedicationLog(logId, medicationId, today, time, s, Some(NoteFor(s)))
  }

  /**
   * The add form's check: `!name || !dosage || !time` rejects; otherwise the new
   * medication copies the form, starts today and is active.
   */
  function NewMedication(form: MedicationForm, id: string, today: string): (r: Option<Medication>)
    ensures r == None <==> (form.name == "" || form.dosage == "" || form.time == "")
    ensures r != None ==>
      r.value.id == id && r.value.name == form.name && r.value.dosage == form.dosage &&
      r.value.frequency == form.frequency && r.value.time == form.time &&
      r.value.instructions == form.instructions &&
      r.value.startDate == today && r.value.endDate == None && r.value.isActive
  {
    if form.name == "" || form.dosage == "" || form.time == "" then None
    else Some(Medication(id, form.name, form.dosage, form.frequency, form.time, form.instructions, today, None, true))
  }

  /** `reminders.map(r => r.id === id ? {...r, isActive: !r.isActive} : r)`. */
  function ToggleReminder(reminders: seq<Reminder>, id: string): (r: seq<Reminder>)
    ensures |r| == |reminders|
    ensures forall i :: 0 <= i < |r| ==>
      r[i].(isActive := reminders[i].isActive) == reminders[i] &&
      (r[i].isActive <==> (reminders[i].isActive != (reminders[i].id == id)))
  {
    seq(|reminders|, i requires 0 <= i < |reminders| =>
      if reminders[i].id == id then reminders[i].(isActive := !reminders[i].isActive) else reminders[i])
  }

  /** Toggling the same reminder twice restores the list. */
  lemma ToggleReminderTwice(reminders: seq<Reminder>, id: string)
    ensures ToggleReminder(ToggleReminder(reminders, id), id) == reminders
  {
    var once := ToggleReminder(reminders, id);
    var twice := ToggleReminder(once, id);
    forall i | 0 <= i < |reminders| ensures twice[i] == reminders[i] {
      assert once[i].id == reminders[i].id;
    }
  }

  // ---------------------------------------------------------------------------
  // The page's state

  class MedicationsPage {
    var medications: seq<Medication>
    var logs: seq<MedicationLog>
    var reminders: seq<Reminder>
    var form: MedicationForm
    var showAddModal: bool
    var toast: string

    /** The page as it mounts: the seed collections, an empty form, no modal, no toast. */
    constructor (medications: seq<Medication>, logs: seq<MedicationLog>, reminders: seq<Reminder>)
      ensures this.medications == medications && this.logs == logs && this.reminders == reminders
      ensures form == EmptyForm && !showAddModal && toast == ""
    {
      this.medications := medications;
      this.logs := logs;
      this.reminders := reminders;
      form := EmptyForm;
      showAddModal := false;
      toast := "";
    }

    /** The rows of the "today" tab. */
    function TodayRows(today: string): seq<Row>
      reads this
    {
      TodayMedications(medications, logs, today)
    }

    /** `handleTakeMedication`: append a "taken" log dated today; the toast is left alone. */
    method TakeMedication(medicationId: string, time: string, today: string, logId: string)
      modifies this
      ensures logs == old(logs) + [DoseLog(logId, medicationId, today, time, Taken)]
      ensures medications == old(medications) && reminders == old(reminders)
      ensures form == old(form) && showAddModal == old(showAddModal) && toast == old(toast)
      ensures TodayRows(today) == MarkSlot(old(TodayRows(today)), DoseLog(logId, medicationId, today, time, Taken))
    {
      var log := DoseLog(logId, medicationId, today, time, Taken);
      TodayAfterLog(medications, logs, log, today);
      logs := logs + [log];
    }

    /** `handleSkipMedication`: append a "skipped" log dated today and show a toast. */
    method SkipMedication(medicationId: string, time: string, today: string, logId: string)
      modifies this
      ensures logs == old(logs) + [DoseLog(logId, medicationId, today, time, Skipped)]
      ensures medications == old(medications) && reminders == old(reminders)
      ensures form == old(form) && showAddModal == old(showAddModal)
      ensures toast == "Medication marked as skipped"
      ensures TodayRows(today) == MarkSlot(old(TodayRows(today)), DoseLog(logId, medicationId, today, time, Skipped))
    {
      var log := DoseLog(logId, medicationId, today, time, Skipped);
      TodayAfterLog(medications, logs, log, today);
      logs := logs + [log];
      toast := "Medication marked as skipped";
    }

    /** `handleMissedMedication`: append a "missed" log dated today and show a toast. */
    method MissedMedication(medicationId: string, time: string, today: string, logId: string)
      modifies this
      ensures logs == old(logs) + [DoseLog(logId, medicationId, today, time, Missed)]
      ensures medications == old(medications) && reminders == old(reminders)
      ensures form == old(form) && showAddModal == old(showAddModal)
      ensures toast == "Medication marked as missed"
      ensures TodayRows(today) == MarkSlot(old(TodayRows(today)), DoseLog(logId, medicationId, today, time, Missed))
    {
      var log := DoseLog(logId, medicationId, today, time, Missed);
      TodayAfterLog(medications, logs, log, today);
      logs := logs + [log];
      toast := "Medication marked as missed";
    }

    /** `handleAddMedication`: reject an incomplete form with a toast, or append the new medication and reset the form. */
    method AddMedication(id: string, today: string)
      modifies this
      ensures logs == old(logs) && reminders == old(reminders)
      ensures NewMedication(old(form), id, today) == None ==>
        medications == old(medications) && form == old(form) && showAddModal == old(showAddModal) &&
        toast == "Please fill in all required fields"
      ensures NewMedication(old(form), id, today) != None ==>
        medications == old(medications) + [NewMedication(old(form), id, today).value] &&
        form == EmptyForm && !showAddModal && toast == "Medication added successfully!"
    {
      var added := NewMedication(form, id, today);
      if added == None {
        toast := "Please fill in all required fields";
      } else {
        medications := medications + [added.value];
        form := EmptyForm;
        showAddModal := false;
        toast := "Medication added successfully!";
      }
    }

    /** `handleToggleReminder`. */
    method ToggleReminderActive(reminderId: string)
      modifies this
      ensures reminders == ToggleReminder(old(reminders), reminderId)
      ensures medications == old(medications) && logs == old(logs)
      ensures form == old(form) && showAddModal == old(showAddModal) && toast == old(toast)
    {
      reminders := ToggleReminder(reminders, reminderId);
    }

    /** The "Add Medication" button (`true`) and the modal's "Cancel" button (`false`); the form keeps what was typed. */
    method SetAddModal(open: bool)
      modifies this`showAddModal
      ensures showAddModal == open
    {
      showAddModal := open;
    }

    /** A field of the add form edited: `setNewMedication(prev => ({ ...prev, field: value }))`. */
    method EditForm(f: MedicationForm)
      modifies this`form
      ensures form == f
    {
      form := f;
    }

    /** The toast's timer firing: the message is cleared. */
    method ClearToast()
      modifies this`toast
      ensures toast == ""
    {
      toast := "";
    }
  }
}
