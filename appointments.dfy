/**
 * The appointments page: the appointment list, the shared book/reschedule form,
 * the id of the appointment being rescheduled (if any), and the derived
 * upcoming and history lists.
 */
module Appointments {
  import opened Options

  datatype Status = Upcoming | Completed | Cancelled

  datatype Appointment = Appointment(
    id: int,
    doctor: string,
    date: string,
    time: string,
    telehealth: bool,
    status: Status)

  /** The book/reschedule form. */
  datatype Form = Form(doctor: string, date: string, time: string, telehealth: bool)

  const EmptyForm: Form := Form("", "", "", false)

  /** The form's fields as an appointment carries them. */
  function FormOf(a: Appointment): Form
  {
    Form(a.doctor, a.date, a.time, a.telehealth)
  }

  /** `handleBook`'s new entry: the form's fields, status "upcoming". */
  function NewAppointment(id: int, form: Form): (a: Appointment)
    ensures a.id == id && a.status == Upcoming && FormOf(a) == form
  {
    Appointment(id, form.doctor, form.date, form.time, form.telehealth, Upcoming)
  }

  /** `handleCancel`'s patch: status "cancelled" on every appointment with the id. */
  function CancelledAll(appts: seq<Appointment>, id: int): (r: seq<Appointment>)
    ensures |r| == |appts|
    ensures forall i :: 0 <= i < |r| && appts[i].id != id ==> r[i] == appts[i]
    ensures forall i :: 0 <= i < |r| && appts[i].id == id ==> r[i] == appts[i].(status := Cancelled)
  {
    seq(|appts|, i requires 0 <= i < |appts| =>
      if appts[i].id == id then appts[i].(status := Cancelled) else appts[i])
  }

  /** Cancelling is terminal: cancelling again changes nothing. */
  lemma CancelIdempotent(appts: seq<Appointment>, id: int)
    ensures CancelledAll(CancelledAll(appts, id), id) == CancelledAll(appts, id)
  {
  }

  /** Cancelling an id that no appointment carries leaves the list as it was. */
  lemma CancelAbsent(appts: seq<Appointment>, id: int)
    requires forall a :: a in appts ==> a.id != id
    ensures CancelledAll(appts, id) == appts
  {
  }

  /**
   * `handleRescheduleSubmit`'s patch: the appointment whose id is the one being
   * rescheduled takes the form's doctor, date, time and telehealth flag, and keeps
   * its id and status. With no id set (`null`) no appointment matches.
   */
  function Rescheduled(appts: seq<Appointment>, rescheduleId: Option<int>, form: Form): (r: seq<Appointment>)
    ensures |r| == |appts|
    ensures forall i :: 0 <= i < |r| ==> r[i].id == appts[i].id && r[i].status == appts[i].status
    ensures forall i :: 0 <= i < |r| && rescheduleId != Some(appts[i].id) ==> r[i] == appts[i]
    ensures forall i :: 0 <= i < |r| && rescheduleId == Some(appts[i].id) ==> FormOf(r[i]) == form
  {
    seq(|appts|, i requires 0 <= i < |appts| =>
      if rescheduleId == Some(appts[i].id)
      then appts[i].(doctor := form.doctor, date := form.date, time := form.time, telehealth := form.telehealth)
      else appts[i])
  }

  /** `appointments.find(a => a.id === id)`: the first appointment with the id. */
  function Find(appts: seq<Appointment>, id: int): (r: Option<Appointment>)
    ensures r == None <==> forall a :: a in appts ==> a.id != id
    ensures r != None ==> r.value in appts && r.value.id == id
    ensures r != None ==>
      exists k :: 0 <= k < |appts| && appts[k] == r.value && forall j :: 0 <= j < k ==> appts[j].id != id
  {
    if appts == [] then None
    else if appts[0].id == id then Some(appts[0])
    else Find(appts[1..], id)
  }

  /** No two appointments share an id. */
  predicate UniqueIds(appts: seq<Appointment>)
  {
    forall i, j :: 0 <= i < j < |appts| ==> appts[i].id != appts[j].id
  }

  /**
   * Pre-filling the form from an appointment and submitting it unchanged leaves
   * the list as it was, when ids are unique.
   */
  lemma RescheduleUnchanged(appts: seq<Appointment>, id: int)
    requires UniqueIds(appts) && Find(appts, id) != None
    ensures Rescheduled(appts, Some(id), FormOf(Find(appts, id).value)) == appts
  {
    var a := Find(appts, id).value;
    var r := Rescheduled(appts, Some(id), FormOf(a));
    forall i | 0 <= i < |appts| && appts[i].id == id ensures r[i] == appts[i] {
      var k :| 0 <= k < |appts| && appts[k] == a;
      assert k == i;
    }
  }

  /** `apptRescheduleId ? handleRescheduleSubmit : handleBook`: a truthiness test, so an id of 0 books. */
  function SubmitsAsReschedule(rescheduleId: Option<int>): (reschedule: bool)
    ensures reschedule <==> rescheduleId != None && rescheduleId.value != 0
  {
    match rescheduleId
    case None => false
    case Some(id) => id != 0
  }

  /** `appointments.filter(a => a.status === "upcoming")`. */
  function UpcomingOf(appts: seq<Appointment>): (r: seq<Appointment>)
    ensures forall a :: a in r <==> a in appts && a.status == Upcoming
  {
    if appts == [] then []
    else if appts[0].status == Upcoming then [appts[0]] + UpcomingOf(appts[1..])
    else UpcomingOf(appts[1..])
  }

  /** `appointments.filter(a => a.status !== "upcoming")`. */
  function HistoryOf(appts: seq<Appointment>): (r: seq<Appointment>)
    ensures forall a :: a in r <==> a in appts && a.status != Upcoming
  {
    if appts == [] then []
    else if appts[0].status != Upcoming then [appts[0]] + HistoryOf(appts[1..])
    else HistoryOf(appts[1..])
  }

  /** The two lists split the appointments: every entry lands in exactly one, none is lost or repeated. */
  lemma {:induction false} UpcomingHistoryPartition(appts: seq<Appointment>)
    ensures |UpcomingOf(appts)| + |HistoryOf(appts)| == |appts|
    ensures multiset(UpcomingOf(appts)) + multiset(HistoryOf(appts)) == multiset(appts)
  {
    if appts != [] {
      UpcomingHistoryPartition(appts[1..]);
      assert appts == [appts[0]] + appts[1..];
    }
  }

  /** Filtering a list that starts with `x` for upcoming entries. */
  lemma UpcomingCons(x: Appointment, rest: seq<Appointment>)
    ensures UpcomingOf([x] + rest) == (if x.status == Upcoming then [x] else []) + UpcomingOf(rest)
  {
    var s := [x] + rest;
    assert s[0] == x && s[1..] == rest;
  }

  /** Filtering a list that starts with `x` for past entries. */
  lemma HistoryCons(x: Appointment, rest: seq<Appointment>)
    ensures HistoryOf([x] + rest) == (if x.status != Upcoming then [x] else []) + HistoryOf(rest)
  {
    var s := [x] + rest;
    assert s[0] == x && s[1..] == rest;
  }

  /** The upcoming list keeps the original order: filtering a concatenation filters each part. */
  lemma {:induction false} UpcomingKeepsOrder(a: seq<Appointment>, b: seq<Appointment>)
    ensures UpcomingOf(a + b) == UpcomingOf(a) + UpcomingOf(b)
  {
    if a == [] {
      assert a + b == b;
    } else {
      var head := if a[0].status == Upcoming then [a[0]] else [];
      assert a == [a[0]] + a[1..];
      assert a + b == [a[0]] + (a[1..] + b);
      calc {
        UpcomingOf(a + b);
        { UpcomingCons(a[0], a[1..] + b); }
        head + UpcomingOf(a[1..] + b);
        { UpcomingKeepsOrder(a[1..], b); }
        head + (UpcomingOf(a[1..]) + UpcomingOf(b));
        (head + UpcomingOf(a[1..])) + UpcomingOf(b);
        { UpcomingCons(a[0], a[1..]); }
        UpcomingOf(a) + UpcomingOf(b);
      }
    }
  }

  /** The history list keeps the original order as well. */
  lemma {:induction false} HistoryKeepsOrder(a: seq<Appointment>, b: seq<Appointment>)
    ensures HistoryOf(a + b) == HistoryOf(a) + HistoryOf(b)
  {
    if a == [] {
      assert a + b == b;
    } else {
      var head := if a[0].status != Upcoming then [a[0]] else [];
      assert a == [a[0]] + a[1..];
      assert a + b == [a[0]] + (a[1..] + b);
      calc {
        HistoryOf(a + b);
        { HistoryCons(a[0], a[1..] + b); }
        head + HistoryOf(a[1..] + b);
        { HistoryKeepsOrder(a[1..], b); }
        head + (HistoryOf(a[1..]) + HistoryOf(b));
        (head + HistoryOf(a[1..])) + HistoryOf(b);
        { HistoryCons(a[0], a[1..]); }
        HistoryOf(a) + HistoryOf(b);
      }
    }
  }

  class AppointmentsPage {
    var appointments: seq<Appointment>
    var form: Form
    var showForm: bool
    var rescheduleId: Option<int>
    var toast: string

    /** The page as it mounts: the seed appointments, an empty closed form, nothing being rescheduled. */
    constructor (appointments: seq<Appointment>)
      ensures this.appointments == appointments && form == EmptyForm && !showForm
      ensures rescheduleId == None && toast == ""
    {
      this.appointments := appointments;
      form := EmptyForm;
      showForm := false;
      rescheduleId := None;
      toast := "";
    }

    /** The list passed to the upcoming panel. */
    function UpcomingList(): seq<Appointment>
      reads this
    {
      UpcomingOf(appointments)
    }

    /** The list passed to the history panel. */
    function HistoryList(): seq<Appointment>
      reads this
    {
      HistoryOf(appointments)
    }

    /** `handleBook`: append the form as a new upcoming appointment, then reset and close the form. */
    method Book(id: int)
      modifies this
      ensures appointments == old(appointments) + [NewAppointment(id, old(form))]
      ensures form == EmptyForm && !showForm && rescheduleId == old(rescheduleId)
      ensures toast == "Appointment booked successfully!"
    {
      appointments := appointments + [NewAppointment(id, form)];
      form := EmptyForm;
      showForm := false;
      toast := "Appointment booked successfully!";
    }

    /** `handleCancel`. */
    method Cancel(id: int)
      modifies this
      ensures appointments == CancelledAll(old(appointments), id)
      ensures form == old(form) && showForm == old(showForm) && rescheduleId == old(rescheduleId)
      ensures toast == "Appointment cancelled."
    {
      appointments := CancelledAll(appointments, id);
      toast := "Appointment cancelled.";
    }

    /**
     * `handleReschedule`: remember the id, pre-fill the form from the first
     * appointment with that id, open the form. The source dereferences that
     * appointment unconditionally, so the id must be in the list.
     */
    method Reschedule(id: int)
      requires Find(appointments, id) != None
      modifies this
      ensures appointments == old(appointments) && toast == old(toast)
      ensures rescheduleId == Some(id) && form == FormOf(Find(appointments, id).value) && showForm
    {
      rescheduleId := Some(id);
      var appt := Find(appointments, id).value;
      form := FormOf(appt);
      showForm := true;
    }

    /** `handleRescheduleSubmit`: patch the appointment in place, then reset the form and forget the id. */
    method RescheduleSubmit()
      modifies this
      ensures appointments == Rescheduled(old(appointments), old(rescheduleId), old(form))
      ensures form == EmptyForm && !showForm && rescheduleId == None
      ensures toast == "Appointment rescheduled."
    {
      appointments := Rescheduled(appointments, rescheduleId, form);
      form := EmptyForm;
      showForm := false;
      rescheduleId := None;
      toast := "Appointment rescheduled.";
    }

    /** The form's submit: a reschedule when an id is set (and truthy), a booking otherwise. */
    method Submit(newId: int)
      modifies this
      ensures SubmitsAsReschedule(old(rescheduleId)) ==>
        appointments == Rescheduled(old(appointments), old(rescheduleId), old(form))
      ensures !SubmitsAsReschedule(old(rescheduleId)) ==>
        appointments == old(appointments) + [NewAppointment(newId, old(form))]
      ensures form == EmptyForm && !showForm
      ensures SubmitsAsReschedule(old(rescheduleId)) ==>
        rescheduleId == None && toast == "Appointment rescheduled."
      ensures !SubmitsAsReschedule(old(rescheduleId)) ==>
        rescheduleId == old(rescheduleId) && toast == "Appointment booked successfully!"
    {
      if SubmitsAsReschedule(rescheduleId) {
        RescheduleSubmit();
      } else {
        Book(newId);
      }
    }

    /** The form's Cancel button: close the form and forget the id. */
    method CloseForm()
      modifies this
      ensures !showForm && rescheduleId == None
      ensures appointments == old(appointments) && form == old(form) && toast == old(toast)
    {
      showForm := false;
      rescheduleId := None;
    }

    /** A field of the open form edited: `setForm(f => ({ ...f, field: value }))`. */
    method EditForm(f: Form)
      modifies this`form
      ensures form == f
    {
      form := f;
    }

    /** The toast's timer firing: the message is cleared. */
    method ClearToast()
      modifies this`toast
      ensures toast == ""
    {
      toast := "";
    }
  }
}
