/** The appointments page: the patient's appointments in date order, the
    day-based status filter, booking a new appointment from the form,
    cancelling one, and the status labels. */
module Appointments {
  import opened Models
  import opened Sequences
  import opened Text
  import opened AuthSession
  import PS = PatientService

  const MsPerDay: int := 86400000

  /** The day of a timestamp: what `setHours(0, 0, 0, 0)` keeps of it. */
  function Day(t: int): int { t / MsPerDay }

  function AppDate(a: Appointment): int { a.date }

  const UpcomingFilter: string := "upcoming"
  const PastFilter: string := "past"
  const CancelledFilter: string := "cancelled"

  /** Scheduled or confirmed, on today's day or later. */
  predicate IsUpcoming(a: Appointment, today: int)
  {
    PS.IsUpcomingStatus(a) && Day(a.date) >= Day(today)
  }

  /** Completed, or on a day before today. */
  predicate IsPast(a: Appointment, today: int)
  {
    a.status == AppointmentStatus.Completed || Day(a.date) < Day(today)
  }

  function UpcomingOn(today: int): Appointment -> bool { (a: Appointment) => IsUpcoming(a, today) }
  function PastOn(today: int): Appointment -> bool { (a: Appointment) => IsPast(a, today) }
  predicate IsCancelled(a: Appointment) { a.status == Cancelled }

  /** What the filter value demands of an appointment; an unknown value
      demands nothing. */
  predicate PassesStatusFilter(a: Appointment, filterStatus: string, today: int)
  {
    (filterStatus == UpcomingFilter ==> IsUpcoming(a, today)) &&
    (filterStatus == PastFilter ==> IsPast(a, today)) &&
    (filterStatus == CancelledFilter ==> IsCancelled(a))
  }

  /** `applyFilters` on the day `today`: exactly the appointments that pass
      the filter, in list order; any other filter value keeps the list. */
  function FilterAppointments(s: seq<Appointment>, filterStatus: string, today: int): (r: seq<Appointment>)
    ensures IsSubseq(r, s)
    ensures forall x :: x in r ==> x in s && PassesStatusFilter(x, filterStatus, today)
    ensures forall x {:trigger multiset(r)[x]} :: PassesStatusFilter(x, filterStatus, today) ==>
              multiset(r)[x] == multiset(s)[x]
    ensures filterStatus !in {UpcomingFilter, PastFilter, CancelledFilter} ==> r == s
  {
    if filterStatus == UpcomingFilter then Filter(s, UpcomingOn(today))
    else if filterStatus == PastFilter then Filter(s, PastOn(today))
    else if filterStatus == CancelledFilter then Filter(s, IsCancelled)
    else SubseqRefl(s); s
  }

  /** No appointment is both upcoming and past, so the two views share
      nothing. */
  lemma UpcomingPastDisjoint(s: seq<Appointment>, today: int, x: Appointment)
    ensures !(x in FilterAppointments(s, UpcomingFilter, today) && x in FilterAppointments(s, PastFilter, today))
  {
    if x in FilterAppointments(s, UpcomingFilter, today) {
      assert IsUpcoming(x, today);
    }
  }

  /** A cancelled appointment of the list is shown under `'cancelled'` and
      never under `'upcoming'`. */
  lemma CancelledShownOnlyAsCancelled(s: seq<Appointment>, i: nat, today: int)
    requires i < |s| && s[i].status == Cancelled
    ensures s[i] in FilterAppointments(s, CancelledFilter, today)
    ensures s[i] !in FilterAppointments(s, UpcomingFilter, today)
  {
    var r := FilterAppointments(s, CancelledFilter, today);
    assert multiset(s)[s[i]] > 0;
    assert multiset(r)[s[i]] == multiset(s)[s[i]];
  }

  // ----------------------------------------------------------- labels

  function StatusBadge(s: AppointmentStatus): string
  {
    match s
    case Scheduled => "bg-warning"
    case Confirmed => "bg-success"
    case Completed => "bg-info"
    case Cancelled => "bg-danger"
    case NoShow => "bg-secondary"
  }

  function StatusLabel(s: AppointmentStatus): string
  {
    match s
    case Scheduled => "Planifié"
    case Confirmed => "Confirmé"
    case Completed => "Terminé"
    case Cancelled => "Annulé"
    case NoShow => "Non présenté"
  }

  const DefaultStatusClass: string := "bg-light text-dark"

  /** `getStatusClass`: a badge per known status, a default for the rest. */
  function GetStatusClass(status: string): (c: string)
    ensures ParseAppointmentStatus(status).Some? ==> c == StatusBadge(ParseAppointmentStatus(status).value)
    ensures c == DefaultStatusClass <==> ParseAppointmentStatus(status).None?
  {
    match ParseAppointmentStatus(status)
    case Some(s) => StatusBadge(s)
    case None => DefaultStatusClass
  }

  /** `getStatusText`: the French label of a known status; any other text is
      shown unchanged. */
  function GetStatusText(status: string): (t: string)
    ensures ParseAppointmentStatus(status).Some? ==> t == StatusLabel(ParseAppointmentStatus(status).value)
    ensures t == status <==> ParseAppointmentStatus(status).None?
  {
    match ParseAppointmentStatus(status)
    case Some(s) => StatusLabel(s)
    case None => status
  }

  // ------------------------------------------------------------- the form

  /** The booking form. `date` always holds a date object, so the form's
      date test never fails. */
  datatype NewAppointmentForm = NewAppointmentForm(
    doctorId: int,
    doctorName: string,
    date: int,
    time: string,
    reason: string,
    location: string)

  const FormDoctorId: int := 2
  const FormDoctorName: string := "Dr. Jean Martin"
  const FormTime: string := "09:00"
  const FormLocation: string := "Cabinet médical, 123 Rue de la Santé, Casablanca"
  const FormDuration: int := 30

  const MissingFieldsMessage: string := "Veuillez remplir tous les champs obligatoires"

  /** The form as `resetNewAppointmentForm` leaves it at time `now`. */
  function BlankForm(now: int): (f: NewAppointmentForm)
    ensures f.date == now && f.reason == "" && f.time == FormTime
  {
    NewAppointmentForm(FormDoctorId, FormDoctorName, now, FormTime, "", FormLocation)
  }

  /** The form can be submitted: a time and a reason that is not blank. */
  predicate FormComplete(f: NewAppointmentForm)
  {
    f.time != "" && !IsBlank(f.reason)
  }

  /** The appointment data sent for the form; the service is asked for
      status SCHEDULED and a 30-minute slot. */
  function DraftOf(f: NewAppointmentForm, patientId: Option<int>): (d: PS.AppointmentDraft)
    ensures d.patientId == patientId && d.date == Some(f.date) && d.reason == Some(f.reason)
    ensures d.doctorId == Some(f.doctorId) && d.doctorName == Some(f.doctorName)
    ensures d.time == Some(f.time) && d.location == Some(f.location)
    ensures d.status == Some(Scheduled) && d.duration == Some(FormDuration) && d.notes.None?
  {
    PS.AppointmentDraft(patientId, Some(f.doctorId), Some(f.doctorName), Some(f.date), Some(f.time),
                        Some(FormDuration), Some(f.reason), Some(Scheduled), Some(f.location), None)
  }

  class AppointmentsComponent {
    var appointments: seq<Appointment>
    var filteredAppointments: seq<Appointment>
    var loading: bool
    var filterStatus: string
    var newAppointment: NewAppointmentForm
    var showNewForm: bool

    constructor (now: int)
      ensures appointments == [] && filteredAppointments == [] && loading
      ensures filterStatus == UpcomingFilter && newAppointment == BlankForm(now) && !showNewForm
    {
      appointments := [];
      filteredAppointments := [];
      loading := true;
      filterStatus := UpcomingFilter;
      newAppointment := BlankForm(now);
      showNewForm := false;
    }

    method ApplyFilters(today: int)
      modifies this`filteredAppointments
      ensures filteredAppointments == FilterAppointments(appointments, filterStatus, today)
    {
      filteredAppointments := FilterAppointments(appointments, filterStatus, today);
    }

    /** `ngOnInit` once the current user is known: only a truthy id loads. */
    method NgOnInit(user: Option<SessionUser>, service: PS.PatientService, today: int)
      modifies this`appointments, this`filteredAppointments, this`loading
      ensures user.Some? && user.value.id.Some? && user.value.id.value != 0 ==>
                !loading && Ordered(appointments, AppDate, false) &&
                multiset(appointments) == multiset(service.GetAppointments(user.value.id.value)) &&
                filteredAppointments == FilterAppointments(appointments, filterStatus, today)
      ensures !(user.Some? && user.value.id.Some? && user.value.id.value != 0) ==>
                appointments == old(appointments) && loading == old(loading) &&
                filteredAppointments == old(filteredAppointments)
    {
      if user.Some? && user.value.id.Some? && user.value.id.value != 0 {
        LoadAppointments(user.value.id.value, service, today);
      }
    }

    /** Loads the patient's appointments earliest first and filters them. */
    method LoadAppointments(pid: int, service: PS.PatientService, today: int)
      modifies this`appointments, this`filteredAppointments, this`loading
      ensures Ordered(appointments, AppDate, false)
      ensures multiset(appointments) == multiset(service.GetAppointments(pid))
      ensures filteredAppointments == FilterAppointments(appointments, filterStatus, today)
      ensures !loading && filterStatus == old(filterStatus)
      ensures newAppointment == old(newAppointment) && showNewForm == old(showNewForm)
    {
      loading := true;
      var fetched := service.GetAppointments(pid);
      appointments := SortedByKey(fetched, AppDate, false);
      ApplyFilters(today);
      loading := false;
    }

    /** Opens or closes the form; opening it proposes the next day. */
    method ToggleNewForm(now: int)
      modifies this`showNewForm, this`newAppointment
      ensures showNewForm == !old(showNewForm)
      ensures showNewForm ==> newAppointment == old(newAppointment).(date := now + MsPerDay)
      ensures !showNewForm ==> newAppointment == old(newAppointment)
    {
      showNewForm := !showNewForm;
      if showNewForm {
        newAppointment := newAppointment.(date := now + MsPerDay);
      }
    }

    /** `scheduleAppointment` for the signed-in `user`: an incomplete form
        is refused with a message and no call; otherwise the service books
        it, the list gains the new appointment, the form closes and is
        reset. */
    method ScheduleAppointment(user: SessionUser, service: PS.PatientService, now: int, today: int)
      returns (called: bool, alert: Option<string>)
      modifies this`appointments, this`filteredAppointments, this`newAppointment, this`showNewForm, service
      ensures called <==> FormComplete(old(newAppointment))
      ensures !called ==> alert == Some(MissingFieldsMessage) &&
                          appointments == old(appointments) && newAppointment == old(newAppointment) &&
                          showNewForm == old(showNewForm) && filteredAppointments == old(filteredAppointments) &&
                          service.appointments == old(service.appointments)
      ensures called ==> alert.None? && |appointments| == |old(appointments)| + 1 &&
                         appointments[..|old(appointments)|] == old(appointments) &&
                         service.appointments == old(service.appointments) + [appointments[|old(appointments)|]] &&
                         !showNewForm && newAppointment == BlankForm(now) &&
                         filteredAppointments == FilterAppointments(appointments, filterStatus, today)
      ensures called ==> var f, b := old(newAppointment), appointments[|old(appointments)|];
                         b.id == |old(service.appointments)| + 1 && b.status == Scheduled &&
                         b.patientId == PS.OrNumber(user.id, PS.DefaultPatientId) &&
                         b.doctorId == PS.OrNumber(Some(f.doctorId), PS.DefaultDoctorId) &&
                         b.doctorName == PS.OrString(Some(f.doctorName), PS.DefaultDoctorName) &&
                         b.date == f.date && b.time == f.time && b.reason == f.reason &&
                         b.location == PS.OrString(Some(f.location), PS.DefaultLocation) &&
                         b.duration == FormDuration && b.notes.None?
      ensures service.medicalRecords == old(service.medicalRecords) && service.labResults == old(service.labResults)
      ensures service.prescriptions == old(service.prescriptions) && service.recommendations == old(service.recommendations)
    {
      if !FormComplete(newAppointment) {
        called := false;
        alert := Some(MissingFieldsMessage);
        return;
      }
      called := true;
      alert := None;
      var booked := service.ScheduleAppointment(DraftOf(newAppointment, user.id), now);
      appointments := appointments + [booked];
      ApplyFilters(today);
      showNewForm := false;
      newAppointment := BlankForm(now);
    }

    /** `cancelAppointment` on the appointment at `index`, once confirmed:
        the service cancels it, and when it reports success the page marks
        it CANCELLED as well. */
    method CancelAppointment(index: nat, confirmed: bool, service: PS.PatientService, today: int)
      returns (cancelled: bool)
      requires index < |appointments|
      modifies this`appointments, this`filteredAppointments, service
      ensures service.medicalRecords == old(service.medicalRecords) && service.labResults == old(service.labResults)
      ensures service.prescriptions == old(service.prescriptions) && service.recommendations == old(service.recommendations)
      ensures !confirmed ==> !cancelled && service.appointments == old(service.appointments)
      ensures confirmed ==> (service.appointments ==
                UpdateById(old(service.appointments), PS.AppId, old(appointments)[index].id, PS.CancelStatus))
      ensures cancelled <==> confirmed && IndexOfId(old(service.appointments), PS.AppId, old(appointments)[index].id) != -1
      ensures cancelled ==> appointments == old(appointments)[index := PS.CancelStatus(old(appointments)[index])] &&
                            filteredAppointments == FilterAppointments(appointments, filterStatus, today)
      ensures !cancelled ==> appointments == old(appointments) && filteredAppointments == old(filteredAppointments)
    {
      cancelled := false;
      if !confirmed {
        return;
      }
      cancelled := service.CancelAppointment(appointments[index].id);
      if cancelled {
        appointments := appointments[index := PS.CancelStatus(appointments[index])];
        ApplyFilters(today);
      }
    }
  }
}
