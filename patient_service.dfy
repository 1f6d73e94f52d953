/** `PatientService`: five in-memory tables (medical records, lab results,
    prescriptions, recommendations, appointments), the per-patient queries
    over them, the updates in place and the per-patient statistics. */
module PatientService {
  import opened Models
  import opened Sequences

  // Row selectors, named so that the queries, the statistics and the lemmas
  // about them speak of the same predicates.

  function RecordOf(pid: int): MedicalRecord -> bool { (r: MedicalRecord) => r.patientId == pid }
  function LabOf(pid: int): LabResult -> bool { (r: LabResult) => r.patientId == pid }
  function PrescriptionOf(pid: int): Prescription -> bool { (p: Prescription) => p.patientId == pid }
  function RecommendationOf(pid: int): Recommendation -> bool { (r: Recommendation) => r.patientId == pid }
  function AppointmentOf(pid: int): Appointment -> bool { (a: Appointment) => a.patientId == pid }

  function RecordHasId(id: int): MedicalRecord -> bool { (r: MedicalRecord) => r.id == id }

  predicate IsPending(r: Recommendation) { !r.completed }
  predicate IsUpcomingStatus(a: Appointment) { a.status == Scheduled || a.status == Confirmed }

  /** Lab results of the patient whose status is not NORMAL. */
  function AbnormalLabOf(pid: int): LabResult -> bool { (r: LabResult) => r.patientId == pid && r.status != Normal }
  function LabWithStatus(pid: int, s: LabStatus): LabResult -> bool { (r: LabResult) => r.patientId == pid && r.status == s }
  function ActivePrescriptionOf(pid: int): Prescription -> bool { (p: Prescription) => p.patientId == pid && p.status == PrescriptionStatus.Active }

  function RecId(r: Recommendation): int { r.id }
  function AppId(a: Appointment): int { a.id }

  /** `rec.completed = !rec.completed` */
  function FlipCompleted(r: Recommendation): (t: Recommendation)
    ensures t.completed == !r.completed
    ensures t.(completed := r.completed) == r
  {
    r.(completed := !r.completed)
  }

  /** `app.status = 'CANCELLED'` */
  function CancelStatus(a: Appointment): (t: Appointment)
    ensures t.status == Cancelled
    ensures t.(status := a.status) == a
  {
    a.(status := Cancelled)
  }

  /** `Partial<Appointment>` as handed to `scheduleAppointment`. */
  datatype AppointmentDraft = AppointmentDraft(
    patientId: Option<int>,
    doctorId: Option<int>,
    doctorName: Option<string>,
    date: Option<int>,
    time: Option<string>,
    duration: Option<int>,
    reason: Option<string>,
    status: Option<AppointmentStatus>,
    location: Option<string>,
    notes: Option<string>)

  const DefaultPatientId: int := 3
  const DefaultDoctorId: int := 2
  const DefaultDoctorName: string := "Dr. Jean Martin"
  const DefaultTime: string := "09:00"
  const DefaultDuration: int := 30
  const DefaultReason: string := "Consultation générale"
  const DefaultLocation: string := "Cabinet médical"

  /** `n || d` for a number: `0` and a missing value are falsy. */
  function OrNumber(n: Option<int>, d: int): (r: int)
    ensures n.Some? && n.value != 0 ==> r == n.value
    ensures !(n.Some? && n.value != 0) ==> r == d
  {
    if n.Some? && n.value != 0 then n.value else d
  }

  /** `s || d` for a string. */
  function OrString(s: Option<string>, d: string): (r: string)
    ensures Truthy(s) ==> r == s.value
    ensures !Truthy(s) ==> r == d
  {
    if Truthy(s) then s.value else d
  }

  /** The per-patient counters of `getPatientStats`. */
  datatype PatientStats = PatientStats(
    totalRecords: nat,
    pendingRecommendations: nat,
    upcomingAppointments: nat,
    abnormalResults: nat,
    activePrescriptions: nat)

  /** Appointment ids are 1, 2, ..., n in table order. */
  predicate IdsSequential(s: seq<Appointment>)
  {
    forall i :: 0 <= i < |s| ==> s[i].id == i + 1
  }

  class PatientService {
    var medicalRecords: seq<MedicalRecord>
    var labResults: seq<LabResult>
    var prescriptions: seq<Prescription>
    var recommendations: seq<Recommendation>
    var appointments: seq<Appointment>

    /** The service starts from its seed tables. */
    constructor (records: seq<MedicalRecord>, labs: seq<LabResult>, prescribed: seq<Prescription>,
                 recs: seq<Recommendation>, apps: seq<Appointment>)
      ensures medicalRecords == records && labResults == labs && prescriptions == prescribed
      ensures recommendations == recs && appointments == apps
    {
      medicalRecords := records;
      labResults := labs;
      prescriptions := prescribed;
      recommendations := recs;
      appointments := apps;
    }

    /** Exactly the patient's records, in table order. */
    function GetMedicalRecords(pid: int): (r: seq<MedicalRecord>)
      reads this
      ensures IsSubseq(r, medicalRecords)
      ensures forall x :: x in r ==> x.patientId == pid
      ensures forall x: MedicalRecord {:trigger multiset(r)[x]} :: x.patientId == pid ==> multiset(r)[x] == multiset(medicalRecords)[x]
    {
      Filter(medicalRecords, RecordOf(pid))
    }

    /** The first record with that id, if any. */
    function GetMedicalRecordById(id: int): (r: Option<MedicalRecord>)
      reads this
      ensures r.None? <==> forall i :: 0 <= i < |medicalRecords| ==> medicalRecords[i].id != id
      ensures r.Some? ==> exists i :: 0 <= i < |medicalRecords| && medicalRecords[i] == r.value &&
                                      r.value.id == id && forall j :: 0 <= j < i ==> medicalRecords[j].id != id
    {
      Find(medicalRecords, RecordHasId(id))
    }

    function GetLabResults(pid: int): (r: seq<LabResult>)
      reads this
      ensures IsSubseq(r, labResults)
      ensures forall x :: x in r ==> x.patientId == pid
      ensures forall x: LabResult {:trigger multiset(r)[x]} :: x.patientId == pid ==> multiset(r)[x] == multiset(labResults)[x]
    {
      Filter(labResults, LabOf(pid))
    }

    function GetPrescriptions(pid: int): (r: seq<Prescription>)
      reads this
      ensures IsSubseq(r, prescriptions)
      ensures forall x :: x in r ==> x.patientId == pid
      ensures forall x: Prescription {:trigger multiset(r)[x]} :: x.patientId == pid ==> multiset(r)[x] == multiset(prescriptions)[x]
    {
      Filter(prescriptions, PrescriptionOf(pid))
    }

    function GetRecommendations(pid: int): (r: seq<Recommendation>)
      reads this
      ensures IsSubseq(r, recommendations)
      ensures forall x :: x in r ==> x.patientId == pid
      ensures forall x: Recommendation {:trigger multiset(r)[x]} :: x.patientId == pid ==> multiset(r)[x] == multiset(recommendations)[x]
    {
      Filter(recommendations, RecommendationOf(pid))
    }

    function GetAppointments(pid: int): (r: seq<Appointment>)
      reads this
      ensures IsSubseq(r, appointments)
      ensures forall x :: x in r ==> x.patientId == pid
      ensures forall x: Appointment {:trigger multiset(r)[x]} :: x.patientId == pid ==> multiset(r)[x] == multiset(appointments)[x]
    {
      Filter(appointments, AppointmentOf(pid))
    }

    /** Flips `completed` of the first recommendation with that id and
        returns it; `None` (the source's `null`) and no change without one. */
    method ToggleRecommendationStatus(id: int) returns (r: Option<Recommendation>)
      modifies this
      ensures recommendations == UpdateById(old(recommendations), RecId, id, FlipCompleted)
      ensures medicalRecords == old(medicalRecords) && labResults == old(labResults)
      ensures prescriptions == old(prescriptions) && appointments == old(appointments)
      ensures r.None? <==> IndexOfId(old(recommendations), RecId, id) == -1
      ensures r.Some? ==> r.value == recommendations[IndexOfId(old(recommendations), RecId, id)]
      ensures r.Some? ==> r.value.id == id &&
                          r.value.completed == !old(recommendations)[IndexOfId(old(recommendations), RecId, id)].completed
    {
      var index := IndexOfId(recommendations, RecId, id);
      if index != -1 {
        recommendations := recommendations[index := FlipCompleted(recommendations[index])];
        r := Some(recommendations[index]);
      } else {
        r := None;
      }
    }

    /** Appends the drafted appointment with the next id and status
        SCHEDULED, whatever status the draft carries; falsy fields take their
        defaults, and a missing date is `now`. */
    method ScheduleAppointment(draft: AppointmentDraft, now: int) returns (a: Appointment)
      modifies this
      ensures appointments == old(appointments) + [a]
      ensures a.id == |old(appointments)| + 1
      ensures a.status == Scheduled
      ensures a.patientId == OrNumber(draft.patientId, DefaultPatientId)
      ensures a.doctorId == OrNumber(draft.doctorId, DefaultDoctorId)
      ensures a.doctorName == OrString(draft.doctorName, DefaultDoctorName)
      ensures a.date == (if draft.date.Some? then draft.date.value else now)
      ensures a.time == OrString(draft.time, DefaultTime)
      ensures a.duration == OrNumber(draft.duration, DefaultDuration)
      ensures a.reason == OrString(draft.reason, DefaultReason)
      ensures a.location == OrString(draft.location, DefaultLocation)
      ensures a.notes == draft.notes
      ensures medicalRecords == old(medicalRecords) && labResults == old(labResults)
      ensures prescriptions == old(prescriptions) && recommendations == old(recommendations)
    {
      a := Appointment(
        |appointments| + 1,
        OrNumber(draft.patientId, DefaultPatientId),
        OrNumber(draft.doctorId, DefaultDoctorId),
        OrString(draft.doctorName, DefaultDoctorName),
        if draft.date.Some? then draft.date.value else now,
        OrString(draft.time, DefaultTime),
        OrNumber(draft.duration, DefaultDuration),
        OrString(draft.reason, DefaultReason),
        Scheduled,
        OrString(draft.location, DefaultLocation),
        draft.notes);
      appointments := appointments + [a];
    }

    /** Sets the status of the first appointment with that id to CANCELLED;
        reports whether there was one. */
    method CancelAppointment(id: int) returns (found: bool)
      modifies this
      ensures appointments == UpdateById(old(appointments), AppId, id, CancelStatus)
      ensures found <==> IndexOfId(old(appointments), AppId, id) != -1
      ensures found ==> appointments[IndexOfId(old(appointments), AppId, id)].status == Cancelled
      ensures medicalRecords == old(medicalRecords) && labResults == old(labResults)
      ensures prescriptions == old(prescriptions) && recommendations == old(recommendations)
    {
      var index := IndexOfId(appointments, AppId, id);
      if index != -1 {
        appointments := appointments[index := CancelStatus(appointments[index])];
        found := true;
      } else {
        found := false;
      }
    }

    /** Each counter is bounded by the patient's rows of its table; the
        abnormal count takes in the CRITICAL results as well as the ABNORMAL ones. */
    function GetPatientStats(pid: int): (st: PatientStats)
      reads this
      ensures st.totalRecords == |GetMedicalRecords(pid)|
      ensures st.pendingRecommendations == Count(GetRecommendations(pid), IsPending)
      ensures st.upcomingAppointments == Count(GetAppointments(pid), IsUpcomingStatus)
      ensures st.abnormalResults == Count(labResults, LabWithStatus(pid, Abnormal)) +
                                    Count(labResults, LabWithStatus(pid, Critical))
      ensures st.activePrescriptions == Count(prescriptions, ActivePrescriptionOf(pid))
    {
      CountSplit(labResults, AbnormalLabOf(pid), LabWithStatus(pid, Abnormal),
                 LabWithStatus(pid, Critical), (r: LabResult) => r.status == Abnormal);
      var recs := GetRecommendations(pid);
      var apps := GetAppointments(pid);
      PatientStats(
        |GetMedicalRecords(pid)|,
        Count(recs, IsPending),
        Count(apps, IsUpcomingStatus),
        Count(labResults, AbnormalLabOf(pid)),
        Count(prescriptions, ActivePrescriptionOf(pid)))
    }

    /** No counter exceeds the number of the patient's rows it counts. */
    lemma PatientStatsBounded(pid: int)
      ensures GetPatientStats(pid).pendingRecommendations <= |GetRecommendations(pid)|
      ensures GetPatientStats(pid).upcomingAppointments <= |GetAppointments(pid)|
      ensures GetPatientStats(pid).abnormalResults <= |GetLabResults(pid)|
      ensures GetPatientStats(pid).activePrescriptions <= |GetPrescriptions(pid)|
    {
      CountSplit(labResults, AbnormalLabOf(pid), LabWithStatus(pid, Abnormal),
                 LabWithStatus(pid, Critical), (r: LabResult) => r.status == Abnormal);
      CountMono(labResults, AbnormalLabOf(pid), LabOf(pid));
      CountMono(prescriptions, ActivePrescriptionOf(pid), PrescriptionOf(pid));
    }
  }

  /** Toggling the same recommendation twice restores the table. */
  lemma ToggleTwiceRestores(s: seq<Recommendation>, id: int)
    ensures UpdateById(UpdateById(s, RecId, id, FlipCompleted), RecId, id, FlipCompleted) == s
  {
    UpdateByIdTwice(s, RecId, id, FlipCompleted);
  }

  /** Cancelling an appointment a second time changes nothing further. */
  lemma CancelTwiceSameAsOnce(s: seq<Appointment>, id: int)
    ensures UpdateById(UpdateById(s, AppId, id, CancelStatus), AppId, id, CancelStatus) ==
            UpdateById(s, AppId, id, CancelStatus)
  {
    UpdateByIdRepeat(s, AppId, id, CancelStatus);
  }

  /** Appending with `id = length + 1` keeps ids 1..n as 1..n+1; cancelling
      keeps every id. */
  lemma ScheduleKeepsIdsSequential(s: seq<Appointment>, a: Appointment, id: int)
    requires IdsSequential(s) && a.id == |s| + 1
    ensures IdsSequential(s + [a])
    ensures IdsSequential(UpdateById(s, AppId, id, CancelStatus))
  {
    var c := UpdateById(s, AppId, id, CancelStatus);
    forall i | 0 <= i < |c|
      ensures c[i].id == i + 1
    {
      if i == IndexOfId(s, AppId, id) {
        assert c[i] == CancelStatus(s[i]);
      }
    }
  }
}
