/** The medical-information page: the patient's records, lab results and
    prescriptions newest first, the progress of a prescription, and the
    status labels. */
module MedicalInfo {
  import opened Models
  import opened Sequences
  import opened AuthSession
  import PS = PatientService

  function RecordDate(r: MedicalRecord): int { r.date }
  function TestDate(r: LabResult): int { r.testDate }
  function StartDate(p: Prescription): int { p.startDate }

  // ------------------------------------------------------ progress

  /** `getPrescriptionProgress` at time `now`: 100 once the end is reached
      (tested first), 0 up to the start, and in between the elapsed share in
      percent rounded half up, capped at 100. */
  function PrescriptionProgress(startDate: int, endDate: int, now: int): (p: int)
    ensures 0 <= p <= 100
    ensures now >= endDate ==> p == 100
    ensures now < endDate && now <= startDate ==> p == 0
    ensures startDate < now < endDate ==>
              2 * (endDate - startDate) * p <= 200 * (now - startDate) + (endDate - startDate) &&
              (p == 100 || 200 * (now - startDate) + (endDate - startDate) < 2 * (endDate - startDate) * (p + 1))
  {
    if now >= endDate then 100
    else if now <= startDate then 0
    else
      var total := endDate - startDate;
      var elapsed := now - startDate;
      var rounded := (200 * elapsed + total) / (2 * total);
      DivBounds(200 * elapsed + total, 2 * total);
      if rounded < 100 then rounded else 100
  }

  /** The quotient of Euclidean division by a positive divisor. */
  lemma DivBounds(a: int, d: int)
    requires 0 <= a && 0 < d
    ensures 0 <= a / d
    ensures d * (a / d) <= a < d * (a / d + 1)
  {
    assert a == d * (a / d) + a % d;
  }

  /** Rounding half up of `100 * e / t` never decreases as `e` grows. */
  lemma RoundedShareMono(e1: int, e2: int, t: int)
    requires 0 < t && e1 <= e2
    ensures (200 * e1 + t) / (2 * t) <= (200 * e2 + t) / (2 * t)
  {
    DivMono(200 * e1 + t, 200 * e2 + t, 2 * t);
  }

  /** Euclidean division by a positive divisor is monotone in the dividend. */
  lemma DivMono(a: int, b: int, d: int)
    requires a <= b && 0 < d
    ensures a / d <= b / d
  {
    var q1, q2 := a / d, b / d;
    assert a == d * q1 + a % d;
    assert b == d * q2 + b % d;
    if q2 < q1 {
      MulLe(d, q2 + 1, q1);
      assert false;
    }
  }

  lemma MulLe(k: int, x: int, y: int)
    requires 0 <= k && x <= y
    ensures k * x <= k * y
  {
    assert k * y - k * x == k * (y - x);
  }

  /** For a fixed prescription the progress never goes back as time passes. */
  lemma ProgressMonotone(startDate: int, endDate: int, now1: int, now2: int)
    requires startDate < endDate && now1 <= now2
    ensures PrescriptionProgress(startDate, endDate, now1) <= PrescriptionProgress(startDate, endDate, now2)
  {
    if startDate < now1 && now2 < endDate {
      RoundedShareMono(now1 - startDate, now2 - startDate, endDate - startDate);
    }
  }

  // -------------------------------------------------------- labels

  function PrescriptionBadge(s: PrescriptionStatus): string
  {
    match s
    case Active => "bg-success"
    case Completed => "bg-secondary"
    case Stopped => "bg-danger"
  }

  function PrescriptionLabel(s: PrescriptionStatus): string
  {
    match s
    case Active => "Active"
    case Completed => "Terminée"
    case Stopped => "Arrêtée"
  }

  function LabBadge(s: LabStatus): string
  {
    match s
    case Normal => "bg-success"
    case Abnormal => "bg-warning"
    case Critical => "bg-danger"
  }

  function LabLabel(s: LabStatus): string
  {
    match s
    case Normal => "Normal"
    case Abnormal => "Anormal"
    case Critical => "Critique"
  }

  const DefaultPrescriptionClass: string := "bg-info"
  const DefaultLabClass: string := "bg-secondary"

  /** `getStatusClass` of a prescription status. */
  function GetStatusClass(status: string): (c: string)
    ensures ParsePrescriptionStatus(status).Some? ==> c == PrescriptionBadge(ParsePrescriptionStatus(status).value)
    ensures c == DefaultPrescriptionClass <==> ParsePrescriptionStatus(status).None?
  {
    match ParsePrescriptionStatus(status)
    case Some(s) => PrescriptionBadge(s)
    case None => DefaultPrescriptionClass
  }

  /** `getStatusText` of a prescription status; unknown text unchanged. */
  function GetStatusText(status: string): (t: string)
    ensures ParsePrescriptionStatus(status).Some? ==> t == PrescriptionLabel(ParsePrescriptionStatus(status).value)
    ensures ParsePrescriptionStatus(status).None? ==> t == status
  {
    match ParsePrescriptionStatus(status)
    case Some(s) => PrescriptionLabel(s)
    case None => status
  }

  /** `getLabStatusClass`. */
  function GetLabStatusClass(status: string): (c: string)
    ensures ParseLabStatus(status).Some? ==> c == LabBadge(ParseLabStatus(status).value)
    ensures c == DefaultLabClass <==> ParseLabStatus(status).None?
  {
    match ParseLabStatus(status)
    case Some(s) => LabBadge(s)
    case None => DefaultLabClass
  }

  /** `getLabStatusText`; unknown text unchanged. */
  function GetLabStatusText(status: string): (t: string)
    ensures ParseLabStatus(status).Some? ==> t == LabLabel(ParseLabStatus(status).value)
    ensures ParseLabStatus(status).None? ==> t == status
  {
    match ParseLabStatus(status)
    case Some(s) => LabLabel(s)
    case None => status
  }

  /** A known prescription status is never shown under its wire name. */
  lemma StatusTextDiffersFromName(s: PrescriptionStatus)
    ensures GetStatusText(PrescriptionStatusName(s)) == PrescriptionLabel(s)
    ensures GetStatusText(PrescriptionStatusName(s)) != PrescriptionStatusName(s)
  {
  }

  // ----------------------------------------------------- the component

  const RecordsTab: string := "records"

  class MedicalInfoComponent {
    var medicalRecords: seq<MedicalRecord>
    var labResults: seq<LabResult>
    var prescriptions: seq<Prescription>
    var loading: bool
    var activeTab: string

    constructor ()
      ensures medicalRecords == [] && labResults == [] && prescriptions == []
      ensures loading && activeTab == RecordsTab
    {
      medicalRecords := [];
      labResults := [];
      prescriptions := [];
      loading := true;
      activeTab := RecordsTab;
    }

    /** `ngOnInit` once the current user is known: only a truthy id loads. */
    method NgOnInit(user: Option<SessionUser>, service: PS.PatientService)
      modifies this`medicalRecords, this`labResults, this`prescriptions, this`loading
      ensures user.Some? && user.value.id.Some? && user.value.id.value != 0 ==>
                !loading && Ordered(medicalRecords, RecordDate, true) &&
                multiset(medicalRecords) == multiset(service.GetMedicalRecords(user.value.id.value)) &&
                Ordered(labResults, TestDate, true) &&
                multiset(labResults) == multiset(service.GetLabResults(user.value.id.value)) &&
                Ordered(prescriptions, StartDate, true) &&
                multiset(prescriptions) == multiset(service.GetPrescriptions(user.value.id.value))
      ensures !(user.Some? && user.value.id.Some? && user.value.id.value != 0) ==>
                medicalRecords == old(medicalRecords) && labResults == old(labResults) &&
                prescriptions == old(prescriptions) && loading == old(loading)
      ensures activeTab == old(activeTab)
    {
      if user.Some? && user.value.id.Some? && user.value.id.value != 0 {
        LoadMedicalData(user.value.id.value, service);
      }
    }

    /** `loadMedicalData`, once its timer has fired: each list is the
        patient's rows, newest first. */
    method LoadMedicalData(pid: int, service: PS.PatientService)
      modifies this`medicalRecords, this`labResults, this`prescriptions, this`loading
      ensures Ordered(medicalRecords, RecordDate, true)
      ensures multiset(medicalRecords) == multiset(service.GetMedicalRecords(pid))
      ensures Ordered(labResults, TestDate, true)
      ensures multiset(labResults) == multiset(service.GetLabResults(pid))
      ensures Ordered(prescriptions, StartDate, true)
      ensures multiset(prescriptions) == multiset(service.GetPrescriptions(pid))
      ensures !loading && activeTab == old(activeTab)
    {
      loading := true;
      medicalRecords := SortedByKey(service.GetMedicalRecords(pid), RecordDate, true);
      labResults := SortedByKey(service.GetLabResults(pid), TestDate, true);
      prescriptions := SortedByKey(service.GetPrescriptions(pid), StartDate, true);
      loading := false;
    }

    method SetActiveTab(tab: string)
      modifies this`activeTab
      ensures activeTab == tab
    {
      activeTab := tab;
    }
  }

  /** The first row of a list sorted newest first is at least as recent as
      every row of the list. */
  lemma SortedHeadIsNewest(s: seq<LabResult>, x: LabResult)
    requires Ordered(s, TestDate, true) && x in s
    ensures s[0].testDate >= x.testDate
  {
    var k :| 0 <= k < |s| && s[k] == x;
    if k > 0 {
      assert !OutOfOrder(s[0], s[k], TestDate, true);
    }
  }
}
