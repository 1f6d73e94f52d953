/** The portal's record types (medical records, users, system configuration,
    service access), as plain values. Dates are integer timestamps in
    milliseconds; a union of string literals becomes an enumeration whose
    wire name is given by a `...Name` function. */
module Models {

  datatype Option<+T> = None | Some(value: T)

  /** JavaScript truthiness of a string that may be `null` or `undefined`:
      the empty string is false. */
  predicate Truthy(v: Option<string>)
  {
    v.Some? && v.value != ""
  }

  // ---------------------------------------------------------------- users

  datatype Role = Admin | Doctor | Patient

  function RoleName(r: Role): string
  {
    match r
    case Admin => "ADMIN"
    case Doctor => "DOCTOR"
    case Patient => "PATIENT"
  }

  /** The Role whose wire name is `s`, if any. */
  function ParseRole(s: string): (r: Option<Role>)
    ensures r.Some? ==> RoleName(r.value) == s
    ensures r.None? <==> forall x: Role :: RoleName(x) != s
  {
    if s == "ADMIN" then Some(Admin)
    else if s == "DOCTOR" then Some(Doctor)
    else if s == "PATIENT" then Some(Patient)
    else None
  }

  datatype User = User(
    id: int,
    firstName: string,
    lastName: string,
    email: string,
    role: Role,
    phone: Option<string>,
    address: Option<string>,
    enabled: bool,
    createdAt: int,
    lastLogin: Option<int>)

  /** What the user form sends to the user store. */
  datatype UserFormData = UserFormData(
    firstName: string,
    lastName: string,
    email: string,
    password: string,
    role: Role,
    phone: Option<string>,
    address: Option<string>)

  // ------------------------------------------------------- medical records

  datatype MedicalRecord = MedicalRecord(
    id: int,
    patientId: int,
    patientName: string,
    doctorId: int,
    doctorName: string,
    date: int,
    diagnosis: string,
    symptoms: string,
    treatment: string,
    notes: string,
    attachments: Option<seq<string>>)

  datatype LabStatus = Normal | Abnormal | Critical

  function LabStatusName(s: LabStatus): string
  {
    match s
    case Normal => "NORMAL"
    case Abnormal => "ABNORMAL"
    case Critical => "CRITICAL"
  }

  /** The LabStatus whose wire name is `s`, if any. */
  function ParseLabStatus(s: string): (r: Option<LabStatus>)
    ensures r.Some? ==> LabStatusName(r.value) == s
    ensures r.None? <==> forall x: LabStatus :: LabStatusName(x) != s
  {
    if s == "NORMAL" then Some(Normal)
    else if s == "ABNORMAL" then Some(Abnormal)
    else if s == "CRITICAL" then Some(Critical)
    else None
  }

  datatype LabResult = LabResult(
    id: int,
    patientId: int,
    testName: string,
    testDate: int,
    result: string,
    normalRange: string,
    unit: string,
    status: LabStatus,
    labName: string)

  datatype PrescriptionStatus = Active | Completed | Stopped

  function PrescriptionStatusName(s: PrescriptionStatus): string
  {
    match s
    case Active => "ACTIVE"
    case Completed => "COMPLETED"
    case Stopped => "STOPPED"
  }

  /** The PrescriptionStatus whose wire name is `s`, if any. */
  function ParsePrescriptionStatus(s: string): (r: Option<PrescriptionStatus>)
    ensures r.Some? ==> PrescriptionStatusName(r.value) == s
    ensures r.None? <==> forall x: PrescriptionStatus :: PrescriptionStatusName(x) != s
  {
    if s == "ACTIVE" then Some(PrescriptionStatus.Active)
    else if s == "COMPLETED" then Some(PrescriptionStatus.Completed)
    else if s == "STOPPED" then Some(Stopped)
    else None
  }

  datatype Prescription = Prescription(
    id: int,
    patientId: int,
    medication: string,
    dosage: string,
    frequency: string,
    duration: string,
    startDate: int,
    endDate: int,
    prescribedBy: string,
    status: PrescriptionStatus)

  datatype RecommendationType = Lifestyle | Diet | Exercise | FollowUp | Medication

  function RecommendationTypeName(t: RecommendationType): string
  {
    match t
    case Lifestyle => "LIFESTYLE"
    case Diet => "DIET"
    case Exercise => "EXERCISE"
    case FollowUp => "FOLLOWUP"
    case Medication => "MEDICATION"
  }

  /** The RecommendationType whose wire name is `s`, if any. */
  function ParseRecommendationType(s: string): (r: Option<RecommendationType>)
    ensures r.Some? ==> RecommendationTypeName(r.value) == s
    ensures r.None? <==> forall x: RecommendationType :: RecommendationTypeName(x) != s
  {
    if s == "LIFESTYLE" then Some(Lifestyle)
    else if s == "DIET" then Some(Diet)
    else if s == "EXERCISE" then Some(Exercise)
    else if s == "FOLLOWUP" then Some(FollowUp)
    else if s == "MEDICATION" then Some(Medication)
    else None
  }

  datatype Priority = Low | Medium | High | Urgent

  function PriorityName(p: Priority): string
  {
    match p
    case Low => "LOW"
    case Medium => "MEDIUM"
    case High => "HIGH"
    case Urgent => "URGENT"
  }

  /** The Priority whose wire name is `s`, if any. */
  function ParsePriority(s: string): (r: Option<Priority>)
    ensures r.Some? ==> PriorityName(r.value) == s
    ensures r.None? <==> forall x: Priority :: PriorityName(x) != s
  {
    if s == "LOW" then Some(Low)
    else if s == "MEDIUM" then Some(Medium)
    else if s == "HIGH" then Some(High)
    else if s == "URGENT" then Some(Urgent)
    else None
  }

  datatype RecommendationSource = AI | DoctorAdvice | SystemRule

  function SourceName(s: RecommendationSource): string
  {
    match s
    case AI => "AI"
    case DoctorAdvice => "DOCTOR"
    case SystemRule => "SYSTEM"
  }

  /** `kind` is the record's `type` field. */
  datatype Recommendation = Recommendation(
    id: int,
    patientId: int,
    kind: RecommendationType,
    title: string,
    description: string,
    priority: Priority,
    createdDate: int,
    dueDate: int,
    completed: bool,
    source: RecommendationSource)

  datatype AppointmentStatus = Scheduled | Confirmed | Completed | Cancelled | NoShow

  function AppointmentStatusName(s: AppointmentStatus): string
  {
    match s
    case Scheduled => "SCHEDULED"
    case Confirmed => "CONFIRMED"
    case Completed => "COMPLETED"
    case Cancelled => "CANCELLED"
    case NoShow => "NO_SHOW"
  }

  /** The AppointmentStatus whose wire name is `s`, if any. */
  function ParseAppointmentStatus(s: string): (r: Option<AppointmentStatus>)
    ensures r.Some? ==> AppointmentStatusName(r.value) == s
    ensures r.None? <==> forall x: AppointmentStatus :: AppointmentStatusName(x) != s
  {
    if s == "SCHEDULED" then Some(Scheduled)
    else if s == "CONFIRMED" then Some(Confirmed)
    else if s == "COMPLETED" then Some(AppointmentStatus.Completed)
    else if s == "CANCELLED" then Some(Cancelled)
    else if s == "NO_SHOW" then Some(NoShow)
    else None
  }

  datatype Appointment = Appointment(
    id: int,
    patientId: int,
    doctorId: int,
    doctorName: string,
    date: int,
    time: string,
    duration: int,
    reason: string,
    status: AppointmentStatus,
    location: string,
    notes: Option<string>)

  // -------------------------------------------------- system configuration

  datatype ConfigCategoryId = General | Security | Email | Database | AIModel

  function ConfigCategoryName(c: ConfigCategoryId): string
  {
    match c
    case General => "GENERAL"
    case Security => "SECURITY"
    case Email => "EMAIL"
    case Database => "DATABASE"
    case AIModel => "AI"
  }

  /** The ConfigCategoryId whose wire name is `s`, if any. */
  function ParseConfigCategory(s: string): (r: Option<ConfigCategoryId>)
    ensures r.Some? ==> ConfigCategoryName(r.value) == s
    ensures r.None? <==> forall x: ConfigCategoryId :: ConfigCategoryName(x) != s
  {
    if s == "GENERAL" then Some(General)
    else if s == "SECURITY" then Some(Security)
    else if s == "EMAIL" then Some(Email)
    else if s == "DATABASE" then Some(Database)
    else if s == "AI" then Some(AIModel)
    else None
  }

  datatype SystemConfig = SystemConfig(
    id: int,
    key: string,
    value: string,
    description: string,
    category: ConfigCategoryId,
    editable: bool)

  datatype ConfigCategory = ConfigCategory(id: string, name: string, icon: string, color: string)

  // ------------------------------------------------------- service access

  datatype ServiceStatus = Active | Inactive | Maintenance

  datatype AccessLevel = All | AdminOnly | DoctorOnly | Restricted

  datatype Service = Service(
    id: int,
    name: string,
    description: string,
    icon: string,
    status: ServiceStatus,
    accessLevel: AccessLevel,
    usersCount: int,
    lastAccessed: int,
    url: Option<string>)

  datatype AccessAction = Access | Denied | Logout

  datatype ServiceAccessLog = ServiceAccessLog(
    id: int,
    userId: int,
    userName: string,
    serviceId: int,
    serviceName: string,
    action: AccessAction,
    timestamp: int,
    ipAddress: string)

  // ------------------------------------------------------------ HTTP errors

  /** The JSON body of an error response, as far as the forms read it. */
  datatype ErrorBody = ErrorBody(message: Option<string>)

  /** What an `HttpClient` call reports on failure: `status` 0 when the
      server could not be reached, and the parsed body if there is one. */
  datatype HttpError = HttpError(status: int, body: Option<ErrorBody>)
}
