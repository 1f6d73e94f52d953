/** The patient dashboard: the patient's counters, the first three
    recommendations, the next two appointments, the two most recent lab
    results, toggling a recommendation, and the page's navigation. */
module PatientDashboard {
  import opened Models
  import opened Sequences
  import opened AuthSession
  import PS = PatientService
  import MedicalInfo

  const RecommendationSlots: nat := 3
  const AppointmentSlots: nat := 2
  const LabSlots: nat := 2

  /** Scheduled or confirmed, at `now` or later. Unlike the appointments
      page this compares the instants, not the days. */
  predicate UpcomingAt(a: Appointment, now: int)
  {
    PS.IsUpcomingStatus(a) && a.date >= now
  }

  function UpcomingFrom(now: int): Appointment -> bool { (a: Appointment) => UpcomingAt(a, now) }

  /** The next appointments: the first `AppointmentSlots` upcoming ones, in
      list order. */
  function NextAppointments(s: seq<Appointment>, now: int): (r: seq<Appointment>)
    ensures |r| <= AppointmentSlots && IsSubseq(r, s)
    ensures forall x :: x in r ==> x in s && UpcomingAt(x, now)
    ensures |r| == if Count(s, UpcomingFrom(now)) < AppointmentSlots then Count(s, UpcomingFrom(now)) else AppointmentSlots
    ensures forall i :: 0 <= i < |r| ==> r[i] == Filter(s, UpcomingFrom(now))[i]
  {
    var u := Filter(s, UpcomingFrom(now));
    var r := Take(u, AppointmentSlots);
    assert IsSubseq(r, u) by { TakeIsSubseq(u, AppointmentSlots); }
    SubseqTrans(r, u, s);
    r
  }

  lemma {:induction false} TakeIsSubseq<T>(s: seq<T>, n: nat)
    ensures IsSubseq(Take(s, n), s)
    decreases |s|
  {
    if s != [] && n > 0 {
      assert Take(s, n)[1..] == Take(s[1..], n - 1);
      TakeIsSubseq(s[1..], n - 1);
    } else if s != [] {
      assert Take(s, n) == [];
      TakeIsSubseq(s[1..], 0);
    }
  }

  /** When there are upcoming appointments the first one shown is the first
      upcoming one of the list. */
  lemma FirstShownIsFirstUpcoming(s: seq<Appointment>, now: int, k: nat)
    requires k < |s| && UpcomingAt(s[k], now)
    requires forall j :: 0 <= j < k ==> !UpcomingAt(s[j], now)
    ensures NextAppointments(s, now) != [] && NextAppointments(s, now)[0] == s[k]
  {
    FilterFirst(s, UpcomingFrom(now), k);
  }

  lemma {:induction false} FilterFirst<T(!new)>(s: seq<T>, p: T -> bool, k: nat)
    requires k < |s| && p(s[k])
    requires forall j :: 0 <= j < k ==> !p(s[j])
    ensures Filter(s, p) != [] && Filter(s, p)[0] == s[k]
    decreases k
  {
    if k > 0 {
      FilterFirst(s[1..], p, k - 1);
    }
  }

  class PatientDashboardComponent {
    var stats: Option<PS.PatientStats>
    var recommendations: seq<Recommendation>
    var upcomingAppointments: seq<Appointment>
    var recentLabResults: seq<LabResult>
    var loading: bool

    constructor ()
      ensures stats.None? && recommendations == [] && upcomingAppointments == [] && recentLabResults == []
      ensures loading
    {
      stats := None;
      recommendations := [];
      upcomingAppointments := [];
      recentLabResults := [];
      loading := true;
    }

    /** `loadPatientData` at time `now`, once its timer has fired. */
    method LoadPatientData(pid: int, service: PS.PatientService, now: int)
      modifies this
      ensures stats == Some(service.GetPatientStats(pid))
      ensures recommendations == Take(service.GetRecommendations(pid), RecommendationSlots)
      ensures upcomingAppointments == NextAppointments(service.GetAppointments(pid), now)
      ensures MostRecentLabs(recentLabResults, service.GetLabResults(pid))
      ensures !loading
    {
      loading := true;
      stats := Some(service.GetPatientStats(pid));
      recommendations := Take(service.GetRecommendations(pid), RecommendationSlots);
      upcomingAppointments := NextAppointments(service.GetAppointments(pid), now);
      recentLabResults := RecentLabResults(service.GetLabResults(pid));
      loading := false;
    }

    /** `ngOnInit` and `refresh`: only a user with a truthy id loads. */
    method NgOnInit(user: Option<SessionUser>, service: PS.PatientService, now: int)
      modifies this
      ensures user.Some? && user.value.id.Some? && user.value.id.value != 0 ==>
                !loading && stats == Some(service.GetPatientStats(user.value.id.value)) &&
                recommendations == Take(service.GetRecommendations(user.value.id.value), RecommendationSlots) &&
                upcomingAppointments == NextAppointments(service.GetAppointments(user.value.id.value), now) &&
                MostRecentLabs(recentLabResults, service.GetLabResults(user.value.id.value))
      ensures !(user.Some? && user.value.id.Some? && user.value.id.value != 0) ==>
                stats == old(stats) && recommendations == old(recommendations) && loading == old(loading) &&
                upcomingAppointments == old(upcomingAppointments) && recentLabResults == old(recentLabResults)
    {
      if user.Some? && user.value.id.Some? && user.value.id.value != 0 {
        LoadPatientData(user.value.id.value, service, now);
      }
    }

    /** Toggles the recommendation at `index` in the service and copies the
        answer into the card; with no answer the card is left as it is. */
    method ToggleRecommendationStatus(index: nat, service: PS.PatientService)
      requires index < |recommendations|
      modifies this`recommendations, service
      ensures service.medicalRecords == old(service.medicalRecords) && service.labResults == old(service.labResults)
      ensures service.prescriptions == old(service.prescriptions) && service.appointments == old(service.appointments)
      ensures service.recommendations ==
                UpdateById(old(service.recommendations), PS.RecId, old(recommendations)[index].id, PS.FlipCompleted)
      ensures IndexOfId(old(service.recommendations), PS.RecId, old(recommendations)[index].id) == -1 ==>
                recommendations == old(recommendations)
      ensures IndexOfId(old(service.recommendations), PS.RecId, old(recommendations)[index].id) != -1 ==>
                |recommendations| == |old(recommendations)| &&
                (forall j :: 0 <= j < |recommendations| && j != index ==> recommendations[j] == old(recommendations)[j]) &&
                recommendations[index] == old(recommendations)[index].(completed :=
                  !old(service.recommendations)[IndexOfId(old(service.recommendations), PS.RecId, old(recommendations)[index].id)].completed)
    {
      var updated := service.ToggleRecommendationStatus(recommendations[index].id);
      if updated.Some? {
        recommendations := recommendations[index := recommendations[index].(completed := updated.value.completed)];
      }
    }

    /** `logout`: the session is cleared and the page goes to the login. */
    method Logout(auth: AuthService) returns (navigateTo: string)
      modifies auth
      ensures auth.storage == Cleared(old(auth.storage)) && auth.currentUser.None?
      ensures navigateTo == LoginPath
    {
      navigateTo := auth.Logout();
    }
  }

  /** `r` is a newest-first selection of `LabSlots` results of `labs` (all
      of them when there are fewer), and no result left out is more recent
      than one kept. */
  predicate MostRecentLabs(r: seq<LabResult>, labs: seq<LabResult>)
  {
    |r| == (if |labs| < LabSlots then |labs| else LabSlots) &&
    Ordered(r, MedicalInfo.TestDate, true) &&
    multiset(r) <= multiset(labs) &&
    forall x, y :: x in r && y in labs && y !in r ==> x.testDate >= y.testDate
  }

  /** The lab card: `labs` sorted newest first, cut to `LabSlots`. */
  method RecentLabResults(labs: seq<LabResult>) returns (r: seq<LabResult>)
    ensures MostRecentLabs(r, labs)
  {
    var sorted := SortedByKey(labs, MedicalInfo.TestDate, true);
    r := Take(sorted, LabSlots);
    TopLabsAreNewest(labs, sorted);
  }

  /** The two labs kept from a newest-first sort of `labs` are the most
      recent ones of `labs`. */
  lemma TopLabsAreNewest(labs: seq<LabResult>, sorted: seq<LabResult>)
    requires Ordered(sorted, MedicalInfo.TestDate, true) && multiset(sorted) == multiset(labs)
    ensures |Take(sorted, LabSlots)| == if |labs| < LabSlots then |labs| else LabSlots
    ensures multiset(Take(sorted, LabSlots)) <= multiset(labs)
    ensures forall x, y :: x in Take(sorted, LabSlots) && y in labs && y !in Take(sorted, LabSlots) ==>
              x.testDate >= y.testDate
  {
    var t := Take(sorted, LabSlots);
    assert |sorted| == |labs| by { assert |multiset(sorted)| == |multiset(labs)|; }
    assert sorted == t + sorted[|t|..];
    forall x, y | x in t && y in labs && y !in t
      ensures x.testDate >= y.testDate
    {
      assert y in multiset(labs);
      TakeOfOrderedDominates(sorted, LabSlots, MedicalInfo.TestDate, true, x, y);
    }
  }

  /** `viewDetails`: the three known cards have their page; any other value
      stays put. */
  function ViewDetails(kind: string): (p: Option<string>)
    ensures kind == "medical" <==> p == Some("/patient/medical-info")
    ensures kind == "recommendations" <==> p == Some("/patient/recommendations")
    ensures kind == "appointments" <==> p == Some("/patient/appointments")
    ensures p.None? <==> kind !in {"medical", "recommendations", "appointments"}
  {
    if kind == "medical" then Some("/patient/medical-info")
    else if kind == "recommendations" then Some("/patient/recommendations")
    else if kind == "appointments" then Some("/patient/appointments")
    else None
  }
}
