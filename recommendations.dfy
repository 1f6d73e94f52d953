/** The recommendations page: the patient's recommendations, newest first,
    their counters, the status/priority/source filters, toggling one or all
    of them, and the labels of the page. */
module Recommendations {
  import opened Models
  import opened Sequences
  import opened Text
  import opened AuthSession
  import PS = PatientService

  const AllFilter: string := "all"

  function CreatedDate(r: Recommendation): int { r.createdDate }

  predicate IsCompleted(r: Recommendation) { r.completed }
  predicate IsUrgentPending(r: Recommendation) { r.priority == Urgent && !r.completed }
  predicate FromAI(r: Recommendation) { r.source == AI }
  predicate FromDoctor(r: Recommendation) { r.source == DoctorAdvice }

  function HasPriorityName(name: string): Recommendation -> bool
  {
    (r: Recommendation) => PriorityName(r.priority) == name
  }

  function HasSourceName(name: string): Recommendation -> bool
  {
    (r: Recommendation) => SourceName(r.source) == name
  }

  datatype RecStats = RecStats(total: nat, pending: nat, completed: nat, urgent: nat, fromAI: nat, fromDoctor: nat)

  /** `calculateStats`: pending and completed part the list; an urgent
      recommendation is a pending one; SYSTEM ones are neither from the AI
      nor from a doctor. */
  function CalculateStats(s: seq<Recommendation>): (st: RecStats)
    ensures st.total == |s|
    ensures st.pending == Count(s, PS.IsPending) && st.completed == Count(s, IsCompleted)
    ensures st.pending + st.completed == st.total
    ensures st.urgent == |set i | 0 <= i < |s| && s[i].priority == Urgent && !s[i].completed|
    ensures st.fromAI == |set i | 0 <= i < |s| && s[i].source == AI|
    ensures st.fromDoctor == |set i | 0 <= i < |s| && s[i].source == DoctorAdvice|
    ensures st.urgent <= st.pending
    ensures st.fromAI + st.fromDoctor <= st.total
  {
    CountComplement(s, PS.IsPending, IsCompleted);
    CountIsIndexCount(s, IsUrgentPending);
    CountIsIndexCount(s, FromAI);
    CountIsIndexCount(s, FromDoctor);
    assert IndicesWhere(s, IsUrgentPending) == set i | 0 <= i < |s| && s[i].priority == Urgent && !s[i].completed;
    assert IndicesWhere(s, FromAI) == set i | 0 <= i < |s| && s[i].source == AI;
    assert IndicesWhere(s, FromDoctor) == set i | 0 <= i < |s| && s[i].source == DoctorAdvice;
    CountMono(s, IsUrgentPending, PS.IsPending);
    CountDisjoint(s, FromAI, FromDoctor);
    RecStats(|s|, Count(s, PS.IsPending), Count(s, IsCompleted), Count(s, IsUrgentPending),
             Count(s, FromAI), Count(s, FromDoctor))
  }

  /** What each filter demands of a recommendation. Priority and source are
      compared with the upper-cased filter value. */
  predicate PassesFilters(r: Recommendation, filterType: string, filterPriority: string, filterSource: string)
  {
    (filterType == "pending" ==> !r.completed) &&
    (filterType == "completed" ==> r.completed) &&
    (filterPriority != AllFilter ==> PriorityName(r.priority) == ToUpper(filterPriority)) &&
    (filterSource != AllFilter ==> SourceName(r.source) == ToUpper(filterSource))
  }

  /** One filter step that may be switched off. */
  function Stage(s: seq<Recommendation>, active: bool, p: Recommendation -> bool): (r: seq<Recommendation>)
    ensures IsSubseq(r, s)
    ensures forall x :: x in r ==> x in s && (active ==> p(x))
    ensures forall x {:trigger multiset(r)[x]} :: (active ==> p(x)) ==> multiset(r)[x] == multiset(s)[x]
  {
    if active then Filter(s, p) else SubseqRefl(s); s
  }

  /** `applyFilters`: exactly the recommendations that pass all three
      filters, in the order of the list. */
  function FilterRecommendations(s: seq<Recommendation>, filterType: string, filterPriority: string,
                                 filterSource: string): (r: seq<Recommendation>)
    ensures IsSubseq(r, s)
    ensures forall x :: x in r ==> x in s && PassesFilters(x, filterType, filterPriority, filterSource)
    ensures forall x {:trigger multiset(r)[x]} :: PassesFilters(x, filterType, filterPriority, filterSource) ==>
              multiset(r)[x] == multiset(s)[x]
  {
    var byStatus :=
      if filterType == "pending" then Stage(s, true, PS.IsPending)
      else Stage(s, filterType == "completed", IsCompleted);
    var byPriority := Stage(byStatus, filterPriority != AllFilter, HasPriorityName(ToUpper(filterPriority)));
    var bySource := Stage(byPriority, filterSource != AllFilter, HasSourceName(ToUpper(filterSource)));
    SubseqTrans(bySource, byPriority, byStatus);
    SubseqTrans(bySource, byStatus, s);
    bySource
  }

  /** With every filter at `'all'` nothing is filtered out. */
  lemma AllFiltersKeepEverything(s: seq<Recommendation>)
    ensures FilterRecommendations(s, AllFilter, AllFilter, AllFilter) == s
  {
  }

  /** `getDueDateClass`, given the whole days left until the due date. */
  function DueDateClass(daysRemaining: int): (c: string)
    ensures c == "text-danger" <==> daysRemaining < 0
    ensures c == "text-warning" <==> 0 <= daysRemaining <= 3
    ensures c == "text-info" <==> 4 <= daysRemaining <= 7
    ensures c == "text-muted" <==> daysRemaining > 7
  {
    if daysRemaining < 0 then "text-danger"
    else if daysRemaining <= 3 then "text-warning"
    else if daysRemaining <= 7 then "text-info"
    else "text-muted"
  }

  // ------------------------------------------------------------ labels

  function PriorityBadge(p: Priority): string
  {
    match p
    case Urgent => "bg-danger"
    case High => "bg-warning"
    case Medium => "bg-info"
    case Low => "bg-secondary"
  }

  function PriorityLabel(p: Priority): string
  {
    match p
    case Urgent => "Urgent"
    case High => "Élevée"
    case Medium => "Moyenne"
    case Low => "Faible"
  }

  function TypeLabel(t: RecommendationType): string
  {
    match t
    case Diet => "Régime alimentaire"
    case Exercise => "Activité physique"
    case Lifestyle => "Mode de vie"
    case FollowUp => "Suivi médical"
    case Medication => "Médication"
  }

  function TypeIconOf(t: RecommendationType): string
  {
    match t
    case Diet => "fas fa-apple-alt"
    case Exercise => "fas fa-running"
    case Lifestyle => "fas fa-heart"
    case FollowUp => "fas fa-calendar-check"
    case Medication => "fas fa-pills"
  }

  const DefaultPriorityClass: string := "bg-light text-dark"
  const DefaultTypeIcon: string := "fas fa-list-check"

  /** `getPriorityClass`: a distinct badge per priority, and a default no
      priority uses. */
  function GetPriorityClass(priority: string): (c: string)
    ensures ParsePriority(priority).Some? ==> c == PriorityBadge(ParsePriority(priority).value)
    ensures c == DefaultPriorityClass <==> ParsePriority(priority).None?
  {
    match ParsePriority(priority)
    case Some(p) => PriorityBadge(p)
    case None => DefaultPriorityClass
  }

  /** Two known priorities never share a badge, so the badge tells the
      priority. */
  lemma PriorityClassesDistinct(a: string, b: string)
    requires ParsePriority(a).Some? && ParsePriority(b).Some?
    ensures GetPriorityClass(a) == GetPriorityClass(b) <==> a == b
  {
  }

  /** `getPriorityText`: the French label of a known priority; any other
      text is shown as it is, and no label is its own wire name. */
  function GetPriorityText(priority: string): (t: string)
    ensures ParsePriority(priority).Some? ==> t == PriorityLabel(ParsePriority(priority).value)
    ensures t == priority <==> ParsePriority(priority).None?
  {
    match ParsePriority(priority)
    case Some(p) => PriorityLabel(p)
    case None => priority
  }

  function GetTypeText(kind: string): (t: string)
    ensures ParseRecommendationType(kind).Some? ==> t == TypeLabel(ParseRecommendationType(kind).value)
    ensures t == kind <==> ParseRecommendationType(kind).None?
  {
    match ParseRecommendationType(kind)
    case Some(k) => TypeLabel(k)
    case None => kind
  }

  function GetTypeIcon(kind: string): (i: string)
    ensures ParseRecommendationType(kind).Some? ==> i == TypeIconOf(ParseRecommendationType(kind).value)
    ensures i == DefaultTypeIcon <==> ParseRecommendationType(kind).None?
  {
    match ParseRecommendationType(kind)
    case Some(k) => TypeIconOf(k)
    case None => DefaultTypeIcon
  }

  // ------------------------------------------------------- the component

  /** Every recommendation marked completed, each in its place. */
  function AllCompleted(s: seq<Recommendation>): (r: seq<Recommendation>)
    ensures |r| == |s|
    ensures forall i :: 0 <= i < |s| ==> r[i] == s[i].(completed := true)
  {
    seq(|s|, i requires 0 <= i < |s| => s[i].(completed := true))
  }

  /** The ids of the pending recommendations of `s`, in order. */
  function PendingIds(s: seq<Recommendation>): (ids: seq<int>)
    ensures |ids| == Count(s, PS.IsPending)
    ensures forall k :: 0 <= k < |ids| ==> ids[k] == Filter(s, PS.IsPending)[k].id
    decreases |s|
  {
    if s == [] then []
    else
      assert s == [s[0]] + s[1..];
      (if !s[0].completed then [s[0].id] else []) + PendingIds(s[1..])
  }

  /** The service table after toggling each id of `ids` in turn. */
  function ToggleEach(t: seq<Recommendation>, ids: seq<int>): seq<Recommendation>
    decreases |ids|
  {
    if ids == [] then t
    else ToggleEach(UpdateById(t, PS.RecId, ids[0], PS.FlipCompleted), ids[1..])
  }

  lemma {:induction false} ToggleEachAppend(t: seq<Recommendation>, ids: seq<int>, id: int)
    ensures ToggleEach(t, ids + [id]) == UpdateById(ToggleEach(t, ids), PS.RecId, id, PS.FlipCompleted)
    decreases |ids|
  {
    if ids == [] {
      assert [] + [id] == [id];
    } else {
      assert (ids + [id])[1..] == ids[1..] + [id];
      ToggleEachAppend(UpdateById(t, PS.RecId, ids[0], PS.FlipCompleted), ids[1..], id);
    }
  }

  lemma {:induction false} PendingIdsSnoc(s: seq<Recommendation>, x: Recommendation)
    ensures PendingIds(s + [x]) == PendingIds(s) + (if !x.completed then [x.id] else [])
    decreases |s|
  {
    if s == [] {
      assert [] + [x] == [x];
      assert [x][1..] == [];
    } else {
      assert (s + [x])[0] == s[0];
      assert (s + [x])[1..] == s[1..] + [x];
      PendingIdsSnoc(s[1..], x);
    }
  }

  class RecommendationsComponent {
    var recommendations: seq<Recommendation>
    var filteredRecommendations: seq<Recommendation>
    var loading: bool
    var filterType: string
    var filterPriority: string
    var filterSource: string
    var stats: RecStats

    constructor ()
      ensures recommendations == [] && filteredRecommendations == [] && loading
      ensures filterType == AllFilter && filterPriority == AllFilter && filterSource == AllFilter
      ensures stats == RecStats(0, 0, 0, 0, 0, 0)
    {
      recommendations := [];
      filteredRecommendations := [];
      loading := true;
      filterType := AllFilter;
      filterPriority := AllFilter;
      filterSource := AllFilter;
      stats := RecStats(0, 0, 0, 0, 0, 0);
    }

    /** The page's derived state agrees with its list and its filters. */
    predicate Consistent()
      reads this
    {
      stats == CalculateStats(recommendations) &&
      filteredRecommendations == FilterRecommendations(recommendations, filterType, filterPriority, filterSource)
    }

    method ApplyFilters()
      modifies this`filteredRecommendations
      ensures filteredRecommendations == FilterRecommendations(recommendations, filterType, filterPriority, filterSource)
    {
      filteredRecommendations := FilterRecommendations(recommendations, filterType, filterPriority, filterSource);
    }

    /** `ngOnInit` once the current user is known: only a user with a truthy
        id has its recommendations loaded. */
    method NgOnInit(user: Option<SessionUser>, service: PS.PatientService)
      modifies this`loading, this`recommendations, this`stats, this`filteredRecommendations
      ensures user.Some? && user.value.id.Some? && user.value.id.value != 0 ==>
                !loading && Consistent() && Ordered(recommendations, CreatedDate, true) &&
                multiset(recommendations) == multiset(service.GetRecommendations(user.value.id.value))
      ensures !(user.Some? && user.value.id.Some? && user.value.id.value != 0) ==>
                recommendations == old(recommendations) && loading == old(loading) &&
                stats == old(stats) && filteredRecommendations == old(filteredRecommendations)
    {
      if user.Some? && user.value.id.Some? && user.value.id.value != 0 {
        LoadRecommendations(user.value.id.value, service);
      }
    }

    /** Loads the patient's recommendations newest first, then recomputes
        the counters and the filtered list. */
    method LoadRecommendations(pid: int, service: PS.PatientService)
      modifies this`loading, this`recommendations, this`stats, this`filteredRecommendations
      ensures Ordered(recommendations, CreatedDate, true)
      ensures multiset(recommendations) == multiset(service.GetRecommendations(pid))
      ensures !loading && Consistent()
    {
      var fetched := service.GetRecommendations(pid);
      loading := true;
      recommendations := SortedByKey(fetched, CreatedDate, true);
      stats := CalculateStats(recommendations);
      ApplyFilters();
      loading := false;
    }

    /** `resetFilters`: all filters back to `'all'`, which shows the whole list. */
    method ResetFilters()
      modifies this`filterType, this`filterPriority, this`filterSource, this`filteredRecommendations
      ensures filterType == AllFilter && filterPriority == AllFilter && filterSource == AllFilter
      ensures filteredRecommendations == recommendations
      ensures recommendations == old(recommendations) && stats == old(stats)
    {
      filterType := AllFilter;
      filterPriority := AllFilter;
      filterSource := AllFilter;
      ApplyFilters();
      AllFiltersKeepEverything(recommendations);
    }

    /** Toggles the recommendation at `index` in the service and copies the
        service's answer into the list; with no answer nothing changes here. */
    method ToggleRecommendationStatus(index: nat, service: PS.PatientService)
      requires index < |recommendations|
      modifies this`recommendations, this`stats, this`filteredRecommendations, service
      ensures service.medicalRecords == old(service.medicalRecords) && service.labResults == old(service.labResults)
      ensures service.prescriptions == old(service.prescriptions) && service.appointments == old(service.appointments)
      ensures service.recommendations ==
                UpdateById(old(service.recommendations), PS.RecId, old(recommendations)[index].id, PS.FlipCompleted)
      ensures IndexOfId(old(service.recommendations), PS.RecId, old(recommendations)[index].id) == -1 ==>
                recommendations == old(recommendations) && stats == old(stats) &&
                filteredRecommendations == old(filteredRecommendations)
      ensures IndexOfId(old(service.recommendations), PS.RecId, old(recommendations)[index].id) != -1 ==>
                recommendations == old(recommendations)[index := old(recommendations)[index].(completed :=
                  !old(service.recommendations)[IndexOfId(old(service.recommendations), PS.RecId, old(recommendations)[index].id)].completed)] &&
                Consistent()
    {
      var updated := service.ToggleRecommendationStatus(recommendations[index].id);
      if updated.Some? {
        recommendations := recommendations[index := recommendations[index].(completed := updated.value.completed)];
        stats := CalculateStats(recommendations);
        ApplyFilters();
      }
    }

    /** Toggles each pending recommendation in the service, in list order,
        and marks it completed on the page; the derived state is left as it
        was. */
    method CompleteEach(service: PS.PatientService)
      modifies this`recommendations, service
      ensures recommendations == AllCompleted(old(recommendations))
      ensures service.recommendations == ToggleEach(old(service.recommendations), PendingIds(old(recommendations)))
      ensures service.medicalRecords == old(service.medicalRecords) && service.labResults == old(service.labResults)
      ensures service.prescriptions == old(service.prescriptions) && service.appointments == old(service.appointments)
    {
      ghost var original := recommendations;
      ghost var table := service.recommendations;
      ghost var records, labs, prescribed, appointments :=
        service.medicalRecords, service.labResults, service.prescriptions, service.appointments;
      MarkedUpToEnds(original);
      var i := 0;
      while i < |recommendations|
        invariant 0 <= i <= |recommendations| == |original|
        invariant recommendations == MarkedUpTo(original, i)
        invariant service.recommendations == ToggleEach(table, PendingIds(original[..i]))
        invariant service.medicalRecords == records && service.labResults == labs
        invariant service.prescriptions == prescribed && service.appointments == appointments
      {
        CompleteStep(original, i);
        var r := recommendations[i];
        if !r.completed {
          ToggleEachAppend(table, PendingIds(original[..i]), r.id);
          var _ := service.ToggleRecommendationStatus(r.id);
          recommendations := recommendations[i := r.(completed := true)];
        }
        i := i + 1;
      }
      assert original[..i] == original;
    }

    /** `markAllAsCompleted` once confirmed and once every call has answered:
        each pending recommendation is toggled in the service and marked
        completed on the page. The counters and the filtered list are
        recomputed only if there was a pending one. */
    method MarkAllAsCompleted(confirmed: bool, service: PS.PatientService)
      modifies this`recommendations, this`stats, this`filteredRecommendations, service
      ensures !confirmed ==> recommendations == old(recommendations) &&
                             service.recommendations == old(service.recommendations)
      ensures confirmed ==> recommendations == AllCompleted(old(recommendations))
      ensures confirmed ==> (service.recommendations ==
                ToggleEach(old(service.recommendations), PendingIds(old(recommendations))))
      ensures confirmed && PendingIds(old(recommendations)) != [] ==> Consistent()
      ensures !confirmed || PendingIds(old(recommendations)) == [] ==>
                stats == old(stats) && filteredRecommendations == old(filteredRecommendations)
      ensures service.medicalRecords == old(service.medicalRecords) && service.labResults == old(service.labResults)
      ensures service.prescriptions == old(service.prescriptions) && service.appointments == old(service.appointments)
    {
      if !confirmed {
        return;
      }
      var pending := PendingIds(recommendations);
      CompleteEach(service);
      if pending != [] {
        stats := CalculateStats(recommendations);
        ApplyFilters();
      }
    }
  }

  /** The list once its first `i` entries have been marked completed. */
  function MarkedUpTo(s: seq<Recommendation>, i: nat): (r: seq<Recommendation>)
    requires i <= |s|
    ensures |r| == |s|
  {
    AllCompleted(s[..i]) + s[i..]
  }

  lemma MarkedUpToElements(s: seq<Recommendation>, i: nat)
    requires i <= |s|
    ensures forall k :: 0 <= k < i ==> MarkedUpTo(s, i)[k] == s[k].(completed := true)
    ensures forall k :: i <= k < |s| ==> MarkedUpTo(s, i)[k] == s[k]
  {
  }

  /** Nothing is marked at the start, everything at the end. */
  lemma MarkedUpToEnds(s: seq<Recommendation>)
    ensures MarkedUpTo(s, 0) == s
    ensures MarkedUpTo(s, |s|) == AllCompleted(s)
  {
    assert s[..|s|] == s;
  }

  /** One step of `CompleteEach`: marking the next entry extends the marked
      prefix, and the ids toggled so far grow by its id exactly when it was
      pending. */
  lemma CompleteStep(s: seq<Recommendation>, i: nat)
    requires i < |s|
    ensures !s[i].completed ==> MarkedUpTo(s, i)[i := s[i].(completed := true)] == MarkedUpTo(s, i + 1)
    ensures s[i].completed ==> MarkedUpTo(s, i) == MarkedUpTo(s, i + 1)
    ensures !s[i].completed ==> PendingIds(s[..i + 1]) == PendingIds(s[..i]) + [s[i].id]
    ensures s[i].completed ==> PendingIds(s[..i + 1]) == PendingIds(s[..i])
  {
    assert s[..i + 1] == s[..i] + [s[i]];
    PendingIdsSnoc(s[..i], s[i]);
    MarkedUpToElements(s, i);
    MarkedUpToElements(s, i + 1);
    if s[i].completed {
      assert s[i].(completed := true) == s[i];
    }
  }

  /** After everything is marked completed nothing is pending any more. */
  lemma {:induction false} NothingPendingAfterMarkAll(s: seq<Recommendation>)
    ensures CalculateStats(AllCompleted(s)).pending == 0
    ensures CalculateStats(AllCompleted(s)).completed == |s|
  {
    FilterNoneKept(AllCompleted(s), PS.IsPending);
  }
}
