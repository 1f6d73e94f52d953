# MedInsight portal core in Dafny

This project models the client-side logic of MedInsight, an Angular medical
portal. It has an administrator area, a doctor area and a patient area, and
every change in it is made in the browser against in-memory tables. The
project covers these parts:

- **Session store and gate.** `AuthService` keeps the session in a
  key-value store (`access_token`, `user_role`, `user_email`, `current_user`)
  next to an in-memory current user (`AuthSession`). The route guard admits a
  navigation, or redirects it to the login page with a `returnUrl` or to the
  role's home (`AuthGuard`). The static route table decides where every URL
  ends (`AppRoutes`). The login page maps a role to its dashboard and picks
  an error message (`Login`).
- **In-memory tables.** `PatientService` holds the patient's medical records,
  lab results, prescriptions, recommendations and appointments.
  `MockDataService` holds users, system settings and services (`MockData`).
  Both filter by patient, find, toggle, append with `id = length + 1`,
  merge-update and delete. Each update is stated as a function of the old
  table, and every other table is stated to be unchanged.
- **Pages.**
  - Recommendations: counters, filters, newest-first sort, mark-all
    (`Recommendations`).
  - Appointments: day-based filters, booking, cancelling (`Appointments`).
  - Medical information: sorts, prescription progress (`MedicalInfo`).
  - Patient dashboard: top-N slices (`PatientDashboard`).
  - Administrator dashboard: counters, toggle, delete (`AdminDashboard`).
  - User form (`UserForm`) and registration form (`Register`), which share
    the password-match checks in `Forms`.
  - System settings: category and search filter, counts, add, delete, reset
    (`SystemConfigPage`).
- **Shared modules.**
  - `Models`: the record types and string-tagged unions of the model files.
  - `Sequences`: filter, count, find, update-by-id, an in-place insertion
    sort on an array, and their lemmas.
  - `Text`: ASCII case mapping, substring search and blank text.

The stateful objects (the session service, the two data services and every
page component) are classes. Their fields are the object's own fields, their
methods say in `modifies` what they may change, and their `ensures` state the
whole new state. Pure logic is made of functions with named results.

A few modelling choices recur:
- Time is an integer number of milliseconds. A day is that number divided
  by 86 400 000. "now" and "today" are parameters.
- Back-end answers, dialog confirmations and the verdict of Angular's
  e-mail validator are inputs.
- Navigation is a returned path, and an alert is a returned message.
- `JSON.parse` and `JSON.stringify` are function parameters.
- The patient dashboard's `getPriorityClass` and `getPriorityText` reuse
  `Recommendations.GetPriorityClass` and `Recommendations.GetPriorityText`.
  Its `getStatusClass` is `MedicalInfo.GetLabStatusClass`. Those mappers are
  the same in the source.

The model follows the code where it differs from what the portal is
described as doing:
- `getUserRole` has two tiers, the in-memory user's role and then
  `user_role`, not three.
- A logged-in user with the wrong role goes to `/admin`, `/doctor` or
  `/patient`, not to a role dashboard.
- `loadCurrentUser` replaces the current user wholesale instead of merging.
- The live `login` never calls `storeAuthData`, so `storeAuthData` is
  modelled as an operation of its own.

## Model

| member | source | states |
|---|---|---|
| Models.ParseRole | src/app/core/models/user.model.ts:6 | a role tag names exactly one role, and no role answers to any other text |
| Models.ParseLabStatus | src/app/core/models/medical-record.model.ts:23 | a lab status tag names exactly one status, and no status answers to any other text |
| Models.ParsePrescriptionStatus | src/app/core/models/medical-record.model.ts:37 | a prescription status tag names exactly one status, and no status answers to any other text |
| Models.ParseRecommendationType | src/app/core/models/medical-record.model.ts:43 | a recommendation type tag names exactly one type, and no type answers to any other text |
| Models.ParsePriority | src/app/core/models/medical-record.model.ts:46 | a priority tag names exactly one priority, and no priority answers to any other text |
| Models.ParseAppointmentStatus | src/app/core/models/medical-record.model.ts:62 | an appointment status tag names exactly one status, and no status answers to any other text |
| Models.ParseConfigCategory | src/app/core/models/system-config.model.ts:6 | a setting category tag names exactly one category, and no category answers to any other text |
| Text.ToUpper | src/app/modules/patient/recommendations/recommendations.component.ts:91 | keeps the length, leaves no lower-case ASCII letter, turns each one into its capital and keeps every other character |
| Text.ToLower | src/app/modules/admin/system/system-config/system-config.component.ts:74 | keeps the length, leaves no upper-case ASCII letter, turns each one into its small letter and keeps every other character |
| Text.CaseMappingsAgree | src/app/modules/admin/system/system-config/system-config.component.ts:74 | two texts agree upper-cased exactly when they agree lower-cased, so either mapping compares regardless of case |
| AuthSession.HasToken | src/app/core/services/auth.service.ts:119-122 | logged in exactly when `access_token` is stored and is not the empty text |
| AuthSession.RoleOf | src/app/core/services/auth.service.ts:128-131 | the in-memory user's role whenever a user is set, even an absent role; otherwise the stored `user_role`, if there is one |
| AuthSession.Cleared | src/app/core/services/auth.service.ts:86-90 | none of the four session keys is left, and every other key keeps its value |
| AuthSession.Stored | src/app/core/services/auth.service.ts:145-157 | the four session keys are added and hold the token, the role, the e-mail and the serialized basic user; every other key keeps its value |
| AuthSession.Restored | src/app/core/services/auth.service.ts:163-172 | a missing, empty or unparsable `current_user` keeps the previous user; a parsable one replaces it |
| AuthSession.LogoutIdempotent | src/app/core/services/auth.service.ts:86-93 | a second logout leaves the store as the first did, and no token survives |
| AuthSession.RoleSurvivesReload | src/app/core/services/auth.service.ts:145-172 | after `storeAuthData` and a reload that parses `current_user` back, the role is the response's role; logged in exactly when the token is not empty |
| AuthSession.AuthService.constructor | src/app/core/services/auth.service.ts:40-45 | starts from the given store, and the user is restored from it |
| AuthSession.AuthService.Logout | src/app/core/services/auth.service.ts:86-93 | the store is cleared of the session keys, the user is null, nobody is logged in, no role is left, and the page goes to the login |
| AuthSession.AuthService.StoreAuthData | src/app/core/services/auth.service.ts:145-161 | the store gains the response's session keys, the user is its basic info, the role is the response's role, and logged in exactly when its token is not empty |
| AuthSession.AuthService.LoadStoredUser | src/app/core/services/auth.service.ts:163-172 | the user becomes what the stored `current_user` parses to, and is left as it was when that is missing or malformed |
| AuthSession.AuthService.LoadCurrentUser | src/app/core/services/auth.service.ts:174-185 | a failed fetch changes neither store nor user; a successful one replaces the user and overwrites `current_user` |
| AuthSession.RolePredicatesExclusive | src/app/core/services/auth.service.ts:133-143 | at most one of `isAdmin`, `isDoctor` and `isPatient` holds |
| AuthGuard.RoleHome | src/app/core/guards/auth.guard.ts:23-35 | ADMIN, DOCTOR and PATIENT go to `/admin`, `/doctor` and `/patient`; any other role, null included, goes to the login page |
| AuthGuard.CanActivate | src/app/core/guards/auth.guard.ts:15-46 | admits exactly when logged in and the route needs no role or the user has it; an admitted navigation is not redirected; no token goes to the login page with `returnUrl`; a wrong role goes to the role's home |
| AuthGuard.NoTokenAlwaysToLogin | src/app/core/guards/auth.guard.ts:42-45 | with no token the guard refuses and passes the target URL as `returnUrl`, whatever role is cached |
| AuthGuard.MismatchRedirectDependsOnlyOnRole | src/app/core/guards/auth.guard.ts:21-36 | a refusal of a logged-in user sends them to the same place whatever the route and URL, and never with a `returnUrl` |
| AppRoutes.PathOf | src/app/app.routes.ts:8-25 | the router matches a URL without its leading slash |
| AppRoutes.MatchIndex | src/app/app.routes.ts:8-25 | the first route that matches the path, or none at all |
| AppRoutes.Resolve | src/app/app.routes.ts:8-25 | every URL resolves to a route of the table: its own declared path when it has one, the wildcard otherwise |
| AppRoutes.OnlyDashboardsGuarded | src/app/app.routes.ts:12-23 | the only guarded routes are `admin/dashboard` for ADMIN and `doctor/dashboard` for DOCTOR |
| AppRoutes.LoginPageOpen | src/app/app.routes.ts:10 | `auth/login` shows the login page with no guard and no role |
| AppRoutes.RegisterPageOpen | src/app/app.routes.ts:11 | `auth/register` shows the registration page with no guard and no role |
| AppRoutes.UnmatchedGoesToLogin | src/app/app.routes.ts:24 | a path that is not declared redirects to the login page and ends there |
| AppRoutes.AdminHomeUndeclared | src/app/app.routes.ts:8-25 | no declared route matches `/admin` |
| AppRoutes.DoctorHomeUndeclared | src/app/app.routes.ts:8-25 | no declared route matches `/doctor` |
| AppRoutes.PatientHomeUndeclared | src/app/app.routes.ts:8-25 | no declared route matches `/patient` |
| AppRoutes.PatientDashboardUndeclared | src/app/app.routes.ts:8-25 | no declared route matches `/patient/dashboard` |
| AppRoutes.GuardRefusalEndsAtLogin | src/app/core/guards/auth.guard.ts:23-45 | every redirect the guard makes ends on the login page once routed |
| AppRoutes.LoginRedirectLanding | src/app/modules/auth/login/login.component.ts:90-108 | the ADMIN and DOCTOR login redirects land on their guarded dashboards; every other role lands on the login page |
| AppRoutes.LoginRedirectAdmitted | src/app/modules/auth/login/login.component.ts:90-108 | an ADMIN or DOCTOR sent to their dashboard after login is admitted by the guard on it |
| AppRoutes.LoginAfterLogoutReturnsToLogin | src/app/modules/auth/login/login.component.ts:104-106 | with no role left, the login redirect goes to `/` and ends on the login page |
| Login.RedirectBasedOnRole | src/app/modules/auth/login/login.component.ts:90-108 | ADMIN, DOCTOR and PATIENT go to their dashboards; any other role, null included, goes to `/` |
| Login.LoginErrorMessage | src/app/modules/auth/login/login.component.ts:71-77 | status 0 gives the unreachable-server message even when the server sent one; otherwise the server's message if present, else the bad-credentials message |
| Login.ReturnUrl | src/app/modules/auth/login/login.component.ts:34 | the `returnUrl` parameter if it is set and not empty, `/` otherwise |
| Login.LoginComponent.constructor | src/app/modules/auth/login/login.component.ts:15-31 | not loading, not submitted |
| Login.LoginComponent.NgOnInit | src/app/modules/auth/login/login.component.ts:33-43 | remembers the return URL; a logged-in user is sent on to their dashboard |
| Login.LoginComponent.OnSubmit | src/app/modules/auth/login/login.component.ts:47-88 | an invalid form makes no login call; a failure shows the message `LoginErrorMessage` picks |
| PatientService.OrNumber | src/app/core/services/patient.service.ts:226-234 | `value \|\| default` for a number: the value unless it is absent or zero |
| PatientService.OrString | src/app/core/services/patient.service.ts:226-234 | `value \|\| default` for a text: the value unless it is absent or empty |
| PatientService.PatientService.GetMedicalRecords | src/app/core/services/patient.service.ts:186-188 | exactly the patient's records, in table order and with their multiplicity |
| PatientService.PatientService.GetMedicalRecordById | src/app/core/services/patient.service.ts:190-192 | none exactly when no record has the id, otherwise the first one that has it |
| PatientService.PatientService.GetLabResults | src/app/core/services/patient.service.ts:195-197 | exactly the patient's lab results, in table order and with their multiplicity |
| PatientService.PatientService.GetPrescriptions | src/app/core/services/patient.service.ts:200-202 | exactly the patient's prescriptions, in table order and with their multiplicity |
| PatientService.PatientService.GetRecommendations | src/app/core/services/patient.service.ts:205-207 | exactly the patient's recommendations, in table order and with their multiplicity |
| PatientService.PatientService.GetAppointments | src/app/core/services/patient.service.ts:219-221 | exactly the patient's appointments, in table order and with their multiplicity |
| PatientService.PatientService.ToggleRecommendationStatus | src/app/core/services/patient.service.ts:209-216 | the first recommendation with the id has `completed` flipped and is returned; a missing id returns null; nothing else changes |
| PatientService.PatientService.ScheduleAppointment | src/app/core/services/patient.service.ts:223-239 | one appointment is appended with id old length + 1 and status SCHEDULED whatever was asked; falsy fields take their defaults; nothing else changes |
| PatientService.PatientService.CancelAppointment | src/app/core/services/patient.service.ts:241-248 | the first appointment with the id becomes CANCELLED and true is returned; a missing id returns false; nothing else changes |
| PatientService.PatientService.GetPatientStats | src/app/core/services/patient.service.ts:251-268 | the patient's records, pending recommendations, SCHEDULED or CONFIRMED appointments, non-normal lab results (abnormal plus critical) and active prescriptions |
| PatientService.PatientService.PatientStatsBounded | src/app/core/services/patient.service.ts:251-268 | each counter is at most the number of the patient's rows of its kind |
| PatientService.ToggleTwiceRestores | src/app/core/services/patient.service.ts:212 | toggling the same id twice restores the table |
| PatientService.CancelTwiceSameAsOnce | src/app/core/services/patient.service.ts:241-248 | a second cancel of the same id changes nothing further |
| PatientService.ScheduleKeepsIdsSequential | src/app/core/services/patient.service.ts:225 | ids 1..n stay 1..n+1 after a booking and stay as they are after a cancel |
| MockData.NewUser | src/app/core/services/mock-data.service.ts:167-181 | the form's fields, the given id and creation time, enabled and never logged in |
| MockData.Merge | src/app/core/services/mock-data.service.ts:184-193 | every field the patch supplies replaces the user's, every other field is kept, and the id, status and dates never change |
| MockData.FlipEnabled | src/app/core/services/mock-data.service.ts:205-211 | only `enabled` changes, and it is flipped |
| MockData.NextServiceStatus | src/app/core/services/mock-data.service.ts:240-247 | ACTIVE goes to INACTIVE and both other statuses go to ACTIVE, so the status always changes |
| MockData.MockDataService.constructor | src/app/core/services/mock-data.service.ts:13-156 | the seed users and services, and the four seed settings |
| MockData.MockDataService.GetUserById | src/app/core/services/mock-data.service.ts:162-165 | none exactly when no user has the id, otherwise the first one that has it |
| MockData.MockDataService.CreateUser | src/app/core/services/mock-data.service.ts:167-182 | one new user with id old length + 1 is appended and returned; the other tables do not change |
| MockData.MockDataService.UpdateUser | src/app/core/services/mock-data.service.ts:184-194 | the first user with the id is merged with the patch and returned; a missing id returns null with no change |
| MockData.MockDataService.DeleteUser | src/app/core/services/mock-data.service.ts:196-203 | the first user with the id is removed and true is returned; a missing id returns false with no change |
| MockData.MockDataService.ToggleUserStatus | src/app/core/services/mock-data.service.ts:205-212 | the first user with the id has `enabled` flipped and is returned; a missing id returns null with no change |
| MockData.MockDataService.UpdateConfig | src/app/core/services/mock-data.service.ts:220-232 | the first setting with the id takes the value and is returned; a missing id returns null with no change |
| MockData.MockDataService.ToggleServiceStatus | src/app/core/services/mock-data.service.ts:240-248 | the first service with the id moves to its next status and is returned; a missing id returns null with no change |
| MockData.MockDataService.GetStatistics | src/app/core/services/mock-data.service.ts:251-260 | the number of users, of enabled users, of doctors, of patients and of ACTIVE services, each the number of positions that qualify; doctors and patients together within the total; health GOOD |
| MockData.MergeLaws | src/app/core/services/mock-data.service.ts:184-193 | an empty patch changes nothing, and applying a patch twice is applying it once |
| MockData.UpdateUserFrame | src/app/core/services/mock-data.service.ts:187-190 | an update touches the first user with the id and no other |
| MockData.ToggleUserTwiceRestores | src/app/core/services/mock-data.service.ts:205-211 | toggling the same user twice restores the table |
| MockData.DeleteUserKeepsOthers | src/app/core/services/mock-data.service.ts:196-202 | a delete keeps every other user, in order |
| MockData.CreateAfterDeleteCanReuseId | src/app/core/services/mock-data.service.ts:169 | after a delete, a new user can receive an id that is still in use |
| MockData.ServiceToggleTwice | src/app/core/services/mock-data.service.ts:240-247 | toggling a service twice restores it, except from MAINTENANCE, which ends INACTIVE |
| MockData.UpdateConfigFrame | src/app/core/services/mock-data.service.ts:220-232 | an update sets the value of the first setting with the id and touches no other |
| Recommendations.CalculateStats | src/app/modules/patient/recommendations/recommendations.component.ts:70-79 | the total, the pending and completed counts that add up to it, and the number of urgent pending, AI and doctor recommendations, each the number of positions that qualify |
| Recommendations.Stage | src/app/modules/patient/recommendations/recommendations.component.ts:84-100 | a filter step that is switched on keeps exactly the passing entries in order, one that is off keeps them all |
| Recommendations.FilterRecommendations | src/app/modules/patient/recommendations/recommendations.component.ts:81-104 | exactly the entries that pass the status, priority and source filters, in list order; priority and source compare with the upper-cased filter |
| Recommendations.AllFiltersKeepEverything | src/app/modules/patient/recommendations/recommendations.component.ts:82 | with every filter on `'all'` the filtered list is the whole list |
| Recommendations.DueDateClass | src/app/modules/patient/recommendations/recommendations.component.ts:215-221 | overdue is danger, 0 to 3 days warning, 4 to 7 info, later muted |
| Recommendations.GetPriorityClass | src/app/modules/patient/recommendations/recommendations.component.ts:163-171 | the badge of a known priority; the default class exactly for any other text |
| Recommendations.PriorityClassesDistinct | src/app/modules/patient/recommendations/recommendations.component.ts:163-171 | two known priorities get the same class only when they are the same priority |
| Recommendations.GetPriorityText | src/app/modules/patient/recommendations/recommendations.component.ts:173-181 | the label of a known priority; other text is shown as it is |
| Recommendations.GetTypeText | src/app/modules/patient/recommendations/recommendations.component.ts:183-192 | the label of a known type; other text is shown as it is |
| Recommendations.GetTypeIcon | src/app/modules/patient/recommendations/recommendations.component.ts:194-203 | the icon of a known type; the default icon exactly for any other text |
| Recommendations.AllCompleted | src/app/modules/patient/recommendations/recommendations.component.ts:143-150 | every recommendation is marked completed, and nothing else changes |
| Recommendations.PendingIds | src/app/modules/patient/recommendations/recommendations.component.ts:143-146 | exactly the ids of the pending recommendations, one per pending entry, in list order |
| Recommendations.ToggleEachAppend | src/app/modules/patient/recommendations/recommendations.component.ts:143-150 | toggling a list of ids one after another is toggling the last after the others |
| Recommendations.PendingIdsSnoc | src/app/modules/patient/recommendations/recommendations.component.ts:143-146 | a pending recommendation added at the end adds its id at the end |
| Recommendations.RecommendationsComponent.constructor | src/app/modules/patient/recommendations/recommendations.component.ts:19-36 | empty lists, loading, every filter on `'all'`, zero counters |
| Recommendations.RecommendationsComponent.ApplyFilters | src/app/modules/patient/recommendations/recommendations.component.ts:81-104 | the filtered list is the list under the current filters |
| Recommendations.RecommendationsComponent.NgOnInit | src/app/modules/patient/recommendations/recommendations.component.ts:43-50 | only a user with a truthy id loads, and then the page is consistent |
| Recommendations.RecommendationsComponent.LoadRecommendations | src/app/modules/patient/recommendations/recommendations.component.ts:52-68 | the patient's recommendations, newest first and as a permutation, with counters and filtered list recomputed |
| Recommendations.RecommendationsComponent.ResetFilters | src/app/modules/patient/recommendations/recommendations.component.ts:110-115 | every filter back to `'all'`, so the whole list shows |
| Recommendations.RecommendationsComponent.ToggleRecommendationStatus | src/app/modules/patient/recommendations/recommendations.component.ts:117-131 | the service toggles the id and keeps its other tables; when it answers, the page copies the new status and stays consistent; the filters and `loading` are untouched |
| Recommendations.RecommendationsComponent.CompleteEach | src/app/modules/patient/recommendations/recommendations.component.ts:143-150 | every pending id is toggled in the service in list order, every entry on the page is completed, and the service's other tables are untouched |
| Recommendations.RecommendationsComponent.MarkAllAsCompleted | src/app/modules/patient/recommendations/recommendations.component.ts:133-161 | once confirmed and every call has answered, every recommendation is completed; counters and filtered list are recomputed only when one was pending and otherwise kept; a refusal changes nothing; the service's other tables are untouched |
| Recommendations.MarkedUpTo | src/app/modules/patient/recommendations/recommendations.component.ts:143-150 | the list after its first i entries are completed |
| Recommendations.MarkedUpToElements | src/app/modules/patient/recommendations/recommendations.component.ts:143-150 | the first i entries are completed and the rest unchanged |
| Recommendations.MarkedUpToEnds | src/app/modules/patient/recommendations/recommendations.component.ts:143-150 | marking none is the list, marking all is every entry completed |
| Recommendations.CompleteStep | src/app/modules/patient/recommendations/recommendations.component.ts:143-150 | marking one more entry completes it if pending and records its id |
| Recommendations.NothingPendingAfterMarkAll | src/app/modules/patient/recommendations/recommendations.component.ts:133-161 | after mark-all no recommendation is pending and all are completed |
| Appointments.FilterAppointments | src/app/modules/patient/appointments/appointments.component.ts:71-95 | upcoming is SCHEDULED or CONFIRMED on today or later, past is COMPLETED or before today, cancelled is CANCELLED, any other value keeps all; always in list order |
| Appointments.UpcomingPastDisjoint | src/app/modules/patient/appointments/appointments.component.ts:77-89 | no appointment is both upcoming and past |
| Appointments.CancelledShownOnlyAsCancelled | src/app/modules/patient/appointments/appointments.component.ts:188-192 | a cancelled appointment shows under `'cancelled'` and never under `'upcoming'` |
| Appointments.GetStatusClass | src/app/modules/patient/appointments/appointments.component.ts:101-110 | the badge of a known status; the default class exactly for any other text |
| Appointments.GetStatusText | src/app/modules/patient/appointments/appointments.component.ts:112-121 | the label of a known status; other text is shown as it is |
| Appointments.BlankForm | src/app/modules/patient/appointments/appointments.component.ts:165-174 | the reset form holds the current date, 09:00 and an empty reason |
| Appointments.DraftOf | src/app/modules/patient/appointments/appointments.component.ts:139-149 | the request carries every field of the form (doctor id and name, date, time, reason, location), the patient's id, status SCHEDULED, 30 minutes and no notes |
| Appointments.AppointmentsComponent.constructor | src/app/modules/patient/appointments/appointments.component.ts:19-42 | empty lists, loading, the `'upcoming'` filter, a blank form that is closed |
| Appointments.AppointmentsComponent.ApplyFilters | src/app/modules/patient/appointments/appointments.component.ts:71-95 | the filtered list is the list under the current filter on today's day |
| Appointments.AppointmentsComponent.NgOnInit | src/app/modules/patient/appointments/appointments.component.ts:43-50 | only a user with a truthy id loads |
| Appointments.AppointmentsComponent.LoadAppointments | src/app/modules/patient/appointments/appointments.component.ts:52-69 | the patient's appointments, earliest first and as a permutation, then filtered |
| Appointments.AppointmentsComponent.ToggleNewForm | src/app/modules/patient/appointments/appointments.component.ts:123-131 | the form opens or closes; opening it proposes the next day |
| Appointments.AppointmentsComponent.ScheduleAppointment | src/app/modules/patient/appointments/appointments.component.ts:133-163 | a missing time or blank reason is refused with no call and no change; otherwise the booked appointment is appended here and in the service with the next id, the user's id (or the default), the form's doctor, date, time, reason and location, 30 minutes and SCHEDULED; the form closes and resets; the service's other tables are untouched |
| Appointments.AppointmentsComponent.CancelAppointment | src/app/modules/patient/appointments/appointments.component.ts:176-202 | once confirmed the service cancels the id; on success the page marks it CANCELLED and filters again, otherwise the page is unchanged; the service's other tables are untouched |
| MedicalInfo.PrescriptionProgress | src/app/modules/patient/medical-info/medical-info.component.ts:105-116 | between 0 and 100; 100 once the end is reached (tested first), 0 before the start, the rounded share of elapsed time in between |
| MedicalInfo.ProgressMonotone | src/app/modules/patient/medical-info/medical-info.component.ts:110-115 | progress never falls as time advances |
| MedicalInfo.GetStatusClass | src/app/modules/patient/medical-info/medical-info.component.ts:68-75 | the badge of a known prescription status; the default class exactly for any other text |
| MedicalInfo.GetStatusText | src/app/modules/patient/medical-info/medical-info.component.ts:77-84 | the label of a known prescription status; other text is shown as it is |
| MedicalInfo.GetLabStatusClass | src/app/modules/patient/medical-info/medical-info.component.ts:86-93 | the badge of a known lab status; the default class exactly for any other text |
| MedicalInfo.GetLabStatusText | src/app/modules/patient/medical-info/medical-info.component.ts:95-102 | the label of a known lab status; other text is shown as it is |
| MedicalInfo.StatusTextDiffersFromName | src/app/modules/patient/medical-info/medical-info.component.ts:77-84 | every known prescription status is shown by its label, never by its tag |
| MedicalInfo.MedicalInfoComponent.constructor | src/app/modules/patient/medical-info/medical-info.component.ts:18-27 | empty lists, loading, the records tab |
| MedicalInfo.MedicalInfoComponent.NgOnInit | src/app/modules/patient/medical-info/medical-info.component.ts:29-36 | a user with a truthy id gets the three lists, each newest first and a permutation of the patient's rows; any other user changes nothing; the tab is kept |
| MedicalInfo.MedicalInfoComponent.LoadMedicalData | src/app/modules/patient/medical-info/medical-info.component.ts:38-62 | records, lab results and prescriptions of the patient, each newest first and as a permutation |
| MedicalInfo.MedicalInfoComponent.SetActiveTab | src/app/modules/patient/medical-info/medical-info.component.ts:64-66 | the tab shown is the one chosen |
| MedicalInfo.SortedHeadIsNewest | src/app/modules/patient/medical-info/medical-info.component.ts:42-56 | the first row of a newest-first list is at least as recent as every row |
| Sequences.SortByKey | src/app/modules/patient/medical-info/medical-info.component.ts:42-56 | the array sorted in place by the key, in either direction, as a permutation of what it held |
| Sequences.SortedByKey | src/app/modules/patient/recommendations/recommendations.component.ts:56-58 | a sorted copy of the list that is a permutation of it |
| PatientDashboard.NextAppointments | src/app/modules/patient/dashboard/patient-dashboard.component.ts:55-60 | the first two SCHEDULED or CONFIRMED appointments at `now` or later, in list order, as many as there are up to two |
| PatientDashboard.FirstShownIsFirstUpcoming | src/app/modules/patient/dashboard/patient-dashboard.component.ts:55-60 | the first appointment shown is the first upcoming one of the list |
| PatientDashboard.PatientDashboardComponent.constructor | src/app/modules/patient/dashboard/patient-dashboard.component.ts:18-29 | nothing loaded yet, loading |
| PatientDashboard.PatientDashboardComponent.LoadPatientData | src/app/modules/patient/dashboard/patient-dashboard.component.ts:40-73 | the patient's counters, the first three recommendations unsorted, the next two appointments and the two most recent lab results newest first |
| PatientDashboard.PatientDashboardComponent.NgOnInit | src/app/modules/patient/dashboard/patient-dashboard.component.ts:31-38 | a user with a truthy id gets the stats, the first recommendations, the next appointments and the newest lab results; any other user changes nothing |
| PatientDashboard.PatientDashboardComponent.ToggleRecommendationStatus | src/app/modules/patient/dashboard/patient-dashboard.component.ts:75-87 | the service toggles the id and keeps its other tables; when it answers, the card takes the new status and no other card changes |
| PatientDashboard.PatientDashboardComponent.Logout | src/app/modules/patient/dashboard/patient-dashboard.component.ts:132-135 | the session is cleared and the page goes to the login |
| PatientDashboard.RecentLabResults | src/app/modules/patient/dashboard/patient-dashboard.component.ts:65-67 | two lab results or all if fewer, newest first, drawn from the list, none left out more recent than one kept |
| PatientDashboard.TopLabsAreNewest | src/app/modules/patient/dashboard/patient-dashboard.component.ts:65-67 | the head of a newest-first sort holds the most recent results |
| PatientDashboard.ViewDetails | src/app/modules/patient/dashboard/patient-dashboard.component.ts:89-101 | the three known cards open their page; no other value navigates |
| AdminDashboard.FlipEnabled | src/app/modules/admin/dashboard/admin-dashboard.component.ts:73-75 | only `enabled` changes, and it is flipped |
| AdminDashboard.ActiveUsers | src/app/modules/admin/dashboard/admin-dashboard.component.ts:51-53 | the number of enabled users; all of them exactly when all are enabled, none exactly when none is |
| AdminDashboard.RoleCount | src/app/modules/admin/dashboard/admin-dashboard.component.ts:55-61 | `getDoctorsCount` and `getPatientsCount`: the number of users with the role, at most the number of users, and zero exactly when nobody has it |
| Sequences.CountIsIndexCount | src/app/modules/admin/dashboard/admin-dashboard.component.ts:51-61 | the length of `filter(p)` is the number of positions whose element satisfies `p` |
| AdminDashboard.DoctorsAndPatientsFit | src/app/modules/admin/dashboard/admin-dashboard.component.ts:55-61 | doctors and patients together are at most the number of users |
| AdminDashboard.ToggleMovesActiveByOne | src/app/modules/admin/dashboard/admin-dashboard.component.ts:73-75 | a toggle moves the active counter by exactly one and leaves the role counters |
| AdminDashboard.DeleteKeepsOthers | src/app/modules/admin/dashboard/admin-dashboard.component.ts:97-99 | a delete keeps exactly the users with another id, and no counter grows |
| AdminDashboard.GetRoleDisplayName | src/app/modules/admin/dashboard/admin-dashboard.component.ts:110-117 | the French name of the three roles; any other text is shown as it is, and only such text is |
| AdminDashboard.AdminDashboardComponent.constructor | src/app/modules/admin/dashboard/admin-dashboard.component.ts:17-23 | no users, loading, no current user |
| AdminDashboard.AdminDashboardComponent.LoadUsers | src/app/modules/admin/dashboard/admin-dashboard.component.ts:32-43 | the fetched list on success; the old list and an alert on failure; loading ends either way |
| AdminDashboard.AdminDashboardComponent.NgOnInit | src/app/modules/admin/dashboard/admin-dashboard.component.ts:25-30 | the users are loaded and the session's user is copied |
| AdminDashboard.AdminDashboardComponent.Logout | src/app/modules/admin/dashboard/admin-dashboard.component.ts:46-49 | the session is cleared and the page goes to the login |
| AdminDashboard.AdminDashboardComponent.ToggleUserStatus | src/app/modules/admin/dashboard/admin-dashboard.component.ts:63-84 | a confirmed toggle that succeeds flips that user only; a failure or a refusal leaves the list |
| AdminDashboard.AdminDashboardComponent.DeleteUser | src/app/modules/admin/dashboard/admin-dashboard.component.ts:86-108 | a confirmed delete that succeeds removes every user with that id and keeps the rest in order; a failure or a refusal leaves the list |
| Forms.GuardAsWritten | src/app/modules/auth/register/register.component.ts:56-64 | the submit checks as written: the service is reached exactly when valid and matching, and the mismatch alert is never shown |
| Forms.MismatchAlertUnreachable | src/app/modules/auth/register/register.component.ts:56-64 | a valid form whose passwords differ is stopped by the invalid-form test, not by the mismatch test |
| Forms.Guard | src/app/modules/admin/users/user-form/user-form.component.ts:114-123 | the corrected order: a mismatch gets its alert, an otherwise invalid form is blocked, and only a valid matching form proceeds |
| Forms.GuardsAgreeOnProceed | src/app/modules/admin/users/user-form/user-form.component.ts:114-123 | the corrected checks let through exactly the forms the written ones do |
| Register.PasswordMatchValidator | src/app/modules/auth/register/register.component.ts:45-49 | no error exactly when the passwords are equal, and the mismatch is its only error |
| Register.SubmitCheck | src/app/modules/auth/register/register.component.ts:56-64 | proceeds exactly when valid and matching; blocked otherwise, silently, since the mismatch alert is never reached |
| Register.RegisterErrorMessage | src/app/modules/auth/register/register.component.ts:91-101 | a 400 with a body gives its message or the default, a 409 the e-mail message, everything else the default |
| Register.ErrorMessageCases | src/app/modules/auth/register/register.component.ts:91-101 | a 400 without a body reads like any other failure, and the e-mail message means a 409 or a server that said so |
| Register.RegisterComponent.constructor | src/app/modules/auth/register/register.component.ts:30-40 | the blank form with role PATIENT, not loading, not submitted |
| Register.RegisterComponent.OnSubmit | src/app/modules/auth/register/register.component.ts:53-104 | `register` is called exactly when valid and matching, with the form minus the confirmation; without a call there is no alert and no navigation; success goes to the login page, a failure shows the chosen message |
| UserForm.PasswordMatchValidator | src/app/modules/admin/users/user-form/user-form.component.ts:63-74 | `mismatch` exactly when the passwords differ, set on the confirmation too, which loses its other errors |
| UserForm.OrEmpty | src/app/modules/admin/users/user-form/user-form.component.ts:87-88 | `value \|\| ''`: the text unless it is absent or empty |
| UserForm.OrUndefined | src/app/modules/admin/users/user-form/user-form.component.ts:127-135 | `value \|\| undefined`: an empty text becomes absent, any other is kept |
| UserForm.FormDataOf | src/app/modules/admin/users/user-form/user-form.component.ts:127-135 | the form's fields, with an empty phone or address left undefined |
| UserForm.UntouchedEditKeepsUser | src/app/modules/admin/users/user-form/user-form.component.ts:76-135 | loading a user and submitting it unchanged keeps the user, except that an empty phone or address comes back undefined |
| UserForm.SubmitCall | src/app/modules/admin/users/user-form/user-form.component.ts:110-178 | no call unless the form passes; an update exactly in edit mode with a truthy id, so id 0 creates; a creation otherwise |
| UserForm.MismatchMakesNoCall | src/app/modules/admin/users/user-form/user-form.component.ts:114-123 | a form whose passwords differ makes no call in either mode |
| UserForm.GetTitle | src/app/modules/admin/users/user-form/user-form.component.ts:184-186 | the title depends only on the edit mode, one text for each |
| UserForm.GetButtonText | src/app/modules/admin/users/user-form/user-form.component.ts:188-190 | the button text depends only on the edit mode, one text for each |
| UserForm.UserFormComponent.constructor | src/app/modules/admin/users/user-form/user-form.component.ts:29-36 | the blank form with the password validators installed, create mode |
| UserForm.UserFormComponent.LoadUserData | src/app/modules/admin/users/user-form/user-form.component.ts:76-104 | a user found fills the form and frees the password from its validators; a missing user leaves the form |
| UserForm.UserFormComponent.NgOnInit | src/app/modules/admin/users/user-form/user-form.component.ts:38-47 | an `id` parameter switches to edit mode and loads that user |
| UserForm.UserFormComponent.OnSubmit | src/app/modules/admin/users/user-form/user-form.component.ts:110-178 | the store changes by exactly the call `SubmitCall` names; any invalid form, differing passwords included, shows the form-error alert; success alerts and goes back to the dashboard |
| UserForm.UserFormComponent.OnCancel | src/app/modules/admin/users/user-form/user-form.component.ts:180-182 | back to the administrator dashboard |
| SystemConfigPage.GetCategoryName | src/app/modules/admin/system/system-config/system-config.component.ts:253-256 | the table's name for a known id, the id itself otherwise |
| SystemConfigPage.GetCategoryIcon | src/app/modules/admin/system/system-config/system-config.component.ts:241-244 | the table's icon for a known id, `fas fa-cog` otherwise |
| SystemConfigPage.GetCategoryColor | src/app/modules/admin/system/system-config/system-config.component.ts:247-250 | the table's badge colour for a known id, `badge bg-secondary` otherwise |
| SystemConfigPage.EveryCategoryListed | src/app/modules/admin/system/system-config/system-config.component.ts:26-33 | every setting category has its entry in the table after `ALL` |
| SystemConfigPage.TableListsOnlyCategories | src/app/modules/admin/system/system-config/system-config.component.ts:26-33 | the first row, `ALL`, names no category and every other row names one |
| SystemConfigPage.FilteredConfigs | src/app/modules/admin/system/system-config/system-config.component.ts:70-78 | exactly the settings of the chosen category (or all) whose key or description holds the lower-cased search term, in list order |
| SystemConfigPage.NoFilterShowsAll | src/app/modules/admin/system/system-config/system-config.component.ts:72-73 | category `ALL` and an empty search show every setting |
| SystemConfigPage.GetConfigCount | src/app/modules/admin/system/system-config/system-config.component.ts:81-84 | `ALL` counts every setting, a category its own, never more than the list |
| SystemConfigPage.CategoryCountsSum | src/app/modules/admin/system/system-config/system-config.component.ts:81-84 | the five category counts add up to the number of settings |
| SystemConfigPage.DefaultValue | src/app/modules/admin/system/system-config/system-config.component.ts:122-129 | the built-in value of the four known keys, `""` for any other |
| SystemConfigPage.ResetRestoresSeed | src/app/modules/admin/system/system-config/system-config.component.ts:122-129 | resetting a seed setting gives it back its seed value |
| SystemConfigPage.SystemConfigComponent.constructor | src/app/modules/admin/system/system-config/system-config.component.ts:18-49 | no settings, loading, not saving, no search, category `ALL`, new-entry form closed |
| SystemConfigPage.SystemConfigComponent.Shown | src/app/modules/admin/system/system-config/system-config.component.ts:70-78 | what the page shows passes its category and search |
| SystemConfigPage.SystemConfigComponent.LoadConfigurations | src/app/modules/admin/system/system-config/system-config.component.ts:55-67 | the store's settings, and loading ends |
| SystemConfigPage.SystemConfigComponent.SaveConfig | src/app/modules/admin/system/system-config/system-config.component.ts:87-108 | the entry's value is written to the store, saved exactly when the id exists, the store's users and services are untouched, and saving ends |
| SystemConfigPage.SystemConfigComponent.ResetConfig | src/app/modules/admin/system/system-config/system-config.component.ts:111-133 | once confirmed the entry takes its key's default on the page and in the store, and saving ends; a refusal changes nothing; the store's users and services and the page's filters are untouched |
| SystemConfigPage.SystemConfigComponent.AddNewConfig | src/app/modules/admin/system/system-config/system-config.component.ts:136-168 | an invalid form is refused with a message; otherwise one editable entry with id old length + 1 is appended and the form closes |
| SystemConfigPage.SystemConfigComponent.DeleteConfig | src/app/modules/admin/system/system-config/system-config.component.ts:171-191 | a locked entry is refused with a message; a confirmed delete drops every entry with its id |
| SystemConfigPage.DeleteKeepsOthers | src/app/modules/admin/system/system-config/system-config.component.ts:187 | a delete keeps exactly the entries with another id, in order |
| SystemConfigPage.SeedModelPathLocked | src/app/core/services/mock-data.service.ts:78-112 | the seed list holds one locked entry, `ai.model.path` |

## Left out

- HTTP calls, RxJS observables and subscriptions, `setTimeout` delays, SweetAlert dialogs and toasts, and the Angular router. Every call's answer, every dialog's confirmation and every timer's end is an input or a final state, and navigation is a returned path.
- The back end's `login`, `register`, `getCurrentUser`, `getUsers`, `updateUser`, `deleteUser`, `toggleUserStatus` and `getStreamlitAccessLink`. Only their answers appear, as inputs. The Streamlit service and the doctor dashboard's `openStreamlit` are not part of this model.
- `JSON.parse` and `JSON.stringify` are parameters of the operations that use them, and a failed parse is the `Malformed` outcome.
- Angular's `Validators.email` is the `emailOk` input. The other validators on the account forms (`required`, `minLength`) are modelled; the login and new-setting forms' validity is the `formValid` input. The new-setting form declares no validators, so its `formValid` is always true and `AddNewConfig`'s refusal branch is unreachable in the source.
- `Text.ToUpper`: upper-casing, lower-casing and blank tests cover ASCII letters and ASCII whitespace only, not Unicode case mapping.
- `Appointments.Day`: a day is the timestamp floored to UTC days, not to the browser's local time zone, and locale formatting (`toLocaleDateString`, `toISOString`, `formatDate`, `getDateForInput`, `onDateChange`) is not modelled.
- `Recommendations.DueDateClass`: it takes the whole number of days remaining. The `Math.ceil` of milliseconds to days in `getDaysRemaining` is not modelled.
- `MedicalInfo.PrescriptionProgress`: `Math.round` of a floating-point share is exact round-half-up on integers, so floating-point edge cases are not modelled.
- `Sequences.SortByKey`: it is an insertion sort, which is stable. `Array.prototype.sort` is stable as well, but the model states only order and permutation.
- Aliasing between the services' arrays and the pages' arrays is not modelled. The pages keep their own copies, so a toggle on the patient dashboard or the recommendations page copies the service's answer instead of sharing the object. The administrator dashboard's toggle is modelled by the index of the user shown.
- `onFilterChange` on the pages only calls `applyFilters`, which is modelled.
- `exportMedicalHistory`, `downloadAttachment`, `exportConfigs` and `importConfigs` are browser file APIs and are not modelled.
- The error branches of the patient pages' loads are not modelled, because the services they call never fail.
- `Appointments.AppointmentsComponent.ScheduleAppointment`: it takes the signed-in user as given. The source reads `this.currentUser.id` with no null check, so with no signed-in user it throws before any call; that failure is not modelled.
- `Appointments.FormComplete`: the form's `date` control always holds a date object, so its emptiness test never fails and is left out.
- `SystemConfigPage.SystemConfigComponent.AddNewConfig`: the form reset after adding leaves `key`, `value` and `description` null; the model does not track the new-entry form's values after the reset.
- `SystemConfigPage.SystemConfigComponent.SaveConfig`: the success toast and its text are not modelled.
- `SystemConfigPage.DefaultValue`: the source looks the key up in an object literal, so a key such as `toString` or `constructor` (which `addNewConfig` accepts) finds a member inherited from `Object.prototype`, a truthy function that is then stored as the value. The model gives `""` for every key other than the four listed.
- `UserForm.UserFormComponent.NgOnInit`: the route's `id` parameter is taken as already converted to a number. A non-numeric parameter, which `+params['id']` turns into NaN, is not modelled.
- `UserForm.PatchOf`: the password typed in the edit form is spread into the stored user, which then carries a `password` key. The model's user record has no password field, so `Merge` ignores it.
- The login page's `returnUrl` is remembered but never used after a login. The page does not store the session itself; the service's `login` is an HTTP call.
- `src/app/app.ts` and `src/app/app.config.ts` are bootstrap and dependency-injection configuration only.

## Findings

The registration page and the user form are modelled on the checks as
written (`Forms.GuardAsWritten`), so their contracts promise what the
source does: the password alert never appears, and differing passwords
end like any other invalid form.
`Forms.Guard` is the corrected order, and `Forms.GuardsAgreeOnProceed`
shows that adopting it would change only which alert appears, never which
forms reach the service.

| source | as written | input that shows it | evidently intended | confidence | as-written member | corrected member |
|---|---|---|---|---|---|---|
| src/app/modules/auth/register/register.component.ts:56-64 | `onSubmit` tests `registerForm.invalid` before `hasError('mismatch')`. The group validator's `mismatch` error already makes the form invalid, so the password alert can never be shown (the same order is in src/app/modules/admin/users/user-form/user-form.component.ts:114-123) | every control valid, password `secret1`, confirmation `secret2` | a mismatch shows "Les mots de passe ne correspondent pas" | not executed | Forms.MismatchAlertUnreachable | Forms.Guard |
