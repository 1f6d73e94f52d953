/** The administrator's dashboard: the user list fetched from the back end,
    its three counters, enabling or disabling a user, deleting a user, and
    the display name of a role. */
module AdminDashboard {
  import opened Models
  import opened Sequences
  import opened AuthSession

  /** A user as the back end's user list returns it; unlike the local
      store's records the role is free text. */
  datatype AccountUser = AccountUser(
    id: int,
    firstName: string,
    lastName: string,
    email: string,
    role: string,
    phone: Option<string>,
    address: Option<string>,
    enabled: bool,
    createdAt: int)

  function AccountId(u: AccountUser): int { u.id }
  function Enabled(): AccountUser -> bool { (u: AccountUser) => u.enabled }
  function HasRole(role: string): AccountUser -> bool { (u: AccountUser) => u.role == role }

  /** `user.enabled = !user.enabled` */
  function FlipEnabled(u: AccountUser): (t: AccountUser)
    ensures t.enabled == !u.enabled
    ensures t.(enabled := u.enabled) == u
  {
    u.(enabled := !u.enabled)
  }

  const LoadFailedMessage: string := "Impossible de charger les utilisateurs"
  const StatusUpdatedMessage: string := "Statut mis à jour"
  const ToggleFailedMessage: string := "Action impossible"
  const DeletedMessage: string := "Utilisateur supprimé avec succès"
  const DeleteFailedMessage: string := "Impossible de supprimer"

  // ------------------------------------------------------ counters

  /** `getActiveUsers`: the number of enabled users; all users are counted
      exactly when all are enabled, none exactly when none is. */
  function ActiveUsers(users: seq<AccountUser>): (n: nat)
    ensures n == |set i | 0 <= i < |users| && users[i].enabled|
    ensures n <= |users|
    ensures n == |users| <==> forall i :: 0 <= i < |users| ==> users[i].enabled
    ensures n == 0 <==> forall i :: 0 <= i < |users| ==> !users[i].enabled
  {
    CountAll(users, Enabled());
    CountNone(users, Enabled());
    CountIsIndexCount(users, Enabled());
    assert IndicesWhere(users, Enabled()) == set i | 0 <= i < |users| && users[i].enabled;
    Count(users, Enabled())
  }

  /** The number of users with the role `role`; zero exactly when nobody
      has it. */
  function RoleCount(users: seq<AccountUser>, role: string): (n: nat)
    ensures n == |set i | 0 <= i < |users| && users[i].role == role|
    ensures n <= |users|
    ensures n == 0 <==> forall i :: 0 <= i < |users| ==> users[i].role != role
  {
    CountNone(users, HasRole(role));
    CountIsIndexCount(users, HasRole(role));
    assert IndicesWhere(users, HasRole(role)) == set i | 0 <= i < |users| && users[i].role == role;
    Count(users, HasRole(role))
  }

  /** `getDoctorsCount` */
  function DoctorsCount(users: seq<AccountUser>): nat
  {
    RoleCount(users, "DOCTOR")
  }

  /** `getPatientsCount` */
  function PatientsCount(users: seq<AccountUser>): nat
  {
    RoleCount(users, "PATIENT")
  }

  /** A user is a doctor or a patient or neither, never both. */
  lemma DoctorsAndPatientsFit(users: seq<AccountUser>)
    ensures DoctorsCount(users) + PatientsCount(users) <= |users|
  {
    CountDisjoint(users, HasRole("DOCTOR"), HasRole("PATIENT"));
  }

  /** Enabling or disabling one user moves the active counter by exactly one
      and leaves the role counters as they were. */
  lemma ToggleMovesActiveByOne(users: seq<AccountUser>, i: nat)
    requires i < |users|
    ensures users[i].enabled ==> ActiveUsers(users[i := FlipEnabled(users[i])]) + 1 == ActiveUsers(users)
    ensures !users[i].enabled ==> ActiveUsers(users[i := FlipEnabled(users[i])]) == ActiveUsers(users) + 1
    ensures DoctorsCount(users[i := FlipEnabled(users[i])]) == DoctorsCount(users)
    ensures PatientsCount(users[i := FlipEnabled(users[i])]) == PatientsCount(users)
  {
    var x := FlipEnabled(users[i]);
    CountUpdate(users, i, x, Enabled());
    CountUpdate(users, i, x, HasRole("DOCTOR"));
    CountUpdate(users, i, x, HasRole("PATIENT"));
  }

  /** A delete keeps exactly the users with another id, and no counter grows. */
  lemma DeleteKeepsOthers(users: seq<AccountUser>, id: int, x: AccountUser)
    ensures x in WithoutId(users, AccountId, id) <==> x in users && x.id != id
    ensures ActiveUsers(WithoutId(users, AccountId, id)) <= ActiveUsers(users)
    ensures DoctorsCount(WithoutId(users, AccountId, id)) <= DoctorsCount(users)
    ensures PatientsCount(WithoutId(users, AccountId, id)) <= PatientsCount(users)
  {
    var r := WithoutId(users, AccountId, id);
    if x in users && x.id != id {
      assert multiset(r)[x] == multiset(users)[x];
    }
    CountSubseq(r, users, Enabled());
    CountSubseq(r, users, HasRole("DOCTOR"));
    CountSubseq(r, users, HasRole("PATIENT"));
  }

  // --------------------------------------------------------- labels

  /** `getRoleDisplayName`: the three roles get their French name, any other
      text is shown as it is. */
  function GetRoleDisplayName(role: string): (name: string)
    ensures role == "ADMIN" ==> name == "Administrateur"
    ensures role == "DOCTOR" ==> name == "Médecin"
    ensures role == "PATIENT" ==> name == "Patient"
    ensures role !in {"ADMIN", "DOCTOR", "PATIENT"} ==> name == role
    ensures name == role <==> ParseRole(role).None?
  {
    match role
    case "ADMIN" => "Administrateur"
    case "DOCTOR" => "Médecin"
    case "PATIENT" => "Patient"
    case _ => role
  }

  // ----------------------------------------------------- the component

  class AdminDashboardComponent {
    var users: seq<AccountUser>
    var loading: bool
    var currentUser: Option<SessionUser>

    constructor ()
      ensures users == [] && loading && currentUser.None?
    {
      users := [];
      loading := true;
      currentUser := None;
    }

    /** `loadUsers` given the back end's answer: the list on success, `None`
        on an error. */
    method LoadUsers(response: Option<seq<AccountUser>>) returns (alert: Option<string>)
      modifies this`users, this`loading
      ensures response.Some? ==> users == response.value && alert.None?
      ensures response.None? ==> users == old(users) && alert == Some(LoadFailedMessage)
      ensures !loading
    {
      if response.Some? {
        users := response.value;
        alert := None;
      } else {
        alert := Some(LoadFailedMessage);
      }
      loading := false;
    }

    /** `ngOnInit`: the users are loaded and the session's user is copied. */
    method NgOnInit(response: Option<seq<AccountUser>>, sessionUser: Option<SessionUser>)
      returns (alert: Option<string>)
      modifies this
      ensures response.Some? ==> users == response.value && alert.None?
      ensures response.None? ==> users == old(users) && alert == Some(LoadFailedMessage)
      ensures !loading && currentUser == sessionUser
    {
      alert := LoadUsers(response);
      currentUser := sessionUser;
    }

    /** `logout` */
    method Logout(auth: AuthService) returns (navigateTo: string)
      modifies auth
      ensures auth.storage == Cleared(old(auth.storage)) && auth.currentUser.None?
      ensures navigateTo == LoginPath
    {
      navigateTo := auth.Logout();
    }

    /** `toggleUserStatus` on the user shown at `index`, after the dialog
        (`confirmed`) and the back end's answer (`succeeded`). */
    method ToggleUserStatus(index: nat, confirmed: bool, succeeded: bool) returns (alert: Option<string>)
      requires index < |users|
      modifies this`users
      ensures confirmed && succeeded ==>
                users == old(users)[index := FlipEnabled(old(users)[index])] && alert == Some(StatusUpdatedMessage)
      ensures confirmed && !succeeded ==> users == old(users) && alert == Some(ToggleFailedMessage)
      ensures !confirmed ==> users == old(users) && alert.None?
    {
      alert := None;
      if confirmed {
        if succeeded {
          users := users[index := FlipEnabled(users[index])];
          alert := Some(StatusUpdatedMessage);
        } else {
          alert := Some(ToggleFailedMessage);
        }
      }
    }

    /** `deleteUser`: on success every user with that id leaves the list. */
    method DeleteUser(user: AccountUser, confirmed: bool, succeeded: bool) returns (alert: Option<string>)
      modifies this`users
      ensures confirmed && succeeded ==>
                users == WithoutId(old(users), AccountId, user.id) && alert == Some(DeletedMessage)
      ensures confirmed && !succeeded ==> users == old(users) && alert == Some(DeleteFailedMessage)
      ensures !confirmed ==> users == old(users) && alert.None?
    {
      alert := None;
      if confirmed {
        if succeeded {
          users := WithoutId(users, AccountId, user.id);
          alert := Some(DeletedMessage);
        } else {
          alert := Some(DeleteFailedMessage);
        }
      }
    }
  }
}
