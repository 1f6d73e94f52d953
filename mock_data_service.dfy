/** `MockDataService`: the in-memory users, system configurations and
    services of the administration pages, their updates in place, and the
    dashboard statistics. */
module MockData {
  import opened Models
  import opened Sequences

  function UserId(u: User): int { u.id }
  function ConfigId(c: SystemConfig): int { c.id }
  function ServiceId(s: Service): int { s.id }

  function UserHasId(id: int): User -> bool { (u: User) => u.id == id }

  predicate IsEnabled(u: User) { u.enabled }
  predicate IsDoctor(u: User) { u.role == Doctor }
  predicate IsPatient(u: User) { u.role == Patient }
  predicate IsActiveService(s: Service) { s.status == ServiceStatus.Active }

  /** The seven fields of a user form that `createUser` copies. */
  function NewUser(data: UserFormData, id: int, now: int): (u: User)
    ensures u.id == id && u.enabled && u.createdAt == now && u.lastLogin == None
    ensures u.firstName == data.firstName && u.lastName == data.lastName && u.email == data.email
    ensures u.role == data.role && u.phone == data.phone && u.address == data.address
  {
    User(id, data.firstName, data.lastName, data.email, data.role, data.phone, data.address, true, now, None)
  }

  /** `Partial<UserFormData>`: `None` is a key the object does not have. A
      present `phone` or `address` key may hold `undefined`, which the spread
      copies, hence the two levels of option. */
  datatype UserPatch = UserPatch(
    firstName: Option<string>,
    lastName: Option<string>,
    email: Option<string>,
    password: Option<string>,
    role: Option<Role>,
    phone: Option<Option<string>>,
    address: Option<Option<string>>)

  const EmptyPatch: UserPatch := UserPatch(None, None, None, None, None, None, None)

  function Pick<T>(o: Option<T>, d: T): T
  {
    if o.Some? then o.value else d
  }

  /** `{...u, ...patch}`: each key the patch has overrides the user's field,
      every other field is kept; id, state and dates never change. */
  function Merge(u: User, patch: UserPatch): (r: User)
    ensures r.id == u.id && r.enabled == u.enabled && r.createdAt == u.createdAt && r.lastLogin == u.lastLogin
    ensures r.firstName == (if patch.firstName.Some? then patch.firstName.value else u.firstName)
    ensures r.lastName == (if patch.lastName.Some? then patch.lastName.value else u.lastName)
    ensures r.email == (if patch.email.Some? then patch.email.value else u.email)
    ensures r.role == (if patch.role.Some? then patch.role.value else u.role)
    ensures r.phone == (if patch.phone.Some? then patch.phone.value else u.phone)
    ensures r.address == (if patch.address.Some? then patch.address.value else u.address)
  {
    u.(firstName := Pick(patch.firstName, u.firstName),
       lastName := Pick(patch.lastName, u.lastName),
       email := Pick(patch.email, u.email),
       role := Pick(patch.role, u.role),
       phone := Pick(patch.phone, u.phone),
       address := Pick(patch.address, u.address))
  }

  /** The merge as an update of one row, for `UpdateById`. */
  function MergeWith(patch: UserPatch): User -> User
  {
    (u: User) => Merge(u, patch)
  }

  function FlipEnabled(u: User): (r: User)
    ensures r.enabled == !u.enabled && r.(enabled := u.enabled) == u
  {
    u.(enabled := !u.enabled)
  }

  function SetValue(value: string): SystemConfig -> SystemConfig
  {
    (c: SystemConfig) => c.(value := value)
  }

  /** `currentStatus === 'ACTIVE' ? 'INACTIVE' : 'ACTIVE'` */
  function NextServiceStatus(s: ServiceStatus): (r: ServiceStatus)
    ensures s == ServiceStatus.Active <==> r == Inactive
    ensures r != s
  {
    if s == ServiceStatus.Active then Inactive else ServiceStatus.Active
  }

  function ToggleService(s: Service): Service
  {
    s.(status := NextServiceStatus(s.status))
  }

  datatype Statistics = Statistics(
    totalUsers: nat,
    activeUsers: nat,
    doctorsCount: nat,
    patientsCount: nat,
    activeServices: nat,
    systemHealth: string)

  const SeedConfigs: seq<SystemConfig> := [
    SystemConfig(1, "app.name", "MedInsight", "Nom de l'application", General, true),
    SystemConfig(2, "security.jwt.expiration", "86400000", "Durée de validité du token JWT (en ms)", Security, true),
    SystemConfig(3, "email.smtp.host", "smtp.gmail.com", "Serveur SMTP pour les emails", Email, true),
    SystemConfig(4, "ai.model.path", "/models/cancer_detection.h5", "Chemin du modèle IA", AIModel, false)
  ]

  class MockDataService {
    var users: seq<User>
    var configs: seq<SystemConfig>
    var services: seq<Service>

    /** The store starts from seed users and services and the seed
        configurations. */
    constructor (seedUsers: seq<User>, seedServices: seq<Service>)
      ensures users == seedUsers && configs == SeedConfigs && services == seedServices
    {
      users := seedUsers;
      configs := SeedConfigs;
      services := seedServices;
    }

    /** The first user with that id, if any. */
    function GetUserById(id: int): (r: Option<User>)
      reads this
      ensures r.None? <==> forall i :: 0 <= i < |users| ==> users[i].id != id
      ensures r.Some? ==> exists i :: 0 <= i < |users| && users[i] == r.value &&
                                      r.value.id == id && forall j :: 0 <= j < i ==> users[j].id != id
    {
      Find(users, UserHasId(id))
    }

    /** Appends one enabled user with `id = length + 1`, created `now`.
        The id is not promised to be fresh: a deletion can make it collide. */
    method CreateUser(data: UserFormData, now: int) returns (u: User)
      modifies this
      ensures u == NewUser(data, |old(users)| + 1, now)
      ensures users == old(users) + [u]
      ensures configs == old(configs) && services == old(services)
    {
      u := NewUser(data, |users| + 1, now);
      users := users + [u];
    }

    /** Merges the patch into the first user with that id and returns it;
        `None` and no change when there is none. */
    method UpdateUser(id: int, patch: UserPatch) returns (r: Option<User>)
      modifies this
      ensures users == UpdateById(old(users), UserId, id, MergeWith(patch))
      ensures r.None? <==> IndexOfId(old(users), UserId, id) == -1
      ensures r.Some? ==> r.value == Merge(old(users)[IndexOfId(old(users), UserId, id)], patch)
      ensures configs == old(configs) && services == old(services)
    {
      var index := IndexOfId(users, UserId, id);
      if index != -1 {
        users := users[index := Merge(users[index], patch)];
        r := Some(users[index]);
      } else {
        r := None;
      }
    }

    /** Splices out the first user with that id; reports whether there was one. */
    method DeleteUser(id: int) returns (found: bool)
      modifies this
      ensures users == RemoveFirstId(old(users), UserId, id)
      ensures found <==> IndexOfId(old(users), UserId, id) != -1
      ensures found ==> |users| == |old(users)| - 1
      ensures configs == old(configs) && services == old(services)
    {
      var index := IndexOfId(users, UserId, id);
      if index != -1 {
        users := users[..index] + users[index + 1..];
        found := true;
      } else {
        found := false;
      }
    }

    method ToggleUserStatus(id: int) returns (r: Option<User>)
      modifies this
      ensures users == UpdateById(old(users), UserId, id, FlipEnabled)
      ensures r.None? <==> IndexOfId(old(users), UserId, id) == -1
      ensures r.Some? ==> r.value.id == id && r.value == users[IndexOfId(old(users), UserId, id)]
      ensures configs == old(configs) && services == old(services)
    {
      var index := IndexOfId(users, UserId, id);
      if index != -1 {
        users := users[index := FlipEnabled(users[index])];
        r := Some(users[index]);
      } else {
        r := None;
      }
    }

    /** The state once `updateConfig`'s timer has fired: the first config
        with that id holds the new value. A missing id answers `None` at
        once and changes nothing. */
    method UpdateConfig(id: int, value: string) returns (r: Option<SystemConfig>)
      modifies this
      ensures configs == UpdateById(old(configs), ConfigId, id, SetValue(value))
      ensures r.None? <==> IndexOfId(old(configs), ConfigId, id) == -1
      ensures r.Some? ==> r.value.value == value && r.value == configs[IndexOfId(old(configs), ConfigId, id)]
      ensures users == old(users) && services == old(services)
    {
      var index := IndexOfId(configs, ConfigId, id);
      if index != -1 {
        configs := configs[index := configs[index].(value := value)];
        r := Some(configs[index]);
      } else {
        r := None;
      }
    }

    method ToggleServiceStatus(id: int) returns (r: Option<Service>)
      modifies this
      ensures services == UpdateById(old(services), ServiceId, id, ToggleService)
      ensures r.None? <==> IndexOfId(old(services), ServiceId, id) == -1
      ensures r.Some? ==> r.value == services[IndexOfId(old(services), ServiceId, id)]
      ensures r.Some? ==> r.value.status == NextServiceStatus(old(services)[IndexOfId(old(services), ServiceId, id)].status)
      ensures users == old(users) && configs == old(configs)
    {
      var index := IndexOfId(services, ServiceId, id);
      if index != -1 {
        services := services[index := ToggleService(services[index])];
        r := Some(services[index]);
      } else {
        r := None;
      }
    }

    /** `getStatistics`: the users, the enabled users, the doctors and the
        patients, and the services currently ACTIVE, each counted. */
    function GetStatistics(): (st: Statistics)
      reads this
      ensures st.totalUsers == |users|
      ensures st.activeUsers == |set i | 0 <= i < |users| && users[i].enabled|
      ensures st.doctorsCount == |set i | 0 <= i < |users| && users[i].role == Doctor|
      ensures st.patientsCount == |set i | 0 <= i < |users| && users[i].role == Patient|
      ensures st.activeServices == |set i | 0 <= i < |services| && services[i].status == ServiceStatus.Active|
      ensures st.activeUsers <= st.totalUsers
      ensures st.doctorsCount + st.patientsCount <= st.totalUsers
      ensures st.activeServices <= |services|
      ensures st.systemHealth == "GOOD"
    {
      CountDisjoint(users, IsDoctor, IsPatient);
      CountIsIndexCount(users, IsEnabled);
      CountIsIndexCount(users, IsDoctor);
      CountIsIndexCount(users, IsPatient);
      CountIsIndexCount(services, IsActiveService);
      assert IndicesWhere(users, IsEnabled) == set i | 0 <= i < |users| && users[i].enabled;
      assert IndicesWhere(users, IsDoctor) == set i | 0 <= i < |users| && users[i].role == Doctor;
      assert IndicesWhere(users, IsPatient) == set i | 0 <= i < |users| && users[i].role == Patient;
      assert IndicesWhere(services, IsActiveService) ==
             set i | 0 <= i < |services| && services[i].status == ServiceStatus.Active;
      Statistics(|users|, Count(users, IsEnabled), Count(users, IsDoctor), Count(users, IsPatient),
                 Count(services, IsActiveService), "GOOD")
    }
  }

  /** A patch with no keys leaves a user as it was; a patch applied twice
      does no more than applied once. */
  lemma MergeLaws(u: User, patch: UserPatch)
    ensures Merge(u, EmptyPatch) == u
    ensures Merge(Merge(u, patch), patch) == Merge(u, patch)
  {
  }

  /** Only the matched user changes, and only in the supplied fields. */
  lemma UpdateUserFrame(s: seq<User>, id: int, patch: UserPatch, j: int)
    requires 0 <= j < |s|
    ensures j != IndexOfId(s, UserId, id) ==> UpdateById(s, UserId, id, MergeWith(patch))[j] == s[j]
    ensures j == IndexOfId(s, UserId, id) ==> UpdateById(s, UserId, id, MergeWith(patch))[j] == Merge(s[j], patch)
  {
  }

  /** Toggling a user twice restores the table. */
  lemma ToggleUserTwiceRestores(s: seq<User>, id: int)
    ensures UpdateById(UpdateById(s, UserId, id, FlipEnabled), UserId, id, FlipEnabled) == s
  {
    UpdateByIdTwice(s, UserId, id, FlipEnabled);
  }

  /** Deleting removes just the first user with that id: everything before
      it stays, everything after it moves up one place. */
  lemma DeleteUserKeepsOthers(s: seq<User>, id: int)
    requires IndexOfId(s, UserId, id) != -1
    ensures var i := IndexOfId(s, UserId, id);
            RemoveFirstId(s, UserId, id) == s[..i] + s[i + 1..]
  {
  }

  /** After a deletion the next created user can take an id still in use. */
  lemma CreateAfterDeleteCanReuseId(a: User, b: User, data: UserFormData, now: int)
    requires a.id == 1 && b.id == 2
    ensures var s := RemoveFirstId([a, b], UserId, 1);
            |s| == 1 && NewUser(data, |s| + 1, now).id == s[0].id
  {
    assert IndexOfId([a, b], UserId, 1) == 0;
  }

  /** A service's status toggles back and forth between ACTIVE and INACTIVE,
      but a service under MAINTENANCE never returns to it. */
  lemma ServiceToggleTwice(s: ServiceStatus)
    ensures s != Maintenance ==> NextServiceStatus(NextServiceStatus(s)) == s
    ensures NextServiceStatus(NextServiceStatus(Maintenance)) == Inactive
  {
  }

  /** The config updated is the matched one only; the value stored is the one given. */
  lemma UpdateConfigFrame(s: seq<SystemConfig>, id: int, value: string, j: int)
    requires 0 <= j < |s|
    ensures j != IndexOfId(s, ConfigId, id) ==> UpdateById(s, ConfigId, id, SetValue(value))[j] == s[j]
    ensures j == IndexOfId(s, ConfigId, id) ==> UpdateById(s, ConfigId, id, SetValue(value))[j] == s[j].(value := value)
  {
  }
}
