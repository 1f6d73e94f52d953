/** The administrator's user form: creating a user, or editing the one the
    route names, against the local user store. */
module UserForm {
  import opened Models
  import opened Sequences
  import opened Forms
  import MD = MockData
  import Login

  /** The values of the form's controls. */
  datatype UserFormValue = UserFormValue(
    firstName: string,
    lastName: string,
    email: string,
    password: string,
    confirmPassword: string,
    role: Role,
    phone: string,
    address: string)

  const InitialForm: UserFormValue := UserFormValue("", "", "", "", "", Patient, "", "")

  const InvalidFormMessage: string := "Veuillez corriger les erreurs dans le formulaire"
  const UpdatedMessage: string := "Utilisateur mis à jour avec succès"
  const CreatedMessage: string := "Utilisateur créé avec succès"

  /** What `passwordMatchValidator` returns for the group, and the errors it
      leaves on the confirmation control, whose own errors it replaces. */
  datatype MatchCheck = MatchCheck(groupErrors: set<string>, confirmErrors: set<string>)

  /** `passwordMatchValidator`: `mismatch` exactly when the passwords differ,
      on the group and on the confirmation alike; equal passwords clear every
      error of the confirmation. */
  function PasswordMatchValidator(v: UserFormValue): (c: MatchCheck)
    ensures MismatchKey in c.groupErrors <==> v.password != v.confirmPassword
    ensures c.groupErrors <= {MismatchKey}
    ensures c.confirmErrors == c.groupErrors
  {
    if v.password != v.confirmPassword then MatchCheck({MismatchKey}, {MismatchKey})
    else MatchCheck({}, {})
  }

  /** The controls' own validators once the group validator has run:
      `passwordRequired` says whether the password still carries `required`
      and `minLength(6)`, and `emailOk` is the verdict of Angular's e-mail
      pattern. The confirmation's own `required` never counts, because the
      group validator overwrites its errors. */
  predicate ControlsValid(v: UserFormValue, passwordRequired: bool, emailOk: bool)
  {
    RequiredMinLength(v.firstName, 2) && RequiredMinLength(v.lastName, 2) &&
    v.email != "" && emailOk &&
    (passwordRequired ==> RequiredMinLength(v.password, 6)) &&
    PasswordMatchValidator(v).confirmErrors == {}
  }

  /** `value || ''` for an optional text of the store. */
  function OrEmpty(s: Option<string>): (r: string)
    ensures Truthy(s) ==> r == s.value
    ensures !Truthy(s) ==> r == ""
  {
    if Truthy(s) then s.value else ""
  }

  /** `value || undefined` for a text control. */
  function OrUndefined(s: string): (r: Option<string>)
    ensures r.None? <==> s == ""
    ensures r.Some? ==> r.value == s
  {
    if s == "" then None else Some(s)
  }

  /** `loadUserData`'s `patchValue`: the user's fields replace the form's,
      an absent phone or address shows as the empty text, and the two
      password controls keep what they hold. */
  function Patched(v: UserFormValue, u: User): UserFormValue
  {
    v.(firstName := u.firstName, lastName := u.lastName, email := u.email, role := u.role,
       phone := OrEmpty(u.phone), address := OrEmpty(u.address))
  }

  /** The `formData` built by `onSubmit`. */
  function FormDataOf(v: UserFormValue): (d: UserFormData)
    ensures d.firstName == v.firstName && d.lastName == v.lastName && d.email == v.email
    ensures d.password == v.password && d.role == v.role
    ensures d.phone == OrUndefined(v.phone) && d.address == OrUndefined(v.address)
  {
    UserFormData(v.firstName, v.lastName, v.email, v.password, v.role,
                 OrUndefined(v.phone), OrUndefined(v.address))
  }

  /** `formData` handed to `updateUser` as a partial object: every key is
      present, and a phone or address left undefined is spread as well. */
  function PatchOf(d: UserFormData): MD.UserPatch
  {
    MD.UserPatch(Some(d.firstName), Some(d.lastName), Some(d.email), Some(d.password),
                 Some(d.role), Some(d.phone), Some(d.address))
  }

  /** Loading a user into the form and submitting it untouched leaves the
      user as it was, unless it held an empty phone or address, which comes
      back undefined. */
  lemma UntouchedEditKeepsUser(v: UserFormValue, u: User)
    ensures (u.phone != Some("") && u.address != Some("")) ==>
              MD.Merge(u, PatchOf(FormDataOf(Patched(v, u)))) == u
    ensures MD.Merge(u, PatchOf(FormDataOf(Patched(v, u)))).phone == (if u.phone == Some("") then None else u.phone)
  {
  }

  /** The store call `onSubmit` makes. */
  datatype StoreCall = NoCall | UpdateCall(id: int, patch: MD.UserPatch) | CreateCall(data: UserFormData)

  /** Which call a submit ends in: none unless the form passes its checks,
      an update exactly in edit mode with a truthy `userId` (so id 0 creates),
      a creation otherwise. */
  function SubmitCall(v: UserFormValue, passwordRequired: bool, emailOk: bool,
                      isEditMode: bool, userId: Option<int>): (c: StoreCall)
    ensures c.NoCall? <==> !ControlsValid(v, passwordRequired, emailOk)
    ensures c.UpdateCall? <==>
              ControlsValid(v, passwordRequired, emailOk) && isEditMode && userId.Some? && userId.value != 0
    ensures c.UpdateCall? ==> c.id == userId.value && c.patch == PatchOf(FormDataOf(v))
    ensures c.CreateCall? ==> c.data == FormDataOf(v)
  {
    var mismatch := MismatchKey in PasswordMatchValidator(v).groupErrors;
    if GuardAsWritten(ControlsValid(v, passwordRequired, emailOk), mismatch) != Proceed then NoCall
    else if isEditMode && userId.Some? && userId.value != 0 then UpdateCall(userId.value, PatchOf(FormDataOf(v)))
    else CreateCall(FormDataOf(v))
  }

  /** Whatever the mode, a form whose passwords differ makes no call. */
  lemma MismatchMakesNoCall(v: UserFormValue, passwordRequired: bool, emailOk: bool,
                            isEditMode: bool, userId: Option<int>)
    requires v.password != v.confirmPassword
    ensures SubmitCall(v, passwordRequired, emailOk, isEditMode, userId) == NoCall
  {
    assert MismatchKey in PasswordMatchValidator(v).confirmErrors;
  }

  /** `getTitle` */
  function GetTitle(isEditMode: bool): (t: string)
    ensures isEditMode <==> t == "Modifier un utilisateur"
    ensures !isEditMode <==> t == "Créer un nouvel utilisateur"
  {
    if isEditMode then "Modifier un utilisateur" else "Créer un nouvel utilisateur"
  }

  /** `getButtonText` */
  function GetButtonText(isEditMode: bool): (t: string)
    ensures isEditMode <==> t == "Mettre à jour"
    ensures !isEditMode <==> t == "Créer l'utilisateur"
  {
    if isEditMode then "Mettre à jour" else "Créer l'utilisateur"
  }

  class UserFormComponent {
    var form: UserFormValue
    /** Whether the password controls still carry their validators. */
    var passwordRequired: bool
    var isEditMode: bool
    var userId: Option<int>
    var loading: bool

    /** The form is built while `isEditMode` is still false, so the password
        validators are always installed at first. */
    constructor ()
      ensures form == InitialForm && passwordRequired && !isEditMode && userId.None? && !loading
    {
      form := InitialForm;
      passwordRequired := true;
      isEditMode := false;
      userId := None;
      loading := false;
    }

    /** `loadUserData`: a user found fills the form and frees the password
        from its validators; a missing user leaves the form as it was. */
    method LoadUserData(id: int, store: MD.MockDataService)
      modifies this`form, this`passwordRequired, this`loading
      ensures store.GetUserById(id).Some? ==>
                form == Patched(old(form), store.GetUserById(id).value) && !passwordRequired
      ensures store.GetUserById(id).None? ==> form == old(form) && passwordRequired == old(passwordRequired)
      ensures !loading
    {
      loading := true;
      var user := store.GetUserById(id);
      if user.Some? {
        form := Patched(form, user.value);
        passwordRequired := false;
      }
      loading := false;
    }

    /** `ngOnInit` with the route's `id` parameter, `None` when it is absent
        or empty, else its numeric value. */
    method NgOnInit(idParam: Option<int>, store: MD.MockDataService)
      modifies this
      ensures idParam.Some? ==> isEditMode && userId == idParam && !loading
      ensures idParam.Some? && store.GetUserById(idParam.value).Some? ==>
                form == Patched(old(form), store.GetUserById(idParam.value).value) && !passwordRequired
      ensures idParam.Some? && store.GetUserById(idParam.value).None? ==>
                form == old(form) && passwordRequired == old(passwordRequired)
      ensures idParam.None? ==>
                isEditMode == old(isEditMode) && userId == old(userId) && form == old(form) &&
                passwordRequired == old(passwordRequired) && loading == old(loading)
    {
      if idParam.Some? {
        isEditMode := true;
        userId := idParam;
        LoadUserData(idParam.value, store);
      }
    }

    /** `onSubmit` at time `now`: the store changes by exactly the call
        `SubmitCall` names, and a successful call goes back to the dashboard
        once its alert closes. */
    method OnSubmit(store: MD.MockDataService, emailOk: bool, now: int)
      returns (alert: Option<string>, navigateTo: Option<string>)
      modifies this`loading, store
      ensures store.configs == old(store.configs) && store.services == old(store.services)
      ensures SubmitCall(form, passwordRequired, emailOk, isEditMode, userId).NoCall? ==>
                store.users == old(store.users) && navigateTo.None? && loading == old(loading)
      ensures !ControlsValid(form, passwordRequired, emailOk) ==> alert == Some(InvalidFormMessage)
      ensures form.password != form.confirmPassword ==> alert == Some(InvalidFormMessage)
      ensures SubmitCall(form, passwordRequired, emailOk, isEditMode, userId).UpdateCall? ==>
                store.users == UpdateById(old(store.users), MD.UserId, userId.value, MD.MergeWith(PatchOf(FormDataOf(form)))) &&
                !loading &&
                (IndexOfId(old(store.users), MD.UserId, userId.value) != -1 <==> navigateTo == Some(Login.AdminDashboardPath)) &&
                (IndexOfId(old(store.users), MD.UserId, userId.value) != -1 <==> alert == Some(UpdatedMessage))
      ensures SubmitCall(form, passwordRequired, emailOk, isEditMode, userId).CreateCall? ==>
                store.users == old(store.users) + [MD.NewUser(FormDataOf(form), |old(store.users)| + 1, now)] &&
                !loading && navigateTo == Some(Login.AdminDashboardPath) && alert == Some(CreatedMessage)
    {
      alert, navigateTo := None, None;
      var mismatch := MismatchKey in PasswordMatchValidator(form).groupErrors;
      var controlsValid := ControlsValid(form, passwordRequired, emailOk);
      match GuardAsWritten(controlsValid, mismatch)
      case Blocked =>
        alert := Some(InvalidFormMessage);
      case MismatchAlert =>
        assert false;
      case Proceed =>
        loading := true;
        var data := FormDataOf(form);
        if isEditMode && userId.Some? && userId.value != 0 {
          var updated := store.UpdateUser(userId.value, PatchOf(data));
          if updated.Some? {
            alert := Some(UpdatedMessage);
            navigateTo := Some(Login.AdminDashboardPath);
          }
          loading := false;
        } else {
          var _ := store.CreateUser(data, now);
          alert := Some(CreatedMessage);
          navigateTo := Some(Login.AdminDashboardPath);
          loading := false;
        }
    }

    /** `onCancel` */
    method OnCancel() returns (navigateTo: string)
      ensures navigateTo == Login.AdminDashboardPath
    {
      navigateTo := Login.AdminDashboardPath;
    }
  }
}
