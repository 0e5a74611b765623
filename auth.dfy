/** The sign-in and registration form. Sign-in finds the first stored account
    whose name or email equals the typed identity, ignoring letter case;
    registration refuses a name already taken and otherwise builds a new
    account with no points. No password is ever compared. */
module AuthPage {
  import opened Types
  import opened Text
  import StorageService

  /** The form fields. */
  datatype AuthForm = AuthForm(name: string, email: string, password: string, studentId: string)

  /** Why a submission was refused (the alert the page raises). */
  datatype AuthError = AccountNotFound | NameTaken

  /** The roles the registration form offers. */
  const REGISTRATION_ROLES: seq<UserRole> := [Student, Trainer, NonStudent]

  /** A stored account answers to the identity typed at sign-in. */
  predicate LoginMatches(u: User, identity: string)
  {
    EqualsIgnoreCase(u.name, identity) || EqualsIgnoreCase(u.email, identity)
  }

  predicate IsFirstLogin(users: seq<User>, identity: string, i: int)
  {
    && 0 <= i < |users|
    && LoginMatches(users[i], identity)
    && forall j :: 0 <= j < i ==> !LoginMatches(users[j], identity)
  }

  predicate NoLogin(users: seq<User>, identity: string)
  {
    forall j :: 0 <= j < |users| ==> !LoginMatches(users[j], identity)
  }

  /** `allUsers.find(...)`, as a position: the first matching account, or -1. */
  function LoginIndex(users: seq<User>, identity: string): (i: int)
    ensures i == -1 <==> NoLogin(users, identity)
    ensures i != -1 ==> IsFirstLogin(users, identity, i)
  {
    if users == [] then -1
    else if LoginMatches(users[0], identity) then 0
    else
      var k := LoginIndex(users[1..], identity);
      if k == -1 then -1 else k + 1
  }

  /** `allUsers.some(u => same name ignoring case)`. */
  predicate NameRegistered(users: seq<User>, name: string)
  {
    exists i :: 0 <= i < |users| && EqualsIgnoreCase(users[i].name, name)
  }

  /** The account registration builds; the id and the join time come from
      the random source and the clock. */
  function NewUser(form: AuthForm, role: UserRole, newId: string, now: string): (u: User)
    ensures u.id == newId && u.joinedAt == now
    ensures u.name == form.name && u.username == form.name && u.email == form.email
    ensures u.role == role && u.points == 0 && u.rank.None?
    ensures u.profilePic.None? && u.bio.None?
    ensures u.studentId.Some? <==> role == Student
    ensures role == Student ==> u.studentId == Some(form.studentId)
  {
    User(newId, form.name, form.name, form.email, role,
         if role == Student then Some(form.studentId) else None,
         None, None, 0, None, now)
  }

  /** `handleSubmit`, given the users collection it reads: the account handed
      to `onLogin`, or the reason it is refused. */
  function Submit(users: seq<User>, isLogin: bool, form: AuthForm, role: UserRole, newId: string, now: string)
    : (r: Result<User, AuthError>)
    ensures isLogin ==> (r.Err? <==> NoLogin(users, form.name))
    ensures isLogin && r.Ok? ==> exists i :: IsFirstLogin(users, form.name, i) && users[i] == r.value
    ensures isLogin && r.Err? ==> r.error == AccountNotFound
    ensures !isLogin ==> (r.Err? <==> NameRegistered(users, form.name))
    ensures !isLogin && r.Err? ==> r.error == NameTaken
    ensures !isLogin && r.Ok? ==> r.value == NewUser(form, role, newId, now)
  {
    if isLogin then
      var i := LoginIndex(users, form.name);
      if i != -1 then Ok(users[i]) else Err(AccountNotFound)
    else if exists i :: 0 <= i < |users| && EqualsIgnoreCase(users[i].name, form.name) then
      Err(NameTaken)
    else
      Ok(NewUser(form, role, newId, now))
  }

  // ---- properties ----

  /** The role buttons start on Student and offer only the three registration
      roles, so a registered account is never a Guest. */
  lemma RegistrationNeverGuest(users: seq<User>, form: AuthForm, role: UserRole, newId: string, now: string)
    requires role in REGISTRATION_ROLES
    ensures Student in REGISTRATION_ROLES && Guest !in REGISTRATION_ROLES
    ensures Submit(users, false, form, role, newId, now).Ok? ==>
      Submit(users, false, form, role, newId, now).value.role in REGISTRATION_ROLES
    ensures Submit(users, false, form, role, newId, now).Ok? ==>
      Submit(users, false, form, role, newId, now).value.role != Guest
  {
  }

  /** Whether an account matches depends only on the lower-cased identity. */
  lemma MatchesIgnoreCase(u: User, identity: string)
    ensures LoginMatches(u, ToLower(identity)) == LoginMatches(u, identity)
  {
    ToLowerIdempotent(identity);
  }

  lemma {:induction false} LoginIndexIgnoresCase(users: seq<User>, identity: string)
    ensures LoginIndex(users, ToLower(identity)) == LoginIndex(users, identity)
  {
    if users != [] {
      MatchesIgnoreCase(users[0], identity);
      LoginIndexIgnoresCase(users[1..], identity);
    }
  }

  /** Signing in with an identity typed in any letter case selects the same
      account. */
  lemma LoginIgnoresCase(users: seq<User>, form: AuthForm, role: UserRole, newId: string, now: string)
    ensures Submit(users, true, form.(name := ToLower(form.name)), role, newId, now)
         == Submit(users, true, form, role, newId, now)
  {
    LoginIndexIgnoresCase(users, form.name);
  }

  /** Registration followed by `saveUser` lets the new member sign in by name,
      provided the random id and the email are not in use and no earlier
      account has an email equal to the new name. */
  lemma RegisterThenLogin(users: seq<User>, form: AuthForm, role: UserRole, newId: string, now: string)
    requires Submit(users, false, form, role, newId, now).Ok?
    requires StorageService.NoMatch(users, NewUser(form, role, newId, now))
    requires forall j :: 0 <= j < |users| ==> !EqualsIgnoreCase(users[j].email, form.name)
    ensures Submit(StorageService.Upsert(users, NewUser(form, role, newId, now)), true, form, role, newId, now)
         == Ok(NewUser(form, role, newId, now))
  {
    var u := NewUser(form, role, newId, now);
    var saved := StorageService.Upsert(users, u);
    assert saved == users + [u];
    forall j | 0 <= j < |users| ensures !LoginMatches(saved[j], form.name) {
      assert saved[j] == users[j];
    }
    assert IsFirstLogin(saved, form.name, |users|);
  }

  /** Registration checks names only: a new name with the email of a stored
      account is accepted, and saving it replaces that account in place. */
  lemma DuplicateEmailReplaces(users: seq<User>, form: AuthForm, role: UserRole, newId: string, now: string, i: int)
    requires !NameRegistered(users, form.name)
    requires 0 <= i < |users| && users[i].email == form.email
    requires forall j :: 0 <= j < |users| ==> users[j].id != newId
    requires forall j :: 0 <= j < i ==> users[j].email != form.email
    ensures Submit(users, false, form, role, newId, now).Ok?
    ensures StorageService.Upsert(users, NewUser(form, role, newId, now))
         == users[i := NewUser(form, role, newId, now)]
  {
    assert StorageService.IsFirstMatch(users, NewUser(form, role, newId, now), i);
  }
}
