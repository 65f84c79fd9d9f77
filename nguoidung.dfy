// Accounts (NguoiDungController): sign-in with its failed-attempt counter
// and fifteen-minute lock, registration with unique user name and e-mail,
// and the two ways to change a password (DoiMatKhau and CaiDat).
module NguoiDung {
  import opened Common
  import opened Calendar
  import opened Entities
  import opened Store

  /** Failed attempts after which the account is locked, and how long the lock lasts. */
  const MaxFailedLogins: int := 5
  const LockSeconds: nat := 15 * 60

  // ----- DangNhap: the lockout state machine ----------------------------------

  datatype LoginResult = UnknownUser | Locked | WrongPassword | LoggedIn

  /** The lock is in force: a lock time strictly after now. */
  predicate IsLocked(u: User, now: Instant)
  {
    u.lockedUntil.Some? && InstantKey(u.lockedUntil.value) > InstantKey(now)
  }

  /**
   * One sign-in attempt on a known user: rejected unchanged while locked;
   * a wrong password counts one more failure and, from the fifth on,
   * (re)locks for fifteen minutes; the right password clears both.
   */
  function LoginStep(u: User, password: string, now: Instant): (r: (User, LoginResult))
    requires ValidInstant(now)
    ensures IsLocked(u, now) ==> r == (u, Locked)
    ensures !IsLocked(u, now) && u.password == password ==>
      r == (u.(failedLogins := Some(0), lockedUntil := None), LoggedIn)
    ensures !IsLocked(u, now) && u.password != password ==>
      r.1 == WrongPassword &&
      r.0.failedLogins == Some(OrZero(u.failedLogins) + 1) &&
      r.0.lockedUntil == (if OrZero(u.failedLogins) + 1 >= MaxFailedLogins then Some(AddSeconds(now, LockSeconds)) else u.lockedUntil) &&
      r.0 == u.(failedLogins := r.0.failedLogins, lockedUntil := r.0.lockedUntil)
  {
    if IsLocked(u, now) then (u, Locked)
    else if u.password != password then
      var failed := OrZero(u.failedLogins) + 1;
      (u.(failedLogins := Some(failed),
          lockedUntil := if failed >= MaxFailedLogins then Some(AddSeconds(now, LockSeconds)) else u.lockedUntil),
       WrongPassword)
    else (u.(failedLogins := Some(0), lockedUntil := None), LoggedIn)
  }

  /** An attempt never makes the failure counter negative. */
  lemma LoginStepKeepsRowOk(u: User, password: string, now: Instant)
    requires ValidInstant(now) && UserRowOk(u)
    ensures UserRowOk(LoginStep(u, password, now).0)
  {
  }

  /** A lock set by a failure holds, whatever password is tried, for the next fifteen minutes. */
  lemma LockHoldsFifteenMinutes(u: User, wrong: string, now: Instant, right: string, later: Instant)
    requires ValidInstant(now) && ValidInstant(later) && !IsLocked(u, now) && u.password != wrong
    requires OrZero(u.failedLogins) + 1 >= MaxFailedLogins
    requires InstantKey(later) < InstantKey(AddSeconds(now, LockSeconds))
    ensures LoginStep(LoginStep(u, wrong, now).0, right, later).1 == Locked
  {
  }

  /** A locked-out failure is not forgotten: once the lock expires, a single wrong password locks again. */
  lemma RelockAfterExpiry(u: User, wrong: string, now: Instant)
    requires ValidInstant(now) && !IsLocked(u, now) && u.password != wrong
    requires u.failedLogins.Some? && u.failedLogins.value >= MaxFailedLogins - 1
    ensures IsLocked(LoginStep(u, wrong, now).0, now)
  {
    AddSecondsLater(now, LockSeconds);
  }

  /** Consecutive attempts with one password at the given instants. */
  function Attempts(u: User, password: string, times: seq<Instant>): (r: User)
    requires forall k :: 0 <= k < |times| ==> ValidInstant(times[k])
    decreases |times|
  {
    if times == [] then u
    else
      var n := |times| - 1;
      LoginStep(Attempts(u, password, times[..n]), password, times[n]).0
  }

  /**
   * From an unlocked account with c recorded failures, wrong passwords
   * count up one by one and lock nothing while the count stays below five.
   */
  lemma {:induction false} FailuresCountUp(u: User, wrong: string, times: seq<Instant>)
    requires forall k :: 0 <= k < |times| ==> ValidInstant(times[k])
    requires u.lockedUntil.None? && u.password != wrong
    requires OrZero(u.failedLogins) + |times| < MaxFailedLogins
    ensures var r := Attempts(u, wrong, times);
      r.lockedUntil.None? && OrZero(r.failedLogins) == OrZero(u.failedLogins) + |times| && r.password == u.password
    decreases |times|
  {
    if times != [] {
      var n := |times| - 1;
      assert forall k :: 0 <= k < n ==> times[..n][k] == times[k];
      FailuresCountUp(u, wrong, times[..n]);
    }
  }

  /** The fifth consecutive wrong password on a fresh account locks it for fifteen minutes from that attempt. */
  lemma FifthFailureLocks(u: User, wrong: string, times: seq<Instant>)
    requires |times| == 5 && forall k :: 0 <= k < 5 ==> ValidInstant(times[k])
    requires u.lockedUntil.None? && OrZero(u.failedLogins) == 0 && u.password != wrong
    ensures Attempts(u, wrong, times).lockedUntil == Some(AddSeconds(times[4], LockSeconds))
    ensures Attempts(u, wrong, times).failedLogins == Some(5)
  {
    assert forall k :: 0 <= k < 4 ==> times[..4][k] == times[k];
    FailuresCountUp(u, wrong, times[..4]);
  }

  /** The first user with this name (FirstOrDefault on TenDangNhap). */
  function UserNamed(users: seq<User>, name: string): (r: Option<nat>)
    ensures r.Some? ==> r.value < |users| && users[r.value].userName == name
    ensures r.None? ==> forall u :: u in users ==> u.userName != name
  {
    var r := FirstIndex(users, (u: User) => u.userName == name);
    assert r.None? ==> forall j :: 0 <= j < |users| ==> users[j].userName != name;
    r
  }

  /**
   * POST DangNhap: an invalid form or an unknown name changes nothing;
   * otherwise the attempt is applied to the user's row, and a successful
   * one puts the user's key in the session.
   */
  method Login(db: Db, name: string, password: string, formValid: bool, now: Instant)
    returns (result: Option<LoginResult>, session: Option<int>)
    requires db.Valid() && ValidInstant(now)
    modifies db`users
    ensures db.Valid()
    ensures !formValid ==> result.None? && session.None? && unchanged(db)
    ensures formValid && UserNamed(old(db.users), name).None? ==>
      result == Some(UnknownUser) && session.None? && unchanged(db)
    ensures formValid && UserNamed(old(db.users), name).Some? ==>
      var k := UserNamed(old(db.users), name).value;
      var step := LoginStep(old(db.users)[k], password, now);
      db.users == old(db.users)[k := step.0] && result == Some(step.1) &&
      session == (if step.1 == LoggedIn then Some(old(db.users)[k].id) else None)
  {
    session := None;
    if !formValid {
      return None, None;
    }
    var found := UserNamed(db.users, name);
    if found.None? {
      return Some(UnknownUser), None;
    }
    var k := found.value;
    var u := db.users[k];
    var step := LoginStep(u, password, now);
    assert u in db.users;
    LoginStepKeepsRowOk(u, password, now);
    TableReplace(db.users, UserKey, db.nextUserId, UserRowOk, k, step.0);
    db.users := db.users[k := step.0];
    result := Some(step.1);
    if step.1 == LoggedIn {
      session := Some(u.id);
    }
  }

  // ----- DangKy -------------------------------------------------------------

  /** The fields of the registration form. */
  datatype Registration = Registration(userName: string, password: string, fullName: Option<string>,
                                       email: Option<string>, phone: Option<string>)

  datatype RegisterResult = FormShown | NameTaken | EmailTaken | Registered(id: int)

  /** No two accounts share a user name. */
  predicate UniqueNames(users: seq<User>)
  {
    forall i, j :: 0 <= i < j < |users| ==> users[i].userName != users[j].userName
  }

  /**
   * POST DangKy: the name is checked first, then the e-mail (a missing
   * e-mail matches any account without one); a new account starts with no
   * failures and is signed in.
   */
  method Register(db: Db, form: Registration, formValid: bool) returns (result: RegisterResult, session: Option<int>)
    requires db.Valid()
    modifies db`users, db`nextUserId
    ensures db.Valid()
    ensures !formValid ==> result == FormShown && session.None? && unchanged(db)
    ensures formValid && (exists u :: u in old(db.users) && u.userName == form.userName) ==>
      result == NameTaken && session.None? && unchanged(db)
    ensures (formValid && (forall u :: u in old(db.users) ==> u.userName != form.userName) &&
      (exists u :: u in old(db.users) && u.email == form.email)) ==>
      result == EmailTaken && session.None? && unchanged(db)
    ensures formValid && (forall u :: u in old(db.users) ==> u.userName != form.userName && u.email != form.email) ==>
      var id := old(db.nextUserId);
      result == Registered(id) && session == Some(id) &&
      db.users == old(db.users) + [User(id, form.userName, form.password, form.fullName, form.email, form.phone, None, None, Some(0), None)]
    ensures UniqueNames(old(db.users)) ==> UniqueNames(db.users)
  {
    session := None;
    if !formValid {
      return FormShown, None;
    }
    if exists i :: 0 <= i < |db.users| && db.users[i].userName == form.userName {
      return NameTaken, None;
    }
    if exists i :: 0 <= i < |db.users| && db.users[i].email == form.email {
      return EmailTaken, None;
    }
    var id := db.nextUserId;
    var u := User(id, form.userName, form.password, form.fullName, form.email, form.phone, None, None, Some(0), None);
    TableAppend(db.users, UserKey, db.nextUserId, UserRowOk, u);
    db.users := db.users + [u];
    db.nextUserId := db.nextUserId + 1;
    result, session := Registered(id), Some(id);
  }

  /** With unique names, the row sign-in works on is the only account with that name. */
  lemma UniqueNameFindsOnlyAccount(users: seq<User>, name: string, j: nat)
    requires UniqueNames(users) && j < |users| && users[j].userName == name
    ensures UserNamed(users, name) == Some(j)
  {
  }

  // ----- DoiMatKhau and CaiDat ------------------------------------------------

  /** DoiMatKhau on one user: the new password only when the current one matches exactly. */
  function ChangedPassword(u: User, current: string, newPassword: string): (r: Option<User>)
    ensures r.Some? <==> u.password == current
    ensures r.Some? ==> r.value == u.(password := newPassword)
  {
    if u.password != current then None else Some(u.(password := newPassword))
  }

  /** POST DoiMatKhau. */
  method ChangePassword(db: Db, session: Option<int>, current: string, newPassword: string, formValid: bool)
    returns (outcome: Outcome)
    requires db.Valid()
    modifies db`users
    ensures db.Valid()
    ensures session.None? ==> outcome == LoginRequired && unchanged(db)
    ensures session.Some? && !formValid ==> outcome == FormRejected && unchanged(db)
    ensures session.Some? && formValid && IndexOfKey(old(db.users), UserKey, session.value).None? ==>
      outcome == NotFound && unchanged(db)
    ensures session.Some? && formValid && IndexOfKey(old(db.users), UserKey, session.value).Some? ==>
      var k := IndexOfKey(old(db.users), UserKey, session.value).value;
      var r := ChangedPassword(old(db.users)[k], current, newPassword);
      if r.None? then outcome == FormRejected && unchanged(db)
      else outcome == Saved && db.users == old(db.users)[k := r.value]
  {
    if session.None? {
      return LoginRequired;
    }
    if !formValid {
      return FormRejected;
    }
    var found := IndexOfKey(db.users, UserKey, session.value);
    if found.None? {
      return NotFound;
    }
    var k := found.value;
    var r := ChangedPassword(db.users[k], current, newPassword);
    if r.None? {
      return FormRejected;
    }
    assert db.users[k] in db.users;
    TableReplace(db.users, UserKey, db.nextUserId, UserRowOk, k, r.value);
    db.users := db.users[k := r.value];
    outcome := Saved;
  }

  /** The settings form: profile fields and an optional password change. */
  datatype SettingsForm = SettingsForm(fullName: Option<string>, email: Option<string>, phone: Option<string>,
                                       address: Option<string>, currentPassword: Option<string>, newPassword: Option<string>)

  /**
   * CaiDat on one user: nothing is saved when the form is invalid, or when a
   * new password is asked for without the right current one; otherwise the
   * profile fields are copied and the password replaced if a new one is given.
   */
  function AppliedSettings(u: User, form: SettingsForm, formValid: bool): (r: Option<User>)
    ensures r.Some? ==> r.value.id == u.id && r.value.userName == u.userName && r.value.failedLogins == u.failedLogins
    ensures r.Some? ==> (r.value.fullName == form.fullName && r.value.email == form.email &&
      r.value.phone == form.phone && r.value.address == form.address)
    ensures r.Some? && r.value.password != u.password ==>
      form.newPassword.Some? && r.value.password == form.newPassword.value && form.currentPassword == Some(u.password)
    ensures r.None? <==> (!formValid ||
      (!NullOrEmpty(form.newPassword) && (NullOrEmpty(form.currentPassword) || form.currentPassword != Some(u.password))))
  {
    var profile := u.(fullName := form.fullName, email := form.email, phone := form.phone, address := form.address);
    if !NullOrEmpty(form.newPassword) then
      if NullOrEmpty(form.currentPassword) || form.currentPassword.value != u.password then None
      else if formValid then Some(profile.(password := form.newPassword.value))
      else None
    else if formValid then Some(profile)
    else None
  }

  /** POST CaiDat. */
  method SaveSettings(db: Db, session: Option<int>, form: SettingsForm, formValid: bool) returns (outcome: Outcome)
    requires db.Valid()
    modifies db`users
    ensures db.Valid()
    ensures session.None? ==> outcome == LoginRequired && unchanged(db)
    ensures session.Some? && IndexOfKey(old(db.users), UserKey, session.value).None? ==>
      outcome == NotFound && unchanged(db)
    ensures session.Some? && IndexOfKey(old(db.users), UserKey, session.value).Some? ==>
      var k := IndexOfKey(old(db.users), UserKey, session.value).value;
      var r := AppliedSettings(old(db.users)[k], form, formValid);
      if r.None? then outcome == FormRejected && unchanged(db)
      else outcome == Saved && db.users == old(db.users)[k := r.value]
  {
    if session.None? {
      return LoginRequired;
    }
    var found := IndexOfKey(db.users, UserKey, session.value);
    if found.None? {
      return NotFound;
    }
    var k := found.value;
    var r := AppliedSettings(db.users[k], form, formValid);
    if r.None? {
      return FormRejected;
    }
    assert db.users[k] in db.users;
    TableReplace(db.users, UserKey, db.nextUserId, UserRowOk, k, r.value);
    db.users := db.users[k := r.value];
    outcome := Saved;
  }
}
