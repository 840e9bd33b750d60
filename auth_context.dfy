/** Accounts and the signed-in session. The provider keeps the registered
    users and the current session; signing up appends a user and signs it
    in, logging in checks the stored password, and a profile update rewrites
    both the session and the stored user. Clock readings that make up a new
    user's id and creation time are passed in. */
module AuthContext {
  import opened Seqs
  import opened Helpers

  /** A registered user as stored; the password is kept as typed. */
  datatype UserRecord = UserRecord(id: string, name: string, email: string, password: string, createdAt: string)

  /** The signed-in user: a stored user without password and creation time. */
  datatype Session = Session(id: string, name: string, email: string)

  /** What `signup`, `login` and `updateProfile` return. */
  datatype AuthResult = AuthResult(success: bool, message: string)

  /** The keys of an `updateProfile` argument the model covers. */
  datatype ProfileUpdate = ProfileUpdate(name: Option<string>, email: Option<string>)

  /** The verdict of the login checks. */
  datatype LoginOutcome = Rejected(message: string) | Accepted(session: Session)

  function UserEmail(u: UserRecord): string
  {
    u.email
  }

  /** No two stored users share an email. */
  ghost predicate UniqueEmails(users: seq<UserRecord>)
  {
    DistinctBy(users, UserEmail)
  }

  predicate Registered(users: seq<UserRecord>, email: string)
  {
    exists i | 0 <= i < |users| :: users[i].email == email
  }

  function SessionOf(u: UserRecord): Session
  {
    Session(u.id, u.name, u.email)
  }

  /** The user `signup` creates from a clock reading `stamp`. */
  function NewUser(name: string, email: string, password: string, stamp: string, createdAt: string): UserRecord
  {
    UserRecord("user-" + stamp, name, email, password, createdAt)
  }

  /** The checks of `signup` in order: the first failing one's message, or
      None when the account may be created. */
  function SignupRejection(users: seq<UserRecord>, email: string, password: string): (r: Option<string>)
    ensures r.None? <==> ValidateEmail(email) && ValidatePassword(password).valid && !Registered(users, email)
    ensures !ValidateEmail(email) ==> r == Some("Invalid email address")
    ensures ValidateEmail(email) && !ValidatePassword(password).valid ==> r == Some(ValidatePassword(password).message)
    ensures ValidateEmail(email) && ValidatePassword(password).valid && Registered(users, email) ==>
      r == Some("User already exists with this email")
  {
    if !ValidateEmail(email) then Some("Invalid email address")
    else
      var check := ValidatePassword(password);
      if !check.valid then Some(check.message)
      else if Find(users, (u: UserRecord) => u.email == email).Some? then Some("User already exists with this email")
      else None
  }

  /** The checks of `login` in order. */
  function LoginCheck(users: seq<UserRecord>, email: string, password: string): (r: LoginOutcome)
    ensures !ValidateEmail(email) ==> r == Rejected("Invalid email address")
    ensures ValidateEmail(email) && !Registered(users, email) ==> r == Rejected("No account found with this email")
    ensures r.Accepted? ==>
      ValidateEmail(email) &&
      exists i | 0 <= i < |users| :: users[i].email == email && users[i].password == password && r.session == SessionOf(users[i])
    ensures ValidateEmail(email) ==>
      forall i | 0 <= i < |users| && users[i].email == email && (forall j | 0 <= j < i :: users[j].email != email) ::
        r == if users[i].password == password then Accepted(SessionOf(users[i])) else Rejected("Incorrect password")
    ensures UniqueEmails(users) && ValidateEmail(email) ==>
      forall i | 0 <= i < |users| && users[i].email == email ::
        r == if users[i].password == password then Accepted(SessionOf(users[i])) else Rejected("Incorrect password")
  {
    if !ValidateEmail(email) then Rejected("Invalid email address")
    else
      match Find(users, (u: UserRecord) => u.email == email)
      case None => Rejected("No account found with this email")
      case Some(found) =>
        if found.password != password then Rejected("Incorrect password")
        else Accepted(SessionOf(found))
  }

  function UpdatedSession(s: Session, updates: ProfileUpdate): Session
  {
    s.(name := if updates.name.Some? then updates.name.value else s.name,
       email := if updates.email.Some? then updates.email.value else s.email)
  }

  function UpdatedRecord(u: UserRecord, updates: ProfileUpdate): UserRecord
  {
    u.(name := if updates.name.Some? then updates.name.value else u.name,
       email := if updates.email.Some? then updates.email.value else u.email)
  }

  /** The stored users after `updateProfile` for the session with `id`: the
      users with that id get the updates, the others are kept. */
  function UsersAfterUpdate(users: seq<UserRecord>, id: string, updates: ProfileUpdate): (r: seq<UserRecord>)
    ensures |r| == |users|
    ensures forall i | 0 <= i < |users| :: r[i].id == users[i].id && r[i].password == users[i].password
    ensures forall i | 0 <= i < |users| && users[i].id != id :: r[i] == users[i]
    ensures forall i | 0 <= i < |users| && users[i].id == id :: r[i] == UpdatedRecord(users[i], updates)
  {
    Map(users, (u: UserRecord) => if u.id == id then UpdatedRecord(u, updates) else u)
  }

  /** A stored user whose session is `s` still agrees with the session after
      the same updates are applied to both. */
  lemma UpdateKeepsSessionInStore(users: seq<UserRecord>, s: Session, updates: ProfileUpdate, i: int)
    requires 0 <= i < |users| && SessionOf(users[i]) == s
    ensures var r := UsersAfterUpdate(users, s.id, updates);
      SessionOf(r[i]) == UpdatedSession(s, updates) && r[i].password == users[i].password
  {
  }

  /** Creating an account whose checks pass keeps stored emails unique. */
  lemma SignupKeepsEmailsUnique(users: seq<UserRecord>, name: string, email: string, password: string, stamp: string, createdAt: string)
    requires UniqueEmails(users)
    requires SignupRejection(users, email, password).None?
    ensures UniqueEmails(users + [NewUser(name, email, password, stamp, createdAt)])
  {
    var r := users + [NewUser(name, email, password, stamp, createdAt)];
    forall i, j | 0 <= i < j < |r| ensures r[i].email != r[j].email {
      if j == |users| {
        assert r[i] == users[i];
      } else {
        assert r[i] == users[i] && r[j] == users[j];
      }
    }
  }

  /** Signing up and then logging in with the same email and password
      yields the session signup created. */
  lemma LoginAfterSignup(users: seq<UserRecord>, name: string, email: string, password: string, stamp: string, createdAt: string)
    requires SignupRejection(users, email, password).None?
    ensures LoginCheck(users + [NewUser(name, email, password, stamp, createdAt)], email, password)
         == Accepted(Session("user-" + stamp, name, email))
  {
    var rec := NewUser(name, email, password, stamp, createdAt);
    FindIndexAppend(users, rec, (u: UserRecord) => u.email == email);
  }

  /** `updateProfile` does not check the new email: two stored users can end
      up with the same one. */
  lemma UpdateCanDuplicateEmail()
    ensures var users := [UserRecord("user-1", "A", "a@x.io", "Passw0rd", "t1"), UserRecord("user-2", "B", "b@x.io", "Passw0rd", "t2")];
      UniqueEmails(users) && !UniqueEmails(UsersAfterUpdate(users, "user-1", ProfileUpdate(None, Some("b@x.io"))))
  {
    var users := [UserRecord("user-1", "A", "a@x.io", "Passw0rd", "t1"), UserRecord("user-2", "B", "b@x.io", "Passw0rd", "t2")];
    var r := UsersAfterUpdate(users, "user-1", ProfileUpdate(None, Some("b@x.io")));
    assert users[0].email != users[1].email;
    assert r[0].email == r[1].email;
  }

  /** The provider's state: the session (null when signed out) and the
      registered users, both as stored between sessions. */
  class IdentityStore {
    var user: Option<Session>
    var users: seq<UserRecord>

    ghost predicate Valid()
      reads this
    {
      UniqueEmails(users)
    }

    constructor (storedUser: Option<Session>, storedUsers: seq<UserRecord>)
      ensures user == storedUser && users == storedUsers
    {
      user := storedUser;
      users := storedUsers;
    }

    /** `isAuthenticated` once its effect has caught up with `user`. */
    function IsAuthenticated(): bool
      reads this
    {
      user.Some?
    }

    /** `signup`: the clock gives `stamp` for the id and `createdAt`. */
    method Signup(name: string, email: string, password: string, stamp: string, createdAt: string) returns (r: AuthResult)
      modifies this
      ensures r.success <==> SignupRejection(old(users), email, password).None?
      ensures !r.success ==>
        r.message == SignupRejection(old(users), email, password).value && users == old(users) && user == old(user)
      ensures r.success ==>
        && r.message == "Account created successfully"
        && users == old(users) + [NewUser(name, email, password, stamp, createdAt)]
        && user == Some(Session("user-" + stamp, name, email))
      ensures r.success ==> IsAuthenticated()
      ensures !r.success ==> IsAuthenticated() == old(IsAuthenticated())
      ensures old(Valid()) ==> Valid()
    {
      if !ValidateEmail(email) {
        return AuthResult(false, "Invalid email address");
      }
      var check := ValidatePassword(password);
      if !check.valid {
        return AuthResult(false, check.message);
      }
      var existing := Find(users, (u: UserRecord) => u.email == email);
      if existing.Some? {
        return AuthResult(false, "User already exists with this email");
      }
      var newUser := NewUser(name, email, password, stamp, createdAt);
      if UniqueEmails(users) {
        SignupKeepsEmailsUnique(users, name, email, password, stamp, createdAt);
      }
      users := users + [newUser];
      user := Some(SessionOf(newUser));
      return AuthResult(true, "Account created successfully");
    }

    method Login(email: string, password: string) returns (r: AuthResult)
      modifies this
      ensures users == old(users)
      ensures LoginCheck(users, email, password).Rejected? ==>
        r == AuthResult(false, LoginCheck(users, email, password).message) && user == old(user)
      ensures LoginCheck(users, email, password).Accepted? ==>
        r == AuthResult(true, "Login successful") && user == Some(LoginCheck(users, email, password).session)
      ensures r.success ==> IsAuthenticated()
      ensures !r.success ==> IsAuthenticated() == old(IsAuthenticated())
    {
      match LoginCheck(users, email, password)
      case Rejected(message) =>
        r := AuthResult(false, message);
      case Accepted(session) =>
        user := Some(session);
        r := AuthResult(true, "Login successful");
    }

    method Logout()
      modifies this
      ensures user == None && users == old(users)
      ensures !IsAuthenticated()
    {
      user := None;
    }

    /** `updateProfile`: signed out, nothing changes; signed in, the session
        and every stored user with the session's id get the updates. */
    method UpdateProfile(updates: ProfileUpdate) returns (r: AuthResult)
      modifies this
      ensures old(user).None? ==>
        r == AuthResult(false, "Not authenticated") && user == old(user) && users == old(users)
      ensures old(user).Some? ==>
        && r == AuthResult(true, "Profile updated successfully")
        && user == Some(UpdatedSession(old(user).value, updates))
        && users == UsersAfterUpdate(old(users), old(user).value.id, updates)
      ensures IsAuthenticated() == old(IsAuthenticated())
    {
      if user.None? {
        return AuthResult(false, "Not authenticated");
      }
      var current := user.value;
      user := Some(UpdatedSession(current, updates));
      users := UsersAfterUpdate(users, current.id, updates);
      return AuthResult(true, "Profile updated successfully");
    }
  }
}
