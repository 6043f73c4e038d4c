/** The flat-file user store of src/services/user-service.ts: a JSON file
    holding a list of users, read whole on every call and rewritten whole on
    signup. Email lookup ignores letter case; login compares the password
    exactly and hands back the user without it. */
module UserService {
  import opened Common
  import opened Text

  datatype User = User(id: string, fullname: string, email: string, password: string)

  /** What signup submits: a user without an id. */
  datatype NewUser = NewUser(fullname: string, email: string, password: string)

  /** What login hands back: a user with the password field removed. */
  datatype PublicUser = PublicUser(id: string, fullname: string, email: string)

  /** `{ success, message }` as `addUser` reports it. */
  datatype SignupResult = SignupResult(success: bool, message: string)

  const ReadFailure := "Could not retrieve user data."
  const DuplicateEmail := "An account with this email already exists."
  const UserCreated := "User created successfully."

  predicate HasEmail(u: User, email: string)
  {
    EqualIgnoringCase(u.email, email)
  }

  /** No two stored users have emails that are equal ignoring case. */
  ghost predicate DistinctEmails(users: seq<User>)
  {
    forall i, j :: 0 <= i < j < |users| ==> !EqualIgnoringCase(users[i].email, users[j].email)
  }

  /** The test `findUserByEmail` passes to `find`, as a function value. */
  function EmailMatcher(email: string): User -> bool
  {
    u => HasEmail(u, email)
  }

  /** `findUserByEmail` on the list `getUsers` returned. */
  function FindUserByEmail(users: seq<User>, email: string): (r: Option<User>)
    ensures r.None? <==> forall i :: 0 <= i < |users| ==> !HasEmail(users[i], email)
    ensures r.Some? ==> exists i :: IsFirst(users, EmailMatcher(email), i) && users[i] == r.value
  {
    Find(users, EmailMatcher(email))
  }

  function WithoutPassword(u: User): PublicUser
  {
    PublicUser(u.id, u.fullname, u.email)
  }

  /** The check `loginUser` makes on the list `getUsers` returned. */
  function Authenticate(users: seq<User>, email: string, password: string): (r: Option<PublicUser>)
    ensures r.Some? <==> exists i :: IsFirst(users, EmailMatcher(email), i) && users[i].password == password
    ensures r.Some? ==> exists i :: IsFirst(users, EmailMatcher(email), i) && r.value == WithoutPassword(users[i])
  {
    var found := FindUserByEmail(users, email);
    if found.Some? && found.value.password == password then
      Some(WithoutPassword(found.value))
    else
      assert forall i :: IsFirst(users, EmailMatcher(email), i) ==> users[i] == found.value by {
        forall i | IsFirst(users, EmailMatcher(email), i) ensures users[i] == found.value {
          var k :| IsFirst(users, EmailMatcher(email), k) && users[k] == found.value;
          FirstIsUnique(users, EmailMatcher(email), i, k);
        }
      }
      None
  }

  /** With distinct emails, login succeeds exactly when some stored user has
      the email (ignoring case) and exactly the password. */
  lemma {:induction false} AuthenticateWithDistinctEmails(users: seq<User>, email: string, password: string)
    requires DistinctEmails(users)
    ensures Authenticate(users, email, password).Some? <==>
            exists i :: 0 <= i < |users| && HasEmail(users[i], email) && users[i].password == password
  {
    if i :| 0 <= i < |users| && HasEmail(users[i], email) && users[i].password == password {
      forall j | 0 <= j < i ensures !HasEmail(users[j], email) {
        assert !EqualIgnoringCase(users[j].email, users[i].email);
      }
      assert IsFirst(users, EmailMatcher(email), i);
    }
  }

  /** Appending a user whose email is not yet taken keeps emails distinct. */
  lemma {:induction false} SignupKeepsEmailsDistinct(users: seq<User>, u: User)
    requires DistinctEmails(users)
    requires FindUserByEmail(users, u.email).None?
    ensures DistinctEmails(users + [u])
  {
    var all := users + [u];
    forall i, j | 0 <= i < j < |all| ensures !EqualIgnoringCase(all[i].email, all[j].email) {
      if j == |users| {
        assert !HasEmail(users[i], u.email);
      }
    }
  }

  /** After signup the new user logs in with the submitted password, under
      the email in any letter case. */
  lemma {:induction false} SignupThenLogin(users: seq<User>, u: User, email: string)
    requires FindUserByEmail(users, u.email).None?
    requires EqualIgnoringCase(email, u.email)
    ensures Authenticate(users + [u], email, u.password) == Some(WithoutPassword(u))
  {
    var all := users + [u];
    forall j | 0 <= j < |users| ensures !HasEmail(all[j], email) {
      assert !HasEmail(users[j], u.email);
    }
    assert IsFirst(all, EmailMatcher(email), |users|);
    var r := Authenticate(all, email, u.password);
    assert r.Some?;
    var k :| IsFirst(all, EmailMatcher(email), k) && r.value == WithoutPassword(all[k]);
    FirstIsUnique(all, EmailMatcher(email), k, |users|);
  }

  /** Signup does not change the outcome of a login under any other email. */
  lemma {:induction false} SignupLeavesOtherLoginsAlone(users: seq<User>, u: User, email: string, password: string)
    requires !EqualIgnoringCase(email, u.email)
    ensures Authenticate(users + [u], email, password) == Authenticate(users, email, password)
  {
    var all := users + [u];
    assert !HasEmail(all[|users|], email);
    forall i ensures IsFirst(all, EmailMatcher(email), i) <==> IsFirst(users, EmailMatcher(email), i) {
      if 0 <= i < |users| {
        assert forall j :: 0 <= j < i ==> all[j] == users[j];
      }
    }
    var r, r' := Authenticate(all, email, password), Authenticate(users, email, password);
    if r.Some? {
      var k :| IsFirst(all, EmailMatcher(email), k) && r.value == WithoutPassword(all[k]);
      var k' :| IsFirst(users, EmailMatcher(email), k') && r'.value == WithoutPassword(users[k']);
      FirstIsUnique(users, EmailMatcher(email), k, k');
    }
  }

  /** The users file together with the operations on it. */
  class UserStore {
    var disk: Disk<User>

    /** The invariant signup maintains: stored emails are distinct ignoring case. */
    ghost predicate Valid()
      reads this
    {
      DistinctEmails(Records(disk))
    }

    constructor (disk: Disk<User>)
      ensures this.disk == disk
    {
      this.disk := disk;
    }

    /** `getUsers`: a missing file reads as no users; any other failure
        to read or parse throws. */
    method GetUsers() returns (r: Result<seq<User>>)
      ensures disk.Unreadable? <==> r.Err?
      ensures r.Err? ==> r.error == ReadFailure
      ensures r.Ok? ==> r.value == Records(disk)
      ensures disk.Missing? ==> r == Ok([])
    {
      match disk
      case Missing => r := Ok([]);
      case Unreadable => r := Err(ReadFailure);
      case Stored(users) => r := Ok(users);
    }

    /** `addUser`: refuse an email already present in any letter case,
        otherwise append the user with the given id and rewrite the file.
        `writeError` is the error `fs.writeFile` throws, if it does. */
    method AddUser(newUser: NewUser, id: string, writeError: Option<string>) returns (r: Result<SignupResult>)
      modifies this
      ensures old(disk).Unreadable? ==> r == Err(ReadFailure) && disk == old(disk)
      ensures !old(disk).Unreadable? && FindUserByEmail(Records(old(disk)), newUser.email).Some? ==>
                r == Ok(SignupResult(false, DuplicateEmail)) && disk == old(disk)
      ensures !old(disk).Unreadable? && FindUserByEmail(Records(old(disk)), newUser.email).None? ==>
                if writeError.Some? then
                  r == Err(writeError.value) && disk == old(disk)
                else
                  r == Ok(SignupResult(true, UserCreated)) &&
                  disk == Stored(Records(old(disk)) + [User(id, newUser.fullname, newUser.email, newUser.password)])
      ensures old(Valid()) ==> Valid()
    {
      var read := GetUsers();
      if read.Err? {
        return Err(read.error);
      }
      var users := read.value;
      var existing := FindUserByEmail(users, newUser.email);
      if existing.Some? {
        return Ok(SignupResult(false, DuplicateEmail));
      }
      var added := User(id, newUser.fullname, newUser.email, newUser.password);
      if Valid() {
        SignupKeepsEmailsDistinct(users, added);
      }
      users := users + [added];
      if writeError.Some? {
        return Err(writeError.value);
      }
      disk := Stored(users);
      r := Ok(SignupResult(true, UserCreated));
    }

    /** `loginUser`: the stored user minus its password when the email
        matches ignoring case and the password matches exactly, otherwise
        none; only an unreadable file throws. The store is not changed. */
    method LoginUser(email: string, password: string) returns (r: Result<Option<PublicUser>>)
      ensures disk.Unreadable? <==> r.Err?
      ensures r.Err? ==> r.error == ReadFailure
      ensures r.Ok? && r.value.Some? ==>
                exists i :: IsFirst(Records(disk), EmailMatcher(email), i) &&
                            Records(disk)[i].password == password &&
                            r.value.value == WithoutPassword(Records(disk)[i])
      ensures r.Ok? && r.value.None? ==>
                forall i :: IsFirst(Records(disk), EmailMatcher(email), i) ==> Records(disk)[i].password != password
      ensures Valid() && r.Ok? ==>
                (r.value.Some? <==> exists i :: 0 <= i < |Records(disk)| && HasEmail(Records(disk)[i], email) &&
                                                Records(disk)[i].password == password)
    {
      var read := GetUsers();
      if read.Err? {
        return Err(read.error);
      }
      if Valid() {
        AuthenticateWithDistinctEmails(read.value, email, password);
      }
      r := Ok(Authenticate(read.value, email, password));
    }
  }
}
