/** The authentication hook (`useAuth`): credential lookup over the mock
    users, sign-up with duplicate-email rejection, password stripping, and
    the profile merge, plus the hook's own `loading` / `error` state. */
module UseAuth {
  import opened Wrappers
  import opened Js
  import opened Text
  import opened AuthSlice

  const DefaultPicture: string := "https://images.unsplash.com/photo-1472099645785-5658abf4ff4e?ixlib=rb-1.2.1&ixid=eyJhcHBfaWQiOjEyMDd9&auto=format&fit=facearea&facepad=2&w=256&h=256&q=80"

  const InvalidCredentials: string := "Invalid email or password"

  const DuplicateEmail: string := "User with this email already exists"

  const MockUsers: seq<Obj> := [
    map["id" := Str("1"), "email" := Str("john@example.com"), "password" := Str("password123"),
        "name" := Str("John Doe"), "role" := Str("patient"),
        "profilePicture" := Str(DefaultPicture)],
    map["id" := Str("2"), "email" := Str("jane@example.com"), "password" := Str("password123"),
        "name" := Str("Jane Smith"), "role" := Str("doctor"), "specialty" := Str("Cardiology"),
        "profilePicture" := Str("https://images.unsplash.com/photo-1494790108377-be9c29b29330?ixlib=rb-1.2.1&ixid=eyJhcHBfaWQiOjEyMDd9&auto=format&fit=facearea&facepad=2&w=256&h=256&q=80")],
    map["id" := Str("3"), "email" := Str("admin@example.com"), "password" := Str("admin123"),
        "name" := Str("Admin User"), "role" := Str("admin"),
        "profilePicture" := Str("https://images.unsplash.com/photo-1519244703995-f4e0f30006d5?ixlib=rb-1.2.1&ixid=eyJhcHBfaWQiOjEyMDd9&auto=format&fit=facearea&facepad=2&w=256&h=256&q=80")]
  ]

  /** `u.email === email && u.password === password`. */
  predicate Credentials(u: Obj, email: string, password: string) {
    Get(u, "email") == Str(email) && Get(u, "password") == Str(password)
  }

  /** `users[i]` is the first user with these credentials. */
  predicate FirstMatch(users: seq<Obj>, email: string, password: string, i: int) {
    0 <= i < |users| && Credentials(users[i], email, password) &&
    forall j :: 0 <= j < i ==> !Credentials(users[j], email, password)
  }

  /** `users.find(...)` with the credential test. */
  function FindUser(users: seq<Obj>, email: string, password: string): (r: Option<Obj>)
    ensures r.None? <==> forall i :: 0 <= i < |users| ==> !Credentials(users[i], email, password)
    ensures r.Some? ==> exists i :: FirstMatch(users, email, password, i) && users[i] == r.value
  {
    if users == [] then None
    else if Credentials(users[0], email, password) then Some(users[0])
    else
      var r := FindUser(users[1..], email, password);
      assert forall i :: 0 < i < |users| ==> users[i] == users[1..][i - 1];
      r
  }

  /** The result of `signIn(email, password)`: the matched user without
      its password, or the credentials error. */
  function SignInResult(users: seq<Obj>, email: string, password: string): Result<Obj, string> {
    match FindUser(users, email, password)
    case None => Failure(InvalidCredentials)
    case Some(u) => Success(Omit(u, "password"))
  }

  /** Sign-in succeeds exactly when some user has both the email and the
      password; the returned user then is that user with every field but
      `password`. */
  lemma SignInSpec(users: seq<Obj>, email: string, password: string)
    ensures SignInResult(users, email, password).Success? <==>
      exists i :: 0 <= i < |users| && Credentials(users[i], email, password)
    ensures SignInResult(users, email, password).Failure? ==>
      SignInResult(users, email, password).error == InvalidCredentials
    ensures SignInResult(users, email, password).Success? ==>
      var u := SignInResult(users, email, password).value;
      "password" !in u &&
      exists i :: 0 <= i < |users| && Credentials(users[i], email, password) &&
        u.Keys == users[i].Keys - {"password"} && forall k :: k in u ==> u[k] == users[i][k]
  {
  }

  /** The demo patient signs in with its own password. */
  lemma MockSignInPatient()
    ensures SignInResult(MockUsers, "john@example.com", "password123").Success?
  {
    assert Credentials(MockUsers[0], "john@example.com", "password123");
  }

  /** The demo administrator signs in with its own password. */
  lemma MockSignInAdmin()
    ensures SignInResult(MockUsers, "admin@example.com", "admin123").Success?
  {
    assert Credentials(MockUsers[2], "admin@example.com", "admin123");
  }

  /** Another account's password does not open the administrator's account. */
  lemma MockSignInWrongPassword()
    ensures SignInResult(MockUsers, "admin@example.com", "password123") == Failure(InvalidCredentials)
  {
    assert Get(MockUsers[0], "email") == Str("john@example.com");
    assert Get(MockUsers[1], "email") == Str("jane@example.com");
    assert Get(MockUsers[2], "password") == Str("admin123");
  }

  /** `users.some(u => u.email === userData.email)`. */
  predicate EmailTaken(users: seq<Obj>, userData: Obj) {
    exists i :: 0 <= i < |users| && Get(users[i], "email") == Get(userData, "email")
  }

  /** `userData.role || 'patient'`. */
  function RoleOf(userData: Obj): (r: Value)
    ensures Truthy(Get(userData, "role")) ==> r == Get(userData, "role")
    ensures !Truthy(Get(userData, "role")) ==> r == Str("patient")
  {
    if Truthy(Get(userData, "role")) then Get(userData, "role") else Str("patient")
  }

  /** `newUser` without its password: the default id, then the caller's
      fields, then the role and the picture, which always win. */
  function NewUser(defaultId: Value, userData: Obj): Obj {
    Omit(Spread(Spread(map["id" := defaultId], userData),
                map["role" := RoleOf(userData), "profilePicture" := Str(DefaultPicture)]),
         "password")
  }

  /** `String(users.length + 1)`. */
  function NextId(users: seq<Obj>): Value {
    Str(NatToString(|users| + 1))
  }

  function SignUpResult(users: seq<Obj>, userData: Obj): Result<Obj, string> {
    if EmailTaken(users, userData) then Failure(DuplicateEmail)
    else Success(NewUser(NextId(users), userData))
  }

  /** Sign-up fails exactly for an email already in use. */
  lemma SignUpOutcome(users: seq<Obj>, userData: Obj)
    ensures SignUpResult(users, userData).Failure? <==> EmailTaken(users, userData)
    ensures SignUpResult(users, userData).Failure? ==> SignUpResult(users, userData).error == DuplicateEmail
    ensures SignUpResult(users, userData).Success? ==> SignUpResult(users, userData).value == NewUser(NextId(users), userData)
  {
  }

  /** The new user has no `password`, the caller's role or `patient`, the
      fixed picture, and the caller's id if one was given, else the default. */
  lemma NewUserFixedFields(defaultId: Value, userData: Obj)
    ensures var u := NewUser(defaultId, userData);
      && "password" !in u
      && u["role"] == RoleOf(userData)
      && u["profilePicture"] == Str(DefaultPicture)
      && u["id"] == (if "id" in userData then userData["id"] else defaultId)
  {
    var base := Spread(map["id" := defaultId], userData);
    assert "id" in userData ==> base["id"] == userData["id"];
  }

  /** Every other field of the caller's data is kept as given, and nothing
      else is added. */
  lemma NewUserKeepsFields(defaultId: Value, userData: Obj)
    ensures var u := NewUser(defaultId, userData);
      && u.Keys == (userData.Keys + {"id", "role", "profilePicture"}) - {"password"}
      && forall k :: k in userData && k !in {"id", "role", "profilePicture", "password"} ==> u[k] == userData[k]
  {
  }

  /** The demo accounts' emails are taken, and any other email is free:
      the default id given to a new user is `"4"`. */
  lemma MockSignUps(userData: Obj)
    ensures Get(userData, "email") == Str("jane@example.com") ==> SignUpResult(MockUsers, userData) == Failure(DuplicateEmail)
    ensures Get(userData, "email") == Str("new@example.com") && "id" !in userData ==>
      SignUpResult(MockUsers, userData).Success? && NextId(MockUsers) == Str("4")
  {
    if Get(userData, "email") == Str("jane@example.com") {
      assert Get(MockUsers[1], "email") == Get(userData, "email");
    }
    if Get(userData, "email") == Str("new@example.com") {
      forall i | 0 <= i < |MockUsers| ensures Get(MockUsers[i], "email") != Get(userData, "email") {
        assert Get(MockUsers[i], "email") in {Str("john@example.com"), Str("jane@example.com"), Str("admin@example.com")};
      }
      assert NatToString(4) == "4";
    }
  }

  /** The hook's `loading` and `error` state, over the store it dispatches to. */
  class AuthHook {
    const store: AuthStore
    var loading: bool
    var error: Option<string>

    constructor (store: AuthStore)
      ensures this.store == store && !loading && error == None
    {
      this.store := store;
      loading := false;
      error := None;
    }

    /** `signIn(email, password)`: on success the store is signed in with
        the stripped user; on failure the hook keeps the error. Either way
        `loading` ends false. */
    method SignIn(email: string, password: string) returns (r: Result<Obj, string>)
      modifies this`loading, this`error, store`isAuthenticated, store`user, store`error
      ensures r == SignInResult(MockUsers, email, password)
      ensures !loading
      ensures r.Success? ==> error == None && store.isAuthenticated && store.user == Some(r.value) && store.error == None
      ensures r.Failure? ==> error == Some(r.error) && unchanged(store)
    {
      loading := true;
      error := None;
      var foundUser := FindUser(MockUsers, email, password);
      if foundUser.Some? {
        var userWithoutPassword := Omit(foundUser.value, "password");
        store.Login(Some(userWithoutPassword));
        r := Success(userWithoutPassword);
      } else {
        error := Some(InvalidCredentials);
        r := Failure(InvalidCredentials);
      }
      loading := false;
    }

    /** `signUp(userData)`: nothing is stored and nothing is dispatched, so
        the same fresh email can sign up again. */
    method SignUp(userData: Obj) returns (r: Result<Obj, string>)
      modifies this`loading, this`error
      ensures r == SignUpResult(MockUsers, userData)
      ensures !loading
      ensures error == (if r.Failure? then Some(r.error) else None)
    {
      loading := true;
      error := None;
      if EmailTaken(MockUsers, userData) {
        error := Some(DuplicateEmail);
        r := Failure(DuplicateEmail);
      } else {
        var userWithoutPassword := NewUser(NextId(MockUsers), userData);
        r := Success(userWithoutPassword);
      }
      loading := false;
    }

    /** `signOut()`: the store is signed out. */
    method SignOut()
      modifies store`user, store`token, store`isAuthenticated, store`error
      ensures store.user == None && store.token == None && !store.isAuthenticated && store.error == None
    {
      store.Logout();
    }

    /** `updateProfile(profileData)`: the current user merged with the new
        fields, which win; the store ends holding exactly the returned user
        (`updateUser` merges it over itself, which changes nothing). */
    method UpdateProfile(profileData: Obj) returns (r: Result<Obj, string>)
      modifies this`loading, this`error, store`user
      ensures r == Success(MergeUser(old(store.user), profileData))
      ensures store.user == Some(r.value)
      ensures !loading && error == None
    {
      loading := true;
      error := None;
      var updatedUser := MergeUser(store.user, profileData);
      store.UpdateUser(updatedUser);
      SpreadAbsorbs(OrEmpty(old(store.user)), profileData);
      r := Success(updatedUser);
      loading := false;
    }
  }
}
