/** The authentication store: the state of the `auth` slice and its
    reducers. The user is an open object (`null` is `None`). */
module AuthSlice {
  import opened Wrappers
  import opened Js

  /** `{ ...user }` where `user` may be `null` (spreading `null` adds nothing). */
  function OrEmpty(user: Option<Obj>): (r: Obj)
    ensures user.None? ==> r == map[]
    ensures user.Some? ==> r == user.value
  {
    if user.Some? then user.value else map[]
  }

  /** `{ ...user, ...payload }`. */
  function MergeUser(user: Option<Obj>, payload: Obj): (r: Obj)
    ensures r.Keys == OrEmpty(user).Keys + payload.Keys
    ensures forall k :: k in payload ==> r[k] == payload[k]
    ensures forall k :: k in OrEmpty(user) && k !in payload ==> r[k] == OrEmpty(user)[k]
  {
    Spread(OrEmpty(user), payload)
  }

  /** Merging the same payload again changes nothing, and merging into no
      user yields a copy of the payload. */
  lemma MergeUserLaws(user: Option<Obj>, payload: Obj)
    ensures MergeUser(Some(MergeUser(user, payload)), payload) == MergeUser(user, payload)
    ensures MergeUser(None, payload) == payload
  {
  }

  class AuthStore {
    var user: Option<Obj>
    var token: Option<string>
    var isAuthenticated: bool
    var loading: bool
    var error: Option<string>

    /** The initial state: signed out, idle, no error. */
    constructor ()
      ensures user == None && token == None && !isAuthenticated && !loading && error == None
    {
      user := None;
      token := None;
      isAuthenticated := false;
      loading := false;
      error := None;
    }

    /** `loginRequest`. */
    method LoginRequest()
      modifies this`loading, this`error
      ensures loading && error == None
    {
      loading := true;
      error := None;
    }

    /** `registerRequest`. */
    method RegisterRequest()
      modifies this`loading, this`error
      ensures loading && error == None
    {
      loading := true;
      error := None;
    }

    /** `loginSuccess`, with `action.payload.user` and `action.payload.token`. */
    method LoginSuccess(payloadUser: Option<Obj>, payloadToken: Option<string>)
      modifies this`loading, this`isAuthenticated, this`user, this`token, this`error
      ensures !loading && isAuthenticated && user == payloadUser && token == payloadToken && error == None
    {
      loading := false;
      isAuthenticated := true;
      user := payloadUser;
      token := payloadToken;
      error := None;
    }

    /** `registerSuccess`: the same transition as `loginSuccess`. */
    method RegisterSuccess(payloadUser: Option<Obj>, payloadToken: Option<string>)
      modifies this`loading, this`isAuthenticated, this`user, this`token, this`error
      ensures !loading && isAuthenticated && user == payloadUser && token == payloadToken && error == None
    {
      loading := false;
      isAuthenticated := true;
      user := payloadUser;
      token := payloadToken;
      error := None;
    }

    /** `authFailure`: records the reason; the session is kept as it was. */
    method AuthFailure(payload: Option<string>)
      modifies this`loading, this`error
      ensures !loading && error == payload
    {
      loading := false;
      error := payload;
    }

    /** `logout`: clears the session and the error, not `loading`. */
    method Logout()
      modifies this`user, this`token, this`isAuthenticated, this`error
      ensures user == None && token == None && !isAuthenticated && error == None
    {
      user := None;
      token := None;
      isAuthenticated := false;
      error := None;
    }

    /** `updateUserProfile`: merges into a signed-in user, otherwise does nothing. */
    method UpdateUserProfile(payload: Obj)
      modifies this`user
      ensures old(user).None? ==> user == None
      ensures old(user).Some? ==> user == Some(MergeUser(old(user), payload))
    {
      if user.Some? {
        user := Some(Spread(user.value, payload));
      }
    }

    /** `login`: signs in with the payload as the user; the token is untouched. */
    method Login(payload: Option<Obj>)
      modifies this`isAuthenticated, this`user, this`error
      ensures isAuthenticated && user == payload && error == None
    {
      isAuthenticated := true;
      user := payload;
      error := None;
    }

    /** `updateUser`: merges whether or not a user is signed in. */
    method UpdateUser(payload: Obj)
      modifies this`user
      ensures user == Some(MergeUser(old(user), payload))
    {
      user := Some(Spread(OrEmpty(user), payload));
    }
  }
}
