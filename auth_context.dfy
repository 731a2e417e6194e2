/*
 * The session store: the signed-in user, a loading flag, and the bearer
 * token kept in durable storage across reloads. Boot re-validates a stored
 * token against the profile endpoint; only a 401 discards it.
 */
module AuthContext {
  import opened Js
  import ApiClient

  /** How the awaited `getProfile()` settled: the user it returned
      (`res.data.data.user`) or the error it threw. */
  datatype ProfileOutcome = ProfileFetched(user: Value) | ProfileFailed(error: Value)

  /** How the awaited `apiLogin(...)` settled: the response body, or a throw. */
  datatype LoginOutcome = LoginResponded(response: Value) | LoginThrew(error: Value)

  /** `error?.response?.status === 401` */
  predicate IsUnauthorized(error: Value) {
    Field(Field(error, "response"), "status") == Num(401)
  }

  /** `response.success && response.data && response.data.token` */
  predicate LoginAccepted(response: Value) {
    Truthy(Field(response, "success")) &&
    Truthy(Field(response, "data")) &&
    Truthy(Field(Field(response, "data"), "token"))
  }

  class Session {
    /** The "token" key of localStorage. */
    var storedToken: Option<string>
    var user: Value
    var isLoading: bool
    /** How many profile requests boot has issued. */
    ghost var profileRequests: nat

    /** The provider's first render: no user yet, loading, and whatever token
        an earlier session left in storage. */
    constructor (stored: Option<string>)
      ensures storedToken == stored && user == Null && isLoading && profileRequests == 0
    {
      storedToken := stored;
      user := Null;
      isLoading := true;
      profileRequests := 0;
    }

    /** `isAuthenticated: !!user` */
    function IsAuthenticated(): bool
      reads this
    {
      Truthy(user)
    }

    /** `initializeAuth`, the mount effect. Without a stored token it makes no
        profile request. With one, a fetched profile becomes the user; a 401
        removes the token; any other failure (no response, server error)
        keeps it. Every branch ends with loading cleared. */
    method InitializeAuth(profile: ProfileOutcome)
      modifies this
      ensures !isLoading
      ensures !ApiClient.HasToken(old(storedToken)) ==>
                storedToken == old(storedToken) && user == old(user) &&
                profileRequests == old(profileRequests)
      ensures ApiClient.HasToken(old(storedToken)) ==> profileRequests == old(profileRequests) + 1
      ensures ApiClient.HasToken(old(storedToken)) && profile.ProfileFetched? ==>
                user == profile.user && storedToken == old(storedToken)
      ensures ApiClient.HasToken(old(storedToken)) && profile.ProfileFailed? &&
              IsUnauthorized(profile.error) ==>
                storedToken == None && user == old(user)
      ensures ApiClient.HasToken(old(storedToken)) && profile.ProfileFailed? &&
              !IsUnauthorized(profile.error) ==>
                storedToken == old(storedToken) && user == old(user)
    {
      if ApiClient.HasToken(storedToken) {
        profileRequests := profileRequests + 1;
        match profile {
          case ProfileFetched(u) =>
            user := u;
          case ProfileFailed(e) =>
            if IsUnauthorized(e) {
              storedToken := None;
            }
        }
      }
      isLoading := false;
    }

    /** `login(email, password)`: true exactly when the response reports
        success with a truthy token; the token is then stored (as
        `localStorage.setItem` stringifies it) and `data.user` becomes the
        user. Any other response, or a throw, returns false and changes
        nothing. */
    method Login(outcome: LoginOutcome) returns (ok: bool)
      modifies this
      ensures ok <==> outcome.LoginResponded? && LoginAccepted(outcome.response)
      ensures ok ==>
                storedToken == Some(ToJsString(Field(Field(outcome.response, "data"), "token"))) &&
                user == Field(Field(outcome.response, "data"), "user")
      ensures !ok ==> storedToken == old(storedToken) && user == old(user)
      ensures isLoading == old(isLoading) && profileRequests == old(profileRequests)
    {
      match outcome {
        case LoginThrew(_) =>
          ok := false;
        case LoginResponded(response) =>
          if LoginAccepted(response) {
            var data := Field(response, "data");
            storedToken := Some(ToJsString(Field(data, "token")));
            user := Field(data, "user");
            ok := true;
          } else {
            ok := false;
          }
      }
    }

    /** `logout()`: unconditionally forget the token and the user. */
    method Logout()
      modifies this
      ensures storedToken == None && user == Null
      ensures !IsAuthenticated()
      ensures isLoading == old(isLoading) && profileRequests == old(profileRequests)
    {
      storedToken := None;
      user := Null;
    }
  }

  /** A fresh provider booted without a stored token ends anonymous and done
      loading, having asked the profile endpoint nothing. */
  method BootWithoutToken(profile: ProfileOutcome) returns (s: Session)
    ensures !s.isLoading && !s.IsAuthenticated() && s.user == Null
    ensures s.storedToken == None && s.profileRequests == 0
  {
    s := new Session(None);
    s.InitializeAuth(profile);
  }

  /** A fresh provider whose stored token the profile endpoint rejects with
      401 ends anonymous with the token removed; after any other failure it
      ends anonymous with the token kept for the next reload. */
  method BootWithFailingProfile(token: string, error: Value) returns (s: Session)
    requires token != ""
    ensures !s.isLoading && !s.IsAuthenticated()
    ensures IsUnauthorized(error) ==> s.storedToken == None
    ensures !IsUnauthorized(error) ==> s.storedToken == Some(token)
  {
    s := new Session(Some(token));
    s.InitializeAuth(ProfileFailed(error));
  }
}
