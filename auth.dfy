/** The session provider: it restores the user from the stored token at
    start-up, logs in (storing the server's access token), signs up, logs out,
    and publishes `isAuthenticated` to the rest of the client. */
module Auth {
  import opened Wrappers
  import opened Session
  import opened Api

  /** The signed-in user, known only by the token. */
  datatype User = User(token: string)

  /** The value the provider publishes to its consumers. */
  datatype AuthValue = AuthValue(user: Option<User>, isLoading: bool, isAuthenticated: bool)

  /** What `login` and `signup` resolve to: `{success: true}` or
      `{success: false, error}`. */
  datatype Outcome = Outcome(success: bool, error: Option<string>)

  const LoginFallback := "Login failed"
  const SignupFallback := "Signup failed"
  const MissingProvider := "useAuth must be used within AuthProvider"

  /** The message shown for a failed call: the server's nested error message
      when the response carries a non-empty one, else the fixed fallback. */
  function ErrorMessage(e: HttpError, fallback: string): (m: string)
    ensures m == fallback || (e.ErrorResponse? && e.message == Some(m))
    ensures m != fallback ==> m != ""
    ensures e.ErrorResponse? && e.message.Some? && e.message.value != "" ==> m == e.message.value
    ensures e.NoResponse? || e.message.None? ==> m == fallback
  {
    if e.ErrorResponse? && e.message.Some? && e.message.value != "" then e.message.value else fallback
  }

  /** `useAuth`: the provider's value, or the error thrown outside a provider. */
  function UseAuth(context: Option<AuthValue>): (r: Result<AuthValue, string>)
    ensures r.Success? <==> context.Some?
    ensures r.Success? ==> r.value == context.value
    ensures r.Failure? ==> r.error == MissingProvider
  {
    if context.None? then Failure(MissingProvider) else Success(context.value)
  }

  class AuthProvider {
    const client: Client
    var user: Option<User>
    var isLoading: bool

    /** Initial state: no user, still loading. */
    constructor (client: Client)
      ensures this.client == client && user == None && isLoading
    {
      this.client := client;
      user := None;
      isLoading := true;
    }

    /** `isAuthenticated: !!user`. */
    function Value(): (v: AuthValue)
      reads this
      ensures v.user == user && v.isLoading == isLoading
      ensures v.isAuthenticated <==> user.Some?
    {
      AuthValue(user, isLoading, user.Some?)
    }

    /** The mount effect: a truthy stored token becomes the user; loading ends
        either way. */
    method Init()
      modifies this
      ensures user == if IsTruthy(client.storage.token) then Some(User(client.storage.token.value)) else old(user)
      ensures !isLoading
    {
      var token := client.storage.token;
      if token.Some? && token.value != "" {
        user := Some(User(token.value));
      }
      isLoading := false;
    }

    /** `login`: the request goes through the client's pipeline; on success the
        access token is stored and becomes the user; on failure the user is
        kept and the result carries the server's message or the fallback. */
    method Login(credentials: Fields, outcome: Result<string, HttpError>) returns (r: Outcome)
      modifies this`user, client, client.storage
      ensures var s := Step(old(client.storage.token), Api.Login(credentials), ErrorOf(outcome));
        client.sent == old(client.sent) + [s.1] &&
        client.storage.token == (if outcome.Success? then Some(outcome.value) else s.0)
      ensures outcome.Success? ==> user == Some(User(outcome.value)) && r == Outcome(true, None)
      ensures outcome.Failure? ==> user == old(user) && r == Outcome(false, Some(ErrorMessage(outcome.error, LoginFallback)))
    {
      var response := client.Perform(Api.Login(credentials), outcome);
      if response.Success? {
        var accessToken := response.value;
        client.storage.token := Some(accessToken);
        user := Some(User(accessToken));
        r := Outcome(true, None);
      } else {
        r := Outcome(false, Some(ErrorMessage(response.error, LoginFallback)));
      }
    }

    /** `signup`: never changes the user or stores a token; reports success, or
        the server's message or the fallback. */
    method Signup(userData: Fields, outcome: Result<(), HttpError>) returns (r: Outcome)
      modifies client, client.storage
      ensures var s := Step(old(client.storage.token), Api.Signup(userData), ErrorOf(outcome));
        client.sent == old(client.sent) + [s.1] && client.storage.token == s.0
      ensures outcome.Success? ==> r == Outcome(true, None)
      ensures outcome.Failure? ==> r == Outcome(false, Some(ErrorMessage(outcome.error, SignupFallback)))
    {
      var response := client.Perform(Api.Signup(userData), outcome);
      if response.Success? {
        r := Outcome(true, None);
      } else {
        r := Outcome(false, Some(ErrorMessage(response.error, SignupFallback)));
      }
    }

    /** `logout`: the stored token is removed and the user is cleared. */
    method Logout()
      modifies this`user, client.storage
      ensures client.storage.token == None && user == None
      ensures !Value().isAuthenticated
    {
      client.storage.token := None;
      user := None;
    }
  }
}
