/** The browser's `localStorage`, reduced to the single key the client uses,
    "token". It is shared: the request pipeline reads it and clears it on a
    401, the auth provider reads it on start-up and writes it on login and
    logout. */
module Session {
  import opened Wrappers

  class Storage {
    /** `localStorage.getItem('token')`: the stored string, or null. */
    var token: Option<string>

    constructor (initial: Option<string>)
      ensures token == initial
    {
      token := initial;
    }
  }

  /** JavaScript truthiness of a stored token: present and non-empty. */
  predicate IsTruthy(token: Option<string>)
  {
    token.Some? && token.value != ""
  }
}
