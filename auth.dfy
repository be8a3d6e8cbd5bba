/**
 * The authentication store: the bearer token and the identity read from it.
 * `setAuth` and `logout` overwrite all four fields; `isAuthenticated`
 * re-checks expiry each time it is asked.
 */
module Auth {
  import opened Wrappers
  import opened Utils

  /** What the store writes to durable storage: the four data fields and nothing else. */
  datatype PersistedAuth = PersistedAuth(
    token: Option<string>,
    userId: Option<string>,
    email: Option<string>,
    displayName: Option<string>)

  class AuthStore {
    /** The foreign payload decoder that `decodeJwt` relies on. */
    const parse: PayloadParser

    var token: Option<string>
    var userId: Option<string>
    var email: Option<string>
    var displayName: Option<string>

    /** A store before any login: every field is null. */
    constructor (parse: PayloadParser)
      ensures this.parse == parse
      ensures token == None && userId == None && email == None && displayName == None
    {
      this.parse := parse;
      token, userId, email, displayName := None, None, None, None;
    }

    /**
     * Stores the token and the user id exactly as given (the id is never read
     * from the token) and takes email and display name from the token's claims.
     */
    method SetAuth(t: string, uid: string)
      modifies this
      ensures token == Some(t) && userId == Some(uid)
      ensures email == DecodeJwt(t, parse).email
      ensures displayName == DecodeJwt(t, parse).displayName
    {
      var payload := DecodeJwt(t, parse);
      token, userId := Some(t), Some(uid);
      email, displayName := payload.email, payload.displayName;
    }

    /** Forgets the token and the whole identity. */
    method Logout()
      modifies this
      ensures token == None && userId == None && email == None && displayName == None
    {
      token, userId, email, displayName := None, None, None, None;
    }

    /**
     * Logged in when a non-empty token is held whose numeric expiry lies after
     * `nowMs`; reads the state without changing it.
     */
    function IsAuthenticated(nowMs: int): (b: bool)
      reads this
      ensures b <==>
        && token.Some? && token.value != ""
        && ExpOf(token.value, parse).Some?
        && nowMs < ExpOf(token.value, parse).value * 1000
    {
      match token
      case None => false
      case Some(t) => if t == "" then false else !IsJwtExpired(t, nowMs, parse)
    }

    /** The snapshot `partialize` hands to durable storage. */
    function Persisted(): PersistedAuth
      reads this
    {
      PersistedAuth(token, userId, email, displayName)
    }

    /** Loads a stored snapshot; storing it again gives the same snapshot back. */
    method Rehydrate(p: PersistedAuth)
      modifies this
      ensures Persisted() == p
      ensures token == p.token && userId == p.userId
      ensures email == p.email && displayName == p.displayName
    {
      token, userId, email, displayName := p.token, p.userId, p.email, p.displayName;
    }
  }
}
