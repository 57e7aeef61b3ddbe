/**
 * The session provider: the browser's stored token, the decoded user, and
 * the checks made when the application starts, on login and on logout.
 * The JWT decoder is a parameter (`decode`, `None` when it throws) and the
 * clock is the millisecond timestamp `nowMs`.
 */
module AuthContext {
  import opened Wrappers

  /** The decoded token; `exp` is in seconds and may be missing. */
  datatype Claims = Claims(exp: Option<int>, payload: map<string, string>)

  /** The browser's `localStorage`, reduced to its "token" entry. */
  class Storage {
    var token: Option<string>

    constructor (token: Option<string>)
      ensures this.token == token
    {
      this.token := token;
    }
  }

  /**
   * `decoded.exp < Date.now() / 1000`: strictly in the past. A missing
   * `exp` compares as `undefined < n`, which is false, so it never expires.
   */
  predicate Expired(c: Claims, nowMs: int) {
    c.exp.Some? && c.exp.value * 1000 < nowMs
  }

  /** The expiry check is strict and only the passage of time can trip it. */
  lemma ExpiryBoundary(c: Claims, nowMs: int, later: int)
    requires nowMs <= later
    ensures c.exp.None? ==> !Expired(c, later)
    ensures c.exp.Some? ==> !Expired(c, c.exp.value * 1000) && Expired(c, c.exp.value * 1000 + 1)
    ensures Expired(c, nowMs) ==> Expired(c, later)
  {
  }

  /** What the start-up check finds in storage. */
  datatype Session = NoToken | Undecodable | ExpiredToken | Active(claims: Claims)

  /** The start-up check: an absent or empty token, one the decoder refuses, an expired one, or a live session. */
  function CheckSession(stored: Option<string>, decode: string -> Option<Claims>, nowMs: int): (s: Session)
    ensures s.NoToken? <==> stored.None? || stored == Some("")
    ensures s.Undecodable? <==> stored.Some? && stored.value != "" && decode(stored.value).None?
    ensures s.ExpiredToken? <==> stored.Some? && stored.value != "" && decode(stored.value).Some?
                                 && Expired(decode(stored.value).value, nowMs)
    ensures s.Active? <==> stored.Some? && stored.value != "" && decode(stored.value).Some?
                           && !Expired(decode(stored.value).value, nowMs)
    ensures s.Active? ==> s.claims == decode(stored.value).value
  {
    if stored.None? || stored.value == "" then NoToken
    else match decode(stored.value)
      case None => Undecodable
      case Some(c) => if Expired(c, nowMs) then ExpiredToken else Active(c)
  }

  /** Whether the provider's start-up leaves the stored token in place. */
  predicate ProviderKeepsToken(s: Session) {
    s.NoToken? || s.Active?
  }

  /** The message `useAuth` throws outside a provider. */
  const OutsideProvider: string := "useAuth debe usarse dentro de un AuthProvider"

  /** The provider's state. */
  class AuthProvider {
    var user: Option<Claims>
    var token: Option<string>
    var loading: bool
    const storage: Storage

    /** Before the start-up effect: no user, no token, loading. */
    constructor (storage: Storage)
      ensures user.None? && token.None? && loading && this.storage == storage
    {
      user := None;
      token := None;
      loading := true;
      this.storage := storage;
    }

    /**
     * The start-up effect: the stored token is copied into `token` before
     * any check; a live token sets the user; an expired one is removed and
     * the user cleared; one the decoder refuses is removed and the user left
     * as it was; loading ends in every case.
     */
    method Init(decode: string -> Option<Claims>, nowMs: int)
      modifies this, storage
      ensures token == old(storage.token) && !loading
      ensures var s := CheckSession(old(storage.token), decode, nowMs);
              && (s.Active? ==> user == Some(s.claims))
              && (s.ExpiredToken? ==> user.None?)
              && (s.NoToken? || s.Undecodable? ==> user == old(user))
              && storage.token == (if ProviderKeepsToken(s) then old(storage.token) else None)
    {
      var stored := storage.token;
      token := stored;
      match CheckSession(stored, decode, nowMs) {
        case NoToken =>
        case Undecodable =>
          storage.token := None;
        case ExpiredToken =>
          storage.token := None;
          user := None;
        case Active(c) =>
          user := Some(c);
      }
      loading := false;
    }

    /**
     * `login(token)`: the token is stored first (an absent one is stored as
     * the text "undefined"); then the decoded claims become the user, or the
     * decoder throws and the user stays as it was. No expiry check, and the
     * `token` state is not updated.
     */
    method Login(sent: Option<string>, decode: string -> Option<Claims>) returns (thrown: bool)
      modifies this, storage
      ensures storage.token == Some(sent.GetOr("undefined"))
      ensures thrown <==> sent.None? || decode(sent.value).None?
      ensures thrown ==> user == old(user)
      ensures !thrown ==> user == decode(sent.value)
      ensures token == old(token) && loading == old(loading)
    {
      storage.token := Some(sent.GetOr("undefined"));
      if sent.None? {
        return true;
      }
      match decode(sent.value)
      case None =>
        thrown := true;
      case Some(c) =>
        user := Some(c);
        thrown := false;
    }

    /** `logout`: the stored token is removed and the user cleared; `token` state is untouched. */
    method Logout()
      modifies this, storage
      ensures storage.token.None? && user.None?
      ensures token == old(token) && loading == old(loading)
    {
      storage.token := None;
      user := None;
    }
  }

  /** `useAuth()`: the provider in scope, or the error it throws outside one. */
  function UseAuth(context: Option<AuthProvider>): (r: Result<AuthProvider, string>)
    ensures r.Err? <==> context.None?
    ensures r.Err? ==> r.error == OutsideProvider
    ensures r.Ok? ==> r.value == context.value
  {
    if context.None? then Err(OutsideProvider) else Ok(context.value)
  }
}
