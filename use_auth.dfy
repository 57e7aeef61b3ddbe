/**
 * The stand-alone `useAuth` hook: the same start-up check as the session
 * provider, except that a token the decoder refuses stays in storage.
 */
module UseAuthHook {
  import opened Wrappers
  import opened AuthContext

  /**
   * Whether the hook's start-up leaves the stored token in place: only an
   * expired token is removed, so it parts from the provider exactly on a
   * token the decoder refuses.
   */
  predicate HookKeepsToken(s: Session)
    ensures HookKeepsToken(s) != ProviderKeepsToken(s) <==> s.Undecodable?
  {
    !s.ExpiredToken?
  }

  /** The hook's state: the user, over the shared storage. */
  class AuthHook {
    var user: Option<Claims>
    const storage: Storage

    /** Before the effect: no user. */
    constructor (storage: Storage)
      ensures user.None? && this.storage == storage
    {
      user := None;
      this.storage := storage;
    }

    /**
     * The effect: with no token the user stays as it was; a live token sets
     * the user; an expired one is removed and the user cleared; one the
     * decoder refuses clears the user but stays stored.
     */
    method Init(decode: string -> Option<Claims>, nowMs: int)
      modifies this, storage
      ensures var s := CheckSession(old(storage.token), decode, nowMs);
              && (s.Active? ==> user == Some(s.claims))
              && (s.ExpiredToken? || s.Undecodable? ==> user.None?)
              && (s.NoToken? ==> user == old(user))
              && storage.token == (if HookKeepsToken(s) then old(storage.token) else None)
    {
      match CheckSession(storage.token, decode, nowMs) {
        case NoToken =>
        case Undecodable =>
          user := None;
        case ExpiredToken =>
          storage.token := None;
          user := None;
        case Active(c) =>
          user := Some(c);
      }
    }
  }
}
