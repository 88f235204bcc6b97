/**
 * src/contexts/AuthContext.tsx: the session gate. Whether a user may keep a
 * session is a predicate on their email; the provider's `user` and `loading`
 * state is a class whose two handlers — the initial session check and the
 * auth-state-change listener — apply the same gate.
 */
module Auth {
  import opened Wrappers

  /** The email addresses allowed to keep a session. */
  const AllowedEmails: seq<string> := ["tocotoco2674@gmail.com"]

  /** The parts of an identity-provider user the gate reads. */
  datatype User = User(id: string, email: Option<string>)

  /** `ALLOWED_EMAILS.includes(user.email || '')`: the user has an email and it is on the list. */
  predicate IsAllowed(u: User)
    ensures IsAllowed(u) <==> u.email.Some? && u.email.value in AllowedEmails
  {
    (if u.email.Some? then u.email.value else "") in AllowedEmails
  }

  /** A user without an email is never allowed: the empty string is not on the list. */
  lemma MissingEmailRejected(u: User)
    requires u.email.None? || u.email == Some("")
    ensures !IsAllowed(u)
  {
  }

  /** Outcome of the gate: the user to store and whether sign-out is requested. */
  datatype Decision = Decision(user: Option<User>, signOut: bool)

  /**
   * The gate both handlers apply to `session?.user ?? null`: an allowed user or
   * no user is stored as is; any other user is dropped and signed out.
   */
  function Gate(sessionUser: Option<User>): (d: Decision)
    ensures d.user.Some? ==> IsAllowed(d.user.value)
    ensures d.signOut <==> sessionUser.Some? && !IsAllowed(sessionUser.value)
    ensures !d.signOut ==> d.user == sessionUser
    ensures d.signOut ==> d.user == None
  {
    if sessionUser.Some? && !IsAllowed(sessionUser.value) then Decision(None, true)
    else Decision(sessionUser, false)
  }

  /** Gating is idempotent: a stored user passes the gate again unchanged and without sign-out. */
  lemma GateIdempotent(sessionUser: Option<User>)
    ensures Gate(Gate(sessionUser).user) == Decision(Gate(sessionUser).user, false)
  {
  }

  /** The provider's state; `signOutRequests` counts the `supabase.auth.signOut()` calls made. */
  class AuthProvider {
    var user: Option<User>
    var loading: bool
    var signOutRequests: nat

    /** The stored user is never one the allow-list rejects. */
    ghost predicate Valid()
      reads this
    {
      user.Some? ==> IsAllowed(user.value)
    }

    /** Mounting: no user, still loading. */
    constructor()
      ensures Valid() && user == None && loading && signOutRequests == 0
    {
      user := None;
      loading := true;
      signOutRequests := 0;
    }

    /** The `getSession()` callback: gate the session's user, then stop loading. */
    method OnInitialSession(sessionUser: Option<User>)
      modifies this
      ensures Valid()
      ensures user == Gate(sessionUser).user && !loading
      ensures signOutRequests == old(signOutRequests) + (if Gate(sessionUser).signOut then 1 else 0)
    {
      var currentUser := sessionUser;
      if currentUser.Some? && !IsAllowed(currentUser.value) {
        signOutRequests := signOutRequests + 1;
        user := None;
      } else {
        user := currentUser;
      }
      loading := false;
    }

    /** The `onAuthStateChange` listener: the same gate, and `loading` is left alone. */
    method OnAuthStateChange(sessionUser: Option<User>)
      modifies this`user, this`signOutRequests
      ensures Valid()
      ensures user == Gate(sessionUser).user && loading == old(loading)
      ensures signOutRequests == old(signOutRequests) + (if Gate(sessionUser).signOut then 1 else 0)
    {
      var currentUser := sessionUser;
      if currentUser.Some? && !IsAllowed(currentUser.value) {
        signOutRequests := signOutRequests + 1;
        user := None;
      } else {
        user := currentUser;
      }
    }
  }
}
