/**
 * src/store/authStore.ts: user, session, profile, loading and error of the signed-in
 * account. Every awaited call to the auth gateway is a parameter giving its outcome, and
 * the profile query's answers are a function from attempt number to row.
 */
module AuthStore {
  import opened Wrappers
  import opened DbTypes

  datatype User = User(id: string, email: string, emailConfirmedAt: Option<string>)
  datatype Session = Session(accessToken: string, refreshToken: string, user: User)
  datatype AuthError = AuthError(message: string)

  /** What a rejected call throws: an Error with its message, or some other value. */
  datatype Thrown = ErrorObject(message: string) | OtherValue

  /** An awaited gateway call: it throws, or it answers `{ data, error }`. */
  datatype Call<T> = Threw(thrown: Thrown) | Replied(data: T, error: Option<AuthError>)

  datatype AuthData = AuthData(user: Option<User>, session: Option<Session>)

  // ---- getOrWaitForProfile ----

  datatype PostgrestError = PostgrestError(code: string, message: string)

  /** One answer of `from('profiles').select('*').eq('id', userId).maybeSingle()`. */
  datatype ProfileRow = ProfileRow(data: Option<Profile>, error: Option<PostgrestError>)

  /** The "no rows" code, the one error the retry loop tolerates. */
  const NoRowsCode := "PGRST116"
  const DefaultMaxRetries: nat := 5

  /** An answer that ends the loop at once with no profile. */
  predicate IsHardError(row: ProfileRow) {
    row.data.None? && row.error.Some? && row.error.value.code != NoRowsCode
  }

  /** An answer that ends the loop: a profile, or an error other than "no rows". */
  predicate Decisive(row: ProfileRow) {
    row.data.Some? || IsHardError(row)
  }

  /** The profile found (if any), how many queries were made and how many 300 ms waits. */
  datatype ProfileWait = ProfileWait(profile: Option<Profile>, attempts: nat, waits: nat)

  /** The loop from attempt `i` on: it makes at least one more attempt while any are left,
      never more than `maxRetries` in all, waits only between attempts, and a profile it
      returns is the answer of its last attempt. */
  function WaitFrom(rows: nat -> ProfileRow, i: nat, maxRetries: nat): (w: ProfileWait)
    requires i <= maxRetries
    ensures i <= w.attempts <= maxRetries
    ensures i < maxRetries ==> i < w.attempts
    ensures w.waits == (if w.attempts == 0 then 0 else w.attempts - 1)
    ensures w.profile.Some? ==> w.attempts > 0 && rows(w.attempts - 1).data == w.profile
    decreases maxRetries - i
  {
    if i == maxRetries then ProfileWait(None, i, if i == 0 then 0 else i - 1)
    else if rows(i).data.Some? then ProfileWait(rows(i).data, i + 1, i)
    else if IsHardError(rows(i)) then ProfileWait(None, i + 1, i)
    else WaitFrom(rows, i + 1, maxRetries)
  }

  /** getOrWaitForProfile's result as a function of the answers. */
  function WaitForProfile(rows: nat -> ProfileRow, maxRetries: nat): (w: ProfileWait)
    ensures w.attempts <= maxRetries && (maxRetries > 0 ==> w.attempts > 0)
    ensures w.profile.Some? ==> w.attempts > 0 && rows(w.attempts - 1).data == w.profile
  {
    WaitFrom(rows, 0, maxRetries)
  }

  lemma {:induction false} WaitFromFacts(rows: nat -> ProfileRow, i: nat, maxRetries: nat)
    requires i <= maxRetries
    requires forall k :: 0 <= k < i ==> !Decisive(rows(k))
    ensures var w := WaitFrom(rows, i, maxRetries);
            i <= w.attempts <= maxRetries &&
            w.waits == (if w.attempts == 0 then 0 else w.attempts - 1) &&
            (forall k :: 0 <= k < w.attempts - 1 ==> !Decisive(rows(k))) &&
            (w.profile.Some? ==> w.attempts > 0 && rows(w.attempts - 1).data == w.profile) &&
            (w.profile.None? ==>
              (w.attempts == maxRetries && forall k :: 0 <= k < maxRetries ==> !Decisive(rows(k))) ||
              (w.attempts > 0 && IsHardError(rows(w.attempts - 1))))
    decreases maxRetries - i
  {
    if i < maxRetries && !Decisive(rows(i)) {
      WaitFromFacts(rows, i + 1, maxRetries);
    }
  }

  /** getOrWaitForProfile: at most `maxRetries` queries; the first profile found is returned;
      an error other than "no rows" stops at once with no profile; running out of attempts
      gives no profile; it waits only between attempts, so k attempts make k - 1 waits. */
  lemma WaitForProfileFacts(rows: nat -> ProfileRow, maxRetries: nat)
    ensures var w := WaitForProfile(rows, maxRetries);
            w.attempts <= maxRetries &&
            (maxRetries > 0 ==> w.attempts > 0) &&
            w.waits == (if w.attempts == 0 then 0 else w.attempts - 1) &&
            (forall k :: 0 <= k < w.attempts - 1 ==> !Decisive(rows(k))) &&
            (w.profile.Some? ==> rows(w.attempts - 1).data == w.profile) &&
            (w.profile.None? ==>
              (w.attempts == maxRetries && forall k :: 0 <= k < maxRetries ==> !Decisive(rows(k))) ||
              IsHardError(rows(w.attempts - 1)))
  {
    WaitFromFacts(rows, 0, maxRetries);
  }

  /** The loop of getOrWaitForProfile, with its early returns. */
  method GetOrWaitForProfile(rows: nat -> ProfileRow, maxRetries: nat) returns (w: ProfileWait)
    ensures w == WaitForProfile(rows, maxRetries)
  {
    var waits := 0;
    for i := 0 to maxRetries
      invariant waits == (if i == maxRetries && i > 0 then i - 1 else i)
      invariant WaitForProfile(rows, maxRetries) == WaitFrom(rows, i, maxRetries)
    {
      var row := rows(i);
      if row.data.Some? {
        return ProfileWait(row.data, i + 1, waits);
      }
      if row.error.Some? && row.error.value.code != NoRowsCode {
        return ProfileWait(None, i + 1, waits);
      }
      if i < maxRetries - 1 {
        waits := waits + 1;
      }
    }
    w := ProfileWait(None, maxRetries, waits);
  }

  // ---- signInWithGoogle ----

  datatype BrowserResultType = BrowserSuccess | BrowserCancel | BrowserDismiss | BrowserOpened | BrowserLocked

  /** The result of `WebBrowser.openAuthSessionAsync`. */
  datatype BrowserResult = BrowserResult(kind: BrowserResultType, url: string)

  /** A step that either throws or returns a value. */
  datatype Attempt<T> = Failed(thrown: Thrown) | Done(value: T)

  /** The outcomes of every awaited step of the OAuth flow. URL parsing is not modelled: the
      `code` query parameter (or the throw of `new URL`) and the `access_token` of the hash
      fragment are given. */
  datatype GoogleFlow = GoogleFlow(
    start: Call<Option<string>>,
    browser: Attempt<BrowserResult>,
    code: Attempt<Option<string>>,
    exchange: Call<Option<Session>>,
    accessToken: Option<string>,
    setSession: Call<Option<Session>>,
    existing: Call<Option<Session>>)

  datatype GoogleOutcome = Established(session: Session) | Abandoned | GoogleFailed(message: string)

  /** `err instanceof Error ? err.message : 'Google sign-in failed'`. */
  function ThrownMessage(t: Thrown): string {
    match t
    case ErrorObject(m) => m
    case OtherValue => "Google sign-in failed"
  }

  /** A session call inside the flow: a throw or an error fails the flow, a session ends it,
      and no session lets the flow go on to its next way of finding one. */
  function SessionStep(call: Call<Option<Session>>): Option<GoogleOutcome> {
    match call
    case Threw(t) => Some(GoogleFailed(ThrownMessage(t)))
    case Replied(s, e) =>
      if e.Some? then Some(GoogleFailed(e.value.message))
      else if s.Some? then Some(Established(s.value))
      else None
  }

  /** Where the OAuth flow ends: code exchange first, then the hash-fragment tokens, then an
      already established session. */
  function GoogleSignInOutcome(flow: GoogleFlow): (r: GoogleOutcome)
    ensures flow.start.Threw? || flow.start.error.Some? || !Truthy(flow.start.data) ==> r.GoogleFailed?
    ensures r.Abandoned? <==>
              flow.start.Replied? && flow.start.error.None? && Truthy(flow.start.data) &&
              flow.browser.Done? &&
              !(flow.browser.value.kind == BrowserSuccess && flow.browser.value.url != "")
    ensures r.Established? ==> flow.browser.Done? && flow.browser.value.kind == BrowserSuccess
  {
    match flow.start
    case Threw(t) => GoogleFailed(ThrownMessage(t))
    case Replied(url, e) =>
      if e.Some? then GoogleFailed(e.value.message)
      else if !Truthy(url) then GoogleFailed("No OAuth URL returned")
      else
        match flow.browser
        case Failed(t) => GoogleFailed(ThrownMessage(t))
        case Done(result) =>
          if !(result.kind == BrowserSuccess && result.url != "") then Abandoned
          else
            match flow.code
            case Failed(t) => GoogleFailed(ThrownMessage(t))
            case Done(code) =>
              var viaCode := if Truthy(code) then SessionStep(flow.exchange) else None;
              var viaHash := if '#' in result.url && Truthy(flow.accessToken) then SessionStep(flow.setSession) else None;
              if viaCode.Some? then viaCode.value
              else if viaHash.Some? then viaHash.value
              else match SessionStep(flow.existing)
                   case Some(o) => o
                   case None => GoogleFailed("Failed to establish session")
  }

  /** Any browser result other than a success with a URL ends the flow quietly. */
  lemma BrowserAbandonIsQuiet(flow: GoogleFlow)
    requires flow.start.Replied? && flow.start.error.None? && Truthy(flow.start.data)
    requires flow.browser.Done? && (flow.browser.value.kind != BrowserSuccess || flow.browser.value.url == "")
    ensures GoogleSignInOutcome(flow) == Abandoned
  {
  }

  /** An established session comes from a session call of the flow, tried in order. */
  lemma EstablishedSessionSource(flow: GoogleFlow)
    requires GoogleSignInOutcome(flow).Established?
    ensures var s := GoogleSignInOutcome(flow).session;
            SessionStep(flow.exchange) == Some(Established(s)) ||
            SessionStep(flow.setSession) == Some(Established(s)) ||
            SessionStep(flow.existing) == Some(Established(s))
  {
  }

  const OfflineInitError := "No internet \U{2013} using cached session"

  class Store {
    var user: Option<User>
    var session: Option<Session>
    var profile: Option<Profile>
    var loading: bool
    var error: Option<string>
    var isOnline: bool

    /** user, session and profile are as they were. */
    twostate predicate IdentityUnchanged()
      reads this
    {
      user == old(user) && session == old(session) && profile == old(profile)
    }

    constructor()
      ensures user == None && session == None && profile == None
      ensures loading && error == None && isOnline
    {
      user, session, profile := None, None, None;
      loading, error, isOnline := true, None, true;
    }

    /** Sets user, session and the profile looked up for the user; ends loading. */
    method Establish(s: Option<Session>, u: User, rows: nat -> ProfileRow)
      modifies this
      ensures session == s && user == Some(u)
      ensures profile == WaitForProfile(rows, DefaultMaxRetries).profile
      ensures !loading && error == old(error) && isOnline == old(isOnline)
    {
      var w := GetOrWaitForProfile(rows, DefaultMaxRetries);
      session, user, profile, loading := s, Some(u), w.profile, false;
    }

    /** initialize: restores a stored session. A gateway error is reported and the account
        kept; a session is taken with its profile; none clears the account. A throw reports
        offline or failure. */
    method Initialize(call: Call<Option<Session>>, rows: nat -> ProfileRow)
      modifies this
      ensures !loading && isOnline == old(isOnline)
      ensures call.Threw? ==>
                IdentityUnchanged() &&
                error == Some(if old(isOnline) then "Failed to initialize auth" else OfflineInitError)
      ensures call.Replied? && call.error.Some? ==>
                IdentityUnchanged() && error == Some(call.error.value.message)
      ensures call.Replied? && call.error.None? && call.data.Some? ==>
                session == call.data && user == Some(call.data.value.user) &&
                profile == WaitForProfile(rows, DefaultMaxRetries).profile && error == None
      ensures call.Replied? && call.error.None? && call.data.None? ==>
                session == None && user == None && profile == None && error == None
    {
      loading, error := true, None;
      match call
      case Threw(_) =>
        error := Some(if isOnline then "Failed to initialize auth" else OfflineInitError);
        loading := false;
      case Replied(s, e) =>
        if e.Some? {
          error, loading := Some(e.value.message), false;
        } else if s.Some? {
          Establish(s, s.value.user, rows);
        } else {
          session, user, profile, loading := None, None, None, false;
        }
    }

    /** What signIn and signUp promise; `failure` is the message for a throw. An answer
        without a user and without an error leaves `loading` set. */
    twostate predicate PasswordAuthDone(call: Call<AuthData>, rows: nat -> ProfileRow, failure: string)
      reads this
    {
      isOnline == old(isOnline) &&
      (call.Threw? ==> IdentityUnchanged() && error == Some(failure) && !loading) &&
      (call.Replied? && call.error.Some? ==>
         IdentityUnchanged() && error == Some(call.error.value.message) && !loading) &&
      (call.Replied? && call.error.None? && call.data.user.Some? ==>
         user == call.data.user && session == call.data.session &&
         profile == WaitForProfile(rows, DefaultMaxRetries).profile &&
         error == None && !loading) &&
      (call.Replied? && call.error.None? && call.data.user.None? ==>
         IdentityUnchanged() && error == None && loading)
    }

    method PasswordAuth(call: Call<AuthData>, rows: nat -> ProfileRow, failure: string)
      modifies this
      ensures PasswordAuthDone(call, rows, failure)
    {
      loading, error := true, None;
      match call
      case Threw(_) =>
        error, loading := Some(failure), false;
      case Replied(data, e) =>
        if e.Some? {
          error, loading := Some(e.value.message), false;
        } else if data.user.Some? {
          Establish(data.session, data.user.value, rows);
        }
    }

    const SignInFailed := "Sign in failed"
    const SignUpFailed := "Sign up failed"

    /** signIn. */
    method SignIn(email: string, password: string, call: Call<AuthData>, rows: nat -> ProfileRow)
      modifies this
      ensures PasswordAuthDone(call, rows, SignInFailed)
    {
      PasswordAuth(call, rows, SignInFailed);
    }

    /** signUp: as signIn; with e-mail confirmation on, the session may be absent. */
    method SignUp(email: string, password: string, call: Call<AuthData>, rows: nat -> ProfileRow)
      modifies this
      ensures PasswordAuthDone(call, rows, SignUpFailed)
    {
      PasswordAuth(call, rows, SignUpFailed);
    }

    /** What signInWithGoogle promises: an abandoned browser flow only clears `loading`. */
    twostate predicate GoogleDone(flow: GoogleFlow, rows: nat -> ProfileRow)
      reads this
    {
      !loading && isOnline == old(isOnline) &&
      (GoogleSignInOutcome(flow).Established? ==>
         session == Some(GoogleSignInOutcome(flow).session) &&
         user == Some(GoogleSignInOutcome(flow).session.user) &&
         profile == WaitForProfile(rows, DefaultMaxRetries).profile && error == None) &&
      (GoogleSignInOutcome(flow).Abandoned? ==> IdentityUnchanged() && error == None) &&
      (GoogleSignInOutcome(flow).GoogleFailed? ==>
         IdentityUnchanged() && error == Some(GoogleSignInOutcome(flow).message))
    }

    /** signInWithGoogle. */
    method SignInWithGoogle(flow: GoogleFlow, rows: nat -> ProfileRow)
      modifies this
      ensures GoogleDone(flow, rows)
    {
      loading, error := true, None;
      match GoogleSignInOutcome(flow)
      case Established(s) =>
        Establish(Some(s), s.user, rows);
      case Abandoned =>
        loading := false;
      case GoogleFailed(m) =>
        error, loading := Some(m), false;
    }

    /** signOut: the account is cleared only when the gateway reports no error. */
    method SignOut(call: Call<()>)
      modifies this
      ensures !loading && isOnline == old(isOnline)
      ensures call.Replied? && call.error.None? ==>
                user == None && session == None && profile == None && error == None
      ensures call.Replied? && call.error.Some? ==>
                IdentityUnchanged() && error == Some(call.error.value.message)
      ensures call.Threw? ==> IdentityUnchanged() && error == Some("Sign out failed")
    {
      loading, error := true, None;
      match call
      case Threw(_) =>
        error, loading := Some("Sign out failed"), false;
      case Replied(_, e) =>
        if e.Some? {
          error, loading := Some(e.value.message), false;
        } else {
          user, session, profile, loading := None, None, None, false;
        }
    }

    /** refreshProfile: nothing happens without a user; otherwise only the profile changes. */
    method RefreshProfile(rows: nat -> ProfileRow)
      modifies this
      ensures user == old(user) && session == old(session)
      ensures loading == old(loading) && error == old(error) && isOnline == old(isOnline)
      ensures old(user).None? ==> profile == old(profile)
      ensures old(user).Some? ==> profile == WaitForProfile(rows, DefaultMaxRetries).profile
    {
      if user.None? {
        return;
      }
      var w := GetOrWaitForProfile(rows, DefaultMaxRetries);
      profile := w.profile;
    }

    /** refreshSession: does not touch `loading`; a new session replaces session and user. */
    method RefreshSession(call: Call<AuthData>)
      modifies this
      ensures profile == old(profile) && loading == old(loading) && isOnline == old(isOnline)
      ensures call.Threw? ==>
                IdentityUnchanged() && error == Some("Failed to refresh session")
      ensures call.Replied? && call.error.Some? ==>
                IdentityUnchanged() && error == Some(call.error.value.message)
      ensures call.Replied? && call.error.None? && call.data.session.Some? ==>
                session == call.data.session && user == call.data.user && error == old(error)
      ensures call.Replied? && call.error.None? && call.data.session.None? ==>
                IdentityUnchanged() && error == old(error)
    {
      match call
      case Threw(_) =>
        error := Some("Failed to refresh session");
      case Replied(data, e) =>
        if e.Some? {
          error := Some(e.value.message);
        } else if data.session.Some? {
          session, user := data.session, data.user;
        }
    }

    /** What resetPassword promises: user, session and profile never change. */
    twostate predicate ResetDone(call: Call<()>)
      reads this
    {
      IdentityUnchanged() && !loading && isOnline == old(isOnline) &&
      (call.Threw? ==> error == Some("Password reset failed")) &&
      (call.Replied? ==> error == (if call.error.Some? then Some(call.error.value.message) else None))
    }

    /** resetPassword. */
    method ResetPassword(email: string, call: Call<()>)
      modifies this
      ensures ResetDone(call)
    {
      loading, error := true, None;
      match call
      case Threw(_) =>
        error, loading := Some("Password reset failed"), false;
      case Replied(_, e) =>
        if e.Some? {
          error, loading := Some(e.value.message), false;
        } else {
          loading := false;
        }
    }

    method SetError(e: Option<string>)
      modifies this
      ensures error == e && IdentityUnchanged() && loading == old(loading) && isOnline == old(isOnline)
    {
      error := e;
    }

    method SetOnlineStatus(online: bool)
      modifies this
      ensures isOnline == online && IdentityUnchanged() && loading == old(loading) && error == old(error)
    {
      isOnline := online;
    }
  }
}
