/**
 * src/screens/AuthScreen.tsx: local e-mail checks, the per-button loading flags around the
 * awaited store calls, the success messages and the effect that runs when the mode changes.
 * The effect is an explicit step, `RunModeEffect`, taken after each render.
 */
module AuthScreen {
  import opened Wrappers
  import AuthUtils
  import AuthStore

  datatype AuthMode = SignInMode | SignUpMode | ForgotPasswordMode

  const InvalidEmailMessage := "Please enter a valid email address"
  const ConfirmEmailMessage := "Account created! Check your email to confirm."
  const ResetSentMessage := "Password reset email sent! Check your inbox."

  datatype StoreAction = SignInAction | SignUpAction | GoogleAction | ResetAction

  /** A store action the screen awaited, with the value of the handler's own loading flag
      while it ran. */
  datatype StoreCall = StoreCall(action: StoreAction, flagDuring: bool)

  /** checkEmailConfirmation's test: a user whose `email_confirmed_at` is missing or empty. */
  predicate NeedsConfirmation(user: Option<AuthStore.User>) {
    user.Some? && (user.value.emailConfirmedAt.None? || user.value.emailConfirmedAt.value == "")
  }

  class Screen {
    var email: string
    var password: string
    var mode: AuthMode
    var emailError: Option<string>
    var successMessage: Option<string>
    var signInLoading: bool
    var signUpLoading: bool
    var googleLoading: bool
    var resetLoading: bool
    /** The mode the mode effect last ran for; None before the first render. */
    var renderedMode: Option<AuthMode>
    const store: AuthStore.Store
    /** Every store action this screen has awaited, in order. */
    ghost var calls: seq<StoreCall>

    /** isAnyLoading: every button is disabled while it holds. */
    predicate IsAnyLoading()
      reads this
    {
      signInLoading || signUpLoading || googleLoading || resetLoading
    }

    constructor(store: AuthStore.Store)
      ensures this.store == store && email == "" && password == "" && mode == SignInMode
      ensures emailError == None && successMessage == None && renderedMode == None
      ensures !IsAnyLoading() && calls == []
    {
      this.store := store;
      email, password, mode := "", "", SignInMode;
      emailError, successMessage, renderedMode := None, None, None;
      signInLoading, signUpLoading, googleLoading, resetLoading := false, false, false, false;
      calls := [];
    }

    method SetEmail(e: string)
      modifies this
      ensures email == e && password == old(password) && mode == old(mode)
      ensures emailError == old(emailError) && successMessage == old(successMessage)
      ensures renderedMode == old(renderedMode) && IsAnyLoading() == old(IsAnyLoading()) && calls == old(calls)
    {
      email := e;
    }

    method SetPassword(p: string)
      modifies this
      ensures password == p && email == old(email) && mode == old(mode)
      ensures emailError == old(emailError) && successMessage == old(successMessage)
      ensures renderedMode == old(renderedMode) && IsAnyLoading() == old(IsAnyLoading()) && calls == old(calls)
    {
      password := p;
    }

    /** The mode links, disabled while any button is loading; only the mode changes until
        the effect runs. */
    method SetMode(m: AuthMode)
      requires !IsAnyLoading()
      modifies this
      ensures mode == m && email == old(email) && password == old(password)
      ensures emailError == old(emailError) && successMessage == old(successMessage)
      ensures renderedMode == old(renderedMode) && IsAnyLoading() == old(IsAnyLoading()) && calls == old(calls)
    {
      mode := m;
    }

    /** The effect on `mode`: on the first render and after every mode change it clears the
        store error, the e-mail error and the success message. */
    method RunModeEffect()
      modifies this, store
      ensures renderedMode == Some(mode) && mode == old(mode)
      ensures old(renderedMode) != Some(old(mode)) ==>
                emailError == None && successMessage == None && store.error == None
      ensures old(renderedMode) == Some(old(mode)) ==>
                emailError == old(emailError) && successMessage == old(successMessage) &&
                store.error == old(store.error)
      ensures store.IdentityUnchanged() && store.loading == old(store.loading) && store.isOnline == old(store.isOnline)
      ensures email == old(email) && IsAnyLoading() == old(IsAnyLoading()) && calls == old(calls)
    {
      if renderedMode != Some(mode) {
        store.SetError(None);
        emailError, successMessage := None, None;
        renderedMode := Some(mode);
      }
    }

    /** handleEmailBlur: flags a non-empty invalid address and clears the flag otherwise. */
    method HandleEmailBlur()
      modifies this
      ensures emailError == if email != "" && !AuthUtils.ValidateEmail(email) then Some(InvalidEmailMessage) else None
      ensures email == old(email) && mode == old(mode) && successMessage == old(successMessage)
      ensures IsAnyLoading() == old(IsAnyLoading()) && calls == old(calls)
    {
      if email != "" && !AuthUtils.ValidateEmail(email) {
        emailError := Some(InvalidEmailMessage);
      } else {
        emailError := None;
      }
    }

    /** handleSignIn, reachable only while no button is loading: an invalid address sets the
        e-mail error and calls nothing; otherwise the store signs in while `signInLoading` is
        set, and every flag is clear again afterwards. */
    method HandleSignIn(call: AuthStore.Call<AuthStore.AuthData>, rows: nat -> AuthStore.ProfileRow)
      requires !IsAnyLoading()
      modifies this, store
      ensures mode == old(mode) && successMessage == old(successMessage) && email == old(email)
      ensures !IsAnyLoading()
      ensures !AuthUtils.ValidateEmail(email) ==>
                emailError == Some(InvalidEmailMessage) && calls == old(calls) && unchanged(store)
      ensures AuthUtils.ValidateEmail(email) ==>
                emailError == old(emailError) && calls == old(calls) + [StoreCall(SignInAction, true)] &&
                store.PasswordAuthDone(call, rows, store.SignInFailed)
    {
      if !AuthUtils.ValidateEmail(email) {
        emailError := Some(InvalidEmailMessage);
        return;
      }
      signInLoading := true;
      calls := calls + [StoreCall(SignInAction, signInLoading)];
      store.SignIn(email, password, call, rows);
      signInLoading := false;
    }

    /** handleSignUp: as sign-in, with only the address checked locally; afterwards the
        confirm-email message is shown when the store's user has not confirmed. */
    method HandleSignUp(call: AuthStore.Call<AuthStore.AuthData>, rows: nat -> AuthStore.ProfileRow)
      requires !IsAnyLoading()
      modifies this, store
      ensures mode == old(mode) && email == old(email)
      ensures !IsAnyLoading()
      ensures !AuthUtils.ValidateEmail(email) ==>
                emailError == Some(InvalidEmailMessage) && successMessage == old(successMessage) &&
                calls == old(calls) && unchanged(store)
      ensures AuthUtils.ValidateEmail(email) ==>
                emailError == old(emailError) && calls == old(calls) + [StoreCall(SignUpAction, true)] &&
                store.PasswordAuthDone(call, rows, store.SignUpFailed) &&
                successMessage == if NeedsConfirmation(store.user) then Some(ConfirmEmailMessage) else old(successMessage)
    {
      if !AuthUtils.ValidateEmail(email) {
        emailError := Some(InvalidEmailMessage);
        return;
      }
      signUpLoading := true;
      calls := calls + [StoreCall(SignUpAction, signUpLoading)];
      store.SignUp(email, password, call, rows);
      signUpLoading := false;
      if NeedsConfirmation(store.user) {
        successMessage := Some(ConfirmEmailMessage);
      }
    }

    /** handleGoogleSignIn: no local check. */
    method HandleGoogleSignIn(flow: AuthStore.GoogleFlow, rows: nat -> AuthStore.ProfileRow)
      requires !IsAnyLoading()
      modifies this, store
      ensures mode == old(mode) && email == old(email) && emailError == old(emailError) && successMessage == old(successMessage)
      ensures !IsAnyLoading()
      ensures calls == old(calls) + [StoreCall(GoogleAction, true)] && store.GoogleDone(flow, rows)
    {
      googleLoading := true;
      calls := calls + [StoreCall(GoogleAction, googleLoading)];
      store.SignInWithGoogle(flow, rows);
      googleLoading := false;
    }

    /** handleResetPassword: after the store call the success message is set and the mode
        goes back to sign-in, whatever error the store reported. */
    method HandleResetPassword(call: AuthStore.Call<()>)
      requires !IsAnyLoading()
      modifies this, store
      ensures email == old(email) && renderedMode == old(renderedMode)
      ensures !IsAnyLoading()
      ensures !AuthUtils.ValidateEmail(email) ==>
                emailError == Some(InvalidEmailMessage) && mode == old(mode) &&
                successMessage == old(successMessage) && calls == old(calls) && unchanged(store)
      ensures AuthUtils.ValidateEmail(email) ==>
                emailError == old(emailError) && calls == old(calls) + [StoreCall(ResetAction, true)] &&
                store.ResetDone(call) && successMessage == Some(ResetSentMessage) && mode == SignInMode
    {
      if !AuthUtils.ValidateEmail(email) {
        emailError := Some(InvalidEmailMessage);
        return;
      }
      resetLoading := true;
      calls := calls + [StoreCall(ResetAction, resetLoading)];
      store.ResetPassword(email, call);
      resetLoading := false;
      successMessage := Some(ResetSentMessage);
      mode := SignInMode;
    }
  }

  /** The reset button is only rendered in forgot-password mode, so a successful reset always
      changes the mode, and the mode effect of the next render wipes the success message it
      has just set. */
  method ResetThenRender(screen: Screen, call: AuthStore.Call<()>)
    requires screen.mode == ForgotPasswordMode && screen.renderedMode == Some(ForgotPasswordMode)
    requires AuthUtils.ValidateEmail(screen.email) && !screen.IsAnyLoading()
    modifies screen, screen.store
    ensures screen.mode == SignInMode && screen.successMessage == None
    ensures screen.store.error == None
  {
    screen.HandleResetPassword(call);
    screen.RunModeEffect();
  }
}
