/** The submit handler of src/pages/RegisterPage.tsx, split at its `await`:
    `Submit` runs the password check and, when it passes, calls the context's
    `register`; `RegisterResolved` is the continuation. The 2000 ms timer that
    navigates to the login page is a pending count plus a firing event. */
module RegisterPage {
  import opened Common
  import AuthContext

  const MISMATCH := "Passwords do not match"
  const REGISTERED := "Registration successful! Redirecting to login..."
  const LOGIN_PATH := "/login"
  const REDIRECT_DELAY_MS := 2000

  class RegisterForm {
    var error: string
    var success: string
    var isLoading: bool
    var navigatedTo: Option<string>
    /** Submissions whose `register` call has not settled yet. */
    var pendingCalls: nat
    /** Armed `setTimeout(() => navigate('/login'), 2000)` timers. */
    var navigationTimers: nat

    constructor ()
      ensures error == "" && success == "" && !isLoading && navigatedTo == None
      ensures pendingCalls == 0 && navigationTimers == 0
    {
      error, success, isLoading, navigatedTo := "", "", false, None;
      pendingCalls, navigationTimers := 0, 0;
    }

    /** Both messages are cleared first; a mismatch reports itself and returns
        before `register` and before loading is set, a match calls `register`. */
    method Submit(password: string, confirmPassword: string) returns (callsRegister: bool)
      modifies this
      ensures callsRegister <==> password == confirmPassword
      ensures success == ""
      ensures !callsRegister ==> error == MISMATCH && isLoading == old(isLoading)
                                 && pendingCalls == old(pendingCalls)
      ensures callsRegister ==> error == "" && isLoading && pendingCalls == old(pendingCalls) + 1
      ensures navigatedTo == old(navigatedTo) && navigationTimers == old(navigationTimers)
    {
      error := "";
      success := "";
      if password != confirmPassword {
        error := MISMATCH;
        return false;
      }
      isLoading := true;
      pendingCalls := pendingCalls + 1;
      callsRegister := true;
    }

    /** Success shows the success message and arms the navigation timer; failure
        shows the result's message and navigates nowhere; loading ends either way. */
    method RegisterResolved(result: AuthContext.AuthResult)
      requires pendingCalls > 0
      modifies this
      ensures !isLoading
      ensures pendingCalls == old(pendingCalls) - 1
      ensures navigatedTo == old(navigatedTo)
      ensures result.success ==> success == REGISTERED && error == old(error)
                                 && navigationTimers == old(navigationTimers) + 1
      ensures !result.success ==> error == result.message && success == old(success)
                                  && navigationTimers == old(navigationTimers)
    {
      if result.success {
        success := REGISTERED;
        navigationTimers := navigationTimers + 1;
      } else {
        error := result.message;
      }
      isLoading := false;
      pendingCalls := pendingCalls - 1;
    }

    /** One armed navigation timer fires. */
    method NavigationTimerFires()
      requires navigationTimers > 0
      modifies this
      ensures navigatedTo == Some(LOGIN_PATH)
      ensures navigationTimers == old(navigationTimers) - 1
      ensures error == old(error) && success == old(success) && isLoading == old(isLoading)
      ensures pendingCalls == old(pendingCalls)
    {
      navigatedTo := Some(LOGIN_PATH);
      navigationTimers := navigationTimers - 1;
    }
  }
}
