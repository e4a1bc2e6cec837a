/** The submit handler of src/pages/LoginPage.tsx, split at its one `await`:
    `Submit` runs up to the call of the context's `login`, `LoginResolved` is
    the continuation once that promise settles. */
module LoginPage {
  import opened Common
  import AuthContext

  const DASHBOARD_PATH := "/dashboard"

  class LoginForm {
    var error: string
    var isLoading: bool
    /** The path passed to `navigate`, once it has been called. */
    var navigatedTo: Option<string>
    /** Submissions whose `login` call has not settled yet. */
    var pendingCalls: nat

    constructor ()
      ensures error == "" && !isLoading && navigatedTo == None && pendingCalls == 0
    {
      error, isLoading, navigatedTo, pendingCalls := "", false, None, 0;
    }

    /** Up to the call: the error is cleared and loading is on before `login` runs. */
    method Submit()
      modifies this
      ensures error == "" && isLoading
      ensures pendingCalls == old(pendingCalls) + 1
      ensures navigatedTo == old(navigatedTo)
    {
      error := "";
      isLoading := true;
      pendingCalls := pendingCalls + 1;
    }

    /** After the call: success navigates to the dashboard, failure shows the
        result's message and stays; loading is off either way. */
    method LoginResolved(result: AuthContext.AuthResult)
      requires pendingCalls > 0
      modifies this
      ensures !isLoading
      ensures pendingCalls == old(pendingCalls) - 1
      ensures result.success ==> navigatedTo == Some(DASHBOARD_PATH) && error == old(error)
      ensures !result.success ==> navigatedTo == old(navigatedTo) && error == result.message
    {
      if result.success {
        navigatedTo := Some(DASHBOARD_PATH);
      } else {
        error := result.message;
      }
      isLoading := false;
      pendingCalls := pendingCalls - 1;
    }
  }
}
