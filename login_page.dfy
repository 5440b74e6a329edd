/** The sign-in form. It checks the credentials against one hard-coded pair
    and, when they differ, shows an error in a snackbar; a match changes
    nothing on the page. */
module LoginPage {
  import opened Common

  const AdminLogin: string := "admin"
  const AdminPassword: string := "password"
  const LoginError: string := "login.error"

  /** The only pair the form accepts. */
  predicate CredentialsAccepted(login: string, password: string) {
    login == AdminLogin && password == AdminPassword
  }

  /** The page's state slots. */
  class LoginPageState {
    var login: string
    var password: string
    var error: Option<string>
    var open: bool

    constructor ()
      ensures login == "" && password == "" && error == None && !open
    {
      login, password := "", "";
      error := None;
      open := false;
    }

    method SetLogin(value: string)
      modifies this`login
      ensures login == value
    {
      login := value;
    }

    method SetPassword(value: string)
      modifies this`password
      ensures password == value
    {
      password := value;
    }

    /** handleLogin: accepted credentials leave the page as it was; any others
        set the error and open the snackbar. */
    method HandleLogin()
      modifies this`error, this`open
      ensures CredentialsAccepted(login, password) ==> error == old(error) && open == old(open)
      ensures !CredentialsAccepted(login, password) ==> error == Some(LoginError) && open
    {
      if login == AdminLogin && password == AdminPassword {
        return;
      }
      error := Some(LoginError);
      open := true;
    }

    /** Enter in either field runs the check; other keys do nothing. */
    method HandleKeyDown(key: string)
      modifies this`error, this`open
      ensures key != "Enter" ==> error == old(error) && open == old(open)
      ensures key == "Enter" && CredentialsAccepted(login, password) ==> error == old(error) && open == old(open)
      ensures key == "Enter" && !CredentialsAccepted(login, password) ==> error == Some(LoginError) && open
    {
      if key == "Enter" {
        HandleLogin();
      }
    }

    /** Closing the snackbar hides it and keeps the error text. */
    method CloseSnackbar()
      modifies this`open
      ensures !open && error == old(error)
    {
      open := false;
    }
  }
}
