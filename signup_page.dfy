/** The registration form: six fields, five of them required, sent to the
    sign-up endpoint; a successful answer with a token logs the user in and
    goes home, anything else shows an error in a snackbar. */
module SignupPage {
  import opened Common

  datatype FormData = FormData(login: string, email: string, password: string,
                               firstName: string, lastName: string, phone: string)

  datatype FormField = LoginField | EmailField | PasswordField | FirstNameField | LastNameField | PhoneField

  /** The sign-up endpoint's answer. Falsy `success` is `false`; a missing
      token or message is "". */
  datatype SignUpResponse = SignUpResponse(success: bool, token: string, message: string)

  /** How a submission ends: logged in with a token, or an error to show. */
  datatype Completion = SignedUp(token: string) | Failed(error: string)

  const SignUpPath: string := "/auth/sign-up"
  const RequiredFields: string := "error.requiredFields"
  const RegisterError: string := "register.error"
  const InvalidData: string := "error.invalidData"
  const UsernameExists: string := "error.usernameExists"

  function EmptyForm(): (f: FormData)
    ensures forall fld :: FieldValue(f, fld) == ""
  {
    FormData("", "", "", "", "", "")
  }

  function FieldValue(f: FormData, field: FormField): string {
    match field
    case LoginField => f.login
    case EmailField => f.email
    case PasswordField => f.password
    case FirstNameField => f.firstName
    case LastNameField => f.lastName
    case PhoneField => f.phone
  }

  /** `{ ...formData, [name]: value }`. */
  function WithField(f: FormData, field: FormField, value: string): (r: FormData)
    ensures FieldValue(r, field) == value
    ensures forall other :: other != field ==> FieldValue(r, other) == FieldValue(f, other)
  {
    match field
    case LoginField => f.(login := value)
    case EmailField => f.(email := value)
    case PasswordField => f.(password := value)
    case FirstNameField => f.(firstName := value)
    case LastNameField => f.(lastName := value)
    case PhoneField => f.(phone := value)
  }

  /** Some required field is empty: every field but the phone is required. */
  predicate MissingRequired(f: FormData) {
    exists fld :: fld != PhoneField && FieldValue(f, fld) == ""
  }

  /** The check the form runs, field by field, agrees with "some field other
      than the phone is empty". */
  lemma MissingRequiredFields(f: FormData)
    ensures MissingRequired(f) <==>
      f.login == "" || f.email == "" || f.password == "" || f.firstName == "" || f.lastName == ""
  {
    if f.login == "" { assert FieldValue(f, LoginField) == ""; }
    if f.email == "" { assert FieldValue(f, EmailField) == ""; }
    if f.password == "" { assert FieldValue(f, PasswordField) == ""; }
    if f.firstName == "" { assert FieldValue(f, FirstNameField) == ""; }
    if f.lastName == "" { assert FieldValue(f, LastNameField) == ""; }
  }

  /** The phone never decides whether the form may be sent. */
  lemma PhoneIsOptional(f: FormData, phone: string)
    ensures MissingRequired(WithField(f, PhoneField, phone)) <==> MissingRequired(f)
  {
    MissingRequiredFields(f);
    MissingRequiredFields(WithField(f, PhoneField, phone));
  }

  /** How a finished call ends. A successful answer with a token signs up; a
      successful answer without both fails with its message, or the default
      when it has none; a failed call with status 400 or 409 shows the
      matching key, and any other failure its own message. */
  function Complete(outcome: ApiOutcome<SignUpResponse>): (c: Completion)
    ensures c.SignedUp? <==> outcome.Ok? && outcome.value.success && outcome.value.token != ""
    ensures c.SignedUp? ==> c.token == outcome.value.token
    ensures outcome.Ok? && c.Failed? ==>
      c.error == if outcome.value.message != "" then outcome.value.message else RegisterError
    ensures outcome.Err? && outcome.status == Some(400) ==> c == Failed(InvalidData)
    ensures outcome.Err? && outcome.status == Some(409) ==> c == Failed(UsernameExists)
    ensures outcome.Err? && outcome.status != Some(400) && outcome.status != Some(409) ==> c == Failed(outcome.message)
  {
    match outcome
    case Ok(response) =>
      if response.success && response.token != "" then SignedUp(response.token)
      else Failed(if response.message != "" then response.message else RegisterError)
    case Err(status, message) =>
      if status == Some(400) then Failed(InvalidData)
      else if status == Some(409) then Failed(UsernameExists)
      else Failed(message)
  }

  /** The snackbar never opens empty when failed calls carry a message. */
  lemma FailureIsExplained(outcome: ApiOutcome<SignUpResponse>)
    requires outcome.Err? ==> outcome.message != ""
    ensures Complete(outcome).Failed? ==> Complete(outcome).error != ""
  {
  }

  /** The page's state slots. */
  class SignupPageState {
    var form: FormData
    var error: Option<string>
    var open: bool
    var loading: bool

    constructor ()
      ensures form == EmptyForm() && error == None && !open && !loading
    {
      form := EmptyForm();
      error := None;
      open := false;
      loading := false;
    }

    method HandleChange(field: FormField, value: string)
      modifies this`form
      ensures form == WithField(old(form), field, value)
    {
      form := WithField(form, field, value);
    }

    /** The first half of handleRegister: an incomplete form shows the
        required-fields error and sends nothing; a complete one is sent and
        the button shows that it is loading. */
    method Submit() returns (body: Option<FormData>)
      modifies this`error, this`open, this`loading
      ensures MissingRequired(form) ==>
        body == None && error == Some(RequiredFields) && open && loading == old(loading)
      ensures !MissingRequired(form) ==>
        body == Some(form) && loading && error == old(error) && open == old(open)
    {
      MissingRequiredFields(form);
      if form.login == "" || form.email == "" || form.password == "" || form.firstName == "" || form.lastName == "" {
        error := Some(RequiredFields);
        open := true;
        body := None;
        return;
      }
      loading := true;
      body := Some(form);
    }

    /** The second half: sign in with the token and go to "/", or show the
        error; the `finally` turns loading off either way. */
    method Finish(outcome: ApiOutcome<SignUpResponse>) returns (loginWith: Option<string>, navigateTo: Option<string>)
      modifies this`error, this`open, this`loading
      ensures !loading
      ensures Complete(outcome).SignedUp? ==>
        loginWith == Some(Complete(outcome).token) && navigateTo == Some("/") && error == old(error) && open == old(open)
      ensures Complete(outcome).Failed? ==>
        loginWith == None && navigateTo == None && error == Some(Complete(outcome).error) && open
    {
      match Complete(outcome) {
        case SignedUp(token) =>
          loginWith := Some(token);
          navigateTo := Some("/");
        case Failed(message) =>
          error := Some(message);
          open := true;
          loginWith := None;
          navigateTo := None;
      }
      loading := false;
    }

    /** handleRegister as a whole, with the call's outcome given. */
    method HandleRegister(outcome: ApiOutcome<SignUpResponse>)
      returns (body: Option<FormData>, loginWith: Option<string>, navigateTo: Option<string>)
      modifies this`error, this`open, this`loading
      ensures body.Some? <==> !MissingRequired(form)
      ensures MissingRequired(form) ==>
        error == Some(RequiredFields) && open && loading == old(loading) && loginWith == None && navigateTo == None
      ensures !MissingRequired(form) ==> body == Some(form) && !loading
      ensures !MissingRequired(form) && Complete(outcome).SignedUp? ==>
        loginWith == Some(Complete(outcome).token) && navigateTo == Some("/") && error == old(error) && open == old(open)
      ensures !MissingRequired(form) && Complete(outcome).Failed? ==>
        loginWith == None && navigateTo == None && error == Some(Complete(outcome).error) && open
    {
      body := Submit();
      if body.None? {
        loginWith, navigateTo := None, None;
        return;
      }
      loginWith, navigateTo := Finish(outcome);
    }

    /** Enter in any field registers; other keys do nothing. */
    method HandleKeyDown(key: string, outcome: ApiOutcome<SignUpResponse>)
      returns (body: Option<FormData>, loginWith: Option<string>, navigateTo: Option<string>)
      modifies this`error, this`open, this`loading
      ensures key != "Enter" ==> body == None && loginWith == None && navigateTo == None &&
                                 error == old(error) && open == old(open) && loading == old(loading)
      ensures key == "Enter" ==> (body.Some? <==> !MissingRequired(form))
      ensures key == "Enter" && MissingRequired(form) ==>
        error == Some(RequiredFields) && open && loading == old(loading) && loginWith == None && navigateTo == None
      ensures key == "Enter" && !MissingRequired(form) ==> body == Some(form) && !loading
      ensures key == "Enter" && !MissingRequired(form) && Complete(outcome).SignedUp? ==>
        loginWith == Some(Complete(outcome).token) && navigateTo == Some("/") && error == old(error) && open == old(open)
      ensures key == "Enter" && !MissingRequired(form) && Complete(outcome).Failed? ==>
        loginWith == None && navigateTo == None && error == Some(Complete(outcome).error) && open
    {
      if key == "Enter" {
        body, loginWith, navigateTo := HandleRegister(outcome);
      } else {
        body, loginWith, navigateTo := None, None, None;
      }
    }

    method CloseSnackbar()
      modifies this`open
      ensures !open
    {
      open := false;
    }
  }
}
