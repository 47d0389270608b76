/**
 * The sign-up page: the validators of its reactive form, the password
 * confirmation check, the request sent to `/api/v1/auth/register` and the text
 * shown for each kind of failure.
 */
module RegisterForm {
  import opened Wrappers
  import opened Text
  import opened JsValues
  import UserServiceImpl
  import AuthController
  import UserModel

  /** The form's values: every text control starts as '' and the terms box as false. */
  datatype SignupForm = SignupForm(
    username: string, email: string, gender: string, password: string, confirmPassword: string, terms: bool)

  const EmptySignup: SignupForm := SignupForm("", "", "", "", "", false)

  /** `passwordMatchValidator`: true stands for `{ mismatch: true }`, false for null. */
  function PasswordMismatch(password: string, confirm: string): (mismatch: bool)
    ensures password == [] || confirm == [] ==> !mismatch
    ensures mismatch <==> password != [] && confirm != [] && password != confirm
  {
    if password == [] || confirm == [] then false else password != confirm
  }

  /** `required`, `minLength(3)` and `maxLength(50)`; the length validators pass an empty value. */
  predicate UsernameValid(u: string) {
    u != [] && (u == [] || |u| >= 3) && |u| <= 50
  }

  /** `required` and `minLength(6)`. */
  predicate PasswordValid(p: string) {
    p != [] && (p == [] || |p| >= 6)
  }

  /**
   * `signupForm.invalid` is false: every control passes its validators and
   * the group passes the password check. The email pattern is a parameter;
   * `Validators.email` passes an empty value, which `required` refuses.
   */
  predicate SignupValid(f: SignupForm, isEmail: string -> bool) {
    UsernameValid(f.username)
    && f.email != [] && (f.email == [] || isEmail(f.email))
    && f.gender != []
    && PasswordValid(f.password)
    && f.confirmPassword != []
    && f.terms
    && !PasswordMismatch(f.password, f.confirmPassword)
  }

  /** The field rules in plain terms: lengths, required texts, matching passwords, accepted terms. */
  lemma SignupRules(f: SignupForm, isEmail: string -> bool)
    ensures SignupValid(f, isEmail) <==>
      3 <= |f.username| <= 50 && |f.password| >= 6 && f.email != [] && isEmail(f.email)
      && f.gender != [] && f.confirmPassword == f.password && f.terms
  {
  }

  /** `registerData`: the four fields the backend reads, with the gender in lower case. */
  function RegisterData(f: SignupForm): (r: UserServiceImpl.RegisterRequest)
    ensures r.username == f.username && r.email == f.email && r.password == f.password
    ensures r.gender == ToLower(f.gender)
  {
    UserServiceImpl.RegisterRequest(f.username, f.email, f.password, ToLower(f.gender))
  }

  /** The gender sent holds no upper-case letter, so "Male" from the select is sent as "male". */
  lemma {:induction false} SentGenderIsLowerCase(f: SignupForm)
    ensures forall i :: 0 <= i < |RegisterData(f).gender| ==> !('A' <= RegisterData(f).gender[i] <= 'Z')
    ensures f.gender == "Male" ==> RegisterData(f).gender == "male"
  {
    if f.gender == "Male" {
      var g := ToLower(f.gender);
      assert g[0] == 'm';
      assert g == "male";
    }
  }

  const InvalidData: string := "Invalid registration data"
  const CannotConnect: string := "Cannot connect to server. Please check if the backend is running."
  const RegistrationFailed: string := "Registration failed. Please try again."
  const DefaultSuccess: string := "You have successfully registered"

  /** `errorMessage` for a failed request: the server's text on 400, else a fixed text per status. */
  function ErrorMessage(status: int, serverError: Option<string>): (m: string)
    ensures status == 400 && Truthy(serverError) ==> m == serverError.value
    ensures status == 400 && !Truthy(serverError) ==> m == InvalidData
    ensures status == 0 ==> m == CannotConnect
    ensures status != 400 && status != 0 ==> m == RegistrationFailed
    ensures m != []
  {
    if status == 400 then (if Truthy(serverError) then serverError.value else InvalidData)
    else if status == 0 then CannotConnect
    else RegistrationFailed
  }

  /** `response.message || 'You have successfully registered'`. */
  function SuccessText(message: Option<string>): (t: string)
    ensures Truthy(message) ==> t == message.value
    ensures !Truthy(message) ==> t == DefaultSuccess
  {
    if Truthy(message) then message.value else DefaultSuccess
  }

  /**
   * A rejection by the backend's `register` reaches the page as its own
   * text: a taken username or e-mail is shown word for word.
   */
  lemma BackendRejectionShown(outcome: Result<UserModel.User, string>)
    requires outcome.Err? && outcome.error != []
    ensures AuthController.RegisterResponse(outcome).status == 400
    ensures ErrorMessage(AuthController.RegisterResponse(outcome).status,
                         Some(AuthController.RegisterResponse(outcome).body.error)) == outcome.error
  {
  }

  class Register {
    var form: SignupForm
    var touched: bool
    var isLoading: bool
    var errorMessage: string
    var successMessage: string
    var requests: seq<UserServiceImpl.RegisterRequest>
    /** The texts of the success dialogs shown. */
    var dialogs: seq<string>
    var navigations: seq<string>

    /** `ngOnInit` builds the empty form. */
    constructor ()
      ensures form == EmptySignup && !touched && !isLoading
      ensures errorMessage == [] && successMessage == [] && requests == [] && dialogs == [] && navigations == []
    {
      form := EmptySignup;
      touched := false;
      isLoading := false;
      errorMessage := [];
      successMessage := [];
      requests := [];
      dialogs := [];
      navigations := [];
    }

    /** `onSubmit`: an invalid form only marks its controls as touched; a valid one sends the request. */
    method OnSubmit(isEmail: string -> bool)
      modifies this`touched, this`isLoading, this`errorMessage, this`successMessage, this`requests
      ensures !SignupValid(form, isEmail) ==>
        touched && requests == old(requests) && isLoading == old(isLoading)
        && errorMessage == old(errorMessage) && successMessage == old(successMessage)
      ensures SignupValid(form, isEmail) ==>
        isLoading && errorMessage == [] && successMessage == [] && touched == old(touched)
        && requests == old(requests) + [RegisterData(form)]
    {
      if !SignupValid(form, isEmail) {
        touched := true;
        return;
      }
      isLoading := true;
      errorMessage := [];
      successMessage := [];
      requests := requests + [RegisterData(form)];
    }

    /** The account was created: the dialog shows the server's message or the default text. */
    method OnRegisterSuccess(message: Option<string>)
      modifies this`isLoading, this`dialogs
      ensures !isLoading && dialogs == old(dialogs) + [SuccessText(message)]
    {
      isLoading := false;
      dialogs := dialogs + [SuccessText(message)];
    }

    /** The success dialog was closed: the page moves on to the login page. */
    method OnDialogClosed()
      modifies this`navigations
      ensures navigations == old(navigations) + ["/login"]
    {
      navigations := navigations + ["/login"];
    }

    /** The request failed with an HTTP status and, maybe, `err.error.error`. */
    method OnRegisterError(status: int, serverError: Option<string>)
      modifies this`isLoading, this`errorMessage
      ensures !isLoading && errorMessage == ErrorMessage(status, serverError)
    {
      isLoading := false;
      errorMessage := ErrorMessage(status, serverError);
    }
  }
}
