/**
 * The sign-up page: four text inputs, a form error line, and the submit handler that checks
 * the inputs before handing them to the auth store's `signup` action. The action itself is
 * not part of this model; only its outcome (it completes or it throws) is an input, and the
 * calls made to it and the navigations requested are recorded as logs.
 */
module SignUp {

  const FillOutMessage: string := "Please fill out all fields."
  const MismatchMessage: string := "Passwords do not match"
  const VerifyEmailPath: string := "/verify-email"

  /** What the checks at the top of handleSignUp decide. */
  datatype Verdict = MissingFields | PasswordMismatch | Ready

  /** The two early-return checks, in source order: any empty input first, then unequal passwords. */
  function CheckForm(name: string, email: string, password: string, confirmPassword: string): (v: Verdict)
    ensures v == MissingFields <==> name == "" || email == "" || password == "" || confirmPassword == ""
    ensures v == PasswordMismatch <==>
      name != "" && email != "" && password != "" && confirmPassword != "" && password != confirmPassword
    ensures v == Ready <==>
      name != "" && email != "" && password != "" && password == confirmPassword
  {
    if name == "" || email == "" || password == "" || confirmPassword == "" then MissingFields
    else if password != confirmPassword then PasswordMismatch
    else Ready
  }

  /** The message a verdict leaves in `formError`: empty once the checks pass. */
  function VerdictMessage(v: Verdict): (m: string)
    ensures m == "" <==> v == Ready
  {
    match v
    case MissingFields => FillOutMessage
    case PasswordMismatch => MismatchMessage
    case Ready => ""
  }

  /** An empty input is reported even when the passwords also differ. */
  lemma EmptyFieldFirst(name: string, email: string, password: string, confirmPassword: string)
    requires name == "" || email == "" || password == "" || confirmPassword == ""
    ensures VerdictMessage(CheckForm(name, email, password, confirmPassword)) == FillOutMessage
  {
  }

  /** One call of the auth store's `signup` action, arguments in call order. */
  datatype SignupCall = SignupCall(email: string, password: string, name: string)

  /** The four inputs of the page. */
  datatype Input = NameInput | EmailInput | PasswordInput | ConfirmInput

  class SignUpForm {
    var name: string
    var email: string
    var password: string
    var confirmPassword: string
    var formError: string
    /** Every call made to `signup`, oldest first. */
    var signupCalls: seq<SignupCall>
    /** Every path passed to `navigate`, oldest first. */
    var navigations: seq<string>

    constructor ()
      ensures name == "" && email == "" && password == "" && confirmPassword == "" && formError == ""
      ensures signupCalls == [] && navigations == []
    {
      name, email, password, confirmPassword, formError := "", "", "", "", "";
      signupCalls, navigations := [], [];
    }

    /** The onChange handler of an input: stores the value and clears the form error. */
    method Edit(input: Input, value: string)
      modifies this`name, this`email, this`password, this`confirmPassword, this`formError
      ensures formError == ""
      ensures name == (if input == NameInput then value else old(name))
      ensures email == (if input == EmailInput then value else old(email))
      ensures password == (if input == PasswordInput then value else old(password))
      ensures confirmPassword == (if input == ConfirmInput then value else old(confirmPassword))
    {
      match input {
        case NameInput => name := value;
        case EmailInput => email := value;
        case PasswordInput => password := value;
        case ConfirmInput => confirmPassword := value;
      }
      formError := "";
    }

    /**
     * handleSignUp: reports the first failed check, or clears the error, calls `signup` once with
     * (email, password, name) and navigates to the verification page only when the call completes.
     */
    method HandleSignUp(signupSucceeds: bool)
      modifies this`formError, this`signupCalls, this`navigations
      ensures formError == VerdictMessage(CheckForm(name, email, password, confirmPassword))
      ensures CheckForm(name, email, password, confirmPassword) != Ready ==>
        signupCalls == old(signupCalls) && navigations == old(navigations)
      ensures CheckForm(name, email, password, confirmPassword) == Ready ==>
        signupCalls == old(signupCalls) + [SignupCall(email, password, name)]
      ensures CheckForm(name, email, password, confirmPassword) == Ready ==>
        navigations == old(navigations) + (if signupSucceeds then [VerifyEmailPath] else [])
    {
      if name == "" || email == "" || password == "" || confirmPassword == "" {
        formError := FillOutMessage;
        return;
      }
      if password != confirmPassword {
        formError := MismatchMessage;
        return;
      }
      formError := "";
      signupCalls := signupCalls + [SignupCall(email, password, name)];
      if signupSucceeds {
        navigations := navigations + [VerifyEmailPath];
      }
    }

    /** Pressing the submit button, which is disabled while the store is loading. */
    method Submit(isLoading: bool, signupSucceeds: bool)
      modifies this`formError, this`signupCalls, this`navigations
      ensures isLoading ==> formError == old(formError) && signupCalls == old(signupCalls) && navigations == old(navigations)
      ensures !isLoading ==> formError == VerdictMessage(CheckForm(name, email, password, confirmPassword))
      ensures !isLoading && CheckForm(name, email, password, confirmPassword) == Ready ==>
        signupCalls == old(signupCalls) + [SignupCall(email, password, name)]
      ensures !isLoading && CheckForm(name, email, password, confirmPassword) == Ready ==>
        navigations == old(navigations) + (if signupSucceeds then [VerifyEmailPath] else [])
      ensures isLoading || CheckForm(name, email, password, confirmPassword) != Ready ==>
        signupCalls == old(signupCalls) && navigations == old(navigations)
    {
      if !isLoading {
        HandleSignUp(signupSucceeds);
      }
    }
  }
}
