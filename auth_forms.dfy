/** The Login and Register forms of `show_auth_page`: which message a button
    press shows, and whether the identity provider is asked at all. The
    provider's reply is an input; the provider itself is not modelled. */
module AuthForms {
  import opened Wrappers

  const MinPasswordLength := 6

  const FillAllFields := "Please fill in all fields"
  const PasswordsDiffer := "Passwords do not match"
  const PasswordTooShortText := "Password must be at least 6 characters long"
  const RegisteredText := "Registration successful! Please check your email to verify your account."
  const VerifyFirstText := "After verification, you can login with your credentials."
  const RegistrationRefused := "Registration failed. Please try again."
  const NoDatabase := "Database connection not available."
  const RegistrationErrorPrefix := "Registration error: "
  const RegistrationFailedPrefix := "Registration failed: "

  const EnterBoth := "Please enter both email and password"
  const LoggedInText := "Login successful!"
  const LoginRefused := "Login failed. Please check your credentials."
  const NoDatabaseTryGuest := "Database connection not available. Please try guest mode."
  const LoginErrorPrefix := "Login error: "
  const LoginFailedPrefix := "Login failed: "

  /** The verdict of the registration checks, in the order the form applies them. */
  datatype RegistrationCheck = MissingFields | PasswordMismatch | PasswordTooShort | Acceptable

  /** What the page shows after a button press: an error banner (`st.error`),
      or a success banner (`st.success`) optionally followed by an info
      banner (`st.info`). */
  datatype Notice = ErrorBanner(text: string) | Confirmation(success: string, info: Option<string>)

  /** What the identity provider does when asked: raise with a message, or
      answer with or without a user (the user's id). */
  datatype ProviderReply = ProviderRaised(error: string) | ProviderAnswered(user: Option<string>)

  /** A press of Register: whether sign-up was requested and what is shown. */
  datatype Registration = Registration(signUpRequested: bool, notice: Notice)

  /** A press of Login: whether sign-in was requested, what is shown, and the
      user that is now signed in, if any. */
  datatype Login = Login(signInRequested: bool, notice: Notice, signedIn: Option<string>)

  /** The registration checks: any empty field first, then the confirmation,
      then the password length; a password of exactly the minimum length passes. */
  function CheckRegistration(name: string, email: string, password: string, confirm: string): (v: RegistrationCheck)
    ensures v == MissingFields <==> name == "" || email == "" || password == "" || confirm == ""
    ensures v == PasswordMismatch <==>
      name != "" && email != "" && password != "" && confirm != "" && password != confirm
    ensures v == PasswordTooShort <==>
      name != "" && email != "" && password != "" && password == confirm && |password| < MinPasswordLength
    ensures v == Acceptable <==>
      name != "" && email != "" && password != "" && password == confirm && |password| >= MinPasswordLength
  {
    if name != "" && email != "" && password != "" && confirm != "" then
      if password == confirm then
        if |password| >= MinPasswordLength then Acceptable else PasswordTooShort
      else PasswordMismatch
    else MissingFields
  }

  /** A password that passes the checks is at least six characters long and
      equal to its confirmation; one of six characters passes when the other
      fields are filled in. */
  lemma AcceptedPasswordLength(name: string, email: string, password: string, confirm: string)
    ensures CheckRegistration(name, email, password, confirm) == Acceptable ==>
      |confirm| >= 6 && password == confirm
    ensures name != "" && email != "" && |password| == 6 && password == confirm ==>
      CheckRegistration(name, email, password, confirm) == Acceptable
    ensures name != "" && email != "" && 0 < |password| < 6 && password == confirm ==>
      CheckRegistration(name, email, password, confirm) == PasswordTooShort
  {
  }

  /** A press of Register. The provider is asked only when every check passes
      and a database client exists; its error is wrapped twice, once by the
      registration helper and once by the form. */
  function Register(name: string, email: string, password: string, confirm: string,
                    databaseAvailable: bool, reply: ProviderReply): (r: Registration)
    ensures r.signUpRequested <==> CheckRegistration(name, email, password, confirm) == Acceptable && databaseAvailable
    ensures r.notice.Confirmation? <==> r.signUpRequested && reply.ProviderAnswered? && reply.user.Some?
    ensures r.notice.Confirmation? ==> r.notice == Confirmation(RegisteredText, Some(VerifyFirstText))
    ensures CheckRegistration(name, email, password, confirm) == MissingFields ==> r.notice == ErrorBanner(FillAllFields)
    ensures CheckRegistration(name, email, password, confirm) == PasswordMismatch ==> r.notice == ErrorBanner(PasswordsDiffer)
    ensures CheckRegistration(name, email, password, confirm) == PasswordTooShort ==> r.notice == ErrorBanner(PasswordTooShortText)
    ensures CheckRegistration(name, email, password, confirm) == Acceptable && !databaseAvailable ==>
      r.notice == ErrorBanner(NoDatabase)
    ensures r.signUpRequested && reply == ProviderAnswered(None) ==> r.notice == ErrorBanner(RegistrationRefused)
    ensures r.signUpRequested && reply.ProviderRaised? ==>
      r.notice == ErrorBanner(RegistrationErrorPrefix + RegistrationFailedPrefix + reply.error)
  {
    match CheckRegistration(name, email, password, confirm)
    case MissingFields => Registration(false, ErrorBanner(FillAllFields))
    case PasswordMismatch => Registration(false, ErrorBanner(PasswordsDiffer))
    case PasswordTooShort => Registration(false, ErrorBanner(PasswordTooShortText))
    case Acceptable =>
      if !databaseAvailable then Registration(false, ErrorBanner(NoDatabase))
      else
        match reply
        case ProviderRaised(e) => Registration(true, ErrorBanner(RegistrationErrorPrefix + (RegistrationFailedPrefix + e)))
        case ProviderAnswered(Some(_)) => Registration(true, Confirmation(RegisteredText, Some(VerifyFirstText)))
        case ProviderAnswered(None) => Registration(true, ErrorBanner(RegistrationRefused))
  }

  /** A press of Login. Both fields must be non-empty before anything else
      happens; a user is signed in only when the provider answers with one. */
  function SignIn(email: string, password: string, databaseAvailable: bool, reply: ProviderReply): (r: Login)
    ensures r.signInRequested <==> email != "" && password != "" && databaseAvailable
    ensures (email == "" || password == "") ==> r.notice == ErrorBanner(EnterBoth)
    ensures r.signedIn.Some? <==> r.signInRequested && reply.ProviderAnswered? && reply.user.Some?
    ensures r.signedIn.Some? ==> r.signedIn == reply.user && r.notice == Confirmation(LoggedInText, None)
    ensures r.notice.Confirmation? ==> r.signedIn.Some?
    ensures email != "" && password != "" && !databaseAvailable ==> r.notice == ErrorBanner(NoDatabaseTryGuest)
    ensures r.signInRequested && reply == ProviderAnswered(None) ==> r.notice == ErrorBanner(LoginRefused)
    ensures r.signInRequested && reply.ProviderRaised? ==>
      r.notice == ErrorBanner(LoginErrorPrefix + LoginFailedPrefix + reply.error)
  {
    if email != "" && password != "" then
      if !databaseAvailable then Login(false, ErrorBanner(NoDatabaseTryGuest), None)
      else
        match reply
        case ProviderRaised(e) => Login(true, ErrorBanner(LoginErrorPrefix + (LoginFailedPrefix + e)), None)
        case ProviderAnswered(Some(user)) => Login(true, Confirmation(LoggedInText, None), Some(user))
        case ProviderAnswered(None) => Login(true, ErrorBanner(LoginRefused), None)
    else Login(false, ErrorBanner(EnterBoth), None)
  }
}
