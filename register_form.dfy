/** The registration page's component state and its handlers: the picture
    upload, the simulated captcha and the submit guard that builds the request. */
module RegisterForm {
  import opened Common
  import Sanitize

  /** The JSON body `handleSubmit` posts to the registration endpoint. */
  datatype Payload = Payload(
    firstName: string,
    lastName: string,
    email: string,
    password: string,
    contact: string,
    profilePicture: Option<string>)

  const CaptchaRequired := "Please complete the ReCAPTCHA verification."
  const PasswordsDiffer := "Passwords do not match!"
  const RegistrationFailed := "Registration failed."
  const RegistrationError := "An error occurred during registration. Please try again."
  const CaptchaVerified := "ReCAPTCHA verified successfully!"
  const RegistrationSucceeded := "Registration successful! Redirecting to login page..."

  /** The request body: the four text fields sanitised, the password verbatim and
      the picture as uploaded. */
  function BuildPayload(firstName: string, lastName: string, email: string, password: string,
                        contact: string, profilePicture: Option<string>): Payload
  {
    Payload(Sanitize.SanitizeInput(firstName), Sanitize.SanitizeInput(lastName),
            Sanitize.SanitizeInput(email), password, Sanitize.SanitizeInput(contact),
            profilePicture)
  }

  /** A sanitised text field: no markup character and no backslash, every `&`
      starting an entity, and decoding it gives back the trimmed input less its
      backslashes. */
  predicate SanitizedFrom(field: string, input: string)
  {
    Sanitize.MarkupFree(field) && Sanitize.AmpersandsEscaped(field) &&
    Sanitize.Unescape(field) == Sanitize.DropBackslashes(Sanitize.Trim(input))
  }

  lemma SanitizedField(input: string)
    ensures SanitizedFrom(Sanitize.SanitizeInput(input), input)
  {
    Sanitize.SanitizedIsMarkupFree(input);
    Sanitize.SanitizedAmpersandsEscaped(input);
    Sanitize.SanitizeRoundTrip(input);
  }

  /** What the request body carries: the names, email and contact sanitised,
      the password and the picture exactly as entered. */
  lemma PayloadSanitized(firstName: string, lastName: string, email: string, password: string,
                         contact: string, profilePicture: Option<string>)
    ensures var p := BuildPayload(firstName, lastName, email, password, contact, profilePicture);
      SanitizedFrom(p.firstName, firstName) && SanitizedFrom(p.lastName, lastName) &&
      SanitizedFrom(p.email, email) && SanitizedFrom(p.contact, contact) &&
      p.password == password && p.profilePicture == profilePicture
  {
    SanitizedField(firstName);
    SanitizedField(lastName);
    SanitizedField(email);
    SanitizedField(contact);
  }

  /** The `Register` component. The text inputs' change handlers assign the
      fields directly; `alerts` records the browser alerts shown, in order, and
      `redirectScheduled` the timed navigation to the login page. */
  class Registration {
    var firstName: string
    var lastName: string
    var email: string
    var password: string
    var confirmPassword: string
    var contact: string
    var profilePicture: Option<string>
    var generalError: string
    var recaptchaVerified: bool
    var alerts: seq<string>
    var redirectScheduled: bool

    /** The state of a freshly mounted form. */
    constructor ()
      ensures firstName == lastName == email == password == confirmPassword == contact == ""
      ensures profilePicture == None && generalError == "" && !recaptchaVerified
      ensures alerts == [] && !redirectScheduled
    {
      firstName, lastName, email := "", "", "";
      password, confirmPassword, contact := "", "", "";
      profilePicture := None;
      generalError := "";
      recaptchaVerified := false;
      alerts := [];
      redirectScheduled := false;
    }

    /** `handleProfilePictureUpload`: `file` is the data URL the file reader
        produces for the chosen file, or `None` when no file was chosen. */
    method UploadProfilePicture(file: Option<string>)
      modifies this`profilePicture
      ensures file == None ==> profilePicture == old(profilePicture)
      ensures file != None ==> profilePicture == file
    {
      if file == None {
        return;
      }
      profilePicture := Some(file.value);
    }

    /** `handleRecaptchaVerify`: the simulated captcha always succeeds. */
    method VerifyRecaptcha()
      modifies this`recaptchaVerified, this`alerts
      ensures recaptchaVerified
      ensures alerts == old(alerts) + [CaptchaVerified]
    {
      recaptchaVerified := true;
      alerts := alerts + [CaptchaVerified];
    }

    /** `handleSubmit`. The captcha guard comes first, then the password match;
        only past both is a request sent, and `sent` is its body. `response` is
        what the request yields; it is not consulted when nothing is sent. */
    method Submit(response: FetchOutcome) returns (sent: Option<Payload>)
      modifies this`generalError, this`alerts, this`redirectScheduled
      ensures !old(recaptchaVerified) ==>
        sent == None && generalError == CaptchaRequired &&
        alerts == old(alerts) && redirectScheduled == old(redirectScheduled)
      ensures old(recaptchaVerified) && old(password) != old(confirmPassword) ==>
        sent == None && generalError == PasswordsDiffer &&
        alerts == old(alerts) && redirectScheduled == old(redirectScheduled)
      ensures old(recaptchaVerified) && old(password) == old(confirmPassword) ==>
        sent == Some(BuildPayload(old(firstName), old(lastName), old(email), old(password), old(contact), old(profilePicture)))
      ensures old(recaptchaVerified) && old(password) == old(confirmPassword) && response.Answered? && !response.ok ==>
        generalError == MessageOr(response.body, RegistrationFailed) &&
        alerts == old(alerts) && redirectScheduled == old(redirectScheduled)
      ensures old(recaptchaVerified) && old(password) == old(confirmPassword) && response.Answered? && response.ok ==>
        generalError == "" && alerts == old(alerts) + [RegistrationSucceeded] && redirectScheduled
      ensures old(recaptchaVerified) && old(password) == old(confirmPassword) && response.Threw? ==>
        generalError == RegistrationError &&
        alerts == old(alerts) && redirectScheduled == old(redirectScheduled)
    {
      generalError := "";
      sent := None;

      if !recaptchaVerified {
        generalError := CaptchaRequired;
        return;
      }

      if password != confirmPassword {
        generalError := PasswordsDiffer;
        return;
      }

      var userData := BuildPayload(firstName, lastName, email, password, contact, profilePicture);
      sent := Some(userData);

      match response
      case Threw =>
        generalError := RegistrationError;
      case Answered(ok, data) =>
        if !ok {
          generalError := MessageOr(data, RegistrationFailed);
          return;
        }
        alerts := alerts + [RegistrationSucceeded];
        redirectScheduled := true;
    }
  }
}
