/** The registration page and the registration endpoint joined through their
    HTTP contract: the form's JSON body becomes the handler's request, and the
    handler's reply becomes the form's response. */
module RegisterFlow {
  import opened Common
  import Sanitize
  import RegisterForm
  import RegisterRoute

  /** The handler's view of the form's body: every field is present, and a
      missing picture arrives as `null`. */
  function Received(p: RegisterForm.Payload): RegisterRoute.Account
  {
    RegisterRoute.Account(p.firstName, p.lastName, p.email, p.password, Some(p.contact), p.profilePicture)
  }

  /** The form's view of the handler's reply: `response.ok` is a 2xx status, and
      the body's `message` is present when the reply carries one. */
  function Delivered(r: RegisterRoute.Reply): (o: FetchOutcome)
    ensures o.Answered? && (o.ok <==> 200 <= r.status < 300)
    ensures r.message != None ==>
      MessageOr(o.body, RegisterForm.RegistrationFailed) ==
      (if r.message.value != "" then r.message.value else RegisterForm.RegistrationFailed)
    ensures r.message == None ==> MessageOr(o.body, RegisterForm.RegistrationFailed) == RegisterForm.RegistrationFailed
  {
    Answered(200 <= r.status < 300, if r.message != None then map["message" := r.message.value] else map[])
  }

  /** A submission that passes the form's guards, end to end. The stored
      document holds the sanitised fields; a duplicate or a bad picture reaches
      the user as the handler's message; and an exception in the handler, which
      replies with status 200, is shown to the user as a successful
      registration although nothing was stored. */
  method SubmitToHandler(form: RegisterForm.Registration, store: RegisterRoute.UserCollection,
                         hash: string -> string, fault: RegisterRoute.Fault)
    returns (reply: RegisterRoute.Reply)
    requires store.Valid() && form.recaptchaVerified && form.password == form.confirmPassword
    modifies form, store
    ensures store.Valid()
    ensures reply == RegisterRoute.Registered ==>
      store.users == old(store.users)[Sanitize.SanitizeInput(old(form.email)) :=
        RegisterRoute.Stored(Received(RegisterForm.BuildPayload(old(form.firstName), old(form.lastName),
          old(form.email), old(form.password), old(form.contact), old(form.profilePicture))), hash)]
    ensures reply != RegisterRoute.Registered ==> store.users == old(store.users)
    ensures reply == RegisterRoute.EmailTaken ==> form.generalError == "Email already registered."
    ensures reply == RegisterRoute.PictureRejected ==> form.generalError == "Invalid profile picture format."
    ensures reply == RegisterRoute.Crashed ==>
      store.users == old(store.users) && form.generalError == "" && form.redirectScheduled
  {
    var p := RegisterForm.BuildPayload(form.firstName, form.lastName, form.email, form.password,
                                       form.contact, form.profilePicture);
    reply := store.Post(Some(Received(p)), hash, fault);
    var sent := form.Submit(Delivered(reply));
  }
}
