/** The profile page: a loaded record, an editable draft, and the handlers
    that move between loading, viewing and editing. */
module ProfilePage {
  import opened Common

  /** What the component renders. */
  datatype View = ErrorView(message: string) | LoadingView | EditView | ReadView

  const MustLogIn := "You must be logged in to access this page."
  const LoadFailed := "Failed to load profile data."
  const LoadError := "An unexpected error occurred while fetching profile data."
  const ProfileUpdated := "Profile updated successfully!"
  const PasswordUpdated := "Password updated. Please log in again."
  const UpdateFailed := "Failed to update profile."
  const SaveError := "An error occurred while saving profile data."

  /** The `Profile` component. The five state hooks are fields; `session` is the
      `email` entry of local storage, `alerts` the browser alerts shown, in
      order, and `redirectedToLogin` whether the router was sent to the login
      page. Records are JSON objects, kept as their string-valued fields. */
  class Profile {
    var userData: Option<Json>
    var updatedData: Json
    var isEditing: bool
    var error: string
    var profilePicturePreview: Option<string>
    var session: Option<string>
    var alerts: seq<string>
    var redirectedToLogin: bool

    /** Editing only happens over a loaded record, and a loaded record is
        never accompanied by a load error. */
    ghost predicate Valid()
      reads this
    {
      (isEditing ==> userData != None) && (userData != None ==> error == "")
    }

    /** The state of a freshly mounted page, before its effect runs. */
    constructor (session: Option<string>)
      ensures Valid()
      ensures userData == None && updatedData == map[] && !isEditing && error == ""
      ensures profilePicturePreview == None && this.session == session
      ensures alerts == [] && !redirectedToLogin
    {
      userData := None;
      updatedData := map[];
      isEditing := false;
      error := "";
      profilePicturePreview := None;
      this.session := session;
      alerts := [];
      redirectedToLogin := false;
    }

    /** The render's choice of view: an error wins, then a missing record shows
        the loading view, then `isEditing` picks the form or the read view. */
    function CurrentView(): (v: View)
      reads this
      ensures v.ErrorView? <==> error != ""
      ensures v.ErrorView? ==> v.message == error
      ensures v == LoadingView <==> error == "" && userData == None
      ensures v == EditView <==> error == "" && userData != None && isEditing
      ensures v == ReadView <==> error == "" && userData != None && !isEditing
    {
      if error != "" then ErrorView(error)
      else if userData == None then LoadingView
      else if isEditing then EditView
      else ReadView
    }

    /** `fetchUserData`, run once on mount. `response` is what the
        `GET` request yields; `requested` is the URL it asks for, with the
        stored email pasted in unencoded, and `None` when no request is made. */
    method FetchUserData(response: FetchOutcome) returns (requested: Option<string>)
      requires Valid() && userData == None && error == ""
      modifies this`userData, this`updatedData, this`error, this`alerts, this`redirectedToLogin
      ensures Valid()
      ensures !SignedIn(old(session)) ==>
        requested == None && alerts == old(alerts) + [MustLogIn] && redirectedToLogin &&
        userData == old(userData) && updatedData == old(updatedData) && error == old(error)
      ensures SignedIn(old(session)) ==>
        requested == Some(ProfileUrl(old(session).value)) && alerts == old(alerts) && redirectedToLogin == old(redirectedToLogin)
      ensures SignedIn(old(session)) && response.Answered? && response.ok ==>
        userData == Some(response.body) && updatedData == response.body && error == old(error)
      ensures SignedIn(old(session)) && response.Answered? && !response.ok ==>
        error == MessageOr(response.body, LoadFailed) &&
        userData == old(userData) && updatedData == old(updatedData)
      ensures SignedIn(old(session)) && response.Threw? ==>
        error == LoadError && userData == old(userData) && updatedData == old(updatedData)
    {
      requested := None;
      if !SignedIn(session) {
        alerts := alerts + [MustLogIn];
        redirectedToLogin := true;
        return;
      }
      requested := Some(ProfileUrl(session.value));

      match response
      case Threw =>
        error := LoadError;
      case Answered(ok, data) =>
        if !ok {
          error := MessageOr(data, LoadFailed);
        } else {
          userData := Some(data);
          updatedData := data;
        }
    }

    /** `handleInputChange(field, value)`: the draft's `field` becomes `value`. */
    method InputChange(field: string, value: string)
      modifies this`updatedData
      ensures updatedData == old(updatedData)[field := value]
    {
      updatedData := updatedData[field := value];
    }

    /** `handleProfilePictureUpload`: `file` is the data URL the file reader
        produces for the chosen file, or `None` when no file was chosen. */
    method UploadProfilePicture(file: Option<string>)
      modifies this`updatedData, this`profilePicturePreview
      ensures file == None ==>
        updatedData == old(updatedData) && profilePicturePreview == old(profilePicturePreview)
      ensures file != None ==>
        updatedData == old(updatedData)["profilePicture" := file.value] &&
        profilePicturePreview == file
    {
      if file == None {
        return;
      }
      var result := file.value;
      updatedData := updatedData["profilePicture" := result];
      profilePicturePreview := Some(result);
    }

    /** `handleSave`. `sent` is the body of the `PUT /api/profile` request: the
        whole draft; `response` is what that request yields. The loaded record
        and the draft are never changed here. */
    method Save(response: FetchOutcome) returns (sent: Json)
      requires Valid()
      modifies this`isEditing, this`alerts, this`session, this`redirectedToLogin
      ensures Valid()
      ensures sent == updatedData
      ensures userData == old(userData) && updatedData == old(updatedData)
      ensures response.Answered? && response.ok ==>
        !isEditing &&
        (Truthy(updatedData, "password") ==>
          alerts == old(alerts) + [ProfileUpdated, PasswordUpdated] &&
          session == None && redirectedToLogin) &&
        (!Truthy(updatedData, "password") ==>
          alerts == old(alerts) + [ProfileUpdated] &&
          session == old(session) && redirectedToLogin == old(redirectedToLogin))
      ensures response.Answered? && !response.ok ==>
        isEditing == old(isEditing) && alerts == old(alerts) + [MessageOr(response.body, UpdateFailed)] &&
        session == old(session) && redirectedToLogin == old(redirectedToLogin)
      ensures response.Threw? ==>
        isEditing == old(isEditing) && alerts == old(alerts) + [SaveError] &&
        session == old(session) && redirectedToLogin == old(redirectedToLogin)
    {
      sent := updatedData;
      match response
      case Threw =>
        alerts := alerts + [SaveError];
      case Answered(ok, data) =>
        if ok {
          alerts := alerts + [ProfileUpdated];
          if Truthy(updatedData, "password") {
            alerts := alerts + [PasswordUpdated];
            session := None;
            redirectedToLogin := true;
          }
          isEditing := false;
        } else {
          alerts := alerts + [MessageOr(data, UpdateFailed)];
        }
    }

    /** The read view's Edit Profile button. */
    method Edit()
      requires Valid() && CurrentView() == ReadView
      modifies this`isEditing
      ensures Valid() && isEditing
    {
      isEditing := true;
    }

    /** The form's Cancel button: leaves editing, keeps the draft as it is. */
    method Cancel()
      requires Valid()
      modifies this`isEditing
      ensures Valid() && !isEditing
    {
      isEditing := false;
    }
  }

  /** The URL the profile is fetched from: the email is appended to the query
      as it is, without percent-encoding. */
  function ProfileUrl(email: string): (url: string)
    ensures |url| == |ProfileQuery| + |email|
    ensures url[..|ProfileQuery|] == ProfileQuery && url[|ProfileQuery|..] == email
  {
    ProfileQuery + email
  }

  const ProfileQuery := "/api/profile?email="

  /** `!email` is false: local storage holds a non-empty email. */
  predicate SignedIn(session: Option<string>)
  {
    session != None && session.value != ""
  }

  /** Cancel does not discard the draft: editing a field, cancelling and then
      pressing Edit again shows the form with the abandoned value, and the read
      view in between still shows the loaded record. */
  method CancelKeepsDraft(p: Profile, field: string, value: string)
    requires p.Valid() && p.CurrentView() == ReadView
    modifies p
    ensures p.Valid() && p.CurrentView() == EditView
    ensures p.userData == old(p.userData)
    ensures field in p.updatedData && p.updatedData[field] == value
  {
    p.Edit();
    p.InputChange(field, value);
    p.Cancel();
    assert p.CurrentView() == ReadView;
    p.Edit();
  }

  /** A successful save without a password leaves the read view showing the
      record as it was loaded, not the saved draft. */
  method SavedDraftNotShown(p: Profile, field: string, value: string, body: Json)
    returns (sent: Json)
    requires p.Valid() && p.CurrentView() == EditView && field != "password"
    requires !Truthy(p.updatedData, "password")
    modifies p
    ensures p.Valid() && p.CurrentView() == ReadView
    ensures sent == old(p.updatedData)[field := value]
    ensures p.userData == old(p.userData)
  {
    p.InputChange(field, value);
    sent := p.Save(Answered(true, body));
  }
}
