# Storefront registration and profile editing, modelled in Dafny

This project models the three pieces of a small Next.js storefront that have
behaviour worth stating precisely:

- **The registration page** (`src/app/Register/page.tsx`). `sanitizeInput` trims a
  field, HTML-escapes `&`, `<`, `>`, `"` and `'` (ampersand first) and deletes
  backslashes. The page's submit handler checks the captcha flag and then the
  password confirmation. Only then does it post the sanitised names, email and
  contact together with the raw password and the uploaded picture.
- **The registration endpoint** (`src/app/api/register/route.ts`). It rejects a
  picture that is not a `data:image` URL with 400. It rejects an email already in
  the collection with 409. Otherwise it inserts one document whose password is
  the bcrypt hash.
- **The profile page** (`src/app/Profile/page.tsx`). It holds a loaded record
  (`userData`), an editable draft (`updatedData`), an editing flag, a load error
  and a picture preview. Its handlers load, edit, upload, save, cancel and enter
  editing.

Modules: two for the registration page (`Sanitize` and `RegisterForm`), one for
each of the other two source files, a shared `Common`, and `RegisterFlow`, which
joins the form to the endpoint:

- `Common` (`common.dfy`): optional values, JSON bodies (as their string fields),
  the outcome of a `fetch`, and `data.message || fallback`.
- `Sanitize` (`sanitize.dfy`): `sanitizeInput` written as the source writes it: a
  trim followed by six chained global replacements. It is then proved equal to a
  per-character escape map. Three properties are proved of that map: the output
  is free of markup characters, every `&` starts an entity, and an entity decoder
  gives back the trimmed input less its backslashes.
- `RegisterForm` (`register_form.dfy`): the `Register` component as a class. Its
  fields are the component's state hooks, plus the alerts it shows and the
  scheduled redirect.
- `RegisterRoute` (`register_route.dfy`): the collection as a class holding a map
  from email to document. `POST` is a method with the source's early returns.
  bcrypt is a function parameter. Each throwing call is a `Fault` parameter.
- `ProfilePage` (`profile_page.dfy`): the `Profile` component as a class. It has
  the five state hooks, plus the local-storage session, the alerts and the
  router redirect.
- `RegisterFlow` (`register_flow.dfy`): the form and the endpoint joined through
  their JSON request and reply.

The network, the file reader, `alert`, `localStorage`, the router and bcrypt are
not executed. Each becomes a parameter (the response a request yields, the data
URL a file yields, the hash function) or a recorded field (`alerts`,
`redirectScheduled`, `redirectedToLogin`, `session`). Each handler is modelled as
one atomic step.

Behaviours of the code worth knowing:

- A successful registration replies with status 200.
- A thrown error in the endpoint also replies with status 200, with
  `success: false`, so the registration page reports it as a success.
- Cancel keeps the draft: pressing Edit again shows the abandoned edits.
- A successful save does not copy the draft into the displayed record.
- A successful save logs the user out whenever the draft's `password` field is
  non-empty, whether or not the password was changed.

## Model

| member | source | states |
|---|---|---|
| `Sanitize.TrimStart` | src/app/Register/page.tsx:16 | the result is a suffix of the input; everything dropped is white space; it does not start with white space |
| `Sanitize.TrimEnd` | src/app/Register/page.tsx:16 | the result is a prefix of the input; everything dropped is white space; it does not end with white space |
| `Sanitize.Trim` | src/app/Register/page.tsx:16 | `trim()` yields a slice of the input with only white space before and after it, and it neither starts nor ends with white space |
| `Sanitize.EscapeChar` | src/app/Register/page.tsx:18-23 | a backslash, and only a backslash, maps to the empty string; every character other than the five specials and the backslash maps to itself |
| `Sanitize.EscapeMap` | src/app/Register/page.tsx:17-23 | escaping grows a string at most six-fold |
| `Sanitize.EscapeChainChar` | src/app/Register/page.tsx:17-23 | on one character, the six chained replacements give exactly that character's escape: later stages never touch the entities earlier stages produce |
| `Sanitize.EscapeChainIsMap` | src/app/Register/page.tsx:17-23 | the chain of replacements equals the per-character escape map, in order |
| `Sanitize.SanitizeIsEscapeMap` | src/app/Register/page.tsx:15-24 | `sanitizeInput(s)` is the escape map over `trim(s)` |
| `Sanitize.EscapeMapMarkupFree` | src/app/Register/page.tsx:18-23 | the escape map of any string contains no `<`, `>`, `"`, `'` or `\` |
| `Sanitize.EscapeMapAmpersandsEscaped` | src/app/Register/page.tsx:18-22 | every `&` in the escape map of any string starts `&amp;`, `&lt;`, `&gt;`, `&quot;` or `&#039;` |
| `Sanitize.SanitizedIsMarkupFree` | src/app/Register/page.tsx:15-24 | the output of `sanitizeInput` contains no `<`, `>`, `"`, `'` or `\` |
| `Sanitize.SanitizedAmpersandsEscaped` | src/app/Register/page.tsx:17-23 | every `&` in the output of `sanitizeInput` starts one of the five entities, because `&` is escaped first |
| `Sanitize.DropBackslashes` | src/app/Register/page.tsx:23 | the chain's last stage, replacing backslashes by nothing, leaves none and never lengthens the string |
| `Sanitize.UnescapeEscapeMap` | src/app/Register/page.tsx:17-23 | decoding the five entities inverts the escape map up to the deleted backslashes |
| `Sanitize.SanitizeRoundTrip` | src/app/Register/page.tsx:15-24 | decoding the output of `sanitizeInput(s)` gives `trim(s)` with its backslashes deleted: nothing else is lost |
| `RegisterForm.PayloadSanitized` | src/app/Register/page.tsx:68-75 | the request body carries sanitised first name, last name, email and contact; the password is verbatim; the picture is unchanged |
| `Common.MessageOr` | src/app/Register/page.tsx:88 | `data.message` when it is a non-empty string, the fallback otherwise; never empty when the fallback is not |
| `RegisterForm.Registration.constructor` | src/app/Register/page.tsx:27-35 | the form starts with empty fields, no picture, no error and the captcha unverified |
| `RegisterForm.Registration.UploadProfilePicture` | src/app/Register/page.tsx:37-46 | with no file chosen the picture is unchanged; otherwise it becomes the file's data URL |
| `RegisterForm.Registration.VerifyRecaptcha` | src/app/Register/page.tsx:48-52 | the captcha flag becomes true and the confirmation alert is shown |
| `RegisterForm.Registration.Submit` | src/app/Register/page.tsx:54-100 | an unverified captcha sets the captcha error and sends nothing, before the passwords are compared; mismatched passwords set "Passwords do not match!" and send nothing; otherwise the sanitised body is sent; a non-ok response sets the server's message or "Registration failed."; an ok response clears the error, alerts and schedules the redirect; a thrown error sets the generic message |
| `RegisterRoute.Stored` | src/app/api/register/route.ts:30-41 | the stored document's password is `hash(password)` and its other five fields are the request's |
| `RegisterRoute.UserCollection.Post` | src/app/api/register/route.ts:5-47 | an unparseable body or a throwing call replies `success: false` with status 200 and changes nothing; a present, non-empty picture not starting with `data:image` gives 400 with no lookup or insert; a known email gives 409 with no change; otherwise exactly one document is added under the email and the reply is `success: true` with status 200; documents stay filed under their own email, so emails stay unique |
| `RegisterRoute.RegisterTwice` | src/app/api/register/route.ts:21-41 | registering a new email twice stores one document and refuses the second call with 409 |
| `RegisterRoute.BadPictureBeforeDuplicate` | src/app/api/register/route.ts:11-28 | a bad picture gives 400 even when the email is already registered |
| `RegisterFlow.Delivered` | src/app/Register/page.tsx:86-89 | the form sees a reply as ok exactly when its status is 2xx, and sees the reply's message when it has one |
| `RegisterFlow.SubmitToHandler` | src/app/api/register/route.ts:43-46 | end to end: the stored document is keyed by the sanitised email; 409 and 400 reach the user as the handler's messages; an exception in the handler (status 200) is shown to the user as a successful registration and nothing is stored |
| `ProfilePage.Profile.constructor` | src/app/Profile/page.tsx:7-12 | the page starts with no record, an empty draft, no error, no preview and not editing |
| `ProfilePage.Profile.CurrentView` | src/app/Profile/page.tsx:95-109 | an error shows the error view; otherwise a missing record shows the loading view; otherwise `isEditing` chooses the form or the read view |
| `ProfilePage.Profile.FetchUserData` | src/app/Profile/page.tsx:15-43 | with no stored email, nothing is requested, the user is alerted and sent to `/Login`, and the state is unchanged; otherwise the request goes to `/api/profile?email=` followed by the stored email as it is; a successful fetch sets both the record and the draft to the fetched data; a failed one sets the error and leaves the record missing |
| `ProfilePage.Profile.InputChange` | src/app/Profile/page.tsx:45-47 | only the draft's named field changes |
| `ProfilePage.Profile.UploadProfilePicture` | src/app/Profile/page.tsx:49-64 | the draft's `profilePicture` and the preview become the same data URL; nothing else changes |
| `ProfilePage.Profile.Save` | src/app/Profile/page.tsx:66-93 | the whole draft is sent; success leaves editing, and a non-empty draft password also clears the session and redirects to `/Login`; a failure leaves the editing flag as it was and shows the server message or a generic one; no path changes the record or the draft |
| `ProfilePage.Profile.Edit` | src/app/Profile/page.tsx:209-211 | from the read view, only the editing flag changes, to true |
| `ProfilePage.Profile.Cancel` | src/app/Profile/page.tsx:184-186 | only the editing flag changes, to false; the draft is not restored |
| `ProfilePage.CancelKeepsDraft` | src/app/Profile/page.tsx:184-186 | an edit abandoned with Cancel reappears in the form when Edit is pressed again |
| `ProfilePage.SavedDraftNotShown` | src/app/Profile/page.tsx:78-85 | after a successful save without a password, the read view still shows the record as loaded, not the saved draft |

## Left out

- The MongoDB client and connection: the collection is an in-memory map from email to document. `findOne({ email })` is a key lookup. The store-assigned id in the success reply is not modelled.
- The race between concurrent registrations of one email (a lookup and then a separate insert) is not modelled. Each `POST` is one atomic step.
- bcrypt is a function parameter. Nothing is proved about the hash itself, including its salting.
- `RegisterRoute.UserCollection.Post`: the four required fields (first name, last name, email, password) are always strings. A request that lacks one of them is not modelled; the source would then look up `{ email: undefined }` and could insert a document without those fields. The contact and the picture may be absent.
- `RegisterRoute.UserCollection.Post`: a picture that is present, truthy and not a string makes `startsWith` throw before any lookup. The model has no such picture value; `body == None` gives the same reply (`success: false`, status 200) with no change. A password that is not a string makes `bcrypt.hash` throw; that case is the `StoreThrows` fault. The `error` text of the catch branch is not modelled.
- The `/api/profile` handlers (the GET and the PUT that the profile page calls) are not part of this model. The page sees their responses only as parameters, so a save followed by a re-fetch is not modelled.
- The `fetch` calls, JSON parsing, `FileReader`, `alert`, `setTimeout`, `router.push` and `localStorage` are parameters or recorded fields. They are not real I/O. React's asynchronous `setState` and stale closures are not modelled: each handler is one atomic step on the current state.
- JSON bodies are kept as their string-valued fields. Fields of other types in the fetched profile are not modelled.
- The text inputs' change handlers of the registration page are plain field assignments. The class's public fields stand for them.
- `ProfilePage.Profile.FetchUserData`: the email is pasted into the query unencoded, and the model records that URL as a string; how the server parses it is not modelled. An email holding `+`, `&`, `#` or `%` (and `sanitizeInput` stores `'` as `&#039;`) reaches the server as a different email.
- `ProfilePage.Profile.FetchUserData` requires the mount-time state (no record, no error). The effect runs once, when the page mounts.
- `ProfilePage.Profile.Edit` requires the read view, the only view that shows its button.
- The password strength bar, the simulated captcha widget's markup, the landing page (`src/app/page.tsx`) and all JSX layout and styling.
- Strings are sequences of Unicode scalar values, not UTF-16 code units. `trim` removes the ECMAScript white-space and line-terminator characters, listed by code point.
