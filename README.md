# Roomie: credential forms, profile page and avatar widget

This project models the decision logic of three client components of Roomie, a shared-flat app:

- the landing page's credential forms (`src/app/page.tsx`): password reset, sign-in and sign-up;
- the profile page (`src/app/profil/page.tsx`): profile load, name validation and update, avatar upload and logout;
- the avatar widget (`src/components/ProfileImageUpload.tsx`): upload and delete of a profile image.

The identity provider, the object store and the database are not modelled. Each call to them is injected:

- the signed-in user and every call's reply are parameters: a `{ error }` reply is `ErrorReply(message)` or `OkReply`, the sign-up reply (`SignUpReply`) also carries the returned user's identities, and the profile read's outcome is the flag `readFails` together with the row in the table;
- random file tokens are opaque string parameters;
- the storage buckets and the `profiles` table are `map` fields, and the page's calls update them.

Navigation (`window.location`, `router.push`) becomes a `location` field. Toasts become a list of shown notices. The profile page also keeps a log of the external calls it makes, so that "no write happens" can be stated.

Modules:

- `Common` (common.dfy) holds the shared values: `Option`, `Reply`, `File`, `User`, JavaScript's `||` on nullable strings (`OrElse`), and `Busy`, which counts a busy flag as 0 or 1 outstanding calls.
- `Naming` (naming.dfy) derives the file extension and the object keys.
- `Credentials` (credentials.dfy) models the password-reset form and the sign-in/sign-up form.
- `Profile` (profile.dfy) models the profile page.
- `ImageUpload` (image_upload.dfy) models the avatar widget.

Every credential handler and both widget handlers suspend at one `await`. The model splits each of them into two events:

- the user's action, which issues the call;
- the answer, which resumes the suspended handler.

The component's state is a datatype, and a pure `Step` function applies one event to it. The component's class has the source's state as fields, and each class method is proved to follow `Step`. Functions over event sequences (`Run`, `Calls`, `Answers`) count the calls issued and the answers taken. The single-flight lemmas prove that, per mounted form or widget, the disabled submit buttons and the disabled file input allow at most one outstanding call. A remount starts with fresh state, so these lemmas do not bound calls across remounts (see "Left out"). The field `awaiting` stands for the handler suspended at its `await`; the source has no such variable.

The profile page's handlers are modelled as single steps. While `fetchProfile` is pending, `isLoading` replaces the whole page with a loading notice, so no other handler can start. Nothing disables the controls while the update, upload or logout calls are pending, so those three can interleave.

The name's length is JavaScript's `length`, which counts UTF-16 code units: a character outside the Basic Multilingual Plane, such as an emoji, counts twice (`Utf16Length`).

The model keeps these behaviours of the code:

- `deleteAvatar` removes the object before `onUpload(null)` tells the parent to drop its reference.
- `handleAvatarUpload` shows the new URL before the profile row is written, and it never checks that write's reply.
- Old avatar objects are never reclaimed.
- Password reset shows the provider's error message as it is.
- No flag guards concurrent profile updates, avatar uploads or logouts.

## Model

| member | source | states |
|---|---|---|
| `Naming.ExtensionIsLastSegment` | src/app/profil/page.tsx:76 | `split('.').pop()` is the longest suffix free of '.': it has no '.', ends the name, and is either the whole name or preceded by '.' |
| `Naming.ExtensionAfterLastDot` | src/components/ProfileImageUpload.tsx:26 | for any prefix, the extension of `prefix + "." + ext` is `ext` when `ext` has no '.' |
| `Naming.AvatarKey` | src/app/profil/page.tsx:76-77 | the avatar key starts with `userId + "-"`, and the token can be read back from between that prefix and `"." + ext` |
| `Naming.AvatarKeyKeepsExtension` | src/app/profil/page.tsx:76-77 | the stored key has the same extension as the picked file |
| `Naming.AvatarKeyDistinguishesTokens` | src/app/profil/page.tsx:77 | for the same user and extension, different tokens give different keys |
| `Naming.ImagePath` | src/components/ProfileImageUpload.tsx:26-27 | the widget's path starts with `userId + "/"`, is never empty, and the token can be read back from between that prefix and `"." + ext` |
| `Naming.ImagePathKeepsExtension` | src/components/ProfileImageUpload.tsx:26-27 | the stored path has the same extension as the picked file |
| `Naming.ImagePathDistinguishesTokens` | src/components/ProfileImageUpload.tsx:27 | for the same user and extension, different tokens give different paths |
| `Credentials.ResetStep` | src/app/page.tsx:19-32 | an event the disabled button or the hidden form rules out changes nothing; `loading` is set by an accepted submit and cleared by an accepted answer; an accepted submit clears `error` while the request is pending and leaves `success` as it was |
| `Credentials.ResetPassword` | src/app/page.tsx:19-32 | after the answer `loading` is false; `success` holds iff the provider returned no error; an error sets `error` to the provider's message; success leaves `error` null |
| `Credentials.ResetSingleFlight` | src/app/page.tsx:58 | over any event sequence, calls issued plus the initial busy count equal answers taken plus the final busy count: a mounted reset form has at most one reset request outstanding |
| `Credentials.ForgotPasswordForm.constructor` | src/app/page.tsx:15-17 | the form starts idle, without error and without success |
| `Credentials.ForgotPasswordForm.Submit` | src/app/page.tsx:19-22 | a submit calls the provider iff the form is idle and not yet successful; the new state is `ResetStep` of the old one |
| `Credentials.ForgotPasswordForm.Receive` | src/app/page.tsx:26-31 | the provider's answer updates the fields as `ResetStep` does |
| `Credentials.AuthStep` | src/app/page.tsx:81-118 | an event that is not accepted changes nothing; every step keeps `loading` iff a handler awaits the provider; an accepted submit sets `loading` and an accepted answer clears it; an accepted submit clears `error` while the call is pending and changes neither the location nor `registrationSuccess` |
| `Credentials.SignIn` | src/app/page.tsx:81-96 | a provider error sets `error` to its message and does not redirect; no error redirects to `/dashboard` with `error` null; `loading` ends false |
| `Credentials.SignUp` | src/app/page.tsx:98-118 | `registrationSuccess` holds iff the reply is no error and not "identities present and empty"; a provider error sets its message, an empty identities list sets the already-registered message; success leaves `error` null; `loading` ends false |
| `Credentials.AuthSingleFlight` | src/app/page.tsx:153-202 | in a mounted form, sign-in and sign-up together never have more than one provider call outstanding, and `loading` says whether one is |
| `Credentials.RepeatedSubmitsCallOnce` | src/app/page.tsx:153-202 | any burst of submits on one mounted form, on either of its buttons, with no answer in between issues at most one provider call |
| `Credentials.AuthForm.constructor` | src/app/page.tsx:77-79 | the form starts idle, without error, registration or redirect |
| `Credentials.AuthForm.SubmitSignIn` | src/app/page.tsx:81-84 | a sign-in submit calls the provider iff not loading; the new state is `AuthStep` of the old one |
| `Credentials.AuthForm.ReceiveSignIn` | src/app/page.tsx:89-95 | the sign-in answer updates the fields as `AuthStep` does |
| `Credentials.AuthForm.SubmitSignUp` | src/app/page.tsx:98-101 | a sign-up submit calls the provider iff not loading and not yet registered; the new state is `AuthStep` of the old one |
| `Credentials.AuthForm.ReceiveSignUp` | src/app/page.tsx:110-117 | the sign-up answer updates the fields as `AuthStep` does |
| `Profile.Utf16Length` | src/app/profil/page.tsx:106-110 | JavaScript's `length` counts each character once or twice, so it lies between the number of characters and twice that number |
| `Profile.Utf16LengthOfBmpText` | src/app/profil/page.tsx:106-110 | `length` equals the number of characters iff every character lies in the Basic Multilingual Plane |
| `Profile.AstralCharacterIsValidName` | src/app/profil/page.tsx:105-116 | a name of one character outside the Basic Multilingual Plane has `length` 2 and passes validation |
| `Profile.NameError` | src/app/profil/page.tsx:105-116 | the minimum-length message iff the name's `length` in UTF-16 code units is below 2, the maximum-length message iff it is above 50, and "" iff it is within 2..50 |
| `Profile.ProfilePage.ValidateName` | src/app/profil/page.tsx:105-116 | `nameError` becomes `NameError(n)`; the result is true iff the `length` in UTF-16 code units is within 2..50 |
| `Profile.PublicUrl` | src/app/profil/page.tsx:89-91 | the key can be read back from the public URL |
| `Profile.PublicUrlInjective` | src/app/profil/page.tsx:89-91 | two keys with the same public URL are equal |
| `Profile.ApplyPatch` | src/app/profil/page.tsx:95-126 | a name patch sets only `name`, an avatar patch sets only `avatar_url`; `points` is never written |
| `Profile.PatchRow` | src/app/profil/page.tsx:123-126 | an update keyed by `id` patches that row if it exists; no row is added, and every other row is unchanged |
| `Profile.AvatarUploadKeepsReferences` | src/app/profil/page.tsx:78-98 | storing the object before writing its URL keeps every row's bucket URL resolvable, whether or not the row write takes effect |
| `Profile.NameUpdateKeepsReferences` | src/app/profil/page.tsx:123-126 | a name update keeps every row's bucket URL resolvable |
| `Profile.ProfilePage.constructor` | src/app/profil/page.tsx:16-22 | the page starts with the placeholder name, e-mail, avatar and 150 points, not editing, loading, and no name error |
| `Profile.ProfilePage.FetchProfile` | src/app/profil/page.tsx:27-53 | no user: go to `/login` and do not read; read error or no row: error toast and placeholders kept; success: a null name becomes "", a null or empty avatar URL becomes the placeholder, null points become 0 and a null e-mail becomes "", and every other stored value is shown as stored; `isLoading` ends false |
| `Profile.ProfilePage.Logout` | src/app/profil/page.tsx:58-69 | signs out; on error shows the failure toast and stays; otherwise goes to `/login` |
| `Profile.ProfilePage.ChangeName` | src/app/profil/page.tsx:192-195 | typing stores the text and sets `nameError` to its validation message |
| `Profile.ProfilePage.StartEditing` | src/app/profil/page.tsx:214 | the edit button turns editing on |
| `Profile.ProfilePage.UpdateProfile` | src/app/profil/page.tsx:118-142 | an invalid name makes no user lookup and no write; a valid name with a user sends a patch of `name` alone, keyed by the user's id; success turns editing off; an error leaves `isEditing` and the table unchanged; references stay resolvable |
| `Profile.ProfilePage.AvatarUpload` | src/app/profil/page.tsx:71-103 | no file: nothing happens; failed upload: error toast, and bucket, table and `avatarUrl` unchanged; successful upload: the object is stored under `{id}-{token}.{ext}`, `avatarUrl` becomes its public URL whatever the row write returns, and the row changes only if that write succeeds; references stay resolvable |
| `ImageUpload.WidgetStep` | src/components/ProfileImageUpload.tsx:16-70 | an event that is not accepted changes nothing; every step keeps `uploading` iff a handler awaits the store; a failed storage answer changes neither the bucket nor the callback log; an accepted action that issues a storage call clears `error` while the call is pending and changes neither the bucket nor the callback log |
| `ImageUpload.UploadAvatar` | src/components/ProfileImageUpload.tsx:16-44 | no file: the "choose an image" error, no store change, no callback; failed upload: the store's message, no store change, no callback; success: the object is stored at `{userId}/{token}.{ext}`, `onUpload(path)` fires and `error` is null; `onUpload` fires iff the upload succeeded; `uploading` ends false |
| `ImageUpload.DeleteAvatar` | src/components/ProfileImageUpload.tsx:46-70 | null or empty `url`: the "no image" error and no store call; failed removal: the store's message, the object stays, no callback; success: exactly `url` is removed and then `onUpload(null)` fires; `uploading` ends false |
| `ImageUpload.UploadThenDeleteRestoresStore` | src/components/ProfileImageUpload.tsx:26-63 | uploading under a fresh path and then deleting that path restores the bucket, after telling the parent the path and then null |
| `ImageUpload.StorageSingleFlight` | src/components/ProfileImageUpload.tsx:88-103 | in a mounted widget, uploads and deletes never overlap: at most one storage call is outstanding, and `uploading` says whether one is |
| `ImageUpload.ProfileImageUpload.constructor` | src/components/ProfileImageUpload.tsx:13-14 | the widget starts idle, without error and with no callbacks |
| `ImageUpload.ProfileImageUpload.ChooseFiles` | src/components/ProfileImageUpload.tsx:16-31 | choosing files issues an upload iff the input is enabled and a file was picked; the new state is `WidgetStep` of the old one |
| `ImageUpload.ProfileImageUpload.ClickDelete` | src/components/ProfileImageUpload.tsx:46-57 | a delete issues a removal iff the button is enabled and `url` is truthy; the new state is `WidgetStep` of the old one |
| `ImageUpload.ProfileImageUpload.ReceiveStorage` | src/components/ProfileImageUpload.tsx:33-68 | the storage answer runs the callback or records the error and then the `finally`, as `WidgetStep` does |

## Left out

- Rendering and styling of `RoomieLandingPage` are not modelled.
- Mounting and unmounting of the forms are not modelled, although the layout decides how long a form lives. `AuthComponent` sits in three dialogs that share `isAuthOpen`. Closing a dialog unmounts the form, and nothing stops a close while a call is pending. Reopening mounts a fresh form with `loading` false.
- Likewise, the back button and "Passwort vergessen?" are never disabled, and using them remounts `ForgotPasswordComponent` with `loading` false. A new form can therefore start a second provider call while an earlier form's call is still pending. The single-flight lemmas bound calls per mounted form only.
- The form fields for e-mail, password and sign-up name are not modelled. They are only passed through to the provider, together with the redirect URLs and the name metadata.
- The `showForgotPassword` toggle and the back button are not modelled, beyond the remount they cause.
- The identity provider, storage client and database client are not modelled beyond the outcome of each call.
- Whether the provider creates or changes an identity is not modelled.
- A failing `getUser` reads as "no user", because the code only looks at `data.user`.
- `PublicUrl` leaves out the project host and the URI encoding that the storage client applies.
- `Math.random()` is not modelled; the model takes the token as a parameter.
- Console logging is not modelled.
- A rejected promise from the identity, database or storage client is not modelled. The model takes every reply as a resolved `{ error }` value, which is how these clients report their failures. The credential handlers and the profile page's handlers have no `try`/`finally`. A rejection would skip their `setLoading(false)` / `setIsLoading(false)`, leaving the submit button disabled or the page on its loading notice. So `ResetPassword`, `SignIn`, `SignUp` and `FetchProfile`, which promise that the flag ends cleared, cover resolved replies only.
- ImageUpload.UploadAvatar: the parent's `onUpload` callback is taken to return normally. In the code the callback runs inside the `try`. A throwing callback would leave the bucket changed and the callback call made, and the `catch` would then set `error` to the thrown message before the `finally`. The model instead promises a null `error` on every successful storage answer. The same holds for `ImageUpload.DeleteAvatar` with `onUpload(null)`, for `ImageUpload.WidgetStep` and `ImageUpload.ProfileImageUpload.ReceiveStorage` on a successful answer, and for `ImageUpload.UploadThenDeleteRestoresStore`.
- The widget's fallback messages for thrown values that are not `Error` instances are not modelled. The storage client only returns `Error` instances.
- The `if (data)` tests after `getPublicUrl` and after a successful `.single()` read always hold in the code. The model does not branch on them.
- `window.location` leaving the page is not modelled: after the redirect, the model keeps the form's state.
- The profile page's handlers are modelled as single steps. The code lets the update, upload and logout calls interleave; the model does not capture those interleavings.
- Concurrent edits from other tabs or devices are not modelled.
- Reclaiming old avatar objects, clearing the reference before the delete, acting on the reply of the avatar row write, and retries are not modelled. The code does none of these.
- The profile page's `useEffect` runs `fetchProfile` on mount. The model leaves this call to the caller, after the constructor.
