/** The profile page: it loads the signed-in user's row of the 'profiles'
    table, lets the user edit the name (validated to 2..50 characters),
    uploads a new avatar into the 'avatars' bucket and points the row at it,
    and signs out. The identity, storage and database calls are injected:
    the signed-in user and each call's reply are parameters, and the bucket
    and the table are fields that the page's calls update. */
module Profile {
  import opened Common
  import opened Naming

  const MinNameLength := 2
  const MaxNameLength := 50
  const TooShortMessage := "Der Name muss mindestens 2 Zeichen lang sein."
  const TooLongMessage := "Der Name darf nicht länger als 50 Zeichen sein."

  const Placeholder := "/placeholder.svg?height=80&width=80"
  const LoginPath := "/login"

  const LoadFailed := "Profil konnte nicht geladen werden."
  const LogoutFailed := "Abmeldung fehlgeschlagen."
  const UploadFailed := "Profilbild konnte nicht hochgeladen werden."
  const UpdateFailed := "Profil konnte nicht aktualisiert werden."
  const UpdateDone := "Profil wurde erfolgreich aktualisiert."

  /** Where the 'avatars' bucket serves its objects, relative to the project host. */
  const PublicBase := "/storage/v1/object/public/avatars/"

  datatype Toast = ErrorToast(description: string) | SuccessToast(description: string)

  /** A row of the 'profiles' table; every column may be null. */
  datatype ProfileRow = ProfileRow(name: Option<string>, avatarUrl: Option<string>, points: Option<int>)

  /** The columns an update sends: the page writes one column at a time. */
  datatype Patch = NamePatch(name: string) | AvatarPatch(url: string)

  /** An external call the page makes, in the order it makes them. */
  datatype Request =
    | GetUser
    | SelectProfile(id: string)
    | UploadObject(key: string)
    | UpdateRow(id: string, patch: Patch)
    | SignOut

  // ---------------------------------------------------------------------------
  // Pure parts
  // ---------------------------------------------------------------------------

  /** JavaScript's `length` of a string: the number of UTF-16 code units it
      takes, one for a character of the Basic Multilingual Plane and two (a
      surrogate pair) for a character beyond it. */
  function Utf16Length(s: string): (n: nat)
    ensures |s| <= n <= 2 * |s|
  {
    if s == [] then 0
    else (if s[0] as int > 0xFFFF then 2 else 1) + Utf16Length(s[1..])
  }

  /** The length JavaScript sees equals the number of characters exactly when
      every character lies in the Basic Multilingual Plane. */
  lemma {:induction false} Utf16LengthOfBmpText(s: string)
    ensures Utf16Length(s) == |s| <==> forall i :: 0 <= i < |s| ==> s[i] as int <= 0xFFFF
  {
    if s != [] {
      Utf16LengthOfBmpText(s[1..]);
      assert forall i :: 1 <= i < |s| ==> s[i] == s[1..][i - 1];
    }
  }

  /** A single character beyond the Basic Multilingual Plane, an emoji say,
      is a name of length 2 and passes validation. */
  lemma AstralCharacterIsValidName(c: char)
    requires c as int > 0xFFFF
    ensures Utf16Length([c]) == 2 && NameError([c]) == ""
  {
  }

  /** The message validateName shows for `name`; "" when the name is valid.
      Lengths are JavaScript lengths, counted in UTF-16 code units. */
  function NameError(name: string): (message: string)
    ensures message == TooShortMessage <==> Utf16Length(name) < MinNameLength
    ensures message == TooLongMessage <==> Utf16Length(name) > MaxNameLength
    ensures message == "" <==> MinNameLength <= Utf16Length(name) <= MaxNameLength
  {
    var length := Utf16Length(name);
    if length < MinNameLength then TooShortMessage
    else if length > MaxNameLength then TooLongMessage
    else ""
  }

  /** getPublicUrl on the 'avatars' bucket; the key can be read back from the URL. */
  function PublicUrl(key: string): (url: string)
    ensures |url| == |PublicBase| + |key| && url[|PublicBase|..] == key
  {
    PublicBase + key
  }

  lemma PublicUrlInjective(k1: string, k2: string)
    requires PublicUrl(k1) == PublicUrl(k2)
    ensures k1 == k2
  {
  }

  function ApplyPatch(row: ProfileRow, patch: Patch): (r: ProfileRow)
    ensures r.points == row.points
    ensures patch.NamePatch? ==> r.name == Some(patch.name) && r.avatarUrl == row.avatarUrl
    ensures patch.AvatarPatch? ==> r.avatarUrl == Some(patch.url) && r.name == row.name
  {
    match patch
    case NamePatch(n) => row.(name := Some(n))
    case AvatarPatch(u) => row.(avatarUrl := Some(u))
  }

  /** `update(patch).eq('id', id)`: patches the row with that id, if there is
      one; no other row changes and no row is added. */
  function PatchRow(profiles: map<string, ProfileRow>, id: string, patch: Patch): (r: map<string, ProfileRow>)
    ensures r.Keys == profiles.Keys
    ensures id in profiles ==> r[id] == ApplyPatch(profiles[id], patch)
    ensures forall other :: other in profiles && other != id ==> r[other] == profiles[other]
  {
    if id in profiles then profiles[id := ApplyPatch(profiles[id], patch)] else profiles
  }

  /** Every row whose avatar_url is a public URL of the 'avatars' bucket
      refers to an object that the bucket holds. */
  ghost predicate AvatarsResolve(avatars: map<string, Bytes>, profiles: map<string, ProfileRow>) {
    forall id, key :: id in profiles && profiles[id].avatarUrl == Some(PublicUrl(key)) ==> key in avatars
  }

  /** Storing the object before writing its URL into the row keeps every
      reference resolvable, whether or not the row write takes effect. */
  lemma AvatarUploadKeepsReferences(
    avatars: map<string, Bytes>, profiles: map<string, ProfileRow>,
    id: string, key: string, content: Bytes)
    requires AvatarsResolve(avatars, profiles)
    ensures AvatarsResolve(avatars[key := content], profiles)
    ensures AvatarsResolve(avatars[key := content], PatchRow(profiles, id, AvatarPatch(PublicUrl(key))))
  {
  }

  /** A name update never touches avatar_url, so references stay resolvable. */
  lemma NameUpdateKeepsReferences(
    avatars: map<string, Bytes>, profiles: map<string, ProfileRow>, id: string, name: string)
    requires AvatarsResolve(avatars, profiles)
    ensures AvatarsResolve(avatars, PatchRow(profiles, id, NamePatch(name)))
  {
  }

  // ---------------------------------------------------------------------------
  // The page
  // ---------------------------------------------------------------------------

  class ProfilePage {
    var name: string
    var email: string
    var avatarUrl: string
    var points: int
    var isEditing: bool
    var isLoading: bool
    var nameError: string
    /** Where the router was sent, if anywhere. */
    var location: Option<string>
    var toasts: seq<Toast>
    var requests: seq<Request>
    /** The 'avatars' bucket. */
    var avatars: map<string, Bytes>
    /** The 'profiles' table, keyed by user id. */
    var profiles: map<string, ProfileRow>

    constructor (bucket: map<string, Bytes>, table: map<string, ProfileRow>)
      ensures name == "Max Mustermann" && email == "max@example.com"
      ensures avatarUrl == Placeholder && points == 150
      ensures !isEditing && isLoading && nameError == ""
      ensures location.None? && toasts == [] && requests == []
      ensures avatars == bucket && profiles == table
    {
      name, email, avatarUrl, points := "Max Mustermann", "max@example.com", Placeholder, 150;
      isEditing, isLoading, nameError := false, true, "";
      location, toasts, requests := None, [], [];
      avatars, profiles := bucket, table;
    }

    /** fetchProfile: look up the user, then read the user's row. A missing
        row reads as an error, like a failed read. */
    method FetchProfile(user: Option<User>, readFails: bool)
      modifies this
      ensures !isLoading
      ensures avatars == old(avatars) && profiles == old(profiles)
      ensures isEditing == old(isEditing) && nameError == old(nameError)
      ensures user.None? ==>
        requests == old(requests) + [GetUser] && location == Some(LoginPath)
        && toasts == old(toasts)
        && name == old(name) && email == old(email) && avatarUrl == old(avatarUrl) && points == old(points)
      ensures user.Some? ==>
        requests == old(requests) + [GetUser, SelectProfile(user.value.id)] && location == old(location)
      ensures user.Some? && (readFails || user.value.id !in profiles) ==>
        toasts == old(toasts) + [ErrorToast(LoadFailed)]
        && name == old(name) && email == old(email) && avatarUrl == old(avatarUrl) && points == old(points)
      ensures user.Some? && !readFails && user.value.id in profiles ==>
        var row := profiles[user.value.id];
        toasts == old(toasts)
        && name == (if row.name.None? then "" else row.name.value)
        && (row.avatarUrl.None? || row.avatarUrl == Some("") ==> avatarUrl == Placeholder)
        && (row.avatarUrl.Some? && row.avatarUrl != Some("") ==> avatarUrl == row.avatarUrl.value)
        && points == (if row.points.None? then 0 else row.points.value)
        && (user.value.email.None? ==> email == "")
        && (user.value.email.Some? ==> email == user.value.email.value)
    {
      isLoading := true;
      requests := requests + [GetUser];
      if user.Some? {
        var id := user.value.id;
        requests := requests + [SelectProfile(id)];
        if readFails || id !in profiles {
          toasts := toasts + [ErrorToast(LoadFailed)];
        } else {
          var row := profiles[id];
          name := OrElse(row.name, "");
          avatarUrl := OrElse(row.avatarUrl, Placeholder);
          points := row.points.GetOr(0);
          email := OrElse(user.value.email, "");
        }
      } else {
        location := Some(LoginPath);
      }
      isLoading := false;
    }

    /** handleLogout: sign out, then go to the login page unless that failed. */
    method Logout(reply: Reply)
      modifies this`requests, this`toasts, this`location
      ensures requests == old(requests) + [SignOut]
      ensures reply.ErrorReply? ==> toasts == old(toasts) + [ErrorToast(LogoutFailed)] && location == old(location)
      ensures reply.OkReply? ==> toasts == old(toasts) && location == Some(LoginPath)
    {
      requests := requests + [SignOut];
      if reply.ErrorReply? {
        toasts := toasts + [ErrorToast(LogoutFailed)];
      } else {
        location := Some(LoginPath);
      }
    }

    /** validateName: records the message for `n` and says whether `n` is valid. */
    method ValidateName(n: string) returns (valid: bool)
      modifies this`nameError
      ensures nameError == NameError(n)
      ensures valid <==> MinNameLength <= Utf16Length(n) <= MaxNameLength
    {
      var length := Utf16Length(n);
      if length < MinNameLength {
        nameError := TooShortMessage;
        return false;
      }
      if length > MaxNameLength {
        nameError := TooLongMessage;
        return false;
      }
      nameError := "";
      return true;
    }

    /** The name field's change handler: store the text and validate it. */
    method ChangeName(n: string)
      modifies this`name, this`nameError
      ensures name == n && nameError == NameError(n)
    {
      name := n;
      var _ := ValidateName(n);
    }

    /** The "Profil bearbeiten" button. */
    method StartEditing()
      modifies this`isEditing
      ensures isEditing
    {
      isEditing := true;
    }

    /** updateProfile: validate the current name; only a valid name leads to
        the user lookup and to a write of the name column alone. */
    method UpdateProfile(user: Option<User>, write: Reply)
      modifies this
      ensures nameError == NameError(old(name))
      ensures name == old(name) && email == old(email) && avatarUrl == old(avatarUrl) && points == old(points)
      ensures isLoading == old(isLoading) && location == old(location) && avatars == old(avatars)
      ensures NameError(name) != "" ==>
        requests == old(requests) && toasts == old(toasts)
        && profiles == old(profiles) && isEditing == old(isEditing)
      ensures NameError(name) == "" && user.None? ==>
        requests == old(requests) + [GetUser] && toasts == old(toasts)
        && profiles == old(profiles) && isEditing == old(isEditing)
      ensures NameError(name) == "" && user.Some? ==>
        requests == old(requests) + [GetUser, UpdateRow(user.value.id, NamePatch(name))]
      ensures NameError(name) == "" && user.Some? && write.ErrorReply? ==>
        toasts == old(toasts) + [ErrorToast(UpdateFailed)]
        && profiles == old(profiles) && isEditing == old(isEditing)
      ensures NameError(name) == "" && user.Some? && write.OkReply? ==>
        toasts == old(toasts) + [SuccessToast(UpdateDone)]
        && profiles == PatchRow(old(profiles), user.value.id, NamePatch(name)) && !isEditing
      ensures AvatarsResolve(old(avatars), old(profiles)) ==> AvatarsResolve(avatars, profiles)
    {
      var valid := ValidateName(name);
      if !valid {
        return;
      }
      requests := requests + [GetUser];
      if user.Some? {
        var id := user.value.id;
        requests := requests + [UpdateRow(id, NamePatch(name))];
        if write.ErrorReply? {
          toasts := toasts + [ErrorToast(UpdateFailed)];
        } else {
          if AvatarsResolve(avatars, profiles) {
            NameUpdateKeepsReferences(avatars, profiles, id, name);
          }
          profiles := PatchRow(profiles, id, NamePatch(name));
          toasts := toasts + [SuccessToast(UpdateDone)];
          isEditing := false;
        }
      }
    }

    /** handleAvatarUpload: store the first picked file under a fresh key,
        show its public URL at once, then point the user's row at it. The
        row write's reply is awaited but never inspected. */
    method AvatarUpload(files: seq<File>, user: Option<User>, token: string, upload: Reply, write: Reply)
      modifies this
      ensures name == old(name) && email == old(email) && points == old(points)
      ensures isEditing == old(isEditing) && isLoading == old(isLoading)
      ensures nameError == old(nameError) && location == old(location)
      ensures |files| == 0 ==>
        requests == old(requests) && toasts == old(toasts)
        && avatars == old(avatars) && profiles == old(profiles) && avatarUrl == old(avatarUrl)
      ensures |files| > 0 && user.None? ==>
        requests == old(requests) + [GetUser] && toasts == old(toasts)
        && avatars == old(avatars) && profiles == old(profiles) && avatarUrl == old(avatarUrl)
      ensures |files| > 0 && user.Some? && upload.ErrorReply? ==>
        var key := AvatarKey(user.value.id, token, Extension(files[0].name));
        requests == old(requests) + [GetUser, UploadObject(key)]
        && toasts == old(toasts) + [ErrorToast(UploadFailed)]
        && avatars == old(avatars) && profiles == old(profiles) && avatarUrl == old(avatarUrl)
      ensures |files| > 0 && user.Some? && upload.OkReply? ==>
        var id := user.value.id;
        var key := AvatarKey(id, token, Extension(files[0].name));
        requests == old(requests) + [GetUser, UploadObject(key), UpdateRow(id, AvatarPatch(PublicUrl(key)))]
        && toasts == old(toasts)
        && avatars == old(avatars)[key := files[0].content]
        && avatarUrl == PublicUrl(key)
        && profiles == (if write.OkReply? then PatchRow(old(profiles), id, AvatarPatch(PublicUrl(key))) else old(profiles))
      ensures AvatarsResolve(old(avatars), old(profiles)) ==> AvatarsResolve(avatars, profiles)
    {
      if |files| > 0 {
        var file := files[0];
        requests := requests + [GetUser];
        if user.Some? {
          var id := user.value.id;
          var key := AvatarKey(id, token, Extension(file.name));
          requests := requests + [UploadObject(key)];
          if upload.ErrorReply? {
            toasts := toasts + [ErrorToast(UploadFailed)];
          } else {
            if AvatarsResolve(avatars, profiles) {
              AvatarUploadKeepsReferences(avatars, profiles, id, key, file.content);
            }
            avatars := avatars[key := file.content];
            var url := PublicUrl(key);
            avatarUrl := url;
            requests := requests + [UpdateRow(id, AvatarPatch(url))];
            if write.OkReply? {
              profiles := PatchRow(profiles, id, AvatarPatch(url));
            }
          }
        }
      }
    }
  }
}
