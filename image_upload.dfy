/** The avatar widget: `uploadAvatar` stores a picked image under a fresh path
    and hands that path to the parent through `onUpload`; `deleteAvatar`
    removes the current image and hands `null` to the parent. Both share the
    `uploading` flag, which disables the file input and the delete button, and
    the `error` slot. The await on the storage call splits each handler into
    the user's action and the storage answer. */
module ImageUpload {
  import opened Common
  import opened Naming

  const NoFileMessage := "Sie müssen ein Bild auswählen zum Hochladen."
  const NoImageMessage := "Kein Bild zum Löschen vorhanden."

  /** The storage call a suspended handler awaits. */
  datatype StorageCall = UploadCall(path: string, content: Bytes) | RemoveCall(path: string)

  /** `store` is the 'profile-images' bucket, `notified` the arguments
      `onUpload` was called with, oldest first, and `awaiting` the handler
      suspended at its await, if any. */
  datatype WidgetState = WidgetState(
    uploading: bool,
    error: Option<string>,
    store: map<string, Bytes>,
    notified: seq<Option<string>>,
    awaiting: Option<StorageCall>)

  /** `uploading` holds exactly while a handler awaits the store. */
  predicate WidgetConsistent(s: WidgetState) {
    s.uploading <==> s.awaiting.Some?
  }

  /** Each user action carries the props its callback captured: the user id
      for an upload, the current image path `url` for a delete. */
  datatype WidgetEvent =
    | FilesChosen(userId: string, files: seq<File>, token: string)
    | DeleteClicked(url: Option<string>)
    | StorageAnswered(reply: Reply)

  /** `url` is truthy: present and not empty. */
  predicate HasImage(url: Option<string>) {
    url.Some? && url.value != ""
  }

  /** The file input and the delete button are disabled while `uploading`;
      an answer arrives only while a handler awaits it. */
  predicate WidgetAccepts(s: WidgetState, e: WidgetEvent) {
    match e
    case FilesChosen(_, _, _) => !s.uploading
    case DeleteClicked(_) => !s.uploading
    case StorageAnswered(_) => s.awaiting.Some?
  }

  /** Whether an accepted user action reaches the storage call. */
  predicate IssuesCall(e: WidgetEvent) {
    (e.FilesChosen? && |e.files| > 0) || (e.DeleteClicked? && HasImage(e.url))
  }

  function WidgetStep(s: WidgetState, e: WidgetEvent): (r: WidgetState)
    ensures !WidgetAccepts(s, e) ==> r == s
    ensures WidgetConsistent(s) ==> WidgetConsistent(r)
    ensures WidgetAccepts(s, e) ==> (r.uploading <==> IssuesCall(e))
    ensures e.StorageAnswered? && e.reply.ErrorReply? ==> r.store == s.store && r.notified == s.notified
    ensures WidgetAccepts(s, e) && IssuesCall(e) ==> r.error.None? && r.store == s.store && r.notified == s.notified
  {
    if !WidgetAccepts(s, e) then s
    else match e
      case FilesChosen(userId, files, token) =>
        if |files| == 0 then s.(uploading := false, error := Some(NoFileMessage))
        else
          var path := ImagePath(userId, token, Extension(files[0].name));
          s.(uploading := true, error := None, awaiting := Some(UploadCall(path, files[0].content)))
      case DeleteClicked(url) =>
        if !HasImage(url) then s.(uploading := false, error := Some(NoImageMessage))
        else s.(uploading := true, error := None, awaiting := Some(RemoveCall(url.value)))
      case StorageAnswered(reply) =>
        var t := s.(uploading := false, awaiting := None);
        if reply.ErrorReply? then t.(error := Some(reply.message))
        else match s.awaiting.value
          case UploadCall(path, content) =>
            t.(store := s.store[path := content], notified := s.notified + [Some(path)])
          case RemoveCall(path) =>
            t.(store := s.store - {path}, notified := s.notified + [None])
  }

  /** uploadAvatar run from an idle widget to the end of its `finally`. */
  function UploadAvatar(userId: string, s: WidgetState, files: seq<File>, token: string, reply: Reply): (r: WidgetState)
    requires WidgetConsistent(s) && !s.uploading
    ensures !r.uploading && r.awaiting.None?
    ensures |files| == 0 ==>
      r.error == Some(NoFileMessage) && r.store == s.store && r.notified == s.notified
    ensures |files| > 0 && reply.ErrorReply? ==>
      r.error == Some(reply.message) && r.store == s.store && r.notified == s.notified
    ensures |files| > 0 && reply.OkReply? ==>
      var path := ImagePath(userId, token, Extension(files[0].name));
      r.error.None? && r.store == s.store[path := files[0].content] && r.notified == s.notified + [Some(path)]
    ensures r.notified != s.notified <==> |files| > 0 && reply.OkReply?
  {
    var t := WidgetStep(s, FilesChosen(userId, files, token));
    if |files| == 0 then t else WidgetStep(t, StorageAnswered(reply))
  }

  /** deleteAvatar run from an idle widget to the end of its `finally`. The
      object is removed before `onUpload(null)` tells the parent to drop its
      reference, and a failed removal leaves both untouched. */
  function DeleteAvatar(url: Option<string>, s: WidgetState, reply: Reply): (r: WidgetState)
    requires WidgetConsistent(s) && !s.uploading
    ensures !r.uploading && r.awaiting.None?
    ensures !HasImage(url) ==>
      r.error == Some(NoImageMessage) && r.store == s.store && r.notified == s.notified
    ensures HasImage(url) && reply.ErrorReply? ==>
      r.error == Some(reply.message) && r.store == s.store && r.notified == s.notified
    ensures HasImage(url) && reply.OkReply? ==>
      r.error.None? && r.store == s.store - {url.value} && r.notified == s.notified + [None]
    ensures r.notified != s.notified <==> HasImage(url) && reply.OkReply?
  {
    var t := WidgetStep(s, DeleteClicked(url));
    if !HasImage(url) then t else WidgetStep(t, StorageAnswered(reply))
  }

  /** Uploading a file under a fresh path and then deleting the path the
      parent was handed leaves the bucket as it was, after telling the parent
      first the new path and then `null`. */
  lemma UploadThenDeleteRestoresStore(userId: string, s: WidgetState, file: File, token: string)
    requires WidgetConsistent(s) && !s.uploading
    requires ImagePath(userId, token, Extension(file.name)) !in s.store
    ensures var path := ImagePath(userId, token, Extension(file.name));
            var uploaded := UploadAvatar(userId, s, [file], token, OkReply);
            var deleted := DeleteAvatar(Some(path), uploaded, OkReply);
            deleted.store == s.store && deleted.notified == s.notified + [Some(path), None]
            && deleted.error.None?
  {
  }

  function WidgetRun(s: WidgetState, events: seq<WidgetEvent>): (final: WidgetState)
    decreases |events|
  {
    if events == [] then s else WidgetRun(WidgetStep(s, events[0]), events[1..])
  }

  /** The number of storage calls a sequence of events issues. */
  function StorageCalls(s: WidgetState, events: seq<WidgetEvent>): (calls: nat)
    decreases |events|
  {
    if events == [] then 0
    else (if WidgetAccepts(s, events[0]) && IssuesCall(events[0]) then 1 else 0)
         + StorageCalls(WidgetStep(s, events[0]), events[1..])
  }

  /** The number of storage answers a sequence of events resumes a handler with. */
  function StorageAnswers(s: WidgetState, events: seq<WidgetEvent>): (answers: nat)
    decreases |events|
  {
    if events == [] then 0
    else (if WidgetAccepts(s, events[0]) && events[0].StorageAnswered? then 1 else 0)
         + StorageAnswers(WidgetStep(s, events[0]), events[1..])
  }

  /** In a mounted widget, uploads and deletes never overlap: at most one
      storage call is outstanding, and `uploading` says whether one is. */
  lemma {:induction false} StorageSingleFlight(s: WidgetState, events: seq<WidgetEvent>)
    requires WidgetConsistent(s)
    ensures WidgetConsistent(WidgetRun(s, events))
    ensures StorageCalls(s, events) + Busy(s.uploading)
         == StorageAnswers(s, events) + Busy(WidgetRun(s, events).uploading)
    decreases |events|
  {
    if events != [] {
      StorageSingleFlight(WidgetStep(s, events[0]), events[1..]);
    }
  }

  class ProfileImageUpload {
    var uploading: bool
    var error: Option<string>
    var store: map<string, Bytes>
    var notified: seq<Option<string>>
    var awaiting: Option<StorageCall>

    function State(): WidgetState
      reads this
    {
      WidgetState(uploading, error, store, notified, awaiting)
    }

    constructor (bucket: map<string, Bytes>)
      ensures State() == WidgetState(false, None, bucket, [], None)
    {
      uploading, error, store, notified, awaiting := false, None, bucket, [], None;
    }

    /** The file input's change event, up to the storage upload; `called`
        says whether the upload is issued. */
    method ChooseFiles(userId: string, files: seq<File>, token: string) returns (called: bool)
      modifies this
      ensures called <==> !old(uploading) && |files| > 0
      ensures State() == WidgetStep(old(State()), FilesChosen(userId, files, token))
    {
      called := false;
      if uploading {
        return;
      }
      uploading := true;
      error := None;
      if |files| == 0 {
        error := Some(NoFileMessage);
        uploading := false;
        return;
      }
      var path := ImagePath(userId, token, Extension(files[0].name));
      awaiting := Some(UploadCall(path, files[0].content));
      called := true;
    }

    /** A click on the delete button, up to the storage removal; `called`
        says whether the removal is issued. */
    method ClickDelete(url: Option<string>) returns (called: bool)
      modifies this
      ensures called <==> !old(uploading) && HasImage(url)
      ensures State() == WidgetStep(old(State()), DeleteClicked(url))
    {
      called := false;
      if uploading {
        return;
      }
      uploading := true;
      error := None;
      if !HasImage(url) {
        error := Some(NoImageMessage);
        uploading := false;
        return;
      }
      awaiting := Some(RemoveCall(url.value));
      called := true;
    }

    /** The rest of the suspended handler once the store answers: the
        callback on success, the error message on failure, and the `finally`. */
    method ReceiveStorage(reply: Reply)
      requires awaiting.Some?
      modifies this
      ensures State() == WidgetStep(old(State()), StorageAnswered(reply))
    {
      if reply.ErrorReply? {
        error := Some(reply.message);
      } else {
        match awaiting.value
        case UploadCall(path, content) =>
          store := store[path := content];
          notified := notified + [Some(path)];
        case RemoveCall(path) =>
          store := store - {path};
          notified := notified + [None];
      }
      uploading := false;
      awaiting := None;
    }
  }
}
