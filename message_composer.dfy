/**
 * The channel message composer: sending the typed text, Enter-to-send, and
 * sharing a file (size check, upload to storage, signed URL, then the
 * message insert). Storage and the database are the backend: the upload's
 * error, the signed URL and the insert's error are parameters, and the
 * requests the composer issues (upload, signed-URL request, insert) are results.
 */
module MessageComposer {
  import opened Text
  import opened Backend
  import opened Attachments

  /** 10 MiB: larger files are refused before anything is uploaded. */
  const MAX_FILE_SIZE: nat := 10 * 1024 * 1024

  /** The lifetime requested for a signed URL: one day, in seconds. */
  const SIGNED_URL_SECONDS: nat := 60 * 60 * 24

  datatype Toast = Toast(title: String, description: String, destructive: bool)

  const SEND_FAILED := Toast("Failed to send message", "Please try again.", true)
  const TOO_LARGE := Toast("File too large", "Please select a file smaller than 10MB.", true)
  const UPLOAD_FAILED := Toast("Upload failed", "Please try again.", true)

  /** The single element of a message's `attachments` array. */
  datatype AttachmentRecord = AttachmentRecord(key: String, url: String, name: String, size: nat, mime: String)

  /** A row inserted into `messages`; a text send carries no `attachments` field. */
  datatype MessageInsert = MessageInsert(channelId: Id, userId: Id, content: Option<String>,
                                         attachments: Option<seq<AttachmentRecord>>)

  /** A storage upload of `file` under `path`. */
  datatype Upload = Upload(path: String, file: File)

  /** A `createSignedUrl` request for an uploaded path, valid for `lifetime` seconds. */
  datatype SignedUrlRequest = SignedUrlRequest(path: String, lifetime: nat)

  /** `file.size > 10 * 1024 * 1024` is the refusal test. */
  predicate WithinSizeLimit(size: nat) {
    !(size > MAX_FILE_SIZE)
  }

  /** The limit is inclusive: exactly 10 MiB is accepted, one byte more is refused. */
  lemma SizeLimitBoundary()
    ensures WithinSizeLimit(10485760) && !WithinSizeLimit(10485761)
    ensures forall size: nat :: WithinSizeLimit(size) <==> size <= 10485760
  {
  }

  /** The storage path `<user id>/<milliseconds>-<file name>`. */
  function StoragePath(userId: Id, now: nat, fileName: String): (path: String)
    ensures |path| > |userId| + 1 + |fileName|
    ensures path[..|userId|] == userId && path[|userId|] == '/'
    ensures path[|path| - |fileName|..] == fileName
    ensures path[|userId| + 1..|path| - |fileName|] == NatToString(now) + "-"
  {
    var digits := NatToString(now);
    assert |digits| > 0;
    var p := userId + "/" + digits + "-" + fileName;
    assert p[..|userId|] == userId;
    assert p[|p| - |fileName|..] == fileName;
    assert p[|userId| + 1..|p| - |fileName|] == digits + "-";
    p
  }

  /** `message.trim() || null`. */
  function OptionalContent(message: String): (c: Option<String>)
    ensures c.None? <==> Blank(message)
    ensures c.Some? ==> c.value == Trim(message) && c.value != []
  {
    if Blank(message) then None else Some(Trim(message))
  }

  /** Enter without Shift submits; Shift+Enter inserts a newline. */
  predicate SubmitsOnKey(key: String, shiftKey: bool) {
    key == "Enter" && !shiftKey
  }

  class Composer {
    const channelId: Id
    var message: String
    var uploading: bool
    var sending: bool
    /** The files held by the hidden file input; resetting its value empties it. */
    var pickedFiles: seq<File>

    constructor (channelId: Id)
      ensures this.channelId == channelId && message == "" && !uploading && !sending && pickedFiles == []
    {
      this.channelId := channelId;
      message := "";
      uploading := false;
      sending := false;
      pickedFiles := [];
    }

    /** Whether `handleSubmit` gets past its guard. */
    predicate CanSubmit(user: Option<Id>)
      reads this
    {
      !Blank(message) && !sending && user.Some?
    }

    /**
     * `handleSubmit`: past the guard, inserts the trimmed text and clears the
     * draft only on success; a failure shows a toast and keeps the draft.
     */
    method HandleSubmit(user: Option<Id>, insertError: Option<Error>) returns (insert: Option<MessageInsert>, toast: Option<Toast>)
      modifies this`message, this`sending
      ensures !old(CanSubmit(user)) ==> insert.None? && toast.None? && message == old(message) && sending == old(sending)
      ensures old(CanSubmit(user)) ==>
                insert == Some(MessageInsert(channelId, user.value, Some(Trim(old(message))), None)) && !sending
      ensures old(CanSubmit(user)) && insertError.None? ==> message == "" && toast.None?
      ensures old(CanSubmit(user)) && insertError.Some? ==> message == old(message) && toast == Some(SEND_FAILED)
    {
      if Blank(message) || sending || user.None? {
        return None, None;
      }
      sending := true;
      insert := Some(MessageInsert(channelId, user.value, Some(Trim(message)), None));
      toast := None;
      if insertError.None? {
        message := "";
      } else {
        toast := Some(SEND_FAILED);
      }
      sending := false;
    }

    /** `handleKeyDown`: Enter without Shift submits, any other key does nothing. */
    method HandleKeyDown(key: String, shiftKey: bool, user: Option<Id>, insertError: Option<Error>)
      returns (insert: Option<MessageInsert>, toast: Option<Toast>)
      modifies this`message, this`sending
      ensures !SubmitsOnKey(key, shiftKey) ==> insert.None? && toast.None? && message == old(message) && sending == old(sending)
      ensures SubmitsOnKey(key, shiftKey) && !old(CanSubmit(user)) ==>
                insert.None? && toast.None? && message == old(message) && sending == old(sending)
      ensures SubmitsOnKey(key, shiftKey) && old(CanSubmit(user)) ==>
                insert == Some(MessageInsert(channelId, user.value, Some(Trim(old(message))), None)) && !sending
      ensures SubmitsOnKey(key, shiftKey) && old(CanSubmit(user)) && insertError.None? ==> message == "" && toast.None?
      ensures SubmitsOnKey(key, shiftKey) && old(CanSubmit(user)) && insertError.Some? ==>
                message == old(message) && toast == Some(SEND_FAILED)
    {
      if key == "Enter" && !shiftKey {
        insert, toast := HandleSubmit(user, insertError);
      } else {
        insert, toast := None, None;
      }
    }

    /**
     * `handleFileUpload`: with no file or no user nothing happens (the early
     * return skips the `finally`). Otherwise the first file is checked against
     * the limit and uploaded to `<user>/<now>-<name>`; a signed URL is requested
     * only after the upload succeeded, and only once it came back is the message inserted, with the
     * trimmed text or null as content and one attachment record. Whatever
     * happens after the guard, `uploading` ends false and the file input is reset.
     */
    method HandleFileUpload(user: Option<Id>, files: seq<File>, now: nat, uploadError: Option<Error>,
                            signedUrl: Option<String>, insertError: Option<Error>)
      returns (upload: Option<Upload>, urlRequest: Option<SignedUrlRequest>, insert: Option<MessageInsert>, toast: Option<Toast>)
      modifies this`message, this`uploading, this`pickedFiles
      ensures files == [] || user.None? ==>
                upload.None? && urlRequest.None? && insert.None? && toast.None?
                && message == old(message) && uploading == old(uploading) && pickedFiles == old(pickedFiles)
      ensures files != [] && user.Some? ==> !uploading && pickedFiles == []
      ensures upload.Some? <==> files != [] && user.Some? && WithinSizeLimit(files[0].size)
      ensures upload.Some? ==> upload.value == Upload(StoragePath(user.value, now, files[0].name), files[0])
      ensures urlRequest.Some? <==> upload.Some? && uploadError.None?
      ensures urlRequest.Some? ==> urlRequest.value == SignedUrlRequest(upload.value.path, SIGNED_URL_SECONDS)
      ensures files != [] && user.Some? && !WithinSizeLimit(files[0].size) ==> toast == Some(TOO_LARGE) && message == old(message)
      ensures insert.Some? <==> upload.Some? && uploadError.None? && Present(signedUrl)
      ensures insert.Some? ==>
                insert.value == MessageInsert(channelId, user.value, OptionalContent(old(message)),
                                              Some([AttachmentRecord(upload.value.path, signedUrl.value, files[0].name,
                                                                     files[0].size, files[0].mime)]))
      ensures insert.Some? && insertError.None? ==>
                message == "" && toast == Some(Toast("File uploaded", files[0].name + " has been shared.", false))
      ensures upload.Some? && (uploadError.Some? || !Present(signedUrl) || insertError.Some?) ==>
                message == old(message) && toast == Some(UPLOAD_FAILED)
    {
      upload, urlRequest, insert, toast := None, None, None, None;
      if files == [] || user.None? {
        return;
      }
      uploading := true;
      var file := files[0];
      if file.size > MAX_FILE_SIZE {
        toast := Some(TOO_LARGE);
      } else {
        var fileName := user.value + "/" + NatToString(now) + "-" + file.name;
        upload := Some(Upload(fileName, file));
        if uploadError.Some? {
          toast := Some(UPLOAD_FAILED);
        } else if !Present(signedUrl) {
          urlRequest := Some(SignedUrlRequest(fileName, SIGNED_URL_SECONDS));
          toast := Some(UPLOAD_FAILED);
        } else {
          urlRequest := Some(SignedUrlRequest(fileName, SIGNED_URL_SECONDS));
          var content := if Blank(message) then None else Some(Trim(message));
          insert := Some(MessageInsert(channelId, user.value, content,
                                       Some([AttachmentRecord(fileName, signedUrl.value, file.name, file.size, file.mime)])));
          if insertError.Some? {
            toast := Some(UPLOAD_FAILED);
          } else {
            message := "";
            toast := Some(Toast("File uploaded", file.name + " has been shared.", false));
          }
        }
      }
      uploading := false;
      pickedFiles := [];
    }
  }
}
