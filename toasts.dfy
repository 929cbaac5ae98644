/**
 * The pop-up notices the pages show through the `sonner` toaster: a success
 * line or an error line, and the texts the two chat pages share.
 */
module Toasts {
  import opened Backend

  datatype Toast = SuccessToast(text: seq<char>) | ErrorToast(text: seq<char>)

  const LOAD_MESSAGES_FAILED: seq<char> := "Failed to load messages"
  const UPLOAD_FILE_FAILED: seq<char> := "Failed to upload file"
  const SEND_MESSAGE_FAILED: seq<char> := "Failed to send message"

  /**
   * The toasts of one `sendMessage` past its guard: the upload's own error
   * (only when a file was picked and no URL came back), then the insert's.
   */
  function SendToasts(hasFile: bool, uploadedUrl: Option<seq<char>>, insertFailed: bool): seq<Toast> {
    (if hasFile && uploadedUrl.None? then [ErrorToast(UPLOAD_FILE_FAILED)] else [])
    + (if insertFailed then [ErrorToast(SEND_MESSAGE_FAILED)] else [])
  }

  /** Each failure of a send shows its own error and nothing else is shown. */
  lemma SendToastsShow(hasFile: bool, uploadedUrl: Option<seq<char>>, insertFailed: bool)
    ensures var ts := SendToasts(hasFile, uploadedUrl, insertFailed);
            && (ErrorToast(UPLOAD_FILE_FAILED) in ts <==> hasFile && uploadedUrl.None?)
            && (ErrorToast(SEND_MESSAGE_FAILED) in ts <==> insertFailed)
            && (forall t :: t in ts ==> t.ErrorToast?)
            && |ts| <= 2
  {
  }
}
