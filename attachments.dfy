/**
 * The attachment logic that the direct-message window and the room chat page
 * share: the three attachment columns a sent message carries, the content
 * fallback for an attachment-only message, and how a stored attachment is
 * rendered (`renderAttachment`, identical in both components).
 */
module Attachments {
  import opened Text
  import opened Backend

  /** A file picked in the browser (or a finished voice note): its name, MIME type and size in bytes. */
  datatype File = File(name: String, mime: String, size: nat)

  const ATTACHMENT_CONTENT: String := "Sent an attachment"
  const DOWNLOAD_LABEL: String := "Download Attachment"

  /** The `content` column of a sent message: `newMessage.trim() || (selectedFile ? "Sent an attachment" : "")`. */
  function SentContent(draft: String, hasFile: bool): (c: String)
    ensures !Blank(draft) ==> c == Trim(draft)
    ensures Blank(draft) && hasFile ==> c == ATTACHMENT_CONTENT
    ensures c == [] <==> Blank(draft) && !hasFile
  {
    if !Blank(draft) then Trim(draft) else if hasFile then ATTACHMENT_CONTENT else ""
  }

  /** The sent content never starts or ends with white space. */
  lemma SentContentTrimmed(draft: String, hasFile: bool)
    ensures var c := SentContent(draft, hasFile);
            c == [] || (!IsSpace(c[0]) && !IsSpace(c[|c| - 1]))
  {
    TrimEnds(draft);
    if Blank(draft) && hasFile {
      assert ATTACHMENT_CONTENT[0] == 'S' && ATTACHMENT_CONTENT[17] == 't';
    }
  }

  /** The `attachment_url`, `attachment_type` and `attachment_name` columns of a sent message. */
  datatype AttachmentColumns = AttachmentColumns(url: Option<String>, mime: Option<String>, name: Option<String>)

  /**
   * The columns for the selected file: the URL is whatever the upload produced
   * (`None` when it failed), while type and name always come from the file.
   */
  function ColumnsFor(file: Option<File>, uploadedUrl: Option<String>): (a: AttachmentColumns)
    ensures file.None? ==> a == AttachmentColumns(None, None, None)
    ensures file.Some? ==> a.url == uploadedUrl && a.mime == Some(file.value.mime) && a.name == Some(file.value.name)
  {
    match file
    case None => AttachmentColumns(None, None, None)
    case Some(f) => AttachmentColumns(uploadedUrl, Some(f.mime), Some(f.name))
  }

  /** What `renderAttachment` shows for a message. */
  datatype AttachmentView =
    | NoAttachment
    | ImageView(src: String)
    | AudioPlayer(src: String, mime: String)
    | DownloadButton(href: String, caption: String)

  function RenderAttachment(a: AttachmentColumns): (v: AttachmentView)
    ensures v.NoAttachment? <==> !Present(a.url)
    ensures v.ImageView? <==> Present(a.url) && a.mime.Some? && StartsWith(a.mime.value, "image/")
    ensures v.AudioPlayer? <==> Present(a.url) && a.mime.Some?
                                && !StartsWith(a.mime.value, "image/") && StartsWith(a.mime.value, "audio/")
    ensures !v.NoAttachment? ==> Present(a.url)
    ensures v.DownloadButton? ==> v.caption == FirstPresent(a.name, None, DOWNLOAD_LABEL) && v.caption != []
  {
    if !Present(a.url) then NoAttachment
    else if a.mime.Some? && StartsWith(a.mime.value, "image/") then ImageView(a.url.value)
    else if a.mime.Some? && StartsWith(a.mime.value, "audio/") then AudioPlayer(a.url.value, a.mime.value)
    else DownloadButton(a.url.value, FirstPresent(a.name, None, DOWNLOAD_LABEL))
  }

  /**
   * Sending a file and rendering the stored row: with a successful upload the
   * file shows according to its MIME type; with a failed upload the message
   * still says it carries an attachment but nothing is rendered for it.
   */
  lemma SentFileRendering(draft: String, f: File, uploadedUrl: Option<String>)
    ensures !Present(uploadedUrl) ==>
              RenderAttachment(ColumnsFor(Some(f), uploadedUrl)) == NoAttachment
              && (Blank(draft) ==> SentContent(draft, true) == ATTACHMENT_CONTENT)
    ensures Present(uploadedUrl) && StartsWith(f.mime, "image/") ==>
              RenderAttachment(ColumnsFor(Some(f), uploadedUrl)) == ImageView(uploadedUrl.value)
    ensures Present(uploadedUrl) && StartsWith(f.mime, "audio/") ==>
              RenderAttachment(ColumnsFor(Some(f), uploadedUrl)) == AudioPlayer(uploadedUrl.value, f.mime)
    ensures Present(uploadedUrl) && !StartsWith(f.mime, "image/") && !StartsWith(f.mime, "audio/") ==>
              RenderAttachment(ColumnsFor(Some(f), uploadedUrl)) == DownloadButton(uploadedUrl.value, FirstPresent(Some(f.name), None, DOWNLOAD_LABEL))
  {
    if Present(uploadedUrl) && StartsWith(f.mime, "audio/") {
      assert f.mime[..6] == "audio/";
      assert !StartsWith(f.mime, "image/") by { assert "audio/"[0] != "image/"[0]; }
    }
  }
}
