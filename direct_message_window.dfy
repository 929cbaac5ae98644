/**
 * The direct-message window: history paging for one conversation partner,
 * live inserts pushed by the realtime subscription, and the composer's send.
 *
 * The message list is NOT kept in any global order: the first page is stored
 * newest-first as the backend returns it, a "load more" page is appended
 * reversed, and live rows are put in front. Nothing is deduplicated.
 */
module DirectMessageWindow {
  import opened Text
  import opened Seqs
  import opened Backend
  import opened Attachments
  import opened Notifications
  import opened Toasts

  const MESSAGES_PER_PAGE: nat := 20

  datatype DirectMessage = DirectMessage(
    id: Id, content: String, createdAt: int, senderId: Id, receiverId: Id, attachment: AttachmentColumns)

  /**
   * The history query: messages between the two users, newest first, at most
   * `limit` of them, and, when `before` is set, only ids below that cursor.
   */
  datatype PageQuery = PageQuery(userId: Id, otherUserId: Id, limit: nat, before: Option<Id>)

  /** The row inserted into `direct_messages` by a send. */
  datatype DmInsert = DmInsert(senderId: Id, receiverId: Id, content: String, attachment: AttachmentColumns)

  /** `hasMoreMessages` after a non-empty page: only a full page suggests older messages exist. */
  function HasMoreAfter(pageLength: nat): (more: bool)
    ensures more <==> pageLength == MESSAGES_PER_PAGE
  {
    pageLength == MESSAGES_PER_PAGE
  }

  /** The send guard `!user || !newMessage.trim() && !selectedFile`, negated. */
  predicate CanSend(user: Option<Id>, draft: String, file: Option<File>) {
    user.Some? && (!Blank(draft) || file.Some?)
  }

  lemma CanSendContent(user: Option<Id>, draft: String, file: Option<File>)
    requires CanSend(user, draft, file)
    ensures SentContent(draft, file.Some?) != []
    ensures file.None? ==> SentContent(draft, false) == Trim(draft)
  {
  }

  /**
   * Paging is not order-consistent: a first page [m3, m2] (newest first)
   * followed by a "load more" page [m1, m0], each loaded by `loadMessages`,
   * gives [m3, m2, m0, m1], which is sorted neither way by creation time.
   */
  method LoadMoreBreaksOrder(me: Id, a: AttachmentColumns) returns (second: PageQuery, shown: seq<DirectMessage>)
    ensures second.before == Some("2")
    ensures var m3 := DirectMessage("3", "", 3, "u", "v", a);
            var m2 := DirectMessage("2", "", 2, "u", "v", a);
            var m1 := DirectMessage("1", "", 1, "u", "v", a);
            var m0 := DirectMessage("0", "", 0, "u", "v", a);
            shown == [m3, m2, m0, m1]
    ensures shown[1].createdAt > shown[2].createdAt && shown[2].createdAt < shown[3].createdAt
  {
    var m3 := DirectMessage("3", "", 3, "u", "v", a);
    var m2 := DirectMessage("2", "", 2, "u", "v", a);
    var m1 := DirectMessage("1", "", 1, "u", "v", a);
    var m0 := DirectMessage("0", "", 0, "u", "v", a);
    var w := new Window("v");
    var first, toast1 := w.LoadMessages(me, false, Success(Some([m3, m2])));
    var toast2;
    second, toast2 := w.LoadMessages(me, true, Success(Some([m1, m0])));
    assert Reversed([m1, m0]) == [m0, m1] by {
      assert Reversed([m1, m0])[0] == m0;
    }
    shown := w.messages;
  }

  /**
   * What the memoized `loadMoreMessages` callback captured at the render that
   * last recomputed it: its two dependencies `loadingMore` and
   * `hasMoreMessages`, and the `oldestMessageId` its `loadMessages` closure reads.
   */
  datatype Memo = Memo(loadingMore: bool, hasMore: bool, cursor: Option<Id>)

  /**
   * A render: `useCallback` recomputes the callback, capturing the current
   * cursor, only when one of its dependencies changed since the last render.
   */
  function Refresh(m: Memo, loadingMore: bool, hasMore: bool, cursor: Option<Id>): Memo {
    if m.loadingMore == loadingMore && m.hasMore == hasMore then m else Memo(loadingMore, hasMore, cursor)
  }

  class Window {
    const otherUserId: Id
    var messages: seq<DirectMessage>
    var oldestMessageId: Option<Id>
    var hasMoreMessages: bool
    var loading: bool
    var loadingMore: bool
    var newMessage: String
    var selectedFile: Option<File>
    var filePreview: String
    var audioChunks: nat
    var sending: bool
    /** The closure behind the current `loadMoreMessages` callback. */
    var memo: Memo

    /** After every render the memo's dependencies are the current flags. */
    predicate Settled()
      reads this
    {
      memo.loadingMore == loadingMore && memo.hasMore == hasMoreMessages
    }

    constructor (otherUserId: Id)
      ensures this.otherUserId == otherUserId
      ensures messages == [] && oldestMessageId.None? && hasMoreMessages
      ensures loading && !loadingMore && !sending
      ensures newMessage == "" && selectedFile.None? && filePreview == "" && audioChunks == 0
      ensures memo == Memo(false, true, None) && Settled()
    {
      this.otherUserId := otherUserId;
      messages := [];
      oldestMessageId := None;
      hasMoreMessages := true;
      loading := true;
      loadingMore := false;
      newMessage := "";
      selectedFile := None;
      filePreview := "";
      audioChunks := 0;
      sending := false;
      memo := Memo(false, true, None);
    }

    /**
     * `loadMessages(loadMore)` as the mount effect calls it, with the closure
     * of the current render: issues `query` and applies the backend's `reply`.
     * The cursor is only sent when loading more and a cursor exists.
     */
    method LoadMessages(me: Id, loadMore: bool, reply: Reply<seq<DirectMessage>>)
      returns (query: PageQuery, toast: Option<Toast>)
      modifies this
      ensures query.userId == me && query.otherUserId == otherUserId && query.limit == MESSAGES_PER_PAGE
      ensures query.before == (if loadMore && Present(old(oldestMessageId)) then old(oldestMessageId) else None)
      ensures reply.Failure? ==>
                messages == old(messages) && oldestMessageId == old(oldestMessageId)
                && hasMoreMessages == old(hasMoreMessages)
      ensures toast.Some? <==> reply.Failure?
      ensures toast.Some? ==> toast.value == ErrorToast(LOAD_MESSAGES_FAILED)
      ensures reply.Success? && !loadMore ==> messages == Rows(reply)
      ensures reply.Success? && loadMore ==> messages == old(messages) + Reversed(Rows(reply))
      ensures reply.Success? && |Rows(reply)| > 0 ==>
                oldestMessageId == Some(Rows(reply)[|Rows(reply)| - 1].id)
                && hasMoreMessages == HasMoreAfter(|Rows(reply)|)
      ensures reply.Success? && |Rows(reply)| == 0 ==>
                oldestMessageId == old(oldestMessageId) && !hasMoreMessages
      ensures !loading && !loadingMore
      ensures memo == Refresh(old(memo), false, hasMoreMessages, oldestMessageId) && Settled()
      ensures newMessage == old(newMessage) && selectedFile == old(selectedFile) && sending == old(sending)
      ensures filePreview == old(filePreview) && audioChunks == old(audioChunks)
    {
      var before := if loadMore && Present(oldestMessageId) then oldestMessageId else None;
      query := PageQuery(me, otherUserId, MESSAGES_PER_PAGE, before);
      toast := ApplyPage(loadMore, reply);
    }

    /**
     * The part of `loadMessages` after the reply arrives: the page replaces or
     * extends the list, the cursor and `hasMoreMessages` follow it, both
     * loading flags drop, and the render that follows refreshes the memo.
     */
    method ApplyPage(loadMore: bool, reply: Reply<seq<DirectMessage>>) returns (toast: Option<Toast>)
      modifies this
      ensures reply.Failure? ==>
                messages == old(messages) && oldestMessageId == old(oldestMessageId)
                && hasMoreMessages == old(hasMoreMessages)
      ensures toast.Some? <==> reply.Failure?
      ensures toast.Some? ==> toast.value == ErrorToast(LOAD_MESSAGES_FAILED)
      ensures reply.Success? && !loadMore ==> messages == Rows(reply)
      ensures reply.Success? && loadMore ==> messages == old(messages) + Reversed(Rows(reply))
      ensures reply.Success? && |Rows(reply)| > 0 ==>
                oldestMessageId == Some(Rows(reply)[|Rows(reply)| - 1].id)
                && hasMoreMessages == HasMoreAfter(|Rows(reply)|)
      ensures reply.Success? && |Rows(reply)| == 0 ==>
                oldestMessageId == old(oldestMessageId) && !hasMoreMessages
      ensures !loading && !loadingMore
      ensures memo == Refresh(old(memo), false, hasMoreMessages, oldestMessageId) && Settled()
      ensures newMessage == old(newMessage) && selectedFile == old(selectedFile) && sending == old(sending)
      ensures filePreview == old(filePreview) && audioChunks == old(audioChunks)
    {
      toast := None;
      match reply {
        case Failure(_) =>
          toast := Some(ErrorToast(LOAD_MESSAGES_FAILED));
        case Success(data) =>
          var page := data.GetOr([]);
          if loadMore {
            messages := messages + Reversed(page);
          } else {
            messages := page;
          }
          if |page| > 0 {
            oldestMessageId := Some(page[|page| - 1].id);
            hasMoreMessages := |page| == MESSAGES_PER_PAGE;
          } else {
            hasMoreMessages := false;
          }
      }
      loading := false;
      loadingMore := false;
      memo := Refresh(memo, loadingMore, hasMoreMessages, oldestMessageId);
    }

    /**
     * `loadMoreMessages`, the memoized callback: its guard and the cursor its
     * `loadMessages(true)` sends are those of the render that last recomputed
     * it (`memo`), not the current ones. Setting `loadingMore` re-renders
     * before the reply, so every completed load-more leaves the memo current.
     */
    method LoadMoreMessages(me: Id, reply: Reply<seq<DirectMessage>>) returns (query: Option<PageQuery>, toast: Option<Toast>)
      modifies this
      ensures old(memo.loadingMore) || !old(memo.hasMore) ==>
                query.None? && messages == old(messages) && oldestMessageId == old(oldestMessageId)
                && hasMoreMessages == old(hasMoreMessages) && loadingMore == old(loadingMore) && loading == old(loading)
                && memo == old(memo) && toast.None?
      ensures !old(memo.loadingMore) && old(memo.hasMore) ==> (toast.Some? <==> reply.Failure?)
      ensures toast.Some? ==> toast.value == ErrorToast(LOAD_MESSAGES_FAILED)
      ensures !old(memo.loadingMore) && old(memo.hasMore) ==>
                query == Some(PageQuery(me, otherUserId, MESSAGES_PER_PAGE,
                                        if Present(old(memo.cursor)) then old(memo.cursor) else None))
      ensures !old(memo.loadingMore) && old(memo.hasMore) && reply.Failure? ==>
                messages == old(messages) && oldestMessageId == old(oldestMessageId)
                && hasMoreMessages == old(hasMoreMessages)
      ensures !old(memo.loadingMore) && old(memo.hasMore) && reply.Success? ==>
                messages == old(messages) + Reversed(Rows(reply))
      ensures !old(memo.loadingMore) && old(memo.hasMore) && reply.Success? && |Rows(reply)| > 0 ==>
                oldestMessageId == Some(Rows(reply)[|Rows(reply)| - 1].id)
                && hasMoreMessages == HasMoreAfter(|Rows(reply)|)
      ensures !old(memo.loadingMore) && old(memo.hasMore) && reply.Success? && |Rows(reply)| == 0 ==>
                oldestMessageId == old(oldestMessageId) && !hasMoreMessages
      ensures !old(memo.loadingMore) && old(memo.hasMore) ==>
                !loading && !loadingMore && memo == Memo(false, hasMoreMessages, oldestMessageId)
      ensures newMessage == old(newMessage) && selectedFile == old(selectedFile) && sending == old(sending)
      ensures filePreview == old(filePreview) && audioChunks == old(audioChunks)
    {
      if memo.loadingMore || !memo.hasMore {
        return None, None;
      }
      var cursor := memo.cursor;
      loadingMore := true;
      memo := Refresh(memo, loadingMore, hasMoreMessages, oldestMessageId);
      query := Some(PageQuery(me, otherUserId, MESSAGES_PER_PAGE, if Present(cursor) then cursor else None));
      toast := ApplyPage(true, reply);
    }

    /**
     * The realtime INSERT handler: the new row goes in front with no duplicate
     * check, and a 'dm' sound is requested only when the other user sent it.
     */
    method OnInsert(msg: DirectMessage) returns (sound: Option<SoundRequest>)
      modifies this`messages
      ensures messages == [msg] + old(messages)
      ensures sound.Some? <==> msg.senderId == otherUserId
      ensures sound.Some? ==> sound.value == SoundRequest(Dm, false)
    {
      messages := [msg] + messages;
      if msg.senderId == otherUserId {
        sound := Some(SoundRequest(Dm, false));
      } else {
        sound := None;
      }
    }

    /**
     * `sendMessage`: nothing happens without a user or without trimmed text or
     * a file. Otherwise the file (if any) is uploaded first (`uploadedUrl` is
     * its URL, `None` when the upload failed) and the row is inserted whatever
     * the upload gave; the draft is cleared only when the insert succeeded.
     * The upload and the insert each show their own error toast.
     */
    method SendMessage(user: Option<Id>, uploadedUrl: Option<String>, insertError: Option<Error>)
      returns (sent: Option<DmInsert>, toasts: seq<Toast>)
      modifies this`newMessage, this`selectedFile, this`filePreview, this`audioChunks, this`sending
      ensures !CanSend(user, old(newMessage), old(selectedFile)) ==>
                sent.None? && newMessage == old(newMessage) && selectedFile == old(selectedFile)
                && filePreview == old(filePreview) && audioChunks == old(audioChunks) && sending == old(sending)
                && toasts == []
      ensures CanSend(user, old(newMessage), old(selectedFile)) ==>
                toasts == SendToasts(old(selectedFile).Some?, uploadedUrl, insertError.Some?)
      ensures CanSend(user, old(newMessage), old(selectedFile)) ==>
                sent == Some(DmInsert(user.value, otherUserId,
                                      SentContent(old(newMessage), old(selectedFile).Some?),
                                      ColumnsFor(old(selectedFile), uploadedUrl)))
                && !sending
      ensures CanSend(user, old(newMessage), old(selectedFile)) && insertError.None? ==>
                newMessage == "" && selectedFile.None? && filePreview == "" && audioChunks == 0
      ensures CanSend(user, old(newMessage), old(selectedFile)) && insertError.Some? ==>
                newMessage == old(newMessage) && selectedFile == old(selectedFile)
                && filePreview == old(filePreview) && audioChunks == old(audioChunks)
      ensures messages == old(messages) && oldestMessageId == old(oldestMessageId)
      ensures hasMoreMessages == old(hasMoreMessages) && loading == old(loading) && loadingMore == old(loadingMore)
      ensures memo == old(memo)
    {
      if !CanSend(user, newMessage, selectedFile) {
        return None, [];
      }
      var row;
      row, toasts := Deliver(user.value, uploadedUrl, insertError);
      sent := Some(row);
    }

    /**
     * `sendMessage` past its guard: the row is inserted whatever the upload
     * gave, each failure shows its toast, the draft is cleared only when the
     * insert succeeded, and `sending` ends false.
     */
    method Deliver(senderId: Id, uploadedUrl: Option<String>, insertError: Option<Error>)
      returns (sent: DmInsert, toasts: seq<Toast>)
      modifies this`newMessage, this`selectedFile, this`filePreview, this`audioChunks, this`sending
      ensures sent == DmInsert(senderId, otherUserId, SentContent(old(newMessage), old(selectedFile).Some?),
                               ColumnsFor(old(selectedFile), uploadedUrl))
      ensures toasts == SendToasts(old(selectedFile).Some?, uploadedUrl, insertError.Some?)
      ensures !sending
      ensures insertError.None? ==> newMessage == "" && selectedFile.None? && filePreview == "" && audioChunks == 0
      ensures insertError.Some? ==>
                newMessage == old(newMessage) && selectedFile == old(selectedFile)
                && filePreview == old(filePreview) && audioChunks == old(audioChunks)
    {
      sending := true;
      toasts := SendToasts(selectedFile.Some?, uploadedUrl, insertError.Some?);
      sent := DmInsert(senderId, otherUserId, SentContent(newMessage, selectedFile.Some?),
                       ColumnsFor(selectedFile, uploadedUrl));
      if insertError.None? {
        newMessage := "";
        selectedFile := None;
        filePreview := "";
        audioChunks := 0;
      }
      sending := false;
    }
  }

  /**
   * After a full first page (mount, no cursor captured yet), the first
   * "load more" reuses the mount-time closure: it sends the first query again,
   * without a cursor, and the same newest page is appended a second time.
   * The next load-more, made with the refreshed closure, sends the cursor.
   */
  method FirstLoadMoreRefetchesNewest(me: Id, other: Id, page: seq<DirectMessage>)
    returns (first: PageQuery, second: Option<PageQuery>, shown: seq<DirectMessage>, third: Option<PageQuery>)
    requires |page| == MESSAGES_PER_PAGE && page[|page| - 1].id != ""
    ensures first.before.None? && second == Some(first)
    ensures shown == page + Reversed(page)
    ensures third.Some? && third.value.before == Some(page[|page| - 1].id)
  {
    var w := new Window(other);
    var toast1, toast2, toast3;
    first, toast1 := w.LoadMessages(me, false, Success(Some(page)));
    second, toast2 := w.LoadMoreMessages(me, Success(Some(page)));
    shown := w.messages;
    third, toast3 := w.LoadMoreMessages(me, Failure(Error("", "")));
  }
}
