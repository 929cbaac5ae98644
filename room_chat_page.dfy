/**
 * The room chat page: the list of rooms with the selected one, the
 * create-room dialog (name, description, invitees), the selected room's
 * messages with live appends, and the composer's send.
 */
module RoomChatPage {
  import opened Text
  import opened Seqs
  import opened Backend
  import opened Attachments
  import opened Notifications
  import opened Toasts

  datatype Room = Room(id: Id, name: String, description: Option<String>, createdAt: int, ownerId: Id)

  datatype RoomMessage = RoomMessage(id: Id, content: String, createdAt: int, senderId: Id, attachment: AttachmentColumns)

  /** The create-room form: `{ name, description }`. */
  datatype RoomForm = RoomForm(name: String, description: String)

  const EMPTY_FORM := RoomForm("", "")

  datatype Role = Owner | Member

  /** How many messages `loadMessages` fetches for a room. */
  const MESSAGES_LIMIT: nat := 50

  /** The `room_messages` query: the room's messages with their senders' profiles, oldest first, at most `limit`. */
  datatype RoomMessagesQuery = RoomMessagesQuery(roomId: Id, limit: nat)

  const LOAD_ROOMS_FAILED: String := "Failed to load rooms"
  const FILL_IN_ROOM: String := "Please fill in room name and select at least one user"
  const ICON_UPLOAD_FAILED: String := "Failed to upload room icon"
  const ROOM_CREATED: String := "Room created successfully!"
  const CREATE_ROOM_FAILED: String := "Failed to create room"

  /** The `rooms` row inserted by `createRoom`; the name is sent untrimmed. */
  datatype RoomInsert = RoomInsert(name: String, description: String, ownerId: Id, iconUrl: Option<String>)

  /** A `room_members` row. */
  datatype Membership = Membership(roomId: Id, userId: Id, role: Role)

  /** The row inserted into `room_messages` by a send. */
  datatype RoomMessageInsert = RoomMessageInsert(roomId: Id, senderId: Id, content: String, attachment: AttachmentColumns)

  /** `selectedUsers.map(userId => ({ room_id, user_id: userId, role: 'member' }))`. */
  function MemberRows(roomId: Id, userIds: seq<Id>): (rows: seq<Membership>)
    ensures |rows| == |userIds|
    ensures forall i :: 0 <= i < |rows| ==> rows[i] == Membership(roomId, userIds[i], Member)
  {
    if userIds == [] then [] else [Membership(roomId, userIds[0], Member)] + MemberRows(roomId, userIds[1..])
  }

  /** The memberships written for a new room: the creator as owner, then one member row per selected id. */
  function RoomMemberships(roomId: Id, creator: Id, selected: seq<Id>): (rows: seq<Membership>)
    ensures |rows| == |selected| + 1
    ensures rows[0] == Membership(roomId, creator, Owner)
    ensures forall i :: 0 <= i < |selected| ==> rows[i + 1] == Membership(roomId, selected[i], Member)
  {
    [Membership(roomId, creator, Owner)] + MemberRows(roomId, selected)
  }

  /** Every selected id gets exactly as many member rows as it occurs in the selection. */
  lemma {:induction false} MemberRowsCount(roomId: Id, selected: seq<Id>, u: Id)
    ensures multiset(MemberRows(roomId, selected))[Membership(roomId, u, Member)] == multiset(selected)[u]
  {
    if selected != [] {
      var t := selected[1..];
      var head := Membership(roomId, selected[0], Member);
      var tail := MemberRows(roomId, t);
      MemberRowsCount(roomId, t, u);
      assert selected == [selected[0]] + t;
      assert multiset(selected)[u] == multiset([selected[0]])[u] + multiset(t)[u];
      assert MemberRows(roomId, selected) == [head] + tail;
      assert multiset([head] + tail)[Membership(roomId, u, Member)]
          == multiset([head])[Membership(roomId, u, Member)] + multiset(tail)[Membership(roomId, u, Member)];
      assert multiset([head])[Membership(roomId, u, Member)] == multiset([selected[0]])[u];
    }
  }

  /** The selection yields member rows only: the owner row is the creator's alone. */
  lemma MemberRowsNoOwner(roomId: Id, selected: seq<Id>, u: Id)
    ensures Membership(roomId, u, Owner) !in MemberRows(roomId, selected)
  {
  }

  /** The `createRoom` guard: a user, a name that is not blank, and at least one invitee. */
  predicate CanCreateRoom(user: Option<Id>, form: RoomForm, selected: seq<Id>) {
    user.Some? && !Blank(form.name) && |selected| > 0
  }

  /** Unchecking an invitee: `prev.filter(id => id !== userId)`. */
  function Unselect(selected: seq<Id>, userId: Id): (r: seq<Id>)
    ensures userId !in r
    ensures IsSubsequence(r, selected)
    ensures forall u :: u != userId ==> multiset(r)[u] == multiset(selected)[u]
  {
    var r := Filter(selected, (id: Id) => id != userId);
    FilterMembers(selected, (id: Id) => id != userId);
    FilterIsSubsequence(selected, (id: Id) => id != userId);
    FilterMultiset(selected, (id: Id) => id != userId);
    r
  }

  /** The room send guard `!user || !selectedRoom || (!newMessage.trim() && !selectedFile)`, negated. */
  predicate CanSendToRoom(user: Option<Id>, room: Option<Room>, draft: String, file: Option<File>) {
    user.Some? && room.Some? && (!Blank(draft) || file.Some?)
  }

  /** The icon upload's own error toast: shown only when an icon was chosen and no URL came back. */
  function IconToasts(icon: Option<File>, iconUrl: Option<String>): (ts: seq<Toast>)
    ensures ts != [] <==> icon.Some? && iconUrl.None?
    ensures ts != [] ==> ts == [ErrorToast(ICON_UPLOAD_FAILED)]
  {
    if icon.Some? && iconUrl.None? then [ErrorToast(ICON_UPLOAD_FAILED)] else []
  }

  class Page {
    var rooms: seq<Room>
    var selectedRoom: Option<Room>
    var messages: seq<RoomMessage>
    var newMessage: String
    var newRoom: RoomForm
    var loading: bool
    var sending: bool
    var isDialogOpen: bool
    var selectedUsers: seq<Id>
    var roomIcon: Option<File>
    var iconPreview: String
    var selectedFile: Option<File>
    var filePreview: String
    var audioChunks: nat

    /** The state after mounting (the mount effect also clears the create-room form). */
    constructor ()
      ensures rooms == [] && selectedRoom.None? && messages == [] && newMessage == ""
      ensures newRoom == EMPTY_FORM && selectedUsers == [] && roomIcon.None? && iconPreview == ""
      ensures loading && !sending && !isDialogOpen
      ensures selectedFile.None? && filePreview == "" && audioChunks == 0
    {
      rooms, selectedRoom, messages, newMessage := [], None, [], "";
      newRoom, selectedUsers, roomIcon, iconPreview := EMPTY_FORM, [], None, "";
      loading, sending, isDialogOpen := true, false, false;
      selectedFile, filePreview, audioChunks := None, "", 0;
    }

    /** `handleUserSelection`: checking appends (no duplicate check), unchecking removes every occurrence. */
    method HandleUserSelection(userId: Id, checked: bool)
      modifies this`selectedUsers
      ensures checked ==> selectedUsers == old(selectedUsers) + [userId]
      ensures !checked ==> selectedUsers == Unselect(old(selectedUsers), userId)
    {
      if checked {
        selectedUsers := selectedUsers + [userId];
      } else {
        selectedUsers := Filter(selectedUsers, (id: Id) => id != userId);
      }
    }

    /**
     * `loadRooms`: on success the rooms are replaced and the first room is
     * selected if none is; on failure nothing but `loading` changes and an
     * error toast is shown.
     */
    method LoadRooms(reply: Reply<seq<Room>>) returns (toast: Option<Toast>)
      modifies this`rooms, this`selectedRoom, this`loading
      ensures reply.Failure? ==> rooms == old(rooms) && selectedRoom == old(selectedRoom)
      ensures toast.Some? <==> reply.Failure?
      ensures toast.Some? ==> toast.value == ErrorToast(LOAD_ROOMS_FAILED)
      ensures reply.Success? ==> rooms == Rows(reply)
      ensures reply.Success? && |Rows(reply)| > 0 && old(selectedRoom).None? ==> selectedRoom == Some(Rows(reply)[0])
      ensures !(reply.Success? && |Rows(reply)| > 0 && old(selectedRoom).None?) ==> selectedRoom == old(selectedRoom)
      ensures !loading
    {
      toast := None;
      if reply.Success? {
        var data := Rows(reply);
        rooms := data;
        if |data| > 0 && selectedRoom.None? {
          selectedRoom := Some(data[0]);
        }
      } else {
        toast := Some(ErrorToast(LOAD_ROOMS_FAILED));
      }
      loading := false;
    }

    /** `loadMessages(roomId)`: success replaces the list, failure keeps it and shows a toast. */
    method LoadMessages(roomId: Id, reply: Reply<seq<RoomMessage>>) returns (query: RoomMessagesQuery, toast: Option<Toast>)
      modifies this`messages
      ensures query.roomId == roomId && query.limit == MESSAGES_LIMIT
      ensures reply.Success? ==> messages == Rows(reply) && toast.None?
      ensures reply.Failure? ==> messages == old(messages) && toast == Some(ErrorToast(LOAD_MESSAGES_FAILED))
    {
      query := RoomMessagesQuery(roomId, MESSAGES_LIMIT);
      if reply.Success? {
        messages := Rows(reply);
        toast := None;
      } else {
        toast := Some(ErrorToast(LOAD_MESSAGES_FAILED));
      }
    }

    /**
     * `createRoom`. Inputs are the backend's answers in call order: the icon
     * upload's URL (`None` on failure; only used when an icon is chosen), the
     * inserted room (a `.single()` reply: a failure, or a null row, aborts), and
     * the reply of the reload that follows. Membership insert errors are not checked.
     * `toasts` are the notices shown, in order.
     */
    method CreateRoom(user: Option<Id>, iconUrl: Option<String>, created: Reply<Room>, reload: Reply<seq<Room>>)
      returns (roomInsert: Option<RoomInsert>, memberships: seq<Membership>, toasts: seq<Toast>)
      modifies this`newRoom, this`selectedUsers, this`roomIcon, this`iconPreview, this`isDialogOpen
      modifies this`rooms, this`selectedRoom, this`loading
      ensures !CanCreateRoom(user, old(newRoom), old(selectedUsers)) ==>
                roomInsert.None? && memberships == []
                && newRoom == old(newRoom) && selectedUsers == old(selectedUsers) && roomIcon == old(roomIcon)
                && rooms == old(rooms) && selectedRoom == old(selectedRoom) && isDialogOpen == old(isDialogOpen)
                && iconPreview == old(iconPreview) && loading == old(loading)
                && toasts == [ErrorToast(FILL_IN_ROOM)]
      ensures CanCreateRoom(user, old(newRoom), old(selectedUsers)) ==>
                roomInsert == Some(RoomInsert(old(newRoom).name, old(newRoom).description, user.value,
                                              if old(roomIcon).Some? then iconUrl else None))
      ensures CanCreateRoom(user, old(newRoom), old(selectedUsers)) && !(created.Success? && created.data.Some?) ==>
                memberships == []
                && newRoom == old(newRoom) && selectedUsers == old(selectedUsers) && roomIcon == old(roomIcon)
                && rooms == old(rooms) && selectedRoom == old(selectedRoom) && isDialogOpen == old(isDialogOpen)
                && iconPreview == old(iconPreview) && loading == old(loading)
                && toasts == IconToasts(old(roomIcon), iconUrl) + [ErrorToast(CREATE_ROOM_FAILED)]
      ensures CanCreateRoom(user, old(newRoom), old(selectedUsers)) && created.Success? && created.data.Some? ==>
                memberships == RoomMemberships(created.data.value.id, user.value, old(selectedUsers))
                && newRoom == EMPTY_FORM && selectedUsers == [] && roomIcon.None? && iconPreview == ""
                && !isDialogOpen && !loading
                && rooms == (if reload.Success? then Rows(reload) else old(rooms))
                && selectedRoom == Some(created.data.value)
                && toasts == IconToasts(old(roomIcon), iconUrl)
                             + (if reload.Failure? then [ErrorToast(LOAD_ROOMS_FAILED)] else []) + [SuccessToast(ROOM_CREATED)]
    {
      if !CanCreateRoom(user, newRoom, selectedUsers) {
        return None, [], [ErrorToast(FILL_IN_ROOM)];
      }
      var insert;
      insert, memberships, toasts := SubmitRoom(user.value, iconUrl, created, reload);
      roomInsert := Some(insert);
    }

    /**
     * `createRoom` past its guard: the room row is inserted with the icon's
     * URL; a failed insert (or a null row) stops there with an error toast,
     * a created room gets its memberships and the success tail.
     */
    method SubmitRoom(userId: Id, iconUrl: Option<String>, created: Reply<Room>, reload: Reply<seq<Room>>)
      returns (roomInsert: RoomInsert, memberships: seq<Membership>, toasts: seq<Toast>)
      modifies this`newRoom, this`selectedUsers, this`roomIcon, this`iconPreview, this`isDialogOpen
      modifies this`rooms, this`selectedRoom, this`loading
      ensures roomInsert == RoomInsert(old(newRoom).name, old(newRoom).description, userId,
                                       if old(roomIcon).Some? then iconUrl else None)
      ensures !(created.Success? && created.data.Some?) ==>
                memberships == []
                && newRoom == old(newRoom) && selectedUsers == old(selectedUsers) && roomIcon == old(roomIcon)
                && rooms == old(rooms) && selectedRoom == old(selectedRoom) && isDialogOpen == old(isDialogOpen)
                && iconPreview == old(iconPreview) && loading == old(loading)
                && toasts == IconToasts(old(roomIcon), iconUrl) + [ErrorToast(CREATE_ROOM_FAILED)]
      ensures created.Success? && created.data.Some? ==>
                memberships == RoomMemberships(created.data.value.id, userId, old(selectedUsers))
                && newRoom == EMPTY_FORM && selectedUsers == [] && roomIcon.None? && iconPreview == ""
                && !isDialogOpen && !loading
                && rooms == (if reload.Success? then Rows(reload) else old(rooms))
                && selectedRoom == Some(created.data.value)
                && toasts == IconToasts(old(roomIcon), iconUrl)
                             + (if reload.Failure? then [ErrorToast(LOAD_ROOMS_FAILED)] else []) + [SuccessToast(ROOM_CREATED)]
    {
      var icon: Option<String> := None;
      if roomIcon.Some? {
        icon := iconUrl;
      }
      toasts := IconToasts(roomIcon, iconUrl);
      roomInsert := RoomInsert(newRoom.name, newRoom.description, userId, icon);
      if created.Failure? || created.data.None? {
        return roomInsert, [], toasts + [ErrorToast(CREATE_ROOM_FAILED)];
      }
      var room := created.data.value;
      memberships := RoomMemberships(room.id, userId, selectedUsers);
      var tail := ResetAndSelect(room, reload);
      toasts := toasts + tail;
    }

    /**
     * The success tail of `createRoom`: reset the form, close the dialog,
     * reload the rooms, select the new room, and announce it.
     */
    method ResetAndSelect(room: Room, reload: Reply<seq<Room>>) returns (toasts: seq<Toast>)
      modifies this`newRoom, this`selectedUsers, this`roomIcon, this`iconPreview, this`isDialogOpen
      modifies this`rooms, this`selectedRoom, this`loading
      ensures newRoom == EMPTY_FORM && selectedUsers == [] && roomIcon.None? && iconPreview == ""
      ensures !isDialogOpen && !loading && selectedRoom == Some(room)
      ensures rooms == (if reload.Success? then Rows(reload) else old(rooms))
      ensures toasts == (if reload.Failure? then [ErrorToast(LOAD_ROOMS_FAILED)] else []) + [SuccessToast(ROOM_CREATED)]
    {
      newRoom := EMPTY_FORM;
      selectedUsers := [];
      roomIcon := None;
      iconPreview := "";
      isDialogOpen := false;
      var reloadToast := LoadRooms(reload);
      selectedRoom := Some(room);
      toasts := (if reloadToast.Some? then [reloadToast.value] else []) + [SuccessToast(ROOM_CREATED)];
    }

    /**
     * The realtime INSERT handler: the re-fetched row (if the fetch returned one)
     * is appended with no duplicate check; a 'room' sound is requested unless
     * the current user sent it.
     */
    method OnInsert(user: Option<Id>, fetched: Option<RoomMessage>) returns (sound: Option<SoundRequest>)
      modifies this`messages
      ensures fetched.None? ==> messages == old(messages) && sound.None?
      ensures fetched.Some? ==> messages == old(messages) + [fetched.value]
      ensures sound.Some? <==> fetched.Some? && (user.None? || fetched.value.senderId != user.value)
      ensures sound.Some? ==> sound.value == SoundRequest(MessageKind.Room, false)
    {
      sound := None;
      if fetched.Some? {
        messages := messages + [fetched.value];
        if user.None? || fetched.value.senderId != user.value {
          sound := Some(SoundRequest(MessageKind.Room, false));
        }
      }
    }

    /**
     * `sendMessage`: needs a user, a selected room, and trimmed text or a file.
     * A failed upload does not stop the insert: the row then has a null URL but
     * the file's type and name. The draft is cleared only when the insert succeeded.
     * The upload and the insert each show their own error toast.
     */
    method SendMessage(user: Option<Id>, uploadedUrl: Option<String>, insertError: Option<Error>)
      returns (sent: Option<RoomMessageInsert>, toasts: seq<Toast>)
      modifies this`newMessage, this`selectedFile, this`filePreview, this`audioChunks, this`sending
      ensures !CanSendToRoom(user, old(selectedRoom), old(newMessage), old(selectedFile)) ==>
                sent.None? && newMessage == old(newMessage) && selectedFile == old(selectedFile)
                && filePreview == old(filePreview) && audioChunks == old(audioChunks) && sending == old(sending)
                && toasts == []
      ensures CanSendToRoom(user, old(selectedRoom), old(newMessage), old(selectedFile)) ==>
                toasts == SendToasts(old(selectedFile).Some?, uploadedUrl, insertError.Some?)
      ensures CanSendToRoom(user, old(selectedRoom), old(newMessage), old(selectedFile)) ==>
                sent == Some(RoomMessageInsert(old(selectedRoom).value.id, user.value,
                                               SentContent(old(newMessage), old(selectedFile).Some?),
                                               ColumnsFor(old(selectedFile), uploadedUrl)))
                && !sending
                && (insertError.None? ==> newMessage == "" && selectedFile.None? && filePreview == "" && audioChunks == 0)
                && (insertError.Some? ==> newMessage == old(newMessage) && selectedFile == old(selectedFile)
                                          && filePreview == old(filePreview) && audioChunks == old(audioChunks))
      ensures rooms == old(rooms) && selectedRoom == old(selectedRoom) && messages == old(messages)
      ensures newRoom == old(newRoom) && selectedUsers == old(selectedUsers)
    {
      if !CanSendToRoom(user, selectedRoom, newMessage, selectedFile) {
        return None, [];
      }
      var row;
      row, toasts := Deliver(selectedRoom.value.id, user.value, uploadedUrl, insertError);
      sent := Some(row);
    }

    /**
     * `sendMessage` past its guard: the row is inserted whatever the upload
     * gave, each failure shows its toast, the draft is cleared only when the
     * insert succeeded, and `sending` ends false.
     */
    method Deliver(roomId: Id, senderId: Id, uploadedUrl: Option<String>, insertError: Option<Error>)
      returns (sent: RoomMessageInsert, toasts: seq<Toast>)
      modifies this`newMessage, this`selectedFile, this`filePreview, this`audioChunks, this`sending
      ensures sent == RoomMessageInsert(roomId, senderId, SentContent(old(newMessage), old(selectedFile).Some?),
                                        ColumnsFor(old(selectedFile), uploadedUrl))
      ensures toasts == SendToasts(old(selectedFile).Some?, uploadedUrl, insertError.Some?)
      ensures !sending
      ensures insertError.None? ==> newMessage == "" && selectedFile.None? && filePreview == "" && audioChunks == 0
      ensures insertError.Some? ==>
                newMessage == old(newMessage) && selectedFile == old(selectedFile)
                && filePreview == old(filePreview) && audioChunks == old(audioChunks)
    {
      sending := true;
      toasts := SendToasts(selectedFile.Some?, uploadedUrl, insertError.Some?);
      sent := RoomMessageInsert(roomId, senderId, SentContent(newMessage, selectedFile.Some?),
                                ColumnsFor(selectedFile, uploadedUrl));
      if insertError.None? {
        newMessage := "";
        selectedFile := None;
        filePreview := "";
        audioChunks := 0;
      }
      sending := false;
    }
  }
}
