# Textenger client state, modelled in Dafny

Textenger is a chat application: rooms with text and voice channels, room chats,
one-to-one direct messages, a friend search, and notification sounds. Its React
front end keeps the client-side state and sends every load, insert, upload and
realtime subscription to a hosted database/storage service. This project models
that client-side state logic and proves what it does:

- **Direct messages** (`DirectMessageWindow`): paging with a cursor, load-more
  appends, live inserts prepended, and the send guard and content fallback.
- **Room chat** (`RoomChatPage`): the invitee list, create-room validation and
  membership fan-out, auto-selecting the first room, the send path including a
  failed upload, and live appends.
- **Attachments** (`Attachments`): rendering classified by MIME prefix, shared
  by both chat components.
- **Conversation list** (`ChatList`): the fold that summarises direct messages
  into one conversation per partner, the search filter, and the empty states.
- **Channel message list** (`MessageList`): the five-minute grouping rule, the
  display-name, deleted-message and size-label fallbacks, and load/append.
- **Global store** (`AppStore`): the setters, `addMessage`'s append-then-stable-sort,
  and `toggleMembers`.
- **Member panel** (`MemberList`): bucketing members by role, role order, role
  icons and colours.
- **Channel sidebar** (`ChannelSidebar`): the text/voice partition, the
  current-room lookup, and the room-change effect.
- **Composer** (`MessageComposer`): the text send, Enter-to-send, and the file
  share with its 10 MiB limit and upload-before-insert order.
- **Notifications** (`Notifications`): the sound/notification decision and the
  settings load/save/toggle.
- **Friend search** (`BrowseFriendsPage`): the search guard, opening a
  conversation with its greeting message, and the error-code messages.
- **Dashboard** (`Dashboard`): the active page, the selected chat partner, and
  the main-content switch.

Conventions:
- The backend is an oracle. Every awaited call is a method parameter:
  `Reply<T>` is either `Failure(error)` or `Success(data)`, where `data` is
  optional (`Rows(r)` is the source's `data || []`). The request a component
  issues (a query, an inserted row, an upload) is an out-parameter, so contracts
  can state exactly what is sent. The notices a handler shows are out-parameters
  too, in the order they appear.
- Components that hold React state are classes whose fields are that state.
  Each handler is a method whose `modifies` names the fields it may change and
  whose `ensures` gives their new values.
- Render logic is a pure function from the state to a view datatype.
- JavaScript truthiness of an optional string is `Present` (present and
  non-empty), and `a || b || c` is `FirstPresent`.
- `trim` removes the ECMAScript white-space and line-terminator characters.
- Timestamps are integer milliseconds. Ids and strings are `seq<char>`.

Shared helpers: `Text` (trim, ASCII case mapping, `startsWith`, `includes`,
number-to-string), `Seqs` (reverse, filter, subsequence), `Backend` (`Option`,
`Error`, `Reply`), and `Toasts` (the success and error notices shown by the
`sonner` toaster, with the texts both chat pages share).

Behaviour worth knowing:
- The direct-message list is not kept in any order. Pages come newest-first,
  load-more pages are appended reversed, and live rows go in front.
  `DirectMessageWindow.LoadMoreBreaksOrder` exhibits a concrete unsorted result.
- No live insert is deduplicated.
- "Load more" in the direct-message window is a memoized callback that is
  recomputed only when `loadingMore` or `hasMoreMessages` changes. After a full
  first page neither flag has changed since mount, so the first load-more
  still sees no cursor: it fetches the newest page again and appends it a
  second time. `DirectMessageWindow.FirstLoadMoreRefetchesNewest` exhibits this.
- `createRoom` sends the untrimmed name, even though its guard trims it.

## Model

| member | source | states |
|---|---|---|
| DirectMessageWindow.CanSendContent | src/components/DirectMessageWindow.tsx:266-285 | past the send guard the sent content is never empty; without a file it is the trimmed draft |
| DirectMessageWindow.LoadMoreBreaksOrder | src/components/DirectMessageWindow.tsx:110-146 | a window that loads a newest-first page and then, through `loadMessages(true)`, an older one (the query carrying the oldest id as cursor) shows a list ordered neither newest-first nor oldest-first |
| DirectMessageWindow.Window.constructor | src/components/DirectMessageWindow.tsx:53-67 | initial state: no messages, no cursor, more expected, loading |
| DirectMessageWindow.Window.LoadMessages | src/components/DirectMessageWindow.tsx:110-146 | query carries the cursor only when loading more and one exists; first load replaces the list with the page as returned; load-more appends it reversed; a non-empty page moves the cursor to its last id and sets has-more to "page full"; an empty page clears has-more and keeps the cursor; a failure keeps list, cursor and has-more and shows "Failed to load messages"; both loading flags end false |
| DirectMessageWindow.Window.LoadMoreMessages | src/components/DirectMessageWindow.tsx:148-153 | the memoized callback: its guard and cursor are those captured when `loadingMore` or `hasMoreMessages` last changed; no query, no toast and no change while a page is in flight or none is expected; otherwise the query carries the captured cursor, the reversed page is appended, and the memo ends current; the load's error toast is shown iff its reply failed |
| DirectMessageWindow.Window.ApplyPage | src/components/DirectMessageWindow.tsx:124-145 | the page replaces or extends the list, the cursor and has-more follow it, a failure keeps them and shows "Failed to load messages", both loading flags drop, and the render refreshes the memo only if a dependency changed |
| DirectMessageWindow.FirstLoadMoreRefetchesNewest | src/components/DirectMessageWindow.tsx:148-153 | after a full first page, the first load-more sends the first query again without a cursor and the newest page is shown twice; the next load-more sends the cursor |
| DirectMessageWindow.Window.OnInsert | src/components/DirectMessageWindow.tsx:166-173 | the new row is put in front with no duplicate check; a 'dm' sound is requested iff the other user sent it |
| DirectMessageWindow.Window.SendMessage | src/components/DirectMessageWindow.tsx:265-303 | nothing is sent and no toast is shown without a user, or without trimmed text and without a file; otherwise the outcome is that of `Deliver`; loaded messages, cursor, paging flags and memo are untouched |
| DirectMessageWindow.Window.Deliver | src/components/DirectMessageWindow.tsx:268-302 | the row carries the trimmed text or the attachment fallback and the upload's URL with the file's type and name; the toasts are `SendToasts`: "Failed to upload file" iff a file got no URL, then "Failed to send message" iff the insert failed; draft, file, preview and recording are cleared only when the insert succeeded; sending ends false |
| Toasts.SendToastsShow | src/components/DirectMessageWindow.tsx:202-302 | a send shows the upload error iff a picked file got no URL and the send error iff the insert failed, both as errors and nothing else |
| Attachments.SentContent | src/components/DirectMessageWindow.tsx:285 | content is the trimmed draft, else "Sent an attachment" when a file is sent, else empty; empty exactly when the draft is blank and there is no file |
| Attachments.SentContentTrimmed | src/components/DirectMessageWindow.tsx:285 | the sent content never starts or ends with white space |
| Attachments.ColumnsFor | src/components/pages/RoomChatPage.tsx:478-486 | without a file all three attachment columns are null; with one, the URL is the upload's result (null when it failed) while type and name come from the file |
| Attachments.RenderAttachment | src/components/pages/RoomChatPage.tsx:431-471 | nothing without a URL; an image iff the type starts with "image/"; an audio player iff it starts with "audio/" and not "image/"; otherwise a download button labelled with the name or "Download Attachment" |
| Attachments.SentFileRendering | src/components/pages/RoomChatPage.tsx:310-314 | a file whose upload failed is stored as an attachment message that renders no attachment; a successful upload renders by the file's MIME type |
| RoomChatPage.MemberRows | src/components/pages/RoomChatPage.tsx:227-231 | one 'member' row per selected id, in selection order |
| RoomChatPage.RoomMemberships | src/components/pages/RoomChatPage.tsx:218-235 | the creator's 'owner' row first, then exactly the member rows |
| RoomChatPage.MemberRowsCount | src/components/pages/RoomChatPage.tsx:227-231 | each id gets as many member rows as it occurs in the selection |
| RoomChatPage.MemberRowsNoOwner | src/components/pages/RoomChatPage.tsx:227-231 | the selection produces no owner row |
| RoomChatPage.Unselect | src/components/pages/RoomChatPage.tsx:259 | unchecking removes every occurrence of the id and keeps all other ids, with their counts, in order |
| RoomChatPage.Page.constructor | src/components/pages/RoomChatPage.tsx:65-82 | initial state: no rooms, no selection, empty form and invitees, loading |
| RoomChatPage.Page.HandleUserSelection | src/components/pages/RoomChatPage.tsx:255-261 | checking appends with no duplicate check; unchecking is `Unselect` |
| RoomChatPage.Page.LoadRooms | src/components/pages/RoomChatPage.tsx:131-151 | success replaces the rooms and selects the first room only if rooms came back and none is selected; failure keeps rooms and selection and shows "Failed to load rooms" (a toast iff the reply failed); loading ends false |
| RoomChatPage.Page.LoadMessages | src/components/pages/RoomChatPage.tsx:354-382 | the query asks for the given room's messages, at most 50; success replaces the room's messages with no toast; failure keeps them and shows "Failed to load messages" |
| RoomChatPage.Page.CreateRoom | src/components/pages/RoomChatPage.tsx:191-253 | without a user, a non-blank name and at least one invitee nothing is inserted or changed and the fill-in error is shown; otherwise the outcome is that of `SubmitRoom`; only the form, invitees, icon, icon preview, dialog, rooms, selection and loading may change |
| RoomChatPage.Page.SubmitRoom | src/components/pages/RoomChatPage.tsx:197-252 | the room row has the untrimmed name and the icon URL only when an icon was chosen; "Failed to upload room icon" is shown iff a chosen icon got no URL; a failed room insert (or a null row) changes nothing and adds "Failed to create room"; on success the memberships are `RoomMemberships`, the form resets, the dialog closes, rooms reload (adding "Failed to load rooms" if that fails), the new room is selected and "Room created successfully!" comes last |
| RoomChatPage.Page.ResetAndSelect | src/components/pages/RoomChatPage.tsx:237-248 | form, invitees and icon are cleared, the dialog closes, the rooms reload and the new room becomes the selection; the toasts are the reload's error, if any, then the success notice; nothing outside the dialog, rooms, selection and loading may change |
| RoomChatPage.Page.OnInsert | src/components/pages/RoomChatPage.tsx:416-422 | a fetched row is appended at the tail with no duplicate check; a 'room' sound is requested iff it was not sent by the current user |
| RoomChatPage.Page.SendMessage | src/components/pages/RoomChatPage.tsx:473-510 | needs a user, a selected room, and trimmed text or a file, else nothing is sent and no toast is shown; otherwise the outcome is that of `Deliver`; only the draft, file, preview, recording and sending may change |
| RoomChatPage.Page.Deliver | src/components/pages/RoomChatPage.tsx:476-509 | a failed upload still inserts with a null URL and the file's type and name; the toasts are `SendToasts` (upload error iff a file got no URL, send error iff the insert failed); the draft is cleared only when the insert succeeded; sending ends false |
| ChatList.PartnersSymmetric | src/components/ChatList.tsx:71-72 | in a message between two different users, each sees the other as the partner |
| ChatList.IndexOfKey | src/components/ChatList.tsx:75 | the map lookup: the position of the conversation with that key, or the length when there is none |
| ChatList.GroupConversations | src/components/ChatList.tsx:68-98 | the `forEach` loop computes exactly the fold `Summarize` over the rows |
| ChatList.SummarizeKeys | src/components/ChatList.tsx:68-98 | one conversation per distinct partner: keys are distinct and are exactly the partners, so the count equals the number of partners |
| ChatList.SummarizeLastMessage | src/components/ChatList.tsx:85-95 | each conversation's last message is its partner's newest message, the earliest of equally new ones winning (strict `>`) |
| ChatList.SummarizeOrder | src/components/ChatList.tsx:63-98 | conversations come in order of each partner's first row, and each holds the profile from that first row |
| ChatList.FirstIndex | src/components/ChatList.tsx:75-76 | the index of a partner's first row, or the row count when absent |
| ChatList.PartnersFirstIndex | src/components/ChatList.tsx:75-76 | a key is a partner iff it has a first row |
| ChatList.FilteredConversations | src/components/ChatList.tsx:133-136 | an order-preserving subsequence keeping a conversation iff its lower-cased username or display name (empty when absent) contains the lower-cased query; the empty query keeps everything |
| ChatList.RenderList | src/components/ChatList.tsx:184-187 | items iff the filtered list is non-empty; otherwise "No conversations found" for a non-empty query and "No conversations yet" otherwise |
| ChatList.RenderItem | src/components/ChatList.tsx:194-226 | title is display name or username; the preview is prefixed "You: " iff I sent the last message; selected iff the partner is the selected user |
| ChatList.ConversationList.constructor | src/components/ChatList.tsx:33-35 | initial state: no conversations, loading, empty query |
| ChatList.ConversationList.LoadConversations | src/components/ChatList.tsx:48-105 | success replaces the conversations with `Summarize`; failure keeps them and reports "Failed to load conversations"; loading ends false |
| ChatList.ConversationList.OnInsert | src/components/ChatList.tsx:117-124 | reloads iff the current user is the sender or the receiver; a reload ends with loading false, replaces the list on success, and keeps it with "Failed to load conversations" on failure; no reload changes nothing and shows nothing |
| ChatList.ConversationList.SetSearchQuery | src/components/ChatList.tsx:176 | stores the query |
| MessageList.ShouldGroup | src/components/MessageList.tsx:136-139 | index 0 never groups; otherwise it groups iff same author and the gap is below 300000 ms (so exactly 5 minutes starts a new group, a negative gap groups) |
| MessageList.Runs | src/components/MessageList.tsx:136-139 | the grouping cuts a non-empty list into non-empty runs |
| MessageList.RunsFlatten | src/components/MessageList.tsx:136-139 | concatenating the runs gives back the messages in order |
| MessageList.RunsShape | src/components/MessageList.tsx:136-139 | inside a run every message groups with its predecessor, and every run after the first starts with a message that does not |
| MessageList.GroupingExample | src/components/MessageList.tsx:137-139 | same author at 0, 100000 and 400000 ms gives runs [m0, m1] and [m2] |
| MessageList.DisplayName | src/components/MessageList.tsx:132 | display name, else username, else "Unknown User"; never empty |
| MessageList.RoundedKb | src/components/MessageList.tsx:194 | `Math.round(size / 1024)`: the nearest kilobyte count, halves rounding up |
| MessageList.SizeLabelDistinguishes | src/components/MessageList.tsx:194 | the caption is "Unknown size" exactly when the size is absent or zero, and never empty |
| MessageList.RenderItem | src/components/MessageList.tsx:184-197 | an image card iff the type starts with "image/", otherwise a file card with name and size label |
| MessageList.RenderAttachments | src/components/MessageList.tsx:180-199 | no cards unless the attachments value is an array; otherwise one card per item, in order |
| MessageList.AvatarFor | src/components/MessageList.tsx:151-159 | the profile image iff its URL is present, otherwise the upper-cased first character of the shown name |
| MessageList.RenderMessage | src/components/MessageList.tsx:130-205 | the avatar/name/time header is absent iff the message groups; the header shows the display name and "(edited)" iff edited; the avatar is the profile image when there is one, else the upper-cased first letter of the display name; empty or absent content shows the deleted placeholder |
| MessageList.ChannelMessages.constructor | src/components/MessageList.tsx:33-34 | initial state: no messages, loading |
| MessageList.ChannelMessages.LoadMessages | src/components/MessageList.tsx:44-76 | nothing without a channel id; success replaces the list; failure keeps it; loading ends false |
| MessageList.ChannelMessages.OnInsert | src/components/MessageList.tsx:104-105 | a fetched row is appended at the tail, with no duplicate check |
| MessageList.ChannelMessages.Render | src/components/MessageList.tsx:208-228 | spinner while loading, the empty-channel view iff there are no messages, and otherwise the message view with every message rendered in order |
| AppStore.InsertSorted | src/stores/useAppStore.ts:73-77 | inserting into a time-sorted list keeps it sorted |
| AppStore.InsertPermutation | src/stores/useAppStore.ts:73-77 | insertion adds exactly the new message, as a multiset |
| AppStore.InsertStable | src/stores/useAppStore.ts:74-76 | messages of any one timestamp keep their order, and the new one follows them |
| AppStore.SortByTimeSortedPermutation | src/stores/useAppStore.ts:74-76 | the sort returns a time-ordered permutation |
| AppStore.SortByTimeStable | src/stores/useAppStore.ts:74-76 | the sort is stable |
| AppStore.SortByTimeOfSorted | src/stores/useAppStore.ts:74-76 | a sorted list is returned unchanged |
| AppStore.AddMessageProperties | src/stores/useAppStore.ts:73-77 | after `addMessage`: one more message, exactly the old ones plus the new one, time-ordered, equal timestamps in prior order with the new one last; on a sorted list it is a single insertion |
| AppStore.ToggledMembers | src/stores/useAppStore.ts:78 | negates the members-panel flag and changes nothing else |
| AppStore.ToggleTwice | src/stores/useAppStore.ts:78 | toggling twice restores the state |
| AppStore.Store.constructor | src/stores/useAppStore.ts:57-65 | initial state: no room or channel, empty lists, panel hidden, nobody typing |
| AppStore.Store.SetCurrentRoom | src/stores/useAppStore.ts:68 | replaces only the current room id (the channel id is kept) |
| AppStore.Store.SetCurrentChannel | src/stores/useAppStore.ts:69 | replaces only the current channel id |
| AppStore.Store.SetRooms | src/stores/useAppStore.ts:70 | replaces only the rooms |
| AppStore.Store.SetChannels | src/stores/useAppStore.ts:71 | replaces only the channels |
| AppStore.Store.SetMessages | src/stores/useAppStore.ts:72 | replaces only the messages |
| AppStore.Store.AddMessage | src/stores/useAppStore.ts:73-77 | messages become the stable time sort of the old list plus the new message |
| AppStore.Store.ToggleMembers | src/stores/useAppStore.ts:78 | the state becomes `ToggledMembers` of the old state |
| AppStore.Store.SetTypingUsers | src/stores/useAppStore.ts:79 | replaces only the typing set |
| MemberList.RoleNameInjective | src/integrations/supabase/types.ts:441 | distinct roles have distinct database names |
| MemberList.GroupMembers | src/components/MemberList.tsx:88-94 | the reduce yields a bucket for exactly the roles that occur, each holding that role's members in input order |
| MemberList.BucketsMultiset | src/components/MemberList.tsx:88-94 | together the four buckets hold exactly the members, as a multiset |
| MemberList.BucketsPartition | src/components/MemberList.tsx:88-94 | the four buckets' sizes sum to the member count |
| MemberList.BucketContents | src/components/MemberList.tsx:88-94 | a bucket holds exactly the members of its role, as a subsequence |
| MemberList.GetRoleIcon | src/components/MemberList.tsx:62-73 | crown, shield and user-check for owner, admin and moderator; the plain user icon for every other string |
| MemberList.GetRoleColor | src/components/MemberList.tsx:75-86 | the yellow, red and blue classes for owner, admin and moderator; the muted default for every other string |
| MemberList.RoleStylesDistinct | src/components/MemberList.tsx:62-86 | the three special roles have distinct icons and non-default colours; 'member' takes the defaults |
| MemberList.RenderMember | src/components/MemberList.tsx:139-177 | name falls back to username, then "Unknown User"; handle is "@" plus username or "unknown"; a badge iff the role is not 'member'; the avatar is the profile image when its URL is present, else the upper-cased first letter of the name |
| MemberList.SectionsInRoleOrder | src/components/MemberList.tsx:96-127 | sections come in the order owner, admin, moderator, member, skipping empty roles |
| MemberList.SectionsAreBuckets | src/components/MemberList.tsx:125-136 | every section shown holds its role's bucket, and that bucket is not empty |
| MemberList.SectionsCoverMembers | src/components/MemberList.tsx:120-139 | the sections hold as many members as the list |
| MemberList.MemberPanel.constructor | src/components/MemberList.tsx:23-24 | initial state: no members, loading |
| MemberList.MemberPanel.LoadMembers | src/components/MemberList.tsx:32-59 | nothing without a current room; success replaces the members; failure keeps them; loading ends false |
| MemberList.MemberPanel.Render | src/components/MemberList.tsx:96-136 | a skeleton while loading; otherwise the title "Members (n)" and the sections owner, admin, moderator, member in that order, each present iff its bucket is non-empty and holding exactly that bucket, together all members |
| MessageComposer.SizeLimitBoundary | src/components/MessageComposer.tsx:78 | exactly 10 MiB is accepted and one byte more is refused |
| MessageComposer.StoragePath | src/components/MessageComposer.tsx:88 | the path is the user id, a slash, the decimal timestamp, a dash, then the file name |
| MessageComposer.OptionalContent | src/components/MessageComposer.tsx:108 | null iff the text is blank, otherwise the non-empty trimmed text |
| MessageComposer.Composer.constructor | src/components/MessageComposer.tsx:16-18 | initial state: empty draft, not sending or uploading |
| MessageComposer.Composer.HandleSubmit | src/components/MessageComposer.tsx:22-52 | nothing without a non-blank draft, an idle composer and a user; otherwise inserts the trimmed text with no attachments and clears the draft only on success; sending ends false |
| MessageComposer.Composer.HandleKeyDown | src/components/MessageComposer.tsx:54-59 | Enter without Shift has the outcomes of a submit: the guard, the trimmed insert, clearing on success, the toast on failure, sending ending false; every other key changes nothing |
| MessageComposer.Composer.HandleFileUpload | src/components/MessageComposer.tsx:70-142 | nothing without files or a user; a file over 10 MiB is refused before any upload; a signed URL is requested iff the upload succeeded; the insert happens iff a signed URL came back; it carries the trimmed text or null and one attachment record keyed by the storage path; the draft is cleared only on success; uploading ends false and the input is reset |
| Notifications.NotificationBody | src/hooks/useNotifications.tsx:114 | "direct message" for dm, "room message" otherwise |
| Notifications.PlayNotificationSound | src/hooks/useNotifications.tsx:102-129 | nothing for the current chat or with sound disabled; on mobile a system notification iff permission is granted, never audio; on desktop playback from time 0 iff the audio element exists |
| Notifications.MergeEmptyPatch | src/hooks/useNotifications.tsx:76 | an empty patch leaves the settings unchanged |
| Notifications.MergeIdempotent | src/hooks/useNotifications.tsx:76 | applying the same patch twice equals applying it once |
| Notifications.MergeSequence | src/hooks/useNotifications.tsx:76 | a later patch overrides an earlier one field by field |
| Notifications.FromRow | src/hooks/useNotifications.tsx:60-64 | null columns take the defaults (sound on, volume 0.7); non-null columns are taken as loaded |
| Notifications.NotificationHook.constructor | src/hooks/useNotifications.tsx:12-18 | sound is on by default |
| Notifications.NotificationHook.LoadNotificationSettings | src/hooks/useNotifications.tsx:47-69 | a failure other than PGRST116 is reported and changes nothing; a returned row replaces the settings |
| Notifications.NotificationHook.SaveNotificationSettings | src/hooks/useNotifications.tsx:71-100 | nothing without a user; otherwise the merged settings are upserted and become the state only if the upsert succeeded |
| Notifications.NotificationHook.UpdateVolume | src/hooks/useNotifications.tsx:135-137 | nothing is sent and `isLoading` is unchanged without a user; otherwise saves the new volume, keeps sound on or off as it was, and ends with `isLoading` false |
| Notifications.NotificationHook.ToggleSound | src/hooks/useNotifications.tsx:131-133 | nothing is sent and `isLoading` is unchanged without a user; otherwise saves the negated sound flag and ends with `isLoading` false |
| BrowseFriendsPage.StartErrorMessage | src/components/pages/BrowseFriendsPage.tsx:105-115 | PGRST116 gives access denied; PGRST301 gives authentication required; otherwise a non-empty message as is, else "Failed to start conversation" |
| BrowseFriendsPage.MessageUser | src/components/pages/BrowseFriendsPage.tsx:63-117 | without a user only an error; otherwise the pair is checked; the greeting is inserted iff the check found no message; the chat opens only on the success path, with a started or opening toast; failures show the mapped message |
| BrowseFriendsPage.GreetingOnlyOnce | src/components/pages/BrowseFriendsPage.tsx:83-99 | after a greeting was sent, the next attempt opens the chat without inserting another |
| BrowseFriendsPage.Page.constructor | src/components/pages/BrowseFriendsPage.tsx:32-36 | the mount effect clears the query, the results and the searching flag |
| BrowseFriendsPage.Page.SearchUsers | src/components/pages/BrowseFriendsPage.tsx:38-61 | a blank query or no user clears the results and sends no query; otherwise the search excludes the searcher and is limited to 20; success replaces the results, failure keeps them with a toast; searching ends false |
| BrowseFriendsPage.Page.HandleSearchChange | src/components/pages/BrowseFriendsPage.tsx:119-126 | stores the query, and clears the results iff it is blank |
| ChannelSidebar.TextChannels | src/components/ChannelSidebar.tsx:65 | exactly the text channels, as a subsequence |
| ChannelSidebar.VoiceChannels | src/components/ChannelSidebar.tsx:66 | exactly the voice channels, as a subsequence |
| ChannelSidebar.ChannelsPartition | src/components/ChannelSidebar.tsx:65-66 | the two lists partition the channels: lengths sum to the total and together they hold every channel |
| ChannelSidebar.FindRoom | src/components/ChannelSidebar.tsx:31 | the first room with the current id, or none when no room has it |
| ChannelSidebar.HeaderTitle | src/components/ChannelSidebar.tsx:90 | the room's name, or "Unknown Room" when there is no room or the name is empty |
| ChannelSidebar.ButtonsFor | src/components/ChannelSidebar.tsx:124-134 | one button per text channel; selected iff it is the current channel |
| ChannelSidebar.Sidebar.constructor | src/components/ChannelSidebar.tsx:29 | not loading initially |
| ChannelSidebar.Sidebar.LoadChannels | src/components/ChannelSidebar.tsx:41-59 | nothing without a current room; success replaces the store's channels; failure leaves the store alone; loading ends false |
| ChannelSidebar.Sidebar.OnRoomChange | src/components/ChannelSidebar.tsx:33-39 | without a room the store's channels are cleared and `loading` is unchanged; otherwise they are reloaded and `loading` ends false |
| ChannelSidebar.Sidebar.HandleChannelSelect | src/components/ChannelSidebar.tsx:61-63 | the chosen channel becomes the store's current channel, nothing else changes |
| ChannelSidebar.Sidebar.Render | src/components/ChannelSidebar.tsx:68-160 | the select-a-room prompt iff there is no room id; the header title; a skeleton iff loading; "No text channels yet" iff there are no text channels; a voice section iff there are voice channels |
| Dashboard.Pane | src/components/Dashboard.tsx:51-60 | the message window iff a chat user is selected, else the placeholder |
| Dashboard.RenderMainContent | src/components/Dashboard.tsx:28-65 | each of the six named pages renders its own view; every other id renders the direct-messages layout, with the list's selection, the chat pane, and the profile panel iff not mobile |
| Dashboard.UnknownPageIsDirectMessages | src/components/Dashboard.tsx:42-43 | an unknown page id renders the same as "direct-messages" |
| Dashboard.Shell.constructor | src/components/Dashboard.tsx:15-16 | starts on "home" with no chat user selected |
| Dashboard.Shell.HandleMessageUser | src/components/Dashboard.tsx:19-22 | selects the user and switches to "direct-messages" |
| Dashboard.Shell.HandleNavigateToBrowseFriends | src/components/Dashboard.tsx:24-26 | switches to "browse-friends" and keeps the selected user |
| Dashboard.Shell.SetActivePage | src/components/Dashboard.tsx:71-78 | the navigation's page change keeps the selected user |
| Dashboard.Shell.SelectChat | src/components/Dashboard.tsx:47 | the list's selection changes the chat user and keeps the page |

## Left out

- The backend itself is not modelled. This covers queries, inserts, upserts,
  storage uploads, public and signed URLs, authentication, and realtime
  subscriptions. Replies are parameters. Server-side filters (cursor `lt`,
  `deleted_at`, row limits, `ilike`, ordering) are only recorded in the request
  values, never re-applied.
- Concurrency is not modelled: interleaved async handlers, stale subscription
  cleanup, the discarded unsubscribe in the message list, and `setTimeout`
  scrolling. Each handler runs to completion before the next starts. Handlers
  read the state of the render they were created in; for every handler but the
  direct-message window's memoized `loadMoreMessages` (modelled through its
  `memo` field) that is the current state.
- DirectMessageWindow.Window: the partner id is fixed per window. When the
  selected partner changes, the dashboard re-renders the same window in place
  (src/components/Dashboard.tsx:51-52). That window keeps its list, cursor and
  flags for the new partner, and the memoized load-more keeps the old partner's
  id. Neither effect is modelled.
- The 300 ms search debounce is not modelled. `BrowseFriendsPage.Page.SearchUsers`
  is the call it eventually makes.
- Browser I/O is not modelled: `Audio`, the `Notification` API, user-agent and
  media-query mobile detection (inputs here), MediaRecorder voice capture,
  FileReader previews (the preview is a string field), DOM scrolling, and
  textarea resizing.
- `loadOtherUser` in the direct-message window, `loadAvailableUsers` in the
  room chat page, and the emoji picker only fetch or insert text. They are not
  part of this model.
- Notifications.Settings: `soundVolume` is a real number, because it is only
  ever copied. Floating-point behaviour is not modelled.
- Text.ToLower and Text.ToUpperChar: `toLowerCase` and `toUpperCase` map ASCII
  letters only, so non-ASCII case mapping is not modelled. Strings are
  sequences of code points, so `displayName[0]` in an avatar initial is the
  first code point, where JavaScript takes the first UTF-16 code unit (half
  of a surrogate pair for characters outside the Basic Multilingual Plane).
- Dates are integer milliseconds. Invalid dates (`NaN` in the grouping or sort
  comparisons) are not modelled.
- DirectMessageWindow.Window.LoadMessages: the load-more branch reverses the
  page inside a state updater (`(data || []).reverse()`), which mutates the
  array in place. Whether the cursor line then reads the reversed array depends
  on when React runs the updater. The model reads the page as returned.
- MessageList.RenderAttachments: every non-array JSON value of `attachments` is
  collapsed into one `NotArray` case.
- MessageList: `isOwn` is computed but never used. Relative and locale date
  text is not modelled.
- ChatList: a row whose joined sender or receiver profile is null makes the
  source throw inside the loop, which ends in the failure branch. Profiles are
  always present in this model.
- Markup, styling, icons, and the static pages (home, profile, room profile,
  audio settings, navigation) are not modelled. The channel sidebar's voice
  buttons have no handler in the source.
