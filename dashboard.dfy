/**
 * The dashboard shell: which page is active, which direct-message partner is
 * selected, and what the main content area shows for them.
 */
module Dashboard {
  import opened Text
  import opened Backend

  const HOME: String := "home"
  const BROWSE_FRIENDS: String := "browse-friends"
  const PROFILE: String := "profile"
  const ROOM_PROFILE: String := "room-profile"
  const AUDIO_SETTINGS: String := "audio-settings"
  const ROOM_CHAT: String := "room-chat"
  const DIRECT_MESSAGES: String := "direct-messages"

  /** The page ids with a page of their own; every other id shows the direct-messages layout. */
  const NAMED_PAGES: set<String> := {HOME, BROWSE_FRIENDS, PROFILE, ROOM_PROFILE, AUDIO_SETTINGS, ROOM_CHAT}

  /** The middle of the direct-messages layout. */
  datatype ChatPane = MessageWindow(otherUserId: Id) | SelectConversationPlaceholder

  datatype MainContent =
    | HomeView
    | BrowseFriendsView
    | ProfileView
    | RoomProfileView
    | AudioSettingsView
    | RoomChatView
      /** The conversation list, the chat pane, and (off mobile) the profile panel for the selected user. */
    | DirectMessagesLayout(listSelection: Option<Id>, pane: ChatPane, profilePanel: Option<Option<Id>>)

  /** The chat pane: the message window for a selected (non-empty) user id, the placeholder otherwise. */
  function Pane(selected: Option<Id>): (p: ChatPane)
    ensures p.MessageWindow? <==> Present(selected)
    ensures p.MessageWindow? ==> p.otherUserId == selected.value
  {
    if Present(selected) then MessageWindow(selected.value) else SelectConversationPlaceholder
  }

  /** `renderMainContent`: the switch over `activePage`. */
  function RenderMainContent(activePage: String, selected: Option<Id>, isMobile: bool): (c: MainContent)
    ensures activePage == HOME ==> c == HomeView
    ensures activePage == BROWSE_FRIENDS ==> c == BrowseFriendsView
    ensures activePage == PROFILE ==> c == ProfileView
    ensures activePage == ROOM_PROFILE ==> c == RoomProfileView
    ensures activePage == AUDIO_SETTINGS ==> c == AudioSettingsView
    ensures activePage == ROOM_CHAT ==> c == RoomChatView
    ensures c.DirectMessagesLayout? <==> activePage !in NAMED_PAGES
    ensures c.DirectMessagesLayout? ==>
              c.listSelection == selected
              && (c.pane.MessageWindow? <==> Present(selected))
              && (c.pane.MessageWindow? ==> c.pane.otherUserId == selected.value)
              && (c.profilePanel.Some? <==> !isMobile)
              && (c.profilePanel.Some? ==> c.profilePanel.value == selected)
  {
    if activePage == HOME then HomeView
    else if activePage == BROWSE_FRIENDS then BrowseFriendsView
    else if activePage == PROFILE then ProfileView
    else if activePage == ROOM_PROFILE then RoomProfileView
    else if activePage == AUDIO_SETTINGS then AudioSettingsView
    else if activePage == ROOM_CHAT then RoomChatView
    else DirectMessagesLayout(selected, Pane(selected), if isMobile then None else Some(selected))
  }

  /** The explicit "direct-messages" id and any unknown id render the same layout. */
  lemma UnknownPageIsDirectMessages(page: String, selected: Option<Id>, isMobile: bool)
    requires page !in NAMED_PAGES
    ensures RenderMainContent(page, selected, isMobile) == RenderMainContent(DIRECT_MESSAGES, selected, isMobile)
  {
    assert DIRECT_MESSAGES !in NAMED_PAGES;
  }

  class Shell {
    var activePage: String
    var selectedChatUserId: Option<Id>

    constructor ()
      ensures activePage == HOME && selectedChatUserId == None
    {
      activePage := HOME;
      selectedChatUserId := None;
    }

    /** `handleMessageUser`: select the user and switch to the direct-messages page. */
    method HandleMessageUser(userId: Id)
      modifies this
      ensures selectedChatUserId == Some(userId) && activePage == DIRECT_MESSAGES
    {
      selectedChatUserId := Some(userId);
      activePage := DIRECT_MESSAGES;
    }

    /** `handleNavigateToBrowseFriends`: switch page, keep the selected user. */
    method HandleNavigateToBrowseFriends()
      modifies this
      ensures activePage == BROWSE_FRIENDS && selectedChatUserId == old(selectedChatUserId)
    {
      activePage := BROWSE_FRIENDS;
    }

    /** The navigation's `onPageChange`: any page id, selection kept. */
    method SetActivePage(page: String)
      modifies this
      ensures activePage == page && selectedChatUserId == old(selectedChatUserId)
    {
      activePage := page;
    }

    /** The conversation list's `onSelectChat`: selection changes, page kept. */
    method SelectChat(userId: Option<Id>)
      modifies this
      ensures selectedChatUserId == userId && activePage == old(activePage)
    {
      selectedChatUserId := userId;
    }
  }
}
