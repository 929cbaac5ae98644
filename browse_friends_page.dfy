/**
 * The "browse friends" page: a profile search, and the button that opens a
 * direct conversation with a found user, first sending a greeting when the
 * two have never exchanged a message.
 */
module BrowseFriendsPage {
  import opened Text
  import opened Backend
  import opened Toasts

  const SEARCH_LIMIT: nat := 20

  datatype Profile = Profile(id: Id, username: String, displayName: String, avatarUrl: Option<String>)

  /**
   * The profile search: username or display name containing `pattern`
   * (case-insensitively, by the backend), excluding the searcher, at most `limit` rows.
   */
  datatype SearchRequest = SearchRequest(pattern: String, excludeId: Id, limit: nat)

  /**
   * The greeting that opens a conversation, character for character as the
   * source holds it: the UTF-8 bytes of a waving-hand emoji read as
   * Windows-1252 text, then the English greeting.
   */
  const GREETING: String := "\U{F0}\U{178}\U{2018}\U{2039} Hi! I'd like to start a conversation with you."

  const SEARCH_FAILED: String := "Failed to search users"
  const SIGN_IN_REQUIRED: String := "Please sign in to send messages"
  const DEFAULT_START_ERROR: String := "Failed to start conversation"
  const ACCESS_DENIED: String := "Access denied. Please check your permissions."
  const AUTH_REQUIRED: String := "Authentication required. Please sign in again."

  /** The message shown when starting a conversation failed. */
  function StartErrorMessage(e: Error): (msg: String)
    ensures e.code == "PGRST116" ==> msg == ACCESS_DENIED
    ensures e.code == "PGRST301" ==> msg == AUTH_REQUIRED
    ensures e.code != "PGRST116" && e.code != "PGRST301" && e.message != [] ==> msg == e.message
    ensures e.code != "PGRST116" && e.code != "PGRST301" && e.message == [] ==> msg == DEFAULT_START_ERROR
    ensures msg != []
  {
    if e.code == "PGRST116" then ACCESS_DENIED
    else if e.code == "PGRST301" then AUTH_REQUIRED
    else if e.message != [] then e.message
    else DEFAULT_START_ERROR
  }

  /** The existence check: any one message between the two users, in either direction. */
  datatype PairQuery = PairQuery(userId: Id, otherId: Id, limit: nat)

  /** The greeting row inserted into `direct_messages`. */
  datatype GreetingInsert = GreetingInsert(senderId: Id, receiverId: Id, content: String)

  /** Everything `handleMessageUser` does: queries issued, row inserted, toast shown, and the user the page navigates to. */
  datatype MessageUserOutcome = MessageUserOutcome(
    check: Option<PairQuery>, insert: Option<GreetingInsert>, toast: Toast, openChatWith: Option<Id>)

  /** `profile.display_name || profile.username`. */
  function ProfileName(p: Profile): String {
    FirstPresent(Some(p.displayName), None, p.username)
  }

  /**
   * `handleMessageUser(profile)`. `check` is the existence query's reply;
   * `insertError` the greeting insert's error, consulted only when it is sent.
   */
  function MessageUser(user: Option<Id>, profile: Profile, check: Reply<seq<Id>>, insertError: Option<Error>)
    : (o: MessageUserOutcome)
    ensures user.None? ==> o == MessageUserOutcome(None, None, ErrorToast(SIGN_IN_REQUIRED), None)
    ensures user.Some? ==> o.check == Some(PairQuery(user.value, profile.id, 1))
    ensures o.insert.Some? <==> user.Some? && check.Success? && Rows(check) == []
    ensures o.insert.Some? ==> o.insert.value == GreetingInsert(user.value, profile.id, GREETING)
    ensures o.openChatWith.Some? <==> user.Some? && check.Success? && (Rows(check) != [] || insertError.None?)
    ensures o.openChatWith.Some? ==> o.openChatWith.value == profile.id
    ensures o.openChatWith.Some? && Rows(check) == [] ==> o.toast == SuccessToast("Started conversation with " + ProfileName(profile))
    ensures o.openChatWith.Some? && Rows(check) != [] ==> o.toast == SuccessToast("Opening conversation with " + ProfileName(profile))
    ensures user.Some? && check.Failure? ==> o.toast == ErrorToast(StartErrorMessage(check.error))
    ensures o.insert.Some? && insertError.Some? ==> o.toast == ErrorToast(StartErrorMessage(insertError.value))
  {
    if user.None? then MessageUserOutcome(None, None, ErrorToast(SIGN_IN_REQUIRED), None)
    else
      var query := Some(PairQuery(user.value, profile.id, 1));
      match check
      case Failure(e) => MessageUserOutcome(query, None, ErrorToast(StartErrorMessage(e)), None)
      case Success(data) =>
        if data.None? || data.value == [] then
          var insert := Some(GreetingInsert(user.value, profile.id, GREETING));
          if insertError.Some? then MessageUserOutcome(query, insert, ErrorToast(StartErrorMessage(insertError.value)), None)
          else MessageUserOutcome(query, insert, SuccessToast("Started conversation with " + ProfileName(profile)), Some(profile.id))
        else
          MessageUserOutcome(query, None, SuccessToast("Opening conversation with " + ProfileName(profile)), Some(profile.id))
  }

  /**
   * Opening a chat never sends a second greeting: when the pair already has a
   * message nothing is inserted, and after a greeting was sent successfully the
   * pair has one, so the next attempt takes the "opening" branch.
   */
  lemma GreetingOnlyOnce(me: Id, profile: Profile, greetingId: Id, insertError: Option<Error>)
    ensures var first := MessageUser(Some(me), profile, Success(Some([])), None);
            var second := MessageUser(Some(me), profile, Success(Some([greetingId])), insertError);
            first.insert.Some? && first.openChatWith == Some(profile.id)
            && second.insert.None? && second.openChatWith == Some(profile.id)
  {
  }

  class Page {
    var searchQuery: String
    var searchResults: seq<Profile>
    var isSearching: bool

    /** The mount effect clears the query, the results and the searching flag. */
    constructor ()
      ensures searchQuery == "" && searchResults == [] && !isSearching
    {
      searchQuery := "";
      searchResults := [];
      isSearching := false;
    }

    /**
     * `searchUsers(query)`: a blank query or a missing user clears the results
     * and asks nothing; otherwise the search is issued with the untrimmed
     * query, a successful reply replaces the results and a failed one keeps
     * them and shows a toast.
     */
    method SearchUsers(user: Option<Id>, query: String, reply: Reply<seq<Profile>>)
      returns (request: Option<SearchRequest>, toast: Option<Toast>)
      modifies this`searchResults, this`isSearching
      ensures Blank(query) || user.None? ==>
                request.None? && toast.None? && searchResults == [] && isSearching == old(isSearching)
      ensures !Blank(query) && user.Some? ==> request == Some(SearchRequest(query, user.value, SEARCH_LIMIT)) && !isSearching
      ensures !Blank(query) && user.Some? && reply.Success? ==> searchResults == Rows(reply) && toast.None?
      ensures !Blank(query) && user.Some? && reply.Failure? ==>
                searchResults == old(searchResults) && toast == Some(ErrorToast(SEARCH_FAILED))
    {
      if Blank(query) || user.None? {
        searchResults := [];
        return None, None;
      }
      isSearching := true;
      request := Some(SearchRequest(query, user.value, SEARCH_LIMIT));
      toast := None;
      if reply.Success? {
        searchResults := Rows(reply);
      } else {
        toast := Some(ErrorToast(SEARCH_FAILED));
      }
      isSearching := false;
    }

    /** `handleSearchChange`: store the query; a blank one also clears the results. */
    method HandleSearchChange(query: String)
      modifies this`searchQuery, this`searchResults
      ensures searchQuery == query
      ensures Blank(query) ==> searchResults == []
      ensures !Blank(query) ==> searchResults == old(searchResults)
    {
      searchQuery := query;
      if Blank(query) {
        searchResults := [];
      }
    }
  }
}
