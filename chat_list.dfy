/**
 * The conversation list of the direct-message page. `loadConversations`
 * folds every direct message involving the user (newest first, as queried)
 * into one conversation per partner, kept in a `Map` whose insertion order
 * is the list order. Here the `Map` is a sequence of conversations with
 * distinct ids; looking a key up is `IndexOfKey`.
 */
module ChatList {
  import opened Text
  import opened Seqs
  import opened Backend
  import opened Toasts

  datatype Profile = Profile(id: Id, username: String, displayName: Option<String>)

  /** A `direct_messages` row joined with both users' profiles. */
  datatype DmRow = DmRow(id: Id, senderId: Id, receiverId: Id, content: String, createdAt: int,
                         sender: Profile, receiver: Profile)

  datatype LastMessage = LastMessage(content: String, createdAt: int, senderId: Id)

  datatype Conversation = Conversation(id: Id, otherUser: Profile, lastMessage: LastMessage)

  /** The partner of a message: its receiver when the user sent it, otherwise its sender. */
  function PartnerOf(me: Id, r: DmRow): (p: Profile)
    ensures r.senderId == me ==> p == r.receiver
    ensures r.senderId != me ==> p == r.sender
  {
    if r.senderId == me then r.receiver else r.sender
  }

  function PartnerId(me: Id, r: DmRow): Id {
    PartnerOf(me, r).id
  }

  /**
   * In a message between two different users, each of them sees the other as
   * the partner (the joined profiles carry the sender's and receiver's ids).
   */
  lemma PartnersSymmetric(me: Id, other: Id, r: DmRow)
    requires r.sender.id == r.senderId && r.receiver.id == r.receiverId
    requires me != other
    requires (r.senderId == me && r.receiverId == other) || (r.senderId == other && r.receiverId == me)
    ensures PartnerId(me, r) == other && PartnerId(other, r) == me
  {
  }

  function LastOf(r: DmRow): LastMessage {
    LastMessage(r.content, r.createdAt, r.senderId)
  }

  /** Position of the conversation with id `key`, or `|convs|` when there is none (`Map.has`/`Map.get`). */
  function IndexOfKey(convs: seq<Conversation>, key: Id): (k: nat)
    ensures k <= |convs|
    ensures k < |convs| ==> convs[k].id == key
    ensures k == |convs| ==> forall i :: 0 <= i < |convs| ==> convs[i].id != key
  {
    if convs == [] then 0
    else if convs[0].id == key then 0
    else 1 + IndexOfKey(convs[1..], key)
  }

  /** One iteration of the `forEach`: create the partner's entry, or replace its last message by a strictly newer one. */
  function Step(convs: seq<Conversation>, me: Id, r: DmRow): seq<Conversation> {
    var key := PartnerId(me, r);
    var k := IndexOfKey(convs, key);
    if k == |convs| then convs + [Conversation(key, PartnerOf(me, r), LastOf(r))]
    else if r.createdAt > convs[k].lastMessage.createdAt then convs[k := convs[k].(lastMessage := LastOf(r))]
    else convs
  }

  /** The conversations built from `rows`, processed in order. */
  function Summarize(me: Id, rows: seq<DmRow>): seq<Conversation> {
    if rows == [] then [] else Step(Summarize(me, rows[..|rows| - 1]), me, rows[|rows| - 1])
  }

  /** The grouping loop of `loadConversations`. */
  method GroupConversations(me: Id, rows: seq<DmRow>) returns (convs: seq<Conversation>)
    ensures convs == Summarize(me, rows)
  {
    convs := [];
    var i := 0;
    while i < |rows|
      invariant 0 <= i <= |rows|
      invariant convs == Summarize(me, rows[..i])
    {
      var message := rows[i];
      var isUserSender := message.senderId == me;
      var otherUser := if isUserSender then message.receiver else message.sender;
      var key := otherUser.id;
      var k := IndexOfKey(convs, key);
      if k == |convs| {
        convs := convs + [Conversation(key, otherUser, LastOf(message))];
      } else if message.createdAt > convs[k].lastMessage.createdAt {
        convs := convs[k := convs[k].(lastMessage := LastOf(message))];
      }
      assert rows[..i + 1][..i] == rows[..i];
      i := i + 1;
    }
    assert rows[..|rows|] == rows;
  }

  // ---------------------------------------------------------------------------
  // What the fold computes

  function Keys(convs: seq<Conversation>): set<Id> {
    set i | 0 <= i < |convs| :: convs[i].id
  }

  predicate DistinctKeys(convs: seq<Conversation>) {
    forall i, j :: 0 <= i < j < |convs| ==> convs[i].id != convs[j].id
  }

  /** The ids of everyone the user exchanged a message with in `rows`. */
  function Partners(me: Id, rows: seq<DmRow>): set<Id> {
    set m | 0 <= m < |rows| :: PartnerId(me, rows[m])
  }

  lemma PartnersOfPrefix(me: Id, rows: seq<DmRow>)
    requires rows != []
    ensures Partners(me, rows) == Partners(me, rows[..|rows| - 1]) + {PartnerId(me, rows[|rows| - 1])}
  {
    var p := rows[..|rows| - 1];
    forall x | x in Partners(me, rows) ensures x in Partners(me, p) + {PartnerId(me, rows[|rows| - 1])} {
      var m :| 0 <= m < |rows| && PartnerId(me, rows[m]) == x;
      if m < |rows| - 1 { assert p[m] == rows[m]; }
    }
    forall x | x in Partners(me, p) ensures x in Partners(me, rows) {
      var m :| 0 <= m < |p| && PartnerId(me, p[m]) == x;
      assert rows[m] == p[m];
    }
  }

  /** One step keeps the ids distinct and adds exactly the new row's partner. */
  lemma StepKeys(convs: seq<Conversation>, me: Id, r: DmRow)
    requires DistinctKeys(convs)
    ensures DistinctKeys(Step(convs, me, r))
    ensures Keys(Step(convs, me, r)) == Keys(convs) + {PartnerId(me, r)}
    ensures PartnerId(me, r) in Keys(convs) ==> |Step(convs, me, r)| == |convs|
    ensures PartnerId(me, r) !in Keys(convs) ==> |Step(convs, me, r)| == |convs| + 1
  {
    var key := PartnerId(me, r);
    var k := IndexOfKey(convs, key);
    var s := Step(convs, me, r);
    assert forall i :: 0 <= i < |convs| ==> s[i].id == convs[i].id;
    if k == |convs| {
      assert s[|convs|].id == key;
      assert key !in Keys(convs);
    } else {
      assert key in Keys(convs);
      assert Keys(s) == Keys(convs);
    }
  }

  /** The result holds exactly one conversation per distinct partner. */
  lemma {:induction false} SummarizeKeys(me: Id, rows: seq<DmRow>)
    ensures DistinctKeys(Summarize(me, rows))
    ensures Keys(Summarize(me, rows)) == Partners(me, rows)
    ensures |Summarize(me, rows)| == |Partners(me, rows)|
  {
    if rows != [] {
      var p := rows[..|rows| - 1];
      var r := rows[|rows| - 1];
      SummarizeKeys(me, p);
      StepKeys(Summarize(me, p), me, r);
      PartnersOfPrefix(me, rows);
      if PartnerId(me, r) in Partners(me, p) {
        assert Partners(me, rows) == Partners(me, p);
      } else {
        assert |Partners(me, rows)| == |Partners(me, p)| + 1;
      }
    }
  }

  /** A partner that is new in the last row occurs in no earlier row. */
  lemma NewPartner(me: Id, rows: seq<DmRow>)
    requires rows != [] && PartnerId(me, rows[|rows| - 1]) !in Partners(me, rows[..|rows| - 1])
    ensures forall m :: 0 <= m < |rows| - 1 ==> PartnerId(me, rows[m]) != PartnerId(me, rows[|rows| - 1])
  {
    var p := rows[..|rows| - 1];
    forall m | 0 <= m < |rows| - 1 ensures PartnerId(me, rows[m]) != PartnerId(me, rows[|rows| - 1]) {
      assert rows[m] == p[m];
    }
  }

  /**
   * `rows[w]` is the newest message with partner `key`, and the earliest such
   * row when several share the newest timestamp.
   */
  predicate IsNewest(me: Id, rows: seq<DmRow>, key: Id, w: int) {
    && 0 <= w < |rows|
    && PartnerId(me, rows[w]) == key
    && (forall m :: 0 <= m < |rows| && PartnerId(me, rows[m]) == key ==> rows[m].createdAt <= rows[w].createdAt)
    && (forall m :: 0 <= m < w && PartnerId(me, rows[m]) == key ==> rows[m].createdAt < rows[w].createdAt)
  }

  ghost predicate LastIsNewest(me: Id, rows: seq<DmRow>, c: Conversation) {
    exists w :: IsNewest(me, rows, c.id, w) && c.lastMessage == LastOf(rows[w])
  }

  /** A witness for a key that the new row does not beat stays a witness. */
  lemma NewestExtends(me: Id, rows: seq<DmRow>, key: Id, w: int)
    requires rows != []
    requires IsNewest(me, rows[..|rows| - 1], key, w)
    requires PartnerId(me, rows[|rows| - 1]) != key
             || rows[|rows| - 1].createdAt <= rows[w].createdAt
    ensures IsNewest(me, rows, key, w)
  {
    var p := rows[..|rows| - 1];
    assert rows[w] == p[w];
    forall m | 0 <= m < |rows| && PartnerId(me, rows[m]) == key ensures rows[m].createdAt <= rows[w].createdAt {
      if m < |p| { assert rows[m] == p[m]; }
    }
    forall m | 0 <= m < w && PartnerId(me, rows[m]) == key ensures rows[m].createdAt < rows[w].createdAt {
      assert rows[m] == p[m];
    }
  }

  /** A last row strictly newer than the partner's previous newest becomes the newest. */
  lemma NewestOfNewer(me: Id, rows: seq<DmRow>, w: int)
    requires rows != []
    requires IsNewest(me, rows[..|rows| - 1], PartnerId(me, rows[|rows| - 1]), w)
    requires rows[|rows| - 1].createdAt > rows[w].createdAt
    ensures IsNewest(me, rows, PartnerId(me, rows[|rows| - 1]), |rows| - 1)
  {
    var p := rows[..|rows| - 1];
    var r := rows[|rows| - 1];
    var key := PartnerId(me, r);
    assert rows[w] == p[w];
    forall m | 0 <= m < |rows| && PartnerId(me, rows[m]) == key ensures rows[m].createdAt <= r.createdAt {
      if m < |p| { assert rows[m] == p[m]; }
    }
  }

  /** The last row alone is the newest message with a partner that is new in it. */
  lemma NewestOfNew(me: Id, rows: seq<DmRow>)
    requires rows != [] && PartnerId(me, rows[|rows| - 1]) !in Partners(me, rows[..|rows| - 1])
    ensures IsNewest(me, rows, PartnerId(me, rows[|rows| - 1]), |rows| - 1)
  {
    NewPartner(me, rows);
  }

  lemma StepLastOne(me: Id, rows: seq<DmRow>, c: seq<Conversation>, i: int)
    requires rows != []
    requires DistinctKeys(c) && Keys(c) == Partners(me, rows[..|rows| - 1])
    requires forall j :: 0 <= j < |c| ==> LastIsNewest(me, rows[..|rows| - 1], c[j])
    requires 0 <= i < |Step(c, me, rows[|rows| - 1])|
    ensures LastIsNewest(me, rows, Step(c, me, rows[|rows| - 1])[i])
  {
    var p := rows[..|rows| - 1];
    var r := rows[|rows| - 1];
    var key := PartnerId(me, r);
    var k := IndexOfKey(c, key);
    var s := Step(c, me, r);
    if i < |c| && c[i].id != key {
      var w :| IsNewest(me, p, c[i].id, w) && c[i].lastMessage == LastOf(p[w]);
      NewestExtends(me, rows, c[i].id, w);
      assert rows[w] == p[w];
      assert s[i] == c[i];
    } else if i == |c| {
      assert k == |c|;
      assert key !in Keys(c);
      NewestOfNew(me, rows);
      assert s[i].lastMessage == LastOf(rows[|rows| - 1]);
    } else {
      assert i == k;
      var w :| IsNewest(me, p, c[i].id, w) && c[i].lastMessage == LastOf(p[w]);
      assert rows[w] == p[w];
      if r.createdAt > c[k].lastMessage.createdAt {
        NewestOfNewer(me, rows, w);
        assert s[i].lastMessage == LastOf(rows[|rows| - 1]);
      } else {
        assert s[i] == c[i];
        NewestExtends(me, rows, key, w);
      }
    }
  }

  /** Each conversation's last message is its partner's newest message; on a tie the first one seen wins. */
  lemma {:induction false} SummarizeLastMessage(me: Id, rows: seq<DmRow>)
    ensures forall i :: 0 <= i < |Summarize(me, rows)| ==> LastIsNewest(me, rows, Summarize(me, rows)[i])
  {
    if rows != [] {
      var p := rows[..|rows| - 1];
      SummarizeLastMessage(me, p);
      SummarizeKeys(me, p);
      forall i | 0 <= i < |Summarize(me, rows)| ensures LastIsNewest(me, rows, Summarize(me, rows)[i]) {
        StepLastOne(me, rows, Summarize(me, p), i);
      }
    }
  }

  /** Index of the first message exchanged with partner `key`, or `|rows|` when there is none. */
  function FirstIndex(me: Id, rows: seq<DmRow>, key: Id): (f: nat)
    ensures f <= |rows|
    ensures f < |rows| ==> PartnerId(me, rows[f]) == key
    ensures forall m :: 0 <= m < f ==> PartnerId(me, rows[m]) != key
  {
    if rows == [] then 0
    else if PartnerId(me, rows[0]) == key then 0
    else 1 + FirstIndex(me, rows[1..], key)
  }

  lemma PartnersFirstIndex(me: Id, rows: seq<DmRow>, key: Id)
    ensures key in Partners(me, rows) <==> FirstIndex(me, rows, key) < |rows|
  {
    if key in Partners(me, rows) {
      var m :| 0 <= m < |rows| && PartnerId(me, rows[m]) == key;
    }
  }

  /** Appending a row does not move the first occurrence of a partner already present. */
  lemma FirstIndexOfPrefix(me: Id, rows: seq<DmRow>, key: Id)
    requires rows != []
    ensures FirstIndex(me, rows[..|rows| - 1], key) < |rows| - 1 ==>
              FirstIndex(me, rows, key) == FirstIndex(me, rows[..|rows| - 1], key)
    ensures FirstIndex(me, rows[..|rows| - 1], key) == |rows| - 1 && PartnerId(me, rows[|rows| - 1]) == key ==>
              FirstIndex(me, rows, key) == |rows| - 1
  {
    var p := rows[..|rows| - 1];
    var f := FirstIndex(me, p, key);
    var g := FirstIndex(me, rows, key);
    if f < |p| {
      assert rows[f] == p[f];
    }
    assert forall m :: 0 <= m < |p| ==> rows[m] == p[m];
  }

  /**
   * Conversations come in the order their partners first appear in the input
   * (the `Map`'s insertion order), each with the partner profile of that first message.
   */
  lemma {:induction false} SummarizeOrder(me: Id, rows: seq<DmRow>)
    ensures OrderedByFirst(me, rows, Summarize(me, rows))
  {
    if rows != [] {
      var p := rows[..|rows| - 1];
      SummarizeOrder(me, p);
      SummarizeKeys(me, p);
      StepOrder(me, rows, Summarize(me, p), Summarize(me, rows));
    }
  }

  /** An old conversation's first index is unchanged by a new row and lies before it. */
  lemma StepFirstOld(me: Id, rows: seq<DmRow>, id: Id)
    requires rows != [] && id in Partners(me, rows[..|rows| - 1])
    ensures FirstIndex(me, rows, id) == FirstIndex(me, rows[..|rows| - 1], id) < |rows| - 1
    ensures rows[FirstIndex(me, rows, id)] == rows[..|rows| - 1][FirstIndex(me, rows, id)]
  {
    PartnersFirstIndex(me, rows[..|rows| - 1], id);
    FirstIndexOfPrefix(me, rows, id);
  }

  /**
   * Each conversation's partner profile comes from that partner's first
   * message, and conversations are ordered by their partners' first messages.
   */
  predicate OrderedByFirst(me: Id, rows: seq<DmRow>, c: seq<Conversation>) {
    && (forall i :: 0 <= i < |c| ==>
          FirstIndex(me, rows, c[i].id) < |rows| && c[i].otherUser == PartnerOf(me, rows[FirstIndex(me, rows, c[i].id)]))
    && (forall i, j :: 0 <= i < j < |c| ==> FirstIndex(me, rows, c[i].id) < FirstIndex(me, rows, c[j].id))
  }

  /** A step keeps every existing conversation's partner, and only appends an entry for a new partner. */
  lemma StepShape(c: seq<Conversation>, me: Id, r: DmRow)
    ensures var s := Step(c, me, r);
            && (|s| == |c| || |s| == |c| + 1)
            && (forall i :: 0 <= i < |c| ==> s[i].id == c[i].id && s[i].otherUser == c[i].otherUser)
            && (|s| == |c| + 1 ==> PartnerId(me, r) !in Keys(c)
                                    && s[|c|] == Conversation(PartnerId(me, r), PartnerOf(me, r), LastOf(r)))
  {
  }

  /** The conversations that existed before the new row keep their first index and their profile. */
  lemma StepOrderOld(me: Id, rows: seq<DmRow>, c: seq<Conversation>, s: seq<Conversation>)
    requires rows != []
    requires |s| >= |c|
    requires forall i :: 0 <= i < |c| ==> s[i].id == c[i].id && s[i].otherUser == c[i].otherUser
    requires Keys(c) == Partners(me, rows[..|rows| - 1])
    requires OrderedByFirst(me, rows[..|rows| - 1], c)
    ensures forall i :: 0 <= i < |c| ==>
              FirstIndex(me, rows, s[i].id) == FirstIndex(me, rows[..|rows| - 1], c[i].id) < |rows| - 1
              && s[i].otherUser == PartnerOf(me, rows[FirstIndex(me, rows, s[i].id)])
  {
    var p := rows[..|rows| - 1];
    forall i | 0 <= i < |c|
      ensures FirstIndex(me, rows, s[i].id) == FirstIndex(me, p, c[i].id) < |rows| - 1
      ensures s[i].otherUser == PartnerOf(me, rows[FirstIndex(me, rows, s[i].id)])
    {
      assert c[i].id in Keys(c);
      StepFirstOld(me, rows, c[i].id);
    }
  }

  lemma StepOrder(me: Id, rows: seq<DmRow>, c: seq<Conversation>, s: seq<Conversation>)
    requires rows != []
    requires s == Step(c, me, rows[|rows| - 1])
    requires Keys(c) == Partners(me, rows[..|rows| - 1])
    requires OrderedByFirst(me, rows[..|rows| - 1], c)
    ensures OrderedByFirst(me, rows, s)
  {
    var p := rows[..|rows| - 1];
    var r := rows[|rows| - 1];
    var n := |rows| - 1;
    StepShape(c, me, r);
    StepOrderOld(me, rows, c, s);
    if |s| == |c| + 1 {
      var key := PartnerId(me, r);
      PartnersFirstIndex(me, p, key);
      FirstIndexOfPrefix(me, rows, key);
      assert FirstIndex(me, rows, s[|c|].id) == n;
    }
    forall i, j | 0 <= i < j < |s|
      ensures FirstIndex(me, rows, s[i].id) < FirstIndex(me, rows, s[j].id)
    {
      if j < |c| {
        assert FirstIndex(me, p, c[i].id) < FirstIndex(me, p, c[j].id);
      }
    }
  }

  // ---------------------------------------------------------------------------
  // Search filter, empty state, realtime relevance

  /** Case-insensitive substring match on the username or the display name (`""` when absent). */
  predicate MatchesQuery(c: Conversation, query: String) {
    Includes(ToLower(c.otherUser.username), ToLower(query))
    || Includes(ToLower(c.otherUser.displayName.GetOr("")), ToLower(query))
  }

  /** `filteredConversations`. */
  function FilteredConversations(convs: seq<Conversation>, query: String): (r: seq<Conversation>)
    ensures IsSubsequence(r, convs)
    ensures forall c :: c in r <==> c in convs && MatchesQuery(c, query)
    ensures query == "" ==> r == convs
  {
    var keep := (c: Conversation) => MatchesQuery(c, query);
    FilterMembers(convs, keep);
    FilterIsSubsequence(convs, keep);
    if query == "" then
      EmptyQueryMatchesAll(convs);
      FilterAll(convs, keep);
      Filter(convs, keep)
    else
      Filter(convs, keep)
  }

  lemma EmptyQueryMatchesAll(convs: seq<Conversation>)
    ensures forall i :: 0 <= i < |convs| ==> MatchesQuery(convs[i], "")
  {
    forall i | 0 <= i < |convs| ensures MatchesQuery(convs[i], "") {
      IncludesEmpty(ToLower(convs[i].otherUser.username));
    }
  }

  datatype ListView = EmptyState(text: String) | Items(conversations: seq<Conversation>)

  /** The list pane: the filtered conversations, or an empty-state text that depends on whether a search is typed. */
  function RenderList(convs: seq<Conversation>, query: String): (v: ListView)
    ensures v.Items? <==> FilteredConversations(convs, query) != []
    ensures v.Items? ==> v.conversations == FilteredConversations(convs, query)
    ensures v.EmptyState? && query != "" ==> v.text == "No conversations found"
    ensures v.EmptyState? && query == "" ==> v.text == "No conversations yet" && convs == []
  {
    var shown := FilteredConversations(convs, query);
    if shown == [] then EmptyState(if query != "" then "No conversations found" else "No conversations yet")
    else Items(shown)
  }

  /** One button of the list: the partner's name, the last-message preview and the selection highlight. */
  datatype ConversationItem = ConversationItem(title: String, preview: String, selected: bool)

  function RenderItem(me: Option<Id>, selectedUserId: Option<Id>, c: Conversation): (item: ConversationItem)
    ensures item.title == FirstPresent(c.otherUser.displayName, None, c.otherUser.username)
    ensures me == Some(c.lastMessage.senderId) ==> item.preview == "You: " + c.lastMessage.content
    ensures me != Some(c.lastMessage.senderId) ==> item.preview == c.lastMessage.content
    ensures item.selected <==> selectedUserId == Some(c.otherUser.id)
  {
    ConversationItem(
      FirstPresent(c.otherUser.displayName, None, c.otherUser.username),
      (if me == Some(c.lastMessage.senderId) then "You: " else "") + c.lastMessage.content,
      selectedUserId == Some(c.otherUser.id))
  }

  const LOAD_ERROR: String := "Failed to load conversations"

  /** The realtime handler reloads only for a message the signed-in user sent or received. */
  predicate InvolvesUser(me: Option<Id>, senderId: Id, receiverId: Id) {
    me.Some? && (senderId == me.value || receiverId == me.value)
  }

  class ConversationList {
    var conversations: seq<Conversation>
    var loading: bool
    var searchQuery: String

    constructor ()
      ensures conversations == [] && loading && searchQuery == ""
    {
      conversations, loading, searchQuery := [], true, "";
    }

    /**
     * `loadConversations`: on success the grouped list replaces the old one;
     * on failure it is kept and an error toast is shown.
     */
    method LoadConversations(me: Id, reply: Reply<seq<DmRow>>) returns (toast: Option<Toast>)
      modifies this`conversations, this`loading
      ensures reply.Success? ==> conversations == Summarize(me, Rows(reply)) && toast.None?
      ensures reply.Failure? ==> conversations == old(conversations) && toast == Some(ErrorToast(LOAD_ERROR))
      ensures !loading
    {
      toast := None;
      if reply.Success? {
        conversations := GroupConversations(me, Rows(reply));
      } else {
        toast := Some(ErrorToast(LOAD_ERROR));
      }
      loading := false;
    }

    /**
     * The realtime INSERT handler: returns whether it reloads (with `reload` as
     * the reload's reply) and the toast the reload shows.
     */
    method OnInsert(me: Option<Id>, senderId: Id, receiverId: Id, reload: Reply<seq<DmRow>>)
      returns (reloaded: bool, toast: Option<Toast>)
      modifies this`conversations, this`loading
      ensures reloaded <==> InvolvesUser(me, senderId, receiverId)
      ensures !reloaded ==> conversations == old(conversations) && loading == old(loading) && toast.None?
      ensures reloaded && reload.Success? ==> conversations == Summarize(me.value, Rows(reload)) && toast.None?
      ensures reloaded && reload.Failure? ==> conversations == old(conversations) && toast == Some(ErrorToast(LOAD_ERROR))
      ensures reloaded ==> !loading
    {
      reloaded := me.Some? && (senderId == me.value || receiverId == me.value);
      toast := None;
      if reloaded {
        toast := LoadConversations(me.value, reload);
      }
    }

    method SetSearchQuery(query: String)
      modifies this`searchQuery
      ensures searchQuery == query
    {
      searchQuery := query;
    }
  }
}
