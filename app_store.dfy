/**
 * The global application store: the selected room and channel, the loaded
 * rooms, channels and channel messages, the members-panel toggle and the set
 * of typing users. Every action overwrites its own fields; `addMessage`
 * appends a message and then sorts the whole list by creation time with the
 * engine's stable sort.
 */
module AppStore {
  import opened Text
  import opened Seqs
  import opened Backend

  datatype Room = Room(id: Id, name: String, iconUrl: Option<String>, ownerId: Id, createdAt: int)

  datatype ChannelType = TextChannel | VoiceChannel

  datatype Channel = Channel(id: Id, roomId: Id, name: String, kind: ChannelType, position: int, createdAt: int)

  /** A channel message as the store holds it (`createdAt` in milliseconds). */
  datatype Message = Message(id: Id, channelId: Id, userId: Id, content: Option<String>,
                             editedAt: Option<String>, createdAt: int)

  /** All store fields at once. */
  datatype Snapshot = Snapshot(
    currentRoomId: Option<Id>, currentChannelId: Option<Id>,
    rooms: seq<Room>, channels: seq<Channel>, messages: seq<Message>,
    isMembersVisible: bool, typingUsers: set<Id>)

  // ---------------------------------------------------------------------------
  // The sort used by addMessage

  predicate SortedByTime(s: seq<Message>) {
    forall i, j :: 0 <= i < j < |s| ==> s[i].createdAt <= s[j].createdAt
  }

  /** Places `x` after every message of the sorted list `s` that is not later than it. */
  function Insert(s: seq<Message>, x: Message): (r: seq<Message>)
    ensures |r| == |s| + 1
  {
    if s == [] then [x]
    else if s[|s| - 1].createdAt <= x.createdAt then s + [x]
    else Insert(s[..|s| - 1], x) + [s[|s| - 1]]
  }

  /** `s.sort((a, b) => a.created_at - b.created_at)`, as a stable insertion sort. */
  function SortByTime(s: seq<Message>): (r: seq<Message>)
    ensures |r| == |s|
  {
    if s == [] then [] else Insert(SortByTime(s[..|s| - 1]), s[|s| - 1])
  }

  /** The messages created at time `t`. */
  function AtTime(t: int): Message -> bool {
    (m: Message) => m.createdAt == t
  }

  /** Insertion adds exactly the new message. */
  lemma {:induction false} InsertPermutation(s: seq<Message>, x: Message)
    ensures multiset(Insert(s, x)) == multiset(s) + multiset{x}
  {
    if s != [] && s[|s| - 1].createdAt > x.createdAt {
      var init := s[..|s| - 1];
      InsertPermutation(init, x);
      assert s == init + [s[|s| - 1]];
    }
  }

  /** Insertion creates no timestamp beyond a bound that the list and the new message respect. */
  lemma {:induction false} InsertBounded(s: seq<Message>, x: Message, b: int)
    requires forall i :: 0 <= i < |s| ==> s[i].createdAt <= b
    requires x.createdAt <= b
    ensures forall i :: 0 <= i < |Insert(s, x)| ==> Insert(s, x)[i].createdAt <= b
  {
    if s != [] && s[|s| - 1].createdAt > x.createdAt {
      var init := s[..|s| - 1];
      InsertBounded(init, x, b);
      var r := Insert(init, x);
      var t := r + [s[|s| - 1]];
      assert Insert(s, x) == t;
      forall i | 0 <= i < |t| ensures t[i].createdAt <= b {
        if i < |r| {
          assert t[i] == r[i];
        }
      }
    }
  }

  /** Insertion into a time-sorted list keeps it sorted. */
  lemma {:induction false} InsertSorted(s: seq<Message>, x: Message)
    requires SortedByTime(s)
    ensures SortedByTime(Insert(s, x))
  {
    if s == [] {
    } else if s[|s| - 1].createdAt <= x.createdAt {
      var r := s + [x];
      forall i, j | 0 <= i < j < |r| ensures r[i].createdAt <= r[j].createdAt {
        if j == |s| {
          assert r[i].createdAt <= s[|s| - 1].createdAt;
        }
      }
    } else {
      var init := s[..|s| - 1];
      var last := s[|s| - 1];
      assert SortedByTime(init);
      InsertSorted(init, x);
      forall i | 0 <= i < |init| ensures init[i].createdAt <= last.createdAt {
        assert init[i] == s[i];
      }
      InsertBounded(init, x, last.createdAt);
      var r := Insert(init, x);
      assert Insert(s, x) == r + [last];
      var t := r + [last];
      forall i, j | 0 <= i < j < |t| ensures t[i].createdAt <= t[j].createdAt {
        assert t[i] == r[i];
        if j < |r| {
          assert t[j] == r[j];
        }
      }
    }
  }

  /** Messages with equal timestamps keep their relative order, and `x` comes after those of its own time. */
  lemma {:induction false} InsertStable(s: seq<Message>, x: Message, t: int)
    requires SortedByTime(s)
    ensures Filter(Insert(s, x), AtTime(t)) == Filter(s, AtTime(t)) + Filter([x], AtTime(t))
  {
    if s == [] {
      assert Insert(s, x) == [] + [x];
    } else if s[|s| - 1].createdAt <= x.createdAt {
      FilterAppend(s, [x], AtTime(t));
    } else {
      var init := s[..|s| - 1];
      var last := s[|s| - 1];
      var at := AtTime(t);
      assert s == init + [last];
      assert SortedByTime(init);
      InsertStable(init, x, t);
      var r := Insert(init, x);
      assert Insert(s, x) == r + [last];
      FilterAppend(r, [last], at);
      FilterAppend(init, [last], at);
      FilterOne(last, at);
      FilterOne(x, at);
      if x.createdAt == t {
        assert Filter([last], at) == [];
        assert Filter(r + [last], at) == Filter(init, at) + Filter([x], at);
      } else {
        assert Filter([x], at) == [];
        assert Filter(r + [last], at) == Filter(init, at) + Filter([last], at);
      }
    }
  }

  /** The result is ordered by creation time and is a permutation of the input. */
  lemma {:induction false} SortByTimeSortedPermutation(s: seq<Message>)
    ensures SortedByTime(SortByTime(s))
    ensures multiset(SortByTime(s)) == multiset(s)
  {
    if s != [] {
      var init := s[..|s| - 1];
      SortByTimeSortedPermutation(init);
      InsertSorted(SortByTime(init), s[|s| - 1]);
      InsertPermutation(SortByTime(init), s[|s| - 1]);
      assert s == init + [s[|s| - 1]];
    }
  }

  /** The sort is stable: the messages of any one timestamp appear in their input order. */
  lemma {:induction false} SortByTimeStable(s: seq<Message>, t: int)
    ensures Filter(SortByTime(s), AtTime(t)) == Filter(s, AtTime(t))
  {
    if s != [] {
      var init := s[..|s| - 1];
      var x := s[|s| - 1];
      SortByTimeStable(init, t);
      SortByTimeSortedPermutation(init);
      InsertStable(SortByTime(init), x, t);
      assert s == init + [x];
      FilterAppend(init, [x], AtTime(t));
    }
  }

  /** A list already in time order is left as it is. */
  lemma {:induction false} SortByTimeOfSorted(s: seq<Message>)
    requires SortedByTime(s)
    ensures SortByTime(s) == s
  {
    if s != [] {
      var init := s[..|s| - 1];
      assert SortedByTime(init);
      SortByTimeOfSorted(init);
      assert init + [s[|s| - 1]] == s;
    }
  }

  /**
   * What `addMessage` leaves in the list: one more message, the old ones and
   * the new one exactly, in time order, equal timestamps in their previous
   * order with the new message after them.
   */
  lemma AddMessageProperties(prior: seq<Message>, m: Message)
    ensures |SortByTime(prior + [m])| == |prior| + 1
    ensures multiset(SortByTime(prior + [m])) == multiset(prior) + multiset{m}
    ensures SortedByTime(SortByTime(prior + [m]))
    ensures forall t :: Filter(SortByTime(prior + [m]), AtTime(t)) == Filter(prior, AtTime(t)) + Filter([m], AtTime(t))
    ensures SortedByTime(prior) ==> SortByTime(prior + [m]) == Insert(prior, m)
  {
    var s := prior + [m];
    assert s[..|s| - 1] == prior;
    SortByTimeSortedPermutation(s);
    forall t ensures Filter(SortByTime(s), AtTime(t)) == Filter(prior, AtTime(t)) + Filter([m], AtTime(t)) {
      SortByTimeStable(s, t);
      FilterAppend(prior, [m], AtTime(t));
    }
    if SortedByTime(prior) {
      SortByTimeOfSorted(prior);
    }
  }

  /** `toggleMembers` on a snapshot. */
  function ToggledMembers(s: Snapshot): (r: Snapshot)
    ensures r.isMembersVisible == !s.isMembersVisible
    ensures r.(isMembersVisible := s.isMembersVisible) == s
  {
    s.(isMembersVisible := !s.isMembersVisible)
  }

  /** Toggling the members panel twice restores the state. */
  lemma ToggleTwice(s: Snapshot)
    ensures ToggledMembers(ToggledMembers(s)) == s
  {
  }

  const INITIAL := Snapshot(None, None, [], [], [], false, {})

  class Store {
    var currentRoomId: Option<Id>
    var currentChannelId: Option<Id>
    var rooms: seq<Room>
    var channels: seq<Channel>
    var messages: seq<Message>
    var isMembersVisible: bool
    var typingUsers: set<Id>

    function State(): Snapshot
      reads this
    {
      Snapshot(currentRoomId, currentChannelId, rooms, channels, messages, isMembersVisible, typingUsers)
    }

    constructor ()
      ensures State() == INITIAL
    {
      currentRoomId, currentChannelId := None, None;
      rooms, channels, messages := [], [], [];
      isMembersVisible := false;
      typingUsers := {};
    }

    method SetCurrentRoom(roomId: Option<Id>)
      modifies this
      ensures State() == old(State()).(currentRoomId := roomId)
    {
      currentRoomId := roomId;
    }

    method SetCurrentChannel(channelId: Option<Id>)
      modifies this
      ensures State() == old(State()).(currentChannelId := channelId)
    {
      currentChannelId := channelId;
    }

    method SetRooms(rooms: seq<Room>)
      modifies this
      ensures State() == old(State()).(rooms := rooms)
    {
      this.rooms := rooms;
    }

    method SetChannels(channels: seq<Channel>)
      modifies this
      ensures State() == old(State()).(channels := channels)
    {
      this.channels := channels;
    }

    method SetMessages(messages: seq<Message>)
      modifies this
      ensures State() == old(State()).(messages := messages)
    {
      this.messages := messages;
    }

    /** `addMessage`: append, then sort the whole list by time. */
    method AddMessage(m: Message)
      modifies this
      ensures State() == old(State()).(messages := SortByTime(old(messages) + [m]))
    {
      messages := SortByTime(messages + [m]);
    }

    method ToggleMembers()
      modifies this
      ensures State() == ToggledMembers(old(State()))
    {
      isMembersVisible := !isMembersVisible;
    }

    method SetTypingUsers(users: set<Id>)
      modifies this
      ensures State() == old(State()).(typingUsers := users)
    {
      typingUsers := users;
    }
  }
}
