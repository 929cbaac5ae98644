/**
 * The channel sidebar of a room: the current room's header, its text
 * channels (selectable) and its voice channels, read from and written to the
 * global store.
 */
module ChannelSidebar {
  import opened Text
  import opened Seqs
  import opened Backend
  import opened AppStore

  function OfKind(k: ChannelType): Channel -> bool {
    (c: Channel) => c.kind == k
  }

  /** `channels.filter(c => c.type === 'text')`. */
  function TextChannels(channels: seq<Channel>): (r: seq<Channel>)
    ensures forall c :: c in r <==> c in channels && c.kind == TextChannel
    ensures IsSubsequence(r, channels)
  {
    FilterMembers(channels, OfKind(TextChannel));
    FilterIsSubsequence(channels, OfKind(TextChannel));
    Filter(channels, OfKind(TextChannel))
  }

  /** `channels.filter(c => c.type === 'voice')`. */
  function VoiceChannels(channels: seq<Channel>): (r: seq<Channel>)
    ensures forall c :: c in r <==> c in channels && c.kind == VoiceChannel
    ensures IsSubsequence(r, channels)
  {
    FilterMembers(channels, OfKind(VoiceChannel));
    FilterIsSubsequence(channels, OfKind(VoiceChannel));
    Filter(channels, OfKind(VoiceChannel))
  }

  /** A channel is text or voice, so the two lists split the channels between them. */
  lemma ChannelsPartition(channels: seq<Channel>)
    ensures |TextChannels(channels)| + |VoiceChannels(channels)| == |channels|
    ensures multiset(TextChannels(channels)) + multiset(VoiceChannels(channels)) == multiset(channels)
  {
    FilterSplit(channels, OfKind(TextChannel), OfKind(VoiceChannel));
  }

  /** `rooms.find(r => r.id === currentRoomId)`: the first room with that id. */
  function FindRoom(rooms: seq<Room>, id: Option<Id>): (found: Option<Room>)
    ensures found.None? <==> id.None? || forall i :: 0 <= i < |rooms| ==> rooms[i].id != id.value
    ensures found.Some? ==> exists i :: 0 <= i < |rooms| && rooms[i] == found.value && found.value.id == id.value
                                        && forall j :: 0 <= j < i ==> rooms[j].id != id.value
  {
    if id.None? || rooms == [] then None
    else if rooms[0].id == id.value then Some(rooms[0])
    else
      var rest := FindRoom(rooms[1..], id);
      assert forall i :: 1 <= i < |rooms| ==> rooms[i] == rooms[1..][i - 1];
      assert rest.Some? ==> exists i :: 1 <= i < |rooms| && rooms[i] == rest.value
                                        && forall j :: 0 <= j < i ==> rooms[j].id != id.value by {
        if rest.Some? {
          var k :| 0 <= k < |rooms[1..]| && rooms[1..][k] == rest.value && rest.value.id == id.value
                   && forall j :: 0 <= j < k ==> rooms[1..][j].id != id.value;
          assert rooms[k + 1] == rest.value;
        }
      }
      rest
  }

  const UNKNOWN_ROOM: String := "Unknown Room"

  /** `currentRoom?.name || 'Unknown Room'`. */
  function HeaderTitle(room: Option<Room>): (title: String)
    ensures room.None? ==> title == UNKNOWN_ROOM
    ensures room.Some? && room.value.name != [] ==> title == room.value.name
    ensures room.Some? && room.value.name == [] ==> title == UNKNOWN_ROOM
  {
    if room.Some? then FirstPresent(Some(room.value.name), None, UNKNOWN_ROOM) else UNKNOWN_ROOM
  }

  datatype ChannelButton = ChannelButton(id: Id, name: String, selected: bool)

  datatype TextSection = Skeleton | Buttons(buttons: seq<ChannelButton>, emptyNote: bool)

  datatype SidebarView =
    | SelectRoomPrompt
    | RoomView(title: String, text: TextSection, voice: Option<seq<Channel>>)

  function ButtonsFor(channels: seq<Channel>, currentChannelId: Option<Id>): (bs: seq<ChannelButton>)
    ensures |bs| == |channels|
    ensures forall i :: 0 <= i < |bs| ==>
              bs[i].id == channels[i].id && bs[i].name == channels[i].name
              && (bs[i].selected <==> currentChannelId == Some(channels[i].id))
  {
    seq(|channels|, i requires 0 <= i < |channels| => ChannelButton(channels[i].id, channels[i].name, currentChannelId == Some(channels[i].id)))
  }

  class Sidebar {
    var loading: bool

    constructor ()
      ensures !loading
    {
      loading := false;
    }

    /**
     * `loadChannels`: needs a current room; a successful reply becomes the
     * store's channel list, a failed one leaves the store alone.
     */
    method LoadChannels(store: Store, reply: Reply<seq<Channel>>)
      modifies this, store
      ensures !Present(old(store.currentRoomId)) ==> store.State() == old(store.State()) && loading == old(loading)
      ensures Present(old(store.currentRoomId)) && reply.Success? ==> store.State() == old(store.State()).(channels := Rows(reply))
      ensures Present(old(store.currentRoomId)) && reply.Failure? ==> store.State() == old(store.State())
      ensures Present(old(store.currentRoomId)) ==> !loading
    {
      if !Present(store.currentRoomId) {
        return;
      }
      loading := true;
      if reply.Success? {
        store.SetChannels(Rows(reply));
      }
      loading := false;
    }

    /** The effect that runs when the current room changes: load its channels, or clear them when there is no room. */
    method OnRoomChange(store: Store, reply: Reply<seq<Channel>>)
      modifies this, store
      ensures !Present(old(store.currentRoomId)) ==> store.State() == old(store.State()).(channels := [])
      ensures Present(old(store.currentRoomId)) && reply.Success? ==> store.State() == old(store.State()).(channels := Rows(reply))
      ensures Present(old(store.currentRoomId)) && reply.Failure? ==> store.State() == old(store.State())
      ensures Present(old(store.currentRoomId)) ==> !loading
      ensures !Present(old(store.currentRoomId)) ==> loading == old(loading)
    {
      if Present(store.currentRoomId) {
        LoadChannels(store, reply);
      } else {
        store.SetChannels([]);
      }
    }

    /** `handleChannelSelect`: the chosen channel becomes the store's current channel. */
    method HandleChannelSelect(store: Store, channelId: Id)
      modifies store
      ensures store.State() == old(store.State()).(currentChannelId := Some(channelId))
    {
      store.SetCurrentChannel(Some(channelId));
    }

    /** What the sidebar shows for the store's current state. */
    function Render(store: Store): (v: SidebarView)
      reads this, store
      ensures !Present(store.currentRoomId) <==> v == SelectRoomPrompt
      ensures v.RoomView? ==> v.title == HeaderTitle(FindRoom(store.rooms, store.currentRoomId))
      ensures v.RoomView? ==> (v.text == Skeleton <==> loading)
      ensures v.RoomView? && v.text.Buttons? ==>
                v.text.buttons == ButtonsFor(TextChannels(store.channels), store.currentChannelId)
                && (v.text.emptyNote <==> TextChannels(store.channels) == [])
      ensures v.RoomView? ==> (v.voice.Some? <==> VoiceChannels(store.channels) != [])
      ensures v.RoomView? && v.voice.Some? ==> v.voice.value == VoiceChannels(store.channels)
    {
      if !Present(store.currentRoomId) then SelectRoomPrompt
      else
        var texts := TextChannels(store.channels);
        var voices := VoiceChannels(store.channels);
        RoomView(
          HeaderTitle(FindRoom(store.rooms, store.currentRoomId)),
          if loading then Skeleton else Buttons(ButtonsFor(texts, store.currentChannelId), texts == []),
          if voices != [] then Some(voices) else None)
    }
  }
}
