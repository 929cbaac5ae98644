/**
 * The channel message list: messages are shown in the order loaded (oldest
 * first), live inserts are appended, and each message is rendered with or
 * without a header depending on whether it continues its predecessor's group.
 */
module MessageList {
  import opened Text
  import opened Backend

  /** Five minutes, in milliseconds. */
  const GROUP_WINDOW_MS: int := 5 * 60 * 1000

  const UNKNOWN_USER: String := "Unknown User"
  const UNKNOWN_SIZE: String := "Unknown size"

  datatype MessageProfile = MessageProfile(username: String, displayName: Option<String>, avatarUrl: Option<String>)

  /** One element of the `attachments` JSON array; every field may be missing. */
  datatype AttachmentItem = AttachmentItem(url: Option<String>, name: Option<String>, size: Option<int>, mime: Option<String>)

  /** The `attachments` JSON column: an array, or anything else (null, an object, a scalar). */
  datatype AttachmentsJson = NotArray | JsonArray(items: seq<AttachmentItem>)

  /** A `messages` row joined with its author's profile (`createdAt` in milliseconds). */
  datatype ChannelMessage = ChannelMessage(
    id: Id, channelId: Id, userId: Id, content: Option<String>, attachments: AttachmentsJson,
    editedAt: Option<String>, createdAt: int, profile: Option<MessageProfile>)

  /** `b` continues `a`'s group: same author and less than five minutes later (a negative gap also groups). */
  predicate Continues(a: ChannelMessage, b: ChannelMessage) {
    a.userId == b.userId && b.createdAt - a.createdAt < GROUP_WINDOW_MS
  }

  /** `shouldGroup` for the message at `index`. */
  function ShouldGroup(messages: seq<ChannelMessage>, index: nat): (g: bool)
    requires index < |messages|
    ensures index == 0 ==> !g
    ensures g <==> index > 0 && messages[index - 1].userId == messages[index].userId
                   && messages[index].createdAt < messages[index - 1].createdAt + 300000
  {
    index > 0 && Continues(messages[index - 1], messages[index])
  }

  // ---------------------------------------------------------------------------
  // What the grouping looks like on screen: maximal runs of messages under one header

  function Flatten<T>(runs: seq<seq<T>>): seq<T> {
    if runs == [] then [] else Flatten(runs[..|runs| - 1]) + runs[|runs| - 1]
  }

  /** Adds `m` to the last run when `join`, otherwise opens a new run with it. */
  function Extend<T>(runs: seq<seq<T>>, m: T, join: bool): seq<seq<T>>
    requires join ==> runs != []
  {
    if join then runs[..|runs| - 1] + [runs[|runs| - 1] + [m]] else runs + [[m]]
  }

  lemma FlattenExtend<T>(runs: seq<seq<T>>, m: T, join: bool)
    requires join ==> runs != []
    ensures Flatten(Extend(runs, m, join)) == Flatten(runs) + [m]
  {
    var e := Extend(runs, m, join);
    if join {
      var n := |runs|;
      assert e[..n - 1] == runs[..n - 1];
      assert Flatten(runs) == Flatten(runs[..n - 1]) + runs[n - 1];
    } else {
      assert e[..|runs|] == runs;
    }
  }

  /** Splits the list into runs: a message joins the current run when it continues its predecessor. */
  function Runs(ms: seq<ChannelMessage>): (runs: seq<seq<ChannelMessage>>)
    ensures ms == [] <==> runs == []
  {
    if ms == [] then []
    else Extend(Runs(ms[..|ms| - 1]), ms[|ms| - 1], |ms| > 1 && ShouldGroup(ms, |ms| - 1))
  }

  /** The runs, read in order, give back the whole list. */
  lemma {:induction false} RunsFlatten(ms: seq<ChannelMessage>)
    ensures Flatten(Runs(ms)) == ms
  {
    if ms != [] {
      var p := ms[..|ms| - 1];
      RunsFlatten(p);
      FlattenExtend(Runs(p), ms[|ms| - 1], |ms| > 1 && ShouldGroup(ms, |ms| - 1));
      assert p + [ms[|ms| - 1]] == ms;
    }
  }

  /** Every run is non-empty and each of its messages continues the one before it. */
  predicate RunsCohere(runs: seq<seq<ChannelMessage>>) {
    forall j :: 0 <= j < |runs| ==>
      |runs[j]| > 0 && forall k :: 1 <= k < |runs[j]| ==> Continues(runs[j][k - 1], runs[j][k])
  }

  /** Runs are maximal: no run's first message continues the last message of the run before it. */
  predicate RunsMaximal(runs: seq<seq<ChannelMessage>>)
    requires RunsCohere(runs)
  {
    forall j :: 1 <= j < |runs| ==> !Continues(runs[j - 1][|runs[j - 1]| - 1], runs[j][0])
  }

  /** The last message of the last run. */
  function LastOfRuns(runs: seq<seq<ChannelMessage>>): ChannelMessage
    requires runs != [] && runs[|runs| - 1] != []
  {
    runs[|runs| - 1][|runs[|runs| - 1]| - 1]
  }

  /** Joining `m` keeps the runs coherent when it continues the last message. */
  lemma ExtendJoin(runs: seq<seq<ChannelMessage>>, m: ChannelMessage)
    requires runs != [] && RunsCohere(runs) && RunsMaximal(runs)
    requires Continues(LastOfRuns(runs), m)
    ensures RunsCohere(Extend(runs, m, true)) && RunsMaximal(Extend(runs, m, true))
    ensures LastOfRuns(Extend(runs, m, true)) == m
  {
    var n := |runs|;
    var last := runs[n - 1] + [m];
    var e := Extend(runs, m, true);
    assert e == runs[..n - 1] + [last];
    forall k | 1 <= k < |last| ensures Continues(last[k - 1], last[k]) {
      if k < |last| - 1 {
        assert last[k - 1] == runs[n - 1][k - 1] && last[k] == runs[n - 1][k];
      }
    }
    assert forall j :: 0 <= j < n - 1 ==> e[j] == runs[j];
    assert e[n - 1][0] == runs[n - 1][0];
  }

  /** Opening a new run with `m` keeps the runs maximal when `m` does not continue the last message. */
  lemma ExtendOpen(runs: seq<seq<ChannelMessage>>, m: ChannelMessage)
    requires RunsCohere(runs) && RunsMaximal(runs)
    requires runs != [] ==> !Continues(LastOfRuns(runs), m)
    ensures RunsCohere(Extend(runs, m, false)) && RunsMaximal(Extend(runs, m, false))
    ensures LastOfRuns(Extend(runs, m, false)) == m
  {
    var e := Extend(runs, m, false);
    assert forall j :: 0 <= j < |runs| ==> e[j] == runs[j];
  }

  /**
   * The header-less rendering of grouped messages divides the list into
   * maximal runs of one author's messages, each under five minutes after
   * the one before; a header starts exactly each run.
   */
  lemma {:induction false} RunsShape(ms: seq<ChannelMessage>)
    ensures RunsCohere(Runs(ms)) && RunsMaximal(Runs(ms))
    ensures ms != [] ==> LastOfRuns(Runs(ms)) == ms[|ms| - 1]
  {
    if ms != [] {
      var p := ms[..|ms| - 1];
      var m := ms[|ms| - 1];
      RunsShape(p);
      if |ms| > 1 {
        assert p[|p| - 1] == ms[|ms| - 2];
      }
      if |ms| > 1 && ShouldGroup(ms, |ms| - 1) {
        ExtendJoin(Runs(p), m);
      } else {
        ExtendOpen(Runs(p), m);
      }
    }
  }

  // ---------------------------------------------------------------------------
  // Rendering one message

  /** `profile?.display_name || profile?.username || 'Unknown User'`. */
  function DisplayName(profile: Option<MessageProfile>): (name: String)
    ensures profile.None? ==> name == UNKNOWN_USER
    ensures profile.Some? ==> name == FirstPresent(profile.value.displayName, Some(profile.value.username), UNKNOWN_USER)
    ensures name != []
  {
    match profile
    case None => UNKNOWN_USER
    case Some(p) => FirstPresent(p.displayName, Some(p.username), UNKNOWN_USER)
  }

  /** `Math.round(size / 1024)` for an integral size: the nearest whole number of KiB, halves rounded up. */
  function RoundedKb(size: int): (kb: int)
    ensures 1024 * kb - 512 <= size < 1024 * kb + 512
  {
    (size + 512) / 1024
  }

  /** The size line of a file card: `"<n> KB"`, or `'Unknown size'` when the size is missing or zero. */
  function SizeLabel(size: Option<int>): (caption: String)
    ensures size.None? || size.value == 0 ==> caption == UNKNOWN_SIZE
    ensures size.Some? && size.value != 0 ==> caption == IntToString(RoundedKb(size.value)) + " KB"
  {
    if size.None? || size.value == 0 then UNKNOWN_SIZE else IntToString(RoundedKb(size.value)) + " KB"
  }

  /** The caption tells the two cases apart: it is the unknown-size text exactly when no positive size is known. */
  lemma SizeLabelDistinguishes(size: Option<int>)
    ensures SizeLabel(size) == UNKNOWN_SIZE <==> size.None? || size.value == 0
    ensures SizeLabel(size) != []
  {
    var caption := SizeLabel(size);
    if size.Some? && size.value != 0 {
      assert caption[|caption| - 1] == 'B';
      assert UNKNOWN_SIZE[|UNKNOWN_SIZE| - 1] == 'e';
    }
  }

  datatype AttachmentCard = ImageCard(src: Option<String>) | FileCard(name: Option<String>, sizeLabel: String)

  function RenderItem(item: AttachmentItem): (card: AttachmentCard)
    ensures card.ImageCard? <==> item.mime.Some? && StartsWith(item.mime.value, "image/")
    ensures card.ImageCard? ==> card.src == item.url
    ensures card.FileCard? ==> card.name == item.name && card.sizeLabel == SizeLabel(item.size)
  {
    if item.mime.Some? && StartsWith(item.mime.value, "image/") then ImageCard(item.url)
    else FileCard(item.name, SizeLabel(item.size))
  }

  /** The attachments block: one card per array element, and nothing unless the column is a non-empty array. */
  function RenderAttachments(a: AttachmentsJson): (cards: seq<AttachmentCard>)
    ensures a.NotArray? ==> cards == []
    ensures a.JsonArray? ==> |cards| == |a.items|
    ensures a.JsonArray? ==> forall i :: 0 <= i < |cards| ==> cards[i] == RenderItem(a.items[i])
  {
    match a
    case NotArray => []
    case JsonArray(items) => seq(|items|, i requires 0 <= i < |items| => RenderItem(items[i]))
  }

  datatype Avatar = AvatarImage(src: String) | AvatarInitial(letter: char)

  /**
   * A round avatar: the profile image when its URL is present, else the
   * upper-cased first character of the name shown beside it.
   */
  function AvatarFor(avatarUrl: Option<String>, name: String): (a: Avatar)
    requires name != []
    ensures a.AvatarImage? <==> Present(avatarUrl)
    ensures a.AvatarImage? ==> a.src == avatarUrl.value
    ensures a.AvatarInitial? ==> a.letter == ToUpperChar(name[0])
  {
    if Present(avatarUrl) then AvatarImage(avatarUrl.value) else AvatarInitial(ToUpperChar(name[0]))
  }

  /** The author header of an ungrouped message. */
  datatype Header = Header(avatar: Avatar, name: String, edited: bool)

  datatype Body = Text(text: String) | DeletedPlaceholder

  datatype RenderedMessage = RenderedMessage(header: Option<Header>, body: Body, cards: seq<AttachmentCard>)

  /** `renderMessage(message, index)`. */
  function RenderMessage(messages: seq<ChannelMessage>, index: nat): (r: RenderedMessage)
    requires index < |messages|
    ensures r.header.None? <==> ShouldGroup(messages, index)
    ensures r.header.Some? ==> r.header.value.name == DisplayName(messages[index].profile)
    ensures r.header.Some? ==> (r.header.value.edited <==> Present(messages[index].editedAt))
    ensures r.header.Some? && messages[index].profile.Some? && Present(messages[index].profile.value.avatarUrl) ==>
              r.header.value.avatar == AvatarImage(messages[index].profile.value.avatarUrl.value)
    ensures r.header.Some? && !(messages[index].profile.Some? && Present(messages[index].profile.value.avatarUrl)) ==>
              r.header.value.avatar == AvatarInitial(ToUpperChar(DisplayName(messages[index].profile)[0]))
    ensures r.body.DeletedPlaceholder? <==> !Present(messages[index].content)
    ensures r.body.Text? ==> r.body.text == messages[index].content.value
    ensures r.cards == RenderAttachments(messages[index].attachments)
  {
    var m := messages[index];
    var name := DisplayName(m.profile);
    var avatar := AvatarFor(if m.profile.Some? then m.profile.value.avatarUrl else None, name);
    var header := if ShouldGroup(messages, index) then None else Some(Header(avatar, name, Present(m.editedAt)));
    var body := if Present(m.content) then Text(m.content.value) else DeletedPlaceholder;
    RenderedMessage(header, body, RenderAttachments(m.attachments))
  }

  /** A concrete case: A at 0 s and 100 s, then A again at exactly 5 minutes after the second, forms two groups. */
  lemma GroupingExample(a: ChannelMessage)
    ensures var m0 := a.(createdAt := 0);
            var m1 := a.(createdAt := 100000);
            var m2 := a.(createdAt := 400000);
            Runs([m0, m1, m2]) == [[m0, m1], [m2]]
            && !ShouldGroup([m0, m1, m2], 0) && ShouldGroup([m0, m1, m2], 1) && !ShouldGroup([m0, m1, m2], 2)
  {
    var m0 := a.(createdAt := 0);
    var m1 := a.(createdAt := 100000);
    var m2 := a.(createdAt := 400000);
    assert [m0, m1, m2][..2] == [m0, m1];
    assert [m0, m1][..1] == [m0];
    assert [m0][..0] == [];
    assert Runs([m0]) == [[m0]];
    assert ShouldGroup([m0, m1], 1);
    assert [[m0]][..0] == [];
    assert [m0] + [m1] == [m0, m1];
    assert Runs([m0, m1]) == Extend([[m0]], m1, true) == [[m0, m1]];
    assert !ShouldGroup([m0, m1, m2], 2);
    assert Runs([m0, m1, m2]) == Extend([[m0, m1]], m2, false);
  }

  datatype View = Spinner | EmptyChannel | Messages(rendered: seq<RenderedMessage>)

  class ChannelMessages {
    const channelId: Id
    var messages: seq<ChannelMessage>
    var loading: bool

    constructor (channelId: Id)
      ensures this.channelId == channelId && messages == [] && loading
    {
      this.channelId := channelId;
      messages := [];
      loading := true;
    }

    /** `loadMessages`: without a channel id nothing happens; a successful load replaces the list. */
    method LoadMessages(reply: Reply<seq<ChannelMessage>>)
      modifies this`messages, this`loading
      ensures channelId == [] ==> messages == old(messages) && loading == old(loading)
      ensures channelId != [] && reply.Success? ==> messages == Rows(reply)
      ensures channelId != [] && reply.Failure? ==> messages == old(messages)
      ensures channelId != [] ==> !loading
    {
      if channelId == [] {
        return;
      }
      loading := true;
      if reply.Success? {
        messages := Rows(reply);
      }
      loading := false;
    }

    /** The realtime INSERT handler: the re-fetched row, when there is one, is appended with no duplicate check. */
    method OnInsert(fetched: Option<ChannelMessage>)
      modifies this`messages
      ensures fetched.Some? ==> messages == old(messages) + [fetched.value]
      ensures fetched.None? ==> messages == old(messages)
    {
      if fetched.Some? {
        messages := messages + [fetched.value];
      }
    }

    /** What the component shows: a spinner while loading, the empty-channel text, or every message rendered in order. */
    function Render(): (v: View)
      reads this
      ensures loading ==> v == Spinner
      ensures !loading && messages == [] ==> v == EmptyChannel
      ensures !loading && messages != [] ==> v.Messages?
      ensures v.Messages? ==> |v.rendered| == |messages|
      ensures v.Messages? ==> forall i :: 0 <= i < |messages| ==> v.rendered[i] == RenderMessage(messages, i)
    {
      if loading then Spinner
      else if messages == [] then EmptyChannel
      else Messages(seq(|messages|, i requires 0 <= i < |messages| reads this => RenderMessage(messages, i)))
    }
  }
}
