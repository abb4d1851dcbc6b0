/** The message list of `MessagesViewController`: the lines of one board,
    grouped into runs of consecutive lines by the same sender, each line with
    an id taken from a counter. Avatars, timestamps and the collection view
    are not part of this model. */
module MessagesView {

  import opened Wrappers
  import opened ChatCommon
  import MessageBoards
  import opened ChatClient

  /** `User`: a display name and whether it is the local user. */
  datatype User = User(displayName: string, isSender: bool)

  /** `MSGMessage` with a text body. */
  datatype Msg = Msg(id: nat, body: string, user: User)

  function Who(m: Msg): string {
    m.user.displayName
  }

  /** The lines in display order. */
  function Flatten(groups: seq<seq<Msg>>): seq<Msg> {
    if groups == [] then [] else Flatten(groups[..|groups| - 1]) + groups[|groups| - 1]
  }

  /** Every group is non-empty and has one sender; adjacent groups have
      different senders. */
  predicate WellGrouped(groups: seq<seq<Msg>>) {
    && (forall i :: 0 <= i < |groups| ==> |groups[i]| > 0)
    && (forall i, k :: 0 <= i < |groups| && 0 <= k < |groups[i]| ==> Who(groups[i][k]) == Who(groups[i][0]))
    && (forall i :: 0 < i < |groups| ==> Who(groups[i][0]) != Who(groups[i - 1][0]))
  }

  /** Ids increase along the display order and are below the next id. */
  predicate IdsIncreasing(lines: seq<Msg>, nextMessageID: nat) {
    && (forall i, j :: 0 <= i < j < |lines| ==> lines[i].id < lines[j].id)
    && (forall i :: 0 <= i < |lines| ==> lines[i].id < nextMessageID)
  }

  predicate DistinctNames(users: seq<User>) {
    forall i, j :: 0 <= i < j < |users| ==> users[i].displayName != users[j].displayName
  }

  /** The grouping step of `appendMessage`: a line whose sender is the sender
      of the last line joins the last group, any other line starts a group. */
  function AddToGroups(groups: seq<seq<Msg>>, message: Msg, from: string): seq<seq<Msg>> {
    if |groups| > 0 && |groups[|groups| - 1]| > 0 && Who(groups[|groups| - 1][|groups[|groups| - 1]| - 1]) == from
    then groups[|groups| - 1 := groups[|groups| - 1] + [message]]
    else groups + [[message]]
  }

  /** `others.first(where: { $0.displayName == name })`. */
  function FirstNamed(users: seq<User>, name: string): (r: Option<User>)
    ensures r.Some? ==> r.value in users && r.value.displayName == name
    ensures r.None? ==> forall i :: 0 <= i < |users| ==> users[i].displayName != name
  {
    if users == [] then None
    else if users[0].displayName == name then Some(users[0])
    else FirstNamed(users[1..], name)
  }

  /** The sender of a line from `from`, and the `others` list afterwards. */
  function Sender(myself: Option<User>, others: seq<User>, from: string): (User, seq<User>) {
    if myself.Some? && myself.value.displayName == from then (myself.value, others)
    else match FirstNamed(others, from)
      case Some(existing) => (existing, others)
      case None => (User(from, false), others + [User(from, false)])
  }

  /** The sender is `myself` on a name match, otherwise the `others` entry of
      that name, created (as not the local user) only when there is none; no
      two entries of `others` ever share a name. */
  lemma SenderResolution(myself: Option<User>, others: seq<User>, from: string)
    requires DistinctNames(others)
    ensures var (user, others') := Sender(myself, others, from);
      && user.displayName == from
      && (myself.Some? && myself.value.displayName == from ==> user == myself.value && others' == others)
      && (others' == others || (others' == others + [user] && !user.isSender))
      && (others' != others <==> !(myself.Some? && myself.value.displayName == from) && forall u :: u in others ==> u.displayName != from)
      && DistinctNames(others')
  {
  }

  /** What the view holds: `myself`, `others`, `messages`, `nextMessageID`. */
  datatype ViewState = ViewState(myself: Option<User>, others: seq<User>, messages: seq<seq<Msg>>, nextMessageID: nat)

  predicate Good(s: ViewState) {
    WellGrouped(s.messages) && IdsIncreasing(Flatten(s.messages), s.nextMessageID) && DistinctNames(s.others)
  }

  /** `appendMessage(_:from:)`. */
  function Append(s: ViewState, body: string, from: string): ViewState {
    var sender := Sender(s.myself, s.others, from);
    ViewState(s.myself, sender.1, AddToGroups(s.messages, Msg(s.nextMessageID, body, sender.0), from), s.nextMessageID + 1)
  }

  /** `for message in boardContents { appendMessage(...) }`. */
  function Replay(s: ViewState, contents: seq<ChatMessage>): ViewState
    decreases |contents|
  {
    if contents == [] then s
    else
      var last := contents[|contents| - 1];
      Append(Replay(s, contents[..|contents| - 1]), last.text, last.user)
  }

  /** The line a view's display shows for a line: its sender's name and text. */
  function Line(m: Msg): ChatMessage {
    ChatMessage(Who(m), m.body)
  }

  function Lines(ms: seq<Msg>): (r: seq<ChatMessage>)
    ensures |r| == |ms|
  {
    seq(|ms|, i requires 0 <= i < |ms| => Line(ms[i]))
  }

  /** Appending a line adds exactly that line at the end of the display order;
      only the last group changes, or a new group is added. */
  lemma {:induction false} AddToGroupsFlatten(groups: seq<seq<Msg>>, message: Msg, from: string)
    ensures Flatten(AddToGroups(groups, message, from)) == Flatten(groups) + [message]
    ensures var r := AddToGroups(groups, message, from);
      && (|r| == |groups| || |r| == |groups| + 1)
      && (forall i :: 0 <= i < |groups| - 1 ==> r[i] == groups[i])
      && (|r| == |groups| + 1 ==> r[..|groups|] == groups && r[|groups|] == [message])
  {
    var r := AddToGroups(groups, message, from);
    if |r| == |groups| {
      var n := |groups|;
      assert r[..n - 1] == groups[..n - 1];
      assert Flatten(r) == Flatten(groups[..n - 1]) + groups[n - 1] + [message];
    } else {
      assert r[..|groups|] == groups;
    }
  }

  /** The grouping step keeps every group single-sender and adjacent groups
      apart. */
  lemma AddToGroupsWellGrouped(groups: seq<seq<Msg>>, message: Msg, from: string)
    requires WellGrouped(groups) && Who(message) == from
    ensures WellGrouped(AddToGroups(groups, message, from))
  {
    var r := AddToGroups(groups, message, from);
    var n := |groups|;
    if |r| == n {
      assert Who(groups[n - 1][|groups[n - 1]| - 1]) == Who(groups[n - 1][0]) == from;
      forall i, k | 0 <= i < n && 0 <= k < |r[i]| ensures Who(r[i][k]) == Who(r[i][0]) {
        if i == n - 1 && k == |groups[n - 1]| {
          assert r[i][k] == message;
        }
      }
    } else if n > 0 {
      assert Who(groups[n - 1][|groups[n - 1]| - 1]) == Who(groups[n - 1][0]);
      assert r[n][0] == message;
    }
  }

  lemma IdsIncreasingAppend(lines: seq<Msg>, nextMessageID: nat, message: Msg)
    requires IdsIncreasing(lines, nextMessageID) && message.id == nextMessageID
    ensures IdsIncreasing(lines + [message], nextMessageID + 1)
  {
  }

  lemma LinesAppend(ms: seq<Msg>, m: Msg)
    ensures Lines(ms + [m]) == Lines(ms) + [Line(m)]
  {
  }

  /** Each step keeps the grouping invariant, the id order and the distinct
      names of `others`, consumes one id, and shows one more line. */
  lemma AppendKeepsGood(s: ViewState, body: string, from: string)
    requires Good(s)
    ensures var t := Append(s, body, from);
      && Good(t)
      && t.nextMessageID == s.nextMessageID + 1
      && t.myself == s.myself
      && Lines(Flatten(t.messages)) == Lines(Flatten(s.messages)) + [ChatMessage(from, body)]
  {
    var sender := Sender(s.myself, s.others, from);
    SenderResolution(s.myself, s.others, from);
    var m := Msg(s.nextMessageID, body, sender.0);
    AddToGroupsFlatten(s.messages, m, from);
    AddToGroupsWellGrouped(s.messages, m, from);
    IdsIncreasingAppend(Flatten(s.messages), s.nextMessageID, m);
    LinesAppend(Flatten(s.messages), m);
  }

  /** `configure` shows the board's lines in order, whatever the view held
      before, and keeps the invariants. */
  lemma {:induction false} ReplayShowsContents(s: ViewState, contents: seq<ChatMessage>)
    requires Good(s)
    ensures var t := Replay(s, contents);
      && Good(t)
      && t.myself == s.myself
      && t.nextMessageID == s.nextMessageID + |contents|
      && Lines(Flatten(t.messages)) == Lines(Flatten(s.messages)) + contents
    decreases |contents|
  {
    if contents != [] {
      var prefix := contents[..|contents| - 1];
      var last := contents[|contents| - 1];
      var before := Replay(s, prefix);
      ReplayShowsContents(s, prefix);
      AppendKeepsGood(before, last.text, last.user);
      assert Replay(s, contents) == Append(before, last.text, last.user);
      assert contents == prefix + [ChatMessage(last.user, last.text)];
    }
  }

  /** The line `processServerMessage` shows on `board`, if any. */
  function Shown(board: Option<MessageBoards.MessageBoard>, message: ServerMessage): Option<ChatMessage> {
    if board.None? then None
    else match message
      case Message(inRoom, username, text) =>
        if board.value == MessageBoards.Room(inRoom) then Some(ChatMessage(username, text)) else None
      case PrivateMessage(from, to, text) =>
        if board.value.User? && (board.value.userName == from || board.value.userName == to)
        then Some(ChatMessage(from, text)) else None
      case _ => None
  }

  /** Nothing is shown without a board, or for `connected`, `disconnected`,
      `rooms`, `users`; a room line only on its own room's board; a private
      line only on the board of one of its two parties. */
  lemma ShownOnlyOnItsBoard(board: Option<MessageBoards.MessageBoard>, message: ServerMessage)
    ensures Shown(board, message).Some? ==> board.Some? && (message.Message? || message.PrivateMessage?)
    ensures message.Message? ==> (Shown(board, message).Some? <==> board == Some(MessageBoards.Room(message.room)))
    ensures message.PrivateMessage? ==>
      (Shown(board, message).Some? <==> board == Some(MessageBoards.User(message.from)) || board == Some(MessageBoards.User(message.to)))
  {
  }

  /** The live view agrees with the client's filing: a line the client files
      under a board is shown, with the same sender and text, on a view of that
      board. */
  lemma ShownAgreesWithFiling(board: MessageBoards.MessageBoard, message: ServerMessage, username: string)
    requires FiledUnder(message, username) == Some(board)
    ensures Shown(Some(board), message).Some?
    ensures Processed(map[], message, username)[board] == [Shown(Some(board), message).value]
  {
  }

  class MessagesViewController {
    var myself: Option<User>
    var others: seq<User>
    var messages: seq<seq<Msg>>
    var nextMessageID: nat
    var board: Option<MessageBoards.MessageBoard>

    function State(): ViewState
      reads this
    {
      ViewState(myself, others, messages, nextMessageID)
    }

    predicate Valid()
      reads this
    {
      Good(State())
    }

    constructor ()
      ensures Valid()
      ensures myself == None && others == [] && messages == [] && nextMessageID == 1 && board == None
    {
      myself := None;
      others := [];
      messages := [];
      nextMessageID := 1;
      board := None;
    }

    /** The sender lookup of `appendMessage`: `myself` on a name match, else
        the first entry of `others` with that name, else a new entry appended
        to `others`. */
    method ResolveSender(from: string) returns (user: User)
      modifies this`others
      ensures (user, others) == Sender(myself, old(others), from)
    {
      if myself.Some? && myself.value.displayName == from {
        user := myself.value;
      } else {
        var existing := FirstNamed(others, from);
        if existing.Some? {
          user := existing.value;
        } else {
          user := User(from, false);
          others := others + [user];
        }
      }
    }

    /** The grouping step of `appendMessage`: join the last group when its last
        line has the same sender, else start a group. */
    method AddLine(message: Msg, from: string)
      modifies this`messages
      ensures messages == AddToGroups(old(messages), message, from)
    {
      if |messages| > 0 {
        var last := messages[|messages| - 1];
        if |last| > 0 && Who(last[|last| - 1]) == from {
          messages := messages[|messages| - 1 := last + [message]];
          return;
        }
      }
      messages := messages + [[message]];
    }

    /** `appendMessage(_:from:)`. */
    method AppendMessage(body: string, from: string)
      requires Valid()
      modifies this`nextMessageID, this`others, this`messages
      ensures Valid()
      ensures State() == Append(old(State()), body, from)
    {
      ghost var before := State();
      AppendKeepsGood(before, body, from);
      var id := nextMessageID;
      var user := ResolveSender(from);
      AddLine(Msg(id, body, user), from);
      nextMessageID := id + 1;
    }

    /** The message-list part of `configure(myName:board:boardContents:sendMessage:)`:
        `messages` is emptied, `myself` set, and the board's lines replayed;
        `nextMessageID` and `others` carry over. */
    method Configure(myName: string, board: MessageBoards.MessageBoard, boardContents: seq<ChatMessage>)
      requires Valid()
      modifies this
      ensures Valid()
      ensures this.board == Some(board)
      ensures State() == Replay(ViewState(Some(User(myName, true)), old(others), [], old(nextMessageID)), boardContents)
    {
      this.board := Some(board);
      messages := [];
      myself := Some(User(myName, true));
      ghost var start := State();
      for i := 0 to |boardContents|
        invariant Valid() && this.board == Some(board)
        invariant State() == Replay(start, boardContents[..i])
      {
        assert boardContents[..i + 1][..i] == boardContents[..i];
        AppendMessage(boardContents[i].text, boardContents[i].user);
      }
      assert boardContents[..|boardContents|] == boardContents;
    }

    /** `processServerMessage(_:)`. */
    method ProcessServerMessage(serverMessage: ServerMessage)
      requires Valid()
      modifies this`nextMessageID, this`others, this`messages
      ensures Valid()
      ensures State() == match Shown(board, serverMessage)
        case Some(line) => Append(old(State()), line.text, line.user)
        case None => old(State())
    {
      if board.None? {
        return;
      }
      match serverMessage
      case Message(inRoom, username, text) =>
        if board.value.Room? && board.value.roomName == inRoom {
          AppendMessage(text, username);
        }
      case PrivateMessage(from, to, text) =>
        if board.value.User? && (board.value.userName == from || board.value.userName == to) {
          AppendMessage(text, from);
        }
      case _ =>
    }
  }
}
