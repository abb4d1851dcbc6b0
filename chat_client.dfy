/** `ChatClientService`: the client's view of the conversation. It frames
    each command as a 4-byte big-endian length followed by the JSON text, and
    files every server message under a message board. */
module ChatClient {

  import opened Wrappers
  import opened Bytes
  import opened Buffers
  import opened ChatCommon
  import opened MessageBoards
  import Json
  import ClientCommandCodec

  /** `ChatMessage`: who wrote a line, and the line. */
  datatype ChatMessage = ChatMessage(user: string, text: string)

  type Boards = map<MessageBoard, seq<ChatMessage>>

  /** `encodeFrameHeader(size:)`: `UInt32(size)` traps outside its range. */
  function EncodeFrameHeader(size: int): (header: seq<Byte>)
    requires 0 <= size < UINT32_LIMIT
    ensures |header| == 4 && BigEndianValue(header) == size
  {
    BigEndian32(size)
  }

  /** `decodeFrameHeader(data:)`: `copyBytes` fills a zeroed `UInt32` with the
      received bytes, which are then read as big-endian; missing bytes are
      zeros at the low end. The destination holds four bytes, so the data may
      be at most four bytes long, which `receive(minimumIncompleteLength: 4,
      maximumLength: 4)` guarantees. */
  function DecodeFrameHeader(data: seq<Byte>): (size: nat)
    requires |data| <= 4
    ensures size < UINT32_LIMIT
  {
    BigEndianValue(data + seq(4 - |data|, _ => 0))
  }

  /** The header decodes to the size it encodes. */
  lemma FrameHeaderRoundTrip(size: int)
    requires 0 <= size < UINT32_LIMIT
    ensures DecodeFrameHeader(EncodeFrameHeader(size)) == size
  {
    var h := EncodeFrameHeader(size);
    assert h + seq(0, _ => 0) == h;
  }

  /** A header decodes to a size whose header is that header again: every
      four bytes are a valid header. */
  lemma FrameHeaderOnto(header: seq<Byte>)
    requires |header| == 4
    ensures EncodeFrameHeader(DecodeFrameHeader(header)) == header
  {
    assert header + seq(0, _ => 0) == header;
    BigEndianOfValue(header);
  }

  /** What the client puts on the wire for a JSON text the server's decoders
      accept: the server's own frame encoding. */
  lemma ClientFrameIsServerFrame(json: seq<Byte>)
    requires |json| <= INT32_MAX
    ensures EncodeFrameHeader(|json|) + json == Frame(json)
  {
    BigEndianOfValue(EncodeFrameHeader(|json|));
    BigEndianOfValue(Frame(json)[0..4]);
    assert Frame(json)[0..4] == Int32Bytes(|json|);
  }

  /** The command `sendMessage(board:message:)` sends for a board. */
  function BoardCommand(board: MessageBoard, text: string): (c: ClientCommand)
    ensures c.Message? <==> IsRoom(board)
    ensures c.Message? ==> c == ClientCommand.Message(DisplayName(board), text)
    ensures c.PrivateMessage? ==> c == ClientCommand.PrivateMessage(DisplayName(board), text)
  {
    match board
    case Room(room) => ClientCommand.Message(room, text)
    case User(toUser) => ClientCommand.PrivateMessage(toUser, text)
  }

  /** The board a server message is filed under by a client logged in as
      `username`, if any: a room message under its room, a private message
      under the other party. */
  function FiledUnder(message: ServerMessage, username: string): (b: Option<MessageBoard>)
    ensures b.Some? <==> message.Message? || message.PrivateMessage?
    ensures message.Message? ==> b == Some(Room(message.room))
  {
    match message
    case Message(room, _, _) => Some(Room(room))
    case PrivateMessage(from, to, _) => Some(User(if from == username then to else from))
    case _ => None
  }

  /** A private message is always filed under a user board naming the party
      that is not `username` (or `to`, when one writes to oneself). */
  lemma FiledUnderParty(message: ServerMessage, username: string)
    requires message.PrivateMessage?
    ensures
      && FiledUnder(message, username).Some?
      && !IsRoom(FiledUnder(message, username).value)
      && DisplayName(FiledUnder(message, username).value) in {message.from, message.to}
      && (DisplayName(FiledUnder(message, username).value) == username ==> message.from == message.to)
  {
  }

  /** `messageBoards[board] = (messageBoards[board] ?? []) + [entry]`. */
  function AppendTo(boards: Boards, board: MessageBoard, entry: ChatMessage): (r: Boards)
    ensures board in r && r[board] == (if board in boards then boards[board] else []) + [entry]
    ensures r.Keys == boards.Keys + {board}
    ensures forall b :: b in boards && b != board ==> r[b] == boards[b]
  {
    boards[board := (if board in boards then boards[board] else []) + [entry]]
  }

  function BoardNamed(isRoom: bool, name: string): MessageBoard {
    if isRoom then Room(name) else User(name)
  }

  /** The `forEach` over a list of names: each board not yet present gets an
      empty entry list, in order. */
  function AddMissing(boards: Boards, names: seq<string>, isRoom: bool): (r: Boards)
    decreases |names|
  {
    if names == [] then boards
    else
      var before := AddMissing(boards, names[..|names| - 1], isRoom);
      var board := BoardNamed(isRoom, names[|names| - 1]);
      if board in before then before else before[board := []]
  }

  /** Listing rooms or users adds exactly the missing boards, empty, and never
      alters an existing board's contents. */
  lemma {:induction false} AddMissingKeepsContents(boards: Boards, names: seq<string>, isRoom: bool)
    ensures var r := AddMissing(boards, names, isRoom);
      && (forall b :: b in r <==> b in boards || exists i :: 0 <= i < |names| && b == BoardNamed(isRoom, names[i]))
      && (forall b :: b in r ==> r[b] == if b in boards then boards[b] else [])
    decreases |names|
  {
    if names != [] {
      var prefix := names[..|names| - 1];
      AddMissingKeepsContents(boards, prefix, isRoom);
      var r := AddMissing(boards, names, isRoom);
      forall b ensures b in r <==> b in boards || exists i :: 0 <= i < |names| && b == BoardNamed(isRoom, names[i]) {
        if exists i :: 0 <= i < |prefix| && b == BoardNamed(isRoom, prefix[i]) {
          var i :| 0 <= i < |prefix| && b == BoardNamed(isRoom, prefix[i]);
          assert names[i] == prefix[i];
        }
        if exists i :: 0 <= i < |names| && b == BoardNamed(isRoom, names[i]) {
          var i :| 0 <= i < |names| && b == BoardNamed(isRoom, names[i]);
          if i < |prefix| {
            assert prefix[i] == names[i];
          }
        }
      }
    }
  }

  /** The boards after `process(message:)`: no board is ever dropped, and a
      board's lines only ever grow at the end. */
  function Processed(boards: Boards, message: ServerMessage, username: string): (r: Boards)
    ensures boards.Keys <= r.Keys
    ensures forall b :: b in boards ==> boards[b] <= r[b]
  {
    match message
    case Connected(_) => boards
    case Disconnected => boards
    case Rooms(roomNames) => AddMissingKeepsContents(boards, roomNames, true); AddMissing(boards, roomNames, true)
    case Users(users) => AddMissingKeepsContents(boards, users, false); AddMissing(boards, users, false)
    case Message(room, user, text) => AppendTo(boards, Room(room), ChatMessage(user, text))
    case PrivateMessage(from, to, text) =>
      AppendTo(boards, User(if from == username then to else from), ChatMessage(from, text))
  }

  /** A chat line is appended at the end of the board it is filed under, which
      is created if absent; every other board is unchanged. Other messages add
      no lines to any board. */
  lemma ProcessedFilesLines(boards: Boards, message: ServerMessage, username: string)
    ensures var r := Processed(boards, message, username);
      match FiledUnder(message, username)
      case Some(board) =>
        && r.Keys == boards.Keys + {board}
        && r[board] == (if board in boards then boards[board] else [])
             + [ChatMessage(if message.Message? then message.username else message.from, message.text)]
        && (forall b :: b in boards && b != board ==> r[b] == boards[b])
      case None =>
        && boards.Keys <= r.Keys
        && (forall b :: b in r ==> r[b] == if b in boards then boards[b] else [])
  {
    match message
    case Rooms(roomNames) => AddMissingKeepsContents(boards, roomNames, true);
    case Users(users) => AddMissingKeepsContents(boards, users, false);
    case _ =>
  }

  /** The copy of its own line the server sends back (`message` to every
      online user, `privateMessage` to the sender) is filed by the sender
      under the board it was written on. */
  lemma EchoFiledUnderSameBoard(board: MessageBoard, text: string, username: string)
    ensures var c := BoardCommand(board, text);
      FiledUnder(
        if c.Message? then ServerMessage.Message(c.room, username, text)
        else ServerMessage.PrivateMessage(username, c.username, text),
        username) == Some(board)
  {
  }

  /** The recipient of a private message files it under the sender's board. */
  lemma PrivateMessageFiledUnderSender(from: string, to: string, text: string)
    requires from != to
    ensures FiledUnder(ServerMessage.PrivateMessage(from, to, text), to) == Some(User(from))
  {
  }

  class ChatClientService {
    const username: string
    /** `JSONEncoder().encode`: the JSON text of a value, a foreign library. */
    const jsonText: Json.Json -> seq<Byte>
    var loggedIn: bool
    var messageBoards: Boards
    /** Whether `connection` is set. */
    var hasConnection: bool
    /** The chunks handed to `connection.send`, in order. */
    var sent: seq<seq<Byte>>

    constructor (username: string, jsonText: Json.Json -> seq<Byte>)
      ensures this.username == username && this.jsonText == jsonText
      ensures !loggedIn && messageBoards == map[] && !hasConnection && sent == []
    {
      this.username := username;
      this.jsonText := jsonText;
      loggedIn := false;
      messageBoards := map[];
      hasConnection := false;
      sent := [];
    }

    /** The part of `connect()` this model keeps: `connection` is set. */
    method Connect()
      modifies this`hasConnection
      ensures hasConnection
    {
      hasConnection := true;
    }

    /** `send(command:)`: the header for the JSON length, then the JSON text,
        as two sends on the connection (none without one). */
    method Send(command: ClientCommand)
      requires |jsonText(ClientCommandCodec.Encode(command))| < UINT32_LIMIT
      modifies this`sent
      ensures var json := jsonText(ClientCommandCodec.Encode(command));
        sent == old(sent) + if hasConnection then [EncodeFrameHeader(|json|), json] else []
    {
      var jsonData := jsonText(ClientCommandCodec.Encode(command));
      var headerData := EncodeFrameHeader(|jsonData|);
      if hasConnection {
        sent := sent + [headerData];
        sent := sent + [jsonData];
      }
    }

    /** `sendMessage(board:message:)`. */
    method SendMessage(board: MessageBoard, message: string)
      requires |jsonText(ClientCommandCodec.Encode(BoardCommand(board, message)))| < UINT32_LIMIT
      modifies this`sent
      ensures var json := jsonText(ClientCommandCodec.Encode(BoardCommand(board, message)));
        sent == old(sent) + if hasConnection then [EncodeFrameHeader(|json|), json] else []
    {
      match board
      case Room(room) => Send(ClientCommand.Message(room, message));
      case User(toUser) => Send(ClientCommand.PrivateMessage(toUser, message));
    }

    /** `process(message:)`. */
    method Process(message: ServerMessage)
      modifies this`loggedIn, this`messageBoards
      ensures loggedIn == match message
        case Connected(_) => true
        case Disconnected => false
        case _ => old(loggedIn)
      ensures messageBoards == Processed(old(messageBoards), message, username)
    {
      match message
      case Connected(_) =>
        loggedIn := true;
      case Disconnected =>
        loggedIn := false;
      case Rooms(roomNames) =>
        for i := 0 to |roomNames|
          invariant loggedIn == old(loggedIn)
          invariant messageBoards == AddMissing(old(messageBoards), roomNames[..i], true)
        {
          assert roomNames[..i + 1][..i] == roomNames[..i];
          var board := Room(roomNames[i]);
          if board !in messageBoards {
            messageBoards := messageBoards[board := []];
          }
        }
        assert roomNames[..|roomNames|] == roomNames;
      case Users(users) =>
        for i := 0 to |users|
          invariant loggedIn == old(loggedIn)
          invariant messageBoards == AddMissing(old(messageBoards), users[..i], false)
        {
          assert users[..i + 1][..i] == users[..i];
          var board := User(users[i]);
          if board !in messageBoards {
            messageBoards := messageBoards[board := []];
          }
        }
        assert users[..|users|] == users;
      case Message(room, user, text) =>
        var board := Room(room);
        var entries := if board in messageBoards then messageBoards[board] else [];
        entries := entries + [ChatMessage(user, text)];
        messageBoards := messageBoards[board := entries];
      case PrivateMessage(from, to, text) =>
        var party := if from == username then to else from;
        var board := User(party);
        var entries := if board in messageBoards then messageBoards[board] else [];
        entries := entries + [ChatMessage(from, text)];
        messageBoards := messageBoards[board := entries];
    }
  }
}
