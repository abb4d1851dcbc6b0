/** `ServerMessage: Codable`: the same `{command, data}` shape with six case
    names; `message` and `privateMessage` carry a `{from, to, text}` record. */
module ServerMessageCodec {

  import opened Wrappers
  import opened Json
  import opened ChatCommon
  import ClientCommandCodec

  /** The private `Cmd` enum of the server side. */
  datatype Cmd = ConnectedCmd | DisconnectedCmd | RoomsCmd | UsersCmd | MessageCmd | PrivateMessageCmd

  function RawValue(c: Cmd): string {
    match c
    case ConnectedCmd => "connected"
    case DisconnectedCmd => "disconnected"
    case RoomsCmd => "rooms"
    case UsersCmd => "users"
    case MessageCmd => "message"
    case PrivateMessageCmd => "privateMessage"
  }

  /** `Cmd(rawValue:)`. */
  function CmdFromRawValue(s: string): (r: Option<Cmd>)
    ensures r.Some? ==> RawValue(r.value) == s
    ensures r.None? ==> forall c :: RawValue(c) != s
  {
    if s == "connected" then Some(ConnectedCmd)
    else if s == "disconnected" then Some(DisconnectedCmd)
    else if s == "rooms" then Some(RoomsCmd)
    else if s == "users" then Some(UsersCmd)
    else if s == "message" then Some(MessageCmd)
    else if s == "privateMessage" then Some(PrivateMessageCmd)
    else None
  }

  function CmdOf(m: ServerMessage): Cmd {
    match m
    case Connected(_) => ConnectedCmd
    case Disconnected => DisconnectedCmd
    case Rooms(_) => RoomsCmd
    case Users(_) => UsersCmd
    case Message(_, _, _) => MessageCmd
    case PrivateMessage(_, _, _) => PrivateMessageCmd
  }

  /** The private `MessageData { from, to, text }` record. */
  function EncodeMessageData(from: string, to: string, text: string): Json {
    JObject(map["from" := JString(from), "to" := JString(to), "text" := JString(text)])
  }

  /** Reads `from`, `to`, then `text` from the `data` member. */
  function DecodeMessageData(members: map<string, Json>): Result<(string, string, string), DecodingError> {
    if "data" !in members then Failure(KeyNotFound("data"))
    else match members["data"]
      case JObject(fields) =>
        var from :- DecodeString(fields, "from");
        var to :- DecodeString(fields, "to");
        var text :- DecodeString(fields, "text");
        Success((from, to, text))
      case JNull => Failure(ValueNotFound("data"))
      case _ => Failure(TypeMismatch("data"))
  }

  /** `init(from:)`: only an object decodes, and what it decodes to is what
      its `data` member holds: the server name, the list of names in order,
      or a `{from, to, text}` record where, for `message`, `to` is the room
      and `from` the user; `disconnected` needs no `data`. */
  function Decode(j: Json): (r: Result<ServerMessage, DecodingError>)
    ensures r.Success? ==> j.JObject?
    ensures r.Success? && r.value.Connected? ==> Holds(j, "data", r.value.to)
    ensures r.Success? && (r.value.Rooms? || r.value.Users?) ==> "data" in j.members && j.members["data"] == EncodeStrings(r.value.names)
    ensures r.Success? && r.value.Message? ==>
      && "data" in j.members
      && Holds(j.members["data"], "from", r.value.username)
      && Holds(j.members["data"], "to", r.value.room)
      && Holds(j.members["data"], "text", r.value.text)
    ensures r.Success? && r.value.PrivateMessage? ==>
      && "data" in j.members
      && Holds(j.members["data"], "from", r.value.from)
      && Holds(j.members["data"], "to", r.value.to)
      && Holds(j.members["data"], "text", r.value.text)
  {
    var members :- Container(j);
    var raw :- DecodeString(members, "command");
    match CmdFromRawValue(raw)
    case None => Failure(DataCorrupted("command"))
    case Some(ConnectedCmd) =>
      var server :- DecodeString(members, "data");
      Success(Connected(server))
    case Some(DisconnectedCmd) => Success(Disconnected)
    case Some(RoomsCmd) =>
      var rooms :- DecodeStringArray(members, "data");
      Success(Rooms(rooms))
    case Some(UsersCmd) =>
      var users :- DecodeStringArray(members, "data");
      Success(Users(users))
    case Some(MessageCmd) =>
      var d :- DecodeMessageData(members);
      Success(ServerMessage.Message(d.1, d.0, d.2))
    case Some(PrivateMessageCmd) =>
      var d :- DecodeMessageData(members);
      Success(ServerMessage.PrivateMessage(d.0, d.1, d.2))
  }

  /** `encode(to:)`: `message(room, username, text)` is written as
      `{from: username, to: room, text}`; `disconnected` writes no `data`;
      decoding the result gives back the same message, lists in the same order. */
  function Encode(m: ServerMessage): (j: Json)
    ensures j.JObject? && "command" in j.members
    ensures j.members["command"] == JString(RawValue(CmdOf(m)))
    ensures "data" in j.members <==> !m.Disconnected?
    ensures Decode(j) == Success(m)
  {
    match m
    case Connected(to) =>
      JObject(map["command" := JString(RawValue(ConnectedCmd)), "data" := JString(to)])
    case Disconnected =>
      JObject(map["command" := JString(RawValue(DisconnectedCmd))])
    case Rooms(rooms) =>
      StringsRoundTrip(rooms, "data");
      JObject(map["command" := JString(RawValue(RoomsCmd)), "data" := EncodeStrings(rooms)])
    case Users(users) =>
      StringsRoundTrip(users, "data");
      JObject(map["command" := JString(RawValue(UsersCmd)), "data" := EncodeStrings(users)])
    case Message(room, username, text) =>
      JObject(map["command" := JString(RawValue(MessageCmd)), "data" := EncodeMessageData(username, room, text)])
    case PrivateMessage(from, to, text) =>
      JObject(map["command" := JString(RawValue(PrivateMessageCmd)), "data" := EncodeMessageData(from, to, text)])
  }

  /** Decoding never falls back to a default case. */
  lemma DecodedTagMatches(j: Json)
    requires Decode(j).Success?
    ensures j.JObject? && "command" in j.members
    ensures j.members["command"] == JString(RawValue(CmdOf(Decode(j).value)))
  {
  }

  /** An unknown `command`, or a `rooms`/`users` payload that is not a list of
      strings, fails to decode. */
  lemma MalformedMessagesFail(members: map<string, Json>, raw: string)
    requires "command" in members && members["command"] == JString(raw)
    ensures (forall c :: RawValue(c) != raw) ==> Decode(JObject(members)) == Failure(DataCorrupted("command"))
    ensures (raw == "rooms" || raw == "users") && "data" in members && members["data"].JString? ==>
      Decode(JObject(members)) == Failure(TypeMismatch("data"))
  {
  }

  /** The `{from, to, text}` record is shared by both directions: a room message
      as the server writes it also decodes as the client's `message` command,
      whose `to` is the room; the extra `from` member is ignored. */
  lemma RoomMessageRecordIsShared(room: string, username: string, text: string)
    ensures ClientCommandCodec.Decode(Encode(ServerMessage.Message(room, username, text)))
      == Success(ClientCommand.Message(room, text))
  {
  }
}
