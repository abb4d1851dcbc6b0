/** `ClientCommand: Codable`: a command is written as an object whose `command`
    member names the case and whose `data` member holds its payload. */
module ClientCommandCodec {

  import opened Wrappers
  import opened Json
  import opened ChatCommon

  /** The private `Cmd` enum: the case names, spelled exactly. */
  datatype Cmd = ConnectCmd | DisconnectCmd | MessageCmd | PrivateMessageCmd

  function RawValue(c: Cmd): string {
    match c
    case ConnectCmd => "connect"
    case DisconnectCmd => "disconnect"
    case MessageCmd => "message"
    case PrivateMessageCmd => "privateMessage"
  }

  /** `Cmd(rawValue:)`: finds the case with that exact name, if any. */
  function CmdFromRawValue(s: string): (r: Option<Cmd>)
    ensures r.Some? ==> RawValue(r.value) == s
    ensures r.None? ==> forall c :: RawValue(c) != s
  {
    if s == "connect" then Some(ConnectCmd)
    else if s == "disconnect" then Some(DisconnectCmd)
    else if s == "message" then Some(MessageCmd)
    else if s == "privateMessage" then Some(PrivateMessageCmd)
    else None
  }

  function CmdOf(c: ClientCommand): Cmd {
    match c
    case Connect(_) => ConnectCmd
    case Disconnect => DisconnectCmd
    case Message(_, _) => MessageCmd
    case PrivateMessage(_, _) => PrivateMessageCmd
  }

  /** The private `MessageData { to, text }` record. */
  function EncodeMessageData(to: string, text: string): Json {
    JObject(map["to" := JString(to), "text" := JString(text)])
  }

  /** `container.decode(MessageData.self, forKey: .data)`: reads `to`, then `text`;
      other members of the record are ignored. */
  function DecodeMessageData(members: map<string, Json>): Result<(string, string), DecodingError> {
    if "data" !in members then Failure(KeyNotFound("data"))
    else match members["data"]
      case JObject(fields) =>
        var to :- DecodeString(fields, "to");
        var text :- DecodeString(fields, "text");
        Success((to, text))
      case JNull => Failure(ValueNotFound("data"))
      case _ => Failure(TypeMismatch("data"))
  }

  /** `init(from:)`: only an object decodes, and what it decodes to is what
      its `data` member holds: the user name itself, or a `{to, text}`
      record; `disconnect` needs no `data`. */
  function Decode(j: Json): (r: Result<ClientCommand, DecodingError>)
    ensures r.Success? ==> j.JObject?
    ensures r.Success? && r.value.Connect? ==> Holds(j, "data", r.value.username)
    ensures r.Success? && (r.value.Message? || r.value.PrivateMessage?) ==>
      && "data" in j.members
      && Holds(j.members["data"], "to", if r.value.Message? then r.value.room else r.value.username)
      && Holds(j.members["data"], "text", r.value.text)
  {
    var members :- Container(j);
    var raw :- DecodeString(members, "command");
    match CmdFromRawValue(raw)
    case None => Failure(DataCorrupted("command"))
    case Some(ConnectCmd) =>
      var username :- DecodeString(members, "data");
      Success(Connect(username))
    case Some(DisconnectCmd) => Success(Disconnect)
    case Some(MessageCmd) =>
      var msg :- DecodeMessageData(members);
      Success(ClientCommand.Message(msg.0, msg.1))
    case Some(PrivateMessageCmd) =>
      var msg :- DecodeMessageData(members);
      Success(ClientCommand.PrivateMessage(msg.0, msg.1))
  }

  /** `encode(to:)`: the `command` member names the case, `disconnect` writes
      no `data`, and decoding the result gives back the same command. */
  function Encode(c: ClientCommand): (j: Json)
    ensures j.JObject? && "command" in j.members
    ensures j.members["command"] == JString(RawValue(CmdOf(c)))
    ensures "data" in j.members <==> !c.Disconnect?
    ensures Decode(j) == Success(c)
  {
    match c
    case Connect(username) =>
      JObject(map["command" := JString(RawValue(ConnectCmd)), "data" := JString(username)])
    case Disconnect =>
      JObject(map["command" := JString(RawValue(DisconnectCmd))])
    case Message(room, text) =>
      JObject(map["command" := JString(RawValue(MessageCmd)), "data" := EncodeMessageData(room, text)])
    case PrivateMessage(username, text) =>
      JObject(map["command" := JString(RawValue(PrivateMessageCmd)), "data" := EncodeMessageData(username, text)])
  }

  /** Decoding never falls back to a default case: whatever decodes carries the
      name of the case it decoded to. */
  lemma DecodedTagMatches(j: Json)
    requires Decode(j).Success?
    ensures j.JObject? && "command" in j.members
    ensures j.members["command"] == JString(RawValue(CmdOf(Decode(j).value)))
  {
  }

  /** A `command` that names no case fails, whatever `data` holds. */
  lemma UnknownCommandFails(members: map<string, Json>, raw: string)
    requires "command" in members && members["command"] == JString(raw)
    requires forall c :: RawValue(c) != raw
    ensures Decode(JObject(members)) == Failure(DataCorrupted("command"))
  {
  }

  /** `disconnect` never reads `data`; every other case fails without it. */
  lemma DataRequiredUnlessDisconnect(members: map<string, Json>, c: Cmd)
    requires "command" in members && members["command"] == JString(RawValue(c))
    requires "data" !in members
    ensures c == DisconnectCmd <==> Decode(JObject(members)) == Success(Disconnect)
    ensures c != DisconnectCmd ==> Decode(JObject(members)) == Failure(KeyNotFound("data"))
  {
    assert CmdFromRawValue(RawValue(c)) == Some(c);
  }
}
