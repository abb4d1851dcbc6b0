/** The two closed message vocabularies shared by server and clients. Equality
    is Dafny's structural equality, which is what Swift synthesises for these
    enums: same case and equal associated values (list order included). */
module ChatCommon {

  /** Client to server. */
  datatype ClientCommand =
    | Connect(username: string)
    | Disconnect
    | Message(room: string, text: string)
    | PrivateMessage(username: string, text: string)

  /** Server to client. */
  datatype ServerMessage =
    | Connected(to: string)
    | Disconnected
    | Rooms(names: seq<string>)
    | Users(names: seq<string>)
    | Message(room: string, username: string, text: string)
    | PrivateMessage(from: string, to: string, text: string)
}
