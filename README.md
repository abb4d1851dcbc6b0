# Chat relay core in Dafny

This project models the core of a length-prefixed JSON chat relay: a SwiftNIO
server with an iOS client. It covers the following parts.

- **Room registry** (`rooms_handler.dfy`, module `ChatRooms`).
  - The server's `ServerChatRoomsHandler` is a class.
  - `online` is a map from connection identity to user name. It stands for the
    `Set<ChatUser>` whose equality is connection identity (`chat_user.dfy`).
  - `rooms` is the fixed room list.
  - `outbox` is the sequence of `(connection, ServerMessage)` pushes.
  - Each command is one method call, since the handler's serial queue runs
    commands one at a time.
  - Fan-outs over the set are stated per recipient (`Inbox`) or as a multiset
    of targets. The set's iteration order is unspecified.
- **Messages and their codecs** (`chat_common.dfy`, `json.dfy`,
  `client_command_codec.dfy`, `server_message_codec.dfy`).
  - `ClientCommand` and `ServerMessage` are datatypes.
  - Their `Codable` conformances are functions to and from an abstract JSON
    value of the shape `{command, data}`.
- **Frame codecs** (`bytes.dfy`, `byte_buffer.dfy`,
  `framed_codec_completed.dfy`, `framed_codec_workshop.dfy`).
  - NIO's `ByteBuffer` is a class: written bytes plus a reader index.
  - Each `decode` is a method that updates the buffer in place.
  - Each `decode` is proved equal to a pure `DecodeStep` function.
  - A force-unwrapped `nil` slice is the outcome `Trapped`.
  - `frame_decoder.dfy` is the corrected decoder (see Findings).
- **Client state** (`chat_client.dfy`, `message_board.dfy`,
  `messages_view.dfy`).
  - `ChatClientService` is a class that sends frames and files server
    messages into message boards.
  - `MessageBoard` provides equality, hashing and sorting.
  - The `MessagesViewController` message list groups consecutive lines by
    sender.
- **Test predicates and scenarios** (`testing.dfy`).
  - `ServerMessage`'s order-insensitive test predicates.
  - Each server integration test is replayed against the registry model, with
    its assertions as postconditions.

Shared helpers:
- `sorting.dfy`: an insertion sort standing for the library `sorted`.
- `strings.dfy`: the `String` order.
- `wrappers.dfy`: `Option` and `Result`.

Where the specification and the code disagree, the model follows the code:
- The frame length is read and written as a signed `Int32`, not an unsigned
  integer.
- The finished decoder has no ceiling. The workshop decoder checks its ceiling
  against the buffered bytes, not the declared length. It fires
  `invalidFrameSizeDetected` and returns `needMoreData` rather than closing
  the connection.
- A `connect` from a connection that is already online is not rejected. The
  stored name is kept, and `Rooms` and `Users` are sent again.
- `Rooms` and `Users` are sorted with `String`'s own order, not a
  locale-aware one.
- The client's `message`/`privateMessage` record is `{to, text}`, with no
  `from`.

## Model

| member | source | states |
|---|---|---|
| ChatUsers.SameUser | Server/Sources/ChatServerLib/Model/ChatUser.swift:10-27 | `==` compares identities only and holds exactly when the `hash(into:)` inputs agree: equal users hash equally, whatever their names |
| ChatUsers.SameNameUnordered | Server/Sources/ChatServerLib/Model/ChatUser.swift:10-21 | two users with the same name on different connections are unequal, and neither is `<` the other |
| ChatUsers.UserSetIdentitiesUnique | Server/Sources/ChatServerLib/Model/ChatUser.swift:4-14 | the user set of a registry map never holds two distinct users that are `==` |
| ChatUsers.InsertMatchesMapUpdate | Server-completed/Sources/ChatServerLib/Handlers/ServerChatRoomsHandler.swift:77-79 | `Set.insert` of a new user is a map update; inserting an equal user keeps the stored name |
| ChatRooms.FanOutInbox | Server-completed/Sources/ChatServerLib/Handlers/ServerChatRoomsHandler.swift:104-110 | a fan-out over the online set gives each recipient the message exactly once and others nothing |
| ChatRooms.ConnectInbox | Server-completed/Sources/ChatServerLib/Handlers/ServerChatRoomsHandler.swift:77-84 | rooms then one user-list push gives the newcomer `[Rooms, Users]`, other online users `[Users]`, others nothing |
| ChatRooms.UsersListIsOnlineNames | Server-completed/Sources/ChatServerLib/Handlers/ServerChatRoomsHandler.swift:99-102 | the `Users` list is sorted ascending, has one entry per online connection, and holds exactly the online names |
| StringOrder.SortNames | Server-completed/Sources/ChatServerLib/Handlers/ServerChatRoomsHandler.swift:95-97 | `sorted()` returns a permutation of the names in ascending order |
| StringOrder.SortNamesIgnoresOrder | Server-completed/Sources/ChatServerLib/Handlers/ServerChatRoomsHandler.swift:99-102 | names gathered in any set order sort to the same list |
| ChatRooms.ServerChatRoomsHandler.constructor | Server-completed/Sources/ChatServerLib/Handlers/ServerChatRoomsHandler.swift:26-28 | starts with the given rooms, nobody online, nothing pushed |
| ChatRooms.ServerChatRoomsHandler.OnlineUser | Server-completed/Sources/ChatServerLib/Handlers/ServerChatRoomsHandler.swift:72-75 | finds a user iff one in the online set has this connection's identity, and returns that user |
| ChatRooms.ServerChatRoomsHandler.FirstNamed | Server-completed/Sources/ChatServerLib/Handlers/ServerChatRoomsHandler.swift:114 | finds a user iff some online user has the name, and returns an online user with that name |
| ChatRooms.ServerChatRoomsHandler.Push | Server-completed/Sources/ChatServerLib/Handlers/ServerChatRoomsHandler.swift:62-65 | appends one delivery to the outbox |
| ChatRooms.ServerChatRoomsHandler.ListRooms | Server-completed/Sources/ChatServerLib/Handlers/ServerChatRoomsHandler.swift:95-97 | pushes the sorted room list to one connection |
| ChatRooms.ServerChatRoomsHandler.ListUsers | Server-completed/Sources/ChatServerLib/Handlers/ServerChatRoomsHandler.swift:99-102 | the loop gathering names in set order pushes exactly the sorted online names |
| ChatRooms.ServerChatRoomsHandler.ListUsersToAll | Server-completed/Sources/ChatServerLib/Handlers/ServerChatRoomsHandler.swift:81-83 | pushes the user list once to each online connection and to no other |
| ChatRooms.ServerChatRoomsHandler.PushToAll | Server-completed/Sources/ChatServerLib/Handlers/ServerChatRoomsHandler.swift:109 | pushes the message once to each online connection and to no other |
| ChatRooms.ServerChatRoomsHandler.AddUser | Server-completed/Sources/ChatServerLib/Handlers/ServerChatRoomsHandler.swift:78-79 | `online.insert` adds the connection with its name only when it is not already online |
| ChatRooms.ServerChatRoomsHandler.SendConnectLists | Server-completed/Sources/ChatServerLib/Handlers/ServerChatRoomsHandler.swift:80-83 | the sorted rooms go to the newcomer first, then the user list once to each online connection |
| ChatRooms.ServerChatRoomsHandler.UserConnected | Server-completed/Sources/ChatServerLib/Handlers/ServerChatRoomsHandler.swift:77-84 | adds the user unless the connection is online; the newcomer receives rooms then users, every other online user the list |
| ChatRooms.ServerChatRoomsHandler.UserDisconnected | Server-completed/Sources/ChatServerLib/Handlers/ServerChatRoomsHandler.swift:86-93 | removes exactly that connection; the remaining users each receive the new list and the departing one nothing; no user means no change |
| ChatRooms.ServerChatRoomsHandler.Message | Server-completed/Sources/ChatServerLib/Handlers/ServerChatRoomsHandler.swift:104-110 | dropped unless the sender is online; otherwise each online user, sender included, receives it once under the sender's name, whatever the room |
| ChatRooms.ServerChatRoomsHandler.PrivateMessage | Server-completed/Sources/ChatServerLib/Handlers/ServerChatRoomsHandler.swift:112-120 | dropped unless sender and a user of that name are online; otherwise pushed to that user then to the sender, and nothing else |
| ChatRooms.ServerChatRoomsHandler.ChannelRead | Server-completed/Sources/ChatServerLib/Handlers/ServerChatRoomsHandler.swift:30-49 | dispatches each command; the online map changes only as connect/disconnect say, and chat lines from offline connections push nothing |
| ChatRooms.ServerChatRoomsHandler.ChannelInactive | Server-completed/Sources/ChatServerLib/Handlers/ServerChatRoomsHandler.swift:51-60 | behaves as `disconnect`, so a second close after a `disconnect` changes nothing |
| ClientCommandCodec.CmdFromRawValue | Server/Sources/ChatCommon/Model/ClientCommand+Codable.swift:9-11 | a tag is recognised iff it is exactly one of the four case names |
| ClientCommandCodec.Decode | Server/Sources/ChatCommon/Model/ClientCommand+Codable.swift:13-28 | only an object decodes; the decoded user name, or `to` and `text`, are exactly what `data` holds |
| ClientCommandCodec.Encode | Server/Sources/ChatCommon/Model/ClientCommand+Codable.swift:30-45 | writes the case name under `command`, `data` for all but `disconnect`, and decodes back to the same command |
| ClientCommandCodec.DecodedTagMatches | Server/Sources/ChatCommon/Model/ClientCommand+Codable.swift:13-28 | whatever decodes carries its own case name under `command` |
| ClientCommandCodec.UnknownCommandFails | Server/Sources/ChatCommon/Model/ClientCommand+Codable.swift:14-15 | an unknown tag fails whatever `data` holds |
| ClientCommandCodec.DataRequiredUnlessDisconnect | Server/Sources/ChatCommon/Model/ClientCommand+Codable.swift:16-26 | without `data` only `disconnect` decodes; the others fail with a missing key |
| ServerMessageCodec.CmdFromRawValue | Server-completed/Sources/ChatCommon/Model/ServerMessage+Codable.swift:9-11 | a tag is recognised iff it is exactly one of the six case names |
| ServerMessageCodec.Decode | Server-completed/Sources/ChatCommon/Model/ServerMessage+Codable.swift:13-34 | only an object decodes; the server name, the name list in order, or `from`/`to`/`text` are exactly what `data` holds, with `to` as the room and `from` as the user of a room line |
| ServerMessageCodec.Encode | Server-completed/Sources/ChatCommon/Model/ServerMessage+Codable.swift:36-57 | writes the case name, `{from: username, to: room, text}` for room lines, and decodes back to the same message with list order kept |
| ServerMessageCodec.DecodedTagMatches | Server-completed/Sources/ChatCommon/Model/ServerMessage+Codable.swift:13-34 | whatever decodes carries its own case name under `command` |
| ServerMessageCodec.MalformedMessagesFail | Server-completed/Sources/ChatCommon/Model/ServerMessage+Codable.swift:14-26 | an unknown tag, or a string where a list of rooms or users belongs, fails |
| ServerMessageCodec.RoomMessageRecordIsShared | Server-completed/Sources/ChatCommon/Model/ServerMessage+Codable.swift:67-71 | a server room message decodes as the client's `message` command with the room from `to` |
| Json.Container | Server-completed/Sources/ChatCommon/Model/ServerMessage+Codable.swift:14 | a keyed container exists iff the value is an object |
| Json.DecodeString | Server-completed/Sources/ChatCommon/Model/ServerMessage+Codable.swift:17 | succeeds iff the key holds a string, and returns that string |
| Json.DecodeStrings | Server-completed/Sources/ChatCommon/Model/ServerMessage+Codable.swift:22 | succeeds iff every element is a string, and returns them in order |
| Json.DecodeStringArray | Server-completed/Sources/ChatCommon/Model/ServerMessage+Codable.swift:22-25 | succeeds iff the key holds an array of strings only, and then the array is the encoding of the result |
| Json.StringsRoundTrip | Server-completed/Sources/ChatCommon/Model/ServerMessage+Codable.swift:44-49 | an encoded string list decodes to the same list in the same order |
| Bytes.AsInt32 | Server-completed/Sources/ChatServerLib/Handlers/FramedMessageCodec.swift:19 | the `Int32` reading of four bytes is in range, negative iff the top bit is set, and agrees modulo 2^32 |
| Bytes.Int32Bytes | Server/Sources/ChatServerLib/Encoders-Decoders/FramedMessageCodec.swift:19 | `writeInteger(Int32(n), endianness: .big)` writes four bytes that read back as `n` |
| Buffers.Frame | Server-completed/Sources/ChatServerLib/Handlers/FramedMessageCodec.swift:29-34 | a frame is four header bytes declaring the payload length, then the payload |
| Buffers.ByteBuffer.GetInt32 | Server-completed/Sources/ChatServerLib/Handlers/FramedMessageCodec.swift:19 | peeks an `Int32` iff four bytes are written at the index |
| Buffers.ByteBuffer.ReadInt32 | Server/Sources/ChatServerLib/Encoders-Decoders/FramedMessageCodec.swift:37 | reads and consumes an `Int32` iff four bytes are readable |
| Buffers.ByteBuffer.MoveReaderIndex | Server-completed/Sources/ChatServerLib/Handlers/FramedMessageCodec.swift:22 | moves the reader index within the written bytes |
| Buffers.ByteBuffer.ReadSlice | Server-completed/Sources/ChatServerLib/Handlers/FramedMessageCodec.swift:23 | returns and consumes the next `length` bytes iff `0 <= length <= readable` |
| Buffers.ByteBuffer.Clear | Server/Sources/ChatServerLib/Encoders-Decoders/FramedMessageCodec.swift:44 | empties the buffer |
| Buffers.ByteBuffer.WriteInt32 | Server/Sources/ChatServerLib/Encoders-Decoders/FramedMessageCodec.swift:19 | appends the four big-endian bytes of the value |
| Buffers.ByteBuffer.WriteBytes | Server/Sources/ChatServerLib/Encoders-Decoders/FramedMessageCodec.swift:20-22 | appends the bytes unchanged |
| FramedCodecCompleted.DecodeStep | Server-completed/Sources/ChatServerLib/Handlers/FramedMessageCodec.swift:18-25 | decode never changes the bytes or rewinds the reader, stays within the written bytes unless it traps, and fires a frame exactly when it returns `.continue` |
| FramedCodecCompleted.Decode | Server-completed/Sources/ChatServerLib/Handlers/FramedMessageCodec.swift:18-25 | the in-place decode leaves the buffer, outcome and events that `DecodeStep` describes |
| FramedCodecCompleted.Encode | Server-completed/Sources/ChatServerLib/Handlers/FramedMessageCodec.swift:29-34 | appends exactly the frame of the readable payload |
| FramedCodecCompleted.NeedMoreDataConsumesNothing | Server-completed/Sources/ChatServerLib/Handlers/FramedMessageCodec.swift:19-21 | `needMoreData` iff fewer than four bytes are written or fewer bytes than declared are readable; then nothing is consumed or fired |
| FramedCodecCompleted.TrapWindow | Server-completed/Sources/ChatServerLib/Handlers/FramedMessageCodec.swift:19-23 | traps iff the guard passes but the bytes after the header fall short, or the size is negative |
| FramedCodecCompleted.ContinueEmitsFrame | Server-completed/Sources/ChatServerLib/Handlers/FramedMessageCodec.swift:22-24 | on `.continue` the reader moves by 4 + size and exactly the bytes after the header are emitted |
| FramedCodecCompleted.RoundTrip | Server-completed/Sources/ChatServerLib/Handlers/FramedMessageCodec.swift:18-34 | a buffer holding one encoded frame decodes to its payload and is left fully read |
| FramedCodecCompleted.PartialFrameTraps | Server-completed/Sources/ChatServerLib/Handlers/FramedMessageCodec.swift:19-23 | a header announcing 10 bytes followed by 8 traps |
| FramedCodecCompleted.StaleHeaderMisframes | Server-completed/Sources/ChatServerLib/Handlers/FramedMessageCodec.swift:19 | two frames in one buffer: the second is cut to the first's length and the leftover byte traps |
| FramedCodecCompleted.NegativeSizeTraps | Server-completed/Sources/ChatServerLib/Handlers/FramedMessageCodec.swift:19-23 | a negative declared size passes the guard and traps |
| FramedCodecWorkshop.DecodeStep | Server/Sources/ChatServerLib/Encoders-Decoders/FramedMessageCodec.swift:36-51 | decode either keeps the bytes and never rewinds the reader, or clears the buffer and reports `invalidFrameSizeDetected`; it fires at most one event |
| FramedCodecWorkshop.Decode | Server/Sources/ChatServerLib/Encoders-Decoders/FramedMessageCodec.swift:36-51 | the in-place decode leaves the buffer, outcome and events that `DecodeStep` describes |
| FramedCodecWorkshop.DecodeLast | Server/Sources/ChatServerLib/Encoders-Decoders/FramedMessageCodec.swift:53-55 | returns `.continue` |
| FramedCodecWorkshop.Encode | Server/Sources/ChatServerLib/Encoders-Decoders/FramedMessageCodec.swift:18-23 | appends exactly the frame of the readable payload |
| FramedCodecWorkshop.ShortHeaderConsumesNothing | Server/Sources/ChatServerLib/Encoders-Decoders/FramedMessageCodec.swift:37-39 | fewer than four readable bytes: `needMoreData`, nothing consumed |
| FramedCodecWorkshop.IncompleteBodyConsumesHeader | Server/Sources/ChatServerLib/Encoders-Decoders/FramedMessageCodec.swift:37-39 | a header with too few bytes after it: `needMoreData` with the header consumed |
| FramedCodecWorkshop.CeilingMeasuresBufferedBytes | Server/Sources/ChatServerLib/Encoders-Decoders/FramedMessageCodec.swift:37-47 | cleared with an error iff the declared frame is buffered and at least 2,000,000 bytes follow the header |
| FramedCodecWorkshop.ContinueEmitsFrame | Server/Sources/ChatServerLib/Encoders-Decoders/FramedMessageCodec.swift:49-50 | on `.continue` exactly the declared bytes after the header are emitted and consumed |
| FramedCodecWorkshop.RoundTrip | Server/Sources/ChatServerLib/Encoders-Decoders/FramedMessageCodec.swift:18-50 | one encoded frame decodes to its payload below the ceiling and is dropped with an error at or above it |
| FramedCodecWorkshop.SplitFrameLosesHeader | Server/Sources/ChatServerLib/Encoders-Decoders/FramedMessageCodec.swift:37 | a frame split after six bytes loses its header and decodes as an empty frame |
| FramedCodecWorkshop.HugeDeclaredSizeWaits | Server/Sources/ChatServerLib/Encoders-Decoders/FramedMessageCodec.swift:43 | a header declaring 2,000,000,000 bytes is not rejected; the call waits |
| FramedCodecWorkshop.NegativeSizeTraps | Server/Sources/ChatServerLib/Encoders-Decoders/FramedMessageCodec.swift:37-49 | a negative declared size below the ceiling traps at the slice |
| FrameDecoder.DecodeStep | Server/Sources/ChatServerLib/Encoders-Decoders/FramedMessageCodec.swift:36-51 | the corrected decode never traps, whatever the bytes; on `.continue` it keeps the bytes, advances the reader index within them and emits exactly one frame |
| FrameDecoder.Decode | Server/Sources/ChatServerLib/Encoders-Decoders/FramedMessageCodec.swift:36-51 | the in-place corrected decode matches `DecodeStep` |
| FrameDecoder.OversizeRejected | Server/Sources/ChatServerLib/Encoders-Decoders/FramedMessageCodec.swift:41-47 | a negative or too-large declared size is rejected as soon as the header is readable |
| FrameDecoder.FrameAtReaderIndex | Server-completed/Sources/ChatServerLib/Handlers/FramedMessageCodec.swift:18-25 | a frame at the reader index decodes to its payload whatever surrounds it |
| FrameDecoder.PrefixWaits | Server/Sources/ChatServerLib/Encoders-Decoders/FramedMessageCodec.swift:37-39 | any proper prefix of a frame consumes and emits nothing |
| FrameDecoder.DrainFrames | Server-completed/Sources/ChatServerLib/Handlers/FramedMessageCodec.swift:18-25 | frames sent back to back are emitted one by one, in order, and nothing else |
| ChatClient.EncodeFrameHeader | iOS-completed/ChatClient/Model/ChatClientService.swift:206-210 | four bytes whose big-endian value is the size |
| ChatClient.DecodeFrameHeader | iOS-completed/ChatClient/Model/ChatClientService.swift:212-218 | the at most four received bytes, read big-endian with missing low bytes zero, give a size that fits in 32 bits |
| ChatClient.FrameHeaderRoundTrip | iOS-completed/ChatClient/Model/ChatClientService.swift:206-218 | decoding an encoded header gives the size back |
| ChatClient.FrameHeaderOnto | iOS-completed/ChatClient/Model/ChatClientService.swift:212-218 | every four bytes are the encoding of their decoded size |
| ChatClient.ClientFrameIsServerFrame | iOS-completed/ChatClient/Model/ChatClientService.swift:111-135 | header plus JSON is exactly the server's frame of the JSON |
| ChatClient.BoardCommand | iOS/ChatClient/Model/ChatClientService.swift:69-77 | a room board sends `message` to the room, a user board `privateMessage` to the user |
| ChatClient.FiledUnder | iOS-completed/ChatClient/Model/ChatClientService.swift:270-281 | only `message` and `privateMessage` are filed, and a room line goes under its own room |
| ChatClient.FiledUnderParty | iOS-completed/ChatClient/Model/ChatClientService.swift:276-281 | a private line goes under a user board naming the party that is not the local user, or `to` when one writes to oneself |
| ChatClient.AppendTo | iOS-completed/ChatClient/Model/ChatClientService.swift:270-274 | appends the line at the end of the board, creating it if absent, other boards unchanged |
| ChatClient.AddMissingKeepsContents | iOS-completed/ChatClient/Model/ChatClientService.swift:254-268 | listing names adds exactly the missing boards, empty, and keeps every existing board |
| ChatClient.Processed | iOS-completed/ChatClient/Model/ChatClientService.swift:244-283 | processing never drops a board, and a board's lines only grow at the end |
| ChatClient.ProcessedFilesLines | iOS/ChatClient/Model/ChatClientService.swift:79-118 | a chat line is appended to its board only; other messages add no lines |
| ChatClient.EchoFiledUnderSameBoard | iOS-completed/ChatClient/Model/ChatClientService.swift:270-281 | the server's echo of a sent line is filed under the board it was written on |
| ChatClient.PrivateMessageFiledUnderSender | iOS-completed/ChatClient/Model/ChatClientService.swift:276-281 | the recipient files a private line under the sender's board |
| ChatClient.ChatClientService.constructor | iOS-completed/ChatClient/Model/ChatClientService.swift:26-33 | starts logged out, with no boards, no connection, nothing sent |
| ChatClient.ChatClientService.Connect | iOS-completed/ChatClient/Model/ChatClientService.swift:41 | a connection is set |
| ChatClient.ChatClientService.Send | iOS-completed/ChatClient/Model/ChatClientService.swift:102-140 | sends the header for the JSON length, then the JSON, and nothing without a connection |
| ChatClient.ChatClientService.SendMessage | iOS-completed/ChatClient/Model/ChatClientService.swift:234-242 | sends the board's command framed as `send` does |
| ChatClient.ChatClientService.Process | iOS-completed/ChatClient/Model/ChatClientService.swift:244-283 | `connected`/`disconnected` set `loggedIn`; the boards become the filed result |
| MessageBoards.DisplayName | iOS-completed/ChatClient/Model/MessageBoard.swift:8-13 | the name carried by either case |
| MessageBoards.IsRoom | iOS-completed/ChatClient/Model/MessageBoard.swift:15-20 | true iff the board is a room |
| MessageBoards.Equal | iOS-completed/ChatClient/Model/MessageBoard.swift:23-32 | true iff same case and same name |
| MessageBoards.HashKey | iOS-completed/ChatClient/Model/MessageBoard.swift:34-41 | the hash input is the display name |
| MessageBoards.HashConsistentWithEquality | iOS-completed/ChatClient/Model/MessageBoard.swift:23-41 | equal boards hash equally; a room and a user of one name collide but differ |
| MessageBoards.SortedByDisplayName | iOS-completed/ChatClient/Model/MessageBoard.swift:43-47 | the result is a permutation of the boards |
| MessageBoards.SortedByDisplayNameIsSorted | iOS-completed/ChatClient/Model/MessageBoard.swift:43-47 | no board's name is ascending before an earlier board's |
| MessagesView.FirstNamed | iOS-completed/ChatClient/Controllers/MessagesViewController.swift:85 | finds a user with the name iff one exists |
| MessagesView.SenderResolution | iOS-completed/ChatClient/Controllers/MessagesViewController.swift:81-91 | sender is `myself` on a match, else the existing or a new entry; `others` keeps distinct names |
| MessagesView.AddToGroupsFlatten | iOS-completed/ChatClient/Controllers/MessagesViewController.swift:94-99 | the line is added at the end; only the last group changes or a new one is added |
| MessagesView.AddToGroupsWellGrouped | iOS-completed/ChatClient/Controllers/MessagesViewController.swift:94-99 | groups stay non-empty and single-sender, and adjacent groups differ |
| MessagesView.IdsIncreasingAppend | iOS-completed/ChatClient/Controllers/MessagesViewController.swift:79-80 | taking the next id keeps ids strictly increasing |
| MessagesView.AppendKeepsGood | iOS-completed/ChatClient/Controllers/MessagesViewController.swift:78-100 | one append keeps the invariants, consumes one id, and shows one more line |
| MessagesView.ReplayShowsContents | iOS-completed/ChatClient/Controllers/MessagesViewController.swift:38-45 | replaying a board shows its lines in order and keeps the invariants |
| MessagesView.ShownOnlyOnItsBoard | iOS-completed/ChatClient/Controllers/MessagesViewController.swift:55-74 | room lines only on their room, private lines only on a party's board, nothing else |
| MessagesView.ShownAgreesWithFiling | iOS-completed/ChatClient/Controllers/MessagesViewController.swift:62-73 | a line the client files under a board is shown on a view of that board |
| MessagesView.MessagesViewController.constructor | iOS-completed/ChatClient/Controllers/MessagesViewController.swift:17-25 | no users, no lines, next id 1, no board |
| MessagesView.MessagesViewController.ResolveSender | iOS-completed/ChatClient/Controllers/MessagesViewController.swift:81-91 | the sender and the new `others` are those `SenderResolution` characterises |
| MessagesView.MessagesViewController.AddLine | iOS-completed/ChatClient/Controllers/MessagesViewController.swift:94-99 | the groups become `AddToGroups` of the old ones, which `AddToGroupsFlatten` and `AddToGroupsWellGrouped` characterise |
| MessagesView.MessagesViewController.AppendMessage | iOS-completed/ChatClient/Controllers/MessagesViewController.swift:78-100 | the new state is `Append` of the old one, and the invariant holds |
| MessagesView.MessagesViewController.Configure | iOS-completed/ChatClient/Controllers/MessagesViewController.swift:38-45 | lines reset and the board replayed; `others` and `nextMessageID` carry over |
| MessagesView.MessagesViewController.ProcessServerMessage | iOS-completed/ChatClient/Controllers/MessagesViewController.swift:55-74 | appends exactly the line shown on the board, else no change |
| ServerMessageTesting.IsConnected | Server/Tests/ChatServerTests/ServerMessage+Testing.swift:6-9 | true iff the message is `connected` |
| ServerMessageTesting.IsDisconnected | Server/Tests/ChatServerTests/ServerMessage+Testing.swift:11-14 | true iff the message is `disconnected` |
| ServerMessageTesting.IsRoomsList | Server/Tests/ChatServerTests/ServerMessage+Testing.swift:16-21 | true iff a rooms list naming the same set, order and duplicates aside |
| ServerMessageTesting.IsUsersList | Server/Tests/ChatServerTests/ServerMessage+Testing.swift:23-28 | true iff a users list naming the same set; false for other cases |
| ServerMessageTesting.UsersListPasses | Server/Tests/ChatServerTests/ChatServerTests.swift:34-41 | the registry's list passes `isUsersList` iff the arguments name exactly the online users |
| ServerMessageTesting.TestConnect | Server/Tests/ChatServerTests/ChatServerTests.swift:26-32 | Jim receives exactly the sorted rooms, then `Users(["Jim"])` |
| ServerMessageTesting.TestConnectTwoClients | Server/Tests/ChatServerTests/ChatServerTests.swift:34-41 | John receives two messages: the rooms and a list naming Jim and John |
| ServerMessageTesting.TestMessageInRoom | Server/Tests/ChatServerTests/ChatServerTests.swift:43-51 | Jim receives his own room line back, signed by him |
| ServerMessageTesting.TestMessageInRoomBroadcast | Server/Tests/ChatServerTests/ChatServerTests.swift:53-70 | Jim's update names both users; John's line reaches both |
| ServerMessageTesting.TestPrivateMessage | Server/Tests/ChatServerTests/ChatServerTests.swift:72-87 | Jim and John each receive the private line once |
| ServerMessageTesting.TestDisconnectUpdate | Server/Tests/ChatServerTests/ChatServerTests.swift:89-101 | after Jim's `disconnect`, John receives `[Users(["John"])]` |
| ServerMessageTesting.TestDisconnectWithoutClientNotifying | Server/Tests/ChatServerTests/ChatServerTests.swift:103-114 | after Jim's connection closes, John receives `[Users(["John"])]` |

## Left out

- Concurrency and NIO plumbing in the registry are out: the `syncQueue` dispatch, the pass-through `fireChannelRead`/`fireChannelInactive`, and `writeAndFlush` in `push`. Commands are serialised, so each is one method call, and `push` appends to `outbox`.
- ChatRooms.ServerChatRoomsHandler.ChannelRead: states the registry change and that the outbox only grows. What each command delivers is stated by the method it dispatches to (`UserConnected`, `UserDisconnected`, `Message`, `PrivateMessage`).
- ChatRooms.ServerChatRoomsHandler.PrivateMessage: states the two deliveries by position in the outbox, not through `Inbox`.
- `Set<ChatUser>` iteration order is not modelled: loops pick an arbitrary remaining member, and fan-outs are stated per recipient.
- A `ChatUser`'s `channel` is its connection identity: the model names a channel by its identifier.
- `localizedCompare` depends on the locale. It is a parameter relation `ascending` (for `ChatUser`'s `<` and `sortedByDisplayName`).
- `String`'s `<` is modelled as lexicographic order on characters, without Unicode canonical equivalence.
- JSON text and `JSONEncoder`/`JSONDecoder` are a foreign library. The codecs work on an abstract JSON value, and the client's encoder is the function parameter `jsonText`. The `catch` of a failing encode is not modelled, since encoding these values does not fail.
- The `RoomAndUsername` record in `ServerMessage+Codable.swift` is unused and not modelled.
- The following NIO `ByteBuffer` internals are not modelled:
  - capacity and growth;
  - the cumulation buffer;
  - compaction between calls;
  - the `ByteToMessageDecoder` loop that calls `decode` while it returns `.continue`.
  `getInteger(at:)` is bounded by the written bytes. The loop is modelled only for the corrected decoder (`FrameDecoder.Drain`).
- A force-unwrap that fails stops the process. The model represents this as the outcome `Trapped`, with the buffer as it was at that point.
- The workshop decoder's `fireErrorCaught` is an event in the step's result. Closing the connection in response is left to the pipeline and not modelled.
- Client networking is not modelled: `connect` beyond setting the connection, `disconnect`, `setupConnectionStateHandler`, `readNextMessage`, `processFrameContents` and the main-queue notification. Of `send`, only the order of the two chunks is kept.
- The workshop client's `send`, `sendFramed`, `sendUnframed`, `connect` and read functions are unimplemented stubs. Its `sendMessage` and `process(message:)` are the same code as the finished client's, and are modelled by the same members.
- ChatClient.DecodeFrameHeader: requires at most four bytes. `copyBytes` into the four-byte `frameSize` would write past it for longer data. The only caller, `receive(minimumIncompleteLength: 4, maximumLength: 4)`, never delivers more.
- `encodeFrameHeader`'s `UInt32(size)` traps outside 0..2^32-1. This is a precondition, and so is `Int32(data.readableBytes)` in both frame encoders.
- The view controller's UI is not modelled: titles, `reloadData`, the send callback, avatars, `Date()` timestamps, and message bodies other than text.
- The integration tests run over sockets. Their scenarios call the handler operation that `channelRead` dispatches the test's command to. Each client's `expect`/`skip` becomes the slice of the outbox it reads.

## Findings

| source | as written | input that shows it | evidently intended | confidence | as-written member | corrected member |
|---|---|---|---|---|---|---|
| Server-completed/Sources/ChatServerLib/Handlers/FramedMessageCodec.swift:19 | the guard compares all readable bytes, header included, with the declared size, then force-unwraps a slice of that size taken after the header | a header declaring 10 followed by 8 bytes (12 readable) | wait until header plus body are buffered | not executed; high | FramedCodecCompleted.PartialFrameTraps | FrameDecoder.PrefixWaits |
| Server-completed/Sources/ChatServerLib/Handlers/FramedMessageCodec.swift:19 | the size is read at absolute index 0, not at the reader index, so a second frame in the same buffer is cut to the first frame's length | `Frame([1]) + Frame([2, 3])` in one read: emits `[1]`, then `[2]`, then traps on the leftover byte | read each header at the reader index | not executed; medium (depends on the buffer not being compacted between calls) | FramedCodecCompleted.StaleHeaderMisframes | FrameDecoder.DrainFrames |
| Server-completed/Sources/ChatServerLib/Handlers/FramedMessageCodec.swift:23 | a negative declared size passes the guard and the slice traps | a header `FF FF FF FF` followed by anything | reject a negative size | not executed; medium | FramedCodecCompleted.NegativeSizeTraps | FrameDecoder.OversizeRejected |
| Server/Sources/ChatServerLib/Encoders-Decoders/FramedMessageCodec.swift:37 | `readInteger` consumes the header before the body is known to be complete, so the next call reads payload bytes as a header | the first 6 bytes of a frame of 10 zero bytes, then the rest: the second call emits an empty frame | consume the header only with its body | not executed; high | FramedCodecWorkshop.SplitFrameLosesHeader | FrameDecoder.PrefixWaits |
| Server/Sources/ChatServerLib/Encoders-Decoders/FramedMessageCodec.swift:43 | the ceiling is checked against buffered bytes once the declared frame is complete, so a huge declared size just waits | a header declaring 2,000,000,000 followed by 10 bytes | reject the declared size as soon as the header is read | not executed; high | FramedCodecWorkshop.HugeDeclaredSizeWaits | FrameDecoder.OversizeRejected |
| Server/Sources/ChatServerLib/Encoders-Decoders/FramedMessageCodec.swift:49 | a negative declared size passes both guards and the slice traps | a header `FF FF FF FF` followed by fewer than 2,000,000 bytes | reject a negative size | not executed; medium | FramedCodecWorkshop.NegativeSizeTraps | FrameDecoder.DecodeStep |
