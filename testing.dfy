/** The server tests' view of the relay: the `ServerMessage` predicates they
    assert with, and their scenarios replayed against the registry model.
    Each scenario calls the handler operation that `channelRead` dispatches
    the test's command to, and returns what one connection has received
    since the point where the test starts reading it. */
module ServerMessageTesting {

  import opened ChatCommon
  import opened ChatUsers
  import opened StringOrder
  import opened Sorting
  import opened ChatRooms

  /** `isConnected`. */
  predicate IsConnected(m: ServerMessage)
    ensures IsConnected(m) <==> exists to :: m == Connected(to)
  {
    m.Connected?
  }

  /** `isDisconnected`. */
  predicate IsDisconnected(m: ServerMessage)
    ensures IsDisconnected(m) <==> m == Disconnected
  {
    m.Disconnected?
  }

  /** `Set(a) == Set(b)`: the two lists name the same strings. */
  lemma SameNames(a: seq<string>, b: seq<string>)
    ensures (set n | n in a) == (set n | n in b) <==> forall n :: n in a <==> n in b
  {
    var sa, sb := set n | n in a, set n | n in b;
    if sa == sb {
      forall x ensures x in a <==> x in b {
        assert x in a <==> x in sa;
        assert x in b <==> x in sb;
      }
    }
  }

  /** `isRoomsList(_:)`: a room list naming the same set of rooms, order and
      repetitions aside. */
  function IsRoomsList(m: ServerMessage, rooms: seq<string>): (r: bool)
    ensures r <==> m.Rooms? && forall n :: n in rooms <==> n in m.names
  {
    match m
    case Rooms(names) => SameNames(rooms, names); (set n | n in rooms) == (set n | n in names)
    case _ => false
  }

  /** `isUsersList(_:)`: a user list naming the same set of users. */
  function IsUsersList(m: ServerMessage, users: seq<string>): (r: bool)
    ensures r <==> m.Users? && forall n :: n in users <==> n in m.names
  {
    match m
    case Users(names) => SameNames(users, names); (set n | n in users) == (set n | n in names)
    case _ => false
  }

  /** The list the registry sends passes `isUsersList` exactly for the
      argument lists naming the online users, in any order. */
  lemma UsersListPasses(online: map<ConnId, string>, users: seq<string>)
    ensures IsUsersList(Users(UsersList(online)), users) <==>
      forall n :: n in users <==> exists c :: c in online && online[c] == n
  {
    UsersListIsOnlineNames(online);
  }

  /** One online user: the list is that user's name alone. */
  lemma UsersListSingle(c: ConnId, name: string)
    ensures UsersList(map[c := name]) == [name]
  {
    var online := map[c := name];
    UsersListIsOnlineNames(online);
    assert |online| == 1;
    var l := UsersList(online);
    assert l[0] in l;
  }

  /** The test server's rooms are already in order. */
  lemma TestRoomsSorted()
    ensures SortNames(["room1", "room2"]) == ["room1", "room2"]
  {
    var rooms := ["room1", "room2"];
    assert !StringLess("room2", "room1") by {
      assert "room2"[1..] == "oom2" && "room1"[1..] == "oom1";
      assert "oom2"[1..] == "om2" && "oom1"[1..] == "om1";
      assert "om2"[1..] == "m2" && "om1"[1..] == "m1";
      assert "m2"[1..] == "2" && "m1"[1..] == "1";
    }
    assert SortedBy(rooms, StringLess);
    StringLessIsStrictTotal();
    SortedUnique(SortNames(rooms), rooms, StringLess);
  }

  /** `testConnect`: Jim connects and receives the sorted rooms and a user
      list holding only himself, and nothing else. */
  method TestConnect() returns (result: seq<ServerMessage>)
    ensures result == [Rooms(["room1", "room2"]), Users(["Jim"])]
    ensures Rooms(["room1", "room2"]) in result && Users(["Jim"]) in result
  {
    var server := new ServerChatRoomsHandler(["room1", "room2"]);
    server.UserConnected("Jim", 1);
    TestRoomsSorted();
    UsersListSingle(1, "Jim");
    assert server.outbox[0..] == server.outbox;
    result := Inbox(server.outbox, 1);
  }

  /** A server with rooms `room1` and `room2` where Jim has connected on
      connection 1; connection 2 has received nothing. */
  method JimJoins() returns (server: ServerChatRoomsHandler)
    ensures fresh(server)
    ensures server.rooms == ["room1", "room2"] && server.online == map[1 := "Jim"]
    ensures Inbox(server.outbox, 2) == []
  {
    server := new ServerChatRoomsHandler(["room1", "room2"]);
    server.UserConnected("Jim", 1);
    assert server.outbox[0..] == server.outbox;
  }

  /** John connects on connection 2 while Jim is online: John receives the
      rooms and the user list, Jim the user list only. */
  method JohnJoins(server: ServerChatRoomsHandler)
    requires server.rooms == ["room1", "room2"] && server.online == map[1 := "Jim"]
    modifies server
    ensures server.online == map[1 := "Jim", 2 := "John"]
    ensures old(server.outbox) <= server.outbox
    ensures Inbox(server.outbox[|old(server.outbox)|..], 2) == [Rooms(["room1", "room2"]), Users(UsersList(server.online))]
    ensures Inbox(server.outbox[|old(server.outbox)|..], 1) == [Users(UsersList(server.online))]
  {
    TestRoomsSorted();
    server.UserConnected("John", 2);
  }

  /** The common opening of the later tests: Jim connects on connection 1,
      then John on connection 2. `jimRead` marks where Jim stops reading after
      his own two messages. */
  method JimThenJohn() returns (server: ServerChatRoomsHandler, jimRead: nat)
    ensures fresh(server)
    ensures server.online == map[1 := "Jim", 2 := "John"]
    ensures Inbox(server.outbox, 2) == [Rooms(["room1", "room2"]), Users(UsersList(server.online))]
    ensures jimRead <= |server.outbox|
    ensures Inbox(server.outbox[jimRead..], 1) == [Users(UsersList(server.online))]
  {
    server := JimJoins();
    jimRead := |server.outbox|;
    ghost var o1 := server.outbox;
    JohnJoins(server);
    assert server.outbox == o1 + server.outbox[jimRead..];
    InboxAppend(o1, server.outbox[jimRead..], 2);
  }

  /** `testConnectTwoClients`: the second client receives the rooms and a user
      list naming both clients. */
  method TestConnectTwoClients() returns (result2: seq<ServerMessage>)
    ensures |result2| == 2
    ensures Rooms(["room1", "room2"]) in result2
    ensures exists m :: m in result2 && IsUsersList(m, ["Jim", "John"])
  {
    var server, _ := JimThenJohn();
    result2 := Inbox(server.outbox, 2);
    UsersListPasses(server.online, ["Jim", "John"]);
    assert result2[1] in result2 && IsUsersList(result2[1], ["Jim", "John"]);
  }

  /** `testMessageInRoom`: after its two connection messages, Jim receives his
      own room message back, signed with his name. */
  method TestMessageInRoom() returns (broadcast: seq<ServerMessage>)
    ensures broadcast == [ServerMessage.Message("room1", "Jim", "Hello, world")]
  {
    var server := new ServerChatRoomsHandler(["room1", "room2"]);
    server.UserConnected("Jim", 1);
    var skip := |server.outbox|;
    server.Message("room1", "Hello, world", 1);
    broadcast := Inbox(server.outbox[skip..], 1);
  }

  /** With Jim and John online, John says "Hello, world" in `room1`: both
      receive the line once, signed with John's name. */
  method JohnSaysHello(server: ServerChatRoomsHandler)
    requires server.online == map[1 := "Jim", 2 := "John"]
    modifies server
    ensures old(server.outbox) <= server.outbox
    ensures Inbox(server.outbox[|old(server.outbox)|..], 1) == [ServerMessage.Message("room1", "John", "Hello, world")]
    ensures Inbox(server.outbox[|old(server.outbox)|..], 2) == [ServerMessage.Message("room1", "John", "Hello, world")]
  {
    server.Message("room1", "Hello, world", 2);
  }

  /** `testMessageInRoomBroadcast`: Jim's next message after John connects is
      the list of both users; John's room message then reaches both, signed
      with John's name. */
  method TestMessageInRoomBroadcast() returns (update: seq<ServerMessage>, broadcast1: seq<ServerMessage>, broadcast2: seq<ServerMessage>)
    ensures |update| == 1 && IsUsersList(update[0], ["Jim", "John"])
    ensures broadcast1 == [ServerMessage.Message("room1", "John", "Hello, world")]
    ensures broadcast2 == [ServerMessage.Message("room1", "John", "Hello, world")]
  {
    var server, jimRead := JimThenJohn();
    update := Inbox(server.outbox[jimRead..], 1);
    UsersListPasses(server.online, ["Jim", "John"]);
    var skip := |server.outbox|;
    JohnSaysHello(server);
    broadcast1 := Inbox(server.outbox[skip..], 1);
    broadcast2 := Inbox(server.outbox[skip..], 2);
  }

  /** `testPrivateMessage`: Jim's private message to John reaches both of them
      and no one else. */
  method TestPrivateMessage() returns (jimReceived: seq<ServerMessage>, johnReceived: seq<ServerMessage>)
    ensures jimReceived == [ServerMessage.PrivateMessage("Jim", "John", "Hello John")]
    ensures johnReceived == [ServerMessage.PrivateMessage("Jim", "John", "Hello John")]
  {
    var server, _ := JimThenJohn();
    var skip := |server.outbox|;
    assert server.HasUserNamed("John") by {
      assert 2 in server.online && server.online[2] == "John";
    }
    server.PrivateMessage("John", "Hello John", 1);
    var pm := ServerMessage.PrivateMessage("Jim", "John", "Hello John");
    assert server.outbox[skip..] == [Delivery(2, pm)] + [Delivery(1, pm)];
    InboxAppend([Delivery(2, pm)], [Delivery(1, pm)], 1);
    InboxAppend([Delivery(2, pm)], [Delivery(1, pm)], 2);
    jimReceived := Inbox(server.outbox[skip..], 1);
    johnReceived := Inbox(server.outbox[skip..], 2);
  }

  /** Jim leaves, by `disconnect` or by closing his connection (`closed`):
      John, left alone online, receives the list holding only himself. */
  method JimLeaves(server: ServerChatRoomsHandler, closed: bool)
    requires server.online == map[1 := "Jim", 2 := "John"]
    modifies server
    ensures old(server.outbox) <= server.outbox
    ensures Inbox(server.outbox[|old(server.outbox)|..], 2) == [Users(["John"])]
  {
    UsersListSingle(2, "John");
    assert server.online - {1} == map[2 := "John"];
    if closed {
      server.ChannelInactive(1);
    } else {
      server.UserDisconnected(1);
    }
  }

  /** `testDisconnectUpdate`: when Jim sends `disconnect`, John receives the
      list holding only himself. */
  method TestDisconnectUpdate() returns (johnReceived: seq<ServerMessage>)
    ensures johnReceived == [Users(["John"])]
  {
    var server, _ := JimThenJohn();
    var skip := |server.outbox|;
    JimLeaves(server, false);
    johnReceived := Inbox(server.outbox[skip..], 2);
  }

  /** `testDisconnectWithoutClientNotifying`: when Jim's connection closes
      without a `disconnect`, John receives the same update. */
  method TestDisconnectWithoutClientNotifying() returns (johnReceived: seq<ServerMessage>)
    ensures johnReceived == [Users(["John"])]
  {
    var server, _ := JimThenJohn();
    var skip := |server.outbox|;
    JimLeaves(server, true);
    johnReceived := Inbox(server.outbox[skip..], 2);
  }
}
