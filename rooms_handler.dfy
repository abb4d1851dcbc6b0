/** `ServerChatRoomsHandler`: the registry of online users and the fixed room
    list, which turns each client command into a change of the online set and
    a list of messages pushed to connections. Commands run one at a time (the
    handler's serial queue), so each is one method call here; `push` appends
    to `outbox` instead of writing to the channel. */
module ChatRooms {

  import opened Wrappers
  import opened ChatCommon
  import opened ChatUsers
  import opened StringOrder
  import opened Sorting

  /** One `push(_:to:)`: a message and the connection it is written to. */
  datatype Delivery = Delivery(to: ConnId, msg: ServerMessage)

  function Targets(ds: seq<Delivery>): (t: seq<ConnId>)
    ensures |t| == |ds| && forall i :: 0 <= i < |ds| ==> t[i] == ds[i].to
  {
    seq(|ds|, i requires 0 <= i < |ds| => ds[i].to)
  }

  /** What connection `c` receives from `ds`, in order. */
  function Inbox(ds: seq<Delivery>, c: ConnId): seq<ServerMessage> {
    if ds == [] then []
    else (if ds[0].to == c then [ds[0].msg] else []) + Inbox(ds[1..], c)
  }

  lemma {:induction false} InboxAppend(a: seq<Delivery>, b: seq<Delivery>, c: ConnId)
    ensures Inbox(a + b, c) == Inbox(a, c) + Inbox(b, c)
  {
    if a == [] {
      assert a + b == b;
    } else {
      var head := if a[0].to == c then [a[0].msg] else [];
      assert (a + b)[0] == a[0] && (a + b)[1..] == a[1..] + b;
      assert Inbox(a + b, c) == head + Inbox(a[1..] + b, c);
      InboxAppend(a[1..], b, c);
      assert Inbox(a, c) == head + Inbox(a[1..], c);
    }
  }

  /** `msg` pushed exactly once to each of `recipients` and to no one else, in
      an unspecified order (the iteration order of a Swift `Set`). */
  ghost predicate IsFanOut(ds: seq<Delivery>, recipients: set<ConnId>, msg: ServerMessage) {
    && (forall i :: 0 <= i < |ds| ==> ds[i].msg == msg)
    && multiset(Targets(ds)) == multiset(recipients)
  }

  /** Each recipient of a fan-out receives the message exactly once; every
      other connection receives nothing. */
  lemma FanOutInbox(ds: seq<Delivery>, recipients: set<ConnId>, msg: ServerMessage, c: ConnId)
    requires IsFanOut(ds, recipients, msg)
    ensures Inbox(ds, c) == if c in recipients then [msg] else []
  {
    UniformInbox(ds, msg, c);
    assert multiset(Targets(ds))[c] == if c in recipients then 1 else 0;
  }

  lemma {:induction false} UniformInbox(ds: seq<Delivery>, msg: ServerMessage, c: ConnId)
    requires forall i :: 0 <= i < |ds| ==> ds[i].msg == msg
    ensures Inbox(ds, c) == seq(multiset(Targets(ds))[c], _ => msg)
  {
    if ds != [] {
      UniformInbox(ds[1..], msg, c);
      assert Targets(ds) == [ds[0].to] + Targets(ds[1..]);
    }
  }

  /** Some connection of a non-empty registry. */
  ghost function Pick(online: map<ConnId, string>): (c: ConnId)
    requires online != map[]
    ensures c in online
  {
    var c :| c in online; c
  }

  lemma RemoveOneKey(online: map<ConnId, string>, c: ConnId)
    requires c in online
    ensures |online - {c}| == |online| - 1
  {
    assert (online - {c}).Keys == online.Keys - {c};
  }

  /** What each connection receives from a `connect`: the room list then the
      user list for the newcomer, the user list alone for everyone else. */
  lemma ConnectInbox(ds: seq<Delivery>, channel: ConnId, rooms: ServerMessage, recipients: set<ConnId>, users: ServerMessage, c: ConnId)
    requires |ds| >= 1 && ds[0] == Delivery(channel, rooms)
    requires IsFanOut(ds[1..], recipients, users)
    requires channel in recipients
    ensures Inbox(ds, c) == if c == channel then [rooms, users] else if c in recipients then [users] else []
  {
    assert ds == [ds[0]] + ds[1..];
    InboxAppend([ds[0]], ds[1..], c);
    FanOutInbox(ds[1..], recipients, users, c);
  }

  /** The names of the online users, one per connection, in the order a `Set`
      happens to yield them. */
  ghost function NameSeq(online: map<ConnId, string>): (s: seq<string>)
    ensures |s| == |online|
    decreases |online|
  {
    if online == map[] then []
    else
      var c := Pick(online);
      RemoveOneKey(online, c);
      NameSeq(online - {c}) + [online[c]]
  }

  /** Removing any one user removes exactly that user's name. */
  lemma {:induction false} NameSeqRemove(online: map<ConnId, string>, c: ConnId)
    requires c in online
    ensures multiset(NameSeq(online)) == multiset(NameSeq(online - {c})) + multiset{online[c]}
    decreases |online|
  {
    var d := Pick(online);
    assert NameSeq(online) == NameSeq(online - {d}) + [online[d]];
    if d != c {
      var both := online - {d} - {c};
      assert online - {c} - {d} == both;
      RemoveOneKey(online, d);
      RemoveOneKey(online, c);
      NameSeqRemove(online - {d}, c);
      NameSeqRemove(online - {c}, d);
      assert multiset(NameSeq(online - {d})) == multiset(NameSeq(both)) + multiset{online[c]};
      assert multiset(NameSeq(online - {c})) == multiset(NameSeq(both)) + multiset{online[d]};
    }
  }

  /** The name list `listUsers` sends: every online user's name, ascending. */
  ghost function UsersList(online: map<ConnId, string>): seq<string> {
    SortNames(NameSeq(online))
  }

  lemma {:induction false} NameSeqMembers(online: map<ConnId, string>, n: string)
    ensures n in NameSeq(online) <==> exists c :: c in online && online[c] == n
    decreases |online|
  {
    if online != map[] {
      var d := Pick(online);
      RemoveOneKey(online, d);
      NameSeqMembers(online - {d}, n);
      if exists c :: c in online && online[c] == n {
        var c :| c in online && online[c] == n;
        if c != d {
          assert c in online - {d};
        }
      }
    }
  }

  /** Every `Users` list holds exactly the names of the online users (one entry
      per connection, duplicates kept), sorted ascending. */
  lemma UsersListIsOnlineNames(online: map<ConnId, string>)
    ensures SortedBy(UsersList(online), StringLess)
    ensures |UsersList(online)| == |online|
    ensures multiset(UsersList(online)) == multiset(NameSeq(online))
    ensures forall n :: n in UsersList(online) <==> exists c :: c in online && online[c] == n
  {
    forall n ensures n in UsersList(online) <==> exists c :: c in online && online[c] == n {
      assert n in UsersList(online) <==> n in multiset(UsersList(online));
      assert n in NameSeq(online) <==> n in multiset(NameSeq(online));
      NameSeqMembers(online, n);
    }
  }

  class ServerChatRoomsHandler {
    var online: map<ConnId, string>
    var rooms: seq<string>
    var outbox: seq<Delivery>

    constructor (rooms: seq<string>)
      ensures this.rooms == rooms && online == map[] && outbox == []
    {
      this.rooms := rooms;
      online := map[];
      outbox := [];
    }

    /** `onlineUser(_:)`: the member of the online set with this connection's
        identity, if any. */
    function OnlineUser(channel: ConnId): (u: Option<ChatUser>)
      reads this
      ensures u.Some? <==> exists v :: v in UserSet(online) && v.uniqueIdentifier == channel
      ensures u.Some? ==> u.value in UserSet(online) && u.value.uniqueIdentifier == channel
    {
      if channel in online then Some(ChatUser(online[channel], channel, channel)) else None
    }

    predicate HasUserNamed(name: string)
      reads this
    {
      exists c :: c in online && online[c] == name
    }

    /** `online.first(where: { $0.name == to })`: some online user with that
        name; which one, when several share it, is unspecified. */
    method FirstNamed(name: string) returns (u: Option<ChatUser>)
      ensures u.Some? <==> HasUserNamed(name)
      ensures u.Some? ==> u.value in UserSet(online) && u.value.name == name
    {
      if c :| c in online && online[c] == name {
        u := Some(ChatUser(name, c, c));
      } else {
        u := None;
      }
    }

    method Push(msg: ServerMessage, channel: ConnId)
      modifies this`outbox
      ensures outbox == old(outbox) + [Delivery(channel, msg)]
    {
      outbox := outbox + [Delivery(channel, msg)];
    }

    /** `listRooms`: the room names, sorted, to one connection. */
    method ListRooms(channel: ConnId)
      modifies this`outbox
      ensures outbox == old(outbox) + [Delivery(channel, Rooms(SortNames(rooms)))]
    {
      Push(Rooms(SortNames(rooms)), channel);
    }

    /** `listUsers`: the online users' names, gathered in set order and sorted,
        to one connection. */
    method ListUsers(channel: ConnId)
      modifies this`outbox
      ensures outbox == old(outbox) + [Delivery(channel, Users(UsersList(online)))]
    {
      var users: seq<string> := [];
      var rest := online;
      while rest != map[]
        invariant outbox == old(outbox)
        invariant multiset(users) + multiset(NameSeq(rest)) == multiset(NameSeq(online))
        decreases |rest|
      {
        var c :| c in rest;
        NameSeqRemove(rest, c);
        RemoveOneKey(rest, c);
        users := users + [rest[c]];
        rest := rest - {c};
      }
      SortNamesIgnoresOrder(users, NameSeq(online));
      Push(Users(SortNames(users)), channel);
    }

    /** `for user in online { listUsers(user.channel) }`. */
    method ListUsersToAll()
      modifies this`outbox
      ensures old(outbox) <= outbox
      ensures IsFanOut(outbox[|old(outbox)|..], online.Keys, Users(UsersList(online)))
    {
      var pending := online.Keys;
      while pending != {}
        invariant pending <= online.Keys
        invariant old(outbox) <= outbox
        invariant forall i :: |old(outbox)| <= i < |outbox| ==> outbox[i].msg == Users(UsersList(online))
        invariant multiset(Targets(outbox[|old(outbox)|..])) + multiset(pending) == multiset(online.Keys)
        decreases pending
      {
        var c :| c in pending;
        ghost var before := outbox[|old(outbox)|..];
        ListUsers(c);
        assert outbox[|old(outbox)|..] == before + [Delivery(c, Users(UsersList(online)))];
        assert Targets(before + [Delivery(c, Users(UsersList(online)))]) == Targets(before) + [c];
        assert multiset(pending) == multiset(pending - {c}) + multiset{c};
        pending := pending - {c};
      }
    }

    /** `for user in online { push(msg, to: user.channel) }`. */
    method PushToAll(msg: ServerMessage)
      modifies this`outbox
      ensures old(outbox) <= outbox
      ensures IsFanOut(outbox[|old(outbox)|..], online.Keys, msg)
    {
      var pending := online.Keys;
      while pending != {}
        invariant pending <= online.Keys
        invariant old(outbox) <= outbox
        invariant forall i :: |old(outbox)| <= i < |outbox| ==> outbox[i].msg == msg
        invariant multiset(Targets(outbox[|old(outbox)|..])) + multiset(pending) == multiset(online.Keys)
        decreases pending
      {
        var c :| c in pending;
        ghost var before := outbox[|old(outbox)|..];
        Push(msg, c);
        assert outbox[|old(outbox)|..] == before + [Delivery(c, msg)];
        assert Targets(before + [Delivery(c, msg)]) == Targets(before) + [c];
        assert multiset(pending) == multiset(pending - {c}) + multiset{c};
        pending := pending - {c};
      }
    }

    /** `users.insert(user)`: the set keeps an existing member with the same
        identity, so a connection already online keeps its stored name. */
    method AddUser(name: string, channel: ConnId)
      modifies this`online
      ensures online == if channel in old(online) then old(online) else old(online)[channel := name]
    {
      if channel !in online {
        online := online[channel := name];
      }
    }

    /** The sends of `userConnected`: the sorted rooms to the newcomer, then the
        sorted user list once to every online user, newcomer included. */
    method SendConnectLists(channel: ConnId)
      modifies this`outbox
      ensures old(outbox) < outbox
      ensures outbox[|old(outbox)|] == Delivery(channel, Rooms(SortNames(rooms)))
      ensures IsFanOut(outbox[|old(outbox)| + 1..], online.Keys, Users(UsersList(online)))
    {
      ListRooms(channel);
      ghost var mid := outbox;
      ListUsersToAll();
      assert outbox[|old(outbox)| + 1..] == outbox[|mid|..];
    }

    /** `userConnected`: adds the user unless the connection is already online
        (then the old name stays), sends the sorted rooms to the newcomer, then
        the sorted user list once to every online user, newcomer included. */
    method UserConnected(name: string, channel: ConnId)
      modifies this`online, this`outbox
      ensures online == if channel in old(online) then old(online) else old(online)[channel := name]
      ensures old(outbox) < outbox
      ensures outbox[|old(outbox)|] == Delivery(channel, Rooms(SortNames(rooms)))
      ensures IsFanOut(outbox[|old(outbox)| + 1..], online.Keys, Users(UsersList(online)))
      ensures forall c :: (Inbox(outbox[|old(outbox)|..], c) ==
        if c == channel then [Rooms(SortNames(rooms)), Users(UsersList(online))]
        else if c in online then [Users(UsersList(online))]
        else [])
    {
      AddUser(name, channel);
      SendConnectLists(channel);
      ghost var ds := outbox[|old(outbox)|..];
      ghost var r := Rooms(SortNames(rooms));
      ghost var u := Users(UsersList(online));
      assert ds[1..] == outbox[|old(outbox)| + 1..];
      assert channel in online.Keys;
      forall c ensures Inbox(ds, c) == if c == channel then [r, u] else if c in online then [u] else [] {
        ConnectInbox(ds, channel, r, online.Keys, u, c);
      }
    }

    /** `userDisconnected`: when the connection has an online user, removes
        exactly that user and sends the updated list to everyone remaining;
        otherwise does nothing. The departing connection receives nothing. */
    method UserDisconnected(channel: ConnId)
      modifies this`online, this`outbox
      ensures online == old(online) - {channel}
      ensures channel !in old(online) ==> outbox == old(outbox)
      ensures old(outbox) <= outbox
      ensures channel in old(online) ==>
        IsFanOut(outbox[|old(outbox)|..], online.Keys, Users(UsersList(online)))
      ensures forall c :: (Inbox(outbox[|old(outbox)|..], c) ==
        if channel in old(online) && c in online then [Users(UsersList(online))] else [])
    {
      var user := OnlineUser(channel);
      if user.Some? {
        online := online - {user.value.uniqueIdentifier};
        ListUsersToAll();
        forall c ensures Inbox(outbox[|old(outbox)|..], c) ==
          if c in online then [Users(UsersList(online))] else []
        {
          FanOutInbox(outbox[|old(outbox)|..], online.Keys, Users(UsersList(online)), c);
        }
      } else {
        assert online - {channel} == online;
      }
    }

    /** `message`: dropped unless the sender is online; otherwise the message,
        signed with the sender's name, goes once to every online user, sender
        included. The room is not checked against `rooms`. */
    method Message(room: string, text: string, channel: ConnId)
      modifies this`outbox
      ensures channel !in online ==> outbox == old(outbox)
      ensures old(outbox) <= outbox
      ensures channel in online ==>
        IsFanOut(outbox[|old(outbox)|..], online.Keys, ServerMessage.Message(room, online[channel], text))
      ensures forall c :: (Inbox(outbox[|old(outbox)|..], c) ==
        if channel in online && c in online then [ServerMessage.Message(room, online[channel], text)] else [])
    {
      var user := OnlineUser(channel);
      if user.None? {
        return;
      }
      var msg := ServerMessage.Message(room, user.value.name, text);
      PushToAll(msg);
      forall c ensures Inbox(outbox[|old(outbox)|..], c) == if c in online then [msg] else [] {
        FanOutInbox(outbox[|old(outbox)|..], online.Keys, msg, c);
      }
    }

    /** `privateMessage`: dropped unless the sender is online and some online
        user has the target name; otherwise the same message goes to that user,
        then to the sender, and to no one else. */
    method PrivateMessage(to: string, text: string, channel: ConnId)
      modifies this`outbox
      ensures !(channel in online && HasUserNamed(to)) ==> outbox == old(outbox)
      ensures channel in online && HasUserNamed(to) ==>
        var pm := ServerMessage.PrivateMessage(online[channel], to, text);
        && |outbox| == |old(outbox)| + 2
        && old(outbox) <= outbox
        && outbox[|old(outbox)|].msg == pm
        && outbox[|old(outbox)|].to in online
        && online[outbox[|old(outbox)|].to] == to
        && outbox[|old(outbox)| + 1] == Delivery(channel, pm)
    {
      var fromUser := OnlineUser(channel);
      var toUser := FirstNamed(to);
      if fromUser.None? || toUser.None? {
        return;
      }
      var message := ServerMessage.PrivateMessage(fromUser.value.name, toUser.value.name, text);
      Push(message, toUser.value.channel);
      Push(message, fromUser.value.channel);
    }

    /** `channelRead`: dispatches one decoded command from `channel`. */
    method ChannelRead(channel: ConnId, command: ClientCommand)
      modifies this`online, this`outbox
      ensures old(outbox) <= outbox
      ensures command.Connect? ==>
        online == if channel in old(online) then old(online) else old(online)[channel := command.username]
      ensures command.Disconnect? ==> online == old(online) - {channel}
      ensures command.Message? || command.PrivateMessage? ==> online == old(online)
      ensures (command.Message? || command.PrivateMessage?) && channel !in online ==> outbox == old(outbox)
    {
      match command
      case Connect(username) => UserConnected(username, channel);
      case Disconnect => UserDisconnected(channel);
      case Message(room, text) => Message(room, text, channel);
      case PrivateMessage(username, text) => PrivateMessage(username, text, channel);
    }

    /** `channelInactive`: the connection closed; same as an explicit
        `disconnect`, so a `disconnect` followed by the close changes nothing
        the second time. */
    method ChannelInactive(channel: ConnId)
      modifies this`online, this`outbox
      ensures online == old(online) - {channel}
      ensures channel !in old(online) ==> outbox == old(outbox)
      ensures old(outbox) <= outbox
      ensures forall c :: (Inbox(outbox[|old(outbox)|..], c) ==
        if channel in old(online) && c in online then [Users(UsersList(online))] else [])
    {
      UserDisconnected(channel);
    }
  }
}
