/** `ChatUser`: an online user, identified by its connection. All fields are
    immutable (a datatype value). */
module ChatUsers {

  /** `ObjectIdentifier(channel)`: the identity of a connection. The model names
      a channel by its identifier. */
  type ConnId = nat

  datatype ChatUser = ChatUser(name: string, channel: ConnId, uniqueIdentifier: ConnId)

  /** `==`: identity only; name and channel play no part. Since `hash(into:)`
      feeds the same identifier, two users are equal exactly when their hash
      inputs agree: equal users hash equally, and unequal ones never share a
      hash input. */
  predicate SameUser(a: ChatUser, b: ChatUser)
    ensures SameUser(a, b) <==> HashKey(a) == HashKey(b)
  {
    a.uniqueIdentifier == b.uniqueIdentifier
  }

  /** `<`: the names in `localizedCompare` ascending order, passed in as
      `ascending` since that comparison depends on the locale. */
  predicate Less(a: ChatUser, b: ChatUser, ascending: (string, string) -> bool) {
    ascending(a.name, b.name)
  }

  /** `hash(into:)` feeds only the identifier to the hasher. */
  function HashKey(u: ChatUser): ConnId {
    u.uniqueIdentifier
  }

  /** Two users with the same name on different connections are unequal, yet
      neither sorts before the other. */
  lemma SameNameUnordered(a: ChatUser, b: ChatUser, ascending: (string, string) -> bool)
    requires a.name == b.name && a.uniqueIdentifier != b.uniqueIdentifier
    requires !ascending(a.name, a.name)
    ensures !SameUser(a, b) && !Less(a, b, ascending) && !Less(b, a, ascending)
  {
  }

  /** The `Set<ChatUser>` a registry map stands for: one user per connection. */
  ghost function UserSet(online: map<ConnId, string>): set<ChatUser> {
    set c | c in online :: ChatUser(online[c], c, c)
  }

  /** `Set.insert`: an element equal (by identity) to a member is not added and
      does not replace that member. */
  ghost function SetInsert(s: set<ChatUser>, u: ChatUser): (r: set<ChatUser>) {
    if exists v :: v in s && SameUser(v, u) then s else s + {u}
  }

  /** A registry map has no two equal users, so it is a faithful `Set<ChatUser>`. */
  lemma UserSetIdentitiesUnique(online: map<ConnId, string>)
    ensures forall a, b :: a in UserSet(online) && b in UserSet(online) && SameUser(a, b) ==> a == b
  {
  }

  /** Inserting into the set is updating the map only when the connection is
      new: a repeated `connect` keeps the stored name. */
  lemma InsertMatchesMapUpdate(online: map<ConnId, string>, name: string, c: ConnId)
    ensures SetInsert(UserSet(online), ChatUser(name, c, c))
      == UserSet(if c in online then online else online[c := name])
  {
    var u := ChatUser(name, c, c);
    if c in online {
      assert ChatUser(online[c], c, c) in UserSet(online);
    } else {
      assert !exists v :: v in UserSet(online) && SameUser(v, u);
      var updated := online[c := name];
      assert UserSet(updated) == UserSet(online) + {u} by {
        forall v | v in UserSet(updated) ensures v in UserSet(online) + {u} {
          var k :| k in updated && v == ChatUser(updated[k], k, k);
          if k != c {
            assert k in online;
          }
        }
        forall v | v in UserSet(online) + {u} ensures v in UserSet(updated) {
          if v != u {
            var k :| k in online && v == ChatUser(online[k], k, k);
            assert k in updated && updated[k] == online[k];
          } else {
            assert c in updated && updated[c] == name;
          }
        }
      }
    }
  }
}
