/** `MessageBoard`: where the client files messages, either a chat room or a
    direct discussion with another user. */
module MessageBoards {

  import opened Sorting

  datatype MessageBoard = Room(roomName: string) | User(userName: string)

  /** `displayName`: the carried name, for both cases. */
  function DisplayName(b: MessageBoard): (n: string)
    ensures b == Room(n) || b == User(n)
  {
    match b
    case Room(name) => name
    case User(name) => name
  }

  /** `isRoom`. */
  function IsRoom(b: MessageBoard): (r: bool)
    ensures r <==> exists n :: b == Room(n)
  {
    match b
    case Room(_) => true
    case User(_) => false
  }

  /** `==`: same case and equal names. */
  function Equal(a: MessageBoard, b: MessageBoard): (r: bool)
    ensures r <==> a == b
  {
    match (a, b)
    case (Room(left), Room(right)) => left == right
    case (User(left), User(right)) => left == right
    case _ => false
  }

  /** `hash(into:)` feeds only the name to the hasher. */
  function HashKey(b: MessageBoard): (h: string)
    ensures h == DisplayName(b)
  {
    match b
    case Room(roomName) => roomName
    case User(userName) => userName
  }

  /** The hash is consistent with `==`, and a room and a user with the same
      name collide without being equal. */
  lemma HashConsistentWithEquality(a: MessageBoard, b: MessageBoard, x: string)
    ensures Equal(a, b) ==> HashKey(a) == HashKey(b)
    ensures HashKey(Room(x)) == HashKey(User(x)) && !Equal(Room(x), User(x))
  {
  }

  /** `sortedByDisplayName()`: a permutation of the boards, ascending by
      display name under `ascending`. */
  function SortedByDisplayName(boards: seq<MessageBoard>, ascending: (string, string) -> bool): (r: seq<MessageBoard>)
    ensures multiset(r) == multiset(boards)
  {
    Sort(boards, (a: MessageBoard, b: MessageBoard) => ascending(DisplayName(a), DisplayName(b)))
  }

  /** When the locale comparison is a strict weak order, no board of the result
      has a display name ascending before that of an earlier board. */
  lemma SortedByDisplayNameIsSorted(boards: seq<MessageBoard>, ascending: (string, string) -> bool)
    requires StrictWeakOrder(ascending)
    ensures var r := SortedByDisplayName(boards, ascending);
      forall i, j :: 0 <= i < j < |r| ==> !ascending(DisplayName(r[j]), DisplayName(r[i]))
  {
    var lt := (a: MessageBoard, b: MessageBoard) => ascending(DisplayName(a), DisplayName(b));
    assert StrictWeakOrder(lt) by {
      forall a: MessageBoard, b: MessageBoard | lt(a, b) ensures !lt(b, a) {
        var x, y := DisplayName(a), DisplayName(b);
        assert lt(a, b) == ascending(x, y) && lt(b, a) == ascending(y, x);
      }
      forall a: MessageBoard, b: MessageBoard, c: MessageBoard | !lt(a, b) && !lt(b, c) ensures !lt(a, c) {
        assert !ascending(DisplayName(a), DisplayName(b)) && !ascending(DisplayName(b), DisplayName(c));
      }
    }
    SortSorted(boards, lt);
  }
}
