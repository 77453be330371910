/** The status endpoint: its waiting list and its active-pair listing. */
module Dashboard {
  import opened Records
  import opened Dispatch
  import opened Invariants

  /** The user records after `getUser` of every id in `ids`, in order. */
  function Fetched(users: map<UserId, User>, ids: seq<UserId>, now: Clock): map<UserId, User> {
    if ids == [] then users
    else
      var before := Fetched(users, ids[..|ids| - 1], now);
      before[ids[|ids| - 1] := Refresh(before, ids[|ids| - 1], now)]
  }

  /** The state after the waiting list of the status endpoint has fetched
      every queued record. */
  function TouchAll(s: State, ids: seq<UserId>, now: Clock): State {
    s.(users := Fetched(s.users, ids, now))
  }

  /** `getUser` of the last id of a list finishes fetching the list. */
  lemma TouchAllLast(s: State, ids: seq<UserId>, now: Clock)
    requires ids != []
    ensures TouchAll(s, ids, now) == Touch(TouchAll(s, ids[..|ids| - 1], now), ids[|ids| - 1], now)
  {
  }

  /** Fetching the waiting list keeps the state invariant. */
  lemma {:induction false} TouchAllKeepsInv(s: State, ids: seq<UserId>, now: Clock)
    requires Inv(s)
    ensures Inv(TouchAll(s, ids, now))
  {
    if ids != [] {
      TouchAllKeepsInv(s, ids[..|ids| - 1], now);
      TouchKeepsInv(TouchAll(s, ids[..|ids| - 1], now), ids[|ids| - 1], now);
      TouchAllLast(s, ids, now);
    }
  }

  /** The records the waiting list shows for `ids`, in order. */
  function Waiting(users: map<UserId, User>, ids: seq<UserId>, now: Clock): (r: seq<User>)
    ensures |r| == |ids|
  {
    if ids == [] then []
    else Waiting(users, ids[..|ids| - 1], now) + [Refresh(users, ids[|ids| - 1], now)]
  }

  /** Fetching a list of ids creates or refreshes exactly their records,
      once each however often an id repeats, and changes nothing else. */
  lemma {:induction false} FetchedSpec(users: map<UserId, User>, ids: seq<UserId>, now: Clock)
    ensures var r := Fetched(users, ids, now);
            && (forall x :: x in r <==> x in users || x in ids)
            && (forall x :: x in ids ==> r[x] == Refresh(users, x, now))
            && (forall x :: x in users && x !in ids ==> r[x] == users[x])
  {
    if ids != [] {
      var front := ids[..|ids| - 1];
      FetchedSpec(users, front, now);
      assert forall x :: x in ids <==> x in front || x == ids[|ids| - 1];
    }
  }

  /** Fetching one more id of the list: the store gains its refreshed
      record, which is what `getUser` returns for it. */
  lemma FetchedStep(users: map<UserId, User>, ids: seq<UserId>, i: nat, now: Clock)
    requires i < |ids|
    ensures var before := Fetched(users, ids[..i], now);
            && Fetched(users, ids[..i + 1], now) == before[ids[i] := Refresh(before, ids[i], now)]
            && Refresh(before, ids[i], now) == Refresh(users, ids[i], now)
  {
    assert ids[..i + 1][..i] == ids[..i];
    FetchedSpec(users, ids[..i], now);
  }

  /** The waiting list has one entry per queued id, and each is that id's
      refreshed record. */
  lemma {:induction false} WaitingSpec(users: map<UserId, User>, ids: seq<UserId>, now: Clock)
    ensures var r := Waiting(users, ids, now);
            && |r| == |ids|
            && forall j :: 0 <= j < |ids| ==> r[j] == Refresh(users, ids[j], now)
  {
    if ids != [] {
      WaitingSpec(users, ids[..|ids| - 1], now);
    }
  }

  /** Listing one more id of the queue appends its refreshed record. */
  lemma WaitingStep(users: map<UserId, User>, ids: seq<UserId>, i: nat, now: Clock)
    requires i < |ids|
    ensures Waiting(users, ids[..i + 1], now) == Waiting(users, ids[..i], now) + [Refresh(users, ids[i], now)]
  {
    assert ids[..i + 1][..i] == ids[..i];
  }

  /** Each waiting entry is the record the store holds for that id once
      the whole list has been fetched. */
  lemma WaitingMatchesStore(s: State, ids: seq<UserId>, now: Clock, j: nat)
    requires j < |ids|
    ensures ids[j] in TouchAll(s, ids, now).users
    ensures Waiting(s.users, ids, now)[j] == TouchAll(s, ids, now).users[ids[j]]
  {
    WaitingSpec(s.users, ids, now);
    FetchedSpec(s.users, ids, now);
    assert ids[j] in ids;
  }

  /** One row of the listing: a room and the nicknames of its two sides. */
  datatype Pair = Pair(roomId: RoomId, user1: string, user2: string)

  /** The nickname `getUser` would return for `id`: the stored one, or the
      default a new record gets. */
  function Nick(users: map<UserId, User>, id: UserId): string {
    if id in users then users[id].nickname else DefaultNickname(id)
  }

  predicate Listed(pairs: seq<Pair>, room: RoomId) {
    exists k :: 0 <= k < |pairs| && pairs[k].roomId == room
  }

  /** The listing over the sides in `order` (the key order of the active
      chats): a side whose room is not yet listed adds the room with its
      own and its partner's nickname, unless one of the two is empty. */
  function ListPairs(order: seq<UserId>, chats: map<UserId, Side>, users: map<UserId, User>): (r: seq<Pair>)
    requires forall i :: 0 <= i < |order| ==> order[i] in chats
    ensures |r| <= |order|
  {
    if order == [] then []
    else
      var acc := ListPairs(order[..|order| - 1], chats, users);
      var u := order[|order| - 1];
      var side := chats[u];
      var n1 := Nick(users, u);
      var n2 := Nick(users, side.partnerId);
      if Listed(acc, side.roomId) || n1 == [] || n2 == [] then acc
      else acc + [Pair(side.roomId, n1, n2)]
  }

  /** Extending the key order by one side extends the listing by at most
      that side's row. */
  lemma ListPairsStep(order: seq<UserId>, chats: map<UserId, Side>, users: map<UserId, User>, i: nat)
    requires forall j :: 0 <= j < |order| ==> order[j] in chats
    requires i < |order|
    ensures var acc := ListPairs(order[..i], chats, users);
            var u := order[i];
            ListPairs(order[..i + 1], chats, users)
            == if Listed(acc, chats[u].roomId) || Nick(users, u) == [] || Nick(users, chats[u].partnerId) == [] then acc
               else acc + [Pair(chats[u].roomId, Nick(users, u), Nick(users, chats[u].partnerId))]
  {
    assert order[..i + 1][..i] == order[..i];
  }

  /** The ids the listing passes to `getUser`, in call order: a side whose
      room is not yet listed fetches its own record and then its
      partner's. */
  function PairFetches(order: seq<UserId>, chats: map<UserId, Side>, users: map<UserId, User>): (r: seq<UserId>)
    requires forall i :: 0 <= i < |order| ==> order[i] in chats
    ensures |r| <= 2 * |order|
  {
    if order == [] then []
    else
      var front := order[..|order| - 1];
      var u := order[|order| - 1];
      var before := PairFetches(front, chats, users);
      if Listed(ListPairs(front, chats, users), chats[u].roomId) then before
      else before + [u, chats[u].partnerId]
  }

  /** One more side of the key order fetches its own and its partner's
      record exactly when its room is not yet listed. */
  lemma PairFetchesStep(order: seq<UserId>, chats: map<UserId, Side>, users: map<UserId, User>, i: nat)
    requires forall j :: 0 <= j < |order| ==> order[j] in chats
    requires i < |order|
    ensures var before := PairFetches(order[..i], chats, users);
            var u := order[i];
            PairFetches(order[..i + 1], chats, users)
            == if Listed(ListPairs(order[..i], chats, users), chats[u].roomId) then before
               else before + [u, chats[u].partnerId]
  {
    assert order[..i + 1][..i] == order[..i];
  }

  /** The listing fetches only sides in `order` and their partners. */
  lemma {:induction false} PairFetchesFromSides(order: seq<UserId>, chats: map<UserId, Side>, users: map<UserId, User>, x: UserId)
    requires forall i :: 0 <= i < |order| ==> order[i] in chats
    requires x in PairFetches(order, chats, users)
    ensures exists u :: u in order && u in chats && (x == u || x == chats[u].partnerId)
  {
    var front := order[..|order| - 1];
    var last := order[|order| - 1];
    assert last in order;
    if x in PairFetches(front, chats, users) {
      PairFetchesFromSides(front, chats, users, x);
      var u :| u in front && u in chats && (x == u || x == chats[u].partnerId);
      assert u in order;
    }
  }

  /** A side whose room is not listed before it is fetched, and so is its
      partner. */
  lemma {:induction false} PairFetchesCoverNew(order: seq<UserId>, chats: map<UserId, Side>, users: map<UserId, User>, i: nat)
    requires forall j :: 0 <= j < |order| ==> order[j] in chats
    requires i < |order| && !Listed(ListPairs(order[..i], chats, users), chats[order[i]].roomId)
    ensures var r := PairFetches(order, chats, users);
            order[i] in r && chats[order[i]].partnerId in r
    decreases |order|
  {
    var front := order[..|order| - 1];
    var before := PairFetches(front, chats, users);
    assert forall x :: x in before ==> x in PairFetches(order, chats, users);
    if i < |order| - 1 {
      assert front[i] == order[i] && front[..i] == order[..i];
      PairFetchesCoverNew(front, chats, users, i);
    } else {
      assert order[..i] == front;
    }
  }

  /** Fetching one more id: the store gains its refreshed record. */
  lemma FetchedAppend(users: map<UserId, User>, ids: seq<UserId>, x: UserId, now: Clock)
    ensures var before := Fetched(users, ids, now);
            Fetched(users, ids + [x], now) == before[x := Refresh(before, x, now)]
  {
    assert (ids + [x])[..|ids|] == ids;
  }

  /** Fetching never changes a nickname: the record of a fetched id carries
      the nickname `getUser` would have returned before. */
  lemma {:induction false} FetchedNick(users: map<UserId, User>, ids: seq<UserId>, now: Clock, x: UserId)
    ensures Nick(Fetched(users, ids, now), x) == Nick(users, x)
  {
    if ids != [] {
      FetchedNick(users, ids[..|ids| - 1], now, x);
    }
  }

  predicate RoomsDistinct(pairs: seq<Pair>) {
    forall i, j :: 0 <= i < j < |pairs| ==> pairs[i].roomId != pairs[j].roomId
  }

  /** No room is listed twice. */
  lemma {:induction false} ListedRoomsDistinct(order: seq<UserId>, chats: map<UserId, Side>, users: map<UserId, User>)
    requires forall i :: 0 <= i < |order| ==> order[i] in chats
    ensures RoomsDistinct(ListPairs(order, chats, users))
  {
    if order != [] {
      var front := order[..|order| - 1];
      ListedRoomsDistinct(front, chats, users);
      var acc := ListPairs(front, chats, users);
      var r := ListPairs(order, chats, users);
      if r != acc {
        var room := chats[order[|order| - 1]].roomId;
        assert r == acc + [r[|acc|]] && r[|acc|].roomId == room;
        assert forall k :: 0 <= k < |acc| ==> acc[k].roomId != room;
        forall i, j | 0 <= i < j < |r|
          ensures r[i].roomId != r[j].roomId
        {
          assert r[i] == acc[i];
          if j < |acc| {
            assert r[j] == acc[j];
          }
        }
      }
    }
  }

  /** The row a side contributes: its room, its nickname and its partner's. */
  function RowOf(chats: map<UserId, Side>, users: map<UserId, User>, u: UserId): Pair
    requires u in chats
  {
    Pair(chats[u].roomId, Nick(users, u), Nick(users, chats[u].partnerId))
  }

  /** Every row is the row of a side in `order`, with both nicknames
      non-empty. */
  lemma {:induction false} ListedPairsAreSessions(order: seq<UserId>, chats: map<UserId, Side>, users: map<UserId, User>)
    requires forall i :: 0 <= i < |order| ==> order[i] in chats
    ensures forall row :: row in ListPairs(order, chats, users) ==>
              row.user1 != [] && row.user2 != []
              && exists u :: u in order && u in chats && row == RowOf(chats, users, u)
  {
    if order != [] {
      var front := order[..|order| - 1];
      ListedPairsAreSessions(front, chats, users);
      var u := order[|order| - 1];
      assert forall x :: x in front ==> x in order;
      assert u in order;
    }
  }

  /** A side in `order` whose two nicknames are non-empty has its room
      listed. */
  lemma {:induction false} SessionsAreListed(order: seq<UserId>, chats: map<UserId, Side>, users: map<UserId, User>, i: nat)
    requires forall j :: 0 <= j < |order| ==> order[j] in chats
    requires i < |order|
    requires Nick(users, order[i]) != [] && Nick(users, chats[order[i]].partnerId) != []
    ensures Listed(ListPairs(order, chats, users), chats[order[i]].roomId)
    decreases |order|
  {
    var front := order[..|order| - 1];
    var acc := ListPairs(front, chats, users);
    if i < |order| - 1 {
      assert front[i] == order[i];
      SessionsAreListed(front, chats, users, i);
      var k :| 0 <= k < |acc| && acc[k].roomId == chats[order[i]].roomId;
      assert ListPairs(order, chats, users)[k] == acc[k];
    } else if !Listed(acc, chats[order[i]].roomId) {
      var r := ListPairs(order, chats, users);
      assert r[|acc|].roomId == chats[order[i]].roomId;
    }
  }

  /** With symmetric chats, every side in the key order and every chatting
      user's nickname non-empty, a room is listed exactly when some active
      chat is in it. */
  lemma OneRowPerRoom(order: seq<UserId>, chats: map<UserId, Side>, users: map<UserId, User>, room: RoomId)
    requires forall i :: 0 <= i < |order| ==> order[i] in chats
    requires forall u :: u in chats ==> u in order
    requires forall u :: u in chats ==> Nick(users, u) != []
    requires Symmetric(chats)
    ensures Listed(ListPairs(order, chats, users), room) <==> exists u :: u in chats && chats[u].roomId == room
  {
    if exists u :: u in chats && chats[u].roomId == room {
      var u :| u in chats && chats[u].roomId == room;
      var i :| 0 <= i < |order| && order[i] == u;
      assert Mirrored(chats, u);
      SessionsAreListed(order, chats, users, i);
    }
    if Listed(ListPairs(order, chats, users), room) {
      ListedPairsAreSessions(order, chats, users);
      var r := ListPairs(order, chats, users);
      var k :| 0 <= k < |r| && r[k].roomId == room;
      assert r[k] in r;
    }
  }
}
