/** The invariants of the session state and their preservation by every
    path of a message turn. */
module Invariants {
  import opened Text
  import opened Records
  import opened Moderation
  import opened Dispatch

  /** `u`'s side names a different partner whose side names `u` back, in
      the same room. */
  ghost predicate Mirrored(chats: map<UserId, Side>, u: UserId)
    requires u in chats
  {
    var p := chats[u].partnerId;
    p != u && p in chats && chats[p].partnerId == u && chats[p].roomId == chats[u].roomId
  }

  /** Every active chat has both of its sides. */
  ghost predicate Symmetric(chats: map<UserId, Side>) {
    forall u :: u in chats ==> Mirrored(chats, u)
  }

  /** No side has reached the ban threshold (that strike ends the chat). */
  ghost predicate StrikesBelowBan(chats: map<UserId, Side>) {
    forall u :: u in chats ==> chats[u].profanityCount < BanThreshold
  }

  /** No one waits in the queue while in a chat. */
  ghost predicate QueueApart(s: State) {
    forall i :: 0 <= i < |s.queue| ==> s.queue[i] !in s.chats
  }

  /** Everyone in a chat has a record. */
  ghost predicate ChatsKnown(s: State) {
    forall u :: u in s.chats ==> u in s.users
  }

  ghost predicate Inv(s: State) {
    && Symmetric(s.chats)
    && StrikesBelowBan(s.chats)
    && Distinct(s.queue)
    && QueueApart(s)
    && QueueKnown(s)
    && ChatsKnown(s)
    && |s.serverLogs| <= LogCapacity
  }

  /** Removing both sides of a chat keeps the others mirrored. */
  lemma TeardownKeepsSymmetry(chats: map<UserId, Side>, u: UserId)
    requires Symmetric(chats) && u in chats
    ensures Symmetric(chats - {u} - {chats[u].partnerId})
  {
    var p := chats[u].partnerId;
    var c := chats - {u} - {p};
    forall x | x in c
      ensures Mirrored(c, x)
    {
      assert Mirrored(chats, x);
      assert Mirrored(chats, u);
    }
  }

  /** Adding two mirrored sides for users outside every chat keeps the
      chats symmetric. */
  lemma PairingKeepsSymmetry(chats: map<UserId, Side>, u: UserId, p: UserId, room: RoomId)
    requires Symmetric(chats) && u !in chats && p !in chats && u != p
    ensures Symmetric(chats[u := Side(room, p, 0)][p := Side(room, u, 0)])
  {
    var c := chats[u := Side(room, p, 0)][p := Side(room, u, 0)];
    forall x | x in c
      ensures Mirrored(c, x)
    {
      if x != u && x != p {
        assert Mirrored(chats, x);
      }
    }
  }

  lemma TouchKeepsInv(s: State, id: UserId, now: Clock)
    requires Inv(s)
    ensures Inv(Touch(s, id, now))
  {
  }

  lemma LogChatKeepsInv(s: State, room: RoomId, id: UserId, message: string, media: Option<MsgType>, now: Clock)
    requires Inv(s)
    ensures Inv(LogChat(s, room, id, message, media, now))
  {
    TouchKeepsInv(s, id, now);
  }

  lemma InSessionKeepsInv(s: State, m: Inbound, text: string, lower: string, w: World)
    requires Inv(s) && m.from in s.chats && m.from in s.users
    ensures Inv(InSession(s, m, text, lower, w).state)
  {
    var u := m.from;
    var side := s.chats[u];
    if lower == "!stop" || lower == "!skip" {
      TeardownKeepsSymmetry(s.chats, u);
    } else if lower == "!lapor" {
      ReportKeepsInv(s, u, w.now);
    } else if m.hasMedia && m.msgType.Forwardable() {
      MediaForwardKeepsInv(s, m, side.roomId, side.partnerId, w);
    } else if CheckProfanity(s.settings.badwords, text) {
      StrikeKeepsInv(s, u, text, w.now);
    } else if text != [] {
      LogChatKeepsInv(s, side.roomId, u, text, None, w.now);
    }
  }

  /** Ending a chat keeps every invariant. */
  lemma TeardownKeepsInv(s: State, u: UserId)
    requires Inv(s) && u in s.chats
    ensures Inv(s.(chats := s.chats - {u} - {s.chats[u].partnerId}))
  {
    TeardownKeepsSymmetry(s.chats, u);
  }

  lemma ReportKeepsInv(s: State, u: UserId, now: Clock)
    requires Inv(s) && u in s.chats
    ensures Inv(Report(s, u, now).state)
  {
    var p := s.chats[u].partnerId;
    var s1 := Touch(s, u, now);
    var s2 := Touch(s1, p, now);
    TouchKeepsInv(s, u, now);
    TouchKeepsInv(s1, p, now);
    TeardownKeepsInv(s2, u);
    ReportFields(s, u, now);
    InvByParts(s2.(chats := s2.chats - {u} - {p}), Report(s, u, now).state);
  }

  /** The fields of the state after a report that the invariants read. */
  lemma ReportFields(s: State, u: UserId, now: Clock)
    requires u in s.chats
    ensures var p := s.chats[u].partnerId;
            var s2 := Touch(Touch(s, u, now), p, now);
            var r := Report(s, u, now).state;
            r.users == s2.users && r.queue == s.queue && r.serverLogs == s.serverLogs
            && r.chats == s.chats - {u} - {p}
  {
  }

  /** The invariants read only the records, the queue, the chats and the
      server log. */
  lemma InvByParts(a: State, b: State)
    requires Inv(a)
    requires b.users == a.users && b.queue == a.queue && b.chats == a.chats && b.serverLogs == a.serverLogs
    ensures Inv(b)
  {
  }

  lemma MediaForwardKeepsInv(s: State, m: Inbound, room: RoomId, partner: UserId, w: World)
    requires Inv(s) && m.from in s.users
    ensures Inv(MediaForward(s, m, room, partner, w).state)
  {
    LogChatKeepsInv(s, room, m.from, [], Some(m.msgType), w.now);
  }

  lemma StrikeKeepsInv(s: State, u: UserId, text: string, now: Clock)
    requires Inv(s) && u in s.chats && u in s.users
    ensures Inv(Strike(s, u, text, now).state)
  {
    var side := s.chats[u];
    var chats1 := s.chats[u := side.(profanityCount := side.profanityCount + 1)];
    assert Mirrored(s.chats, u);
    assert Symmetric(chats1) by {
      forall x | x in chats1
        ensures Mirrored(chats1, x)
      {
        assert Mirrored(s.chats, x);
      }
    }
    if side.profanityCount + 1 >= BanThreshold {
      assert chats1[u].partnerId == side.partnerId;
      TeardownKeepsSymmetry(chats1, u);
    }
  }

  lemma RequestChatKeepsInv(s: State, u: UserId, w: World)
    requires Inv(s) && u in s.users && u !in s.chats && WorldOk(w)
    ensures Inv(RequestChat(s, u, w).state)
  {
    if u !in s.queue && |s.queue| > 0 {
      var partner := s.queue[0];
      var room := GenerateRoomId(w.roomDraw);
      PairingKeepsSymmetry(s.chats, u, partner, room);
      var r := RequestChat(s, u, w).state;
      assert r.queue == s.queue[1..];
      forall i | 0 <= i < |r.queue|
        ensures r.queue[i] !in r.chats && r.queue[i] in r.users
      {
        assert r.queue[i] == s.queue[i + 1];
      }
    }
  }

  lemma CancelSearchKeepsInv(s: State, u: UserId)
    requires Inv(s)
    ensures Inv(CancelSearch(s, u).state)
  {
    var q := CancelSearch(s, u).state.queue;
    forall i | 0 <= i < |q|
      ensures q[i] in s.queue
    {
      assert q[i] in q;
    }
  }

  lemma CommandKeepsInv(s: State, m: Inbound, lower: string, w: World)
    requires Inv(s) && m.from in s.users && m.from !in s.chats && WorldOk(w)
    ensures Inv(Command(s, m, lower, w).state)
  {
    var command := FirstField(lower, ' ');
    if command == "!chat" {
      ChatCommand(s, m, lower, w);
      RequestChatKeepsInv(s, m.from, w);
    } else if command == "!stop" {
      StopCommand(s, m, lower, w);
      CancelSearchKeepsInv(s, m.from);
    } else {
      OtherCommandFields(s, m, lower, w);
    }
  }

  /** The menu and sticker commands change at most the sender's record. */
  lemma OtherCommandFields(s: State, m: Inbound, lower: string, w: World)
    requires m.from in s.users && QueueKnown(s) && WorldOk(w)
    requires FirstField(lower, ' ') != "!chat" && FirstField(lower, ' ') != "!stop"
    ensures var r := Command(s, m, lower, w).state;
            r.queue == s.queue && r.chats == s.chats && r.serverLogs == s.serverLogs
            && r.users.Keys == s.users.Keys
  {
  }

  /** Every turn keeps all the invariants. */
  lemma TurnKeepsInv(s: State, env: Env, m: Inbound, w: World)
    requires Inv(s) && WorldOk(w)
    ensures Inv(Turn(s, env, m, w).state)
  {
    if m.from != StatusBroadcast
       && !(s.settings.developmentMode && env.devNumber != Some(m.from))
       && !(s.settings.maintenanceMode && env.adminNumber != Some(m.from)) {
      var s1 := Touch(s, m.from, w.now);
      TouchKeepsInv(s, m.from, w.now);
      if !s1.users[m.from].isBanned {
        if m.from in s1.chats {
          InSessionKeepsInv(s1, m, Trim(m.body), Lower(Trim(m.body)), w);
        } else {
          CommandKeepsInv(s1, m, Lower(Trim(m.body)), w);
        }
      }
    }
  }
}
