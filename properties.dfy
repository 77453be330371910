/** What one message turn does on each path of the decision ladder, and
    what a few turns in a row do. */
module Properties {
  import opened Text
  import opened Records
  import opened Moderation
  import opened Dispatch
  import opened Invariants

  /** The message gets past the broadcast, development, maintenance and ban
      gates. */
  ghost predicate Admitted(s: State, env: Env, m: Inbound) {
    && m.from != StatusBroadcast
    && !(s.settings.developmentMode && env.devNumber != Some(m.from))
    && !(s.settings.maintenanceMode && env.adminNumber != Some(m.from))
    && !(m.from in s.users && s.users[m.from].isBanned)
  }

  /** The first word of the trimmed, lower-cased body. */
  function CommandOf(m: Inbound): string {
    FirstField(Lower(Trim(m.body)), ' ')
  }

  /** The in-session text matches none of the session commands and is not a
      forwarded media message. */
  predicate PlainInSessionText(m: Inbound) {
    var lower := Lower(Trim(m.body));
    lower != "!stop" && lower != "!skip" && lower != "!lapor"
    && !(m.hasMedia && m.msgType.Forwardable())
  }

  /** Past the gates, a turn is `getUser` followed by in-session handling
      or an out-of-session command. */
  lemma AdmittedTurn(s: State, env: Env, m: Inbound, w: World)
    requires QueueKnown(s) && WorldOk(w) && Admitted(s, env, m)
    ensures QueueKnown(Touch(s, m.from, w.now))
    ensures m.from in s.chats ==> Turn(s, env, m, w) == InSession(Touch(s, m.from, w.now), m, Trim(m.body), Lower(Trim(m.body)), w)
    ensures m.from !in s.chats ==> Turn(s, env, m, w) == Command(Touch(s, m.from, w.now), m, Lower(Trim(m.body)), w)
  {
  }

  /** Past the gates, a sender outside every chat gets an out-of-session
      command. */
  lemma CommandTurn(s: State, env: Env, m: Inbound, w: World)
    requires QueueKnown(s) && WorldOk(w) && Admitted(s, env, m) && m.from !in s.chats
    ensures QueueKnown(Touch(s, m.from, w.now))
    ensures Turn(s, env, m, w) == Command(Touch(s, m.from, w.now), m, Lower(Trim(m.body)), w)
  {
    AdmittedTurn(s, env, m, w);
  }

  /** Past the gates, a sender in a chat gets in-session handling. */
  lemma SessionTurn(s: State, env: Env, m: Inbound, w: World)
    requires QueueKnown(s) && WorldOk(w) && Admitted(s, env, m) && m.from in s.chats
    ensures Turn(s, env, m, w) == InSession(Touch(s, m.from, w.now), m, Trim(m.body), Lower(Trim(m.body)), w)
  {
    AdmittedTurn(s, env, m, w);
  }

  /** A profane plain text selects `Strike`. */
  lemma ProfaneSession(s: State, m: Inbound, text: string, lower: string, w: World)
    requires m.from in s.chats && m.from in s.users
    requires lower != "!stop" && lower != "!skip" && lower != "!lapor"
    requires !(m.hasMedia && m.msgType.Forwardable()) && CheckProfanity(s.settings.badwords, text)
    ensures InSession(s, m, text, lower, w) == Strike(s, m.from, text, w.now)
  {
  }

  // ---------------------------------------------------------------------
  // Gates
  // ---------------------------------------------------------------------

  /** The broadcast, development and maintenance gates run before `getUser`:
      they leave the whole state alone and send at most one notice. */
  lemma GatesTouchNothing(s: State, env: Env, m: Inbound, w: World)
    requires QueueKnown(s) && WorldOk(w)
    ensures m.from == StatusBroadcast ==> Turn(s, env, m, w) == Step(s, [])
    ensures m.from != StatusBroadcast && s.settings.developmentMode && env.devNumber != Some(m.from)
            ==> Turn(s, env, m, w) == Step(s, [Reply(DevelopmentNotice(s.settings.development))])
    ensures m.from != StatusBroadcast && !(s.settings.developmentMode && env.devNumber != Some(m.from))
            && s.settings.maintenanceMode && env.adminNumber != Some(m.from)
            ==> Turn(s, env, m, w) == Step(s, [Reply(MaintenanceNotice)])
  {
  }

  /** A banned user gets the ban reply and only their `lastActive` changes. */
  lemma BannedUserOnlyRefreshed(s: State, env: Env, m: Inbound, w: World)
    requires QueueKnown(s) && WorldOk(w)
    requires m.from != StatusBroadcast
    requires !(s.settings.developmentMode && env.devNumber != Some(m.from))
    requires !(s.settings.maintenanceMode && env.adminNumber != Some(m.from))
    requires m.from in s.users && s.users[m.from].isBanned
    ensures Turn(s, env, m, w).state == s.(users := s.users[m.from := s.users[m.from].(lastActive := w.now.iso)])
    ensures Turn(s, env, m, w).effects == [Reply(BannedNotice(s.users[m.from].nickname, Contact(env)))]
  {
  }

  // ---------------------------------------------------------------------
  // !chat
  // ---------------------------------------------------------------------

  /** `!chat` from a queued user changes nothing beyond `getUser`. */
  lemma ChatWhileQueued(s: State, env: Env, m: Inbound, w: World)
    requires Inv(s) && WorldOk(w) && Admitted(s, env, m)
    requires m.from !in s.chats && CommandOf(m) == "!chat" && m.from in s.queue
    ensures Turn(s, env, m, w) == Step(Touch(s, m.from, w.now), [Reply(AlreadyQueued)])
  {
    CommandTurn(s, env, m, w);
    ChatCommand(Touch(s, m.from, w.now), m, Lower(Trim(m.body)), w);
  }

  /** `!chat` into an empty queue queues the sender. */
  lemma ChatIntoEmptyQueue(s: State, env: Env, m: Inbound, w: World)
    requires Inv(s) && WorldOk(w) && Admitted(s, env, m)
    requires m.from !in s.chats && CommandOf(m) == "!chat" && s.queue == []
    ensures Turn(s, env, m, w) == Step(Touch(s, m.from, w.now).(queue := [m.from]), [Reply(Queued)])
  {
    CommandTurn(s, env, m, w);
    ChatCommand(Touch(s, m.from, w.now), m, Lower(Trim(m.body)), w);
  }

  /** `!chat` with someone waiting pairs the sender with the head of the
      queue: the queue loses exactly its head, both sides get the same new
      room, each other as partner and no strikes, both chat counts go up by
      one, the room's transcript starts empty, and both are notified. */
  lemma ChatPairsWithHead(s: State, env: Env, m: Inbound, w: World)
    requires Inv(s) && WorldOk(w) && Admitted(s, env, m)
    requires m.from !in s.chats && CommandOf(m) == "!chat"
    requires m.from !in s.queue && s.queue != []
    ensures var r := Turn(s, env, m, w).state;
            var u, p := m.from, s.queue[0];
            var room := GenerateRoomId(w.roomDraw);
            var s1 := Touch(s, u, w.now);
            && p != u
            && r.queue == s.queue[1..]
            && r.chats == s.chats[u := Side(room, p, 0)][p := Side(room, u, 0)]
            && r.users.Keys == s1.users.Keys
            && r.users[u] == s1.users[u].(chatCount := s1.users[u].chatCount + 1)
            && r.users[p] == s.users[p].(chatCount := s.users[p].chatCount + 1)
            && (forall x :: x in s1.users && x != u && x != p ==> r.users[x] == s1.users[x])
            && r.transcripts == s.transcripts[room := []]
            && r.violations == s.violations && r.settings == s.settings && r.serverLogs == s.serverLogs
    ensures Turn(s, env, m, w).effects == [Send(m.from, Matched), Send(s.queue[0], MatchedWithYou)]
  {
    CommandTurn(s, env, m, w);
    var s1 := Touch(s, m.from, w.now);
    ChatCommand(s1, m, Lower(Trim(m.body)), w);
    RequestChatPairs(s1, m.from, w);
  }

  /** The pairing branch of `RequestChat` on its own. */
  lemma RequestChatPairs(s: State, u: UserId, w: World)
    requires u in s.users && QueueKnown(s) && WorldOk(w)
    requires u !in s.queue && s.queue != [] && s.queue[0] != u
    ensures var r := RequestChat(s, u, w).state;
            var p := s.queue[0];
            var room := GenerateRoomId(w.roomDraw);
            && r.queue == s.queue[1..]
            && r.chats == s.chats[u := Side(room, p, 0)][p := Side(room, u, 0)]
            && r.users.Keys == s.users.Keys
            && r.users[u] == s.users[u].(chatCount := s.users[u].chatCount + 1)
            && r.users[p] == s.users[p].(chatCount := s.users[p].chatCount + 1)
            && (forall x :: x in s.users && x != u && x != p ==> r.users[x] == s.users[x])
            && r.transcripts == s.transcripts[room := []]
            && r.violations == s.violations && r.settings == s.settings
    ensures RequestChat(s, u, w).effects == [Send(u, Matched), Send(s.queue[0], MatchedWithYou)]
  {
  }

  /** The self-pairing branch of `!chat` is never taken. */
  lemma NoSelfMatch(s: State, env: Env, m: Inbound, w: World)
    requires QueueKnown(s) && WorldOk(w)
    ensures Reply(SelfMatch) !in Turn(s, env, m, w).effects
  {
    if Admitted(s, env, m) {
      AdmittedTurn(s, env, m, w);
      var s1 := Touch(s, m.from, w.now);
      if m.from in s.chats {
        InSessionNoSelfMatch(s1, m, Trim(m.body), Lower(Trim(m.body)), w);
      } else {
        CommandNoSelfMatch(s1, m, Lower(Trim(m.body)), w);
      }
    }
  }

  lemma InSessionNoSelfMatch(s: State, m: Inbound, text: string, lower: string, w: World)
    requires m.from in s.chats && m.from in s.users
    ensures Reply(SelfMatch) !in InSession(s, m, text, lower, w).effects
  {
    var side := s.chats[m.from];
    if lower == "!stop" || lower == "!skip" {
    } else if lower == "!lapor" {
      ReportNoSelfMatch(s, m.from, w.now);
    } else if m.hasMedia && m.msgType.Forwardable() {
      MediaNoSelfMatch(s, m, side.roomId, side.partnerId, w);
    } else if CheckProfanity(s.settings.badwords, text) {
      StrikeNoSelfMatch(s, m.from, text, w.now);
    }
  }

  lemma ReportNoSelfMatch(s: State, u: UserId, now: Clock)
    requires u in s.chats
    ensures Reply(SelfMatch) !in Report(s, u, now).effects
  {
    assert Report(s, u, now).effects == [Reply(ReportReceived), Send(s.chats[u].partnerId, EndedByReport)];
  }

  lemma MediaNoSelfMatch(s: State, m: Inbound, room: RoomId, partner: UserId, w: World)
    requires m.from in s.users
    ensures Reply(SelfMatch) !in MediaForward(s, m, room, partner, w).effects
  {
  }

  lemma StrikeNoSelfMatch(s: State, u: UserId, text: string, now: Clock)
    requires u in s.chats && u in s.users
    ensures Reply(SelfMatch) !in Strike(s, u, text, now).effects
  {
  }

  lemma CommandNoSelfMatch(s: State, m: Inbound, lower: string, w: World)
    requires m.from in s.users && QueueKnown(s) && WorldOk(w)
    ensures Reply(SelfMatch) !in Command(s, m, lower, w).effects
  {
  }

  // ---------------------------------------------------------------------
  // Out-of-session !stop
  // ---------------------------------------------------------------------

  /** Out-of-session `!stop` takes a queued sender out of the queue, and a
      second `!stop` right after it only replies. */
  lemma StopTwice(s: State, env: Env, m: Inbound, w1: World, w2: World)
    requires Inv(s) && WorldOk(w1) && WorldOk(w2) && Admitted(s, env, m)
    requires m.from !in s.chats && CommandOf(m) == "!stop"
    ensures var r1 := Turn(s, env, m, w1);
            && r1.state == Touch(s, m.from, w1.now).(queue := Without(s.queue, m.from))
            && r1.effects == [Reply(if m.from in s.queue then SearchCancelled else NothingToStop)]
    ensures Inv(Turn(s, env, m, w1).state)
    ensures var r1 := Turn(s, env, m, w1).state;
            var r2 := Turn(r1, env, m, w2);
            r2.state.queue == r1.queue && r2.effects == [Reply(NothingToStop)]
  {
    CommandTurn(s, env, m, w1);
    StopCommand(Touch(s, m.from, w1.now), m, Lower(Trim(m.body)), w1);
    var r1 := Turn(s, env, m, w1).state;
    TurnKeepsInv(s, env, m, w1);
    assert r1.settings == s.settings && r1.chats == s.chats;
    CommandTurn(r1, env, m, w2);
    StopCommand(Touch(r1, m.from, w2.now), m, Lower(Trim(m.body)), w2);
    assert r1.users[m.from].isBanned == false;
  }

  // ---------------------------------------------------------------------
  // In-session handling
  // ---------------------------------------------------------------------

  /** `!stop` or `!skip` in a chat removes both sides and nothing else. */
  lemma StopInSession(s: State, env: Env, m: Inbound, w: World)
    requires Inv(s) && WorldOk(w) && Admitted(s, env, m) && m.from in s.chats
    requires Lower(Trim(m.body)) == "!stop" || Lower(Trim(m.body)) == "!skip"
    ensures var p := s.chats[m.from].partnerId;
            && Turn(s, env, m, w).state == Touch(s, m.from, w.now).(chats := s.chats - {m.from, p})
            && Turn(s, env, m, w).effects == [Reply(Goodbye), Send(p, PartnerLeft)]
  {
    var p := s.chats[m.from].partnerId;
    assert s.chats - {m.from} - {p} == s.chats - {m.from, p};
  }

  /** `!lapor` appends exactly one report, holding the room's last (at
      most ten) transcript entries. */
  lemma ReportInSession(s: State, env: Env, m: Inbound, w: World)
    requires Inv(s) && WorldOk(w) && Admitted(s, env, m) && m.from in s.chats
    requires Lower(Trim(m.body)) == "!lapor"
    ensures var r := Turn(s, env, m, w).state;
            var side := s.chats[m.from];
            var p := side.partnerId;
            && r.violations == s.violations + [UserReport(w.now.local, side.roomId,
                 Party(m.from, s.users[m.from].nickname), Party(p, s.users[p].nickname),
                 LastN(TranscriptOf(s, side.roomId), ReportTail))]
  {
    var u := m.from;
    ReportTurn(s, env, m, w);
    var p := s.chats[u].partnerId;
    assert Mirrored(s.chats, u);
    var s1 := Touch(s, u, w.now);
    ReportOutcome(s1, u, w.now);
    assert s1.users[u].nickname == s.users[u].nickname;
    assert s1.users[p].nickname == s.users[p].nickname;
  }

  /** `!lapor` removes both sides whatever their strike counts, leaves the
      queue and transcripts alone and notifies both users. */
  lemma ReportEndsChat(s: State, env: Env, m: Inbound, w: World)
    requires Inv(s) && WorldOk(w) && Admitted(s, env, m) && m.from in s.chats
    requires Lower(Trim(m.body)) == "!lapor"
    ensures var r := Turn(s, env, m, w).state;
            && r.chats == s.chats - {m.from, s.chats[m.from].partnerId}
            && r.queue == s.queue && r.transcripts == s.transcripts
            && r.users == Touch(Touch(s, m.from, w.now), s.chats[m.from].partnerId, w.now).users
            && r.settings == s.settings && r.serverLogs == s.serverLogs
    ensures Turn(s, env, m, w).effects == [Reply(ReportReceived), Send(s.chats[m.from].partnerId, EndedByReport)]
  {
    var u := m.from;
    ReportTurn(s, env, m, w);
    assert Mirrored(s.chats, u);
    ReportOutcome(Touch(s, u, w.now), u, w.now);
  }

  /** The report branch bans nobody. */
  lemma ReportBansNobody(s: State, env: Env, m: Inbound, w: World, x: UserId)
    requires Inv(s) && WorldOk(w) && Admitted(s, env, m) && m.from in s.chats
    requires Lower(Trim(m.body)) == "!lapor" && x in s.users
    ensures x in Turn(s, env, m, w).state.users
    ensures Turn(s, env, m, w).state.users[x].isBanned == s.users[x].isBanned
  {
    var u := m.from;
    ReportTurn(s, env, m, w);
    var p := s.chats[u].partnerId;
    assert Mirrored(s.chats, u);
    var s1 := Touch(s, u, w.now);
    ReportUsers(s1, u, w.now);
    TwiceTouchedKeepsBan(s1, u, p, w.now, x);
  }

  lemma ReportTurn(s: State, env: Env, m: Inbound, w: World)
    requires Inv(s) && WorldOk(w) && Admitted(s, env, m) && m.from in s.chats
    requires Lower(Trim(m.body)) == "!lapor"
    ensures Turn(s, env, m, w) == Report(Touch(s, m.from, w.now), m.from, w.now)
  {
    AdmittedTurn(s, env, m, w);
    InSessionReports(Touch(s, m.from, w.now), m, Trim(m.body), Lower(Trim(m.body)), w);
  }

  lemma InSessionReports(s: State, m: Inbound, text: string, lower: string, w: World)
    requires m.from in s.chats && m.from in s.users && lower == "!lapor"
    ensures InSession(s, m, text, lower, w) == Report(s, m.from, w.now)
  {
  }

  /** What `Report` does to a state holding both records. */
  lemma ReportOutcome(s: State, u: UserId, now: Clock)
    requires u in s.chats && u in s.users && s.chats[u].partnerId in s.users
    ensures var r := Report(s, u, now).state;
            var side := s.chats[u];
            var p := side.partnerId;
            && r.violations == s.violations + [UserReport(now.local, side.roomId,
                 Party(u, s.users[u].nickname), Party(p, s.users[p].nickname),
                 LastN(TranscriptOf(s, side.roomId), ReportTail))]
            && r.chats == s.chats - {u, p}
            && r.queue == s.queue && r.transcripts == s.transcripts
  {
    var p := s.chats[u].partnerId;
    assert s.chats - {u} - {p} == s.chats - {u, p};
  }

  lemma ReportUsers(s: State, u: UserId, now: Clock)
    requires u in s.chats
    ensures Report(s, u, now).state.users == Touch(Touch(s, u, now), s.chats[u].partnerId, now).users
  {
  }

  lemma TwiceTouchedKeepsBan(s: State, u: UserId, p: UserId, now: Clock, x: UserId)
    requires x in s.users
    ensures x in Touch(Touch(s, u, now), p, now).users
    ensures Touch(Touch(s, u, now), p, now).users[x].isBanned == s.users[x].isBanned
  {
  }

  /** A profane text below the third strike raises only the sender's strike
      count, logs one bad-word violation, warns with the count, and is
      neither forwarded nor logged to the transcript. */
  lemma ProfaneStrike(s: State, env: Env, m: Inbound, w: World)
    requires QueueKnown(s) && ChatsKnown(s) && WorldOk(w) && Admitted(s, env, m) && m.from in s.chats
    requires PlainInSessionText(m) && CheckProfanity(s.settings.badwords, Trim(m.body))
    requires s.chats[m.from].profanityCount + 1 < BanThreshold
    ensures var r := Turn(s, env, m, w).state;
            var side := s.chats[m.from];
            r.chats == s.chats[m.from := side.(profanityCount := side.profanityCount + 1)]
    ensures var r := Turn(s, env, m, w).state;
            var side := s.chats[m.from];
            r.violations == s.violations + [BadWord(w.now.local, m.from, s.users[m.from].nickname, side.roomId, Trim(m.body))]
    ensures Turn(s, env, m, w).state.violations[|s.violations|].TypeTag() == "Kata Kasar"
    ensures var r := Turn(s, env, m, w).state;
            && r.transcripts == s.transcripts && r.queue == s.queue
            && r.users == Touch(s, m.from, w.now).users && r.settings == s.settings
            && r.serverLogs == s.serverLogs
    ensures Turn(s, env, m, w).effects == [Reply(StrikeWarning(s.chats[m.from].profanityCount + 1))]
  {
    ProfaneTurn(s, env, m, w);
    StrikeWarns(s, m.from, Trim(m.body), w.now);
  }

  /** Past the gates, a profane plain text in a chat is a strike. */
  lemma ProfaneTurn(s: State, env: Env, m: Inbound, w: World)
    requires QueueKnown(s) && WorldOk(w) && Admitted(s, env, m) && m.from in s.chats
    requires PlainInSessionText(m) && CheckProfanity(s.settings.badwords, Trim(m.body))
    ensures m.from in Touch(s, m.from, w.now).users
    ensures Turn(s, env, m, w) == Strike(Touch(s, m.from, w.now), m.from, Trim(m.body), w.now)
  {
    SessionTurn(s, env, m, w);
    ProfaneSession(Touch(s, m.from, w.now), m, Trim(m.body), Lower(Trim(m.body)), w);
  }

  /** A strike below the threshold, on `Strike` after `getUser`. */
  lemma StrikeWarns(s: State, u: UserId, text: string, now: Clock)
    requires u in s.chats && u in s.users && s.chats[u].profanityCount + 1 < BanThreshold
    ensures var side := s.chats[u];
            var count := side.profanityCount + 1;
            var v := BadWord(now.local, u, s.users[u].nickname, side.roomId, text);
            Strike(Touch(s, u, now), u, text, now)
            == Step(s.(users := Touch(s, u, now).users, chats := s.chats[u := side.(profanityCount := count)],
                       violations := s.violations + [v]),
                    [Reply(StrikeWarning(count))])
  {
  }

  /** The third strike bans the sender and removes both sides; no violation
      is appended and nothing is forwarded. */
  lemma ProfaneBan(s: State, env: Env, m: Inbound, w: World)
    requires QueueKnown(s) && ChatsKnown(s) && WorldOk(w) && Admitted(s, env, m) && m.from in s.chats
    requires PlainInSessionText(m) && CheckProfanity(s.settings.badwords, Trim(m.body))
    requires s.chats[m.from].profanityCount + 1 >= BanThreshold
    ensures var r := Turn(s, env, m, w).state;
            var p := s.chats[m.from].partnerId;
            && m.from in r.users && r.users[m.from].isBanned
            && r.chats == s.chats - {m.from, p}
            && r.violations == s.violations
            && r.transcripts == s.transcripts && r.queue == s.queue
    ensures var t := Touch(s, m.from, w.now).users;
            var r := Turn(s, env, m, w).state;
            && r.users == t[m.from := t[m.from].(isBanned := true)]
            && r.settings == s.settings && r.serverLogs == s.serverLogs
    ensures Turn(s, env, m, w).effects == [Reply(AutoBanned), Send(s.chats[m.from].partnerId, EndedByViolation)]
  {
    var u := m.from;
    var side := s.chats[u];
    var p := side.partnerId;
    var chats1 := s.chats[u := side.(profanityCount := side.profanityCount + 1)];
    ProfaneTurn(s, env, m, w);
    assert chats1 - {u} - {p} == s.chats - {u, p};
  }

  /** A clean, non-empty in-session text is forwarded to the partner and
      appended to the room's transcript. */
  lemma CleanTextForwarded(s: State, env: Env, m: Inbound, w: World)
    requires Inv(s) && WorldOk(w) && Admitted(s, env, m) && m.from in s.chats
    requires PlainInSessionText(m) && !CheckProfanity(s.settings.badwords, Trim(m.body))
    requires Trim(m.body) != []
    ensures var r := Turn(s, env, m, w).state;
            var side := s.chats[m.from];
            && r.chats == s.chats && r.violations == s.violations && r.queue == s.queue
            && r.users == Touch(s, m.from, w.now).users
            && r.settings == s.settings && r.serverLogs == s.serverLogs
            && r.transcripts == s.transcripts[side.roomId := TranscriptOf(s, side.roomId)
                 + [Entry(w.now.local, m.from, s.users[m.from].nickname, Trim(m.body), true)]]
    ensures Turn(s, env, m, w).effects == [ForwardText(s.chats[m.from].partnerId, Trim(m.body))]
  {
  }

  /** A media message in a chat: the sender is told it is on its way. A
      delivered medium is forwarded with the caption, as a sticker when it
      is one, and logged by kind; a failed download logs nothing to the
      transcript; a failed send is logged by kind all the same. Either
      failure writes one server-log line and tells the sender. */
  lemma MediaForwarded(s: State, env: Env, m: Inbound, w: World)
    requires Inv(s) && WorldOk(w) && Admitted(s, env, m) && m.from in s.chats
    requires var lower := Lower(Trim(m.body)); lower != "!stop" && lower != "!skip" && lower != "!lapor"
    requires m.hasMedia && m.msgType.Forwardable()
    ensures var r := Turn(s, env, m, w);
            var side := s.chats[m.from];
            var entry := Entry(w.now.local, m.from, s.users[m.from].nickname, "[Media: " + m.msgType.Name() + "]", true);
            var logged := s.transcripts[side.roomId := TranscriptOf(s, side.roomId) + [entry]];
            && r.state.chats == s.chats && r.state.queue == s.queue && r.state.violations == s.violations
            && r.state.users == Touch(s, m.from, w.now).users && r.state.settings == s.settings
            && (w.media.Delivered? ==>
                  r.state.transcripts == logged && r.state.serverLogs == s.serverLogs
                  && r.effects == [Reply(MediaOnTheWay),
                                   ForwardMedia(side.partnerId, m.msgType, m.body, m.msgType.Name() == "sticker")])
            && (w.media.DownloadFailed? ==>
                  r.state.transcripts == s.transcripts && r.state.serverLogs == PushLog(s.serverLogs, MediaFailureLine(w.now, w.media.error))
                  && r.effects == [Reply(MediaOnTheWay), Reply(MediaFailed)])
            && (w.media.SendFailed? ==>
                  r.state.transcripts == logged && r.state.serverLogs == PushLog(s.serverLogs, MediaFailureLine(w.now, w.media.error))
                  && r.effects == [Reply(MediaOnTheWay), Reply(MediaFailed)])
  {
    MediaTurn(s, env, m, w);
    var side := s.chats[m.from];
    var t := Touch(s, m.from, w.now);
    match w.media
    case Delivered => MediaDelivered(t, m, side.roomId, side.partnerId, w);
    case DownloadFailed(_) => MediaDownloadFailed(t, m, side.roomId, side.partnerId, w);
    case SendFailed(_) => MediaSendFailed(t, m, side.roomId, side.partnerId, w);
    assert t.transcripts == s.transcripts && t.serverLogs == s.serverLogs && t.chats == s.chats;
    assert t.users[m.from].nickname == s.users[m.from].nickname;
    assert Touch(t, m.from, w.now).users == t.users && t.settings == s.settings;
  }

  /** Past the gates, a media message in a chat is forwarded. */
  lemma MediaTurn(s: State, env: Env, m: Inbound, w: World)
    requires QueueKnown(s) && WorldOk(w) && Admitted(s, env, m) && m.from in s.chats
    requires var lower := Lower(Trim(m.body)); lower != "!stop" && lower != "!skip" && lower != "!lapor"
    requires m.hasMedia && m.msgType.Forwardable()
    ensures Turn(s, env, m, w) == MediaForward(Touch(s, m.from, w.now), m, s.chats[m.from].roomId, s.chats[m.from].partnerId, w)
  {
    SessionTurn(s, env, m, w);
  }

  /** The entry a forwarded medium adds to its room's transcript. */
  function MediaLogged(s: State, m: Inbound, room: RoomId, now: Clock): map<RoomId, seq<Entry>>
    requires m.from in s.users
  {
    var entry := Entry(now.local, m.from, s.users[m.from].nickname, "[Media: " + m.msgType.Name() + "]", true);
    s.transcripts[room := TranscriptOf(s, room) + [entry]]
  }

  /** A delivered medium is logged by kind and forwarded with its caption. */
  lemma MediaDelivered(s: State, m: Inbound, room: RoomId, partner: UserId, w: World)
    requires m.from in s.users && m.from in s.chats && w.media.Delivered?
    ensures var r := MediaForward(s, m, room, partner, w);
            && r.state.chats == s.chats && r.state.queue == s.queue && r.state.violations == s.violations
            && r.state.transcripts == MediaLogged(s, m, room, w.now) && r.state.serverLogs == s.serverLogs
            && r.state.users == Touch(s, m.from, w.now).users && r.state.settings == s.settings
            && r.effects == [Reply(MediaOnTheWay), ForwardMedia(partner, m.msgType, m.body, m.msgType.Name() == "sticker")]
  {
    LogChatAppends(s, room, m.from, [], Some(m.msgType), w.now);
  }

  /** A failed download logs nothing to the transcript, one line to the
      server log, and tells the sender. */
  lemma MediaDownloadFailed(s: State, m: Inbound, room: RoomId, partner: UserId, w: World)
    requires m.from in s.users && m.from in s.chats && w.media.DownloadFailed?
    ensures var r := MediaForward(s, m, room, partner, w);
            && r.state.chats == s.chats && r.state.queue == s.queue && r.state.violations == s.violations
            && r.state.transcripts == s.transcripts && r.state.users == s.users && r.state.settings == s.settings
            && r.state.serverLogs == PushLog(s.serverLogs, MediaFailureLine(w.now, w.media.error))
            && r.effects == [Reply(MediaOnTheWay), Reply(MediaFailed)]
  {
  }

  /** A failed send has already logged the medium; it adds one server-log
      line and tells the sender. */
  lemma MediaSendFailed(s: State, m: Inbound, room: RoomId, partner: UserId, w: World)
    requires m.from in s.users && m.from in s.chats && w.media.SendFailed?
    ensures var r := MediaForward(s, m, room, partner, w);
            && r.state.chats == s.chats && r.state.queue == s.queue && r.state.violations == s.violations
            && r.state.transcripts == MediaLogged(s, m, room, w.now)
            && r.state.users == Touch(s, m.from, w.now).users && r.state.settings == s.settings
            && r.state.serverLogs == PushLog(s.serverLogs, MediaFailureLine(w.now, w.media.error))
            && r.effects == [Reply(MediaOnTheWay), Reply(MediaFailed)]
  {
    LogChatAppends(s, room, m.from, [], Some(m.msgType), w.now);
  }

  /** Sessions only move forward: a side that survives a turn keeps its
      room and partner, and its strike count never goes down. */
  lemma StrikesNeverDecrease(s: State, env: Env, m: Inbound, w: World, x: UserId)
    requires Inv(s) && WorldOk(w)
    requires x in s.chats && x in Turn(s, env, m, w).state.chats
    ensures var side := Turn(s, env, m, w).state.chats[x];
            && side.roomId == s.chats[x].roomId
            && side.partnerId == s.chats[x].partnerId
            && side.profanityCount >= s.chats[x].profanityCount
  {
    if Admitted(s, env, m) {
      AdmittedTurn(s, env, m, w);
      var s1 := Touch(s, m.from, w.now);
      TouchKeepsInv(s, m.from, w.now);
      if m.from in s.chats {
        InSessionAdvances(s1, m, Trim(m.body), Lower(Trim(m.body)), w, x);
      } else {
        CommandKeepsSides(s1, m, Lower(Trim(m.body)), w, x);
      }
    }
  }

  lemma InSessionAdvances(s: State, m: Inbound, text: string, lower: string, w: World, x: UserId)
    requires m.from in s.chats && m.from in s.users
    requires x in s.chats && x in InSession(s, m, text, lower, w).state.chats
    ensures var side := InSession(s, m, text, lower, w).state.chats[x];
            && side.roomId == s.chats[x].roomId
            && side.partnerId == s.chats[x].partnerId
            && side.profanityCount >= s.chats[x].profanityCount
  {
  }

  lemma CommandKeepsSides(s: State, m: Inbound, lower: string, w: World, x: UserId)
    requires Inv(s) && m.from in s.users && m.from !in s.chats && WorldOk(w)
    requires x in s.chats
    ensures Command(s, m, lower, w).state.chats[x] == s.chats[x]
  {
    if m.from !in s.queue && |s.queue| > 0 {
      assert s.queue[0] !in s.chats;
    }
  }

  // ---------------------------------------------------------------------
  // Transcripts
  // ---------------------------------------------------------------------

  /** Every transcript entry says `isSender1`. */
  ghost predicate AllMarkedSender1(s: State) {
    forall room, i :: room in s.transcripts && 0 <= i < |s.transcripts[room]|
      ==> s.transcripts[room][i].isSender1
  }

  /** `isSender1` is computed after the sender was found in a chat, so every
      entry the handler writes has it set. */
  lemma TranscriptsAlwaysSender1(s: State, env: Env, m: Inbound, w: World)
    requires Inv(s) && WorldOk(w) && AllMarkedSender1(s)
    ensures AllMarkedSender1(Turn(s, env, m, w).state)
  {
    if Admitted(s, env, m) {
      AdmittedTurn(s, env, m, w);
      var s1 := Touch(s, m.from, w.now);
      if m.from in s.chats {
        InSessionMarksSender1(s1, m, Trim(m.body), Lower(Trim(m.body)), w);
      } else {
        CommandMarksSender1(s1, m, Lower(Trim(m.body)), w);
      }
    }
  }

  lemma InSessionMarksSender1(s: State, m: Inbound, text: string, lower: string, w: World)
    requires m.from in s.chats && m.from in s.users && AllMarkedSender1(s)
    ensures AllMarkedSender1(InSession(s, m, text, lower, w).state)
  {
    var side := s.chats[m.from];
    if lower == "!stop" || lower == "!skip" || lower == "!lapor" {
    } else if m.hasMedia && m.msgType.Forwardable() {
      LogChatMarksSender1(s, side.roomId, m.from, [], Some(m.msgType), w.now);
    } else if CheckProfanity(s.settings.badwords, text) {
    } else if text != [] {
      LogChatMarksSender1(s, side.roomId, m.from, text, None, w.now);
    }
  }

  lemma CommandMarksSender1(s: State, m: Inbound, lower: string, w: World)
    requires m.from in s.users && QueueKnown(s) && WorldOk(w) && AllMarkedSender1(s)
    ensures AllMarkedSender1(Command(s, m, lower, w).state)
  {
  }

  lemma LogChatMarksSender1(s: State, room: RoomId, id: UserId, message: string, media: Option<MsgType>, now: Clock)
    requires id in s.chats && AllMarkedSender1(s)
    ensures AllMarkedSender1(LogChat(s, room, id, message, media, now))
  {
  }
  // ---------------------------------------------------------------------
  // Several turns
  // ---------------------------------------------------------------------

  /** A strike below the ban leaves the sender admitted and in the same
      chat, ready for the next message. */
  lemma StrikeStep(s: State, env: Env, m: Inbound, w: World)
    requires Inv(s) && WorldOk(w) && Admitted(s, env, m) && m.from in s.chats
    requires PlainInSessionText(m) && CheckProfanity(s.settings.badwords, Trim(m.body))
    requires s.chats[m.from].profanityCount + 1 < BanThreshold
    ensures var r := Turn(s, env, m, w).state;
            && Inv(r) && Admitted(r, env, m) && r.settings == s.settings
            && m.from in r.chats
            && r.chats[m.from] == s.chats[m.from].(profanityCount := s.chats[m.from].profanityCount + 1)
            && |r.violations| == |s.violations| + 1
    ensures Turn(s, env, m, w).effects == [Reply(StrikeWarning(s.chats[m.from].profanityCount + 1))]
  {
    TurnKeepsInv(s, env, m, w);
    ProfaneStrike(s, env, m, w);
  }

  /** The same profane text sent three times in a fresh chat: the first two
      only warn the sender (with counts 1 and 2, and nothing reaches the
      partner), the third ends the chat for both sides and bans the sender,
      with exactly two violations logged on the way. */
  lemma ThreeStrikesBan(s0: State, env: Env, m: Inbound, w1: World, w2: World, w3: World)
    requires Inv(s0) && WorldOk(w1) && WorldOk(w2) && WorldOk(w3) && Admitted(s0, env, m)
    requires m.from in s0.chats && s0.chats[m.from].profanityCount == 0
    requires PlainInSessionText(m) && CheckProfanity(s0.settings.badwords, Trim(m.body))
    ensures QueueKnown(Turn(s0, env, m, w1).state)
    ensures QueueKnown(Turn(Turn(s0, env, m, w1).state, env, m, w2).state)
    ensures Turn(s0, env, m, w1).effects == [Reply(StrikeWarning(1))]
    ensures Turn(Turn(s0, env, m, w1).state, env, m, w2).effects == [Reply(StrikeWarning(2))]
    ensures var t3 := Turn(Turn(Turn(s0, env, m, w1).state, env, m, w2).state, env, m, w3);
            var p := s0.chats[m.from].partnerId;
            && t3.effects == [Reply(AutoBanned), Send(p, EndedByViolation)]
            && m.from in t3.state.users && t3.state.users[m.from].isBanned
            && m.from !in t3.state.chats && p !in t3.state.chats
            && |t3.state.violations| == |s0.violations| + 2
  {
    TwoWarnings(s0, env, m, w1, w2);
    ProfaneBan(Turn(Turn(s0, env, m, w1).state, env, m, w2).state, env, m, w3);
  }

  /** The first two profane texts of a fresh chat: two warnings, two
      violations, and the sender still in the same chat at two strikes. */
  lemma TwoWarnings(s0: State, env: Env, m: Inbound, w1: World, w2: World)
    requires Inv(s0) && WorldOk(w1) && WorldOk(w2) && Admitted(s0, env, m)
    requires m.from in s0.chats && s0.chats[m.from].profanityCount == 0
    requires PlainInSessionText(m) && CheckProfanity(s0.settings.badwords, Trim(m.body))
    ensures QueueKnown(Turn(s0, env, m, w1).state)
    ensures Turn(s0, env, m, w1).effects == [Reply(StrikeWarning(1))]
    ensures var s2 := Turn(Turn(s0, env, m, w1).state, env, m, w2);
            && s2.effects == [Reply(StrikeWarning(2))]
            && Inv(s2.state) && Admitted(s2.state, env, m) && s2.state.settings == s0.settings
            && m.from in s2.state.chats && s2.state.chats[m.from] == s0.chats[m.from].(profanityCount := 2)
            && |s2.state.violations| == |s0.violations| + 2
  {
    StrikeStep(s0, env, m, w1);
    var s1 := Turn(s0, env, m, w1).state;
    StrikeStep(s1, env, m, w2);
    assert s1.chats[m.from].profanityCount + 1 == 2;
  }

  /** `!chat` into an empty queue leaves the sender waiting and lets any
      other admitted user through the gates. */
  lemma QueueStep(s: State, env: Env, ma: Inbound, mb: Inbound, w: World)
    requires Inv(s) && WorldOk(w) && s.queue == []
    requires Admitted(s, env, ma) && Admitted(s, env, mb) && ma.from != mb.from
    requires ma.from !in s.chats && mb.from !in s.chats && CommandOf(ma) == "!chat"
    ensures var r := Turn(s, env, ma, w).state;
            && Inv(r) && Admitted(r, env, mb) && r.queue == [ma.from] && r.chats == s.chats
  {
    ChatIntoEmptyQueue(s, env, ma, w);
    TurnKeepsInv(s, env, ma, w);
  }

  /** Two users sending `!chat` to an idle bot end up in one room with each
      other, and the queue is empty again. */
  lemma TwoRequestsPair(s0: State, env: Env, ma: Inbound, mb: Inbound, w1: World, w2: World)
    requires Inv(s0) && WorldOk(w1) && WorldOk(w2) && s0.queue == []
    requires Admitted(s0, env, ma) && Admitted(s0, env, mb) && ma.from != mb.from
    requires ma.from !in s0.chats && mb.from !in s0.chats
    requires CommandOf(ma) == "!chat" && CommandOf(mb) == "!chat"
    ensures QueueKnown(Turn(s0, env, ma, w1).state)
    ensures var t2 := Turn(Turn(s0, env, ma, w1).state, env, mb, w2);
            var room := GenerateRoomId(w2.roomDraw);
            && t2.state.queue == []
            && ma.from in t2.state.chats && t2.state.chats[ma.from] == Side(room, mb.from, 0)
            && mb.from in t2.state.chats && t2.state.chats[mb.from] == Side(room, ma.from, 0)
            && room in t2.state.transcripts && t2.state.transcripts[room] == []
            && t2.effects == [Send(mb.from, Matched), Send(ma.from, MatchedWithYou)]
  {
    QueueStep(s0, env, ma, mb, w1);
    PairStep(Turn(s0, env, ma, w1).state, env, mb, w2);
  }

  /** The pairing facts of `ChatPairsWithHead` for the two users alone. */
  lemma PairStep(s: State, env: Env, m: Inbound, w: World)
    requires Inv(s) && WorldOk(w) && Admitted(s, env, m)
    requires m.from !in s.chats && CommandOf(m) == "!chat"
    requires m.from !in s.queue && |s.queue| == 1
    ensures var r := Turn(s, env, m, w);
            var room := GenerateRoomId(w.roomDraw);
            var p := s.queue[0];
            && r.state.queue == []
            && p in r.state.chats && r.state.chats[p] == Side(room, m.from, 0)
            && m.from in r.state.chats && r.state.chats[m.from] == Side(room, p, 0)
            && room in r.state.transcripts && r.state.transcripts[room] == []
            && r.effects == [Send(m.from, Matched), Send(p, MatchedWithYou)]
  {
    ChatPairsWithHead(s, env, m, w);
  }

  /** The first greeting shows the rules and then the menu; a second
      greeting shows only the menu. */
  lemma RulesShownOnce(s0: State, env: Env, m: Inbound, w1: World, w2: World)
    requires Inv(s0) && WorldOk(w1) && WorldOk(w2) && Admitted(s0, env, m)
    requires m.from !in s0.chats && CommandOf(m) in Greetings
    requires m.from !in s0.users || !s0.users[m.from].hasSeenRules
    ensures Inv(Turn(s0, env, m, w1).state)
    ensures var t1 := Turn(s0, env, m, w1);
            var t2 := Turn(t1.state, env, m, w2);
            var menu := Reply(Menu(RenderMenu(s0.settings.menu, Touch(s0, m.from, w1.now).users[m.from].nickname)));
            && t1.effects == [Reply(WelcomeRules(s0.settings.welcome)), menu]
            && t1.state.users[m.from].hasSeenRules
            && t2.effects == [menu]
  {
    AdmittedTurn(s0, env, m, w1);
    TurnKeepsInv(s0, env, m, w1);
    var s1 := Turn(s0, env, m, w1).state;
    assert Admitted(s1, env, m);
    AdmittedTurn(s1, env, m, w2);
  }

  /** The menu shows the user's nickname, with its `$` patterns expanded,
      in place of the first `{nickname}` and leaves the rest of the template
      as it is; a nickname without `$` appears as it is. */
  lemma MenuNamesUser(template: string, nickname: string, i: nat)
    requires OccursAt(template, NicknamePlaceholder, i)
    requires forall j :: 0 <= j < i ==> !OccursAt(template, NicknamePlaceholder, j)
    ensures var rest := template[i + |NicknamePlaceholder|..];
            RenderMenu(template, nickname)
            == template[..i] + Substitute(nickname, template[..i], NicknamePlaceholder, rest) + rest
    ensures '$' !in nickname ==>
              RenderMenu(template, nickname)
              == template[..i] + nickname + template[i + |NicknamePlaceholder|..]
  {
    ReplaceFirstAt(template, NicknamePlaceholder, nickname, i);
    if '$' !in nickname {
      SubstituteLiteral(nickname, template[..i], NicknamePlaceholder, template[i + |NicknamePlaceholder|..]);
    }
  }

  /** A nickname holding `$&` shows the placeholder itself there. */
  lemma MatchPatternInNickname()
    ensures RenderMenu("Hai {nickname}", "a$&b") == "Hai " + "a{nickname}b"
  {
    var t := "Hai {nickname}";
    assert t[4..14] == NicknamePlaceholder;
    forall j | 0 <= j < 4
      ensures !OccursAt(t, NicknamePlaceholder, j)
    {
      assert t[j..j + 10][0] == t[j] != '{';
    }
    MenuNamesUser(t, "a$&b", 4);
    MatchPatternExpands();
    var before, rest := t[..4], t[14..];
    assert before == "Hai " && rest == [];
    var mid := Substitute("a$&b", before, NicknamePlaceholder, rest);
    assert RenderMenu(t, "a$&b") == before + mid + rest;
    assert mid == "a{nickname}b";
    assert before + mid + rest == "Hai " + "a{nickname}b";
  }
}
