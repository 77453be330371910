/** The bot's process state as an object whose handlers update it in place,
    each proved to do what the corresponding function of `Dispatch`,
    `Admin` or `Dashboard` says. */
module Bot {
  import opened Text
  import opened Records
  import opened Moderation
  import opened Dispatch
  import opened Invariants
  import Admin
  import opened Dashboard

  class Coordinator {
    /** The two environment numbers, read once at start-up. */
    const env: Env
    /** `db`: user records by id. */
    var users: map<UserId, User>
    /** The violation log. */
    var violations: seq<Violation>
    /** `waitingQueue`. */
    var queue: seq<UserId>
    /** `activeChats`: each side of a session under its own id. */
    var chats: map<UserId, Side>
    /** The per-room chat-log files. */
    var transcripts: map<RoomId, seq<Entry>>
    var settings: Settings
    /** The bounded server log. */
    var serverLogs: seq<LogLine>

    function Snapshot(): State
      reads this
    {
      State(users, violations, queue, chats, transcripts, settings, serverLogs)
    }

    ghost predicate Valid()
      reads this
    {
      Inv(Snapshot())
    }

    /** Start-up: the loaded records, violations, chat logs and settings; no
        one waits or chats. `logs` are the lines written while starting (the
        start-up notice and whatever loading the data files logged). */
    constructor(env: Env, users: map<UserId, User>, violations: seq<Violation>,
                transcripts: map<RoomId, seq<Entry>>, settings: Settings, logs: seq<LogLine>)
      requires |logs| <= LogCapacity
      ensures Valid()
      ensures Snapshot() == State(users, violations, [], map[], transcripts, settings, logs)
      ensures this.env == env
    {
      this.env := env;
      this.users := users;
      this.violations := violations;
      this.queue := [];
      this.chats := map[];
      this.transcripts := transcripts;
      this.settings := settings;
      this.serverLogs := logs;
    }

    /** `customLog`: appends a line and drops the oldest past the capacity. */
    method CustomLog(message: string, now: Clock)
      modifies this
      ensures Snapshot() == old(Snapshot()).(serverLogs := PushLog(old(serverLogs), LogLine(now.local, message)))
      ensures old(|serverLogs|) <= LogCapacity ==> |serverLogs| <= LogCapacity
    {
      serverLogs := serverLogs + [LogLine(now.local, message)];
      if |serverLogs| > LogCapacity {
        serverLogs := serverLogs[1..];
      }
    }

    /** `getUser`: creates the record on first contact, refreshes
        `lastActive` and returns the record. */
    method GetUser(id: UserId, now: Clock) returns (user: User)
      modifies this
      ensures Snapshot() == Touch(old(Snapshot()), id, now)
      ensures id in users && user == users[id]
      ensures old(Valid()) ==> Valid()
    {
      if id !in users {
        users := users[id := NewUser(id, now)];
      }
      users := users[id := users[id].(lastActive := now.iso)];
      user := users[id];
      if old(Valid()) {
        TouchKeepsInv(old(Snapshot()), id, now);
      }
    }

    /** `logChatMessage`. */
    method LogChatMessage(room: RoomId, id: UserId, message: string, media: Option<MsgType>, now: Clock)
      modifies this
      ensures Snapshot() == LogChat(old(Snapshot()), room, id, message, media, now)
    {
      var user := GetUser(id, now);
      var isSender1 := id in chats;
      var text := LoggedText(message, media);
      var logs := if room in transcripts then transcripts[room] else [];
      transcripts := transcripts[room := logs + [Entry(now.local, id, user.nickname, text, isSender1)]];
    }

    /** The `message` handler. */
    method HandleMessage(m: Inbound, w: World) returns (effects: seq<Effect>)
      requires Valid() && WorldOk(w)
      modifies this
      ensures Snapshot() == Turn(old(Snapshot()), env, m, w).state
      ensures effects == Turn(old(Snapshot()), env, m, w).effects
      ensures Valid()
    {
      TurnKeepsInv(Snapshot(), env, m, w);
      if m.from == StatusBroadcast {
        return [];
      }
      if settings.developmentMode && env.devNumber != Some(m.from) {
        return [Reply(DevelopmentNotice(settings.development))];
      }
      if settings.maintenanceMode && env.adminNumber != Some(m.from) {
        return [Reply(MaintenanceNotice)];
      }
      var text := Trim(m.body);
      var lower := Lower(text);
      var user := GetUser(m.from, w.now);
      if user.isBanned {
        return [Reply(BannedNotice(user.nickname, Contact(env)))];
      }
      if m.from in chats {
        effects := HandleInSession(m, text, lower, w);
      } else {
        effects := HandleCommand(m, lower, w);
      }
    }

    /** In-session handling. */
    method HandleInSession(m: Inbound, text: string, lower: string, w: World) returns (effects: seq<Effect>)
      requires m.from in chats && m.from in users
      modifies this
      ensures Snapshot() == InSession(old(Snapshot()), m, text, lower, w).state
      ensures effects == InSession(old(Snapshot()), m, text, lower, w).effects
    {
      var u := m.from;
      var room := chats[u].roomId;
      var partner := chats[u].partnerId;
      if lower == "!stop" || lower == "!skip" {
        effects := [Reply(Goodbye), Send(partner, PartnerLeft)];
        chats := chats - {u};
        chats := chats - {partner};
      } else if lower == "!lapor" {
        effects := FileReport(u, w.now);
      } else if m.hasMedia && m.msgType.Forwardable() {
        effects := ForwardMediaMessage(m, room, partner, w);
      } else if CheckProfanity(settings.badwords, text) {
        chats := chats[u := chats[u].(profanityCount := chats[u].profanityCount + 1)];
        var count := chats[u].profanityCount;
        if count >= BanThreshold {
          users := users[u := users[u].(isBanned := true)];
          effects := [Reply(AutoBanned), Send(partner, EndedByViolation)];
          chats := chats - {u};
          chats := chats - {partner};
        } else {
          violations := violations + [BadWord(w.now.local, u, users[u].nickname, room, text)];
          effects := [Reply(StrikeWarning(count))];
        }
      } else if text != [] {
        LogChatMessage(room, u, text, None, w.now);
        effects := [ForwardText(partner, text)];
      } else {
        effects := [];
      }
    }

    /** `!lapor`. */
    method FileReport(u: UserId, now: Clock) returns (effects: seq<Effect>)
      requires u in chats
      modifies this
      ensures Snapshot() == Report(old(Snapshot()), u, now).state
      ensures effects == Report(old(Snapshot()), u, now).effects
    {
      var room := chats[u].roomId;
      var partner := chats[u].partnerId;
      var reporter := GetUser(u, now);
      var reported := GetUser(partner, now);
      var logs := if room in transcripts then transcripts[room] else [];
      var chatHistory := LastN(logs, ReportTail);
      violations := violations + [UserReport(now.local, room, Party(u, reporter.nickname), Party(partner, reported.nickname), chatHistory)];
      chats := chats - {u};
      chats := chats - {partner};
      effects := [Reply(ReportReceived), Send(partner, EndedByReport)];
    }

    /** Forwarding an image, sticker or video to the partner. */
    method ForwardMediaMessage(m: Inbound, room: RoomId, partner: UserId, w: World) returns (effects: seq<Effect>)
      requires m.from in users
      modifies this
      ensures Snapshot() == MediaForward(old(Snapshot()), m, room, partner, w).state
      ensures effects == MediaForward(old(Snapshot()), m, room, partner, w).effects
    {
      effects := [Reply(MediaOnTheWay)];
      // Once the download succeeds, the medium is logged before it is sent.
      if !w.media.DownloadFailed? {
        LogChatMessage(room, m.from, [], Some(m.msgType), w.now);
      }
      if w.media.Delivered? {
        effects := effects + [ForwardMedia(partner, m.msgType, m.body, m.msgType.Name() == "sticker")];
      } else {
        effects := effects + [Reply(MediaFailed)];
        CustomLog("Gagal meneruskan media: " + w.media.error, w.now);
      }
    }

    /** Out-of-session commands. */
    method HandleCommand(m: Inbound, lower: string, w: World) returns (effects: seq<Effect>)
      requires m.from in users && QueueKnown(Snapshot()) && WorldOk(w)
      modifies this
      ensures Snapshot() == Command(old(Snapshot()), m, lower, w).state
      ensures effects == Command(old(Snapshot()), m, lower, w).effects
    {
      var u := m.from;
      var user := users[u];
      var command := FirstField(lower, ' ');
      if command in Greetings {
        effects := [];
        if !user.hasSeenRules {
          effects := [Reply(WelcomeRules(settings.welcome))];
          users := users[u := user.(hasSeenRules := true)];
        }
        effects := effects + [Reply(Menu(RenderMenu(settings.menu, user.nickname)))];
      } else if command == "!chat" {
        effects := HandleChatRequest(u, w);
      } else if command == "!stop" {
        effects := HandleStopSearch(u);
      } else if command == "!stiker" {
        if m.hasMedia {
          effects := [Reply(StickerWorking), StickerJob(false, "Stiker by " + user.nickname)];
        } else {
          effects := [Reply(StickerHint)];
        }
      } else if command == "!stikergif" {
        if m.hasMedia && (m.msgType.Name() == "video" || m.gifMime) {
          effects := [Reply(AnimatedStickerWorking), StickerJob(true, "Animasi by " + user.nickname)];
        } else {
          effects := [Reply(AnimatedStickerHint)];
        }
      } else {
        effects := [];
      }
    }

    /** Out-of-session `!chat`. */
    method HandleChatRequest(u: UserId, w: World) returns (effects: seq<Effect>)
      requires u in users && QueueKnown(Snapshot()) && WorldOk(w)
      modifies this
      ensures Snapshot() == RequestChat(old(Snapshot()), u, w).state
      ensures effects == RequestChat(old(Snapshot()), u, w).effects
    {
      if u in queue {
        return [Reply(AlreadyQueued)];
      }
      if |queue| > 0 {
        var partner := queue[0];
        queue := queue[1..];
        if partner == u {
          // The guard above already returned for a queued sender, so the
          // self-pairing reply is never sent.
          assert false;
        }
        var room := GenerateRoomId(w.roomDraw);
        chats := chats[u := Side(room, partner, 0)];
        chats := chats[partner := Side(room, u, 0)];
        users := users[u := users[u].(chatCount := users[u].chatCount + 1)];
        users := users[partner := users[partner].(chatCount := users[partner].chatCount + 1)];
        transcripts := transcripts[room := []];
        effects := [Send(u, Matched), Send(partner, MatchedWithYou)];
      } else {
        queue := queue + [u];
        effects := [Reply(Queued)];
      }
    }

    /** Out-of-session `!stop`. */
    method HandleStopSearch(u: UserId) returns (effects: seq<Effect>)
      modifies this
      ensures Snapshot() == CancelSearch(old(Snapshot()), u).state
      ensures effects == CancelSearch(old(Snapshot()), u).effects
    {
      if u in queue {
        queue := Without(queue, u);
        effects := [Reply(SearchCancelled)];
      } else {
        effects := [Reply(NothingToStop)];
      }
    }

    // -------------------------------------------------------------------
    // Dashboard
    // -------------------------------------------------------------------

    /** The waiting list of the status endpoint: the record of every queued
        id, fetched with `getUser` in queue order. */
    method WaitingUsers(now: Clock) returns (waiting: seq<User>)
      modifies this
      ensures Snapshot() == TouchAll(old(Snapshot()), old(queue), now)
      ensures waiting == Waiting(old(users), old(queue), now)
      ensures old(Valid()) ==> Valid()
    {
      waiting := [];
      var i := 0;
      while i < |queue|
        invariant 0 <= i <= |queue|
        invariant users == Fetched(old(users), queue[..i], now)
        invariant chats == old(chats) && queue == old(queue) && violations == old(violations)
        invariant transcripts == old(transcripts) && settings == old(settings) && serverLogs == old(serverLogs)
        invariant waiting == Waiting(old(users), queue[..i], now)
      {
        FetchedStep(old(users), queue, i, now);
        WaitingStep(old(users), queue, i, now);
        var user := GetUser(queue[i], now);
        waiting := waiting + [user];
        i := i + 1;
      }
      assert queue[..i] == queue;
      if old(Valid()) {
        TouchAllKeepsInv(old(Snapshot()), queue, now);
      }
    }

    /** The active-pair listing of the status endpoint, over the session
        keys in `order`. Each side whose room is not yet listed fetches both
        records (creating and refreshing them as `getUser` does). */
    method ActivePairs(order: seq<UserId>, now: Clock) returns (pairs: seq<Pair>)
      requires forall i :: 0 <= i < |order| ==> order[i] in chats
      modifies this
      ensures pairs == ListPairs(order, old(chats), old(users))
      ensures Snapshot() == TouchAll(old(Snapshot()), PairFetches(order, old(chats), old(users)), now)
      ensures old(Valid()) ==> Valid()
    {
      pairs := [];
      ghost var fetched: seq<UserId> := [];
      var i := 0;
      while i < |order|
        invariant 0 <= i <= |order|
        invariant pairs == ListPairs(order[..i], old(chats), old(users))
        invariant fetched == PairFetches(order[..i], old(chats), old(users))
        invariant users == Fetched(old(users), fetched, now)
        invariant chats == old(chats) && queue == old(queue) && violations == old(violations)
        invariant transcripts == old(transcripts) && settings == old(settings) && serverLogs == old(serverLogs)
        invariant old(Valid()) ==> Valid()
      {
        ListPairsStep(order, old(chats), old(users), i);
        PairFetchesStep(order, old(chats), old(users), i);
        var u := order[i];
        var side := chats[u];
        if !Listed(pairs, side.roomId) {
          var nick1, nick2 := FetchPair(u, side.partnerId, now, old(users), fetched);
          fetched := fetched + [u, side.partnerId];
          if nick1 != [] && nick2 != [] {
            pairs := pairs + [Pair(side.roomId, nick1, nick2)];
          }
        }
        i := i + 1;
      }
      assert order[..i] == order;
    }

    /** One row's two `getUser` calls, the side first and then its partner;
        it returns their nicknames, which fetching never changes. */
    method FetchPair(u: UserId, p: UserId, now: Clock, ghost start: map<UserId, User>, ghost fetched: seq<UserId>)
        returns (nick1: string, nick2: string)
      requires users == Fetched(start, fetched, now)
      modifies this
      ensures users == Fetched(start, fetched + [u, p], now)
      ensures nick1 == Nick(start, u) && nick2 == Nick(start, p)
      ensures Snapshot() == old(Snapshot()).(users := users)
      ensures old(Valid()) ==> Valid()
    {
      FetchedAppend(start, fetched, u, now);
      FetchedNick(start, fetched, now, u);
      var user1 := GetUser(u, now);
      FetchedAppend(start, fetched + [u], p, now);
      FetchedNick(start, fetched + [u], now, p);
      var user2 := GetUser(p, now);
      assert fetched + [u] + [p] == fetched + [u, p];
      nick1, nick2 := user1.nickname, user2.nickname;
    }

    // -------------------------------------------------------------------
    // Admin
    // -------------------------------------------------------------------

    /** POST /toggle-ban. */
    method ToggleBan(id: UserId)
      requires Valid()
      modifies this
      ensures Snapshot() == old(Snapshot()).(users := Admin.ToggleBan(old(users), id))
      ensures Valid()
    {
      if id in users {
        users := users[id := users[id].(isBanned := !users[id].isBanned)];
      }
      Admin.ToggleBanKeepsInv(old(Snapshot()), id);
    }

    /** POST /api/warn-user: `found` is false for an unknown id. */
    method WarnUser(id: UserId) returns (found: bool, effects: seq<Effect>)
      requires Valid()
      modifies this
      ensures found <==> old(id in users)
      ensures found ==> Snapshot() == old(Snapshot()).(users := Admin.Warn(old(users), id).value)
      ensures !found ==> Snapshot() == old(Snapshot())
      ensures found ==> effects == [Send(id, AdminWarning)]
      ensures !found ==> effects == []
      ensures Valid()
    {
      if id in users {
        Admin.WarnKeepsInv(Snapshot(), id);
        users := users[id := users[id].(warnings := users[id].warnings + 1)];
        return true, [Send(id, AdminWarning)];
      }
      return false, [];
    }

    /** POST and DELETE /api/settings/badwords. */
    method AddBadWord(word: string)
      requires Valid()
      modifies this
      ensures Snapshot() == old(Snapshot()).(settings := old(settings).(badwords := Moderation.AddBadWord(old(settings.badwords), word)))
      ensures Valid()
    {
      if word != [] && Lower(word) !in settings.badwords {
        settings := settings.(badwords := settings.badwords + [Lower(word)]);
      }
    }

    method RemoveBadWord(word: string)
      requires Valid()
      modifies this
      ensures Snapshot() == old(Snapshot()).(settings := old(settings).(badwords := Moderation.RemoveBadWord(old(settings.badwords), word)))
      ensures Valid()
    {
      if word != [] {
        settings := settings.(badwords := Without(settings.badwords, Lower(word)));
      }
    }

    /** POST /api/settings/maintenance and /api/settings/development. */
    method SetMaintenanceMode(enabled: bool)
      requires Valid()
      modifies this
      ensures Snapshot() == old(Snapshot()).(settings := old(settings).(maintenanceMode := enabled))
      ensures Valid()
    {
      settings := settings.(maintenanceMode := enabled);
    }

    method SetDevelopmentMode(enabled: bool)
      requires Valid()
      modifies this
      ensures Snapshot() == old(Snapshot()).(settings := old(settings).(developmentMode := enabled))
      ensures Valid()
    {
      settings := settings.(developmentMode := enabled);
    }

    /** POST /api/settings/messages. */
    method SetMessages(welcome: string, menu: string, development: string)
      requires Valid()
      modifies this
      ensures Snapshot() == old(Snapshot()).(settings := Admin.UpdateMessages(old(settings), welcome, menu, development))
      ensures Valid()
    {
      if welcome != [] {
        settings := settings.(welcome := welcome);
      }
      if menu != [] {
        settings := settings.(menu := menu);
      }
      if development != [] {
        settings := settings.(development := development);
      }
    }
  }
}
