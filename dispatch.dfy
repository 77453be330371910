/** One turn of the WhatsApp `message` handler as a function from the old
    state to the new state and the outbound effects. */
module Dispatch {
  import opened Text
  import opened Records
  import opened Moderation

  /** The transport's status-broadcast sender, whose messages are ignored. */
  const StatusBroadcast: UserId := "status@broadcast"
  /** Out-of-session first words that show the menu. */
  const Greetings: seq<string> := ["halo", "p", "assalamualaikum", "!menu", "hai"]
  /** The strike at which a sender is banned. */
  const BanThreshold: nat := 3
  /** How many transcript entries a report keeps. */
  const ReportTail: nat := 10
  /** The server log keeps at most this many lines. */
  const LogCapacity: nat := 100
  const NicknamePlaceholder: string := "{nickname}"

  // ---------------------------------------------------------------------
  // State helpers
  // ---------------------------------------------------------------------

  /** The nickname a new record gets: the id up to its first '@'. */
  function DefaultNickname(id: UserId): string {
    FirstField(id, '@')
  }

  function NewUser(id: UserId, now: Clock): User {
    User(DefaultNickname(id), now.iso, now.iso, 0, 0, false, false)
  }

  /** The record `getUser` at `now` leaves for `id`: the stored one with
      `lastActive` refreshed, or a new one. */
  function Refresh(users: map<UserId, User>, id: UserId, now: Clock): User {
    if id in users then users[id].(lastActive := now.iso) else NewUser(id, now)
  }

  /** `getUser`: creates the record on first contact and refreshes
      `lastActive`; nothing else in the state changes. */
  function Touch(s: State, id: UserId, now: Clock): (r: State)
    ensures id in r.users && r.users[id].lastActive == now.iso
    ensures r.users.Keys == s.users.Keys + {id}
    ensures id !in s.users ==> r.users[id] == NewUser(id, now)
    ensures id in s.users ==> r.users[id] == s.users[id].(lastActive := now.iso)
    ensures forall x :: x in s.users && x != id ==> r.users[x] == s.users[x]
    ensures r == s.(users := r.users)
  {
    s.(users := s.users[id := Refresh(s.users, id, now)])
  }

  /** The contact named in the ban reply: the admin number, or "owner" when
      it is unset or empty. */
  function Contact(env: Env): string {
    match env.adminNumber
    case Some(a) => if a != [] then a else "owner"
    case None => "owner"
  }

  /** The chat-log file of a room as read back; a missing file reads as []. */
  function TranscriptOf(s: State, room: RoomId): seq<Entry> {
    if room in s.transcripts then s.transcripts[room] else []
  }

  /** What a transcript entry says: the text, or the kind of a medium. */
  function LoggedText(message: string, media: Option<MsgType>): string {
    match media
    case None => message
    case Some(k) => "[Media: " + k.Name() + "]"
  }

  /** `logChatMessage`: refreshes the sender's record and appends one entry
      to the room's transcript, keeping its old entries and every other
      room's; a media message (`media` is its kind) is logged by kind, not
      content. */
  function LogChat(s: State, room: RoomId, id: UserId, message: string, media: Option<MsgType>, now: Clock): (r: State)
    ensures r.users == Touch(s, id, now).users
    ensures room in r.transcripts && |r.transcripts[room]| == |TranscriptOf(s, room)| + 1
    ensures r == s.(users := r.users, transcripts := r.transcripts)
  {
    var s1 := Touch(s, id, now);
    var entry := Entry(now.local, id, s1.users[id].nickname, LoggedText(message, media), id in s1.chats);
    s1.(transcripts := s1.transcripts[room := TranscriptOf(s1, room) + [entry]])
  }

  /** The entry `logChatMessage` appends: the local time, the sender, the
      sender's nickname, the text or media label, and whether the sender is
      in a chat; the room's old entries and every other room stay. */
  lemma LogChatAppends(s: State, room: RoomId, id: UserId, message: string, media: Option<MsgType>, now: Clock)
    ensures var r := LogChat(s, room, id, message, media, now);
            var nickname := if id in s.users then s.users[id].nickname else DefaultNickname(id);
            r.transcripts == s.transcripts[room := TranscriptOf(s, room)
              + [Entry(now.local, id, nickname, LoggedText(message, media), id in s.chats)]]
  {
  }

  /** `customLog`: appends a line and drops the oldest once over capacity. */
  function PushLog(logs: seq<LogLine>, line: LogLine): (r: seq<LogLine>)
    ensures |logs| <= LogCapacity ==> |r| <= LogCapacity
    ensures |logs| < LogCapacity ==> r == logs + [line]
    ensures |r| == |logs| + 1 || |r| == |logs|
    ensures r != [] && r[|r| - 1] == line
    ensures r == (logs + [line])[|logs| + 1 - |r|..]
  {
    var grown := logs + [line];
    if |grown| > LogCapacity then grown[1..] else grown
  }

  /** The server-log line written when forwarding a media message fails. */
  function MediaFailureLine(now: Clock, error: string): LogLine {
    LogLine(now.local, "Gagal meneruskan media: " + error)
  }

  /** The menu text with the first `{nickname}` replaced. */
  function RenderMenu(template: string, nickname: string): string {
    ReplaceFirst(template, NicknamePlaceholder, nickname)
  }

  /** Every queued user has a record (getUser runs before a user is queued). */
  ghost predicate QueueKnown(s: State) {
    forall i :: 0 <= i < |s.queue| ==> s.queue[i] in s.users
  }

  // ---------------------------------------------------------------------
  // The turn
  // ---------------------------------------------------------------------

  /** One inbound message: the gates in order, then in-session handling or
      an out-of-session command. */
  function Turn(s: State, env: Env, m: Inbound, w: World): (r: Step)
    requires QueueKnown(s) && WorldOk(w)
  {
    if m.from == StatusBroadcast then Step(s, [])
    else if s.settings.developmentMode && env.devNumber != Some(m.from) then
      Step(s, [Reply(DevelopmentNotice(s.settings.development))])
    else if s.settings.maintenanceMode && env.adminNumber != Some(m.from) then
      Step(s, [Reply(MaintenanceNotice)])
    else
      var text := Trim(m.body);
      var lower := Lower(text);
      var s1 := Touch(s, m.from, w.now);
      var user := s1.users[m.from];
      if user.isBanned then Step(s1, [Reply(BannedNotice(user.nickname, Contact(env)))])
      else if m.from in s1.chats then InSession(s1, m, text, lower, w)
      else Command(s1, m, lower, w)
  }

  /** In-session handling, in order: stop/skip, report, media forward,
      profanity escalation, text forward. */
  function InSession(s: State, m: Inbound, text: string, lower: string, w: World): (r: Step)
    requires m.from in s.chats && m.from in s.users
  {
    var u := m.from;
    var side := s.chats[u];
    var room := side.roomId;
    var partner := side.partnerId;
    if lower == "!stop" || lower == "!skip" then
      Step(s.(chats := s.chats - {u} - {partner}), [Reply(Goodbye), Send(partner, PartnerLeft)])
    else if lower == "!lapor" then Report(s, u, w.now)
    else if m.hasMedia && m.msgType.Forwardable() then
      MediaForward(s, m, room, partner, w)
    else if CheckProfanity(s.settings.badwords, text) then Strike(s, u, text, w.now)
    else if text != [] then
      Step(LogChat(s, room, u, text, None, w.now), [ForwardText(partner, text)])
    else
      Step(s, [])
  }

  /** `!lapor`: both records are fetched again, one report with the room's
      last transcript entries is logged, and both sides are removed. */
  function Report(s: State, u: UserId, now: Clock): (r: Step)
    requires u in s.chats
  {
    var room := s.chats[u].roomId;
    var partner := s.chats[u].partnerId;
    var s1 := Touch(s, u, now);
    var s2 := Touch(s1, partner, now);
    var report := UserReport(now.local, room,
                             Party(u, s1.users[u].nickname), Party(partner, s2.users[partner].nickname),
                             LastN(TranscriptOf(s2, room), ReportTail));
    Step(s2.(violations := s2.violations + [report], chats := s2.chats - {u} - {partner}),
         [Reply(ReportReceived), Send(partner, EndedByReport)])
  }

  /** A profane text: the sender's strike count goes up; the third strike
      bans the sender and ends the chat, an earlier one logs a violation and
      warns with the count. */
  function Strike(s: State, u: UserId, text: string, now: Clock): (r: Step)
    requires u in s.chats && u in s.users
  {
    var side := s.chats[u];
    var partner := side.partnerId;
    var count := side.profanityCount + 1;
    var chats1 := s.chats[u := side.(profanityCount := count)];
    if count >= BanThreshold then
      Step(s.(users := s.users[u := s.users[u].(isBanned := true)], chats := chats1 - {u} - {partner}),
           [Reply(AutoBanned), Send(partner, EndedByViolation)])
    else
      var v := BadWord(now.local, u, s.users[u].nickname, side.roomId, text);
      Step(s.(chats := chats1, violations := s.violations + [v]), [Reply(StrikeWarning(count))])
  }

  /** Media forward: the sender is told it is on its way; the transcript
      gets an entry once the download succeeded; a failure is logged and
      reported to the sender. */
  function MediaForward(s: State, m: Inbound, room: RoomId, partner: UserId, w: World): (r: Step)
    requires m.from in s.users
  {
    match w.media
    case DownloadFailed(e) =>
      Step(s.(serverLogs := PushLog(s.serverLogs, MediaFailureLine(w.now, e))), [Reply(MediaOnTheWay), Reply(MediaFailed)])
    case SendFailed(e) =>
      var s1 := LogChat(s, room, m.from, [], Some(m.msgType), w.now);
      Step(s1.(serverLogs := PushLog(s1.serverLogs, MediaFailureLine(w.now, e))), [Reply(MediaOnTheWay), Reply(MediaFailed)])
    case Delivered =>
      Step(LogChat(s, room, m.from, [], Some(m.msgType), w.now),
           [Reply(MediaOnTheWay), ForwardMedia(partner, m.msgType, m.body, m.msgType.Name() == "sticker")])
  }

  /** Out-of-session handling, keyed by the text before the first space. */
  function Command(s: State, m: Inbound, lower: string, w: World): (r: Step)
    requires m.from in s.users && QueueKnown(s) && WorldOk(w)
  {
    var u := m.from;
    var user := s.users[u];
    var command := FirstField(lower, ' ');
    if command in Greetings then
      var menu := Reply(Menu(RenderMenu(s.settings.menu, user.nickname)));
      if !user.hasSeenRules then
        Step(s.(users := s.users[u := user.(hasSeenRules := true)]), [Reply(WelcomeRules(s.settings.welcome)), menu])
      else
        Step(s, [menu])
    else if command == "!chat" then RequestChat(s, u, w)
    else if command == "!stop" then CancelSearch(s, u)
    else if command == "!stiker" then
      if m.hasMedia then Step(s, [Reply(StickerWorking), StickerJob(false, "Stiker by " + user.nickname)])
      else Step(s, [Reply(StickerHint)])
    else if command == "!stikergif" then
      if m.hasMedia && (m.msgType.Name() == "video" || m.gifMime) then
        Step(s, [Reply(AnimatedStickerWorking), StickerJob(true, "Animasi by " + user.nickname)])
      else Step(s, [Reply(AnimatedStickerHint)])
    else Step(s, [])
  }

  /** The first word `!chat` selects `RequestChat`. */
  lemma ChatCommand(s: State, m: Inbound, lower: string, w: World)
    requires m.from in s.users && QueueKnown(s) && WorldOk(w) && FirstField(lower, ' ') == "!chat"
    ensures Command(s, m, lower, w) == RequestChat(s, m.from, w)
  {
  }

  /** The first word `!stop` selects `CancelSearch`. */
  lemma StopCommand(s: State, m: Inbound, lower: string, w: World)
    requires m.from in s.users && QueueKnown(s) && WorldOk(w) && FirstField(lower, ' ') == "!stop"
    ensures Command(s, m, lower, w) == CancelSearch(s, m.from)
  {
  }

  /** `!chat`: already queued, paired with the head of the queue, or queued. */
  function RequestChat(s: State, u: UserId, w: World): (r: Step)
    requires u in s.users && QueueKnown(s) && WorldOk(w)
  {
    if u in s.queue then Step(s, [Reply(AlreadyQueued)])
    else if |s.queue| > 0 then
      var partner := s.queue[0];
      var rest := s.queue[1..];
      if partner == u then Step(s.(queue := rest + [u]), [Reply(SelfMatch)])
      else
        var room := GenerateRoomId(w.roomDraw);
        var chats := s.chats[u := Side(room, partner, 0)][partner := Side(room, u, 0)];
        var users1 := s.users[u := s.users[u].(chatCount := s.users[u].chatCount + 1)];
        var users2 := users1[partner := users1[partner].(chatCount := users1[partner].chatCount + 1)];
        Step(s.(queue := rest, chats := chats, users := users2, transcripts := s.transcripts[room := []]),
             [Send(u, Matched), Send(partner, MatchedWithYou)])
    else
      Step(s.(queue := s.queue + [u]), [Reply(Queued)])
  }

  /** Out-of-session `!stop`: leaves the queue if queued. */
  function CancelSearch(s: State, u: UserId): (r: Step) {
    if u in s.queue then Step(s.(queue := Without(s.queue, u)), [Reply(SearchCancelled)])
    else Step(s, [Reply(NothingToStop)])
  }
}
