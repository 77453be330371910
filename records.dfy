/** The in-memory state of the anonymous-chat bot and the values that flow
    through one message turn. */
module Records {

  type UserId = string
  type RoomId = string

  datatype Option<T> = None | Some(value: T)

  /** The two clock readings a turn uses: `iso` is what `toISOString` gives
      (user records), `local` the Asia/Jakarta locale string (violations,
      transcripts, server log). One reading serves the whole turn. */
  datatype Clock = Clock(iso: string, local: string)

  /** A user record of `db`. */
  datatype User = User(
    nickname: string,
    joinDate: string,
    lastActive: string,
    chatCount: nat,
    warnings: nat,
    isBanned: bool,
    hasSeenRules: bool)

  /** One side of an active chat, stored in `activeChats` under its own user id. */
  datatype Side = Side(roomId: RoomId, partnerId: UserId, profanityCount: nat)

  /** One entry of a room's transcript. */
  datatype Entry = Entry(
    timestamp: string,
    senderId: UserId,
    senderNickname: string,
    message: string,
    isSender1: bool)

  datatype Party = Party(id: UserId, nickname: string)

  /** A record of the append-only violation log. */
  datatype Violation =
    | BadWord(timestamp: string, userId: UserId, nickname: string, roomId: RoomId, message: string)
    | UserReport(timestamp: string, roomId: RoomId, reporter: Party, reported: Party, chatHistory: seq<Entry>)
  {
    /** The `type` field the dashboard groups violations by. */
    function TypeTag(): string {
      if BadWord? then "Kata Kasar" else "Laporan Pengguna"
    }
  }

  /** The process-wide settings document. */
  datatype Settings = Settings(
    maintenanceMode: bool,
    developmentMode: bool,
    welcome: string,
    menu: string,
    development: string,
    badwords: seq<string>)

  /** A line of the bounded server log shown on the dashboard. */
  datatype LogLine = LogLine(timestamp: string, message: string)

  /** Everything a message turn reads or writes. `transcripts` stands for the
      per-room chat-log files. */
  datatype State = State(
    users: map<UserId, User>,
    violations: seq<Violation>,
    queue: seq<UserId>,
    chats: map<UserId, Side>,
    transcripts: map<RoomId, seq<Entry>>,
    settings: Settings,
    serverLogs: seq<LogLine>)

  /** The two process environment numbers the gates compare senders with. */
  datatype Env = Env(devNumber: Option<UserId>, adminNumber: Option<UserId>)

  /** The transport's message kinds the handler distinguishes. */
  datatype MsgType = Chat | Image | Sticker | Video | OtherType(name: string)
  {
    function Name(): string {
      match this
      case Chat => "chat"
      case Image => "image"
      case Sticker => "sticker"
      case Video => "video"
      case OtherType(n) => n
    }

    /** The kinds forwarded to the partner as media, told apart by their
        type string as the transport reports it. */
    predicate Forwardable() {
      Name() == "image" || Name() == "sticker" || Name() == "video"
    }
  }

  /** An inbound message: sender, raw body, and the media facts the handler
      tests (`gifMime` is whether the media mimetype contains "gif"). */
  datatype Inbound = Inbound(from: UserId, body: string, hasMedia: bool, msgType: MsgType, gifMime: bool)

  /** How forwarding a media message ends: the download fails, the send to
      the partner fails, or it is delivered. */
  datatype MediaOutcome = Delivered | DownloadFailed(error: string) | SendFailed(error: string)

  /** What the outside world supplies to a turn: the clock, the value of
      `Math.random()` a new room id would be drawn from, and the outcome of
      a media forward. */
  datatype World = World(now: Clock, roomDraw: real, media: MediaOutcome)

  predicate WorldOk(w: World) {
    0.0 <= w.roomDraw < 1.0
  }

  /** The fixed texts the bot sends, by meaning; the ones that carry data
      carry it. */
  datatype Notice =
    | DevelopmentNotice(text: string)
    | MaintenanceNotice
    | BannedNotice(nickname: string, contact: string)
    | Goodbye
    | PartnerLeft
    | ReportReceived
    | EndedByReport
    | MediaOnTheWay
    | MediaFailed
    | AutoBanned
    | EndedByViolation
    | StrikeWarning(count: nat)
    | WelcomeRules(text: string)
    | Menu(text: string)
    | AlreadyQueued
    | SelfMatch
    | Matched
    | MatchedWithYou
    | Queued
    | SearchCancelled
    | NothingToStop
    | StickerWorking
    | StickerHint
    | AnimatedStickerWorking
    | AnimatedStickerHint
    | AdminWarning

  /** An outbound action of the bot. `Reply` goes to the sender of the
      message being handled. */
  datatype Effect =
    | Reply(notice: Notice)
    | Send(to: UserId, notice: Notice)
    | ForwardText(to: UserId, text: string)
    | ForwardMedia(to: UserId, kind: MsgType, caption: string, asSticker: bool)
    | StickerJob(animated: bool, stickerName: string)

  /** The new state and the outbound effects of one turn. */
  datatype Step = Step(state: State, effects: seq<Effect>)

  /** No element occurs twice. */
  predicate Distinct(s: seq<string>) {
    forall i, j :: 0 <= i < j < |s| ==> s[i] != s[j]
  }

  /** `s.filter(y => y !== x)`: `s` with every `x` filtered out, order kept. */
  function Without(s: seq<string>, x: string): (r: seq<string>)
    ensures x !in r
    ensures forall y :: y in r <==> y in s && y != x
    ensures |r| <= |s|
    ensures x !in s ==> r == s
    ensures Distinct(s) ==> Distinct(r)
  {
    if s == [] then []
    else if s[0] == x then Without(s[1..], x)
    else
      var t := Without(s[1..], x);
      assert Distinct(s) ==> s[0] !in s[1..];
      [s[0]] + t
  }

  /** Filtering works element by element and keeps the order: it
      distributes over concatenation. */
  lemma {:induction false} WithoutKeepsOrder(a: seq<string>, b: seq<string>, x: string)
    ensures Without(a + b, x) == Without(a, x) + Without(b, x)
  {
    if a == [] {
      assert a + b == b;
    } else {
      assert (a + b)[0] == a[0] && (a + b)[1..] == a[1..] + b;
      WithoutKeepsOrder(a[1..], b, x);
      if a[0] != x {
        assert Without(a + b, x) == [a[0]] + Without(a[1..] + b, x);
      }
    }
  }

  /** Removing from a one-element list keeps it unless it is the id. */
  lemma WithoutSingle(y: string, x: string)
    ensures Without([y], x) == if y == x then [] else [y]
  {
    assert [y][1..] == [];
  }

  /** `s.slice(-n)` for `n > 0`: the last `min(n, |s|)` elements. */
  function LastN<T>(s: seq<T>, n: nat): (r: seq<T>)
    ensures |r| == if |s| < n then |s| else n
    ensures forall i :: 0 <= i < |r| ==> r[i] == s[|s| - |r| + i]
  {
    if |s| <= n then s else s[|s| - n..]
  }
}
