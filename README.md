# Anonymous chat bot: a verified model of the message handler

The bot is an anonymous one-to-one chat service on WhatsApp. The queue
pairs users, and each pair gets its own room with a six-digit id after
`wafa`. A text or media message from one side is forwarded to the
partner and appended to the room's transcript (its chat-log file).
Sending `!stop` or `!skip` ends the chat. `!lapor` files a report with
the room's last ten transcript entries and ends the chat.

The bot checks every text against a bad-word list. Strikes are counted
per sender, on the sender's own side of the chat. A sender's first and
second hits warn them and log a violation. Their third hit bans them and
ends the chat. Before any of this, three gates run in
order:

- the status-broadcast pseudo-sender is ignored;
- development mode answers everyone but the developer number;
- maintenance mode answers everyone but the admin number.

After the gates, a banned user gets only the ban reply. Out of a chat,
the first word of the text is the command:

- a greeting shows the rules once, then the menu with the user's
  nickname;
- `!chat` queues the user or pairs them with the head of the queue;
- `!stop` leaves the queue;
- `!stiker` and `!stikergif` start a sticker job.

A web dashboard lists the active pairs and edits the records and
settings:

- toggle a ban;
- warn a user;
- add or delete a bad word;
- switch maintenance or development mode;
- change the welcome, menu and development texts.

The model has nine modules.

- `Text` covers the string operations the handler relies on: `trim`,
  ASCII `toLowerCase`, `split(' ')[0]`, `split(/\s+/)`, and decimal
  numerals. It also covers `replace` with a string pattern and a string
  replacement, whose `$$`, `$&`, `` $` `` and `$'` patterns are expanded as
  JavaScript expands them.
- `Records` holds the data. Every effect the handler has on the outside
  world is an `Effect` value: a reply, a message sent to another user, a
  forwarded text or medium, or a sticker job. The handler tells message
  kinds apart by their `message.type` string, so a kind is classified by
  its name and not by its constructor.
- `Moderation` holds the profanity filter, the bad-word list edits and
  room ids.
- `Dispatch` holds one turn of the handler as a pure function `Turn`. It
  takes the state, the environment numbers, the inbound message and a
  `World`, and returns the new state and the effects. The `World` holds
  the clock reading, the random draw behind the room id and the outcome
  of a media forward.
- `Invariants` proves that chats are symmetric, strikes stay below the
  ban, the queue is duplicate-free and apart from the chats, and records
  exist. It proves every turn preserves them.
- `Properties`, `Admin` and `Dashboard` state what the source promises
  about the turn, the dashboard edits, and the status endpoint's waiting
  list and active-pair listing.

The class `Bot.Coordinator` holds the process state as fields. Its
handlers update the fields in place, and each handler is proved to
produce exactly the state and effects of the corresponding function.

## Model

| member | source | states |
|---|---|---|
| Text.Lower | index.js:264 | lower-casing keeps the length and maps every character through the ASCII letter mapping |
| Text.TrimSpec | index.js:263 | the trimmed text is an infix of the body with only white space cut on either side, and it neither starts nor ends with white space |
| Text.FirstFieldSpec | index.js:319 | the command word is the prefix of the lower-cased text up to (not including) its first space, and holds no space |
| Text.IndexOf | index.js:106 | the index is the first occurrence of the character, or the length when it does not occur |
| Text.SplitWords | index.js:125 | splitting on white-space runs yields at least one piece and no piece holds white space |
| Text.SplitWordsAreWholeWords | index.js:125-126 | a non-empty string is a piece of `split(/\s+/)` exactly when it occurs in the text delimited by white space or the text's ends |
| Text.FindSpec | index.js:327 | the search for the placeholder finds its first occurrence, or reports that there is none |
| Text.SubstituteLiteral | index.js:327 | a replacement without `$` is inserted as it is |
| Text.SubstitutePatterns | index.js:327 | at the head of any replacement, `$$` gives `$`, `$&` the matched text, `` $` `` the text before the match, `$'` the text after it, a `$` followed by any other character or at the end stays a literal `$`, and any other character stands for itself |
| Text.MatchPatternExpands | index.js:327 | a worked example: the replacement "a$&b" for the match "{nickname}" after "Hai " gives "a{nickname}b" |
| Text.ReplaceFirstAbsent | index.js:327 | a template without the placeholder is returned unchanged |
| Text.ReplaceFirstAt | index.js:327 | with a first occurrence at i, `replace` splices the replacement in at i, with its `$` patterns expanded against the text before, the match and the text after, and keeps everything around it |
| Text.DecimalRoundTrip | index.js:121 | reading back the printed numeral of n gives n |
| Text.DecimalLength | index.js:121 | a number between 10^k and 10^(k+1) prints with k+1 digits |
| Records.Without | index.js:351 | the filtered list holds exactly the elements other than the removed one, is unchanged when it was absent, and stays duplicate-free |
| Records.WithoutKeepsOrder | index.js:351 | filtering distributes over concatenation, so the remaining elements keep their order |
| Records.WithoutSingle | index.js:351 | filtering a one-element list keeps the element unless it is the removed one |
| Records.LastN | index.js:283 | `slice(-10)` keeps the last min(n, length) entries, in order |
| Moderation.ProfanityIsWholeWordMatch | index.js:124-127 | with no empty bad word, a message is profane exactly when some bad word is a whole word of the lower-cased message |
| Moderation.EmbeddedWordIsNotProfane | index.js:124-127 | a bad word that occurs only inside longer words does not flag the message |
| Moderation.EmptyBadWordHitsOnlyEmptyText | index.js:124-127 | an empty bad word flags a trimmed message exactly when it is empty |
| Moderation.AddBadWord | index.js:245 | a non-empty word is listed in lower case afterwards; an empty or already listed word leaves the list as it is; nothing is removed; nothing but that word is added; a duplicate-free list stays duplicate-free |
| Moderation.RemoveBadWord | index.js:246 | a non-empty word's lower-case form is gone afterwards and every other word stays; an empty word, or one not in the list, leaves the list exactly as it is |
| Moderation.AddThenRemove | index.js:245-246 | adding and then deleting a word is the same as deleting it alone |
| Moderation.AddedWordIsDetected | index.js:124-127 | after a word is added, a message holding it as a whole word is profane |
| Moderation.RoomNumber | index.js:121 | the room number is a six-digit number for any draw in [0, 1) |
| Moderation.GenerateRoomId | index.js:120-122 | the room id is "wafa" followed by six digits that denote the room number |
| Dispatch.Touch | index.js:103-118 | `getUser` creates a record with the default nickname on first contact, refreshes `lastActive`, and leaves every other record and field alone |
| Dispatch.LogChat | index.js:129-142 | logging a chat message refreshes the sender's record as `getUser` does, adds exactly one entry to the room's transcript, and changes only records and transcripts |
| Dispatch.LogChatAppends | index.js:129-142 | the room's transcript keeps its old entries and gains one entry with the local time, the sender, the sender's nickname, the text or `[Media: <type>]`, and whether the sender is in a chat; every other room is untouched |
| Dispatch.PushLog | index.js:57-62 | the server log gains the new line last, drops nothing below 100 lines, drops at most the oldest line otherwise, and stays within 100 lines |
| Dispatch.ChatCommand | index.js:330-349 | the first word `!chat` selects the queue-or-pair step |
| Dispatch.StopCommand | index.js:350-353 | the first word `!stop` selects leaving the queue |
| Invariants.TeardownKeepsSymmetry | index.js:274 | deleting both sides of a chat leaves every other chat mirrored |
| Invariants.PairingKeepsSymmetry | index.js:337-338 | adding two mirrored sides for users outside every chat keeps chats symmetric |
| Invariants.InSessionKeepsInv | index.js:269-318 | every in-session branch keeps all the invariants |
| Invariants.ReportKeepsInv | index.js:277-290 | a report keeps all the invariants |
| Invariants.StrikeKeepsInv | index.js:300-315 | a profanity strike keeps all the invariants, and in particular no surviving side reaches three strikes |
| Invariants.RequestChatKeepsInv | index.js:331-349 | `!chat` keeps all the invariants, including a queue apart from the chats |
| Invariants.CancelSearchKeepsInv | index.js:350-353 | leaving the queue keeps all the invariants |
| Invariants.CommandKeepsInv | index.js:319-385 | every out-of-session command keeps all the invariants |
| Invariants.TurnKeepsInv | index.js:253-386 | every turn of the handler keeps all the invariants |
| Properties.AdmittedTurn | index.js:263-269 | past the gates, a turn is `getUser` followed by in-session handling for a sender in a chat, and by a command otherwise |
| Properties.GatesTouchNothing | index.js:254-262 | the broadcast, development and maintenance gates run in that order, change no state and send at most one notice |
| Properties.BannedUserOnlyRefreshed | index.js:266-267 | a banned user gets only the ban reply and only their `lastActive` changes |
| Properties.ChatWhileQueued | index.js:332 | `!chat` from a queued user changes nothing beyond `getUser` and replies that they are queued |
| Properties.ChatIntoEmptyQueue | index.js:345-348 | `!chat` into an empty queue makes the sender the only one waiting |
| Properties.ChatPairsWithHead | index.js:333-344 | `!chat` with someone else waiting pairs the sender with the head of the queue: the queue loses exactly its head, both sides get the same newly drawn room, each other as partner and no strikes, both chat counts rise by one, the transcript starts empty, the violations, settings and server log stay, and both are notified |
| Properties.NoSelfMatch | index.js:335 | the self-pairing reply is never sent: a queued sender is answered by the earlier guard |
| Properties.StopTwice | index.js:350-353 | out-of-session `!stop` leaves exactly the state `getUser` left with the sender removed from the queue, and replies whether a search was cancelled; a second `!stop` leaves the queue as it is and only replies that there is nothing to stop |
| Properties.StopInSession | index.js:271-276 | `!stop` or `!skip` in a chat removes both sides and nothing else, and notifies both |
| Properties.ReportInSession | index.js:277-285 | `!lapor` appends exactly one report naming both sides, holding the room's last (at most ten) transcript entries |
| Properties.ReportEndsChat | index.js:286-289 | `!lapor` removes both sides whatever their strikes and notifies both; the user records are only `getUser`-refreshed for the sender and the partner, and the queue, transcripts, settings and server log are unchanged |
| Properties.ReportBansNobody | index.js:277-290 | no one's ban flag changes on a report |
| Properties.ProfaneStrike | index.js:300-302 | a first or second profane text raises only the sender's strike count, logs one "Kata Kasar" violation, warns with the count, leaves the settings and server log alone, and is neither forwarded nor logged |
| Properties.ProfaneBan | index.js:303-308 | the third profane text bans the sender and changes no other record, removes both sides, logs no violation, leaves the settings and server log alone, and notifies both |
| Properties.MediaDelivered | index.js:291-296 | a delivered medium is logged as `[Media: <type>]`, forwarded with its caption as a sticker exactly when it is one, and writes no server-log line |
| Properties.MediaDownloadFailed | index.js:291-299 | a failed download logs no transcript entry, writes one server-log line and tells the sender |
| Properties.MediaSendFailed | index.js:291-299 | a failed send has logged the medium already, writes one server-log line and tells the sender |
| Properties.MediaForwarded | index.js:291-299 | a media message of a forwardable kind tells the sender it is on its way; a delivered medium is forwarded with its caption, as a sticker exactly when it is one, and logged as `[Media: <type>]`; a failed download logs no transcript entry; a failed send is logged all the same; either failure writes one server-log line and tells the sender; the sender's record is only `getUser`-refreshed, and chats, queue, violations and settings are untouched |
| Properties.CleanTextForwarded | index.js:316 | a clean, non-empty in-session text is forwarded unchanged and appended to the room's transcript; the sender's record is only `getUser`-refreshed, and chats, queue, violations, settings and the server log are unchanged |
| Properties.StrikesNeverDecrease | index.js:269-318 | a side that survives a turn keeps its room and partner, and its strike count never goes down |
| Properties.TranscriptsAlwaysSender1 | index.js:132 | every transcript entry the handler writes has `isSender1` set, since the sender is always in a chat when it is logged |
| Properties.TwoWarnings | index.js:300-302 | the first two profane texts of a fresh chat answer only the sender, with warnings 1 and 2, and leave the sender in the same chat at two strikes with two violations logged |
| Properties.ThreeStrikesBan | index.js:300-315 | the same profane text three times in a fresh chat gives only the warnings 1 and 2 to the sender and then a ban that ends the chat for both, with exactly two violations logged |
| Properties.TwoRequestsPair | index.js:331-349 | two users sending `!chat` to an idle bot end up in one room as each other's partner, and the queue is empty again |
| Properties.RulesShownOnce | index.js:320-329 | the first greeting shows the rules and then the menu; the second shows only the menu |
| Properties.MenuNamesUser | index.js:327 | the menu shows the user's nickname, with its `$` patterns expanded, in place of the first `{nickname}` and keeps the rest of the template; a nickname without `$` appears as it is |
| Properties.MatchPatternInNickname | index.js:327 | the nickname "a$&b" in the template "Hai {nickname}" shows as "Hai a{nickname}b" |
| Admin.ToggleBan | index.js:240 | a known user's ban flag flips, and nothing else in any record changes; an unknown id changes nothing |
| Admin.ToggleBanTwice | index.js:240 | toggling twice restores every record |
| Admin.BannedByAdminIsRefused | index.js:240 | once an admin bans an admitted user, their next message gets only the ban reply and touches no chat or queue |
| Admin.Warn | index.js:248 | a known user's warning count rises by one and nothing else changes; an unknown id is reported as not found |
| Admin.WarnKeepsInv | index.js:248 | a warning keeps all the invariants and changes no ban flag |
| Admin.UpdateMessages | index.js:244 | each non-empty text replaces the stored one and an empty field keeps it; the bad words and modes are untouched |
| Admin.UpdateMessagesIdempotent | index.js:244 | saving the same texts twice is the same as saving them once, and saving nothing changes nothing |
| Admin.MaintenanceShutsOut | index.js:242 | with maintenance on, everyone but the admin gets only the maintenance notice, unless development mode answers first |
| Dashboard.FetchedSpec | index.js:193 | fetching the waiting list creates or refreshes exactly the queued records, however often an id repeats, and leaves every other record alone |
| Dashboard.FetchedStep | index.js:193 | fetching one more queued id adds its refreshed record, which is the record `getUser` returns for it |
| Dashboard.TouchAllKeepsInv | index.js:193 | fetching the waiting list keeps all the invariants |
| Dashboard.WaitingSpec | index.js:193 | the waiting list has one entry per queued id, in queue order, and each is that id's refreshed record |
| Dashboard.WaitingMatchesStore | index.js:193 | each waiting entry is the record the store holds for its id once the whole list has been fetched |
| Dashboard.ListPairs | index.js:194-205 | the listing has at most one row per side |
| Dashboard.ListedRoomsDistinct | index.js:197-198 | no room is listed twice |
| Dashboard.ListedPairsAreSessions | index.js:199-202 | every row is the room and the two nicknames of some active side, both non-empty |
| Dashboard.SessionsAreListed | index.js:198-203 | a side with two non-empty nicknames has its room listed |
| Dashboard.PairFetchesStep | index.js:197-200 | one more side of the key order fetches its own and then its partner's record exactly when its room is not yet listed |
| Dashboard.PairFetchesFromSides | index.js:199-200 | the listing fetches only sides in the key order and their partners |
| Dashboard.PairFetchesCoverNew | index.js:197-200 | a side whose room is not listed before it is fetched, and so is its partner |
| Dashboard.FetchedAppend | index.js:103-118 | fetching one more id adds its refreshed record to the store |
| Dashboard.FetchedNick | index.js:199-200 | fetching never changes the nickname `getUser` returns for any id |
| Dashboard.OneRowPerRoom | index.js:194-205 | with symmetric chats, every side in the key order and every chatting user's nickname non-empty, a room is listed exactly when some active chat is in it |
| Bot.Coordinator.constructor | index.js:32-41 | the bot starts with the loaded records, violations, transcripts and settings, nobody waiting or chatting, the server log holding the lines written while starting (index.js:391, and any load errors), and all invariants |
| Bot.Coordinator.CustomLog | index.js:57-62 | `customLog` appends the line, drops the oldest past 100 lines, and changes nothing else |
| Bot.Coordinator.GetUser | index.js:103-118 | `getUser` leaves the state as `Touch` says, returns the stored record, and keeps the invariants |
| Bot.Coordinator.LogChatMessage | index.js:129-142 | the transcript and records end up as `LogChat` says |
| Bot.Coordinator.HandleMessage | index.js:253-386 | the handler's new state and effects are exactly those of `Turn`, and the invariants hold afterwards |
| Bot.Coordinator.HandleInSession | index.js:269-318 | in-session handling matches `InSession` |
| Bot.Coordinator.FileReport | index.js:277-290 | `!lapor` matches `Report` |
| Bot.Coordinator.ForwardMediaMessage | index.js:291-299 | the media forward matches `MediaForward` for each outcome of download and send |
| Bot.Coordinator.HandleCommand | index.js:319-385 | out-of-session handling matches `Command` |
| Bot.Coordinator.HandleChatRequest | index.js:331-349 | `!chat` matches `RequestChat`, whose self-pairing branch is dead |
| Bot.Coordinator.HandleStopSearch | index.js:350-353 | out-of-session `!stop` matches `CancelSearch` |
| Bot.Coordinator.WaitingUsers | index.js:193 | the loop calls `getUser` for every queued id in order: it returns `Waiting` of the queue, leaves the state as `TouchAll` says, and keeps the invariants |
| Bot.Coordinator.ActivePairs | index.js:194-205 | the loop returns `ListPairs` over the key order; the state ends up as `getUser` of exactly the ids `PairFetches` lists, in that order, and leaves everything else as it was; the invariants are kept |
| Bot.Coordinator.FetchPair | index.js:199-200 | the side's and then the partner's `getUser`: the store gains both refreshed records, the returned nicknames are those stored before, and nothing else changes |
| Bot.Coordinator.ToggleBan | index.js:240 | the records end up as `Admin.ToggleBan` says and the invariants hold |
| Bot.Coordinator.WarnUser | index.js:248 | `found` holds exactly for a known id; the records end up as `Admin.Warn` says; a known user is sent the admin warning and an unknown id sends nothing |
| Bot.Coordinator.AddBadWord | index.js:245 | the list ends up as `Moderation.AddBadWord` says |
| Bot.Coordinator.RemoveBadWord | index.js:246 | the list ends up as `Moderation.RemoveBadWord` says |
| Bot.Coordinator.SetMaintenanceMode | index.js:242 | only the maintenance flag changes |
| Bot.Coordinator.SetDevelopmentMode | index.js:243 | only the development flag changes |
| Bot.Coordinator.SetMessages | index.js:244 | the settings end up as `Admin.UpdateMessages` says |

## Left out

- WhatsApp transport, the Express server and its routes other than those above: I/O. Sends are `Effect` values, and a failing send outside the media `try` block (which would abort the turn) is not modelled.
- Persistence (`saveData`, the JSON files, `fs.existsSync`) and the read error path of `!lapor`: the files are state fields, a missing chat log reads as empty, and file errors are not modelled.
- Clocks and randomness: each turn gets one clock reading and one draw in [0, 1) from its `World` parameter. Rounding of the floating-point draw is modelled with exact reals.
- Message wording: replies are a `Notice` enumeration rather than the Indonesian texts, except the menu, welcome and development texts, which come from the settings.
- `!stiker` and `!stikergif`: the media download, `ffmpeg` and the temporary files are left out. The model emits a `StickerJob` effect or the hint reply. A missing `mimetype` throwing is not modelled.
- The one-second pause after the rules, and the interleaving of concurrent handlers at `await` points: each turn is atomic.
- Text.Lower: lower-cases ASCII letters only, because JavaScript's full Unicode case mapping is out of scope. White space is the ECMAScript white-space and line-terminator set.
- The dashboard's metrics, analytics, user array, broadcast, chat-log and user-detail routes: they only read state or do bulk I/O.
- Object key order: the active-pair listing takes the order of the chat keys as an input `order`.
- Bot.Coordinator.HandleChatRequest: the self-pairing branch is proved unreachable (`Properties.NoSelfMatch`) and is an `assert false` in the method.
- Admin.Warn: `(warnings || 0) + 1` on a missing or non-numeric field is modelled as a natural count.
- Dispatch.RequestChat: `(chatCount || 0) + 1` (index.js:339-340) on a missing or non-numeric field is modelled as a natural count, as for warnings.
- Bot.Coordinator.constructor: the lines logged after construction (the port line at index.js:395 and the client's `qr`, `ready` and `disconnected` lines) are `CustomLog` calls made by the environment and are not part of the handler.
- The test script `tes.js` is not part of this model.
