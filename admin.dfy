/** The dashboard's edits of user records and settings. */
module Admin {
  import opened Records
  import opened Dispatch
  import opened Invariants

  /** POST /toggle-ban: flips the ban flag of a known user; an unknown id
      changes nothing. */
  function ToggleBan(users: map<UserId, User>, id: UserId): (r: map<UserId, User>)
    ensures r.Keys == users.Keys
    ensures id in users ==> r[id].isBanned != users[id].isBanned
    ensures forall x :: x in users ==> r[x] == users[x].(isBanned := r[x].isBanned)
    ensures forall x :: x in users && x != id ==> r[x] == users[x]
  {
    if id in users then users[id := users[id].(isBanned := !users[id].isBanned)] else users
  }

  /** Toggling twice restores every record. */
  lemma ToggleBanTwice(users: map<UserId, User>, id: UserId)
    ensures ToggleBan(ToggleBan(users, id), id) == users
  {
    var r := ToggleBan(ToggleBan(users, id), id);
    assert forall x :: x in users ==> r[x] == users[x];
  }

  /** Toggling a ban touches no session, so it keeps every invariant. */
  lemma ToggleBanKeepsInv(s: State, id: UserId)
    requires Inv(s)
    ensures Inv(s.(users := ToggleBan(s.users, id)))
  {
  }

  /** Once an admitted user's ban is switched on, their next message gets
      only the ban reply. */
  lemma BannedByAdminIsRefused(s: State, env: Env, m: Inbound, w: World)
    requires Inv(s) && WorldOk(w)
    requires m.from in s.users && !s.users[m.from].isBanned
    requires m.from != StatusBroadcast
    requires !(s.settings.developmentMode && env.devNumber != Some(m.from))
    requires !(s.settings.maintenanceMode && env.adminNumber != Some(m.from))
    ensures var s1 := s.(users := ToggleBan(s.users, m.from));
            Inv(s1)
            && Turn(s1, env, m, w).effects == [Reply(BannedNotice(s.users[m.from].nickname, Contact(env)))]
            && Turn(s1, env, m, w).state.chats == s.chats
            && Turn(s1, env, m, w).state.queue == s.queue
  {
    ToggleBanKeepsInv(s, m.from);
  }

  /** POST /api/warn-user: a known user's warning count goes up by one and
      they are sent the admin warning; an unknown id is reported as not
      found and nothing changes. */
  function Warn(users: map<UserId, User>, id: UserId): (r: Option<map<UserId, User>>)
    ensures r.Some? <==> id in users
    ensures r.Some? ==> r.value.Keys == users.Keys
                        && r.value[id] == users[id].(warnings := users[id].warnings + 1)
                        && forall x :: x in users && x != id ==> r.value[x] == users[x]
  {
    if id in users then Some(users[id := users[id].(warnings := users[id].warnings + 1)]) else None
  }

  /** Warnings only count: they never ban, unban or touch a session. */
  lemma WarnKeepsInv(s: State, id: UserId)
    requires Inv(s) && id in s.users
    ensures Inv(s.(users := Warn(s.users, id).value))
    ensures forall x :: x in s.users ==> Warn(s.users, id).value[x].isBanned == s.users[x].isBanned
  {
  }

  /** POST /api/settings/messages: each non-empty text replaces the stored
      one; an empty (or missing) field keeps it. */
  function UpdateMessages(settings: Settings, welcome: string, menu: string, development: string): (r: Settings)
    ensures r.welcome == (if welcome != [] then welcome else settings.welcome)
    ensures r.menu == (if menu != [] then menu else settings.menu)
    ensures r.development == (if development != [] then development else settings.development)
    ensures r.badwords == settings.badwords
    ensures r.maintenanceMode == settings.maintenanceMode && r.developmentMode == settings.developmentMode
  {
    var s1 := if welcome != [] then settings.(welcome := welcome) else settings;
    var s2 := if menu != [] then s1.(menu := menu) else s1;
    if development != [] then s2.(development := development) else s2
  }

  /** Saving the same texts again changes nothing, and saving nothing
      changes nothing. */
  lemma UpdateMessagesIdempotent(settings: Settings, welcome: string, menu: string, development: string)
    ensures var once := UpdateMessages(settings, welcome, menu, development);
            UpdateMessages(once, welcome, menu, development) == once
    ensures UpdateMessages(settings, [], [], []) == settings
  {
  }

  /** Switching maintenance mode on shuts out everyone but the admin (and
      development mode, when on, still answers first). */
  lemma MaintenanceShutsOut(s: State, env: Env, m: Inbound, w: World)
    requires QueueKnown(s) && WorldOk(w)
    requires m.from != StatusBroadcast && env.adminNumber != Some(m.from)
    requires !(s.settings.developmentMode && env.devNumber != Some(m.from))
    ensures var s1 := s.(settings := s.settings.(maintenanceMode := true));
            Turn(s1, env, m, w) == Step(s1, [Reply(MaintenanceNotice)])
  {
  }
}
