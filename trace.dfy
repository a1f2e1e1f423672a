/**
 * Any sequence of table writes from the empty database: calls of the
 * table-writing handlers, and settings written from outside the program.
 * What stays true along it: no row of any of the three tables is ever
 * deleted, a session keeps its owner and creation time and never becomes
 * unused again, every linked account was linked through a consumed session
 * of its own, and no IP address is ever recorded.
 */
module Trace {
  import opened Wrappers
  import opened Mojang
  import opened Schema
  import Flow

  /** One handler call that may write to the tables (page views never do), or
      `StoreSetting`: a `set_server_setting` call made from outside this
      program. Nothing in the bot writes `blocked_role`, so that setting can
      only enter the tables this way. */
  datatype Event =
    | PressAuth(guildId: nat, userId: nat, userRoles: set<nat>, freshId: string, now: Timestamp)
    | PressChange(userId: nat, freshId: string, now: Timestamp)
    | Submit(sessionId: string, body: Option<map<string, string>>, lookup: LookupReply, now: Timestamp)
    | Configure(guildId: nat, settingType: string, target: Option<string>, channels: set<nat>)
    | StoreSetting(guildId: nat, settingType: string, value: string)

  function Apply(t: Tables, e: Event): Tables {
    match e
    case PressAuth(g, u, roles, id, now) => Flow.MinecraftAuth(t, g, u, roles, id, now).tables
    case PressChange(u, id, now) => Flow.ChangeNickname(t, u, id, now).tables
    case Submit(id, body, lookup, now) => Flow.VerifyAuth(t, id, body, lookup, now).tables
    case Configure(g, kind, target, channels) => Flow.AuthSettings(t, g, kind, target, channels).tables
    case StoreSetting(g, kind, value) => t.(serverSettings := Flow.SetServerSetting(t.serverSettings, g, kind, value))
  }

  function Run(t: Tables, events: seq<Event>): Tables
    decreases |events|
  {
    if events == [] then t else Run(Apply(t, events[0]), events[1..])
  }

  /** Every linked discord user owns a session that has been consumed. */
  ghost predicate LinkedThroughSession(t: Tables) {
    forall u :: u in t.authenticatedUsers ==>
      exists s :: s in t.authSessions && t.authSessions[s].discordUserId == u && t.authSessions[s].used
  }

  /** No code path writes `ip_address`. */
  ghost predicate NoIpRecorded(t: Tables) {
    forall u :: u in t.authenticatedUsers ==> t.authenticatedUsers[u].ipAddress.None?
  }

  ghost predicate Invariant(t: Tables) {
    LinkedThroughSession(t) && NoIpRecorded(t)
  }

  /** No row of any table is deleted; a session keeps its owner and creation time, and once used stays used. */
  ghost predicate Grows(t: Tables, t2: Tables) {
    (forall s :: s in t.authSessions ==>
       s in t2.authSessions
       && t2.authSessions[s].discordUserId == t.authSessions[s].discordUserId
       && t2.authSessions[s].createdAt == t.authSessions[s].createdAt
       && (t.authSessions[s].used ==> t2.authSessions[s].used))
    && t.authenticatedUsers.Keys <= t2.authenticatedUsers.Keys
    && t.serverSettings.Keys <= t2.serverSettings.Keys
  }

  /** A submission keeps the invariant: the row it writes belongs to the session it consumes. */
  lemma SubmitPreserves(t: Tables, sessionId: string, body: Option<map<string, string>>, lookup: LookupReply,
                        now: Timestamp)
    requires Invariant(t)
    ensures Invariant(Flow.VerifyAuth(t, sessionId, body, lookup, now).tables)
    ensures Grows(t, Flow.VerifyAuth(t, sessionId, body, lookup, now).tables)
  {
  }

  /** Every handler that writes keeps the invariant and only grows the tables. */
  lemma ApplyPreserves(t: Tables, e: Event)
    requires Invariant(t)
    ensures Invariant(Apply(t, e)) && Grows(t, Apply(t, e))
  {
  }

  lemma GrowsTransitive(t1: Tables, t2: Tables, t3: Tables)
    requires Grows(t1, t2) && Grows(t2, t3)
    ensures Grows(t1, t3)
  {
  }

  /** The invariant holds after any sequence of writes, and the tables only grow. */
  lemma {:induction false} RunPreserves(t: Tables, events: seq<Event>)
    requires Invariant(t)
    ensures Invariant(Run(t, events)) && Grows(t, Run(t, events))
    decreases |events|
  {
    if events != [] {
      var next := Apply(t, events[0]);
      ApplyPreserves(t, events[0]);
      RunPreserves(next, events[1..]);
      GrowsTransitive(t, next, Run(next, events[1..]));
    }
  }

  /** From a new database, every linked user went through a consumed session
      of their own, and no IP address is on record. */
  lemma EveryLinkedUserVerified(events: seq<Event>)
    ensures LinkedThroughSession(Run(Empty, events))
    ensures NoIpRecorded(Run(Empty, events))
  {
    RunPreserves(Empty, events);
  }
}
