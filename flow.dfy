/**
 * What each handler does to the tables, as a function from the tables before
 * the call (and the call's inputs) to the tables after it and the reply.
 * These functions are the specification the methods of `Store.Database`
 * are proved against.
 */
module Flow {
  import opened Wrappers
  import opened Text
  import opened Mojang
  import opened Schema

  /** The tables after a handler ran, and what the handler answered. */
  datatype Step<R> = Step(tables: Tables, reply: R)

  /* ---------------- server_settings ---------------- */

  /** The primary key of a setting: the guild id is stored as `str(guild_id)`. */
  function SettingKey(guildId: nat, settingType: string): (k: (string, string))
    ensures ParseDecimal(k.0) == Some(guildId) && k.1 == settingType
  {
    DecimalRoundTrip(guildId);
    (NatToDecimal(guildId), settingType)
  }

  /** `get_server_setting`: the stored value, or None when there is no row. */
  function GetServerSetting(settings: map<(string, string), string>, guildId: nat, settingType: string): (r: Option<string>)
    ensures r.None? <==> SettingKey(guildId, settingType) !in settings
    ensures r.Some? ==> r.value == settings[SettingKey(guildId, settingType)]
  {
    var key := SettingKey(guildId, settingType);
    if key in settings then Some(settings[key]) else None
  }

  /** `set_server_setting`: INSERT OR REPLACE on the (guild, type) key. */
  function SetServerSetting(settings: map<(string, string), string>, guildId: nat, settingType: string, value: string): (r: map<(string, string), string>)
    ensures r.Keys == settings.Keys + {SettingKey(guildId, settingType)}
    ensures r[SettingKey(guildId, settingType)] == value
    ensures forall k :: k in settings && k != SettingKey(guildId, settingType) ==> r[k] == settings[k]
  {
    settings[SettingKey(guildId, settingType) := value]
  }

  /** Reading a setting back gives the value just written. */
  lemma SettingRoundTrip(settings: map<(string, string), string>, guildId: nat, settingType: string, value: string)
    ensures GetServerSetting(SetServerSetting(settings, guildId, settingType, value), guildId, settingType) == Some(value)
  {
  }

  /** Writing one (guild, type) setting leaves every other one as it was. */
  lemma SettingFrame(settings: map<(string, string), string>, guildId: nat, settingType: string, value: string,
                     otherGuild: nat, otherType: string)
    requires guildId != otherGuild || settingType != otherType
    ensures GetServerSetting(SetServerSetting(settings, guildId, settingType, value), otherGuild, otherType)
         == GetServerSetting(settings, otherGuild, otherType)
  {
    NatToDecimalInjective(guildId, otherGuild);
  }

  /* ---------------- issuing a session (the two buttons) ---------------- */

  /** The link a button hands out: the session id in the path, `?type=change` for a change link. */
  datatype Link = Link(sessionId: string, change: bool)

  /** The query arguments the intake page sees when the link is followed. */
  function LinkQuery(link: Link): map<string, string> {
    if link.change then map["type" := "change"] else map[]
  }

  datatype ButtonReply =
    | Blocked               // holds the guild's blocked role
    | AlreadyAuthenticated  // the auth button, for a user who has a row
    | NotAuthenticated      // the change button, for a user who has none
    | HandlerRaised         // `int()` of the role setting, or the INSERT, raised
    | Issued(link: Link)

  const BlockedRoleSetting: string := "blocked_role"

  /** The guild's `blocked_role` setting is present and not the empty string. */
  predicate BlockConfigured(settings: map<(string, string), string>, guildId: nat)
    ensures BlockConfigured(settings, guildId) ==> SettingKey(guildId, BlockedRoleSetting) in settings
    ensures GetServerSetting(settings, guildId, BlockedRoleSetting) == Some("") ==> !BlockConfigured(settings, guildId)
  {
    var s := GetServerSetting(settings, guildId, BlockedRoleSetting);
    s.Some? && s.value != ""
  }

  /** The setting is present but `int()` of it raises. */
  predicate BlockUnreadable(settings: map<(string, string), string>, guildId: nat)
    ensures BlockUnreadable(settings, guildId) <==>
              BlockConfigured(settings, guildId) && !AllDigits(settings[SettingKey(guildId, BlockedRoleSetting)])
  {
    BlockConfigured(settings, guildId)
    && ParseDecimal(settings[SettingKey(guildId, BlockedRoleSetting)]).None?
  }

  /** The user holds the role the setting names. */
  predicate HoldsBlockedRole(settings: map<(string, string), string>, guildId: nat, userRoles: set<nat>)
    ensures HoldsBlockedRole(settings, guildId, userRoles) ==> !BlockUnreadable(settings, guildId)
    ensures !BlockConfigured(settings, guildId) ==> !HoldsBlockedRole(settings, guildId, userRoles)
  {
    BlockConfigured(settings, guildId)
    && var role := ParseDecimal(settings[SettingKey(guildId, BlockedRoleSetting)]);
       role.Some? && role.value in userRoles
  }

  /** `t2` is `t` with exactly one new, unused session row and nothing else changed. */
  predicate AddsSession(t: Tables, t2: Tables, sessionId: string, userKey: string, now: Timestamp) {
    sessionId !in t.authSessions
    && t2.authSessions.Keys == t.authSessions.Keys + {sessionId}
    && t2.authSessions[sessionId] == Session(userKey, now, false)
    && (forall s :: s in t.authSessions ==> t2.authSessions[s] == t.authSessions[s])
    && t2.authenticatedUsers == t.authenticatedUsers
    && t2.serverSettings == t.serverSettings
  }

  /** INSERT INTO auth_sessions with `used` left at its default FALSE; an id
      already present violates the primary key and the handler stops. */
  function CreateSession(t: Tables, freshId: string, userKey: string, now: Timestamp, change: bool): (out: Step<ButtonReply>)
    ensures freshId in t.authSessions ==> out == Step(t, HandlerRaised)
    ensures freshId !in t.authSessions ==>
              out.reply == Issued(Link(freshId, change)) && AddsSession(t, out.tables, freshId, userKey, now)
  {
    if freshId in t.authSessions then Step(t, HandlerRaised)
    else Step(t.(authSessions := t.authSessions[freshId := Session(userKey, now, false)]),
              Issued(Link(freshId, change)))
  }

  /** The "authenticate" button. */
  function MinecraftAuth(t: Tables, guildId: nat, userId: nat, userRoles: set<nat>, freshId: string, now: Timestamp)
    : (out: Step<ButtonReply>)
    ensures HoldsBlockedRole(t.serverSettings, guildId, userRoles) ==> out == Step(t, Blocked)
    ensures BlockUnreadable(t.serverSettings, guildId) ==> out == Step(t, HandlerRaised)
    ensures (!HoldsBlockedRole(t.serverSettings, guildId, userRoles) && !BlockUnreadable(t.serverSettings, guildId)
             && NatToDecimal(userId) in t.authenticatedUsers)
            ==> out == Step(t, AlreadyAuthenticated)
    ensures (!HoldsBlockedRole(t.serverSettings, guildId, userRoles) && !BlockUnreadable(t.serverSettings, guildId)
             && NatToDecimal(userId) !in t.authenticatedUsers && freshId in t.authSessions)
            ==> out == Step(t, HandlerRaised)
    ensures out.reply.Issued? <==>
              !HoldsBlockedRole(t.serverSettings, guildId, userRoles) && !BlockUnreadable(t.serverSettings, guildId)
              && NatToDecimal(userId) !in t.authenticatedUsers && freshId !in t.authSessions
    ensures out.reply.Issued? ==>
              out.reply.link == Link(freshId, false) && AddsSession(t, out.tables, freshId, NatToDecimal(userId), now)
    ensures !out.reply.Issued? ==> out.tables == t
  {
    var setting := GetServerSetting(t.serverSettings, guildId, BlockedRoleSetting);
    if setting.Some? && setting.value != "" && ParseDecimal(setting.value).None? then
      Step(t, HandlerRaised)
    else if setting.Some? && setting.value != "" && ParseDecimal(setting.value).value in userRoles then
      Step(t, Blocked)
    else if NatToDecimal(userId) in t.authenticatedUsers then
      Step(t, AlreadyAuthenticated)
    else
      CreateSession(t, freshId, NatToDecimal(userId), now, false)
  }

  /** The "change nickname" button. */
  function ChangeNickname(t: Tables, userId: nat, freshId: string, now: Timestamp): (out: Step<ButtonReply>)
    ensures NatToDecimal(userId) !in t.authenticatedUsers ==> out == Step(t, NotAuthenticated)
    ensures NatToDecimal(userId) in t.authenticatedUsers && freshId in t.authSessions ==> out == Step(t, HandlerRaised)
    ensures out.reply.Issued? <==> NatToDecimal(userId) in t.authenticatedUsers && freshId !in t.authSessions
    ensures out.reply.Issued? ==>
              out.reply.link == Link(freshId, true) && AddsSession(t, out.tables, freshId, NatToDecimal(userId), now)
    ensures !out.reply.Issued? ==> out.tables == t
  {
    if NatToDecimal(userId) !in t.authenticatedUsers then Step(t, NotAuthenticated)
    else CreateSession(t, freshId, NatToDecimal(userId), now, true)
  }

  /* ---------------- the intake page ---------------- */

  /** `.get('type', 'auth')`, on the page's query arguments and on the submitted JSON alike. */
  function AuthType(args: map<string, string>): (r: string)
    ensures "type" !in args ==> r == "auth"
    ensures "type" in args ==> r == args["type"]
  {
    if "type" in args then args["type"] else "auth"
  }

  datatype Page = InvalidLink | Form(authType: string)

  /** `auth_page`: any known session gets the form, used or not; an unknown one an error. */
  function AuthPage(t: Tables, sessionId: string, args: map<string, string>): (p: Page)
    ensures p.Form? <==> sessionId in t.authSessions
    ensures p.Form? ==> p.authType == AuthType(args)
  {
    if sessionId !in t.authSessions then InvalidLink else Form(AuthType(args))
  }

  /** Text the page can paste between the quotes of the script's `'...'`
      literal and have the browser read back unchanged: no quote or backslash
      to end or escape the literal, no line break, and no `<` to close the
      script element. */
  predicate PlainScriptLiteral(s: string) {
    forall i :: 0 <= i < |s| ==> s[i] !in {'\'', '\\', '\n', '\r', '<'}
  }

  /** The JSON object the form's script posts. The page writes the mode into
      the script unescaped, so it comes back intact only when it is plain. */
  function FormBody(authType: string, username: string): (body: map<string, string>)
    requires PlainScriptLiteral(authType)
    ensures AuthType(body) == authType
    ensures "username" in body && body["username"] == username
  {
    map["username" := username, "type" := authType]
  }

  /* ---------------- the submission ---------------- */

  datatype VerifyReply = Success | UnknownUsername | InvalidSession | ServerError

  /** The discord user a known session was issued to. */
  function Owner(t: Tables, sessionId: string): string
    requires sessionId in t.authSessions
  {
    t.authSessions[sessionId].discordUserId
  }

  /** `t2`'s sessions are `t`'s with only `sessionId` turned used. */
  predicate MarksUsed(t: Tables, t2: Tables, sessionId: string) {
    sessionId in t.authSessions
    && t2.authSessions.Keys == t.authSessions.Keys
    && t2.authSessions[sessionId] == t.authSessions[sessionId].(used := true)
    && forall s :: s in t.authSessions && s != sessionId ==> t2.authSessions[s] == t.authSessions[s]
  }

  /** UPDATE ... WHERE discord_user_id = owner: only the owner's two identity
      columns change, and only if the owner has a row. */
  predicate ChangesIdentity(users: map<string, AuthenticatedUser>, users2: map<string, AuthenticatedUser>,
                            owner: string, p: Profile) {
    users2.Keys == users.Keys
    && (forall u :: u in users && u != owner ==> users2[u] == users[u])
    && (owner in users ==>
          users2[owner].minecraftUuid == p.id && users2[owner].minecraftUsername == p.name
          && users2[owner].ipAddress == users[owner].ipAddress
          && users2[owner].authenticatedAt == users[owner].authenticatedAt)
  }

  /** `verify_auth`. `body` is the posted JSON object (None when there is none);
      `reply` is what the profile service answered for the posted username. */
  function VerifyAuth(t: Tables, sessionId: string, body: Option<map<string, string>>, reply: LookupReply, now: Timestamp)
    : (out: Step<VerifyReply>)
    ensures body.None? ==> out == Step(t, ServerError)
    // the resolver is asked first: an unknown username wins over an unknown session
    ensures body.Some? && !Resolved(ResolveProfile(reply)) ==> out == Step(t, UnknownUsername)
    ensures body.Some? && Resolved(ResolveProfile(reply)) && sessionId !in t.authSessions
            ==> out == Step(t, InvalidSession)
    ensures out.reply == Success <==>
              body.Some? && Resolved(ResolveProfile(reply)) && sessionId in t.authSessions
    ensures out.reply != Success ==> out.tables == t
    ensures out.reply == Success ==>
              MarksUsed(t, out.tables, sessionId) && out.tables.serverSettings == t.serverSettings
    ensures out.reply == Success && AuthType(body.value) != "change" ==>
              out.tables.authenticatedUsers == t.authenticatedUsers[Owner(t, sessionId) :=
                AuthenticatedUser(ResolveProfile(reply).value.id, ResolveProfile(reply).value.name, None, now)]
    ensures out.reply == Success && AuthType(body.value) == "change" ==>
              ChangesIdentity(t.authenticatedUsers, out.tables.authenticatedUsers, Owner(t, sessionId),
                              ResolveProfile(reply).value)
  {
    if body.None? then Step(t, ServerError)
    else
      var profile := ResolveProfile(reply);
      if !Resolved(profile) then Step(t, UnknownUsername)
      else if sessionId !in t.authSessions then Step(t, InvalidSession)
      else
        var owner := t.authSessions[sessionId].discordUserId;
        var users :=
          if AuthType(body.value) == "change" then
            if owner in t.authenticatedUsers then
              t.authenticatedUsers[owner := t.authenticatedUsers[owner].(minecraftUuid := profile.value.id,
                                                                         minecraftUsername := profile.value.name)]
            else t.authenticatedUsers
          else
            t.authenticatedUsers[owner := AuthenticatedUser(profile.value.id, profile.value.name, None, now)];
        var sessions := t.authSessions[sessionId := t.authSessions[sessionId].(used := true)];
        Step(t.(authSessions := sessions, authenticatedUsers := users), Success)
  }

  /** A change submission for an owner without a row writes no user row yet
      succeeds and consumes the session. */
  lemma ChangeWithoutRowStillSucceeds(t: Tables, sessionId: string, username: string, reply: LookupReply, now: Timestamp)
    requires sessionId in t.authSessions && Owner(t, sessionId) !in t.authenticatedUsers
    requires Resolved(ResolveProfile(reply))
    ensures var out := VerifyAuth(t, sessionId, Some(FormBody("change", username)), reply, now);
            out.reply == Success
            && out.tables.authenticatedUsers == t.authenticatedUsers
            && out.tables.authSessions[sessionId].used
  {
  }

  /** `used` is never read: a consumed session is accepted again, and an auth
      submission replayed later only moves `authenticated_at`. */
  lemma ReplayAccepted(t: Tables, sessionId: string, body: Option<map<string, string>>, reply: LookupReply,
                       now: Timestamp, later: Timestamp)
    requires VerifyAuth(t, sessionId, body, reply, now).reply == Success
    ensures var first := VerifyAuth(t, sessionId, body, reply, now);
            var again := VerifyAuth(first.tables, sessionId, body, reply, later);
            first.tables.authSessions[sessionId].used
            && again.reply == Success
            && again.tables.authSessions == first.tables.authSessions
            && (AuthType(body.value) != "change" ==>
                  again.tables.authenticatedUsers == first.tables.authenticatedUsers[Owner(t, sessionId) :=
                    first.tables.authenticatedUsers[Owner(t, sessionId)].(authenticatedAt := later)])
  {
  }

  /** From the auth button to the stored row: the link's page shows the auth
      form, and submitting it with a known username links exactly that user. */
  lemma AuthLinkFlow(t: Tables, guildId: nat, userId: nat, userRoles: set<nat>, freshId: string, now: Timestamp,
                     username: string, reply: LookupReply, later: Timestamp)
    requires MinecraftAuth(t, guildId, userId, userRoles, freshId, now).reply.Issued?
    requires Resolved(ResolveProfile(reply))
    ensures var issued := MinecraftAuth(t, guildId, userId, userRoles, freshId, now);
            var link := issued.reply.link;
            var page := AuthPage(issued.tables, link.sessionId, LinkQuery(link));
            page == Form("auth")
            && var done := VerifyAuth(issued.tables, link.sessionId, Some(FormBody(page.authType, username)), reply, later);
               done.reply == Success
               && done.tables.authenticatedUsers == t.authenticatedUsers[NatToDecimal(userId) :=
                    AuthenticatedUser(ResolveProfile(reply).value.id, ResolveProfile(reply).value.name, None, later)]
  {
  }

  /** From the change button to the updated row: the link's page shows the
      change form, and submitting it replaces only the user's game identity. */
  lemma ChangeLinkFlow(t: Tables, userId: nat, freshId: string, now: Timestamp,
                       username: string, reply: LookupReply, later: Timestamp)
    requires ChangeNickname(t, userId, freshId, now).reply.Issued?
    requires Resolved(ResolveProfile(reply))
    ensures var issued := ChangeNickname(t, userId, freshId, now);
            var link := issued.reply.link;
            var page := AuthPage(issued.tables, link.sessionId, LinkQuery(link));
            page == Form("change")
            && var done := VerifyAuth(issued.tables, link.sessionId, Some(FormBody(page.authType, username)), reply, later);
               done.reply == Success
               && done.tables.authenticatedUsers == t.authenticatedUsers[NatToDecimal(userId) :=
                    t.authenticatedUsers[NatToDecimal(userId)].(minecraftUuid := ResolveProfile(reply).value.id,
                                                                minecraftUsername := ResolveProfile(reply).value.name)]
  {
  }

  /* ---------------- the log-channel command ---------------- */

  /** The command's Korean setting name, "log channel". */
  const LogChannelCommand: string := "로그채널"
  const LogChannelSetting: string := "log_channel"

  datatype SettingsReply =
    | Ignored          // a setting name the command does not know: no reply, no write
    | MissingTarget    // no channel given
    | NotANumber       // `int()` of the stripped text raised
    | InvalidChannel   // the bot knows no channel with that id
    | LogChannelSet(channelId: string)

  /** `auth_settings`. `channels` are the ids of the channels the bot can see. */
  function AuthSettings(t: Tables, guildId: nat, settingType: string, target: Option<string>, channels: set<nat>)
    : (out: Step<SettingsReply>)
    ensures out.reply.LogChannelSet? <==>
              settingType == LogChannelCommand && target.Some?
              && var id := ParseDecimal(ChannelIdText(target.value)); id.Some? && id.value in channels
    ensures out.reply.LogChannelSet? ==>
              out.reply.channelId == ChannelIdText(target.value)
              && out.tables == t.(serverSettings :=
                                   SetServerSetting(t.serverSettings, guildId, LogChannelSetting, out.reply.channelId))
    ensures !out.reply.LogChannelSet? ==> out.tables == t
    ensures settingType != LogChannelCommand ==> out.reply == Ignored
    ensures settingType == LogChannelCommand && target.None? ==> out.reply == MissingTarget
    ensures settingType == LogChannelCommand && target.Some? && ParseDecimal(ChannelIdText(target.value)).None?
            ==> out.reply == NotANumber
    ensures (settingType == LogChannelCommand && target.Some?
             && var id := ParseDecimal(ChannelIdText(target.value)); id.Some? && id.value !in channels)
            ==> out.reply == InvalidChannel
  {
    if settingType != LogChannelCommand then Step(t, Ignored)
    else if target.None? then Step(t, MissingTarget)
    else
      var channelId := ChannelIdText(target.value);
      var id := ParseDecimal(channelId);
      if id.None? then Step(t, NotANumber)
      else if id.value !in channels then Step(t, InvalidChannel)
      else Step(t.(serverSettings := SetServerSetting(t.serverSettings, guildId, LogChannelSetting, channelId)),
                LogChannelSet(channelId))
  }

  /** Mentioning a channel the bot can see stores that channel's decimal id
      as the guild's log channel. */
  lemma MentionSetsLogChannel(t: Tables, guildId: nat, channel: nat, channels: set<nat>)
    requires channel in channels
    ensures var out := AuthSettings(t, guildId, LogChannelCommand, Some(ChannelMention(channel)), channels);
            out.reply == LogChannelSet(NatToDecimal(channel))
            && GetServerSetting(out.tables.serverSettings, guildId, LogChannelSetting) == Some(NatToDecimal(channel))
  {
    MentionRoundTrip(channel);
  }
}
