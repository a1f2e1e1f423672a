/**
 * The SQLite database file as an object whose three tables the handlers
 * update in place. Each method performs the handler's SQL statements on the
 * maps and is proved to leave exactly the tables, and give exactly the reply,
 * that the matching function of `Flow` describes.
 */
module Store {
  import opened Wrappers
  import opened Text
  import opened Mojang
  import opened Schema
  import Flow

  class Database {
    var authSessions: map<string, Session>
    var authenticatedUsers: map<string, AuthenticatedUser>
    var serverSettings: map<(string, string), string>

    /** The three tables as one value. */
    function Contents(): Tables
      reads this
    {
      Tables(authSessions, authenticatedUsers, serverSettings)
    }

    /** `init_db` on a new database file: three empty tables. */
    constructor ()
      ensures Contents() == Empty
    {
      authSessions := map[];
      authenticatedUsers := map[];
      serverSettings := map[];
    }

    /** `set_server_setting`: INSERT OR REPLACE INTO server_settings. */
    method SetServerSetting(guildId: nat, settingType: string, value: string)
      modifies this
      ensures serverSettings == Flow.SetServerSetting(old(serverSettings), guildId, settingType, value)
      ensures Flow.GetServerSetting(serverSettings, guildId, settingType) == Some(value)
      ensures authSessions == old(authSessions) && authenticatedUsers == old(authenticatedUsers)
    {
      serverSettings := serverSettings[Flow.SettingKey(guildId, settingType) := value];
    }

    /** INSERT INTO auth_sessions (session_id, discord_user_id, created_at). */
    method InsertSession(sessionId: string, userKey: string, now: Timestamp) returns (ok: bool)
      modifies this
      ensures ok == (sessionId !in old(authSessions))
      ensures ok ==> Flow.AddsSession(old(Contents()), Contents(), sessionId, userKey, now)
      ensures !ok ==> Contents() == old(Contents())
    {
      if sessionId in authSessions {
        ok := false;  // the primary key is taken: sqlite3 raises IntegrityError
      } else {
        authSessions := authSessions[sessionId := Session(userKey, now, false)];
        ok := true;
      }
    }

    /** The "authenticate" button handler. */
    method MinecraftAuth(guildId: nat, userId: nat, userRoles: set<nat>, freshId: string, now: Timestamp)
      returns (reply: Flow.ButtonReply)
      modifies this
      ensures Flow.Step(Contents(), reply) == Flow.MinecraftAuth(old(Contents()), guildId, userId, userRoles, freshId, now)
    {
      var blockedRole := Flow.GetServerSetting(serverSettings, guildId, Flow.BlockedRoleSetting);
      if blockedRole.Some? && blockedRole.value != "" {
        var role := ParseDecimal(blockedRole.value);
        if role.None? {
          return Flow.HandlerRaised;
        }
        if role.value in userRoles {
          return Flow.Blocked;
        }
      }
      var userKey := NatToDecimal(userId);
      if userKey in authenticatedUsers {
        return Flow.AlreadyAuthenticated;
      }
      var ok := InsertSession(freshId, userKey, now);
      reply := if ok then Flow.Issued(Flow.Link(freshId, false)) else Flow.HandlerRaised;
    }

    /** The "change nickname" button handler. */
    method ChangeNickname(userId: nat, freshId: string, now: Timestamp) returns (reply: Flow.ButtonReply)
      modifies this
      ensures Flow.Step(Contents(), reply) == Flow.ChangeNickname(old(Contents()), userId, freshId, now)
    {
      var userKey := NatToDecimal(userId);
      if userKey !in authenticatedUsers {
        return Flow.NotAuthenticated;
      }
      var ok := InsertSession(freshId, userKey, now);
      reply := if ok then Flow.Issued(Flow.Link(freshId, true)) else Flow.HandlerRaised;
    }

    /** The submission handler `verify_auth`. */
    method VerifyAuth(sessionId: string, body: Option<map<string, string>>, lookup: LookupReply, now: Timestamp)
      returns (reply: Flow.VerifyReply)
      modifies this
      ensures Flow.Step(Contents(), reply) == Flow.VerifyAuth(old(Contents()), sessionId, body, lookup, now)
    {
      if body.None? {
        return Flow.ServerError;  // `data.get` on a missing JSON object raises
      }
      var authType := Flow.AuthType(body.value);
      var profile := ResolveProfile(lookup);
      if !Resolved(profile) {
        return Flow.UnknownUsername;
      }
      if sessionId !in authSessions {
        return Flow.InvalidSession;
      }
      var owner := authSessions[sessionId].discordUserId;
      if authType == "change" {
        // UPDATE authenticated_users SET minecraft_uuid, minecraft_username WHERE discord_user_id = owner
        if owner in authenticatedUsers {
          var row := authenticatedUsers[owner];
          authenticatedUsers := authenticatedUsers[owner :=
            row.(minecraftUuid := profile.value.id, minecraftUsername := profile.value.name)];
        }
      } else {
        // INSERT OR REPLACE: columns not listed, ip_address among them, become NULL
        authenticatedUsers := authenticatedUsers[owner :=
          AuthenticatedUser(profile.value.id, profile.value.name, None, now)];
      }
      // UPDATE auth_sessions SET used = TRUE WHERE session_id = sessionId
      authSessions := authSessions[sessionId := authSessions[sessionId].(used := true)];
      reply := Flow.Success;
    }

    /** The log-channel command `auth_settings`. */
    method AuthSettings(guildId: nat, settingType: string, target: Option<string>, channels: set<nat>)
      returns (reply: Flow.SettingsReply)
      modifies this
      ensures Flow.Step(Contents(), reply) == Flow.AuthSettings(old(Contents()), guildId, settingType, target, channels)
    {
      if settingType != Flow.LogChannelCommand {
        return Flow.Ignored;
      }
      if target.None? {
        return Flow.MissingTarget;
      }
      var channelId := ChannelIdText(target.value);
      var id := ParseDecimal(channelId);
      if id.None? {
        return Flow.NotANumber;
      }
      if id.value !in channels {
        return Flow.InvalidChannel;
      }
      SetServerSetting(guildId, Flow.LogChannelSetting, channelId);
      reply := Flow.LogChannelSet(channelId);
    }
  }
}
