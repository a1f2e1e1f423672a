/**
 * The three SQLite tables the bot and the web server share, one map per
 * table from its primary key to the rest of the row.
 */
module Schema {
  import opened Wrappers

  /** Timestamps are whatever the clock said; their format plays no part. */
  type Timestamp = int

  /** A row of `auth_sessions`, keyed by `session_id`. */
  datatype Session = Session(discordUserId: string, createdAt: Timestamp, used: bool)

  /** A row of `authenticated_users`, keyed by `discord_user_id`. */
  datatype AuthenticatedUser = AuthenticatedUser(
    minecraftUuid: string,
    minecraftUsername: string,
    ipAddress: Option<string>,
    authenticatedAt: Timestamp)

  /** The whole database. `serverSettings` is keyed by (guild_id, setting_type)
      and holds `setting_value`. Every column the code uses as a key is TEXT. */
  datatype Tables = Tables(
    authSessions: map<string, Session>,
    authenticatedUsers: map<string, AuthenticatedUser>,
    serverSettings: map<(string, string), string>)

  /** The database `init_db` creates when no file exists yet. */
  const Empty: Tables := Tables(map[], map[], map[])
}
