# Discord to Minecraft account verification: a Dafny model

The bot links a Discord member to a Minecraft account. A button in Discord
creates a row in `auth_sessions` and hands the member a link. The link opens
an intake page. The page posts a Minecraft username to `verify_auth`. That
handler asks Mojang's profile service for the username and writes the account
into `authenticated_users`. A second button issues a "change nickname" link
for members who are already linked. An admin command stores the guild's log
channel in `server_settings`.

This project models the three SQLite tables and every handler that reads or
writes them:

- `schema.dfy` (`Schema`): the rows and the three tables. Each table is a map
  from its primary key to the rest of its row: `auth_sessions` by
  `session_id`, `authenticated_users` by `discord_user_id`, and
  `server_settings` by `(guild_id, setting_type)`. A map has one row per key,
  so "at most one row per Discord user" holds by construction.
- `flow.dfy` (`Flow`): each handler as a function from the tables before the
  call (plus the call's inputs) to the tables after it and the reply. Each
  function's contract says which rows change, which stay, and which failures
  leave every table untouched.
- `store.dfy` (`Store.Database`): the database as a class with one map field
  per table. Its methods make the handlers' INSERT, INSERT OR REPLACE and
  UPDATE changes in place. Each method is proved to give exactly the tables
  and the reply of the matching `Flow` function.
- `trace.dfy` (`Trace`): any sequence of table writes from a new database, and
  the invariants that hold along it. The writes are the table-writing handler
  calls, plus `set_server_setting` calls made from outside the program
  (`StoreSetting`). Nothing in the bot writes `blocked_role`, so only such an
  outside call can set it.
- `text.dfy` (`Text`): the string operations involved. These are
  `str.replace(p, '')`, `int()` of a decimal string, and `str()` of a Discord
  id. Discord ids are stored as TEXT, so every key goes through `str()`.
- `mojang.dfy` (`Mojang`): how `get_minecraft_uuid` maps the HTTP reply to an
  `(id, name)` pair.

Inputs from outside the program are parameters:

- Mojang's HTTP reply (`LookupReply`).
- The clock (`now`).
- The session id that `uuid.uuid4()` draws (`freshId`).
- The member's role ids and the channel ids the bot can see (Discord's API).
- The POSTed JSON object (`body`, None when the request has none).

The model follows the code as written, including these points where the flow
is looser than a one-time link suggests:

- `verify_auth` never reads `used`. A consumed session is accepted again
  (`Flow.ReplayAccepted`), and the intake page is shown for it too.
- The username is resolved BEFORE the session is looked up. An unknown username
  therefore wins over an unknown session.
- A `change` submission for a user with no row updates nothing. It still
  succeeds and still consumes the session.
- The mode comes from the posted `type` field, not from the session. Any
  session can be submitted in either mode.
- The routes are `/minecraftauth/checknickname/<id>` and
  `/minecraftauth/verify/<id>`, and the mode parameter is called `type`.
- A session-id collision is not excluded by a precondition. It is modelled as
  what SQLite does: the INSERT violates the primary key, the handler raises,
  and nothing is written.

## Model

| member | source | states |
|---|---|---|
| Text.DeleteAll | main.py:176 | `replace(p, '')` adds no character, and after deleting a one-character pattern such as `>` none of it is left |
| Text.ReplaceIsSinglePass | main.py:176 | `.replace('<#', '')` is a single pass: it turns `<<##` into `<#` |
| Text.ParseDecimal | main.py:68 | `int(text)` succeeds exactly on non-empty strings of decimal digits |
| Text.NatToDecimal | main.py:76 | `str(id)` of a Discord id is a non-empty digit string with no leading zero |
| Text.DecimalRoundTrip | main.py:176-177 | `int(str(n)) == n`: a stored id keeps its value, for the channel id read back at line 177 and the `str(guild_id)` key at lines 138 and 147 alike |
| Text.NatToDecimalInjective | main.py:137-138 | distinct integer ids give distinct TEXT keys |
| Text.ChannelIdText | main.py:176 | the stripped channel text contains no `>` and only characters of the target |
| Text.MentionRoundTrip | main.py:176-177 | stripping the mention `<#id>` gives `str(id)`, and `int()` of that gives `id` |
| Mojang.ResolveProfile | main.py:186-194 | a profile exactly when the reply is 200 and has both `id` and `name`, holding those fields; a raised request, any other status and a missing field all give none |
| Mojang.Resolved | main.py:280 | `if not minecraft_uuid`: a missing profile and a profile with an empty id are both treated as an unknown username |
| Flow.SettingKey | main.py:138 | the key is (`str(guild_id)`, type); `int()` of its first part gives back the guild id |
| Flow.GetServerSetting | main.py:134-141 | None exactly when the (str(guild), type) row is absent, otherwise that row's value |
| Flow.SetServerSetting | main.py:143-149 | INSERT OR REPLACE: the key afterwards holds the value, no key disappears, and every other row is unchanged |
| Flow.SettingRoundTrip | main.py:134-149 | reading a setting right after writing it gives the written value |
| Flow.SettingFrame | main.py:35-40 | writing one (guild, type) setting leaves the reading of every other (guild, type) pair unchanged |
| Flow.BlockConfigured | main.py:66-67 | `if blocked_role:` holds only when the guild has a `blocked_role` row, and never for an empty value |
| Flow.BlockUnreadable | main.py:68 | `int(blocked_role)` raises exactly when the configured value is not all decimal digits |
| Flow.HoldsBlockedRole | main.py:68-69 | the member holds the configured role; never at the same time as an unreadable setting, and never without a configured setting |
| Flow.CreateSession | main.py:86-91 | a new id gets exactly one new row (owner, now, used = false), and all other rows and tables stay as they were; a taken id raises and writes nothing |
| Flow.MinecraftAuth | main.py:64-93 | holding the blocked role means Blocked, an unparsable role setting means a raise, and an existing user row means AlreadyAuthenticated, and a taken session id means a raise, each writing nothing; a link (not in change mode) is issued exactly when none of these holds and the id is new, and only then is one session added |
| Flow.ChangeNickname | main.py:104-124 | a user without a row gets NotAuthenticated and nothing is written; a taken session id raises and writes nothing; a change link is issued exactly when the user has a row and the id is new, and then one session is added |
| Flow.AuthPage | main.py:212-223 | the form is shown exactly when the session exists, whether used or not, with `type` defaulting to `auth` |
| Flow.AuthType | main.py:223 | `.get('type', 'auth')`, for the page's query and for the posted JSON at line 276 alike: the given `type`, or `auth` when there is none |
| Flow.FormBody | main.py:254 | for a mode with no quote, backslash, line break or `<`, the posted JSON carries the page's mode and the typed username, and reading its `type` back gives that mode |
| Flow.VerifyAuth | main.py:271-304 | no JSON object, an unresolved or empty id, and an unknown session (checked in that order) each fail and change no table; on success only the submitted session turns used, settings are untouched, auth mode replaces the owner's whole row with (uuid, name, NULL ip, now), and change mode changes only uuid and name of an existing row, keeping ip and authenticated_at |
| Flow.ChangeWithoutRowStillSucceeds | main.py:293-304 | change mode for an owner without a row succeeds, writes no user row and consumes the session |
| Flow.ReplayAccepted | main.py:285-304 | a consumed session submitted again succeeds again, and an auth replay moves only `authenticated_at` |
| Flow.AuthLinkFlow | main.py:84-93 | the auth button's link opens the auth form, and submitting it with a known name links exactly that Discord user with a NULL ip |
| Flow.ChangeLinkFlow | main.py:115-124 | the change button's link opens the change form, and submitting it changes only that user's uuid and name; every other user row, and the set of users, stays as it was |
| Flow.AuthSettings | main.py:168-184 | the log channel is stored exactly when the command is `로그채널`, a target is given, its stripped text parses and the bot knows the channel; the stored value is the stripped text; every other outcome writes nothing, and each failure has its own reply: another setting name is ignored, a missing target gets MissingTarget, an `int()` that raises gets NotANumber, and an unknown channel gets InvalidChannel |
| Flow.MentionSetsLogChannel | main.py:171-183 | a mention of a visible channel stores `str(channel id)` as the guild's `log_channel` |
| Store.Database.constructor | main.py:16-43 | a new database file has three empty tables |
| Store.Database.SetServerSetting | main.py:143-149 | the settings map becomes the INSERT OR REPLACE result and the other tables are untouched |
| Store.Database.InsertSession | main.py:86-91 | the INSERT adds the one unused row, or it fails on a taken key and leaves all tables as they were |
| Store.Database.MinecraftAuth | main.py:64-101 | the tables and the reply are those of `Flow.MinecraftAuth` |
| Store.Database.ChangeNickname | main.py:104-132 | the tables and the reply are those of `Flow.ChangeNickname` |
| Store.Database.VerifyAuth | main.py:271-304 | the tables and the reply are those of `Flow.VerifyAuth` |
| Store.Database.AuthSettings | main.py:168-184 | the tables and the reply are those of `Flow.AuthSettings` |
| Trace.SubmitPreserves | main.py:291-300 | a submission only writes the row of the session it consumes, so every linked user keeps a consumed session of their own, and no session, user or setting row is deleted |
| Trace.ApplyPreserves | main.py:64-304 | every table-writing handler keeps the invariant; sessions keep owner and creation time, and no user or setting row is ever removed |
| Trace.RunPreserves | main.py:64-304 | along any sequence of writes the invariant holds; no row of `auth_sessions`, `authenticated_users` or `server_settings` is ever deleted, and a used session never becomes unused again |
| Trace.EveryLinkedUserVerified | main.py:20-33 | from a new database, every `authenticated_users` row has a consumed session of the same Discord user, and no `ip_address` is ever recorded |

## Left out

- Discord bot setup, intents, `on_ready`, `auth_menu`, embeds, button views,
  permissions and replies (main.py:47-61, 151-166). These are framework and UI
  calls. Only their table effects and guards are modelled, with replies as
  enumerated outcomes instead of message text.
- The link URL strings built from `BASE_URL`. A link is modelled by its session
  id and its `type` query argument (`Flow.Link`, `Flow.LinkQuery`).
- The HTML and JavaScript page bodies (main.py:196-269). Only the
  unknown-session error versus form branch, the form's mode, and the JSON
  object the form posts (`Flow.FormBody`) are modelled.
- The HTTP request to Mojang and its exceptions. This is network I/O. Its
  outcome is the input `LookupReply`, and the model takes the reply for the
  posted username as given.
- JSON values other than strings in the posted body, or in Mojang's reply.
- The catch-all `except` around `verify_auth` for faults raised after a write
  and before `commit()`. The model is sequential at table level, so such
  partial failures are outside it. The one fault modelled there is a request
  without a JSON object, which fails before anything is written.
- SQLite connection handling: open, close, commit, and the connection left open
  on the early return at main.py:289. None of these changes table contents.
- Threads, and running the web server and the bot side by side
  (main.py:309-318). Calls are modelled one after another. Two submissions of
  one session racing each other are not modelled.
- Randomness of `uuid.uuid4()` and the wall clock. Both are inputs.
- Text.ParseDecimal: Python's `int()` also accepts surrounding whitespace, a
  sign, `_` separators and non-ASCII digits. The model treats these forms as
  parse failures.
- Flow.FormBody: the page pastes the `type` query argument into the script's
  `'...'` literal without escaping it (main.py:254). A mode with a backslash
  escape is decoded by the browser before it is posted, so
  `?type=%5Cu0063hange` posts `change`. A quote or `</script>` in it breaks
  out of the literal, which is a reflected script injection. The model covers
  only modes with none of these characters (`PlainScriptLiteral`).
- Stored timestamps are plain integers. Their `datetime` text format is not
  modelled.
