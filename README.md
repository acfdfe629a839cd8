# discpybotframe in Dafny

A model of the core of discpybotframe, a small framework for Discord bots written in
Python. The core has three parts, each present in several copies of the code that evolved
over time. All copies are modelled as written.

- **Command validation**: the check of one argument against an `ArgumentFormat`, the
  fail-fast `Validator`, and the stateless `ValidationChecks`.
- **Per-guild settings and the guild registry**: the file-backed `Guild` of guild.py, the
  `CustomGuild`/`CustomBot` pair of source/bot.py, and the database-backed `Guild` of
  discord/guild.py. Also the two `Bot` classes: bot.py and discord/bot.py.
- **Settings commands and voice session**: the `channel` and `voice_channel` commands of
  settings_cog.py, and the one-session `VoiceController` of voice.py.

External systems become plain values:

- **Chat platform.** The answers to `get_channel` and `get_guild` come from a `Platform`
  value: a map of channels and a map of guilds. A command context is a `Context` record.
- **File system.** A `Files` map from a path to the JSON object stored there. JSON values
  are the `Value` datatype. Python's POSIX `os.path.join` is `Join`: a relative name is
  appended to the directory, and an absolute name is the result on its own.
- **SQLite.** The `Guild` table is a `GuildTable.Database` object holding a set of ids.
- **`str(n)` and `int(s)`.** `Decimal.IntToString` and `Decimal.ParseInt`.
- **Abstract hooks.** Calls to `add_guild`, `remove_guild`, `load_data`, `remove_data`
  and `set_loaded_data` are recorded in trace fields. The record the `prepare_data` hook
  of guild.py would produce is a parameter of `write_data`. Platform calls made by the voice controller are recorded
  the same way.
- **Sent messages.** The messages a command sends are returned in a `seq<Message>`.
- **Exceptions.** Where the source raises, the member either excludes the input with a
  `requires` (a missing settings key, `ctx.guild` being `None`) or returns `None`: the three
  `get_custom_guild` on an unregistered id and the `set_activity` of bot.py and
  discord/bot.py on an empty activities list. Each row says which. Some `requires` exclude
  more than the raising inputs; "## Left out" names those.
  `Guild.set_loaded_settings` of guild.py continues partway before it raises, so it
  returns `ok` together with the exact partial state.

Modules follow the source files:

| module | source |
|---|---|
| `Common`, `Decimal`, `Config` | shared records, `str`/`int`, loaders of the internal settings |
| `Validation` | validation.py |
| `ValidationChecks` | validation/validation_checks.py |
| `FileGuild` | guild.py |
| `FrameworkBot` | bot.py |
| `CustomBotSystem` | source/bot.py |
| `GuildTable`, `DiscordGuild` | the `Guild` table and discord/guild.py |
| `DiscordBot` | discord/bot.py |
| `SettingsCog` | settings_cog.py, against the guild.py/bot.py copy it imports |
| `Voice` | voice.py |

## Model

| member | source | states |
|---|---|---|
| Common.Join | guild.py:115 | a joined path ends with the joined name; an empty directory or an absolute name gives the name itself; otherwise the path begins with the directory |
| Common.JoinInjective | guild.py:128 | two relative names joined under one directory give equal paths exactly when the names are equal |
| Decimal.NatToString | source/bot.py:85 | `str(n)` of a natural number is a non-empty digit string with no leading zero unless `n == 0` |
| Decimal.IntToString | source/bot.py:85 | `str(n)` is non-empty; for negative `n` it is `-` followed by digits |
| Decimal.ParseInt | validation.py:60-64 | `int(s)` succeeds only on non-empty text |
| Decimal.ParseIntSucceeds | validation.py:60-64 | `int(s)` succeeds exactly on plain digits, or on a sign followed by at least one digit |
| Decimal.NatToStringValue | source/bot.py:85 | the digits of `str(n)` read back as `n` |
| Decimal.ParseIntToString | validation.py:62 | `int(str(n)) == n` for every integer |
| Decimal.IntToStringInjective | source/bot.py:85 | two guild ids give the same registry key `str(id)` exactly when they are equal |
| Decimal.IntToStringRelative | guild.py:115 | a file name that begins with `str(id)` is relative, so `join` places it under the directory |
| Config.IntList | bot.py:221 | `list(map(int, items))` keeps the length of the list |
| Config.IntListElements | bot.py:221 | the conversion succeeds exactly when every element converts, and then converts each element |
| Config.AdminListMembership | bot.py:236-241 | an author is in the converted admin list exactly when some listed value converts to the author's id |
| Config.TextList | bot.py:223 | a list of JSON strings becomes the list of those strings, in order |
| Config.LoadInternalSettingsCases | bot.py:191-209 | `Config.LoadInternalSettings`, the model of `load_internal_settings` in bot.py and discord/bot.py, gives no record for the empty path or a missing file, and the stored record otherwise |
| GuildTable.InsertOrIgnoreIdempotent | discord/guild.py:79-86 | inserting a guild's row twice leaves the table as inserting it once |
| GuildTable.InsertOrIgnoreEffect | discord/guild.py:81-82 | `INSERT OR IGNORE` creates this id's row, keeps an existing row and touches no other row |
| GuildTable.DeleteRowEffect | discord/guild.py:101-102 | `DELETE ... WHERE ID = id` removes exactly this id's row |
| GuildTable.Database.Open | internals/database.py:19-21 | an opened database holds the rows of its `Guild` table |
| GuildTable.Database.InsertGuild | discord/guild.py:79-86 | new table = insert-or-ignore of the id into the old table |
| GuildTable.Database.DeleteGuild | discord/guild.py:99-106 | new table = the old table without the id |
| DiscordGuild.LoadIdempotent | discord/guild.py:79-86 | with a controller, loading twice equals loading once, the row exists after a load and is gone after a remove; without one, both leave the table unchanged |
| DiscordGuild.RemoveKeepsOthers | discord/guild.py:99-106 | loading or removing one guild leaves every other guild's row as it was |
| DiscordGuild.Guild.constructor | discord/guild.py:30-37 | construction loads the settings (insert-or-ignore when a controller exists) and then the data, in that order |
| DiscordGuild.Guild.Load | discord/guild.py:57-63 | `load` runs settings first and data second, and inserts the row when a controller exists |
| DiscordGuild.Guild.Remove | discord/guild.py:65-71 | `remove` runs data first and settings second, and deletes the row when a controller exists |
| DiscordGuild.Guild.LoadSettings | discord/guild.py:74-86 | the row is inserted if absent only when there is a controller; the step is recorded |
| DiscordGuild.Guild.LoadData | discord/guild.py:89-92 | the abstract data hook is called once |
| DiscordGuild.Guild.RemoveSettings | discord/guild.py:94-106 | the row is deleted only when there is a controller; the step is recorded |
| DiscordGuild.Guild.RemoveData | discord/guild.py:110-113 | the abstract data-removal hook is called once |
| DiscordGuild.RecreateKeepsTable | discord/guild.py:79-86 | building a second guild object for the same id adds no further row |
| FileGuild.SettingsAndDataPathsDistinct | guild.py:115-178 | a settings file and a data file never share a path, whatever the two ids |
| FileGuild.PathsInjective | guild.py:115-178 | different guilds have different settings files and different data files |
| FileGuild.SettingsWriteIsolated | guild.py:108-121 | writing one guild's settings changes neither another guild's settings nor any guild's data |
| FileGuild.DataWriteIsolated | guild.py:158-171 | writing one guild's data changes no guild's settings and no other guild's data |
| FileGuild.SettingsRoundTrip | guild.py:108-142 | settings written with given channel ids load back with the same ids |
| FileGuild.LoadDefaults | guild.py:128-186 | without a settings file the settings are the id and two zero channel ids; without a data file the data is the default; an existing file always wins |
| FileGuild.DataRoundTrip | guild.py:158-190 | data written under a directory loads back from that directory |
| FileGuild.ConstructorDataDirCounterexample | guild.py:48-49 | concrete files where construction with `guilds_dir = custom` misses the stored data and falls back to the default |
| FileGuild.Guild.constructor | guild.py:37-51 | settings and both channel ids come from the settings file under `guilds_dir` or the defaults, handles are resolved, and data is read from the default directory and handed to `set_loaded_data` once |
| FileGuild.Guild.WithDataDir | guild.py:37-51 | the corrected construction: settings and data both come from `guilds_dir` |
| FileGuild.Guild.PrepareSettings | guild.py:87-96 | the prepared record has exactly three keys: the guild id and the current channel ids |
| FileGuild.Guild.SetLoadedSettings | guild.py:98-106 | succeeds exactly when both ids are present; the main id is adopted before the voice id is read, so a failure can leave the main id already changed |
| FileGuild.Guild.WriteSettings | guild.py:108-121 | `settings` is rebuilt from the current ids and stored under this guild's settings path; no other file changes |
| FileGuild.Guild.LoadSettings | guild.py:123-142 | adopts the stored or default record without writing it, and takes its ids exactly when it carries both |
| FileGuild.Guild.WriteData | guild.py:158-171 | the prepared record becomes the stored data and this guild's data file |
| FileGuild.Guild.LoadData | guild.py:173-190 | the stored data is the data file when it exists and the default otherwise, and that record is handed to the `set_loaded_data` hook once |
| FileGuild.Guild.GetMainChannel | guild.py:192-200 | when the main id does not resolve, the handle becomes the guild's first text channel; otherwise it is kept |
| FileGuild.Guild.UpdateMainChannel | guild.py:202-210 | only the main id and its handle change; the handle comes from the stale id still in `settings`; nothing is written |
| FileGuild.Guild.GetVoiceChannel | guild.py:212-220 | as written, the handle becomes the guild's first voice channel when the voice id DOES resolve |
| FileGuild.Guild.UpdateVoiceChannel | guild.py:222-230 | only the voice id and its handle change, the handle from the stale id; nothing is written |
| FileGuild.WriteThenReload | guild.py:108-142 | a guild built after `write_settings` sees the same main and voice ids |
| FileGuild.UpdateIsNotPersisted | guild.py:202-210 | after `update_main_channel` without a write, a guild built from the files still sees the previously stored main id |
| FileGuild.WriteDataThenReload | guild.py:158-190 | with the corrected construction, data written by `write_data` is what a new guild adopts |
| FrameworkBot.Bot.constructor | bot.py:46-71 | defaults (no admins, empty token, activities `["Error"]`, not ready), a database always opened, and the settings applied when a record loads |
| FrameworkBot.Bot.LoadGuilds | bot.py:149-157 | `add_guild` is called once per current guild, in order |
| FrameworkBot.Bot.PrepareData | bot.py:159-178 | the body runs at most once: a later call changes nothing |
| FrameworkBot.Bot.SetActivity | bot.py:180-188 | a non-empty argument is shown as it is; otherwise a member of the activities list is shown; an empty list gives none, where the source raises |
| FrameworkBot.Bot.SetInternalSettings | bot.py:211-225 | a loaded record sets admins from the converted `ADM_ID`, the token from `TOKEN` and the activities from `Activities`; without a record all three keep their values |
| FrameworkBot.Bot.Run | bot.py:227-234 | the stored token is appended as the last positional argument |
| FrameworkBot.Bot.GetCustomGuild | bot.py:257-262 | `get_custom_guild(id)` finds exactly the guild registered under `str(id)`, which is the guild with that id when every key is `str` of its guild's id; an unregistered id gives none, where the source raises KeyError |
| FrameworkBot.DefaultsWithoutSettings | bot.py:57-71 | with no settings file the bot has no admins, an empty token and the `["Error"]` activity |
| DiscordBot.TokenKey | discord/bot.py:256-259 | the development profile reads `devenv_token`, production reads `token` |
| DiscordBot.AddGuildCalls | discord/bot.py:189-190 | one `add_guild` call per guild id, in order |
| DiscordBot.Bot.constructor | discord/bot.py:48-80 | defaults as in bot.py; a database controller exists exactly when the database path is not empty |
| DiscordBot.Bot.OnGuildJoin | discord/bot.py:146-152 | a join calls `add_guild` with the guild's id |
| DiscordBot.Bot.OnGuildRemove | discord/bot.py:155-161 | a removal calls `remove_guild` with the guild's id |
| DiscordBot.Bot.LoadGuilds | discord/bot.py:182-190 | `add_guild` is called once per current guild, in order |
| DiscordBot.Bot.PrepareData | discord/bot.py:192-211 | the body runs at most once |
| DiscordBot.Bot.SetActivity | discord/bot.py:213-221 | a non-empty argument is shown as it is; otherwise a member of the activities list; an empty list gives none, where the source raises |
| DiscordBot.Bot.SetInternalSettings | discord/bot.py:244-263 | a loaded record sets admins, the profile's token and the activities; without one all keep their values |
| DiscordBot.Bot.Run | discord/bot.py:265-272 | the stored token is appended as the last positional argument |
| DiscordBot.Bot.GetCustomGuild | discord/bot.py:300-305 | finds exactly the guild registered under `str(id)`, which is the guild with that id when every key is `str` of its guild's id; an unregistered id gives none, where the source raises KeyError |
| DiscordBot.ProfileSelectsToken | discord/bot.py:256-259 | from one settings file, the development bot holds `devenv_token` and the production bot holds `token` |
| Validation.StringLengthInclusive | validation.py:54-56 | a STRING format with a length range accepts an argument exactly when its length lies in the range, both ends included |
| Validation.StringUnbounded | validation.py:54-81 | a STRING format without a length range accepts every argument, the empty one included |
| Validation.IntegerVerdict | validation.py:57-68 | under `Validation.Validate`, the model of `ArgumentFormat.validate`, an INTEGER format rejects what `int` cannot parse (the empty string among them); a parsed value passes exactly when it lies in the range, or always without a range |
| Validation.IntegerAcceptsItsRange | validation.py:66-68 | an INTEGER format with range `(lo, hi)` accepts `str(n)` exactly when `lo <= n <= hi` |
| Validation.FirstInvalid | validation.py:188-191 | the first argument that fails its format, with every earlier one passing; none exactly when all pass |
| Validation.VerdictIff | validation.py:171-193 | a command passes exactly when every enabled flag check passes, the counts agree and each argument fits its format; it then sends nothing, otherwise exactly one error |
| Validation.FailFastOrder | validation.py:176-191 | the checks run as admin, guild, count, formats; the first failure decides and a format failure names the first bad argument |
| Validation.EmptyFormatRejectsArguments | validation.py:184-186 | with the default empty format any non-empty argument list fails |
| Validation.Validator.constructor | validation.py:99-112 | no flag check and the empty format after construction |
| Validation.Validator.RequireConditions | validation.py:154-162 | sets both flags |
| Validation.Validator.RequireArgFormat | validation.py:164-169 | sets the format list |
| Validation.Validator.ValidateCommand | validation.py:171-193 | the verdict and the messages sent are those of the first failing check, found by the early-return loop |
| Validation.ExactCountExample | validation.py:184-186 | with one format, no argument and two arguments fail while one valid argument passes |
| ValidationChecks.RequireAdm | validation/validation_checks.py:37-45 | passes exactly when the author is an admin of the bot; sends one error exactly when it fails |
| ValidationChecks.RequireGuild | validation/validation_checks.py:48-56 | passes exactly when the command comes from a guild; one error exactly on failure |
| ValidationChecks.RequireArgLengthRange | validation/validation_checks.py:59-71 | passes exactly when `lo <= len(args) <= hi`; one error exactly on failure |
| ValidationChecks.RequireArgType | validation/validation_checks.py:74-91 | INTEGER passes exactly when `int(arg)` succeeds; one error exactly on failure |
| ValidationChecks.RequireStrLengthRange | validation/validation_checks.py:94-106 | passes exactly when `lo <= len(arg) <= hi`; one error exactly on failure |
| ValidationChecks.RequireIntRange | validation/validation_checks.py:109-121 | passes exactly when `lo <= arg <= hi`; one error exactly on failure |
| ValidationChecks.StrLengthAgreesWithFormat | validation/validation_checks.py:103-106 | the string-length check agrees with a STRING `ArgumentFormat` of validation.py with the same range |
| ValidationChecks.IntChecksAgreeWithFormat | validation/validation_checks.py:79-121 | the type check followed by the range check accepts exactly what an INTEGER `ArgumentFormat` of validation.py accepts |
| ValidationChecks.IntChecksAcceptDecimal | validation/validation_checks.py:79-121 | every in-range integer written in decimal passes both integer checks |
| ValidationChecks.RangedCountWithEqualEnds | validation/validation_checks.py:68-71 | the ranged count check with equal ends is the exact count check of `validate_command` |
| CustomBotSystem.LoadSystemSettings | source/bot.py:103-121 | no record for the empty name or a missing file; otherwise the file under `System` |
| CustomBotSystem.SystemLoaderIsSharedLoader | source/bot.py:111-113 | this loader is the bot.py loader applied to `join("System", file_name)`, which is never empty: `System/` followed by a relative name, or an absolute name as given |
| CustomBotSystem.GuildPathsInjective | source/bot.py:209 | different guilds never share a settings file |
| CustomBotSystem.SettingsRoundTrip | source/bot.py:209-237 | a written record is loaded back unchanged, and writing it changes what no other guild loads |
| CustomBotSystem.DefaultsWhenMissing | source/bot.py:209-220 | without a file a guild starts from its id, zero channel ids and an empty `Meetings` map |
| CustomBotSystem.CustomGuild.constructor | source/bot.py:204-226 | settings come from `Guilds/{id}.json` or the defaults, and both handles are resolved from them |
| CustomBotSystem.CustomGuild.WriteSettings | source/bot.py:229-239 | the in-memory settings become this guild's file and load back unchanged; no other guild's file changes |
| CustomBotSystem.CustomGuild.GetMainChannel | source/bot.py:241-249 | when the stored main id does not resolve, the handle becomes `text_channels[0]`; otherwise it is kept |
| CustomBotSystem.CustomGuild.UpdateMainChannel | source/bot.py:251-260 | sets `Main channel ID` to the new id, keeps every other key, and resolves the handle from the new id |
| CustomBotSystem.CustomGuild.GetVoiceChannel | source/bot.py:262-270 | as written, the handle becomes `voice_channels[0]` when the stored voice id DOES resolve |
| CustomBotSystem.CustomGuild.UpdateVoiceChannel | source/bot.py:272-282 | sets `Voice channel ID`, keeps every other key, and resolves the handle from the new id |
| CustomBotSystem.CustomBot.constructor | source/bot.py:39-61 | the registry starts empty and not ready; admins and token come from the mandatory settings file, and the activity is one of the listed ones |
| CustomBotSystem.CustomBot.SetInternalSettings | source/bot.py:123-134 | admins from the converted `ADM_ID`, the token from `TOKEN` and one activity drawn from `Activities` |
| CustomBotSystem.CustomBot.AddCustomGuild | source/bot.py:85 | registers a freshly loaded guild under `str(id)`; every other entry is kept |
| CustomBotSystem.CustomBot.LoadGuildDefinitions | source/bot.py:84-85 | after the scan, each current guild's key holds a guild with freshly loaded settings; other keys are kept |
| CustomBotSystem.CustomBot.PrepareData | source/bot.py:70-90 | the body runs at most once; the first run registers every current guild under `str(id)` with its loaded settings and sets the chosen activity as presence |
| CustomBotSystem.CustomBot.SetActivity | source/bot.py:92-100 | a given activity is shown as it is, otherwise the chosen activity |
| CustomBotSystem.CustomBot.Run | source/bot.py:136-143 | the token is appended as the last positional argument |
| CustomBotSystem.CustomBot.WriteSettingsForGuild | source/bot.py:145-150 | the new file system is the old one with that guild's file set to its in-memory settings: it loads back as those settings, and every other file, the System settings among them, is unchanged |
| CustomBotSystem.CustomBot.WriteSettingsForAll | source/bot.py:152-158 | every registered guild's settings are stored as its file and every other file is left as it was |
| CustomBotSystem.CustomBot.GetCustomGuild | source/bot.py:181-186 | finds a guild exactly when one is registered under `str(id)`, and it is the guild with that id; an unregistered id gives none, where the source raises KeyError |
| CustomBotSystem.UpdateWriteReload | source/bot.py:251-260 | unlike guild.py, an update followed by `write_settings` is persisted: a guild built afterwards sees the new id and every other entry |
| SettingsCog.LastMatch | settings_cog.py:66-69 | the position of the last channel with exactly the requested name; none exactly when no channel has it |
| SettingsCog.LastMatchStep | settings_cog.py:66-69 | one more matching channel becomes the last match; a non-matching one changes nothing |
| SettingsCog.LaterMatchWins | settings_cog.py:66-69 | of two channels with the requested name, the earlier one is never the one that stays |
| SettingsCog.ChannelUpdate | settings_cog.py:29-46 | one message per call; anything but one mention sends the error and changes nothing; otherwise the guild's main id becomes the mentioned channel's, its handle is resolved from the stale id still in `settings`, and one confirmation is sent |
| SettingsCog.VoiceChannelUpdate | settings_cog.py:48-77 | one message per call; a wrong argument count or no matching channel sends the error and changes nothing; otherwise the voice id is the last matching channel's and one confirmation is sent |
| Voice.EvictionCallsSpec | voice.py:114-117 | every member but the bot is moved out, the bot never is, and nothing else is issued |
| Voice.EvictionCallsAppend | voice.py:115-117 | moves follow the member order |
| Voice.OnlyBotStays | voice.py:116 | a channel holding only the bot produces no move |
| Voice.VoiceController.constructor | voice.py:27-29 | holds the bot's voice clients and the executable path, with no call made yet |
| Voice.VoiceController.ActiveClient | voice.py:38-39 | the active client is `voice_clients[0]` when there is one, and none otherwise |
| Voice.VoiceController.PlayAudio | voice.py:31-47 | with a connected client, stops current playback before playing the new source; otherwise nothing happens |
| Voice.VoiceController.Connect | voice.py:49-67 | connects only to a given channel and only when no client exists; otherwise nothing happens |
| Voice.VoiceController.Disconnect | voice.py:68-81 | disconnects only a present, connected client; otherwise nothing happens |
| Voice.VoiceController.GetMembers | voice.py:83-99 | the active channel's members when connected, none otherwise |
| Voice.VoiceController.RemoveAllMembers | voice.py:101-117 | with a connected client, moves out every member except the bot, in order; otherwise nothing happens |
| Voice.ConnectThenConnect | voice.py:61-62 | `connect(A)` then `connect(B)` stays on A, with a single connection made |
| Voice.PlayTwice | voice.py:43-47 | a second `play_audio` stops the first source before playing the second |

## Left out

- Discord library objects are abstracted: guilds, channels, voice clients, `FFmpegPCMAudio`, embeds, `change_presence` and `ctx.send`. Channels are id/name records, supplied by a `Platform` value.
- File I/O and JSON: files are a map from path to decoded record. `exists`, text encoding and `json.dumps` indentation are not modelled.
- SQLite: the f-string SQL, the cursor and `commit` are not modelled. internals/database.py is reduced to the `Guild` table as a set of ids.
- Floating point: the FLOAT branches of validation.py and validation/validation_checks.py are a caller-supplied verdict, and `require_float_range` is not modelled.
- JSON `null`, `true`/`false` and floating-point numbers have no `Value` case. So `Config.IntOf` treats only integers and numeric text as convertible. Python's `int(True)` and `int(1.5)` give 1, and `int(None)` raises. No stored id of the core is meant to hold such a value.
- Channel lookups from a stored record: `Common.GetChannelByValue` resolves only an integer value. In Python, a float or bool equal to a channel id would also find the channel.
- GuildTable.InsertOrIgnore: assumes `ID` is the unique key of the `Guild` table, so `INSERT OR IGNORE` never adds a second row for an id. The schema is created outside the modelled files. Without such a key the statement would insert duplicates.
- Decimal.ParseInt: models `int()` as an optional sign followed by ASCII digits. Python also accepts surrounding whitespace, underscores between digits, and non-ASCII Unicode decimal digits (`int('١٢') == 12`). Python also raises `ValueError` on text of more than 4300 digits; a Discord message is too short to carry that many. So `Validation.IntegerVerdict` and `ValidationChecks.RequireArgType` reject some arguments that Python accepts.
- async/await is modelled as sequential methods. voice.py takes no lock, and the model adds none.
- Randomness: `seed` is left out. `choice` becomes a caller-supplied index reduced modulo the list length.
- Logging and `print`, `datetime`, `get_info` and `platform`: side-effect-only code with no model.
- utilities.py is not modelled; sent messages are `Info`/`Error` records. Its 4096-character embed limit depends on `discord.Embed`, so a message is never replaced by the "too large" error.
- The thin cogs are not part of this model: admin_cog.py, cogs/admin_cog.py, help_cog.py, cogs/help_cog.py, event_cog.py and cog.py. validation/admin_cog_validator.py only delegates to `require_adm`.
- Subclass behaviour of the abstract hooks is not modelled. `add_guild`, `remove_guild`, `load_data`, `remove_data` and `set_loaded_data` are recorded as calls. `prepare_data` of guild.py is the `prepared` record passed to `write_data`.
- The `is_admin` predicates have no row of their own. They are membership in `adminsId`, which the constructors and `Config.AdminListMembership` describe.
- FileGuild.Guild.SetLoadedSettings, FileGuild.Guild.constructor, FileGuild.Guild.WithDataDir: a non-integer channel id in a stored record is treated as malformed, like a missing id. Python would carry the value along, and `get_channel` would find nothing for it. The two constructors exclude such a record with their `requires`, where guild.py:37-51 builds the guild anyway.
- FrameworkBot.Bot.SetInternalSettings, DiscordBot.Bot.SetInternalSettings, CustomBotSystem.CustomBot.SetInternalSettings, FrameworkBot.Bot.constructor, DiscordBot.Bot.constructor, CustomBotSystem.CustomBot.constructor: require `ADM_ID` to be a JSON list, the token to be text and the activities to be a list of strings. The source would accept other JSON shapes there.
- CustomBotSystem.CustomGuild.constructor: requires only that both channel keys exist. Looking up a list or object value with `get_channel` would raise in the source, where the model finds no channel.
- CustomBotSystem.CustomBot.PrepareData: the waiting for readiness and the platform's current guild list become the `guildIds` parameter.
- The `args is None` branch of `voice_channel_update` (settings_cog.py:56-58) cannot be taken, because `*args` is always a tuple.
- SettingsCog models settings_cog.py against the guild.py/bot.py copy it imports, whose `get_custom_guild` gives a `FileGuild.Guild`.
- Voice.VoiceController.Connect: the platform-reported state of the new connection is a pair of parameters. The client is added to the list even when it reports itself disconnected. A failure or timeout raised by `connect()` is not modelled.
- Voice.VoiceController.RemoveAllMembers: the moves are recorded as calls. The member lists are not updated, because the platform does that on its own after each move.

## Findings

| source | as written | input that shows it | evidently intended | confidence | as-written member | corrected member |
|---|---|---|---|---|---|---|
| guild.py:48-49 | the constructor passes `guilds_dir` to `load_settings` but not to `load_data`, so data is always read from `guilds` | `guilds_dir = "custom"`, with only `custom/1_data.json` present for guild 1: the stored data is ignored and `default_data` is adopted | data is read from the same `guilds_dir` as the settings and as `write_data(guilds_dir)` | medium, not executed | FileGuild.ConstructorDataDirCounterexample | FileGuild.Guild.WithDataDir |
