# gcal-to-discord: event-to-message reconciliation in Dafny

This project models the core of a service that posts upcoming calendar events
to a chat channel without posting any event twice. Nothing is stored between
runs. Instead, each run rebuilds a map from event link to message id by
scanning the channel's recent history for the bot's own messages. It then
upserts each event: it skips the event if the event's id or link is already
mapped, and otherwise it posts a new message and records it.

Modules:

- `Discord`: the class `DiscordClient` with its two maps, `event_message_map`
  and `_url_to_message_map`, changed in place. It has `RebuildEventMapping`,
  `UpsertEvent`, `DeleteEventMessage` and `SyncEvents`. Each method is proved
  against a function of `Reconcile`.
- `Reconcile`: the same bookkeeping as functions on values (scan, upsert,
  delete, one sync run), and the lemmas that state what it promises.
- `Calendar`: `GoogleCalendarEvent`, meaning how an event resource is read
  (defaults, all-day flag, attendee filter, date parsing) and the embed it
  becomes (`to_discord_embed`).
- `Config`: the settings, meaning their required fields, defaults, numeric
  bounds, the log-level check and making paths absolute.
- `Text` and `Wrappers`: `str.join`, `str(n)`, `str.upper`, one-character
  `str.replace`, plus `Option` and `Result`.

The chat service is abstract. Its calls become inputs:

- the channel history as a newest-first `seq<Message>`;
- what `channel.send` returns, as a `SendOutcome`;
- what fetching and deleting a message gives, as a `DeleteOutcome`.

In a sync run, the i-th event's send gives `send(i)`. Whether the channel was
found and the bot's own user id are constructor arguments. The ghost field
`sendCalls` records every embed handed to `channel.send`, so "never sends" can
be stated.

Behaviour of the code that a reader might not expect:

- **Duplicate links.** If two scanned messages carry the same link, the one
  scanned later overwrites the earlier (`Reconcile.ScanLastWriteWins`). It is
  not the first occurrence that is kept.
- **Clearing.** A rebuild empties only the event map. The link map is never
  emptied, so entries from earlier scans or upserts survive.
- **Id 0.** Message ids are tested for Python truthiness, so an id of 0 counts
  as "no message" (`Reconcile.Truthy`). An upsert whose send returns id 0
  returns 0, and the sync counts that event as failed.
- **State and deletes.** The reconciler is not a pure function of the events
  and the history. It keeps state in the client object and also has a delete
  operation. Deleting removes the event-id entry but not the link entry. So
  upserting the same event again answers with the id the link map still holds
  for its link, which is the deleted message when the two maps agreed, and
  posts nothing (`Reconcile.DeleteKeepsLinkEntry`).
- **Defaults are validated.** The settings base class validates defaults,
  so the default credential and token paths are made absolute too.

## Model

| member | source | states |
|---|---|---|
| `Discord.DiscordClient.constructor` | src/gcal_to_discord/discord_client.py:27-39 | both maps start empty |
| `Discord.DiscordClient.RebuildEventMapping` | src/gcal_to_discord/discord_client.py:106-176 | without a channel nothing changes; otherwise the event map is emptied, the link map (not emptied) gets the scan of the first `limit` history messages, and the returned counts are messages scanned and messages of ours |
| `Discord.DiscordClient.UpsertEvent` | src/gcal_to_discord/discord_client.py:178-257 | the new maps, the returned id and whether the event's embed was handed to `channel.send` are those of `Reconcile.UpsertStep` |
| `Discord.DiscordClient.DeleteEventMessage` | src/gcal_to_discord/discord_client.py:259-309 | the new event map and the result are those of `Reconcile.DeleteStep`; the link map is outside the frame |
| `Discord.DiscordClient.SyncEvents` | src/gcal_to_discord/discord_client.py:311-358 | rebuilds if asked, then the maps and the counts are those of `Reconcile.SyncRun`, starting from the rebuilt maps; total is the number of events and created + skipped + failed = total |
| `Reconcile.Window` | src/gcal_to_discord/discord_client.py:132 | the scan reads the newest `limit` messages of the newest-first history (a prefix of exactly `limit` messages), or the whole history when it is no longer |
| `Reconcile.ScanHistory` | src/gcal_to_discord/discord_client.py:136-152 | the scan never removes a link, and never adds the empty link |
| `Reconcile.LastCarrier` | src/gcal_to_discord/discord_client.py:136-151 | reference definition: the last scanned message of ours that links to a URL, and no later one does |
| `Reconcile.ScanLastWriteWins` | src/gcal_to_discord/discord_client.py:136-152 | after the scan a URL maps to the id of the LAST qualifying message (bot author, an embed, non-empty first-embed URL) linking to it; otherwise it keeps its earlier entry |
| `Reconcile.ScanKeys` | src/gcal_to_discord/discord_client.py:136-151 | a URL is a key after the scan iff it was before or some qualifying message links to it |
| `Reconcile.ScanKeyCount` | src/gcal_to_discord/discord_client.py:151-152 | the scan adds at most `mapping_count` keys: the count is of messages, not distinct URLs |
| `Reconcile.DuplicateUrlOverwrites` | src/gcal_to_discord/discord_client.py:151-152 | two messages with one URL give one entry holding the later id, and a count of 2 |
| `Reconcile.PreLookup` | src/gcal_to_discord/discord_client.py:343-345 | the pre-look-up's answer is the event-id entry or, when there is a link, the link entry; when it has none, the upsert's look-up finds nothing either |
| `Reconcile.FindExisting` | src/gcal_to_discord/discord_client.py:202-207 | the message found is never id 0 |
| `Reconcile.PreLookupAgrees` | src/gcal_to_discord/discord_client.py:341-345 | the pre-look-up of `sync_events` finds a message iff the upsert's own look-up does, and finds the same one |
| `Reconcile.UpsertStep` | src/gcal_to_discord/discord_client.py:192-257 | `channel.send` is called iff there is a channel and no message is found; without a send the answer is the found message (none without a channel) and the link map is unchanged; with one the answer is the new id, or none when the send fails |
| `Reconcile.UpsertWithoutChannel` | src/gcal_to_discord/discord_client.py:192-194 | without a channel: no change, no send, no id |
| `Reconcile.UpsertHit` | src/gcal_to_discord/discord_client.py:202-225 | on a hit by id or by non-empty link: returns that id, never sends, link map unchanged, event map then maps the event id to it |
| `Reconcile.UpsertMiss` | src/gcal_to_discord/discord_client.py:227-257 | on a miss: sends once; on success returns the new id and records it under the event id and, only for a non-empty link, under the link; on failure returns nothing and changes nothing |
| `Reconcile.UpsertKeepsKnownEntries` | src/gcal_to_discord/discord_client.py:202-233 | an entry naming a message (non-zero) is never changed by an upsert, in either map |
| `Reconcile.UpsertOnlyAdds` | src/gcal_to_discord/discord_client.py:209-233 | an upsert never removes a key |
| `Reconcile.DeleteStep` | src/gcal_to_discord/discord_client.py:269-309 | a delete reports success only with a channel and a non-zero id for the key, and then removes exactly that key; otherwise the map is unchanged |
| `Reconcile.DeleteOutcomes` | src/gcal_to_discord/discord_client.py:269-309 | true iff channel, a non-zero id for the key, and the delete succeeded or the message was already gone; then exactly that key is removed; otherwise the map is unchanged |
| `Reconcile.DeleteKeepsLinkEntry` | src/gcal_to_discord/discord_client.py:205-225 | after a successful delete, upserting the same event with a mapped link does not send and returns the id the link map holds for the link, which is the deleted message's id when both maps held the same id |
| `Reconcile.SyncRun` | src/gcal_to_discord/discord_client.py:341-355 | a run sends at most once per event, and every created event took a send |
| `Reconcile.SyncCountsAddUp` | src/gcal_to_discord/discord_client.py:334-355 | created + skipped + failed grows by exactly the number of events |
| `Reconcile.SyncWithoutChannel` | src/gcal_to_discord/discord_client.py:192-194 | without a channel every event fails, nothing is sent, the maps stay |
| `Reconcile.TallyCases` | src/gcal_to_discord/discord_client.py:341-355 | skipped iff the pre-look-up finds a message; created iff it does not and the send gives a non-zero id |
| `Reconcile.SyncKeepsKnownEntries` | src/gcal_to_discord/discord_client.py:341-355 | an entry naming a message keeps naming it for the rest of the run |
| `Reconcile.RepeatIsSkipped` | src/gcal_to_discord/discord_client.py:341-355 | a later event with the id, or the non-empty link, of an event created earlier in the run is skipped |
| `Reconcile.KnownEventsCreateNothing` | src/gcal_to_discord/discord_client.py:341-355 | when every event is already known, a run creates nothing and sends nothing |
| `Reconcile.SkipThenCreate` | src/gcal_to_discord/discord_client.py:341-355 | with one link mapped, events [known, unknown] are counted skipped then created |
| `Calendar.OrElse` | src/gcal_to_discord/google_calendar.py:32 | `dateTime or date`: the first when it is truthy, the second otherwise |
| `Calendar.IsoArgument` | src/gcal_to_discord/google_calendar.py:55-58 | with a time part every `Z` is replaced by `+00:00` (so none is left and the `T` stays); without one the text is unchanged |
| `Calendar.ParseDateTime` | src/gcal_to_discord/google_calendar.py:49-61 | no value for a missing or empty string; with a time part, the parser's result on the text with every `Z` replaced by `+00:00`; otherwise its result on the text itself |
| `Calendar.AttendeeEmails` | src/gcal_to_discord/google_calendar.py:42-46 | no empty address; an address is kept iff some attendee has it; never longer than the input |
| `Calendar.AttendeeEmailsAppend` | src/gcal_to_discord/google_calendar.py:42-46 | the filter keeps input order (distributes over concatenation) |
| `Calendar.FromEventData` | src/gcal_to_discord/google_calendar.py:21-46 | defaults "" for id and link, "No Title" for summary, none for description and location; start and end are the parse of `dateTime or date` of their (possibly missing) time objects; all-day iff the start object has a `date` key; attendees are the filtered list in input order |
| `Calendar.TruncateDescription` | src/gcal_to_discord/google_calendar.py:100-106 | never over 1024; unchanged up to 1024; longer ones become their first 1021 characters and "..." |
| `Calendar.ToDiscordEmbed` | src/gcal_to_discord/google_calendar.py:63-128 | title is the summary, url the link, color 0x4285F4, fields those of `EmbedFields` |
| `Calendar.EmbedFieldOrder` | src/gcal_to_discord/google_calendar.py:72-126 | at most four fields, each named Time, Location, Description or Attendees, strictly in that order, none inline |
| `Calendar.EmbedFieldValues` | src/gcal_to_discord/google_calendar.py:72-126 | each field is present exactly when start time, location, description or attendees is present and non-empty, with the time text, the location, the truncated description or the attendee text |
| `Calendar.TimeTextShape` | src/gcal_to_discord/google_calendar.py:73-79 | all-day shows only the date; a timed event starts with its start text and ends in " - " and its end time exactly when it has one |
| `Calendar.AttendeesTextShape` | src/gcal_to_discord/google_calendar.py:116-119 | starts with at most ten addresses joined by ", "; past ten it is followed by exactly " (+k more)" where k is n - 10 in decimal without leading zeros and reads back as n - 10 |
| `Text.ReplaceChar` | src/gcal_to_discord/google_calendar.py:56 | replacing a character by text without it leaves none; every other character present stays present; text without it is unchanged |
| `Text.ReplaceCharOne` | src/gcal_to_discord/google_calendar.py:56 | on one character: the pattern becomes the replacement, any other character stays |
| `Text.ReplaceCharAppend` | src/gcal_to_discord/google_calendar.py:56 | replacing distributes over concatenation, so together with `ReplaceCharOne` every occurrence is replaced in place and everything else is kept in order |
| `Text.JoinLength` | src/gcal_to_discord/google_calendar.py:117 | a join is as long as its parts plus one separator between each two |
| `Text.ParseNatToString` | src/gcal_to_discord/google_calendar.py:119 | the rendered count reads back as the count |
| `Text.UpperChar` | src/gcal_to_discord/config.py:86 | an ASCII lower-case letter becomes its own capital (32 code points lower); every other character is kept |
| `Text.ToUpper` | src/gcal_to_discord/config.py:86 | same length, every character mapped by `UpperChar`: ASCII lower-case letters to their capitals, everything else kept |
| `Text.ToUpperIdempotent` | src/gcal_to_discord/config.py:86 | upper-casing twice is upper-casing once |
| `Config.ValidatePath` | src/gcal_to_discord/config.py:73-79 | the result is absolute; an absolute path is unchanged; a relative one is the working directory, then one `/` (no second one when the directory already ends in `/`, as the root does), then the path, and nothing else |
| `Config.ValidatePathIdempotent` | src/gcal_to_discord/config.py:73-79 | validating a validated path changes nothing |
| `Config.ValidateLogLevel` | src/gcal_to_discord/config.py:81-89 | accepted iff the upper-cased text is one of DEBUG, INFO, WARNING, ERROR, CRITICAL; then the upper-cased text is stored; otherwise the error names the given text |
| `Config.LogLevelCaseInsensitive` | src/gcal_to_discord/config.py:81-89 | spellings differing only in case are judged and stored alike |
| `Config.LogLevelSpellings` | src/gcal_to_discord/config.py:81-89 | "debug" is stored as "DEBUG" and "WaRnInG" as "WARNING"; "verbose" is refused with an error naming it |
| `Config.LogLevelStable` | src/gcal_to_discord/config.py:81-89 | a stored level validates to itself |
| `Config.RangeErrors` | src/gcal_to_discord/config.py:48-65 | no error iff the value lies within the bounds |
| `Config.RequiredErrors` | src/gcal_to_discord/config.py:38-45 | no error iff the value is given |
| `Config.LoadSettings` | src/gcal_to_discord/config.py:9-89 | a failure carries at least one error |
| `Config.LoadSettingsSucceedsIff` | src/gcal_to_discord/config.py:38-89 | loading succeeds iff token and channel are given, interval in [5, 1440], days in [1, 365], reminder hours in [0, 168] and the log level is valid |
| `Config.LoadedValues` | src/gcal_to_discord/config.py:20-89 | every loaded setting is the supplied value or its default: paths made absolute by `validate_path`, log level upper-cased, calendar, scopes, token, channel and the three numbers as given; all bounds hold |
| `Config.DefaultSettings` | src/gcal_to_discord/config.py:19-70 | with only token and channel given: calendar "primary", interval 30, days 7, reminder 1, log level "INFO", default paths made absolute |
| `Config.SyncIntervalBounds` | src/gcal_to_discord/config.py:48-53 | interval 1 and 2000 are refused, 60 accepted |
| `Config.RequiredFieldsReported` | src/gcal_to_discord/config.py:38-45 | leaving out the token or the channel fails and names that field |

## Left out

- Chat transport: login, connect, disconnect, waiting for ready with a timeout, and the ready and error handlers (discord_client.py:27-104). Async execution is modelled as one sequential thread. Whether the channel was found and the bot's user id are constructor arguments.
- `channel.history`, `channel.send`, `fetch_message` and `delete` are inputs, not calls. If the history fails part-way through a scan, the model sees the shorter history that was delivered. The source then logs and stops, with the same effect on the maps.
- `Embed.from_dict` and an exception raised while building the embed are not modelled. The embed is built from the event's fields, which cannot fail.
- `DiscordEventMessage` is only a datatype (`Discord.EventMessage`). The source defines it and never uses it.
- Logging is left out everywhere. The counts that `rebuild_event_mapping` logs are returned as out-parameters.
- `GoogleCalendarClient` is left out: OAuth, token files, the API call and the current time.
- `datetime.fromisoformat` and `strftime` are library calls. They are function parameters (`IsoParser`, `Formatter`), and a parsed `DateTime` is never inspected.
- `main.py`: signal handling, the loop and sleep, argument parsing, exit codes, and its read of a `updated` statistic that `sync_events` never produces. `scripts/setup_check.py` is left out too.
- Settings loading: reading the environment and the `.env` file, case-insensitive variable names, and type coercion of values. Inputs arrive already typed, and `Config.RawSettings` marks which are given.
- `Config.ValidatePath` models POSIX paths as strings. It does not model pathlib normalisation (`.` parts, repeated `/`, `Path("")`).
- `Text.ToUpper` maps ASCII letters only. Python's `str.upper` also maps non-ASCII letters. So `Config.ValidateLogLevel` refuses some spellings that Python accepts. For example, `"ınfo"` with a dotless i (U+0131) upper-cases to `"INFO"` in Python and is stored that way, but the model refuses it.
- `Discord.DiscordClient.SyncEvents`: states how many embeds a run hands to `channel.send`, not which ones. The per-event embed is stated by `UpsertEvent`.
