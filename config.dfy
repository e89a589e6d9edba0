/**
 * The application settings (`Settings`): which values are required, the
 * defaults, the numeric bounds, the log-level check and the rule that
 * file paths are made absolute.
 *
 * Defaults go through the same validators as supplied values, as the
 * settings base class validates defaults. Paths are POSIX paths.
 */
module Config {
  import opened Wrappers
  import Text

  /** The values supplied by the environment; `None` where a value is not given. */
  datatype RawSettings = RawSettings(
    googleCredentialsFile: Option<string>,
    googleTokenFile: Option<string>,
    googleCalendarId: Option<string>,
    googleScopes: Option<seq<string>>,
    discordBotToken: Option<string>,
    discordChannelId: Option<int>,
    syncIntervalMinutes: Option<int>,
    daysAhead: Option<int>,
    eventReminderHours: Option<int>,
    logLevel: Option<string>)

  /** Validated settings. */
  datatype Settings = Settings(
    googleCredentialsFile: string,
    googleTokenFile: string,
    googleCalendarId: string,
    googleScopes: seq<string>,
    discordBotToken: string,
    discordChannelId: int,
    syncIntervalMinutes: int,
    daysAhead: int,
    eventReminderHours: int,
    logLevel: string)

  datatype FieldError =
    | Missing(field: string)
    | OutOfRange(field: string, value: int, low: int, high: int)
    | InvalidLogLevel(given: string)

  const DefaultCredentialsFile := "credentials.json"
  const DefaultTokenFile := "token.json"
  const DefaultCalendarId := "primary"
  const DefaultScopes := ["https://www.googleapis.com/auth/calendar.readonly"]
  const DefaultSyncIntervalMinutes := 30
  const DefaultDaysAhead := 7
  const DefaultEventReminderHours := 1
  const DefaultLogLevel := "INFO"

  const ValidLogLevels: set<string> := {"DEBUG", "INFO", "WARNING", "ERROR", "CRITICAL"}

  predicate IsAbsolute(p: string)
  {
    |p| > 0 && p[0] == '/'
  }

  /** `validate_path`: an absolute path is kept, a relative one is put under the working directory. */
  function ValidatePath(cwd: string, p: string): (r: string)
    requires IsAbsolute(cwd)
    ensures IsAbsolute(r)
    ensures IsAbsolute(p) ==> r == p
    ensures !IsAbsolute(p) ==>
              |r| > |cwd| + |p| - 1 && r[..|cwd|] == cwd && r[|r| - |p|..] == p
              && r[|r| - |p| - 1] == '/'
    ensures !IsAbsolute(p) && cwd[|cwd| - 1] == '/' ==> |r| == |cwd| + |p|
    ensures !IsAbsolute(p) && cwd[|cwd| - 1] != '/' ==> |r| == |cwd| + 1 + |p|
  {
    if IsAbsolute(p) then p
    else if cwd[|cwd| - 1] == '/' then cwd + p
    else cwd + "/" + p
  }

  /** Making a path absolute twice changes nothing more. */
  lemma ValidatePathIdempotent(cwd: string, p: string)
    requires IsAbsolute(cwd)
    ensures ValidatePath(cwd, ValidatePath(cwd, p)) == ValidatePath(cwd, p)
  {
  }

  /** `validate_log_level`: accepted in any letter case, stored upper-case. */
  function ValidateLogLevel(v: string): (r: Result<string, FieldError>)
    ensures r.Success? <==> Text.ToUpper(v) in ValidLogLevels
    ensures r.Success? ==> r.value == Text.ToUpper(v) && r.value in ValidLogLevels && |r.value| == |v|
    ensures r.Failure? ==> r.error == InvalidLogLevel(v)
  {
    var upper := Text.ToUpper(v);
    if upper in ValidLogLevels then Success(upper) else Failure(InvalidLogLevel(v))
  }

  /** Two spellings that differ only in letter case are judged alike. */
  lemma LogLevelCaseInsensitive(a: string, b: string)
    requires Text.ToUpper(a) == Text.ToUpper(b)
    ensures ValidateLogLevel(a).Success? == ValidateLogLevel(b).Success?
    ensures ValidateLogLevel(a).Success? ==> ValidateLogLevel(a) == ValidateLogLevel(b)
  {
  }

  /** A stored log level passes validation again unchanged. */
  lemma LogLevelStable(v: string)
    requires ValidateLogLevel(v).Success?
    ensures ValidateLogLevel(ValidateLogLevel(v).value) == ValidateLogLevel(v)
  {
    Text.ToUpperIdempotent(v);
  }

  /** Lower- and mixed-case spellings are accepted and stored upper-cased. */
  lemma LogLevelSpellings()
    ensures ValidateLogLevel("debug") == Success("DEBUG")
    ensures ValidateLogLevel("WaRnInG") == Success("WARNING")
    ensures ValidateLogLevel("verbose") == Failure(InvalidLogLevel("verbose"))
  {
    var d := Text.ToUpper("debug");
    assert d[0] == 'D' && d[1] == 'E' && d[2] == 'B' && d[3] == 'U' && d[4] == 'G';
    assert d == "DEBUG";
    var w := Text.ToUpper("WaRnInG");
    assert w[0] == 'W' && w[1] == 'A' && w[2] == 'R' && w[3] == 'N' && w[4] == 'I' && w[5] == 'N' && w[6] == 'G';
    assert w == "WARNING";
    var v := Text.ToUpper("verbose");
    assert v[0] == 'V' && |v| == 7;
  }

  /** The `ge` / `le` bound of a numeric field. */
  function RangeErrors(field: string, v: int, low: int, high: int): (r: seq<FieldError>)
    ensures r == [] <==> low <= v <= high
  {
    if low <= v <= high then [] else [OutOfRange(field, v, low, high)]
  }

  /** A required field. */
  function RequiredErrors<T>(field: string, v: Option<T>): (r: seq<FieldError>)
    ensures r == [] <==> v.Some?
  {
    if v.Some? then [] else [Missing(field)]
  }

  function LogLevelErrors(v: string): (r: seq<FieldError>)
    ensures r == [] <==> ValidateLogLevel(v).Success?
  {
    match ValidateLogLevel(v)
    case Success(_) => []
    case Failure(err) => [err]
  }

  /** Every complaint about the supplied values, in the order the fields are declared. */
  function SettingsErrors(raw: RawSettings): seq<FieldError>
  {
    RequiredErrors("discord_bot_token", raw.discordBotToken)
    + RequiredErrors("discord_channel_id", raw.discordChannelId)
    + RangeErrors("sync_interval_minutes", raw.syncIntervalMinutes.GetOr(DefaultSyncIntervalMinutes), 5, 1440)
    + RangeErrors("days_ahead", raw.daysAhead.GetOr(DefaultDaysAhead), 1, 365)
    + RangeErrors("event_reminder_hours", raw.eventReminderHours.GetOr(DefaultEventReminderHours), 0, 168)
    + LogLevelErrors(raw.logLevel.GetOr(DefaultLogLevel))
  }

  /** Constructing `Settings`: either every error found, or the validated values. */
  function LoadSettings(raw: RawSettings, cwd: string): (r: Result<Settings, seq<FieldError>>)
    requires IsAbsolute(cwd)
    ensures r.Failure? ==> |r.error| > 0
  {
    var errors := SettingsErrors(raw);
    if errors != [] then Failure(errors)
    else
      Success(Settings(
        ValidatePath(cwd, raw.googleCredentialsFile.GetOr(DefaultCredentialsFile)),
        ValidatePath(cwd, raw.googleTokenFile.GetOr(DefaultTokenFile)),
        raw.googleCalendarId.GetOr(DefaultCalendarId),
        raw.googleScopes.GetOr(DefaultScopes),
        raw.discordBotToken.value,
        raw.discordChannelId.value,
        raw.syncIntervalMinutes.GetOr(DefaultSyncIntervalMinutes),
        raw.daysAhead.GetOr(DefaultDaysAhead),
        raw.eventReminderHours.GetOr(DefaultEventReminderHours),
        ValidateLogLevel(raw.logLevel.GetOr(DefaultLogLevel)).value))
  }

  /** Settings load exactly when both required values are given and every bound holds. */
  lemma LoadSettingsSucceedsIff(raw: RawSettings, cwd: string)
    requires IsAbsolute(cwd)
    ensures LoadSettings(raw, cwd).Success? <==>
              && raw.discordBotToken.Some?
              && raw.discordChannelId.Some?
              && (raw.syncIntervalMinutes.Some? ==> 5 <= raw.syncIntervalMinutes.value <= 1440)
              && (raw.daysAhead.Some? ==> 1 <= raw.daysAhead.value <= 365)
              && (raw.eventReminderHours.Some? ==> 0 <= raw.eventReminderHours.value <= 168)
              && (raw.logLevel.Some? ==> Text.ToUpper(raw.logLevel.value) in ValidLogLevels)
  {
    assert Text.ToUpper(DefaultLogLevel) == DefaultLogLevel;
    var e := SettingsErrors(raw);
    assert |e| == |RequiredErrors("discord_bot_token", raw.discordBotToken)|
                  + |RequiredErrors("discord_channel_id", raw.discordChannelId)|
                  + |RangeErrors("sync_interval_minutes", raw.syncIntervalMinutes.GetOr(DefaultSyncIntervalMinutes), 5, 1440)|
                  + |RangeErrors("days_ahead", raw.daysAhead.GetOr(DefaultDaysAhead), 1, 365)|
                  + |RangeErrors("event_reminder_hours", raw.eventReminderHours.GetOr(DefaultEventReminderHours), 0, 168)|
                  + |LogLevelErrors(raw.logLevel.GetOr(DefaultLogLevel))|;
  }

  /** Loaded settings hold the supplied values (log level upper-cased, paths absolute) or the defaults. */
  lemma LoadedValues(raw: RawSettings, cwd: string)
    requires IsAbsolute(cwd)
    requires LoadSettings(raw, cwd).Success?
    ensures var s := LoadSettings(raw, cwd).value;
            && IsAbsolute(s.googleCredentialsFile) && IsAbsolute(s.googleTokenFile)
            && s.googleCredentialsFile == ValidatePath(cwd, raw.googleCredentialsFile.GetOr(DefaultCredentialsFile))
            && s.googleTokenFile == ValidatePath(cwd, raw.googleTokenFile.GetOr(DefaultTokenFile))
            && s.googleCalendarId == raw.googleCalendarId.GetOr(DefaultCalendarId)
            && s.googleScopes == raw.googleScopes.GetOr(DefaultScopes)
            && s.discordBotToken == raw.discordBotToken.value
            && s.discordChannelId == raw.discordChannelId.value
            && 5 <= s.syncIntervalMinutes <= 1440
            && 1 <= s.daysAhead <= 365
            && 0 <= s.eventReminderHours <= 168
            && s.logLevel in ValidLogLevels
            && (raw.logLevel.Some? ==> s.logLevel == Text.ToUpper(raw.logLevel.value))
            && (raw.logLevel.None? ==> s.logLevel == DefaultLogLevel)
            && (raw.syncIntervalMinutes.Some? ==> s.syncIntervalMinutes == raw.syncIntervalMinutes.value)
            && (raw.daysAhead.Some? ==> s.daysAhead == raw.daysAhead.value)
            && (raw.eventReminderHours.Some? ==> s.eventReminderHours == raw.eventReminderHours.value)
            && (raw.syncIntervalMinutes.None? ==> s.syncIntervalMinutes == DefaultSyncIntervalMinutes)
            && (raw.daysAhead.None? ==> s.daysAhead == DefaultDaysAhead)
            && (raw.eventReminderHours.None? ==> s.eventReminderHours == DefaultEventReminderHours)
  {
  }

  /** With only the two required values given, every other setting takes its default. */
  lemma DefaultSettings(token: string, channel: int, cwd: string)
    requires IsAbsolute(cwd)
    ensures var raw := RawSettings(None, None, None, None, Some(token), Some(channel), None, None, None, None);
            LoadSettings(raw, cwd) == Success(Settings(
              ValidatePath(cwd, DefaultCredentialsFile), ValidatePath(cwd, DefaultTokenFile),
              "primary", DefaultScopes, token, channel, 30, 7, 1, "INFO"))
  {
    assert Text.ToUpper(DefaultLogLevel) == DefaultLogLevel;
  }

  /** A sync interval of 1 or 2000 minutes is refused; 60 is accepted. */
  lemma SyncIntervalBounds(token: string, channel: int, cwd: string)
    requires IsAbsolute(cwd)
    ensures LoadSettings(RawSettings(None, None, None, None, Some(token), Some(channel), Some(1), None, None, None), cwd).Failure?
    ensures LoadSettings(RawSettings(None, None, None, None, Some(token), Some(channel), Some(2000), None, None, None), cwd).Failure?
    ensures LoadSettings(RawSettings(None, None, None, None, Some(token), Some(channel), Some(60), None, None, None), cwd).Success?
  {
    assert Text.ToUpper(DefaultLogLevel) == DefaultLogLevel;
  }

  /** Leaving out the token or the channel names that field among the errors. */
  lemma RequiredFieldsReported(raw: RawSettings, cwd: string)
    requires IsAbsolute(cwd)
    ensures raw.discordBotToken.None? ==>
              LoadSettings(raw, cwd).Failure? && Missing("discord_bot_token") in LoadSettings(raw, cwd).error
    ensures raw.discordChannelId.None? ==>
              LoadSettings(raw, cwd).Failure? && Missing("discord_channel_id") in LoadSettings(raw, cwd).error
  {
    var e := SettingsErrors(raw);
    var tok := RequiredErrors("discord_bot_token", raw.discordBotToken);
    var chan := RequiredErrors("discord_channel_id", raw.discordChannelId);
    if raw.discordBotToken.None? {
      assert e[0] == Missing("discord_bot_token");
    }
    if raw.discordChannelId.None? {
      assert e[|tok|] == Missing("discord_channel_id");
    }
  }
}
