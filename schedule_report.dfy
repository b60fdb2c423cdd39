/**
 * ScheduleReport: validates a report schedule (the report configuration, a
 * five-field cron expression, the recipients and the time-range mode) and
 * describes it: its frequency, its next run and its delivery targets.
 *
 * The schedule id and creation time (`datetime.now()`) and the generated
 * implementation instructions are not part of this model.
 */
module ScheduleReport {
  import opened Outcomes
  import opened Values
  import opened Text

  /** The parsed `report_config` object. */
  datatype ConfigInput =
    | ConfigInvalidJson
    | Config(format: Option<Value>, aggregationLevel: Option<Value>, providers: Option<Value>)

  const MinuteChars: string := "0123456789*/-,"
  const TimeModes: seq<string> := ["relative", "fixed", "period"]

  /** `[r.strip() for r in recipients.split(",")]`. */
  function RecipientList(recipients: string): (r: seq<string>)
    ensures |r| == |SplitOn(recipients, ",")|
    ensures forall k :: 0 <= k < |r| ==> r[k] == Strip(SplitOn(recipients, ",")[k])
  {
    var parts := SplitOn(recipients, ",");
    seq(|parts|, k requires 0 <= k < |parts| => Strip(parts[k]))
  }

  /** Splitting always yields at least one piece, so the "at least one recipient" error is never returned. */
  lemma RecipientListNonEmpty(recipients: string)
    ensures RecipientList(recipients) != []
  {
  }

  datatype Recipient = Email(address: string) | Slack(channel: string) | S3(path: string)

  datatype DeliveryType = EmailDelivery | SlackDelivery | S3Delivery

  function TypeOf(r: Recipient): DeliveryType
  {
    match r
    case Email(_) => EmailDelivery
    case Slack(_) => SlackDelivery
    case S3(_) => S3Delivery
  }

  const SlackPrefix: string := "slack://"

  /** One pass of the recipient loop; an unrecognised target is a warning that ends the run. */
  function Classify(recipient: string): Outcome<Recipient>
  {
    if '@' in recipient then Ok(Email(recipient))
    else if StartsWith(recipient, SlackPrefix) then Ok(Slack(RemoveAll(recipient, SlackPrefix)))
    else if StartsWith(recipient, "s3://") then Ok(S3(recipient))
    else Warning(Unrecognised(recipient))
  }

  const UnrecognisedPrefix := "Unrecognized recipient format '"
  const UnrecognisedSuffix := "'. Use: email@domain.com, slack://channel, or s3://bucket/path"
  const BadCronPrefix := "Invalid cron expression '"
  const BadCronSuffix := "'. Must have 5 fields: minute hour day month weekday."
  const BadMinutePrefix := "Invalid minute field '"
  const BadMinuteSuffix := "' in cron expression."
  const BadModePrefix := "Invalid time_range_mode '"
  const BadModeSuffix := "'. Must be one of: relative, fixed, period"
  const InvalidConfigJson := "Invalid JSON in report_config."
  const MissingFormat := "Missing required field 'format' in report_config. Provide: format"
  const UnpackFailure := "Error creating schedule: not enough values to unpack."
  const UpperFailure := "Error creating schedule: format has no attribute 'upper'."

  function Unrecognised(recipient: string): string
  {
    UnrecognisedPrefix + recipient + UnrecognisedSuffix
  }

  /**
   * An `@` anywhere makes an email address, before any prefix test; a
   * `slack://` prefix names the channel after it; other targets need an
   * `s3://` prefix.
   */
  lemma ClassifyFacts(recipient: string, channel: string)
    ensures '@' in recipient ==> Classify(recipient) == Ok(Email(recipient))
    ensures '@' !in recipient && !StartsWith(recipient, SlackPrefix) && !StartsWith(recipient, "s3://") ==>
      Classify(recipient).Warning?
    ensures '@' !in recipient && StartsWith(recipient, "s3://") ==> Classify(recipient) == Ok(S3(recipient))
    ensures recipient == SlackPrefix + channel && '@' !in channel && !ContainsSub(channel, SlackPrefix) ==>
      Classify(recipient) == Ok(Slack(channel))
  {
    if StartsWith(recipient, "s3://") {
      assert recipient[1] == '3' by {
        assert recipient[..5] == "s3://";
      }
    }
    if recipient == SlackPrefix + channel && '@' !in channel && !ContainsSub(channel, SlackPrefix) {
      assert recipient[..|SlackPrefix|] == SlackPrefix;
      assert '@' !in recipient by {
        forall k | 0 <= k < |recipient|
          ensures recipient[k] != '@'
        {
          if k >= |SlackPrefix| {
            assert recipient[k] == channel[k - |SlackPrefix|];
          }
        }
      }
      RemoveLeadingOnly(channel, SlackPrefix);
    }
  }

  /** An empty recipients string gives the unrecognised-format warning. */
  lemma EmptyRecipientsWarn()
    ensures RecipientList("") == [""]
    ensures MapAll(RecipientList(""), Classify).Warning?
  {
    assert SplitOn("", ",") == [""];
    assert RecipientList("")[0] == Strip("");
  }

  /** The recipient loop, stopping at the first unrecognised target. */
  method ValidateRecipients(list: seq<string>) returns (r: Outcome<seq<Recipient>>)
    ensures r == MapAll(list, Classify)
  {
    var validated := [];
    var i := 0;
    while i < |list|
      invariant 0 <= i <= |list|
      invariant MapAll(list[..i], Classify) == Ok(validated)
    {
      var recipient := list[i];
      var c: Recipient;
      if '@' in recipient {
        c := Email(recipient);
      } else if StartsWith(recipient, SlackPrefix) {
        c := Slack(RemoveAll(recipient, SlackPrefix));
      } else if StartsWith(recipient, "s3://") {
        c := S3(recipient);
      } else {
        assert list[..i + 1][..i] == list[..i];
        MapAllFailure(list, i + 1, Classify);
        return Warning(Unrecognised(recipient));
      }
      MapAllStep(list, i, Classify, validated);
      validated := validated + [c];
      i := i + 1;
    }
    assert list[..|list|] == list;
    r := Ok(validated);
  }

  /** The five cron fields, named as the tool unpacks them. */
  datatype Cron = Cron(minute: string, hour: string, day: string, month: string, weekday: string)

  function CronOf(parts: seq<string>): Cron
    requires |parts| == 5
  {
    Cron(parts[0], parts[1], parts[2], parts[3], parts[4])
  }

  predicate ValidMinute(minute: string)
  {
    forall k :: 0 <= k < |minute| ==> minute[k] in MinuteChars
  }

  /** `weekday_names.get(weekday, weekday)`. */
  function WeekdayName(w: string): string
  {
    if w == "0" || w == "SUN" then "Sunday"
    else if w == "1" || w == "MON" then "Monday"
    else if w == "2" || w == "TUE" then "Tuesday"
    else if w == "3" || w == "WED" then "Wednesday"
    else if w == "4" || w == "THU" then "Thursday"
    else if w == "5" || w == "FRI" then "Friday"
    else if w == "6" || w == "SAT" then "Saturday"
    else w
  }

  /** How the minute is printed: "0" as "00", anything else as written. */
  function MinuteText(minute: string): string
  {
    if minute != "0" then minute else "00"
  }

  datatype Frequency =
    | Hourly
    | Daily(hour: string, minute: string)
    | Weekly(dayName: string, hour: string, minute: string)
    | Monthly(day: string, hour: string, minute: string)
    | Custom(expression: string)

  /** `_interpret_cron`. */
  function Interpret(c: Cron, expression: string): Frequency
  {
    if c.day == "*" && c.month == "*" && c.weekday == "*" then
      if c.hour == "*" then Hourly else Daily(c.hour, MinuteText(c.minute))
    else if c.day == "*" && c.month == "*" then Weekly(WeekdayName(c.weekday), c.hour, MinuteText(c.minute))
    else if c.day != "*" && c.month == "*" then Monthly(c.day, c.hour, MinuteText(c.minute))
    else Custom(expression)
  }

  /**
   * The frequency follows from which of day, month and weekday are `*`:
   * all three give hourly or daily; only the weekday set gives weekly; the
   * day set with any month `*` gives monthly; a set month is always custom.
   */
  lemma InterpretFacts(c: Cron, expression: string)
    ensures Interpret(c, expression).Hourly? <==> c.day == "*" && c.month == "*" && c.weekday == "*" && c.hour == "*"
    ensures Interpret(c, expression).Daily? <==> c.day == "*" && c.month == "*" && c.weekday == "*" && c.hour != "*"
    ensures Interpret(c, expression).Weekly? <==> c.day == "*" && c.month == "*" && c.weekday != "*"
    ensures Interpret(c, expression).Monthly? <==> c.day != "*" && c.month == "*"
    ensures Interpret(c, expression).Custom? <==> c.month != "*"
    ensures Interpret(c, expression).Daily? ==> Interpret(c, expression).minute == (if c.minute == "0" then "00" else c.minute)
    ensures c.weekday == "MON" || c.weekday == "1" ==> WeekdayName(c.weekday) == "Monday"
  {
  }

  datatype NextRun = WithinNextHour | NextAt(hour: string, minute: string) | NextMatching

  /** `_calculate_next_run`. */
  function NextRunOf(c: Cron): (r: NextRun)
    ensures r.WithinNextHour? <==> c.minute == "*" && c.hour == "*"
    ensures r.NextAt? <==> c.minute != "*" && c.hour != "*"
    ensures r.NextAt? ==> r.hour == c.hour && r.minute == c.minute
  {
    if c.minute == "*" && c.hour == "*" then WithinNextHour
    else if c.minute != "*" && c.hour != "*" then NextAt(c.hour, c.minute)
    else NextMatching
  }

  datatype ScheduleConfig = ScheduleConfig(
    frequency: Frequency,
    nextRun: NextRun,
    format: string,
    aggregationLevel: Value,
    providersFilter: Value,
    timeRangeMode: string,
    cronExpression: string,
    maxAttempts: nat,
    backoffMinutes: nat,
    recipientCount: nat,
    recipients: seq<Recipient>,
    deliveryMethods: set<DeliveryType>)

  function DeliveryMethods(rs: seq<Recipient>): set<DeliveryType>
  {
    set k | 0 <= k < |rs| :: TypeOf(rs[k])
  }

  function BadCron(cron: string): string
  {
    BadCronPrefix + cron + BadCronSuffix
  }

  function BadMinute(minute: string): string
  {
    BadMinutePrefix + minute + BadMinuteSuffix
  }

  function BadMode(mode: string): string
  {
    BadModePrefix + mode + BadModeSuffix
  }

  const NoRecipients: string := "At least one recipient required."

  /** Steps 1 and 2, before the recipients. */
  function CronCheck(config: ConfigInput, cron: string): Option<string>
  {
    if config.ConfigInvalidJson? then Some(InvalidConfigJson)
    else if config.format.None? then Some(MissingFormat)
    else if |SplitWhitespace(Strip(cron))| != 5 then Some(BadCron(cron))
    else if !ValidMinute(SplitWhitespace(Strip(cron))[0]) then Some(BadMinute(SplitWhitespace(Strip(cron))[0]))
    else None
  }

  lemma CronCheckPasses(config: ConfigInput, cron: string)
    ensures CronCheck(config, cron).None? <==>
      config.Config? && config.format.Some? && |SplitWhitespace(cron)| == 5 && ValidMinute(SplitWhitespace(cron)[0])
  {
    SplitWhitespaceStrip(cron);
  }

  /** Step 3. */
  function RecipientsStage(recipients: string): Outcome<seq<Recipient>>
  {
    var list := RecipientList(recipients);
    if list == [] then Error(NoRecipients) else MapAll(list, Classify)
  }

  /** Steps 5 to 9; `report_format.upper()` in the summary fails when the format is not text. */
  function Describe(config: ConfigInput, cron: string, recipients: seq<Recipient>, mode: string): Outcome<ScheduleConfig>
    requires config.Config? && config.format.Some?
  {
    var parts := SplitWhitespace(cron);
    if |parts| != 5 then Error(UnpackFailure)
    else if !config.format.value.VStr? then Error(UpperFailure)
    else
      var c := CronOf(parts);
      Ok(ScheduleConfig(Interpret(c, cron), NextRunOf(c), config.format.value.s,
        config.aggregationLevel.GetOr(VStr("service")), config.providers.GetOr(VList([VStr("all")])),
        mode, cron, 3, 15, |recipients|, recipients, DeliveryMethods(recipients)))
  }

  /** Step 4, then the description. */
  function ModeStage(config: ConfigInput, cron: string, recipients: seq<Recipient>, mode: string): Outcome<ScheduleConfig>
    requires config.Config? && config.format.Some?
  {
    if mode !in TimeModes then Error(BadMode(mode)) else Describe(config, cron, recipients, mode)
  }

  /** The tool's `run`. */
  function CreateSchedule(config: ConfigInput, cron: string, recipients: string, mode: string): Outcome<ScheduleConfig>
  {
    match CronCheck(config, cron)
    case Some(msg) => Error(msg)
    case None =>
      match RecipientsStage(recipients)
      case Error(m) => Error(m)
      case Warning(m) => Warning(m)
      case Ok(validated) => ModeStage(config, cron, validated, mode)
  }

  /** The tool's `run`, with the recipient loop. */
  method Run(config: ConfigInput, cron: string, recipients: string, mode: string) returns (r: Outcome<ScheduleConfig>)
    ensures r == CreateSchedule(config, cron, recipients, mode)
  {
    var problem := CronCheck(config, cron);
    if problem.Some? {
      return Error(problem.value);
    }
    var list := RecipientList(recipients);
    if list == [] {
      return Error(NoRecipients);
    }
    var validated := ValidateRecipients(list);
    assert validated == RecipientsStage(recipients);
    match validated {
      case Error(m) => return Error(m);
      case Warning(m) => return Warning(m);
      case Ok(rs) =>
        if mode !in TimeModes {
          return Error(BadMode(mode));
        }
        r := Describe(config, cron, rs, mode);
    }
  }

  /** The recipient stage succeeds exactly when every piece is recognised, and warns only for an unrecognised one. */
  lemma RecipientsStageFacts(recipients: string)
    ensures var list := RecipientList(recipients);
      && (RecipientsStage(recipients).Ok? <==> forall k :: 0 <= k < |list| ==> Classify(list[k]).Ok?)
      && (RecipientsStage(recipients).Warning? ==> exists k :: 0 <= k < |list| && Classify(list[k]).Warning?)
      && (RecipientsStage(recipients).Ok? ==> |RecipientsStage(recipients).value| == |list|)
      && !RecipientsStage(recipients).Error?
  {
    var list := RecipientList(recipients);
    RecipientListNonEmpty(recipients);
    MapAllFacts(list, Classify);
    if MapAll(list, Classify).Warning? {
      MapAllWarning(list, Classify);
    }
    if MapAll(list, Classify).Error? {
      ClassifyNeverErrors(list);
    }
  }

  /**
   * A schedule is created exactly when the configuration has a text format,
   * the cron expression has five fields with a valid minute, every
   * recipient is recognised and the mode is known; a warning always comes
   * from an unrecognised recipient.
   */
  lemma ScheduleAnswers(config: ConfigInput, cron: string, recipients: string, mode: string)
    ensures CreateSchedule(config, cron, recipients, mode).Ok? <==>
      config.Config? && config.format.Some? && config.format.value.VStr?
      && |SplitWhitespace(cron)| == 5 && ValidMinute(SplitWhitespace(cron)[0])
      && (forall k :: 0 <= k < |RecipientList(recipients)| ==> Classify(RecipientList(recipients)[k]).Ok?)
      && mode in TimeModes
    ensures CreateSchedule(config, cron, recipients, mode).Warning? ==>
      exists k :: 0 <= k < |RecipientList(recipients)| && Classify(RecipientList(recipients)[k]).Warning?
  {
    CronCheckPasses(config, cron);
    RecipientsStageFacts(recipients);
  }

  /**
   * The recipient count is the number of recipients, one per
   * comma-separated piece, and the delivery methods are exactly their
   * types.
   */
  lemma ScheduleDelivery(config: ConfigInput, cron: string, recipients: string, mode: string)
    requires CreateSchedule(config, cron, recipients, mode).Ok?
    ensures var s := CreateSchedule(config, cron, recipients, mode).value;
      && s.recipientCount == |s.recipients| == |SplitOn(recipients, ",")|
      && (forall t :: t in s.deliveryMethods <==> exists k :: 0 <= k < |s.recipients| && TypeOf(s.recipients[k]) == t)
      && s.deliveryMethods != {}
  {
    RecipientsStageFacts(recipients);
    var rs := RecipientsStage(recipients).value;
    assert CreateSchedule(config, cron, recipients, mode) == Describe(config, cron, rs, mode);
    RecipientListNonEmpty(recipients);
    DeliveryFacts(rs);
  }

  lemma DeliveryFacts(rs: seq<Recipient>)
    requires rs != []
    ensures forall t :: t in DeliveryMethods(rs) <==> exists k :: 0 <= k < |rs| && TypeOf(rs[k]) == t
    ensures DeliveryMethods(rs) != {}
  {
    assert TypeOf(rs[0]) in DeliveryMethods(rs);
  }

  /** Classification never errors, so neither does the map. */
  lemma {:induction false} ClassifyNeverErrors(s: seq<string>)
    ensures !MapAll(s, Classify).Error?
  {
    if s != [] {
      ClassifyNeverErrors(s[..|s| - 1]);
    }
  }

  /** A warning from the map comes from some element. */
  lemma {:induction false} MapAllWarning(s: seq<string>, f: string -> Outcome<Recipient>)
    requires MapAll(s, f).Warning?
    ensures exists k :: 0 <= k < |s| && f(s[k]).Warning?
  {
    var init := s[..|s| - 1];
    if MapAll(init, f).Warning? {
      MapAllWarning(init, f);
      var k :| 0 <= k < |init| && f(init[k]).Warning?;
      assert s[k] == init[k];
    } else {
      assert f(s[|s| - 1]).Warning?;
    }
  }
}
