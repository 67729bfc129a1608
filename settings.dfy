/** loadSettingsFromDB: the key/value rows of the settings table override the loaded
    configuration, one rule per key. The database is an input: either there is none, the
    query failed, or it returned the rows. */
module Settings {
  import opened Wrappers
  import opened Strings
  import opened Models

  datatype SettingsSource =
    | NoDatabase             // database.GetDB() returned nil
    | QueryFailed(reason: string)
    | Rows(settings: seq<Setting>)

  /** Every key the override rules read. */
  const OverrideKeys: set<string> := {
    "monitor.check_interval", "monitor.alert_days",
    "email.enabled", "email.smtp_host", "email.smtp_port", "email.from", "email.password", "email.to",
    "webhook.enabled", "webhook.url",
    "telegram.enabled", "telegram.bot_token", "telegram.chat_id",
    "dingding.enabled", "dingding.webhook", "dingding.secret"
  }

  // ---------------------------------------------------------------------------
  // The settings map

  /** The map built from the rows in order: a key maps to a value exactly when some row
      has that key. */
  function SettingsMap(settings: seq<Setting>): (m: map<string, string>)
    ensures forall k :: k in m <==> exists i :: 0 <= i < |settings| && settings[i].key == k
    decreases |settings|
  {
    if settings == [] then map[]
    else
      var init := settings[..|settings| - 1];
      var last := settings[|settings| - 1];
      var m := SettingsMap(init);
      assert forall i :: 0 <= i < |init| ==> init[i] == settings[i];
      m[last.key := last.value]
  }

  /** When a key occurs more than once, the last row with that key wins. */
  lemma {:induction false} SettingsMapLastWins(settings: seq<Setting>, i: nat)
    requires i < |settings|
    requires forall j :: i < j < |settings| ==> settings[j].key != settings[i].key
    ensures settings[i].key in SettingsMap(settings)
    ensures SettingsMap(settings)[settings[i].key] == settings[i].value
    decreases |settings|
  {
    if i < |settings| - 1 {
      var init := settings[..|settings| - 1];
      assert init[i] == settings[i];
      SettingsMapLastWins(init, i);
    }
  }

  /** The loop that fills settingsMap. */
  method BuildSettingsMap(settings: seq<Setting>) returns (m: map<string, string>)
    ensures m == SettingsMap(settings)
  {
    m := map[];
    for i := 0 to |settings|
      invariant m == SettingsMap(settings[..i])
    {
      assert settings[..i + 1][..i] == settings[..i];
      m := m[settings[i].key := settings[i].value];
    }
    assert settings[..|settings|] == settings;
  }

  // ---------------------------------------------------------------------------
  // monitor.alert_days

  /** One piece of the list, trimmed and read with Atoi. */
  function DayOf(piece: string): Option<int> {
    Atoi(TrimSpace(piece))
  }

  /** What each piece reads as, in piece order. */
  function Readings(pieces: seq<string>): seq<Option<int>> {
    seq(|pieces|, i requires 0 <= i < |pieces| => DayOf(pieces[i]))
  }

  /** The values that were read, in order; the pieces that did not parse are dropped. */
  function Kept(vals: seq<Option<int>>): seq<int>
    decreases |vals|
  {
    if vals == [] then []
    else
      var last := vals[|vals| - 1];
      Kept(vals[..|vals| - 1]) + (if last.Some? then [last.value] else [])
  }

  /** The alert days a comma-separated value yields. */
  function ParseDays(val: string): seq<int> {
    Kept(Readings(Split(val, ',')))
  }

  /** Kept works piece by piece: the order of the pieces is the order of the values. */
  lemma {:induction false} KeptAppend(a: seq<Option<int>>, b: seq<Option<int>>)
    ensures Kept(a + b) == Kept(a) + Kept(b)
    decreases |b|
  {
    if b == [] {
      assert a + b == a;
    } else {
      var bInit := b[..|b| - 1];
      KeptAppend(a, bInit);
      assert (a + b)[..|a + b| - 1] == a + bInit;
      assert (a + b)[|a + b| - 1] == b[|b| - 1];
    }
  }

  /** A value is kept exactly when some piece read as it; no piece gives more than one. */
  lemma {:induction false} KeptMembers(vals: seq<Option<int>>)
    ensures |Kept(vals)| <= |vals|
    ensures forall v :: v in Kept(vals) <==> Some(v) in vals
    decreases |vals|
  {
    if vals != [] {
      var init := vals[..|vals| - 1];
      KeptMembers(init);
      assert vals == init + [vals[|vals| - 1]];
    }
  }

  /** When every piece reads as a value, all of them are kept. */
  lemma {:induction false} KeptAllRead(vals: seq<Option<int>>, days: seq<int>)
    requires |vals| == |days|
    requires forall i :: 0 <= i < |vals| ==> vals[i] == Some(days[i])
    ensures Kept(vals) == days
    decreases |vals|
  {
    if vals != [] {
      KeptAllRead(vals[..|vals| - 1], days[..|days| - 1]);
      assert days == days[..|days| - 1] + [days[|days| - 1]];
    }
  }

  /** A list of days written as comma-separated decimals. */
  function DaysText(days: seq<int>): string {
    Join(seq(|days|, i requires 0 <= i < |days| => IntToString(days[i])), ',')
  }

  /** A list of int64 day counts written as comma-separated decimals reads back as the
      same list, in the same order. */
  lemma DaysTextRoundTrip(days: seq<int>)
    requires |days| > 0
    requires forall i :: 0 <= i < |days| ==> MinInt64 <= days[i] <= MaxInt64
    ensures ParseDays(DaysText(days)) == days
  {
    var pieces := seq(|days|, i requires 0 <= i < |days| => IntToString(days[i]));
    forall i | 0 <= i < |pieces| ensures ',' !in pieces[i] && DayOf(pieces[i]) == Some(days[i]) {
      AtoiOfIntToString(days[i]);
    }
    JoinSplit(pieces, ',');
    KeptAllRead(Readings(pieces), days);
  }

  /** The alert-days loop: split on commas, trim each piece, keep the pieces that parse. */
  method ParseAlertDays(val: string) returns (days: seq<int>)
    ensures days == ParseDays(val)
  {
    var pieces := Split(val, ',');
    ghost var rs := Readings(pieces);
    days := [];
    for i := 0 to |pieces|
      invariant days == Kept(rs[..i])
    {
      assert rs[..i + 1][..i] == rs[..i];
      var day := Atoi(TrimSpace(pieces[i]));
      assert day == rs[i];
      if day.Some? {
        days := days + [day.value];
      }
    }
    assert rs[..|pieces|] == rs;
  }

  // ---------------------------------------------------------------------------
  // loadSettingsFromDB

  /** The monitor overrides: check_interval needs a non-empty value; alert_days needs a
      non-empty value of which at least one piece is an integer. */
  predicate MonitorOverridden(c: MonitorConfig, m: map<string, string>, r: MonitorConfig) {
    r.checkInterval ==
      (if "monitor.check_interval" in m && m["monitor.check_interval"] != ""
       then m["monitor.check_interval"] else c.checkInterval) &&
    r.alertDays ==
      (if "monitor.alert_days" in m && m["monitor.alert_days"] != "" && |ParseDays(m["monitor.alert_days"])| > 0
       then ParseDays(m["monitor.alert_days"]) else c.alertDays)
  }

  /** The email overrides: the flag becomes `value == "true"`; the port needs a value Atoi
      accepts; the recipient list needs a non-empty value and is its comma-split; host,
      sender and password take whatever value is there, even "". */
  predicate EmailOverridden(c: EmailConfig, m: map<string, string>, r: EmailConfig) {
    r.enabled == (if "email.enabled" in m then m["email.enabled"] == "true" else c.enabled) &&
    r.smtpHost == (if "email.smtp_host" in m then m["email.smtp_host"] else c.smtpHost) &&
    r.smtpPort ==
      (if "email.smtp_port" in m && Atoi(m["email.smtp_port"]).Some?
       then Atoi(m["email.smtp_port"]).value else c.smtpPort) &&
    r.from == (if "email.from" in m then m["email.from"] else c.from) &&
    r.password == (if "email.password" in m then m["email.password"] else c.password) &&
    r.to == (if "email.to" in m && m["email.to"] != "" then Split(m["email.to"], ',') else c.to)
  }

  predicate WebhookOverridden(c: WebhookConfig, m: map<string, string>, r: WebhookConfig) {
    r.enabled == (if "webhook.enabled" in m then m["webhook.enabled"] == "true" else c.enabled) &&
    r.url == (if "webhook.url" in m then m["webhook.url"] else c.url)
  }

  predicate TelegramOverridden(c: TelegramConfig, m: map<string, string>, r: TelegramConfig) {
    r.enabled == (if "telegram.enabled" in m then m["telegram.enabled"] == "true" else c.enabled) &&
    r.botToken == (if "telegram.bot_token" in m then m["telegram.bot_token"] else c.botToken) &&
    r.chatId == (if "telegram.chat_id" in m then m["telegram.chat_id"] else c.chatId)
  }

  predicate DingDingOverridden(c: DingDingConfig, m: map<string, string>, r: DingDingConfig) {
    r.enabled == (if "dingding.enabled" in m then m["dingding.enabled"] == "true" else c.enabled) &&
    r.webhook == (if "dingding.webhook" in m then m["dingding.webhook"] else c.webhook) &&
    r.secret == (if "dingding.secret" in m then m["dingding.secret"] else c.secret)
  }

  /** The whole override of a configuration by a settings map. */
  predicate Overridden(c: Config, m: map<string, string>, r: Config) {
    MonitorOverridden(c.monitor, m, r.monitor) &&
    EmailOverridden(c.notifications.email, m, r.notifications.email) &&
    WebhookOverridden(c.notifications.webhook, m, r.notifications.webhook) &&
    TelegramOverridden(c.notifications.telegram, m, r.notifications.telegram) &&
    DingDingOverridden(c.notifications.dingding, m, r.notifications.dingding)
  }

  /** A map that holds none of the keys the rules read leaves the configuration as it
      was. */
  lemma OverriddenWithoutKeys(c: Config, m: map<string, string>, r: Config)
    requires Overridden(c, m, r)
    requires forall k :: k in m ==> k !in OverrideKeys
    ensures r == c
  {
  }

  /** Loading the same settings twice gives what loading them once gave. */
  lemma OverriddenIdempotent(c: Config, m: map<string, string>, r: Config, r2: Config)
    requires Overridden(c, m, r) && Overridden(r, m, r2)
    ensures r2 == r
  {
  }

  method OverrideMonitor(c: MonitorConfig, m: map<string, string>) returns (r: MonitorConfig)
    ensures MonitorOverridden(c, m, r)
  {
    r := c;
    if "monitor.check_interval" in m && m["monitor.check_interval"] != "" {
      r := r.(checkInterval := m["monitor.check_interval"]);
    }
    if "monitor.alert_days" in m && m["monitor.alert_days"] != "" {
      var days := ParseAlertDays(m["monitor.alert_days"]);
      if |days| > 0 {
        r := r.(alertDays := days);
      }
    }
  }

  method OverrideEmail(c: EmailConfig, m: map<string, string>) returns (r: EmailConfig)
    ensures EmailOverridden(c, m, r)
  {
    r := c;
    if "email.enabled" in m {
      r := r.(enabled := m["email.enabled"] == "true");
    }
    if "email.smtp_host" in m {
      r := r.(smtpHost := m["email.smtp_host"]);
    }
    if "email.smtp_port" in m {
      var port := Atoi(m["email.smtp_port"]);
      if port.Some? {
        r := r.(smtpPort := port.value);
      }
    }
    if "email.from" in m {
      r := r.(from := m["email.from"]);
    }
    if "email.password" in m {
      r := r.(password := m["email.password"]);
    }
    if "email.to" in m && m["email.to"] != "" {
      r := r.(to := Split(m["email.to"], ','));
    }
  }

  method OverrideWebhook(c: WebhookConfig, m: map<string, string>) returns (r: WebhookConfig)
    ensures WebhookOverridden(c, m, r)
  {
    r := c;
    if "webhook.enabled" in m {
      r := r.(enabled := m["webhook.enabled"] == "true");
    }
    if "webhook.url" in m {
      r := r.(url := m["webhook.url"]);
    }
  }

  method OverrideTelegram(c: TelegramConfig, m: map<string, string>) returns (r: TelegramConfig)
    ensures TelegramOverridden(c, m, r)
  {
    r := c;
    if "telegram.enabled" in m {
      r := r.(enabled := m["telegram.enabled"] == "true");
    }
    if "telegram.bot_token" in m {
      r := r.(botToken := m["telegram.bot_token"]);
    }
    if "telegram.chat_id" in m {
      r := r.(chatId := m["telegram.chat_id"]);
    }
  }

  method OverrideDingDing(c: DingDingConfig, m: map<string, string>) returns (r: DingDingConfig)
    ensures DingDingOverridden(c, m, r)
  {
    r := c;
    if "dingding.enabled" in m {
      r := r.(enabled := m["dingding.enabled"] == "true");
    }
    if "dingding.webhook" in m {
      r := r.(webhook := m["dingding.webhook"]);
    }
    if "dingding.secret" in m {
      r := r.(secret := m["dingding.secret"]);
    }
  }

  /** loadSettingsFromDB: without a database or when the query fails, the configuration
      stays as it came in; otherwise the rows, last one per key winning, override it by
      the rules above, section by section in the source's order. */
  method LoadSettingsFromDB(cfg: Config, source: SettingsSource) returns (r: Config)
    ensures !source.Rows? ==> r == cfg
    ensures source.Rows? ==> Overridden(cfg, SettingsMap(source.settings), r)
    ensures source.Rows? && (forall s :: s in source.settings ==> s.key !in OverrideKeys) ==> r == cfg
  {
    r := cfg;
    if !source.Rows? {
      return;
    }
    var m := BuildSettingsMap(source.settings);
    var monitor := OverrideMonitor(r.monitor, m);
    var email := OverrideEmail(r.notifications.email, m);
    var webhook := OverrideWebhook(r.notifications.webhook, m);
    var telegram := OverrideTelegram(r.notifications.telegram, m);
    var dingding := OverrideDingDing(r.notifications.dingding, m);
    r := Config(monitor, NotificationsConfig(email, webhook, telegram, dingding));
    if forall s :: s in source.settings ==> s.key !in OverrideKeys {
      OverriddenWithoutKeys(cfg, m, r);
    }
  }
}
