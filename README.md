# domain-monitor core, modelled in Dafny

domain-monitor watches a list of domain names and warns before they expire. A
scheduled pass looks up each active domain through a WHOIS HTTP API. It copies the
registrar, the dates and the status into the domain record and recomputes the number
of days left. When that number equals one of the configured alert thresholds, it
notifies every enabled channel: email, a generic webhook, Telegram and a DingTalk
robot. Each delivery attempt leaves one row in a notifications audit table. At
start-up, key/value rows of a settings table override the YAML configuration.

The model has eight modules, one file each:

- `Wrappers` (`wrappers.dfy`): `Option` and `Result`.
- `Strings` (`strings.dfy`): the parts of Go's `strings` and `strconv` that the core uses: `Contains`, `Split`, `TrimSpace`, `Atoi` and `%d` formatting.
- `Models` (`models.dfy`): instants, `time.Until`, the days-remaining computation, the domain record as a row value and as a mutable `Domain` object, notification and setting rows, and the configuration sections the core reads.
- `Storage` (`storage.dfy`): the database as a `Store` object. It holds the domains table, the append-only notifications table and a ghost log of dispatches, one entry per `SendNotification` call.
- `Whois` (`whois.dfy`): interpretation of the WHOIS API's `{code, msg, data}` answer, its tolerant field extraction, and `parseDate` with its ordered fallback layouts.
- `Notify` (`notify.dfy`): the four senders' outcome rules, the DingTalk string-to-sign and signed URL, and the `NotifyService` object, whose constructor builds the channel list and whose `SendNotification` loops over it.
- `Monitor` (`monitor.dfy`): the `MonitorService` object with `CheckDomain`, `CheckAndNotify`, `TriggerNotification` and `CheckAllDomains`, each specified against pure functions of the records. Properties of a whole pass are proved as lemmas about those functions.
- `Settings` (`settings.dfy`): `loadSettingsFromDB`, which builds the settings map (the last row per key wins), parses the alert-day list, and applies one override rule per key.

Everything outside the process is an input: the clock, the WHOIS exchange for each name, time layout parsing, database faults, SMTP, HTTP POST, URL parsing and HMAC-SHA256 with base64. `Monitor.Env` and `Notify.Network` carry these inputs.

The days-remaining value is `int(time.Until(expiry).Hours() / 24)` (`internal/services/monitor.go:66`). It rounds toward zero, so a domain that expired less than a day ago shows 0 days. `Models.DaysUntil` states this.

## Model

| member | source | states |
|---|---|---|
| `Models.Until` | internal/services/monitor.go:66 | time.Until is the distance from now to the instant when that fits an int64 Duration, and saturates at either end otherwise |
| `Models.DaysUntil` | internal/services/monitor.go:66 | the exact whole-day count of the distance to the expiry, rounded toward zero: for a distance d within the Duration range, days·24h <= d < (days+1)·24h when d >= 0 and (days-1)·24h < d <= days·24h when d < 0; beyond that range the saturated Duration gives 106751 or -106751; zero exactly when the expiry is less than a day away in either direction |
| `Models.Domain.FromRow` | internal/services/monitor.go:38-39 | the struct handed to CheckDomain holds exactly the fetched row |
| `Storage.Active` | internal/services/monitor.go:32 | the fetched rows are exactly the active rows of the table |
| `Storage.Upsert` | internal/services/monitor.go:71 | Save leaves the saved row in the table, keeps every row with another id, adds nothing else, and grows the table only when the id was new |
| `Storage.Store.FindActiveDomains` | internal/services/monitor.go:32-34 | a query error is returned as is; otherwise the active rows |
| `Storage.Store.Save` | internal/services/monitor.go:71-73 | a failed save reports the error and changes nothing; otherwise the table is upserted and the audit table is untouched |
| `Storage.Store.CreateNotification` | internal/services/notify.go:102 | the audit table gains exactly this record at its end |
| `Whois.FirstLayout` | internal/services/whois.go:150-154 | every layout before the chosen one fails and the chosen one, if any, succeeds |
| `Whois.ParseDate` | internal/services/whois.go:142-157 | parseDate errors exactly when all four layouts fail, with "unable to parse date: " and the input |
| `Whois.ParseDateFirstSuccessWins` | internal/services/whois.go:143-154 | the layouts are tried in the order RFC3339, `2006-01-02T15:04:05Z`, `2006-01-02 15:04:05`, `2006-01-02`; the first that parses gives the instant whatever the later ones say |
| `Whois.StringItemsMembers` | internal/services/whois.go:125-131 | the name servers are exactly the string elements of the list, and there are never more of them than elements |
| `Whois.CollectNameServers` | internal/services/whois.go:125-131 | the append loop yields the string elements in list order, skipping the rest |
| `Whois.ExtractDate` | internal/services/whois.go:106-110 | a date field is set only when the key holds a string that parseDate accepts, and stays zero otherwise |
| `Whois.Extract` | internal/services/whois.go:86-136 | the info carries the queried name, a string registrar or "", the text of the first status object or "", the three dates, the string name servers and the payload |
| `Whois.QueryDomain` | internal/services/whois.go:38-139 | a bad API URL, a failed GET, a non-200 status, an undecodable body, code != 0 (carrying msg) and absent data are each a distinct error; success happens exactly when none of them occur, and a missing or bad date never causes a failure |
| `Notify.Tier` | internal/services/notify.go:120-127 | critical exactly when days <= 7, warning exactly when 7 < days <= 30, normal exactly when days > 30 |
| `Notify.SendEmail` | internal/services/notify.go:164-177 | the email counts as delivered exactly when SendMail reports no error or an error whose text contains "short response"; any other error is reported |
| `Notify.SendWebhook` | internal/services/notify.go:205-215 | the webhook delivered exactly when the POST was answered with status 200; another status is reported with its code |
| `Notify.SendTelegram` | internal/services/notify.go:264-274 | Telegram delivered exactly when the POST was answered with status 200; another status is reported with its code |
| `Notify.StringToSignInjective` | internal/services/notify.go:370-371 | the string-to-sign `timestamp + "\n" + secret` determines both the timestamp and the secret |
| `Notify.DingDingEndpoint` | internal/services/notify.go:328-345 | timestamp and sign are added exactly when a secret is set, the sign being the MAC of `timestamp + "\n" + secret` under the secret; an unparsable URL is rejected only in that case |
| `Notify.DingDingVerdict` | internal/services/notify.go:354-366 | DingTalk delivered exactly when the status is 200 and the body is not a decodable object with a non-zero numeric errcode; an undecodable body counts as delivered |
| `Notify.SendDingDing` | internal/services/notify.go:288-367 | DingTalk delivered exactly when the URL is usable (always when no secret is set), the POST of the markdown body to the signed URL is answered with status 200 and the body carries no non-zero errcode; a rejected URL is reported as such, and another status with its code |
| `Notify.EnabledNotifiers` | internal/services/notify.go:41-56 | the list holds each channel exactly when it is enabled, nothing else, in the order email, webhook, telegram, dingding |
| `Notify.Trail` | internal/services/notify.go:66-80 | one record per notifier in list order, each with the domain's id, the notifier's type, content with the record's own days remaining, status "failed" exactly when that send failed, and the send time |
| `Notify.LastErrorIsLastFailure` | internal/services/notify.go:68-73 | there is a last error exactly when some notifier failed, and it is the last notifier's error when that one failed |
| `Notify.SuccessesCount` | internal/services/notify.go:76-78 | the success count is positive exactly when some notifier delivered, and never exceeds the number of notifiers |
| `Notify.VerdictSpec` | internal/services/notify.go:82-87 | SendNotification reports success exactly when the list is empty or some notifier delivered; when every one failed it reports the last error |
| `Notify.NotifyService.constructor` | internal/services/notify.go:36-59 | the service's notifiers are the enabled channels in declaration order |
| `Notify.NotifyService.RecordNotification` | internal/services/notify.go:91-103 | exactly one audit record is appended and the domains table is untouched |
| `Notify.NotifyService.SendNotification` | internal/services/notify.go:62-88 | every notifier is tried once in order whatever the earlier ones did, the audit table gains exactly their records, one dispatch is logged, domains are untouched, and the result is the aggregate verdict |
| `Monitor.FirstMatch` | internal/services/monitor.go:91-92 | the position found holds the day count and no earlier threshold does; none is found exactly when the day count is no threshold |
| `Monitor.Alert` | internal/services/monitor.go:84-100 | CheckAndNotify changes nothing, or adds exactly one dispatch with the record's day count; the latter exactly when there is a notify service and the day count is a threshold; the domains table is never touched |
| `Monitor.CheckOne` | internal/services/monitor.go:49-81 | a check fails exactly when the lookup or the save fails, with the matching error, and then changes nothing; otherwise the refreshed record is saved and the alert rule applied to it, so a dispatch failure is never an error |
| `Monitor.CheckRowsAppends` | internal/services/monitor.go:38-43 | a pass only appends to the audit table and the dispatch log, adds at most as many dispatches as there are records, and every added dispatch names a checked domain and carries a threshold |
| `Monitor.CheckRowsOnePerName` | internal/services/monitor.go:38-43 | with distinct names, no two dispatches added by a pass are for the same domain, so each domain is notified at most once per pass |
| `Monitor.CheckRowsPersists` | internal/services/monitor.go:38-43 | with distinct ids, a record whose lookup and save succeed is in the table in its refreshed form after the whole pass, whatever the other records did |
| `Monitor.ApplyLookup` | internal/services/monitor.go:57-67 | registrar, dates and status take the looked-up values and the check time is stamped; the day count is recomputed only for a known expiry and otherwise kept; id, name, tags, active flag and timestamps are untouched |
| `Monitor.MonitorService.constructor` | internal/services/monitor.go:19-25 | the service holds the given notify service and thresholds |
| `Monitor.MonitorService.CheckAndNotify` | internal/services/monitor.go:84-100 | the threshold loop with its early break has exactly the effect of the alert rule: no notify service or no equal threshold means no change, otherwise one dispatch with the first equal threshold |
| `Monitor.MonitorService.CheckDomain` | internal/services/monitor.go:49-81 | a failed lookup leaves the struct as it was; a successful one refreshes it; the database and the error are those of the single-record check |
| `Monitor.MonitorService.TriggerNotification` | internal/services/monitor.go:103-112 | the call fails without a notify service and then changes nothing; otherwise it makes one dispatch with the record's own days remaining, whatever the thresholds, and returns that dispatch's verdict |
| `Monitor.MonitorService.CheckAllDomains` | internal/services/monitor.go:28-46 | a failed fetch is reported and changes nothing; otherwise every active record is checked once, in order, the errors of single records are dropped, and the pass reports success |
| `Strings.ContainsIffOccurs` | internal/services/notify.go:169 | strings.Contains is true exactly when the text occurs at some position |
| `Strings.SplitJoin` | cmd/server/main.go:73 | splitting on commas loses nothing, and no piece holds a comma |
| `Strings.JoinSplit` | cmd/server/main.go:44 | pieces without a comma, joined with commas, split back into the same pieces |
| `Strings.TrimSpace` | cmd/server/main.go:45 | the trimmed piece is a slice of the input with only white space cut off before and after it, and neither of its ends is a space; a piece with no space at either end is kept as it is |
| `Strings.Atoi` | cmd/server/main.go:62 | an accepted value is within the int64 range, and the text has no space at either end |
| `Strings.AtoiOfIntToString` | cmd/server/main.go:45 | Atoi reads back every int64 written in decimal |
| `Settings.SettingsMap` | cmd/server/main.go:31-35 | the map holds a key exactly when some row has that key |
| `Settings.SettingsMapLastWins` | cmd/server/main.go:33-35 | a key's value comes from its last row |
| `Settings.BuildSettingsMap` | cmd/server/main.go:32-35 | the map-filling loop builds that map |
| `Settings.KeptAppend` | cmd/server/main.go:44-48 | the parsed days keep the order of the pieces |
| `Settings.KeptMembers` | cmd/server/main.go:44-48 | a day is kept exactly when some piece parsed to it, and there are never more days than pieces |
| `Settings.DaysTextRoundTrip` | cmd/server/main.go:41-52 | a non-empty list of int64 days written as comma-separated decimals reads back as the same list |
| `Settings.ParseAlertDays` | cmd/server/main.go:43-48 | the split, trim and append loop yields the parsed days |
| `Settings.OverriddenWithoutKeys` | cmd/server/main.go:37-104 | a settings map without any of the keys the rules read leaves the configuration unchanged |
| `Settings.OverriddenIdempotent` | cmd/server/main.go:37-104 | applying the same settings twice gives what applying them once gave |
| `Settings.OverrideMonitor` | cmd/server/main.go:37-52 | check_interval overrides only when non-empty; alert_days only when non-empty and at least one piece parses |
| `Settings.OverrideEmail` | cmd/server/main.go:54-74 | the flag becomes `value == "true"`, the port needs a value Atoi accepts, the recipients need a non-empty value and become its comma-split, and the other keys override even with "" |
| `Settings.OverrideWebhook` | cmd/server/main.go:76-82 | the flag becomes `value == "true"` and the URL takes any value present |
| `Settings.OverrideTelegram` | cmd/server/main.go:84-93 | the flag becomes `value == "true"`, and the token and chat id take any value present |
| `Settings.OverrideDingDing` | cmd/server/main.go:95-104 | the flag becomes `value == "true"`, and the webhook and secret take any value present, even "" |
| `Settings.LoadSettingsFromDB` | cmd/server/main.go:19-107 | without a database or when the query fails the configuration is unchanged; otherwise every section is overridden by its rules from the last-row-wins map, and rows without known keys change nothing |

The definitions below have no contract of their own. They are the specifications that the rows above state properties about:

- `Monitor.Lookup`, `Monitor.Refresh` and `Monitor.Dispatched` (internal/services/monitor.go:51-67, 94) are covered by `Monitor.CheckOne`, `Monitor.Alert` and `Monitor.ApplyLookup`.
- `Monitor.CheckRows` (internal/services/monitor.go:38-43) is covered by `Monitor.CheckRowsAppends`, `Monitor.CheckRowsOnePerName`, `Monitor.CheckRowsPersists` and `Monitor.MonitorService.CheckAllDomains`.
- `Whois.Interpret` (internal/services/whois.go:38-139) is covered by `Whois.QueryDomain`, whose result it is.
- `Whois.Facts`, `Whois.Registrar`, `Whois.StatusText`, `Whois.DateField`, `Whois.NameServers` and `Whois.StringItems` (internal/services/whois.go:86-136) are covered by `Whois.Extract`, `Whois.ExtractDate`, `Whois.StringItemsMembers` and `Whois.CollectNameServers`.
- `Notify.Send` (internal/services/notify.go:68) is covered by the four sender rows.
- `Notify.LastError`, `Notify.Successes` and `Notify.Verdict` (internal/services/notify.go:63-87) are covered by `Notify.LastErrorIsLastFailure`, `Notify.SuccessesCount` and `Notify.VerdictSpec`.
- `Notify.Record`, `Notify.Content`, `Notify.StatusOf` and `Notify.TypeName` (internal/services/notify.go:67, 91-103) are covered by `Notify.Trail`.
- `Notify.StringToSign` and `Notify.GenerateSign` (internal/services/notify.go:370-375) are covered by `Notify.StringToSignInjective` and `Notify.DingDingEndpoint`.
- `Notify.MailFor`, `Notify.WebhookPost`, `Notify.TelegramPost` and `Notify.DingDingBody` build the outgoing message from the record. They are covered by the sender rows; their text is left out, as listed below.
- `Settings.DayOf`, `Settings.Readings`, `Settings.Kept` and `Settings.ParseDays` (cmd/server/main.go:43-48) are covered by `Settings.KeptAppend`, `Settings.KeptMembers`, `Settings.DaysTextRoundTrip` and `Settings.ParseAlertDays`.
- `Settings.Overridden` and the per-section predicates `Settings.MonitorOverridden`, `Settings.EmailOverridden`, `Settings.WebhookOverridden`, `Settings.TelegramOverridden` and `Settings.DingDingOverridden` (cmd/server/main.go:37-104) are covered by the five `Settings.Override*` rows, `Settings.OverriddenWithoutKeys`, `Settings.OverriddenIdempotent` and `Settings.LoadSettingsFromDB`.
- `Strings.Contains`, `Strings.Split`, `Strings.Join` and `Strings.IntToString` are covered by `Strings.ContainsIffOccurs`, `Strings.SplitJoin`, `Strings.JoinSplit` and `Strings.AtoiOfIntToString`.

## Left out

- Models.DaysUntil: the source divides a float64 hour count; the model divides exact nanoseconds, truncating toward zero. Float rounding for durations within a microsecond of a whole day is not modelled.
- HTTP, SMTP and the SOCKS5 proxy of the Telegram sender, together with client timeouts, are inputs (`Network.post`, `Network.sendMail`, `Env.whois`). A transport error is one outcome among others.
- JSON encoding and decoding, `url.Parse`, URL query encoding and time layout parsing are inputs. The WHOIS envelope arrives already decoded as a `Json` value. Each layout is an abstract partial parser (`Whois.Parser`); only the order in which layouts are tried is modelled.
- `RawData` in the WHOIS result is kept as the decoded payload rather than its JSON text.
- HMAC-SHA256 and base64 are one input function (`Network.hmacSha256Base64`). Only the string-to-sign is modelled.
- The text of the email, Telegram and DingTalk messages is left out. The emoji, markdown and Chinese wording are replaced by the facts each message carries and its urgency tier.
- Logging (`log.Printf`, `fmt.Printf`) is left out.
- The audit insert (`db.Create`) always succeeds. The source ignores its error.
- GORM's automatic `UpdatedAt` stamp and id assignment on Save are not modelled. Save is an upsert by primary key.
- The clock is read once per call. All records of one pass share `Env.now`, and all audit records of one dispatch share one send time. The source reads `time.Now()` again at each use.
- The WHOIS answer is a function of the name, so two records with the same name in one pass see the same answer.
- Monitor.CheckRowsPersists: stated only for passes whose records have distinct ids. Ids are the table's primary key, so every fetched set has this property.
- Monitor.CheckRowsOnePerName: stated only for passes whose records have distinct names. The name column has a unique index, so every fetched set has this property.
- Monitor.MonitorService.CheckAllDomains: a nil database handle (`database.GetDB()`) is not modelled, because the services assume an initialised database.
- `NotifyService` copies each configuration section when it is built. The source keeps pointers into the configuration, so a later change to it would reach the notifiers.
- Settings.LoadSettingsFromDB: the `*config.Config` that the source updates in place is passed in and returned as a value. Nothing else holds it during the call.
- The settings rows arrive in the order the query returns them. The source's query has no ORDER BY.
- The configuration sections that `loadSettingsFromDB` does not touch (server, database, WHOIS, auth) are not part of `Models.Config`. Loading the YAML file is outside the core.
