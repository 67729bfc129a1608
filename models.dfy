/** The records the core works on: instants and the days-remaining computation, domain
    and notification records, key/value settings and the configuration sections that the
    core reads. */
module Models {

  // ---------------------------------------------------------------------------
  // Time

  /** An instant, counted in nanoseconds from Go's zero time (January 1 of year 1, UTC).
      The zero value stands for "unset", as time.Time{} does. */
  datatype Time = Time(nanos: int)

  const ZeroTime := Time(0)

  predicate IsZero(t: Time) {
    t.nanos == 0
  }

  /** The range of time.Duration, an int64 count of nanoseconds. */
  const MinDuration: int := -0x8000_0000_0000_0000
  const MaxDuration: int := 0x7fff_ffff_ffff_ffff

  const NanosPerDay: int := 86_400_000_000_000

  /** time.Until(t) evaluated at `now`: t - now, saturated to the Duration range. */
  function Until(now: Time, t: Time): (d: int)
    ensures MinDuration <= d <= MaxDuration
    ensures MinDuration <= t.nanos - now.nanos <= MaxDuration ==> d == t.nanos - now.nanos
    ensures t.nanos - now.nanos > MaxDuration ==> d == MaxDuration
    ensures t.nanos - now.nanos < MinDuration ==> d == MinDuration
  {
    var d := t.nanos - now.nanos;
    if d > MaxDuration then MaxDuration else if d < MinDuration then MinDuration else d
  }

  /** Whole days in a duration, rounding toward zero as Go's int() of a float quotient does
      (Dafny's own `/` rounds toward negative infinity for a negative dividend). */
  function TruncDays(d: int): (days: int)
    ensures d >= 0 ==> 0 <= days && days * 86_400_000_000_000 <= d < days * 86_400_000_000_000 + 86_400_000_000_000
    ensures d < 0 ==> days <= 0 && days * 86_400_000_000_000 - 86_400_000_000_000 < d <= days * 86_400_000_000_000
  {
    if d >= 0 then d / 86_400_000_000_000 else -((-d) / 86_400_000_000_000)
  }

  /** int(time.Until(expiry).Hours() / 24) at `now`: whole days left, truncated toward zero;
      beyond the Duration range, the days in the saturated Duration. */
  function DaysUntil(now: Time, expiry: Time): (days: int)
    ensures days == 0 <==> -NanosPerDay < expiry.nanos - now.nanos < NanosPerDay
    ensures days > 0 ==> expiry.nanos - now.nanos >= days * NanosPerDay
    ensures days < 0 ==> expiry.nanos - now.nanos <= days * NanosPerDay
    ensures -106751 <= days <= 106751
    ensures MinDuration <= expiry.nanos - now.nanos <= MaxDuration ==>
      var d := expiry.nanos - now.nanos;
      (d >= 0 ==> days * NanosPerDay <= d < days * NanosPerDay + NanosPerDay) &&
      (d < 0 ==> days * NanosPerDay - NanosPerDay < d <= days * NanosPerDay)
    ensures expiry.nanos - now.nanos > MaxDuration ==> days == 106751
    ensures expiry.nanos - now.nanos < MinDuration ==> days == -106751
  {
    TruncDays(Until(now, expiry))
  }

  // ---------------------------------------------------------------------------
  // Persisted records

  /** One row of the domains table (models.Domain). */
  datatype DomainRow = DomainRow(
    id: nat,
    name: string,
    registrar: string,
    expiryDate: Time,
    createdDate: Time,
    updatedDate: Time,
    status: string,
    daysRemaining: int,
    tags: string,
    lastChecked: Time,
    isActive: bool,
    createdAt: Time,
    updatedAt: Time)

  /** A models.Domain value held by a caller and updated through a pointer. */
  class Domain {
    var id: nat
    var name: string
    var registrar: string
    var expiryDate: Time
    var createdDate: Time
    var updatedDate: Time
    var status: string
    var daysRemaining: int
    var tags: string
    var lastChecked: Time
    var isActive: bool
    var createdAt: Time
    var updatedAt: Time

    /** The record as it would be written to the table. */
    function Row(): DomainRow
      reads this
    {
      DomainRow(id, name, registrar, expiryDate, createdDate, updatedDate, status,
                daysRemaining, tags, lastChecked, isActive, createdAt, updatedAt)
    }

    /** A fresh struct holding a row fetched from the table. */
    constructor FromRow(row: DomainRow)
      ensures Row() == row
    {
      id, name, registrar := row.id, row.name, row.registrar;
      expiryDate, createdDate, updatedDate := row.expiryDate, row.createdDate, row.updatedDate;
      status, daysRemaining, tags := row.status, row.daysRemaining, row.tags;
      lastChecked, isActive := row.lastChecked, row.isActive;
      createdAt, updatedAt := row.createdAt, row.updatedAt;
    }
  }

  /** One row of the notifications audit table (models.Notification). */
  datatype Notification = Notification(
    domainId: nat,
    kind: string,
    content: string,
    status: string,
    sentAt: Time)

  /** One row of the settings table (models.Setting). */
  datatype Setting = Setting(key: string, value: string)

  // ---------------------------------------------------------------------------
  // Configuration (the sections of config.Config that the core reads)

  datatype MonitorConfig = MonitorConfig(checkInterval: string, alertDays: seq<int>)

  datatype EmailConfig = EmailConfig(
    enabled: bool,
    smtpHost: string,
    smtpPort: int,
    from: string,
    password: string,
    to: seq<string>)

  datatype WebhookConfig = WebhookConfig(enabled: bool, url: string)

  datatype TelegramConfig = TelegramConfig(enabled: bool, botToken: string, chatId: string)

  datatype DingDingConfig = DingDingConfig(enabled: bool, webhook: string, secret: string)

  datatype NotificationsConfig = NotificationsConfig(
    email: EmailConfig,
    webhook: WebhookConfig,
    telegram: TelegramConfig,
    dingding: DingDingConfig)

  datatype Config = Config(monitor: MonitorConfig, notifications: NotificationsConfig)
}
