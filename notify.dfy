/** The notification dispatcher (NotifyService) and its four channel senders. Every
    transport call (SMTP, HTTP POST), the clock reading used for signing, URL parsing
    and HMAC-SHA256 with base64 are inputs, gathered in a Network value. */
module Notify {
  import opened Wrappers
  import opened Models
  import opened Strings
  import opened Storage
  import opened Whois

  // ---------------------------------------------------------------------------
  // Channels and the requests they make

  /** The four Notifier implementations, each with its configuration section. */
  datatype Notifier =
    | EmailNotifier(email: EmailConfig)
    | WebhookNotifier(webhook: WebhookConfig)
    | TelegramNotifier(telegram: TelegramConfig)
    | DingDingNotifier(dingding: DingDingConfig)

  /** fmt's %T of the notifier, which the audit record stores as its type. */
  function TypeName(n: Notifier): string {
    match n
    case EmailNotifier(_) => "*services.EmailNotifier"
    case WebhookNotifier(_) => "*services.WebhookNotifier"
    case TelegramNotifier(_) => "*services.TelegramNotifier"
    case DingDingNotifier(_) => "*services.DingDingNotifier"
  }

  /** Declaration order of the channels in the configuration. */
  function Rank(n: Notifier): nat {
    match n
    case EmailNotifier(_) => 0
    case WebhookNotifier(_) => 1
    case TelegramNotifier(_) => 2
    case DingDingNotifier(_) => 3
  }

  /** Urgency shown in the email and DingTalk messages. */
  datatype Urgency = Critical | Warning | Normal

  /** The tier chosen by the if-chains of the email and DingTalk senders (the same cut points). */
  function Tier(days: int): (u: Urgency)
    ensures u == Critical <==> days <= 7
    ensures u == Warning <==> 7 < days <= 30
    ensures u == Normal <==> 30 < days
  {
    if days <= 7 then Critical else if days <= 30 then Warning else Normal
  }

  /** What smtp.SendMail is asked to deliver (rendering of the text is left out). */
  datatype Mail = Mail(
    host: string,
    port: int,
    from: string,
    password: string,
    to: seq<string>,
    domain: string,
    days: int,
    tier: Urgency,
    expiry: Time,
    registrar: string,
    status: string)

  /** A POST target: the URL and the query parameters added to it. */
  datatype Endpoint = Endpoint(url: string, query: seq<(string, string)>)

  /** The facts each HTTP channel puts in its JSON body. */
  datatype Body =
    | WebhookPayload(domain: string, days: int, expiry: Time, registrar: string, status: string)
    | TelegramMessage(chatId: string, domain: string, days: int, expiry: Time, registrar: string)
    | DingDingMarkdown(tier: Urgency, domain: string, days: int, expiry: Time, registrar: string, status: string)

  datatype Post = Post(endpoint: Endpoint, body: Body)

  /** What an http.Post came back with; `body` is None when it does not decode as a JSON object. */
  datatype HttpResult =
    | Unreachable(reason: string)
    | Response(status: int, body: Option<map<string, Json>>)

  /** The outside world as the senders see it during one dispatch. */
  datatype Network = Network(
    sendMail: Mail -> Option<string>,              // the error SendMail returns, if any
    post: Post -> HttpResult,
    urlParses: string -> bool,                     // url.Parse succeeds
    clockMillis: string,                           // strconv.FormatInt(time.Now().UnixMilli(), 10)
    hmacSha256Base64: (string, string) -> string)  // (key, message) to base64 of the MAC

  datatype SendError =
    | MailFailed(reason: string)
    | TransportFailed(reason: string)
    | WebhookStatus(status: int)
    | TelegramStatus(status: int)
    | DingDingStatus(status: int)
    | DingDingApiError(errmsg: Option<Json>)
    | InvalidWebhookUrl(url: string)

  // ---------------------------------------------------------------------------
  // Email

  const ShortResponse := "short response"

  function MailFor(cfg: EmailConfig, d: DomainRow, days: int): Mail {
    Mail(cfg.smtpHost, cfg.smtpPort, cfg.from, cfg.password, cfg.to,
         d.name, days, Tier(days), d.expiryDate, d.registrar, d.status)
  }

  /** EmailNotifier.Send: a SendMail error whose text contains "short response" anywhere
      counts as delivered; any other error is reported. */
  function SendEmail(cfg: EmailConfig, d: DomainRow, days: int, net: Network): (r: Option<SendError>)
    ensures var e := net.sendMail(MailFor(cfg, d, days));
      (r.None? <==> e.None? || exists i :: OccursAt(e.value, ShortResponse, i)) &&
      (r.Some? ==> r == Some(MailFailed(e.value)))
  {
    match net.sendMail(MailFor(cfg, d, days))
    case None => None
    case Some(msg) =>
      ContainsIffOccurs(msg, ShortResponse);
      if Contains(msg, ShortResponse) then None else Some(MailFailed(msg))
  }

  // ---------------------------------------------------------------------------
  // Webhook and Telegram

  function WebhookPost(cfg: WebhookConfig, d: DomainRow, days: int): Post {
    Post(Endpoint(cfg.url, []), WebhookPayload(d.name, days, d.expiryDate, d.registrar, d.status))
  }

  function TelegramPost(cfg: TelegramConfig, d: DomainRow, days: int): Post {
    Post(Endpoint("https://api.telegram.org/bot" + cfg.botToken + "/sendMessage", []),
         TelegramMessage(cfg.chatId, d.name, days, d.expiryDate, d.registrar))
  }

  /** WebhookNotifier.Send: delivered exactly when the POST is answered with status 200. */
  function SendWebhook(cfg: WebhookConfig, d: DomainRow, days: int, net: Network): (r: Option<SendError>)
    ensures var res := net.post(WebhookPost(cfg, d, days));
      (r.None? <==> res.Response? && res.status == 200) &&
      (res.Response? && res.status != 200 ==> r == Some(WebhookStatus(res.status)))
  {
    match net.post(WebhookPost(cfg, d, days))
    case Unreachable(reason) => Some(TransportFailed(reason))
    case Response(status, _) => if status != 200 then Some(WebhookStatus(status)) else None
  }

  /** TelegramNotifier.Send: delivered exactly when the POST is answered with status 200. */
  function SendTelegram(cfg: TelegramConfig, d: DomainRow, days: int, net: Network): (r: Option<SendError>)
    ensures var res := net.post(TelegramPost(cfg, d, days));
      (r.None? <==> res.Response? && res.status == 200) &&
      (res.Response? && res.status != 200 ==> r == Some(TelegramStatus(res.status)))
  {
    match net.post(TelegramPost(cfg, d, days))
    case Unreachable(reason) => Some(TransportFailed(reason))
    case Response(status, _) => if status != 200 then Some(TelegramStatus(status)) else None
  }

  // ---------------------------------------------------------------------------
  // DingTalk

  /** The message generateSign signs: the timestamp, a newline, the secret. */
  function StringToSign(timestamp: string, secret: string): string {
    timestamp + "\n" + secret
  }

  /** A timestamp without a newline is recovered from the signed message, and so is the
      secret: different (timestamp, secret) pairs never sign the same text. */
  lemma StringToSignInjective(t1: string, s1: string, t2: string, s2: string)
    requires '\n' !in t1 && '\n' !in t2
    requires StringToSign(t1, s1) == StringToSign(t2, s2)
    ensures t1 == t2 && s1 == s2
  {
    var m := StringToSign(t1, s1);
    assert m == StringToSign(t2, s2);
    assert forall k :: 0 <= k < |t1| ==> m[k] == t1[k];
    assert forall k :: 0 <= k < |t2| ==> m[k] == t2[k];
    assert m[|t1|] == '\n' && m[|t2|] == '\n';
    assert |t1| == |t2|;
    assert t1 == m[..|t1|] == t2;
    assert s1 == m[|t1| + 1..] == s2;
  }

  /** generateSign: base64(HMAC-SHA256(secret, timestamp + "\n" + secret)). */
  function GenerateSign(net: Network, timestamp: string, secret: string): string {
    net.hmacSha256Base64(secret, StringToSign(timestamp, secret))
  }

  /** The URL DingDingNotifier.Send posts to: timestamp and sign are added only when a
      secret is configured, and only then is the URL parsed (and can be rejected). */
  function DingDingEndpoint(cfg: DingDingConfig, net: Network): (r: Result<Endpoint, SendError>)
    ensures r.Failure? <==> cfg.secret != "" && !net.urlParses(cfg.webhook)
    ensures r.Failure? ==> r.error == InvalidWebhookUrl(cfg.webhook)
    ensures r.Success? ==> r.value.url == cfg.webhook
    ensures r.Success? ==> (r.value.query == [] <==> cfg.secret == "")
    ensures r.Success? && cfg.secret != "" ==>
      r.value.query == [("timestamp", net.clockMillis),
                        ("sign", net.hmacSha256Base64(cfg.secret, net.clockMillis + "\n" + cfg.secret))]
  {
    if cfg.secret == "" then Success(Endpoint(cfg.webhook, []))
    else
      var timestamp := net.clockMillis;
      var sign := GenerateSign(net, timestamp, cfg.secret);
      if !net.urlParses(cfg.webhook) then Failure(InvalidWebhookUrl(cfg.webhook))
      else Success(Endpoint(cfg.webhook, [("timestamp", timestamp), ("sign", sign)]))
  }

  /** The response body carries a numeric errcode other than 0. */
  predicate ApiRejects(body: Option<map<string, Json>>) {
    body.Some? && "errcode" in body.value && body.value["errcode"].JNumber?
    && body.value["errcode"].n != 0.0
  }

  /** The response check of DingDingNotifier.Send: status 200 is required, then a decodable
      body with a non-zero errcode is an error; a body that does not decode is success. */
  function DingDingVerdict(res: HttpResult): (r: Option<SendError>)
    ensures r.None? <==> res.Response? && res.status == 200 && !ApiRejects(res.body)
    ensures res == Response(200, None) ==> r.None?
    ensures res.Response? && res.status != 200 ==> r == Some(DingDingStatus(res.status))
    ensures res.Response? && res.status == 200 && ApiRejects(res.body) ==>
      r == Some(DingDingApiError(if "errmsg" in res.body.value then Some(res.body.value["errmsg"]) else None))
  {
    match res
    case Unreachable(reason) => Some(TransportFailed(reason))
    case Response(status, body) =>
      if status != 200 then Some(DingDingStatus(status))
      else if ApiRejects(body) then
        Some(DingDingApiError(if "errmsg" in body.value then Some(body.value["errmsg"]) else None))
      else None
  }

  function DingDingBody(d: DomainRow, days: int): Body {
    DingDingMarkdown(Tier(days), d.name, days, d.expiryDate, d.registrar, d.status)
  }

  /** DingDingNotifier.Send: delivered exactly when the webhook URL is usable (always, when
      no secret is set), the POST to the signed URL is answered with status 200, and the
      body does not carry a non-zero errcode. A rejected URL is reported before anything
      is posted. */
  function SendDingDing(cfg: DingDingConfig, d: DomainRow, days: int, net: Network): (r: Option<SendError>)
    ensures r.None? <==>
      (cfg.secret == "" || net.urlParses(cfg.webhook)) &&
      var res := net.post(Post(DingDingEndpoint(cfg, net).value, DingDingBody(d, days)));
      res.Response? && res.status == 200 && !ApiRejects(res.body)
    ensures cfg.secret != "" && !net.urlParses(cfg.webhook) ==> r == Some(InvalidWebhookUrl(cfg.webhook))
    ensures (cfg.secret == "" || net.urlParses(cfg.webhook)) ==>
      var res := net.post(Post(DingDingEndpoint(cfg, net).value, DingDingBody(d, days)));
      res.Response? && res.status != 200 ==> r == Some(DingDingStatus(res.status))
  {
    match DingDingEndpoint(cfg, net)
    case Failure(e) => Some(e)
    case Success(endpoint) => DingDingVerdict(net.post(Post(endpoint, DingDingBody(d, days))))
  }

  /** Notifier.Send: None when the channel delivered. */
  function Send(n: Notifier, d: DomainRow, days: int, net: Network): Option<SendError> {
    match n
    case EmailNotifier(cfg) => SendEmail(cfg, d, days, net)
    case WebhookNotifier(cfg) => SendWebhook(cfg, d, days, net)
    case TelegramNotifier(cfg) => SendTelegram(cfg, d, days, net)
    case DingDingNotifier(cfg) => SendDingDing(cfg, d, days, net)
  }

  // ---------------------------------------------------------------------------
  // The channel list

  /** The notifiers NewNotifyService builds: exactly the enabled channels, each once, in
      declaration order. */
  function EnabledNotifiers(cfg: NotificationsConfig): (r: seq<Notifier>)
    ensures (EmailNotifier(cfg.email) in r) == cfg.email.enabled
    ensures (WebhookNotifier(cfg.webhook) in r) == cfg.webhook.enabled
    ensures (TelegramNotifier(cfg.telegram) in r) == cfg.telegram.enabled
    ensures (DingDingNotifier(cfg.dingding) in r) == cfg.dingding.enabled
    ensures forall n :: n in r ==>
      n in [EmailNotifier(cfg.email), WebhookNotifier(cfg.webhook),
            TelegramNotifier(cfg.telegram), DingDingNotifier(cfg.dingding)]
    ensures forall i, j :: 0 <= i < j < |r| ==> Rank(r[i]) < Rank(r[j])
  {
    (if cfg.email.enabled then [EmailNotifier(cfg.email)] else [])
    + (if cfg.webhook.enabled then [WebhookNotifier(cfg.webhook)] else [])
    + (if cfg.telegram.enabled then [TelegramNotifier(cfg.telegram)] else [])
    + (if cfg.dingding.enabled then [DingDingNotifier(cfg.dingding)] else [])
  }

  // ---------------------------------------------------------------------------
  // One dispatch, as functions of the channel list

  function StatusOf(e: Option<SendError>): string {
    if e.Some? then "failed" else "success"
  }

  /** The audit text: it uses the record's own days remaining, not the day count the
      dispatch was given. */
  function Content(d: DomainRow): string {
    "Domain " + d.name + " expires in " + IntToString(d.daysRemaining) + " days"
  }

  /** The row recordNotification inserts. */
  function Record(d: DomainRow, n: Notifier, status: string, now: Time): Notification {
    Notification(d.id, TypeName(n), Content(d), status, now)
  }

  /** The audit records one dispatch appends: one per notifier, in list order, marked
      "failed" exactly when that notifier's send failed. */
  function Trail(ns: seq<Notifier>, d: DomainRow, days: int, net: Network, now: Time): (r: seq<Notification>)
    ensures |r| == |ns|
    ensures forall i :: 0 <= i < |ns| ==>
      && r[i].domainId == d.id
      && r[i].kind == TypeName(ns[i])
      && r[i].content == Content(d)
      && (r[i].status == "failed" <==> Send(ns[i], d, days, net).Some?)
      && (r[i].status == "success" <==> Send(ns[i], d, days, net).None?)
      && r[i].sentAt == now
    decreases |ns|
  {
    if ns == [] then []
    else
      var last := ns[|ns| - 1];
      Trail(ns[..|ns| - 1], d, days, net, now) + [Record(d, last, StatusOf(Send(last, d, days, net)), now)]
  }

  /** The error of the last notifier that failed, None when none failed. */
  function LastError(ns: seq<Notifier>, d: DomainRow, days: int, net: Network): Option<SendError>
    decreases |ns|
  {
    if ns == [] then None
    else
      var e := Send(ns[|ns| - 1], d, days, net);
      if e.Some? then e else LastError(ns[..|ns| - 1], d, days, net)
  }

  /** How many notifiers delivered. */
  function Successes(ns: seq<Notifier>, d: DomainRow, days: int, net: Network): nat
    decreases |ns|
  {
    if ns == [] then 0
    else
      Successes(ns[..|ns| - 1], d, days, net) + (if Send(ns[|ns| - 1], d, days, net).None? then 1 else 0)
  }

  /** The aggregate result of SendNotification. */
  function Verdict(ns: seq<Notifier>, d: DomainRow, days: int, net: Network): Option<SendError> {
    var lastErr := LastError(ns, d, days, net);
    if Successes(ns, d, days, net) > 0 && lastErr.Some? then None else lastErr
  }

  lemma {:induction false} LastErrorIsLastFailure(ns: seq<Notifier>, d: DomainRow, days: int, net: Network)
    ensures LastError(ns, d, days, net).None? <==> forall i :: 0 <= i < |ns| ==> Send(ns[i], d, days, net).None?
    ensures |ns| > 0 && Send(ns[|ns| - 1], d, days, net).Some? ==>
      LastError(ns, d, days, net) == Send(ns[|ns| - 1], d, days, net)
    decreases |ns|
  {
    if ns != [] {
      var init := ns[..|ns| - 1];
      LastErrorIsLastFailure(init, d, days, net);
      assert forall i :: 0 <= i < |init| ==> init[i] == ns[i];
    }
  }

  lemma {:induction false} SuccessesCount(ns: seq<Notifier>, d: DomainRow, days: int, net: Network)
    ensures Successes(ns, d, days, net) <= |ns|
    ensures Successes(ns, d, days, net) > 0 <==> exists i :: 0 <= i < |ns| && Send(ns[i], d, days, net).None?
    decreases |ns|
  {
    if ns != [] {
      var init := ns[..|ns| - 1];
      SuccessesCount(init, d, days, net);
      assert forall i :: 0 <= i < |init| ==> init[i] == ns[i];
      if Successes(ns, d, days, net) > 0 {
        if Send(ns[|ns| - 1], d, days, net).None? {
        } else {
          var i :| 0 <= i < |init| && Send(init[i], d, days, net).None?;
          assert Send(ns[i], d, days, net).None?;
        }
      }
    }
  }

  /** At least one success hides every failure; when every notifier failed the last error
      is returned; an empty channel list reports success. */
  lemma VerdictSpec(ns: seq<Notifier>, d: DomainRow, days: int, net: Network)
    ensures Verdict(ns, d, days, net).None? <==>
      |ns| == 0 || exists i :: 0 <= i < |ns| && Send(ns[i], d, days, net).None?
    ensures (|ns| > 0 && forall i :: 0 <= i < |ns| ==> Send(ns[i], d, days, net).Some?) ==>
      Verdict(ns, d, days, net) == Send(ns[|ns| - 1], d, days, net)
  {
    LastErrorIsLastFailure(ns, d, days, net);
    SuccessesCount(ns, d, days, net);
  }

  // ---------------------------------------------------------------------------
  // The service

  class NotifyService {
    const notifiers: seq<Notifier>
    const db: Store

    /** NewNotifyService: append each enabled notifier in turn. */
    constructor (cfg: NotificationsConfig, db: Store)
      ensures notifiers == EnabledNotifiers(cfg) && this.db == db
    {
      var ns: seq<Notifier> := [];
      if cfg.email.enabled {
        ns := ns + [EmailNotifier(cfg.email)];
      }
      if cfg.webhook.enabled {
        ns := ns + [WebhookNotifier(cfg.webhook)];
      }
      if cfg.telegram.enabled {
        ns := ns + [TelegramNotifier(cfg.telegram)];
      }
      if cfg.dingding.enabled {
        ns := ns + [DingDingNotifier(cfg.dingding)];
      }
      notifiers := ns;
      this.db := db;
    }

    /** recordNotification. */
    method RecordNotification(d: DomainRow, n: Notifier, status: string, now: Time)
      modifies db
      ensures db.notifications == old(db.notifications) + [Record(d, n, status, now)]
      ensures db.domains == old(db.domains) && db.dispatches == old(db.dispatches)
    {
      db.CreateNotification(Record(d, n, status, now));
    }

    /** SendNotification: every notifier is tried once, in order, whatever the earlier
        ones did; one audit record per attempt; the verdict hides failures behind any
        success. */
    method SendNotification(d: DomainRow, days: int, net: Network, now: Time) returns (err: Option<SendError>)
      modifies db
      ensures db.notifications == old(db.notifications) + Trail(notifiers, d, days, net, now)
      ensures db.dispatches == old(db.dispatches) + [Dispatch(d.name, days)]
      ensures db.domains == old(db.domains)
      ensures err == Verdict(notifiers, d, days, net)
    {
      db.dispatches := db.dispatches + [Dispatch(d.name, days)];
      var lastErr: Option<SendError> := None;
      var successCount: nat := 0;
      for i := 0 to |notifiers|
        invariant lastErr == LastError(notifiers[..i], d, days, net)
        invariant successCount == Successes(notifiers[..i], d, days, net)
        invariant db.notifications == old(db.notifications) + Trail(notifiers[..i], d, days, net, now)
        invariant db.domains == old(db.domains)
        invariant db.dispatches == old(db.dispatches) + [Dispatch(d.name, days)]
      {
        assert notifiers[..i + 1][..i] == notifiers[..i];
        var e := Send(notifiers[i], d, days, net);
        if e.Some? {
          lastErr := e;
          RecordNotification(d, notifiers[i], "failed", now);
          continue;
        }
        RecordNotification(d, notifiers[i], "success", now);
        successCount := successCount + 1;
      }
      assert notifiers[..|notifiers|] == notifiers;
      if successCount > 0 && lastErr.Some? {
        return None;
      }
      return lastErr;
    }
  }
}
