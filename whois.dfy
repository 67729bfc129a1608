/** Interpretation of the WHOIS API's answer (WhoisService.QueryDomain after the HTTP
    round trip) and the date parser with its ordered fallback layouts. The HTTP request
    and JSON decoding are inputs: an Exchange says what came back, with the envelope
    already decoded. */
module Whois {
  import opened Wrappers
  import opened Models

  /** A decoded JSON value, as encoding/json produces into interface{} (numbers are float64). */
  datatype Json =
    | JNull
    | JBool(b: bool)
    | JNumber(n: real)
    | JString(s: string)
    | JArray(items: seq<Json>)
    | JObject(fields: map<string, Json>)

  /** The API's {code, msg, data} envelope; `data` is None when absent or null. */
  datatype Envelope = Envelope(code: int, msg: string, data: Option<map<string, Json>>)

  /** What a query for one domain name came back with. */
  datatype Exchange =
    | InvalidUrl(reason: string)                         // the configured API URL did not parse
    | GetFailed(reason: string)                          // transport error or timeout
    | Received(status: int, envelope: Option<Envelope>)  // None: the body did not decode

  datatype WhoisError =
    | InvalidApiUrl(reason: string)
    | QueryFailed(reason: string)
    | HttpStatus(status: int)
    | MalformedResponse
    | ApiError(msg: string)
    | NoData

  /** What QueryDomain returns (DomainInfo); `rawData` is the payload whose JSON text the
      source keeps. */
  datatype DomainInfo = DomainInfo(
    domain: string,
    registrar: string,
    expiryDate: Time,
    createdDate: Time,
    updatedDate: Time,
    status: string,
    nameServers: seq<string>,
    rawData: map<string, Json>)

  // ---------------------------------------------------------------------------
  // parseDate

  /** The layouts parseDate tries, in this order. */
  datatype Layout = RFC3339 | UtcDateTime | SpaceDateTime | DateOnly

  function LayoutText(l: Layout): string {
    match l
    case RFC3339 => "2006-01-02T15:04:05Z07:00"
    case UtcDateTime => "2006-01-02T15:04:05Z"
    case SpaceDateTime => "2006-01-02 15:04:05"
    case DateOnly => "2006-01-02"
  }

  const Layouts: seq<Layout> := [RFC3339, UtcDateTime, SpaceDateTime, DateOnly]

  /** time.Parse for one layout: Some instant, or None for a parse error. */
  type Parser = (Layout, string) -> Option<Time>

  /** Index of the first layout that parses `s`; |layouts| when none does. */
  function FirstLayout(parse: Parser, layouts: seq<Layout>, s: string): (k: nat)
    ensures k <= |layouts|
    ensures forall j :: 0 <= j < k ==> parse(layouts[j], s).None?
    ensures k < |layouts| ==> parse(layouts[k], s).Some?
    decreases |layouts|
  {
    if layouts == [] then 0
    else if parse(layouts[0], s).Some? then 0
    else
      var k := FirstLayout(parse, layouts[1..], s);
      assert forall j :: 1 <= j < k + 1 ==> layouts[j] == layouts[1..][j - 1];
      k + 1
  }

  /** parseDate: the first layout that parses wins; an error only when all four fail. */
  function ParseDate(parse: Parser, s: string): (r: Result<Time, string>)
    ensures r.Failure? <==> forall l :: l in Layouts ==> parse(l, s).None?
    ensures r.Failure? ==> r.error == "unable to parse date: " + s
  {
    var k := FirstLayout(parse, Layouts, s);
    if k < |Layouts| then Success(parse(Layouts[k], s).value)
    else
      assert forall l :: l in Layouts ==> parse(l, s).None? by {
        forall l | l in Layouts ensures parse(l, s).None? {
          var j :| 0 <= j < |Layouts| && Layouts[j] == l;
        }
      }
      Failure("unable to parse date: " + s)
  }

  /** The layouts are tried in order: the first that parses gives the instant, whatever
      the later ones would say. */
  lemma ParseDateFirstSuccessWins(parse: Parser, s: string, k: nat)
    requires k < |Layouts| && parse(Layouts[k], s).Some?
    requires forall j :: 0 <= j < k ==> parse(Layouts[j], s).None?
    ensures ParseDate(parse, s) == Success(parse(Layouts[k], s).value)
  {
  }

  // ---------------------------------------------------------------------------
  // Field extraction

  /** data.registrar when it is a string, "" otherwise. */
  function Registrar(data: map<string, Json>): string {
    if "registrar" in data && data["registrar"].JString? then data["registrar"].s else ""
  }

  /** data.status[0].text when status is a non-empty list whose first element is an
      object with a string `text`; "" otherwise. */
  function StatusText(data: map<string, Json>): string {
    if "status" in data && data["status"].JArray? && |data["status"].items| > 0 then
      var first := data["status"].items[0];
      if first.JObject? && "text" in first.fields && first.fields["text"].JString?
      then first.fields["text"].s else ""
    else ""
  }

  /** A date field: the parsed instant when the key holds a string that parses, the zero
      time otherwise. */
  function DateField(data: map<string, Json>, key: string, parse: Parser): Time {
    if key in data && data[key].JString? then
      match ParseDate(parse, data[key].s)
      case Success(t) => t
      case Failure(_) => ZeroTime
    else ZeroTime
  }

  /** The string elements of a JSON list, in order. */
  function StringItems(items: seq<Json>): seq<string>
    decreases |items|
  {
    if items == [] then []
    else
      var last := items[|items| - 1];
      StringItems(items[..|items| - 1]) + (if last.JString? then [last.s] else [])
  }

  /** StringItems keeps exactly the strings, drops everything else, and never grows. */
  lemma {:induction false} StringItemsMembers(items: seq<Json>)
    ensures |StringItems(items)| <= |items|
    ensures forall x :: x in StringItems(items) <==> JString(x) in items
    decreases |items|
  {
    if items != [] {
      var init := items[..|items| - 1];
      StringItemsMembers(init);
      assert items == init + [items[|items| - 1]];
    }
  }

  function NameServers(data: map<string, Json>): seq<string> {
    if "nameServers" in data && data["nameServers"].JArray? then StringItems(data["nameServers"].items)
    else []
  }

  // ---------------------------------------------------------------------------
  // QueryDomain

  /** The DomainInfo that a successful query builds from the payload `data`. */
  function Facts(name: string, data: map<string, Json>, parse: Parser): DomainInfo {
    DomainInfo(name, Registrar(data), DateField(data, "expirationDate", parse),
               DateField(data, "creationDate", parse), DateField(data, "updatedDate", parse),
               StatusText(data), NameServers(data), data)
  }

  /** The result QueryDomain computes from an exchange, as one expression. */
  function Interpret(name: string, exchange: Exchange, parse: Parser): Result<DomainInfo, WhoisError> {
    match exchange
    case InvalidUrl(reason) => Failure(InvalidApiUrl(reason))
    case GetFailed(reason) => Failure(QueryFailed(reason))
    case Received(status, envelope) =>
      if status != 200 then Failure(HttpStatus(status))
      else if envelope.None? then Failure(MalformedResponse)
      else if envelope.value.code != 0 then Failure(ApiError(envelope.value.msg))
      else if envelope.value.data.None? then Failure(NoData)
      else Success(Facts(name, envelope.value.data.value, parse))
  }

  /** The name-server loop of QueryDomain: append each string element, skip the rest. */
  method CollectNameServers(items: seq<Json>) returns (servers: seq<string>)
    ensures servers == StringItems(items)
  {
    servers := [];
    for i := 0 to |items|
      invariant servers == StringItems(items[..i])
    {
      assert items[..i + 1][..i] == items[..i];
      if items[i].JString? {
        servers := servers + [items[i].s];
      }
    }
    assert items[..|items|] == items;
  }

  /** One date block of QueryDomain: assign the field only when the key holds a string
      that parseDate accepts; otherwise it keeps its zero value. */
  method ExtractDate(data: map<string, Json>, key: string, parse: Parser) returns (t: Time)
    ensures t == DateField(data, key, parse)
  {
    t := ZeroTime;
    if key in data && data[key].JString? {
      var parsed := ParseDate(parse, data[key].s);
      if parsed.Success? {
        t := parsed.value;
      }
    }
  }

  /** Field extraction of QueryDomain, once the envelope has passed its checks: each field
      is assigned only when the payload holds a value of the expected shape. */
  method Extract(name: string, data: map<string, Json>, parse: Parser) returns (info: DomainInfo)
    ensures info == Facts(name, data, parse)
  {
    info := DomainInfo(name, "", ZeroTime, ZeroTime, ZeroTime, "", [], map[]);
    if "registrar" in data && data["registrar"].JString? {
      info := info.(registrar := data["registrar"].s);
    }
    if "status" in data && data["status"].JArray? && |data["status"].items| > 0 {
      var first := data["status"].items[0];
      if first.JObject? && "text" in first.fields && first.fields["text"].JString? {
        info := info.(status := first.fields["text"].s);
      }
    }
    var expiry := ExtractDate(data, "expirationDate", parse);
    var created := ExtractDate(data, "creationDate", parse);
    var updated := ExtractDate(data, "updatedDate", parse);
    info := info.(expiryDate := expiry, createdDate := created, updatedDate := updated);
    if "nameServers" in data && data["nameServers"].JArray? {
      var servers := CollectNameServers(data["nameServers"].items);
      info := info.(nameServers := servers);
    }
    info := info.(rawData := data);
  }

  /** QueryDomain after the round trip: the envelope checks in order, then the tolerant
      field extraction. Dates that are absent or do not parse never make it fail. */
  method QueryDomain(name: string, exchange: Exchange, parse: Parser) returns (r: Result<DomainInfo, WhoisError>)
    ensures exchange.InvalidUrl? ==> r == Failure(InvalidApiUrl(exchange.reason))
    ensures exchange.GetFailed? ==> r == Failure(QueryFailed(exchange.reason))
    ensures exchange.Received? && exchange.status != 200 ==> r == Failure(HttpStatus(exchange.status))
    ensures exchange == Received(200, None) ==> r == Failure(MalformedResponse)
    ensures exchange.Received? && exchange.status == 200 && exchange.envelope.Some? ==>
      var e := exchange.envelope.value;
      (e.code != 0 ==> r == Failure(ApiError(e.msg))) &&
      (e.code == 0 && e.data.None? ==> r == Failure(NoData))
    ensures r.Success? <==>
      exchange.Received? && exchange.status == 200 && exchange.envelope.Some? &&
      exchange.envelope.value.code == 0 && exchange.envelope.value.data.Some?
    ensures r.Success? ==> r.value == Facts(name, exchange.envelope.value.data.value, parse)
    ensures r == Interpret(name, exchange, parse)
  {
    match exchange
    case InvalidUrl(reason) => return Failure(InvalidApiUrl(reason));
    case GetFailed(reason) => return Failure(QueryFailed(reason));
    case Received(status, envelope) =>
      if status != 200 {
        return Failure(HttpStatus(status));
      }
      if envelope.None? {
        return Failure(MalformedResponse);
      }
      var e := envelope.value;
      if e.code != 0 {
        return Failure(ApiError(e.msg));
      }
      if e.data.None? {
        return Failure(NoData);
      }
      var info := Extract(name, e.data.value, parse);
      return Success(info);
  }
}
