/** The monitoring engine (MonitorService): one pass over the active domains, the refresh
    of one domain from its WHOIS answer, and the threshold rule that decides whether a
    domain gets an expiry notification. The outside world (the clock, the WHOIS API, the
    date parser, database faults and the notification channels) is an Env value. */
module Monitor {
  import opened Wrappers
  import opened Models
  import opened Storage
  import opened Whois
  import opened Notify

  /** Everything the engine learns from outside during one pass. The clock is read once
      per pass; `whois` is what the API answered for each name; `saveFault` is the error
      the database reports when a domain with that name is saved. */
  datatype Env = Env(
    now: Time,
    whois: string -> Exchange,
    parse: Parser,
    fetchFault: Option<string>,
    saveFault: string -> Option<string>,
    net: Network)

  datatype MonitorError =
    | LookupFailed(cause: WhoisError)   // "WHOIS query failed: ..."
    | SaveFailed(reason: string)        // "failed to save domain: ..."
    | FetchFailed(reason: string)       // "failed to fetch domains: ..."
    | NoNotifyService                   // "notification service not available"
    | DispatchFailed(sendError: SendError)  // the error SendNotification returned

  /** The database as the engine changes it: the domains table, the audit table and the
      log of dispatches. */
  datatype World = World(domains: seq<DomainRow>, notifications: seq<Notification>, dispatches: seq<Dispatch>)

  /** What a MonitorService was built with: the channel list of its notify service (None
      when it has none) and the alert thresholds. */
  datatype Policy = Policy(notifiers: Option<seq<Notifier>>, alertDays: seq<int>)

  // ---------------------------------------------------------------------------
  // The engine as functions

  /** The WHOIS lookup for one name. */
  function Lookup(name: string, env: Env): Result<DomainInfo, WhoisError> {
    Interpret(name, env.whois(name), env.parse)
  }

  /** The record after a successful lookup: the looked-up facts and the check time are
      copied in; the day count is recomputed only when the expiry date is known. */
  function Refresh(row: DomainRow, info: DomainInfo, now: Time): DomainRow {
    row.(registrar := info.registrar, expiryDate := info.expiryDate,
         createdDate := info.createdDate, updatedDate := info.updatedDate,
         status := info.status, lastChecked := now,
         daysRemaining := if IsZero(info.expiryDate) then row.daysRemaining
                          else DaysUntil(now, info.expiryDate))
  }

  /** Position of the first threshold equal to `v`. */
  function FirstMatch(ts: seq<int>, v: int): (k: Option<nat>)
    ensures k.None? <==> v !in ts
    ensures k.Some? ==> k.value < |ts| && ts[k.value] == v && forall j :: 0 <= j < k.value ==> ts[j] != v
    decreases |ts|
  {
    if ts == [] then None
    else if ts[0] == v then Some(0)
    else
      match FirstMatch(ts[1..], v)
      case None => None
      case Some(k) =>
        assert forall j :: 1 <= j < k + 1 ==> ts[j] == ts[1..][j - 1];
        Some(k + 1)
  }

  /** The world after one SendNotification call for `row` with day count `days`. */
  function Dispatched(w: World, ns: seq<Notifier>, row: DomainRow, days: int, net: Network, now: Time): World {
    World(w.domains, w.notifications + Trail(ns, row, days, net, now), w.dispatches + [Dispatch(row.name, days)])
  }

  /** CheckAndNotify: with a notify service, the first threshold equal to the day count
      triggers exactly one dispatch; otherwise nothing happens. */
  function Alert(p: Policy, row: DomainRow, w: World, net: Network, now: Time): (r: World)
    ensures r.domains == w.domains
    ensures r == w || |r.dispatches| == |w.dispatches| + 1
    ensures r != w <==> p.notifiers.Some? && row.daysRemaining in p.alertDays
    ensures r != w ==> r == Dispatched(w, p.notifiers.value, row, row.daysRemaining, net, now)
  {
    if p.notifiers.None? then w
    else
      match FirstMatch(p.alertDays, row.daysRemaining)
      case None => w
      case Some(k) =>
        var r := Dispatched(w, p.notifiers.value, row, p.alertDays[k], net, now);
        assert |r.dispatches| == |w.dispatches| + 1;
        r
  }

  /** CheckDomain on a record: lookup, refresh, save, then the alert rule. A failed lookup
      or save leaves the world as it was and is the only way to get an error. */
  function CheckOne(p: Policy, w: World, row: DomainRow, env: Env): (r: (World, Option<MonitorError>))
    ensures r.1.None? <==> Lookup(row.name, env).Success? && env.saveFault(row.name).None?
    ensures r.1.Some? ==> r.0 == w
    ensures Lookup(row.name, env).Failure? ==> r.1 == Some(LookupFailed(Lookup(row.name, env).error))
    ensures Lookup(row.name, env).Success? && env.saveFault(row.name).Some? ==>
      r.1 == Some(SaveFailed(env.saveFault(row.name).value))
    ensures r.1.None? ==>
      var updated := Refresh(row, Lookup(row.name, env).value, env.now);
      r.0.domains == Upsert(w.domains, updated) &&
      r.0 == Alert(p, updated, World(Upsert(w.domains, updated), w.notifications, w.dispatches), env.net, env.now)
  {
    match Lookup(row.name, env)
    case Failure(e) => (w, Some(LookupFailed(e)))
    case Success(info) =>
      var updated := Refresh(row, info, env.now);
      match env.saveFault(updated.name)
      case Some(reason) => (w, Some(SaveFailed(reason)))
      case None =>
        (Alert(p, updated, World(Upsert(w.domains, updated), w.notifications, w.dispatches), env.net, env.now), None)
  }

  /** CheckAllDomains after the fetch: the records are checked in order and each one's
      error is dropped. */
  function CheckRows(p: Policy, w: World, rows: seq<DomainRow>, env: Env): World
    decreases |rows|
  {
    if rows == [] then w
    else CheckOne(p, CheckRows(p, w, rows[..|rows| - 1], env), rows[|rows| - 1], env).0
  }

  /** Records can only be added to the audit table, and dispatches to the log. */
  predicate Grows(w: World, w': World) {
    |w.notifications| <= |w'.notifications| && w'.notifications[..|w.notifications|] == w.notifications &&
    |w.dispatches| <= |w'.dispatches| && w'.dispatches[..|w.dispatches|] == w.dispatches
  }

  predicate DistinctIds(rows: seq<DomainRow>) {
    forall i, j :: 0 <= i < j < |rows| ==> rows[i].id != rows[j].id
  }

  predicate DistinctNames(rows: seq<DomainRow>) {
    forall i, j :: 0 <= i < j < |rows| ==> rows[i].name != rows[j].name
  }

  // ---------------------------------------------------------------------------
  // Properties of a pass

  /** A pass only appends: to the audit table and to the dispatch log. Every dispatch it
      adds is for one of the records, with a day count that is one of the thresholds, and
      it adds no more dispatches than there are records. */
  lemma {:induction false} CheckRowsAppends(p: Policy, w: World, rows: seq<DomainRow>, env: Env)
    ensures var r := CheckRows(p, w, rows, env);
      Grows(w, r) &&
      |r.dispatches| <= |w.dispatches| + |rows| &&
      forall k :: |w.dispatches| <= k < |r.dispatches| ==>
        r.dispatches[k].days in p.alertDays &&
        exists row :: row in rows && r.dispatches[k].domain == row.name
    decreases |rows|
  {
    if rows != [] {
      var init := rows[..|rows| - 1];
      var last := rows[|rows| - 1];
      CheckRowsAppends(p, w, init, env);
      var mid := CheckRows(p, w, init, env);
      var r := CheckRows(p, w, rows, env);
      assert r == CheckOne(p, mid, last, env).0;
      forall row | row in init ensures row in rows {
        var i :| 0 <= i < |init| && init[i] == row;
        assert rows[i] == row;
      }
      var step := CheckOne(p, mid, last, env);
      if step.1.None? && p.notifiers.Some? {
        var info := Lookup(last.name, env).value;
        var updated := Refresh(last, info, env.now);
        var saved := World(Upsert(mid.domains, updated), mid.notifications, mid.dispatches);
        if r != saved {
          assert r == Dispatched(saved, p.notifiers.value, updated, updated.daysRemaining, env.net, env.now);
          assert updated.daysRemaining in p.alertDays;
          assert r.dispatches == mid.dispatches + [Dispatch(last.name, updated.daysRemaining)];
          assert r.notifications[..|mid.notifications|] == mid.notifications;
          assert r.notifications[..|w.notifications|] == mid.notifications[..|w.notifications|];
          assert r.dispatches[..|w.dispatches|] == mid.dispatches[..|w.dispatches|];
          forall k | |w.dispatches| <= k < |r.dispatches|
            ensures r.dispatches[k].days in p.alertDays
            ensures exists row :: row in rows && r.dispatches[k].domain == row.name
          {
            if k < |mid.dispatches| {
              assert r.dispatches[k] == mid.dispatches[k];
            } else {
              assert r.dispatches[k] == Dispatch(last.name, updated.daysRemaining);
              assert last in rows;
            }
          }
        }
      }
    }
  }

  /** With distinct names (the table's unique index), a pass dispatches at most once per
      name: no two of the dispatches it adds are for the same domain. */
  lemma {:induction false} CheckRowsOnePerName(p: Policy, w: World, rows: seq<DomainRow>, env: Env)
    requires DistinctNames(rows)
    ensures var r := CheckRows(p, w, rows, env);
      forall k1, k2 :: |w.dispatches| <= k1 < k2 < |r.dispatches| ==>
        r.dispatches[k1].domain != r.dispatches[k2].domain
    decreases |rows|
  {
    if rows != [] {
      var init := rows[..|rows| - 1];
      var last := rows[|rows| - 1];
      CheckRowsOnePerName(p, w, init, env);
      CheckRowsAppends(p, w, init, env);
      var mid := CheckRows(p, w, init, env);
      var r := CheckRows(p, w, rows, env);
      assert r == CheckOne(p, mid, last, env).0;
      var step := CheckOne(p, mid, last, env);
      if step.1.None? && p.notifiers.Some? {
        var info := Lookup(last.name, env).value;
        var updated := Refresh(last, info, env.now);
        var saved := World(Upsert(mid.domains, updated), mid.notifications, mid.dispatches);
        if r != saved {
          assert r.dispatches == mid.dispatches + [Dispatch(last.name, updated.daysRemaining)];
          forall k | |w.dispatches| <= k < |mid.dispatches|
            ensures mid.dispatches[k].domain != last.name
          {
            var row :| row in init && mid.dispatches[k].domain == row.name;
            var i :| 0 <= i < |init| && init[i] == row;
            assert rows[i] == row;
          }
        }
      }
    }
  }

  /** One record's successful check is not undone by the others in the same pass: when the
      ids are distinct and its lookup and save both succeed, the refreshed record is in
      the table afterwards, whatever happened to the rest. */
  lemma {:induction false} CheckRowsPersists(p: Policy, w: World, rows: seq<DomainRow>, env: Env, j: nat)
    requires DistinctIds(rows)
    requires j < |rows|
    requires Lookup(rows[j].name, env).Success? && env.saveFault(rows[j].name).None?
    ensures Refresh(rows[j], Lookup(rows[j].name, env).value, env.now) in CheckRows(p, w, rows, env).domains
    decreases |rows|
  {
    var init := rows[..|rows| - 1];
    var last := rows[|rows| - 1];
    var mid := CheckRows(p, w, init, env);
    var target := Refresh(rows[j], Lookup(rows[j].name, env).value, env.now);
    assert CheckRows(p, w, rows, env) == CheckOne(p, mid, last, env).0;
    if j == |rows| - 1 {
    } else {
      assert init[j] == rows[j];
      CheckRowsPersists(p, w, init, env, j);
      var r := CheckOne(p, mid, last, env);
      if r.1.None? {
        var updated := Refresh(last, Lookup(last.name, env).value, env.now);
        assert updated.id == last.id != rows[j].id == target.id;
      }
    }
  }

  // ---------------------------------------------------------------------------
  // The service

  /** The update block of CheckDomain: the looked-up facts and the check time overwrite
      the struct's fields; the day count is recomputed only when the expiry date is known,
      and every other field is left alone. */
  method ApplyLookup(domain: Domain, info: DomainInfo, now: Time)
    modifies domain
    ensures domain.registrar == info.registrar && domain.expiryDate == info.expiryDate
    ensures domain.createdDate == info.createdDate && domain.updatedDate == info.updatedDate
    ensures domain.status == info.status && domain.lastChecked == now
    ensures domain.daysRemaining == if IsZero(info.expiryDate) then old(domain.daysRemaining)
                                    else DaysUntil(now, info.expiryDate)
    ensures domain.id == old(domain.id) && domain.name == old(domain.name)
    ensures domain.tags == old(domain.tags) && domain.isActive == old(domain.isActive)
    ensures domain.createdAt == old(domain.createdAt) && domain.updatedAt == old(domain.updatedAt)
    ensures domain.Row() == Refresh(old(domain.Row()), info, now)
  {
    domain.registrar := info.registrar;
    domain.expiryDate := info.expiryDate;
    domain.createdDate := info.createdDate;
    domain.updatedDate := info.updatedDate;
    domain.status := info.status;
    domain.lastChecked := now;
    if !IsZero(info.expiryDate) {
      domain.daysRemaining := DaysUntil(now, info.expiryDate);
    }
  }

  class MonitorService {
    const notifyService: NotifyService?
    const alertDays: seq<int>
    const db: Store

    /** The notify service, when there is one, writes to the same database. */
    predicate Valid() {
      notifyService != null ==> notifyService.db == db
    }

    /** NewMonitorService; the WHOIS service is the `whois` part of an Env. */
    constructor (notifyService: NotifyService?, alertDays: seq<int>, db: Store)
      requires notifyService != null ==> notifyService.db == db
      ensures Valid()
      ensures this.notifyService == notifyService && this.alertDays == alertDays && this.db == db
    {
      this.notifyService := notifyService;
      this.alertDays := alertDays;
      this.db := db;
    }

    function Rules(): Policy {
      Policy(if notifyService == null then None else Some(notifyService.notifiers), alertDays)
    }

    ghost function State(): World
      reads db
    {
      World(db.domains, db.notifications, db.dispatches)
    }

    /** CheckAndNotify: scan the thresholds in order; on the first equal to the day count,
        dispatch once with that threshold and stop. A dispatch error is only logged. */
    method CheckAndNotify(domain: Domain, env: Env)
      requires Valid()
      modifies db
      ensures State() == Alert(Rules(), domain.Row(), old(State()), env.net, env.now)
    {
      if notifyService == null {
        return;
      }
      for i := 0 to |alertDays|
        invariant forall j :: 0 <= j < i ==> alertDays[j] != domain.daysRemaining
        invariant State() == old(State())
      {
        if domain.daysRemaining == alertDays[i] {
          var sendErr := notifyService.SendNotification(domain.Row(), alertDays[i], env.net, env.now);
          break;
        }
      }
    }

    /** CheckDomain: look the name up; on success copy the facts into the struct, stamp the
        check time, recompute the day count when the expiry is known, save, and apply the
        alert rule to the saved record. */
    method CheckDomain(domain: Domain, env: Env) returns (err: Option<MonitorError>)
      requires Valid()
      modifies domain, db
      ensures var looked := Lookup(old(domain.name), env);
        domain.Row() == if looked.Success? then Refresh(old(domain.Row()), looked.value, env.now) else old(domain.Row())
      ensures (State(), err) == CheckOne(Rules(), old(State()), old(domain.Row()), env)
    {
      var exchange := env.whois(domain.name);
      var looked := QueryDomain(domain.name, exchange, env.parse);
      if looked.Failure? {
        return Some(LookupFailed(looked.error));
      }
      var info := looked.value;
      ApplyLookup(domain, info, env.now);
      var saveErr := db.Save(domain.Row(), env.saveFault(domain.name));
      if saveErr.Some? {
        return Some(SaveFailed(saveErr.value));
      }
      CheckAndNotify(domain, env);
      return None;
    }

    /** TriggerNotification: dispatch once with the record's own day count, whatever the
        thresholds say; an error without a notify service. */
    method TriggerNotification(domain: Domain, env: Env) returns (err: Option<MonitorError>)
      requires Valid()
      modifies db
      ensures notifyService == null ==> err == Some(NoNotifyService) && State() == old(State())
      ensures notifyService != null ==>
        var d := domain.Row();
        State() == Dispatched(old(State()), notifyService.notifiers, d, d.daysRemaining, env.net, env.now) &&
        err == match Verdict(notifyService.notifiers, d, d.daysRemaining, env.net)
               case None => None
               case Some(e) => Some(DispatchFailed(e))
    {
      if notifyService == null {
        return Some(NoNotifyService);
      }
      var sendErr := notifyService.SendNotification(domain.Row(), domain.daysRemaining, env.net, env.now);
      if sendErr.Some? {
        return Some(DispatchFailed(sendErr.value));
      }
      return None;
    }

    /** CheckAllDomains: fetch the active records, check each through a fresh struct and
        carry on past its error; only a failed fetch is reported. */
    method CheckAllDomains(env: Env) returns (err: Option<MonitorError>)
      requires Valid()
      modifies db
      ensures env.fetchFault.Some? ==> err == Some(FetchFailed(env.fetchFault.value)) && State() == old(State())
      ensures env.fetchFault.None? ==>
        err == None && State() == CheckRows(Rules(), old(State()), Active(old(db.domains)), env)
    {
      var fetched := db.FindActiveDomains(env.fetchFault);
      if fetched.Failure? {
        return Some(FetchFailed(fetched.error));
      }
      var rows := fetched.value;
      for i := 0 to |rows|
        invariant State() == CheckRows(Rules(), old(State()), rows[..i], env)
      {
        assert rows[..i + 1][..i] == rows[..i];
        var domain := new Domain.FromRow(rows[i]);
        var checkErr := CheckDomain(domain, env);
      }
      assert rows[..|rows|] == rows;
      return None;
    }
  }
}
