/** The database the core reads and writes, as an explicit object: the domains table, the
    append-only notifications table, and a ghost log of the dispatches that were started
    (one entry per SendNotification call, kept so that "at most one dispatch" can be
    stated even when no channel is enabled). Storage failures are inputs. */
module Storage {
  import opened Wrappers
  import opened Models

  /** One SendNotification call: the domain it concerned and the day count it was given. */
  datatype Dispatch = Dispatch(domain: string, days: int)

  /** The rows `WHERE is_active = true`, in table order. */
  function Active(rows: seq<DomainRow>): (r: seq<DomainRow>)
    ensures |r| <= |rows|
    ensures forall x :: x in r <==> x in rows && x.isActive
    decreases |rows|
  {
    if rows == [] then []
    else (if rows[0].isActive then [rows[0]] else []) + Active(rows[1..])
  }

  predicate HasId(rows: seq<DomainRow>, id: nat) {
    exists x :: x in rows && x.id == id
  }

  /** The table after GORM's Save of `row`: every row with the same primary key is
      replaced, and the row is inserted when no row has that key. */
  function Upsert(rows: seq<DomainRow>, row: DomainRow): (r: seq<DomainRow>)
    ensures row in r
    ensures forall x :: x in rows && x.id != row.id ==> x in r
    ensures forall x :: x in r ==> x == row || (x in rows && x.id != row.id)
    ensures |r| == if HasId(rows, row.id) then |rows| else |rows| + 1
  {
    if HasId(rows, row.id) then
      var r := seq(|rows|, i requires 0 <= i < |rows| => if rows[i].id == row.id then row else rows[i]);
      assert row in r by {
        var x :| x in rows && x.id == row.id;
        var i :| 0 <= i < |rows| && rows[i] == x;
        assert r[i] == row;
      }
      assert forall x :: x in rows && x.id != row.id ==> x in r by {
        forall x | x in rows && x.id != row.id ensures x in r {
          var i :| 0 <= i < |rows| && rows[i] == x;
          assert r[i] == x;
        }
      }
      r
    else rows + [row]
  }

  class Store {
    var domains: seq<DomainRow>
    var notifications: seq<Notification>
    ghost var dispatches: seq<Dispatch>

    constructor (domains: seq<DomainRow>)
      ensures this.domains == domains && notifications == [] && dispatches == []
    {
      this.domains := domains;
      notifications := [];
      dispatches := [];
    }

    /** db.Where("is_active = ?", true).Find(&domains); `fault` is the query's error, if any. */
    method FindActiveDomains(fault: Option<string>) returns (r: Result<seq<DomainRow>, string>)
      ensures fault.Some? ==> r == Failure(fault.value)
      ensures fault.None? ==> r == Success(Active(domains))
    {
      if fault.Some? {
        return Failure(fault.value);
      }
      return Success(Active(domains));
    }

    /** db.Save(domain); `fault` is the error the database reports, if any. A failed save
        changes nothing. */
    method Save(row: DomainRow, fault: Option<string>) returns (err: Option<string>)
      modifies this
      ensures err == fault
      ensures domains == if fault.None? then Upsert(old(domains), row) else old(domains)
      ensures notifications == old(notifications) && dispatches == old(dispatches)
    {
      if fault.Some? {
        return fault;
      }
      domains := Upsert(domains, row);
      return None;
    }

    /** db.Create(notification): the audit table only grows. */
    method CreateNotification(n: Notification)
      modifies this
      ensures notifications == old(notifications) + [n]
      ensures domains == old(domains) && dispatches == old(dispatches)
    {
      notifications := notifications + [n];
    }
  }
}
