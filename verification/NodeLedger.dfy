/**
 The provider-local reservation ledger (worker/nodeva_worker/reservations.py).

 `NodeLedger` gives each SQL transaction of the store as a function on the table, and proves
 what every sequence of calls keeps, whatever the clock reads. `ReservationStoreImpl` is the
 store itself, a class that updates the table in place, proved against those functions.
 */
module NodeLedger {
  import opened Options

  /** Reservation ids are UUIDs: the store only ever compares them for equality. */
  type Id = nat

  datatype Status = Held | Confirmed | Running | Completed | Released

  datatype Row = Row(
    startsAt: int, endsAt: int, pricePaiseHr: int,
    status: Status, holdExpiresAt: Option<int>, createdAt: int)

  type Table = map<Id, Row>

  /** The receipt body that the node signs. */
  datatype Receipt = Receipt(
    id: Id, startsAt: int, endsAt: int, pricePaiseHr: int, holdExpiresAt: int, issuedAt: int)

  /** What `try_lock` returns or raises. */
  datatype LockOutcome = Granted(receipt: Receipt) | InvalidWindow | SlotUnavailable | DuplicateId

  predicate Live(r: Row) {
    r.status == Held || r.status == Confirmed || r.status == Running
  }

  predicate Stale(r: Row, now: int) {
    r.status == Held && r.holdExpiresAt.Some? && r.holdExpiresAt.value <= now
  }

  /** Half-open windows: one that ends at 11:00 does not overlap one that starts at 11:00. */
  predicate Overlaps(r: Row, startsAt: int, endsAt: int) {
    r.startsAt < endsAt && r.endsAt > startsAt
  }

  predicate Blocks(r: Row, startsAt: int, endsAt: int) {
    Live(r) && Overlaps(r, startsAt, endsAt)
  }

  function Expire(r: Row, now: int): Row {
    if Stale(r, now) then r.(status := Released) else r
  }

  function ExpireStale(t: Table, now: int): Table {
    map id | id in t :: Expire(t[id], now)
  }

  predicate Conflict(t: Table, startsAt: int, endsAt: int) {
    exists id | id in t :: Blocks(t[id], startsAt, endsAt)
  }

  function TryLock(t: Table, ttlMs: int, id: Id, startsAt: int, endsAt: int, price: int, now: int): (r: (Table, LockOutcome))
  {
    if endsAt <= startsAt then (t, InvalidWindow)
    else
      var swept := ExpireStale(t, now);
      if Conflict(swept, startsAt, endsAt) then (t, SlotUnavailable)
      else if id in t then (t, DuplicateId)
      else
        (swept[id := Row(startsAt, endsAt, price, Held, Some(now + ttlMs), now)],
         Granted(Receipt(id, startsAt, endsAt, price, now + ttlMs, now)))
  }

  predicate CanCommit(t: Table, id: Id, now: int) {
    id in t && t[id].status == Held && (t[id].holdExpiresAt.Some? ==> now < t[id].holdExpiresAt.value)
  }

  function Commit(t: Table, id: Id, now: int): (r: (Table, bool)) {
    if CanCommit(t, id, now)
    then (t[id := t[id].(status := Confirmed, holdExpiresAt := None)], true)
    else (t, false)
  }

  function Release(t: Table, id: Id): Table {
    if id in t then t[id := t[id].(status := Released)] else t
  }

  function StatusOf(t: Table, id: Id): Option<Status> {
    if id in t then Some(t[id].status) else None
  }

  // ---------------------------------------------------------------------------------------
  // Runs of calls. Every call carries the clock reading it saw; readings need not be ordered.
  // ---------------------------------------------------------------------------------------

  datatype Call =
    | CTryLock(id: Id, startsAt: int, endsAt: int, price: int, now: int)
    | CCommit(id: Id, now: int)
    | CRelease(id: Id)
    | CLiveCount(now: int)

  function Do(t: Table, ttlMs: int, c: Call): Table {
    match c
    case CTryLock(id, s, e, price, now) => TryLock(t, ttlMs, id, s, e, price, now).0
    case CCommit(id, now) => Commit(t, id, now).0
    case CRelease(id) => Release(t, id)
    case CLiveCount(now) => ExpireStale(t, now)
  }

  function Run(t: Table, ttlMs: int, calls: seq<Call>): Table
    decreases calls
  {
    if calls == [] then t else Run(Do(t, ttlMs, calls[0]), ttlMs, calls[1..])
  }

  /** A row the store can have written: the CHECK constraint, and a TTL exactly while held. */
  predicate RowOk(r: Row) {
    && r.startsAt < r.endsAt
    && (r.status == Held || r.status == Confirmed || r.status == Released)
    && (r.status == Held ==> r.holdExpiresAt.Some?)
    && (r.status == Confirmed ==> r.holdExpiresAt.None?)
  }

  predicate RowsOk(t: Table) {
    forall id | id in t :: RowOk(t[id])
  }

  /** No instant is promised to two live reservations. */
  predicate NoDoubleBooking(t: Table) {
    forall i, j | i in t && j in t && i != j && Live(t[i]) && Live(t[j]) ::
      !Overlaps(t[i], t[j].startsAt, t[j].endsAt)
  }

  predicate Valid(t: Table) {
    RowsOk(t) && NoDoubleBooking(t)
  }

  lemma ExpiryKeepsValid(t: Table, now: int)
    requires Valid(t)
    ensures Valid(ExpireStale(t, now))
  {
  }

  lemma LockKeepsValid(t: Table, ttlMs: int, id: Id, s: int, e: int, price: int, now: int)
    requires Valid(t)
    ensures Valid(TryLock(t, ttlMs, id, s, e, price, now).0)
  {
    ExpiryKeepsValid(t, now);
  }

  lemma StepKeepsValid(t: Table, ttlMs: int, c: Call)
    requires Valid(t)
    ensures Valid(Do(t, ttlMs, c))
  {
    match c
    case CTryLock(id, s, e, price, now) => LockKeepsValid(t, ttlMs, id, s, e, price, now);
    case CLiveCount(now) => ExpiryKeepsValid(t, now);
    case _ =>
  }

  /** Over every sequence of calls with arbitrary clock readings, live windows stay disjoint. */
  lemma {:induction false} RunKeepsValid(t: Table, ttlMs: int, calls: seq<Call>)
    requires Valid(t)
    ensures Valid(Run(t, ttlMs, calls))
    decreases calls
  {
    if calls != [] {
      StepKeepsValid(t, ttlMs, calls[0]);
      RunKeepsValid(Do(t, ttlMs, calls[0]), ttlMs, calls[1..]);
    }
  }

  /** The lifecycle order: held, then confirmed, then released. */
  function Stage(s: Status): nat {
    match s
    case Held => 0
    case Confirmed => 1
    case Running => 2
    case Completed => 3
    case Released => 4
  }

  /** `b` is what the entry `a` may have become: same window and price, never an earlier stage. */
  predicate Later(a: Row, b: Row) {
    && a.startsAt == b.startsAt && a.endsAt == b.endsAt && a.pricePaiseHr == b.pricePaiseHr
    && Stage(a.status) <= Stage(b.status)
  }

  predicate AllLater(t: Table, u: Table) {
    forall id | id in t :: id in u && Later(t[id], u[id])
  }

  lemma StepMovesForward(t: Table, ttlMs: int, c: Call)
    ensures AllLater(t, Do(t, ttlMs, c))
  {
  }

  /** No run loses an entry, changes a window or price, or moves a status backwards. */
  lemma {:induction false} RunMovesForward(t: Table, ttlMs: int, calls: seq<Call>)
    ensures AllLater(t, Run(t, ttlMs, calls))
    decreases calls
  {
    if calls != [] {
      var u := Do(t, ttlMs, calls[0]);
      StepMovesForward(t, ttlMs, calls[0]);
      RunMovesForward(u, ttlMs, calls[1..]);
    }
  }

  /**
   The exact grant condition: a positive window, an id never used, and no overlapping entry
   that is confirmed or held past this clock reading. Every refusal rolls back.
   */
  lemma TryLockExact(t: Table, ttlMs: int, id: Id, s: int, e: int, price: int, now: int)
    requires RowsOk(t)
    ensures var r := TryLock(t, ttlMs, id, s, e, price, now);
      && (r.1.Granted? <==>
           && s < e && id !in t
           && forall j | j in t && t[j].startsAt < e && s < t[j].endsAt ::
                t[j].status == Released || (t[j].status == Held && t[j].holdExpiresAt.value <= now))
      && (!r.1.Granted? ==> r.0 == t)
    ensures var r := TryLock(t, ttlMs, id, s, e, price, now);
      r.1.Granted? ==>
        && r.1.receipt == Receipt(id, s, e, price, now + ttlMs, now)
        && r.0 == ExpireStale(t, now)[id := Row(s, e, price, Held, Some(now + ttlMs), now)]
  {
    var swept := ExpireStale(t, now);
    forall j | j in t
      ensures Blocks(swept[j], s, e) ==
        (Overlaps(t[j], s, e) && !(t[j].status == Released || (t[j].status == Held && t[j].holdExpiresAt.value <= now)))
    {
      assert RowOk(t[j]);
    }
    if forall j | j in t && Overlaps(t[j], s, e) ::
         t[j].status == Released || (t[j].status == Held && t[j].holdExpiresAt.value <= now) {
      assert !Conflict(swept, s, e);
    }
  }

  /** A confirmed entry, or a hold that has not ended, overlaps the window. */
  predicate Contested(t: Table, s: int, e: int, now: int)
    requires RowsOk(t)
  {
    exists j | j in t && t[j].startsAt < e && s < t[j].endsAt ::
      t[j].status == Confirmed || (t[j].status == Held && now < t[j].holdExpiresAt.value)
  }

  /** Which refusal: the window first, then what is in the way, and only then the id. */
  lemma RefusalExact(t: Table, ttlMs: int, id: Id, s: int, e: int, price: int, now: int)
    requires RowsOk(t)
    ensures var o := TryLock(t, ttlMs, id, s, e, price, now).1;
      && (o.InvalidWindow? <==> e <= s)
      && (o.SlotUnavailable? <==> s < e && Contested(t, s, e, now))
      && (o.DuplicateId? <==> s < e && !Contested(t, s, e, now) && id in t)
  {
    var swept := ExpireStale(t, now);
    forall j | j in t
      ensures Blocks(swept[j], s, e) <==>
        t[j].startsAt < e && s < t[j].endsAt && (t[j].status == Confirmed || (t[j].status == Held && now < t[j].holdExpiresAt.value))
    {
      assert RowOk(t[j]);
    }
    if s < e && Conflict(swept, s, e) {
      var j :| j in swept && Blocks(swept[j], s, e);
      assert j in t;
    }
  }

  lemma GrantIsRecorded(t: Table, ttlMs: int, id: Id, s: int, e: int, price: int, now: int)
    requires TryLock(t, ttlMs, id, s, e, price, now).1.Granted?
    ensures var r := TryLock(t, ttlMs, id, s, e, price, now);
      && r.1.receipt == Receipt(id, s, e, price, now + ttlMs, now)
      && id in r.0 && r.0[id] == Row(s, e, price, Held, Some(now + ttlMs), now)
  {
  }

  predicate Releases(calls: seq<Call>, id: Id) {
    exists k | 0 <= k < |calls| :: calls[k] == CRelease(id)
  }

  /** The call at position `k` of the run is a grant. */
  predicate GrantsAt(t: Table, ttlMs: int, calls: seq<Call>, k: nat)
    requires k < |calls|
  {
    var c := calls[k];
    c.CTryLock? && TryLock(Run(t, ttlMs, calls[..k]), ttlMs, c.id, c.startsAt, c.endsAt, c.price, c.now).1.Granted?
  }

  /** Without an explicit release a committed entry is untouched by any run, whatever the clock reads. */
  lemma {:induction false} CommittedIsKept(t: Table, ttlMs: int, calls: seq<Call>, id: Id)
    requires id in t && t[id].status == Confirmed
    requires !Releases(calls, id)
    ensures id in Run(t, ttlMs, calls) && Run(t, ttlMs, calls)[id] == t[id]
    decreases calls
  {
    if calls != [] {
      var u := Do(t, ttlMs, calls[0]);
      assert calls[0] != CRelease(id);
      assert id in u && u[id] == t[id];
      assert forall k | 0 <= k < |calls[1..]| :: calls[1..][k] == calls[k + 1];
      CommittedIsKept(u, ttlMs, calls[1..], id);
    }
  }

  /** A committed slot is handed out again only after an explicit release of it. */
  lemma CommittedSlotIsExclusive(t: Table, ttlMs: int, calls: seq<Call>, id: Id, k: nat)
    requires id in t && t[id].status == Confirmed
    requires k < |calls| && GrantsAt(t, ttlMs, calls, k)
    requires Overlaps(t[id], calls[k].startsAt, calls[k].endsAt)
    ensures Releases(calls[..k], id)
  {
    if !Releases(calls[..k], id) {
      CommittedIsKept(t, ttlMs, calls[..k], id);
      var u := Run(t, ttlMs, calls[..k]);
      assert Blocks(ExpireStale(u, calls[k].now)[id], calls[k].startsAt, calls[k].endsAt);
      assert false;
    }
  }

  /** Every clock reading in the run is before `x`. */
  predicate Before(calls: seq<Call>, x: int) {
    forall k | 0 <= k < |calls| && !calls[k].CRelease? :: calls[k].now < x
  }

  /**
   The signed promise: a hold survives every run whose clock stays before `hold_expires_at` and
   that does not release it, so a commit made in time succeeds unless one already did.
   */
  lemma {:induction false} HoldIsHonoured(t: Table, ttlMs: int, calls: seq<Call>, id: Id, x: int, now: int)
    requires id in t && t[id].status == Held && t[id].holdExpiresAt == Some(x)
    requires !Releases(calls, id) && Before(calls, x) && now < x
    ensures var u := Run(t, ttlMs, calls);
      id in u && (u[id] == t[id] || u[id] == t[id].(status := Confirmed, holdExpiresAt := None))
      && Commit(u, id, now).1 == (u[id].status == Held)
    decreases calls
  {
    if calls != [] {
      var u := Do(t, ttlMs, calls[0]);
      var rest := calls[1..];
      assert calls[0] != CRelease(id);
      assert forall k | 0 <= k < |rest| :: rest[k] == calls[k + 1];
      assert !Releases(rest, id) && Before(rest, x);
      assert id in u && (u[id] == t[id] || u[id] == t[id].(status := Confirmed, holdExpiresAt := None));
      if u[id].status == Held {
        HoldIsHonoured(u, ttlMs, rest, id, x, now);
      } else {
        CommittedIsKept(u, ttlMs, rest, id);
      }
    }
  }

  /** A commit of the id made before `x`. */
  predicate CommittedBefore(calls: seq<Call>, id: Id, x: int) {
    exists k | 0 <= k < |calls| :: calls[k].CCommit? && calls[k].id == id && calls[k].now < x
  }

  /**
   The other side of the promise: whatever the clock reads in between, a hold is confirmed only
   by a commit made before its end.
   */
  lemma {:induction false} ConfirmedOnlyInTime(t: Table, ttlMs: int, calls: seq<Call>, id: Id, x: int)
    requires id in t && (t[id].status == Released || (t[id].status == Held && t[id].holdExpiresAt == Some(x)))
    requires !CommittedBefore(calls, id, x)
    ensures var u := Run(t, ttlMs, calls);
      id in u && (u[id].status == Released || u[id] == t[id])
      && forall now | x <= now :: !Commit(u, id, now).1
    decreases calls
  {
    if calls != [] {
      var u := Do(t, ttlMs, calls[0]);
      var rest := calls[1..];
      assert id in u && (u[id].status == Released || u[id] == t[id]);
      assert forall k | 0 <= k < |rest| :: rest[k] == calls[k + 1];
      ConfirmedOnlyInTime(u, ttlMs, rest, id, x);
    }
  }

  /** The call at position `k` grants the id, and a later one commits it before that hold ends. */
  predicate TakenInTime(t: Table, ttlMs: int, calls: seq<Call>, id: Id, k: nat) {
    && k < |calls| && calls[k].CTryLock? && calls[k].id == id && GrantsAt(t, ttlMs, calls, k)
    && CommittedBefore(calls[k + 1..], id, calls[k].now + ttlMs)
  }

  lemma TakenLater(t: Table, ttlMs: int, calls: seq<Call>, id: Id, k: nat)
    requires calls != [] && TakenInTime(Do(t, ttlMs, calls[0]), ttlMs, calls[1..], id, k)
    ensures TakenInTime(t, ttlMs, calls, id, k + 1)
  {
    var rest := calls[1..];
    assert calls[..k + 1][1..] == rest[..k] && calls[k + 1 + 1..] == rest[k + 1..];
    assert Run(t, ttlMs, calls[..k + 1]) == Run(Do(t, ttlMs, calls[0]), ttlMs, rest[..k]);
  }

  /** So every confirmed entry was granted, and then committed before the end of the hold that the grant gave it. */
  lemma {:induction false} ConfirmedWithinTheHold(t: Table, ttlMs: int, calls: seq<Call>, id: Id)
    requires id !in t && id in Run(t, ttlMs, calls) && Run(t, ttlMs, calls)[id].status == Confirmed
    ensures exists k: nat :: TakenInTime(t, ttlMs, calls, id, k)
    decreases calls
  {
    if calls != [] {
      var u := Do(t, ttlMs, calls[0]);
      var rest := calls[1..];
      if id in u {
        assert calls[..0] == [] && GrantsAt(t, ttlMs, calls, 0);
        if !CommittedBefore(calls[0 + 1..], id, calls[0].now + ttlMs) {
          ConfirmedOnlyInTime(u, ttlMs, rest, id, calls[0].now + ttlMs);
        }
        assert TakenInTime(t, ttlMs, calls, id, 0);
      } else {
        ConfirmedWithinTheHold(u, ttlMs, rest, id);
        var k: nat :| TakenInTime(u, ttlMs, rest, id, k);
        TakenLater(t, ttlMs, calls, id, k);
      }
    }
  }
}

module ReservationStoreImpl {
  import opened Options
  import opened NodeLedger

  /** One SQLite file. A transaction is one method call; the clock reading is a parameter. */
  class ReservationStore {
    var table: Table
    const holdTtlMs: int

    constructor (holdTtlSeconds: int)
      ensures table == map[] && holdTtlMs == holdTtlSeconds * 1000
      ensures NodeLedger.Valid(table)
    {
      table := map[];
      holdTtlMs := holdTtlSeconds * 1000;
    }

    method ExpireStaleInPlace(now: int)
      modifies this`table
      ensures table == NodeLedger.ExpireStale(old(table), now)
    {
      // One UPDATE statement over the whole table.
      table := map id | id in table ::
        if table[id].status == Held && table[id].holdExpiresAt.Some? && table[id].holdExpiresAt.value <= now
        then table[id].(status := Released) else table[id];
    }

    method TryLock(id: Id, startsAt: int, endsAt: int, price: int, now: int) returns (outcome: LockOutcome)
      modifies this`table
      ensures (table, outcome) == NodeLedger.TryLock(old(table), holdTtlMs, id, startsAt, endsAt, price, now)
    {
      if endsAt <= startsAt {
        return InvalidWindow;
      }
      var begin := table;                       // BEGIN IMMEDIATE
      ExpireStaleInPlace(now);
      if exists other | other in table :: Blocks(table[other], startsAt, endsAt) {
        table := begin;                         // ROLLBACK
        return SlotUnavailable;
      }
      if id in table {                          // PRIMARY KEY violation
        table := begin;
        return DuplicateId;
      }
      var holdExpires := now + holdTtlMs;
      table := table[id := Row(startsAt, endsAt, price, Held, Some(holdExpires), now)];
      outcome := Granted(Receipt(id, startsAt, endsAt, price, holdExpires, now));
    }

    method Commit(id: Id, now: int) returns (ok: bool)
      modifies this`table
      ensures (table, ok) == NodeLedger.Commit(old(table), id, now)
    {
      if id !in table || table[id].status != Held
         || (table[id].holdExpiresAt.Some? && table[id].holdExpiresAt.value <= now) {
        return false;
      }
      table := table[id := table[id].(status := Confirmed, holdExpiresAt := None)];
      ok := true;
    }

    method Release(id: Id)
      modifies this`table
      ensures table == NodeLedger.Release(old(table), id)
    {
      if id in table {
        table := table[id := table[id].(status := Released)];
      }
    }

    method StatusOf(id: Id) returns (status: Option<Status>)
      ensures status == NodeLedger.StatusOf(table, id)
    {
      status := if id in table then Some(table[id].status) else None;
    }

    method LiveCount(now: int) returns (count: nat)
      modifies this`table
      ensures table == NodeLedger.ExpireStale(old(table), now)
      ensures count == |set id | id in old(table) && Live(old(table)[id]) && !Stale(old(table)[id], now)|
    {
      ExpireStaleInPlace(now);
      var live := set id | id in table && Live(table[id]);
      assert live == set id | id in old(table) && Live(old(table)[id]) && !Stale(old(table)[id], now);
      count := |live|;
    }
  }
}
