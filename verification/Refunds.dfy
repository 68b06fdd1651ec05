/**
 Compensating refunds and their retry queue (backend/src/payments/refunds.js), with each handler
 running from its start to its end. RefundTasks interleaves handlers at every await.
 */
module Refunds {
  type PaymentId = nat

  const BASE_DELAY_MS := 60000
  const MAX_DELAY_MS := 3600000
  const MAX_ATTEMPTS := 10
  const BATCH := 20

  function Pow2(n: nat): nat {
    if n == 0 then 1 else 2 * Pow2(n - 1)
  }

  function BackoffMs(attempts: nat): int {
    var d := BASE_DELAY_MS * Pow2(attempts);
    if d < MAX_DELAY_MS then d else MAX_DELAY_MS
  }

  datatype RetryStatus = Pending | Succeeded | Exhausted

  /** A row of refund_retries; there is at most one for each payment. */
  datatype Retry = Retry(attempts: nat, nextAttemptAt: int, status: RetryStatus)

  /**
   `refunded` holds the payments marked 'refunded'. `paid` is history: how often the gateway has
   refunded a payment, whether or not it said so.
   */
  datatype Desk = Desk(refunded: set<PaymentId>, retries: map<PaymentId, Retry>, paid: map<PaymentId, nat>)

  const NO_REFUNDS := Desk({}, map[], map[])

  /**
   How one attempt goes: the gateway does not refund; it does, but the call reports an error; it does
   and says so, but the database then reports an error, with the mark on the payment kept or not;
   or everything is recorded.
   */
  datatype Fate = Refused | ReplyLost | MarkFails(kept: bool) | Succeeds

  function Paid(d: Desk, p: PaymentId): nat {
    if p in d.paid then d.paid[p] else 0
  }

  function Pay(d: Desk, p: PaymentId): Desk {
    d.(paid := d.paid[p := Paid(d, p) + 1])
  }

  function Mark(d: Desk, p: PaymentId): Desk {
    d.(refunded := d.refunded + {p})
  }

  predicate Marks(f: Fate) {
    f.Succeeds? || (f.MarkFails? && f.kept)
  }

  /** What the gateway and the payments table see of an attempt. */
  function Charge(d: Desk, p: PaymentId, f: Fate): Desk {
    var e := if f.Refused? then d else Pay(d, p);
    if Marks(f) then Mark(e, p) else e
  }

  /** The upsert of `issueRefund`'s catch. */
  function Queue(d: Desk, p: PaymentId, now: int): Desk {
    var attempts := if p in d.retries then d.retries[p].attempts + 1 else 1;
    d.(retries := d.retries[p := Retry(attempts, now + BackoffMs(0), Pending)])
  }

  function IssueRefund(d: Desk, p: PaymentId, f: Fate, now: int): Desk {
    if f.Succeeds? then Charge(d, p, f) else Queue(Charge(d, p, f), p, now)
  }

  predicate Due(d: Desk, p: PaymentId, now: int) {
    p in d.retries && d.retries[p].status == Pending && d.retries[p].nextAttemptAt <= now
  }

  function AfterFailure(r: Retry, now: int): Retry {
    var attempts := r.attempts + 1;
    if attempts >= MAX_ATTEMPTS then r.(attempts := attempts, status := Exhausted)
    else r.(attempts := attempts, nextAttemptAt := now + BackoffMs(attempts))
  }

  function Attempt(d: Desk, p: PaymentId, f: Fate, now: int): Desk
    requires p in d.retries
  {
    var r := if f.Succeeds? then d.retries[p].(status := Succeeded) else AfterFailure(d.retries[p], now);
    Charge(d, p, f).(retries := d.retries[p := r])
  }

  /** What the sweep's query may return: the oldest due rows, ties broken freely, at most a batch. */
  ghost predicate Selected(d: Desk, rows: seq<PaymentId>, now: int) {
    && (forall i | 0 <= i < |rows| :: Due(d, rows[i], now))
    && (forall i, j | 0 <= i < j < |rows| :: rows[i] != rows[j])
    && |rows| <= BATCH
    && (forall p | Due(d, p, now) && p !in rows ::
          |rows| == BATCH && forall i | 0 <= i < |rows| :: d.retries[rows[i]].nextAttemptAt <= d.retries[p].nextAttemptAt)
  }

  function FateOf(fates: map<PaymentId, Fate>, p: PaymentId): Fate {
    if p in fates then fates[p] else Refused
  }

  /** The sweep over the selected rows, each attempt with its fate. */
  function Process(d: Desk, rows: seq<PaymentId>, fates: map<PaymentId, Fate>, now: int): Desk
    requires forall i | 0 <= i < |rows| :: rows[i] in d.retries
  {
    if rows == [] then d
    else
      var n := |rows| - 1;
      var e := Process(d, rows[..n], fates, now);
      if rows[n] in e.retries then Attempt(e, rows[n], FateOf(fates, rows[n]), now) else e
  }

  // ---------------------------------------------------------------------------------------
  // Delays and the number of attempts.
  // ---------------------------------------------------------------------------------------

  lemma {:induction false} Pow2Monotone(a: nat, b: nat)
    requires a <= b
    ensures 1 <= Pow2(a) <= Pow2(b)
  {
    if a < b {
      Pow2Monotone(a, b - 1);
    } else if a > 0 {
      Pow2Monotone(a - 1, a - 1);
    }
  }

  /** Delays never shrink and stay between one minute and one hour. */
  lemma BackoffBounds(a: nat, b: nat)
    requires a <= b
    ensures 60000 <= BackoffMs(a) <= BackoffMs(b) <= 3600000
  {
    Pow2Monotone(a, b);
  }

  /** One minute to begin with, then twice as long after every failure until the hour is reached. */
  lemma BackoffDoubles(a: nat)
    ensures BackoffMs(0) == 60000
    ensures BackoffMs(a + 1) == if 2 * BackoffMs(a) < 3600000 then 2 * BackoffMs(a) else 3600000
  {
  }

  // ---------------------------------------------------------------------------------------
  // What a sweep does to each row, and that the batch limit starves none.
  // ---------------------------------------------------------------------------------------

  /** A sweep attempts each selected row once and touches no other. */
  lemma {:induction false} ProcessEach(d: Desk, rows: seq<PaymentId>, fates: map<PaymentId, Fate>, now: int)
    requires forall i | 0 <= i < |rows| :: rows[i] in d.retries
    requires forall i, j | 0 <= i < j < |rows| :: rows[i] != rows[j]
    ensures var e := Process(d, rows, fates, now);
      && e.retries.Keys == d.retries.Keys
      && (forall p | p in d.retries :: e.retries[p] ==
            if p !in rows then d.retries[p]
            else if FateOf(fates, p).Succeeds? then d.retries[p].(status := Succeeded) else AfterFailure(d.retries[p], now))
  {
    if rows != [] {
      var n := |rows| - 1;
      ProcessEach(d, rows[..n], fates, now);
      assert rows == rows[..n] + [rows[n]];
    }
  }

  /** The last row of a batch is still as it was when the batch reaches it. */
  lemma LastAttempt(d: Desk, rows: seq<PaymentId>, fates: map<PaymentId, Fate>, now: int)
    requires rows != [] && forall i | 0 <= i < |rows| :: rows[i] in d.retries
    requires forall i, j | 0 <= i < j < |rows| :: rows[i] != rows[j]
    ensures var n := |rows| - 1;
      var e := Process(d, rows[..n], fates, now);
      rows[n] in e.retries && Process(d, rows, fates, now) == Attempt(e, rows[n], FateOf(fates, rows[n]), now)
  {
    var n := |rows| - 1;
    ProcessEach(d, rows[..n], fates, now);
  }

  lemma LastMember(rows: seq<PaymentId>)
    requires rows != [] && forall i, j | 0 <= i < j < |rows| :: rows[i] != rows[j]
    ensures var n := |rows| - 1;
      rows[n] !in rows[..n] && forall p :: p in rows <==> p in rows[..n] || p == rows[n]
  {
    assert rows == rows[..|rows| - 1] + [rows[|rows| - 1]];
  }

  /** The gateway refunds each selected row at most once, and the marks are those of the fates. */
  lemma {:induction false} ProcessPays(d: Desk, rows: seq<PaymentId>, fates: map<PaymentId, Fate>, now: int)
    requires forall i | 0 <= i < |rows| :: rows[i] in d.retries
    requires forall i, j | 0 <= i < j < |rows| :: rows[i] != rows[j]
    ensures forall p :: Paid(Process(d, rows, fates, now), p) == Paid(d, p) + if p in rows && !FateOf(fates, p).Refused? then 1 else 0
    ensures Process(d, rows, fates, now).refunded == d.refunded + set p | p in rows && Marks(FateOf(fates, p))
  {
    if rows != [] {
      var n := |rows| - 1;
      ProcessPays(d, rows[..n], fates, now);
      LastAttempt(d, rows, fates, now);
      LastMember(rows);
    }
  }

  datatype Event =
    | Issue(p: PaymentId, fate: Fate, now: int)
    | Sweep(rows: seq<PaymentId>, fates: map<PaymentId, Fate>, now: int)

  ghost predicate Possible(d: Desk, ev: Event) {
    ev.Sweep? ==> Selected(d, ev.rows, ev.now)
  }

  ghost function Apply(d: Desk, ev: Event): Desk
    requires Possible(d, ev)
  {
    match ev
    case Issue(p, ok, now) => IssueRefund(d, p, ok, now)
    case Sweep(rows, fates, now) => Process(d, rows, fates, now)
  }

  ghost predicate PossibleRun(d: Desk, evs: seq<Event>)
    decreases evs
  {
    evs != [] ==> Possible(d, evs[0]) && PossibleRun(Apply(d, evs[0]), evs[1..])
  }

  ghost function Run(d: Desk, evs: seq<Event>): Desk
    requires PossibleRun(d, evs)
    decreases evs
  {
    if evs == [] then d else Run(Apply(d, evs[0]), evs[1..])
  }

  /** The other pending rows that the query may prefer to `p`. */
  function Ahead(d: Desk, p: PaymentId): set<PaymentId>
    requires p in d.retries
  {
    set q | q in d.retries && q != p && d.retries[q].status == Pending
            && d.retries[q].nextAttemptAt <= d.retries[p].nextAttemptAt
  }

  /** A processed row is settled, or due again only after this sweep. */
  lemma ProcessedIsLater(d: Desk, rows: seq<PaymentId>, fates: map<PaymentId, Fate>, now: int, q: PaymentId)
    requires Selected(d, rows, now) && q in rows
    ensures var e := Process(d, rows, fates, now);
      q in e.retries && (e.retries[q].status != Pending || e.retries[q].nextAttemptAt > now)
  {
    ProcessEach(d, rows, fates, now);
    BackoffBounds(0, d.retries[q].attempts + 1);
  }

  function Elements(rows: seq<PaymentId>): set<PaymentId> {
    set q | q in rows
  }

  lemma {:induction false} DistinctCount(rows: seq<PaymentId>)
    requires forall i, j | 0 <= i < j < |rows| :: rows[i] != rows[j]
    ensures |Elements(rows)| == |rows|
  {
    if rows == [] {
      assert Elements(rows) == {};
    } else {
      var n := |rows| - 1;
      DistinctCount(rows[..n]);
      assert rows == rows[..n] + [rows[n]];
      assert Elements(rows) == Elements(rows[..n]) + {rows[n]};
      assert rows[n] !in Elements(rows[..n]);
    }
  }

  /** The whole batch was ahead of a due row that it passes over, and none of it is afterwards. */
  lemma BatchLeaves(d: Desk, rows: seq<PaymentId>, fates: map<PaymentId, Fate>, now: int, p: PaymentId)
    requires Selected(d, rows, now) && Due(d, p, now) && p !in rows
    ensures var e := Process(d, rows, fates, now);
      && p in e.retries && e.retries[p] == d.retries[p]
      && Elements(rows) <= Ahead(d, p) && Ahead(e, p) <= Ahead(d, p) - Elements(rows)
  {
    ProcessEach(d, rows, fates, now);
    var e := Process(d, rows, fates, now);
    forall q | q in Elements(rows) ensures q in Ahead(d, p) {
      var i :| 0 <= i < |rows| && rows[i] == q;
      assert Due(d, rows[i], now);
    }
    forall q | q in Ahead(e, p) ensures q in Ahead(d, p) && q !in Elements(rows) {
      if q in rows { ProcessedIsLater(d, rows, fates, now, q); }
    }
  }

  /** A due row that a sweep passes over sees a whole batch ahead of it disappear. */
  lemma PassedOver(d: Desk, rows: seq<PaymentId>, fates: map<PaymentId, Fate>, now: int, p: PaymentId)
    requires Selected(d, rows, now) && Due(d, p, now) && p !in rows
    ensures var e := Process(d, rows, fates, now);
      && p in e.retries && e.retries[p] == d.retries[p]
      && |Ahead(e, p)| + BATCH <= |Ahead(d, p)|
  {
    BatchLeaves(d, rows, fates, now, p);
    DistinctCount(rows);
    var e := Process(d, rows, fates, now);
    var all, rest := Ahead(d, p), Ahead(d, p) - Elements(rows);
    assert all == rest + Elements(rows) && |all| == |rest| + |Elements(rows)|;
    SubsetCount(Ahead(e, p), rest);
  }

  lemma {:induction false} SubsetCount(a: set<PaymentId>, b: set<PaymentId>)
    requires a <= b
    ensures |a| <= |b|
  {
    assert b == a + (b - a);
    assert |b| == |a| + |b - a|;
  }

  /** Every event happens after `p` is due, and none re-issues it. */
  predicate After(evs: seq<Event>, p: PaymentId, due: int) {
    forall ev | ev in evs :: ev.now >= due && (ev.Issue? ==> ev.p != p)
  }

  function Sweeps(evs: seq<Event>): nat {
    if evs == [] then 0 else Sweeps(evs[1..]) + if evs[0].Sweep? then 1 else 0
  }

  predicate AttemptedIn(evs: seq<Event>, p: PaymentId) {
    exists k | 0 <= k < |evs| :: evs[k].Sweep? && p in evs[k].rows
  }

  /** Queuing another refund puts nothing ahead of a row that is already due. */
  lemma IssueAheadOfNone(d: Desk, ev: Event, p: PaymentId)
    requires ev.Issue? && ev.p != p && p in d.retries && d.retries[p].nextAttemptAt <= ev.now
    ensures var e := Apply(d, ev);
      p in e.retries && e.retries[p] == d.retries[p] && |Ahead(e, p)| <= |Ahead(d, p)|
  {
    var e := Apply(d, ev);
    BackoffBounds(0, 0);
    assert Ahead(e, p) <= Ahead(d, p);
    SubsetCount(Ahead(e, p), Ahead(d, p));
  }

  /**
   The batch limit starves nobody: a due refund with k pending rows ahead of it is attempted by
   one of the next k/20 + 1 sweeps, whatever else is queued meanwhile.
   */
  lemma {:induction false} DueRefundIsAttempted(d: Desk, evs: seq<Event>, p: PaymentId)
    requires PossibleRun(d, evs) && p in d.retries && d.retries[p].status == Pending
    requires After(evs, p, d.retries[p].nextAttemptAt)
    requires Sweeps(evs) * BATCH > |Ahead(d, p)|
    ensures AttemptedIn(evs, p)
    decreases evs
  {
    var e := Apply(d, evs[0]);
    assert evs[0] in evs;
    if evs[0].Sweep? && p in evs[0].rows {
    } else {
      if evs[0].Issue? { IssueAheadOfNone(d, evs[0], p); }
      else { PassedOver(d, evs[0].rows, evs[0].fates, evs[0].now, p); }
      assert forall ev | ev in evs[1..] :: ev in evs;
      DueRefundIsAttempted(e, evs[1..], p);
      var k :| 0 <= k < |evs[1..]| && evs[1..][k].Sweep? && p in evs[1..][k].rows;
      assert evs[k + 1] == evs[1..][k];
    }
  }

  // ---------------------------------------------------------------------------------------
  // What the query returns.
  // ---------------------------------------------------------------------------------------

  function DueRows(d: Desk, now: int): set<PaymentId> {
    set p | p in d.retries && d.retries[p].status == Pending && d.retries[p].nextAttemptAt <= now
  }

  /** The oldest `k` due rows, or all of them. */
  ghost predicate Oldest(d: Desk, rows: seq<PaymentId>, now: int, k: nat) {
    && (forall i | 0 <= i < |rows| :: rows[i] in DueRows(d, now))
    && (forall i, j | 0 <= i < j < |rows| :: rows[i] != rows[j])
    && |rows| <= k
    && (forall p | p in DueRows(d, now) && p !in rows ::
          |rows| == k && forall i | 0 <= i < |rows| :: d.retries[rows[i]].nextAttemptAt <= d.retries[p].nextAttemptAt)
  }

  lemma {:induction false} OldestOf(d: Desk, ps: set<PaymentId>) returns (p: PaymentId)
    requires ps != {} && ps <= d.retries.Keys
    ensures p in ps && forall q | q in ps :: d.retries[p].nextAttemptAt <= d.retries[q].nextAttemptAt
    decreases ps
  {
    p :| p in ps;
    if ps != {p} {
      var q := OldestOf(d, ps - {p});
      if d.retries[q].nextAttemptAt < d.retries[p].nextAttemptAt { p := q; }
    }
  }

  lemma {:induction false} SomeOldest(d: Desk, now: int, k: nat) returns (rows: seq<PaymentId>)
    ensures Oldest(d, rows, now, k)
  {
    rows := [];
    if k > 0 {
      rows := SomeOldest(d, now, k - 1);
      var rest := DueRows(d, now) - Elements(rows);
      var fewer := rows;
      assert forall q | q in DueRows(d, now) && q !in fewer :: q in rest;
      if rest != {} {
        var p := OldestOf(d, rest);
        assert p !in fewer && p in DueRows(d, now);
        rows := fewer + [p];
        forall q | q in DueRows(d, now) && q !in rows
          ensures |rows| == k && forall i | 0 <= i < |rows| :: d.retries[rows[i]].nextAttemptAt <= d.retries[q].nextAttemptAt
        {
          assert q !in fewer && q in rest;
        }
      }
    }
  }

  /**
   The query always has an answer, which is the oldest of the due rows: all of them if there are
   at most twenty, and otherwise twenty.
   */
  lemma SelectionIsExact(d: Desk, now: int)
    ensures exists rows :: Selected(d, rows, now)
    ensures forall rows | Selected(d, rows, now) ::
      |rows| == (if |DueRows(d, now)| <= 20 then |DueRows(d, now)| else 20) && Oldest(d, rows, now, 20)
  {
    var some := SomeOldest(d, now, 20);
    assert Selected(d, some, now);
    forall rows | Selected(d, rows, now)
      ensures |rows| == (if |DueRows(d, now)| <= 20 then |DueRows(d, now)| else 20) && Oldest(d, rows, now, 20)
    {
      forall i | 0 <= i < |rows| ensures rows[i] in DueRows(d, now) { assert Due(d, rows[i], now); }
      forall p | p in DueRows(d, now) && p !in rows
        ensures |rows| == 20 && forall i | 0 <= i < |rows| :: d.retries[rows[i]].nextAttemptAt <= d.retries[p].nextAttemptAt
      {
        assert Due(d, p, now);
      }
      DistinctCount(rows);
      SubsetCount(Elements(rows), DueRows(d, now));
      if |rows| < 20 { assert Elements(rows) == DueRows(d, now); }
    }
  }

  // ---------------------------------------------------------------------------------------
  // Attempts count failures.
  // ---------------------------------------------------------------------------------------

  predicate FailsFor(ev: Event, p: PaymentId) {
    match ev
    case Issue(q, fate, _) => q == p && !fate.Succeeds?
    case Sweep(rows, fates, _) => p in rows && !FateOf(fates, p).Succeeds?
  }

  function Failures(evs: seq<Event>, p: PaymentId): nat {
    if evs == [] then 0 else (if FailsFor(evs[0], p) then 1 else 0) + Failures(evs[1..], p)
  }

  function AttemptsOf(d: Desk, p: PaymentId): nat {
    if p in d.retries then d.retries[p].attempts else 0
  }

  lemma StepCountsFailure(d: Desk, ev: Event, p: PaymentId)
    requires Possible(d, ev)
    ensures var e := Apply(d, ev);
      && AttemptsOf(e, p) == AttemptsOf(d, p) + (if FailsFor(ev, p) then 1 else 0)
      && (p in e.retries <==> p in d.retries || FailsFor(ev, p))
  {
    if ev.Sweep? {
      if p in ev.rows {
        var i :| 0 <= i < |ev.rows| && ev.rows[i] == p;
        assert Due(d, ev.rows[i], ev.now);
      }
      forall i | 0 <= i < |ev.rows| ensures ev.rows[i] in d.retries { assert Due(d, ev.rows[i], ev.now); }
      ProcessEach(d, ev.rows, ev.fates, ev.now);
    }
  }

  /**
   Over every run the attempts on record are the attempts that failed, first ones included, and a
   payment has a row in the queue if and only if one did: what goes through is never queued, and
   no failure goes unrecorded.
   */
  lemma {:induction false} AttemptsAreFailures(d: Desk, evs: seq<Event>, p: PaymentId)
    requires PossibleRun(d, evs)
    ensures AttemptsOf(Run(d, evs), p) == AttemptsOf(d, p) + Failures(evs, p)
    ensures p in Run(d, evs).retries <==> p in d.retries || Failures(evs, p) > 0
    decreases evs
  {
    if evs != [] {
      StepCountsFailure(d, evs[0], p);
      AttemptsAreFailures(Apply(d, evs[0]), evs[1..], p);
    }
  }

  /** What the payments table and the gateway say of one event. */
  lemma StepPays(d: Desk, ev: Event, p: PaymentId)
    requires Possible(d, ev)
    ensures var f := if ev.Issue? then ev.fate else FateOf(ev.fates, p);
      var tried := if ev.Issue? then ev.p == p else p in ev.rows;
      && (p in Apply(d, ev).refunded <==> p in d.refunded || (tried && Marks(f)))
      && Paid(Apply(d, ev), p) == Paid(d, p) + if tried && !f.Refused? then 1 else 0
  {
    if ev.Sweep? {
      forall i | 0 <= i < |ev.rows| ensures ev.rows[i] in d.retries { assert Due(d, ev.rows[i], ev.now); }
      ProcessPays(d, ev.rows, ev.fates, ev.now);
    }
  }

  /** No issued refund is forgotten: its payment is marked, or it has a row in the queue. */
  lemma {:induction false} NoRefundIsForgotten(d: Desk, evs: seq<Event>, p: PaymentId)
    requires PossibleRun(d, evs)
    requires p in d.refunded || p in d.retries || exists ev | ev in evs :: ev.Issue? && ev.p == p
    ensures p in Run(d, evs).refunded || p in Run(d, evs).retries
    decreases evs
  {
    if evs != [] {
      StepPays(d, evs[0], p);
      StepCountsFailure(d, evs[0], p);
      assert forall ev | ev in evs :: ev == evs[0] || ev in evs[1..];
      NoRefundIsForgotten(Apply(d, evs[0]), evs[1..], p);
    }
  }

  // ---------------------------------------------------------------------------------------
  // Every queued refund is decided.
  // ---------------------------------------------------------------------------------------

  predicate NotIssued(evs: seq<Event>, p: PaymentId) {
    forall ev | ev in evs :: ev.Issue? ==> ev.p != p
  }

  /** How many sweeps of the run select `p`. */
  function Selections(evs: seq<Event>, p: PaymentId): nat {
    if evs == [] then 0 else (if evs[0].Sweep? && p in evs[0].rows then 1 else 0) + Selections(evs[1..], p)
  }

  /** A pending row can be attempted until it has been tried ten times. */
  predicate Open(d: Desk, p: PaymentId) {
    p in d.retries && d.retries[p].status == Pending && d.retries[p].attempts < MAX_ATTEMPTS
  }

  lemma SelectedMoves(d: Desk, ev: Event, p: PaymentId)
    requires Possible(d, ev) && p in d.retries && (ev.Issue? ==> ev.p != p)
    ensures p in Apply(d, ev).retries
    ensures !(ev.Sweep? && p in ev.rows) ==> Apply(d, ev).retries[p] == d.retries[p]
    ensures ev.Sweep? && p in ev.rows ==>
      && d.retries[p].status == Pending
      && Apply(d, ev).retries[p] ==
           if FateOf(ev.fates, p).Succeeds? then d.retries[p].(status := Succeeded) else AfterFailure(d.retries[p], ev.now)
  {
    if ev.Sweep? {
      ProcessEach(d, ev.rows, ev.fates, ev.now);
      if p in ev.rows {
        var i :| 0 <= i < |ev.rows| && ev.rows[i] == p;
        assert Due(d, ev.rows[i], ev.now);
      }
    }
  }

  /** A row that is decided is never selected again. */
  lemma {:induction false} DecidedRests(d: Desk, evs: seq<Event>, p: PaymentId)
    requires PossibleRun(d, evs) && NotIssued(evs, p) && p in d.retries && d.retries[p].status != Pending
    ensures Selections(evs, p) == 0 && p in Run(d, evs).retries && Run(d, evs).retries[p] == d.retries[p]
    decreases evs
  {
    if evs != [] {
      assert evs[0] in evs && forall ev | ev in evs[1..] :: ev in evs;
      SelectedMoves(d, evs[0], p);
      DecidedRests(Apply(d, evs[0]), evs[1..], p);
    }
  }

  /**
   In any run that does not issue it again, a pending refund with `a` attempts is selected at most
   10 - a times: while it is pending every selection has counted as an attempt, it is exhausted
   exactly after the last of them, and once they are used up it is decided. A newly queued refund
   has a == 1, so nine attempts decide it.
   */
  lemma {:induction false} NineAttemptsDecide(d: Desk, evs: seq<Event>, p: PaymentId)
    requires PossibleRun(d, evs) && NotIssued(evs, p) && Open(d, p)
    ensures p in Run(d, evs).retries
    ensures var r, left := Run(d, evs).retries[p], MAX_ATTEMPTS - d.retries[p].attempts;
      && Selections(evs, p) <= left
      && (r.status == Pending ==> r.attempts == d.retries[p].attempts + Selections(evs, p) < MAX_ATTEMPTS)
      && (r.status == Exhausted ==> r.attempts == MAX_ATTEMPTS && Selections(evs, p) == left)
      && (Selections(evs, p) == left ==> r.status == Succeeded || r.status == Exhausted)
    decreases evs
  {
    if evs != [] {
      assert evs[0] in evs && forall ev | ev in evs[1..] :: ev in evs;
      SelectedMoves(d, evs[0], p);
      var e := Apply(d, evs[0]);
      if e.retries[p].status == Pending {
        NineAttemptsDecide(e, evs[1..], p);
      } else {
        DecidedRests(e, evs[1..], p);
      }
    }
  }

  lemma {:induction false} AttemptedIsSelected(evs: seq<Event>, p: PaymentId)
    requires AttemptedIn(evs, p)
    ensures Selections(evs, p) >= 1
  {
    var k :| 0 <= k < |evs| && evs[k].Sweep? && p in evs[k].rows;
    if k > 0 {
      assert evs[1..][k - 1] == evs[k];
      AttemptedIsSelected(evs[1..], p);
    }
  }

  /** One stretch of a run in which sweeps get round to `p`, if it is still pending. */
  ghost predicate GetsRound(d: Desk, evs: seq<Event>, p: PaymentId) {
    && PossibleRun(d, evs) && NotIssued(evs, p)
    && (Open(d, p) ==> After(evs, p, d.retries[p].nextAttemptAt) && Sweeps(evs) * BATCH > |Ahead(d, p)|)
  }

  ghost predicate KeepsGettingRound(d: Desk, stretches: seq<seq<Event>>, p: PaymentId)
    decreases stretches
  {
    stretches != [] ==> GetsRound(d, stretches[0], p) && KeepsGettingRound(Run(d, stretches[0]), stretches[1..], p)
  }

  ghost function RunAll(d: Desk, stretches: seq<seq<Event>>, p: PaymentId): Desk
    requires KeepsGettingRound(d, stretches, p)
    decreases stretches
  {
    if stretches == [] then d else RunAll(Run(d, stretches[0]), stretches[1..], p)
  }

  lemma {:induction false} DecidedStays(d: Desk, stretches: seq<seq<Event>>, p: PaymentId)
    requires KeepsGettingRound(d, stretches, p) && p in d.retries && d.retries[p].status != Pending
    ensures p in RunAll(d, stretches, p).retries && RunAll(d, stretches, p).retries[p].status != Pending
    decreases stretches
  {
    if stretches != [] {
      DecidedRests(d, stretches[0], p);
      DecidedStays(Run(d, stretches[0]), stretches[1..], p);
    }
  }

  /**
   Every queued refund is decided: if sweeps keep coming while others queue theirs, then after as
   many stretches as it has attempts left, each with more sweeps than a twentieth of the rows
   ahead of it once it is due, it has succeeded or is exhausted.
   */
  lemma {:induction false} QueuedRefundIsDecided(d: Desk, stretches: seq<seq<Event>>, p: PaymentId)
    requires KeepsGettingRound(d, stretches, p) && Open(d, p) && |stretches| >= MAX_ATTEMPTS - d.retries[p].attempts
    ensures p in RunAll(d, stretches, p).retries && RunAll(d, stretches, p).retries[p].status != Pending
    decreases stretches
  {
    var evs, e := stretches[0], Run(d, stretches[0]);
    DueRefundIsAttempted(d, evs, p);
    AttemptedIsSelected(evs, p);
    NineAttemptsDecide(d, evs, p);
    if e.retries[p].status == Pending {
      QueuedRefundIsDecided(e, stretches[1..], p);
    } else {
      DecidedStays(e, stretches[1..], p);
    }
  }
}

module RefundsImpl {
  import opened Refunds

  class RefundDesk {
    var refunded: set<PaymentId>
    var retries: map<PaymentId, Retry>
    ghost var paid: map<PaymentId, nat>

    ghost function State(): Desk
      reads this
    {
      Desk(refunded, retries, paid)
    }

    constructor ()
      ensures State() == NO_REFUNDS
    {
      refunded, retries, paid := {}, map[], map[];
    }

    method IssueRefund(p: PaymentId, fate: Fate, now: int)
      modifies this
      ensures State() == Refunds.IssueRefund(old(State()), p, fate, now)
    {
      var failed := CallAndMark(p, fate);
      if failed {
        var attempts := if p in retries then retries[p].attempts + 1 else 1;
        retries := retries[p := Retry(attempts, now + BackoffMs(0), Pending)];
      }
    }

    /** The gateway call and the UPDATE of the payment, up to the catch. */
    method CallAndMark(p: PaymentId, fate: Fate) returns (failed: bool)
      modifies this`refunded, this`paid
      ensures State() == Charge(old(State()), p, fate) && failed == !fate.Succeeds?
    {
      if fate.Refused? {
        return true;
      }
      paid := paid[p := Paid(State(), p) + 1];
      if fate.ReplyLost? {
        return true;
      }
      if Marks(fate) {
        refunded := refunded + {p};
      }
      return !fate.Succeeds?;
    }

    /** `rows` is what the query returned. */
    method ProcessRefundRetries(rows: seq<PaymentId>, fates: map<PaymentId, Fate>, now: int) returns (processed: nat)
      requires Selected(State(), rows, now)
      modifies this
      ensures State() == Process(old(State()), rows, fates, now) && processed == |rows|
    {
      for i := 0 to |rows|
        invariant State() == Process(old(State()), rows[..i], fates, now)
        invariant retries.Keys == old(retries).Keys
        invariant forall k | i <= k < |rows| :: retries[rows[k]] == old(retries)[rows[k]]
      {
        assert rows[..i + 1][..i] == rows[..i];
        AttemptOne(rows[i], FateOf(fates, rows[i]), now);
      }
      assert rows[..|rows|] == rows;
      processed := |rows|;
    }

    method AttemptOne(p: PaymentId, fate: Fate, now: int)
      requires p in retries
      modifies this
      ensures State() == Attempt(old(State()), p, fate, now)
    {
      var row := retries[p];
      var failed := CallAndMark(p, fate);
      if !failed {
        retries := retries[p := row.(status := Succeeded)];
      } else {
        var attempts := row.attempts + 1;
        if attempts >= MAX_ATTEMPTS {
          retries := retries[p := row.(attempts := attempts, status := Exhausted)];
        } else {
          retries := retries[p := row.(attempts := attempts, nextAttemptAt := now + BackoffMs(attempts))];
        }
      }
    }
  }
}
