/** Concrete runs, one for each way in which a reply can fail to match or a confirm to be timely. */
module ProtocolExamples {
  import opened Options
  import opened Machine
  import opened Protocol
  import L = NodeLedger

  ghost predicate Reaches(rules: Rules, s: Sys, u: Sys) {
    exists evs :: ObeysAll(rules, s, evs) && Run(s, evs) == u
  }

  predicate Goes(rules: Rules, s: Sys, ev: Event, u: Sys) {
    Obeys(rules, s, ev) && Apply(s, ev) == u
  }

  lemma Here(rules: Rules, s: Sys)
    ensures Reaches(rules, s, s)
  {
    assert ObeysAll(rules, s, []) && Run(s, []) == s;
  }

  lemma Via(rules: Rules, s: Sys, ev: Event, u: Sys, w: Sys)
    requires Goes(rules, s, ev, u) && Reaches(rules, u, w)
    ensures Reaches(rules, s, w)
  {
    var rest :| ObeysAll(rules, u, rest) && Run(u, rest) == w;
    assert ([ev] + rest)[1..] == rest;
    assert ObeysAll(rules, s, [ev] + rest) && Run(s, [ev] + rest) == w;
  }

  const NODE_HELD := L.Row(0, 10, 5, L.Held, Some(120), 0)
  const NODE_TAKEN := L.Row(0, 10, 5, L.Confirmed, None, 0)
  const NODE_FREED := L.Row(0, 10, 5, L.Released, None, 0)
  const ROW_HELD := Row(0, 10, Held, 120, false, false)
  const ROW_EXPIRED := Row(0, 10, Expired, 120, false, false)
  const ROW_STAMPED := Row(0, 10, Expired, 120, false, true)
  const RECEIPT := L.Receipt(7, 0, 10, 5, 120, 0)
  const PAYING := Confirm(7, Got(Committed(7)))
  const TAKEN_REPLY := StatusReply(7, Some(L.Confirmed))

  /** Reservation 7 of window [0,10) on a connected node of price 5 with a hold of 120. */
  function At(node: L.Row, row: Row, tasks: map<TaskId, Task>, pending: map<Id, TaskId>,
              down: seq<Request>, up: seq<Reply>, commits: set<Id>, releases: set<Id>): Sys {
    Sys(map[7 := node], 5, 120, map[7 := row], tasks, pending, down, up, true, commits, releases)
  }

  // ---- Booking: held by platform and node, nothing in flight.

  const START := Init(5, 120)
  const LINKED := START.(connected := true)
  const ASKED := LINKED.(tasks := map[0 := Booking(7, 0, 10, 5, Awaiting)], pending := map[7 := 0], down := [ReserveRequest(7, 0, 10)])
  const LOCKED := ASKED.(node := map[7 := NODE_HELD], down := [], up := [ReceiptReply(7, RECEIPT)])
  const SIGNED := LOCKED.(up := [], pending := map[], tasks := map[0 := Booking(7, 0, 10, 5, Got(ReceiptReply(7, RECEIPT)))])
  const BOOKED := At(NODE_HELD, ROW_HELD, map[], map[], [], [], {}, {})
  const PAYABLE := At(NODE_HELD, ROW_HELD, map[1 := Confirm(7, Ready)], map[], [], [], {}, {})
  const COMMITTING := At(NODE_HELD, ROW_HELD, map[1 := Confirm(7, Awaiting)], map[7 := 1], [ReserveCommit(7)], [], {}, {})

  lemma Connects(rules: Rules)
    ensures Goes(rules, START, Connect, LINKED)
  {
  }

  lemma Books(rules: Rules)
    ensures Goes(rules, LINKED, Book(0, 7, 0, 10, 5), ASKED)
  {
  }

  lemma Locks(rules: Rules)
    ensures Goes(rules, ASKED, NodeStep(0), LOCKED)
  {
  }

  lemma Signs(rules: Rules)
    ensures Goes(rules, LOCKED, Receive, SIGNED)
  {
  }

  lemma Holds(rules: Rules)
    ensures Goes(rules, SIGNED, FinishBooking(0, 0), BOOKED)
  {
  }

  lemma Pays(rules: Rules)
    ensures Goes(rules, BOOKED, StartConfirm(1, 7), PAYABLE)
  {
  }

  lemma Commits(rules: Rules)
    ensures Goes(rules, PAYABLE, SendCommit(1), COMMITTING)
  {
  }

  lemma FromPayable(rules: Rules, w: Sys)
    requires Reaches(rules, PAYABLE, w)
    ensures Reaches(rules, Init(5, 120), w)
  {
    Pays(rules);
    Via(rules, BOOKED, StartConfirm(1, 7), PAYABLE, w);
    Holds(rules);
    Via(rules, SIGNED, FinishBooking(0, 0), BOOKED, w);
    Signs(rules);
    Via(rules, LOCKED, Receive, SIGNED, w);
    Locks(rules);
    Via(rules, ASKED, NodeStep(0), LOCKED, w);
    Books(rules);
    Via(rules, LINKED, Book(0, 7, 0, 10, 5), ASKED, w);
    Connects(rules);
    Via(rules, START, Connect, LINKED, w);
  }

  lemma FromCommitting(rules: Rules, w: Sys)
    requires Reaches(rules, COMMITTING, w)
    ensures Reaches(rules, Init(5, 120), w)
  {
    Commits(rules);
    Via(rules, PAYABLE, SendCommit(1), COMMITTING, w);
    FromPayable(rules, w);
  }

  // ---- The reconciler finds the node confirmed for an expired row, and makes it let go.

  /** One conversation at a time, matching replies, and no recheck before a confirm acts. */
  const NO_RECHECK := Rules(true, false, false, true)

  /** The node is confirmed for the row; other handlers are at `tasks`, the reconciler's at 2. */
  function Taken(row: Row, tasks: map<TaskId, Task>, pending: map<Id, TaskId>, down: seq<Request>, up: seq<Reply>): Sys {
    At(NODE_TAKEN, row, tasks, pending, down, up, {7}, {})
  }

  function Freed(row: Row, tasks: map<TaskId, Task>, pending: map<Id, TaskId>, up: seq<Reply>): Sys {
    At(NODE_FREED, row, tasks, pending, [], up, {7}, {7})
  }

  predicate Unvisited(row: Row, tasks: map<TaskId, Task>) {
    row.status == Expired && !row.reconciled && 2 !in tasks
  }

  lemma Selects(row: Row, tasks: map<TaskId, Task>)
    requires Unvisited(row, tasks)
    ensures Goes(NO_RECHECK, Taken(row, tasks, map[], [], []), SelectMismatch(2, 7), Taken(row, tasks[2 := Query(7, Ready)], map[], [], []))
  {
  }

  lemma Queries(row: Row, tasks: map<TaskId, Task>)
    requires Unvisited(row, tasks)
    ensures Goes(NO_RECHECK, Taken(row, tasks[2 := Query(7, Ready)], map[], [], []), SendQuery(2), Taken(row, tasks[2 := Query(7, Awaiting)], map[7 := 2], [StatusQuery(7)], []))
  {
    assert tasks[2 := Query(7, Ready)][2 := Query(7, Awaiting)] == tasks[2 := Query(7, Awaiting)];
  }

  lemma Reports(row: Row, tasks: map<TaskId, Task>)
    requires Unvisited(row, tasks)
    ensures Goes(NO_RECHECK, Taken(row, tasks[2 := Query(7, Awaiting)], map[7 := 2], [StatusQuery(7)], []), NodeStep(1000), Taken(row, tasks[2 := Query(7, Awaiting)], map[7 := 2], [], [TAKEN_REPLY]))
  {
  }

  lemma Learns(row: Row, tasks: map<TaskId, Task>)
    requires Unvisited(row, tasks)
    ensures Goes(NO_RECHECK, Taken(row, tasks[2 := Query(7, Awaiting)], map[7 := 2], [], [TAKEN_REPLY]), Receive, Taken(row, tasks[2 := Query(7, Got(TAKEN_REPLY))], map[], [], []))
  {
    assert tasks[2 := Query(7, Awaiting)][2 := Query(7, Got(TAKEN_REPLY))] == tasks[2 := Query(7, Got(TAKEN_REPLY))];
  }

  lemma Objects(row: Row, tasks: map<TaskId, Task>)
    requires Unvisited(row, tasks)
    ensures Goes(NO_RECHECK, Taken(row, tasks[2 := Query(7, Got(TAKEN_REPLY))], map[], [], []), FinishQuery(2), Taken(row, tasks[2 := Releasing(7, Awaiting)], map[7 := 2], [ReserveRelease(7)], []))
  {
    assert tasks[2 := Query(7, Got(TAKEN_REPLY))][2 := Releasing(7, Awaiting)] == tasks[2 := Releasing(7, Awaiting)];
  }

  lemma LetsGo(row: Row, tasks: map<TaskId, Task>)
    requires Unvisited(row, tasks)
    ensures Goes(NO_RECHECK, Taken(row, tasks[2 := Releasing(7, Awaiting)], map[7 := 2], [ReserveRelease(7)], []), NodeStep(1000), Freed(row, tasks[2 := Releasing(7, Awaiting)], map[7 := 2], [ReleaseAck(7)]))
  {
  }

  lemma Hears(row: Row, tasks: map<TaskId, Task>)
    requires Unvisited(row, tasks)
    ensures Goes(NO_RECHECK, Freed(row, tasks[2 := Releasing(7, Awaiting)], map[7 := 2], [ReleaseAck(7)]), Receive, Freed(row, tasks[2 := Releasing(7, Got(ReleaseAck(7)))], map[], []))
  {
    assert tasks[2 := Releasing(7, Awaiting)][2 := Releasing(7, Got(ReleaseAck(7)))] == tasks[2 := Releasing(7, Got(ReleaseAck(7)))];
  }

  lemma Stamps(row: Row, tasks: map<TaskId, Task>)
    requires Unvisited(row, tasks)
    ensures Goes(NO_RECHECK, Freed(row, tasks[2 := Releasing(7, Got(ReleaseAck(7)))], map[], []), FinishRelease(2), Freed(row.(reconciled := true), tasks, map[], []))
  {
    assert tasks[2 := Releasing(7, Got(ReleaseAck(7)))] - {2} == tasks;
  }

  lemma ReconcilerFrees(row: Row, tasks: map<TaskId, Task>, w: Sys)
    requires Unvisited(row, tasks) && Reaches(NO_RECHECK, Freed(row.(reconciled := true), tasks, map[], []), w)
    ensures Reaches(NO_RECHECK, Taken(row, tasks, map[], [], []), w)
  {
    Stamps(row, tasks);
    Via(NO_RECHECK, Freed(row, tasks[2 := Releasing(7, Got(ReleaseAck(7)))], map[], []), FinishRelease(2),
        Freed(row.(reconciled := true), tasks, map[], []), w);
    Hears(row, tasks);
    Via(NO_RECHECK, Freed(row, tasks[2 := Releasing(7, Awaiting)], map[7 := 2], [ReleaseAck(7)]), Receive,
        Freed(row, tasks[2 := Releasing(7, Got(ReleaseAck(7)))], map[], []), w);
    LetsGo(row, tasks);
    Via(NO_RECHECK, Taken(row, tasks[2 := Releasing(7, Awaiting)], map[7 := 2], [ReserveRelease(7)], []), NodeStep(1000),
        Freed(row, tasks[2 := Releasing(7, Awaiting)], map[7 := 2], [ReleaseAck(7)]), w);
    Objects(row, tasks);
    Via(NO_RECHECK, Taken(row, tasks[2 := Query(7, Got(TAKEN_REPLY))], map[], [], []), FinishQuery(2),
        Taken(row, tasks[2 := Releasing(7, Awaiting)], map[7 := 2], [ReserveRelease(7)], []), w);
    Learns(row, tasks);
    Via(NO_RECHECK, Taken(row, tasks[2 := Query(7, Awaiting)], map[7 := 2], [], [TAKEN_REPLY]), Receive,
        Taken(row, tasks[2 := Query(7, Got(TAKEN_REPLY))], map[], [], []), w);
    Reports(row, tasks);
    Via(NO_RECHECK, Taken(row, tasks[2 := Query(7, Awaiting)], map[7 := 2], [StatusQuery(7)], []), NodeStep(1000),
        Taken(row, tasks[2 := Query(7, Awaiting)], map[7 := 2], [], [TAKEN_REPLY]), w);
    Queries(row, tasks);
    Via(NO_RECHECK, Taken(row, tasks[2 := Query(7, Ready)], map[], [], []), SendQuery(2),
        Taken(row, tasks[2 := Query(7, Awaiting)], map[7 := 2], [StatusQuery(7)], []), w);
    Selects(row, tasks);
    Via(NO_RECHECK, Taken(row, tasks, map[], [], []), SelectMismatch(2, 7),
        Taken(row, tasks[2 := Query(7, Ready)], map[], [], []), w);
  }

  // ---- Charged but not reserved: sweep and reconciler act before the acknowledged confirm writes.

  const APPLIED := Taken(ROW_HELD, map[1 := Confirm(7, Awaiting)], map[7 := 1], [], [Committed(7)])
  const PAID := Taken(ROW_HELD, map[1 := PAYING], map[], [], [])
  const SWEPT := Taken(ROW_EXPIRED, map[1 := PAYING], map[], [], [])
  const STAMPED := Freed(ROW_STAMPED, map[1 := PAYING], map[], [])
  const CHARGED := Freed(Row(0, 10, Confirmed, 120, true, true), map[], map[], [])

  lemma Confirms()
    ensures Goes(NO_RECHECK, COMMITTING, NodeStep(50), APPLIED)
  {
  }

  lemma Acknowledged()
    ensures Goes(NO_RECHECK, APPLIED, Receive, PAID)
  {
  }

  lemma Sweeps()
    ensures Goes(NO_RECHECK, PAID, Sweep(1000), SWEPT)
  {
  }

  lemma Captures()
    ensures Goes(NO_RECHECK, STAMPED, FinishConfirm(1), CHARGED)
  {
  }

  lemma SweptWhilePaid(w: Sys)
    requires Reaches(NO_RECHECK, SWEPT, w)
    ensures Reaches(NO_RECHECK, COMMITTING, w)
  {
    Sweeps();
    Via(NO_RECHECK, PAID, Sweep(1000), SWEPT, w);
    Acknowledged();
    Via(NO_RECHECK, APPLIED, Receive, PAID, w);
    Confirms();
    Via(NO_RECHECK, COMMITTING, NodeStep(50), APPLIED, w);
  }

  /**
   Without the status recheck, one conversation at a time with matching replies is not enough: a
   run ends with money captured for a slot that the node has released and grants to the next
   request for the same window.
   */
  lemma UnguardedCaptureLosesTheSlot()
    ensures Reaches(NO_RECHECK, Init(5, 120), CHARGED)
    ensures CHARGED.rows[7].captured && CHARGED.node[7].status == L.Released
    ensures L.TryLock(CHARGED.node, 120, 8, 0, 10, 5, 1000).1.Granted?
  {
    Here(NO_RECHECK, CHARGED);
    Captures();
    Via(NO_RECHECK, STAMPED, FinishConfirm(1), CHARGED, CHARGED);
    ReconcilerFrees(ROW_EXPIRED, map[1 := PAYING], CHARGED);
    SweptWhilePaid(CHARGED);
    FromCommitting(NO_RECHECK, CHARGED);
    assert !L.Conflict(L.ExpireStale(CHARGED.node, 1000), 0, 10);
  }

  // ---- Two confirms of one held row: the second fails, and expires what the first has captured.

  const ROW_CAPTURED := Row(0, 10, Confirmed, 120, true, false)
  const ROW_OVERWRITTEN := Row(0, 10, Expired, 120, true, false)
  const WAITING := Confirm(7, Ready)

  const TWICE := At(NODE_HELD, ROW_HELD, map[1 := WAITING, 3 := WAITING], map[], [], [], {}, {})
  const FIRST_SENDS := At(NODE_HELD, ROW_HELD, map[1 := Confirm(7, Awaiting), 3 := WAITING], map[7 := 1], [ReserveCommit(7)], [], {}, {})
  const FIRST_APPLIED := Taken(ROW_HELD, map[1 := Confirm(7, Awaiting), 3 := WAITING], map[7 := 1], [], [Committed(7)])
  const FIRST_PAID := Taken(ROW_HELD, map[1 := PAYING, 3 := WAITING], map[], [], [])
  const FIRST_DONE := Taken(ROW_CAPTURED, map[3 := WAITING], map[], [], [])
  const CUT_OFF := FIRST_DONE.(connected := false)
  const SECOND_FAILS := CUT_OFF.(tasks := map[3 := Confirm(7, Failed)])
  const OVERWRITTEN := CUT_OFF.(rows := map[7 := ROW_OVERWRITTEN], tasks := map[])
  const BACK := Taken(ROW_OVERWRITTEN, map[], map[], [], [])
  const LOST := Freed(Row(0, 10, Expired, 120, true, true), map[], map[], [])

  lemma PaysAgain()
    ensures Goes(NO_RECHECK, PAYABLE, StartConfirm(3, 7), TWICE)
  {
  }

  lemma FirstSends()
    ensures Goes(NO_RECHECK, TWICE, SendCommit(1), FIRST_SENDS)
  {
  }

  lemma FirstIsApplied()
    ensures Goes(NO_RECHECK, FIRST_SENDS, NodeStep(50), FIRST_APPLIED)
  {
  }

  lemma FirstIsPaid()
    ensures Goes(NO_RECHECK, FIRST_APPLIED, Receive, FIRST_PAID)
  {
  }

  lemma FirstIsDone()
    ensures Goes(NO_RECHECK, FIRST_PAID, FinishConfirm(1), FIRST_DONE)
  {
  }

  lemma LinkDrops()
    ensures Goes(NO_RECHECK, FIRST_DONE, Disconnect, CUT_OFF)
  {
  }

  lemma SecondFails()
    ensures Goes(NO_RECHECK, CUT_OFF, SendCommit(3), SECOND_FAILS)
  {
  }

  lemma SecondExpires()
    ensures Goes(NO_RECHECK, SECOND_FAILS, FinishConfirm(3), OVERWRITTEN)
  {
  }

  lemma LinkReturns()
    ensures Goes(NO_RECHECK, OVERWRITTEN, Connect, BACK)
  {
  }

  lemma FirstCaptures(w: Sys)
    requires Reaches(NO_RECHECK, FIRST_DONE, w)
    ensures Reaches(NO_RECHECK, TWICE, w)
  {
    FirstIsDone();
    Via(NO_RECHECK, FIRST_PAID, FinishConfirm(1), FIRST_DONE, w);
    FirstIsPaid();
    Via(NO_RECHECK, FIRST_APPLIED, Receive, FIRST_PAID, w);
    FirstIsApplied();
    Via(NO_RECHECK, FIRST_SENDS, NodeStep(50), FIRST_APPLIED, w);
    FirstSends();
    Via(NO_RECHECK, TWICE, SendCommit(1), FIRST_SENDS, w);
  }

  lemma SecondOverwrites(w: Sys)
    requires Reaches(NO_RECHECK, BACK, w)
    ensures Reaches(NO_RECHECK, FIRST_DONE, w)
  {
    LinkReturns();
    Via(NO_RECHECK, OVERWRITTEN, Connect, BACK, w);
    SecondExpires();
    Via(NO_RECHECK, SECOND_FAILS, FinishConfirm(3), OVERWRITTEN, w);
    SecondFails();
    Via(NO_RECHECK, CUT_OFF, SendCommit(3), SECOND_FAILS, w);
    LinkDrops();
    Via(NO_RECHECK, FIRST_DONE, Disconnect, CUT_OFF, w);
  }

  lemma FromTwice(w: Sys)
    requires Reaches(NO_RECHECK, TWICE, w)
    ensures Reaches(NO_RECHECK, Init(5, 120), w)
  {
    PaysAgain();
    Via(NO_RECHECK, PAYABLE, StartConfirm(3, 7), TWICE, w);
    FromPayable(NO_RECHECK, w);
  }

  /**
   The write of 'expired' does not recheck either. A second confirm that finds the node offline
   expires the row that the first has captured, and the reconciler then makes the node let the
   paid slot go.
   */
  lemma FailedConfirmExpiresACapturedRow()
    ensures Reaches(NO_RECHECK, Init(5, 120), BACK) && Reaches(NO_RECHECK, Init(5, 120), LOST)
    ensures BACK.rows[7].captured && BACK.rows[7].status == Expired && BACK.node[7].status == L.Confirmed
    ensures LOST.rows[7].captured && LOST.node[7].status == L.Released
  {
    Here(NO_RECHECK, BACK);
    SecondOverwrites(BACK);
    FirstCaptures(BACK);
    FromTwice(BACK);
    Here(NO_RECHECK, LOST);
    ReconcilerFrees(ROW_OVERWRITTEN, map[], LOST);
    SecondOverwrites(LOST);
    FirstCaptures(LOST);
    FromTwice(LOST);
  }

  // ---- A commit sent behind the reconciler's back confirms a slot that is already stamped.

  const HELD_REPLY := StatusReply(7, Some(L.Held))

  /** The hold is still running on the node; the row was expired by a confirm that failed. */
  function Holding(row: Row, query: map<TaskId, Task>, pending: map<Id, TaskId>, down: seq<Request>, up: seq<Reply>): Sys {
    At(NODE_HELD, row, map[1 := WAITING] + query, pending, down, up, {}, {})
  }

  const AWAY := TWICE.(connected := false)
  const AWAY_FAILS := AWAY.(tasks := map[1 := WAITING, 3 := Confirm(7, Failed)])
  const AWAY_EXPIRED := Holding(ROW_EXPIRED, map[], map[], [], []).(connected := false)
  const RETURNED := Holding(ROW_EXPIRED, map[], map[], [], [])
  const CHECKING := Holding(ROW_EXPIRED, map[2 := Query(7, Ready)], map[], [], [])
  const CHECK_SENT := Holding(ROW_EXPIRED, map[2 := Query(7, Awaiting)], map[7 := 2], [StatusQuery(7)], [])
  const CHECK_ANSWERED := Holding(ROW_EXPIRED, map[2 := Query(7, Awaiting)], map[7 := 2], [], [HELD_REPLY])
  const CHECKED := Holding(ROW_EXPIRED, map[2 := Query(7, Got(HELD_REPLY))], map[], [], [])
  const DISMISSED := Holding(ROW_STAMPED, map[], map[], [], [])
  const LATE_COMMIT := At(NODE_HELD, ROW_STAMPED, map[1 := Confirm(7, Awaiting)], map[7 := 1], [ReserveCommit(7)], [], {}, {})
  const RETAKEN := Taken(ROW_STAMPED, map[1 := Confirm(7, Awaiting)], map[7 := 1], [], [Committed(7)])

  lemma LinkIsLost()
    ensures Goes(NO_RECHECK, TWICE, Disconnect, AWAY)
  {
  }

  lemma OneFails()
    ensures Goes(NO_RECHECK, AWAY, SendCommit(3), AWAY_FAILS)
  {
  }

  lemma OneExpires()
    ensures Goes(NO_RECHECK, AWAY_FAILS, FinishConfirm(3), AWAY_EXPIRED)
  {
  }

  lemma LinkIsBack()
    ensures Goes(NO_RECHECK, AWAY_EXPIRED, Connect, RETURNED)
  {
  }

  lemma CheckStarts()
    ensures Goes(NO_RECHECK, RETURNED, SelectMismatch(2, 7), CHECKING)
  {
  }

  lemma CheckIsSent()
    ensures Goes(NO_RECHECK, CHECKING, SendQuery(2), CHECK_SENT)
  {
  }

  lemma CheckIsAnswered()
    ensures Goes(NO_RECHECK, CHECK_SENT, NodeStep(40), CHECK_ANSWERED)
  {
  }

  lemma CheckIsRead()
    ensures Goes(NO_RECHECK, CHECK_ANSWERED, Receive, CHECKED)
  {
  }

  lemma CheckStamps()
    ensures Goes(NO_RECHECK, CHECKED, FinishQuery(2), DISMISSED)
  {
  }

  lemma OtherSends()
    ensures Goes(NO_RECHECK, DISMISSED, SendCommit(1), LATE_COMMIT)
  {
  }

  lemma OtherIsApplied()
    ensures Goes(NO_RECHECK, LATE_COMMIT, NodeStep(50), RETAKEN)
  {
  }

  lemma OneConfirmFails(w: Sys)
    requires Reaches(NO_RECHECK, RETURNED, w)
    ensures Reaches(NO_RECHECK, TWICE, w)
  {
    LinkIsBack();
    Via(NO_RECHECK, AWAY_EXPIRED, Connect, RETURNED, w);
    OneExpires();
    Via(NO_RECHECK, AWAY_FAILS, FinishConfirm(3), AWAY_EXPIRED, w);
    OneFails();
    Via(NO_RECHECK, AWAY, SendCommit(3), AWAY_FAILS, w);
    LinkIsLost();
    Via(NO_RECHECK, TWICE, Disconnect, AWAY, w);
  }

  lemma ReconcilerDismisses(w: Sys)
    requires Reaches(NO_RECHECK, DISMISSED, w)
    ensures Reaches(NO_RECHECK, RETURNED, w)
  {
    CheckStamps();
    Via(NO_RECHECK, CHECKED, FinishQuery(2), DISMISSED, w);
    CheckIsRead();
    Via(NO_RECHECK, CHECK_ANSWERED, Receive, CHECKED, w);
    CheckIsAnswered();
    Via(NO_RECHECK, CHECK_SENT, NodeStep(40), CHECK_ANSWERED, w);
    CheckIsSent();
    Via(NO_RECHECK, CHECKING, SendQuery(2), CHECK_SENT, w);
    CheckStarts();
    Via(NO_RECHECK, RETURNED, SelectMismatch(2, 7), CHECKING, w);
  }

  lemma OtherCommits(w: Sys)
    requires Reaches(NO_RECHECK, RETAKEN, w)
    ensures Reaches(NO_RECHECK, DISMISSED, w)
  {
    OtherIsApplied();
    Via(NO_RECHECK, LATE_COMMIT, NodeStep(50), RETAKEN, w);
    OtherSends();
    Via(NO_RECHECK, DISMISSED, SendCommit(1), LATE_COMMIT, w);
  }

  /**
   Nor does sending recheck. Of two confirms one fails and expires the row, the reconciler finds
   a mere hold and stamps it, and the commit of the other then confirms the slot on the node.
   */
  lemma LateCommitSquatsAStampedSlot()
    ensures Reaches(NO_RECHECK, Init(5, 120), RETAKEN)
    ensures RETAKEN.rows[7].reconciled && RETAKEN.node[7].status == L.Confirmed
  {
    Here(NO_RECHECK, RETAKEN);
    OtherCommits(RETAKEN);
    ReconcilerDismisses(RETAKEN);
    OneConfirmFails(RETAKEN);
    FromTwice(RETAKEN);
  }

  // ---- Squatted for good: the hub resolves an await by id, whatever the reply's type.

  /** Every confirm is timely and finds its row still held, and replies are matched by id alone. */
  const BY_ID_ONLY := Rules(false, true, true, false)

  const TIMED_OUT := At(NODE_HELD, ROW_HELD, map[1 := Confirm(7, Failed)], map[], [ReserveCommit(7)], [], {}, {})
  const GIVEN_UP := At(NODE_HELD, ROW_EXPIRED, map[], map[], [ReserveCommit(7)], [], {}, {})
  const REVISITED := At(NODE_HELD, ROW_EXPIRED, map[2 := Query(7, Ready)], map[], [ReserveCommit(7)], [], {}, {})
  const CROSSED := At(NODE_HELD, ROW_EXPIRED, map[2 := Query(7, Awaiting)], map[7 := 2], [ReserveCommit(7)] + [StatusQuery(7)], [], {}, {})
  const LATE := At(NODE_TAKEN, ROW_EXPIRED, map[2 := Query(7, Awaiting)], map[7 := 2], [StatusQuery(7)], [Committed(7)], {7}, {})
  const MISREAD := At(NODE_TAKEN, ROW_EXPIRED, map[2 := Query(7, Got(Committed(7)))], map[], [StatusQuery(7)], [], {7}, {})
  const SQUATTED := At(NODE_TAKEN, ROW_STAMPED, map[], map[], [StatusQuery(7)], [], {7}, {})

  lemma Overdue()
    ensures Goes(BY_ID_ONLY, COMMITTING, Timeout(1), TIMED_OUT)
  {
  }

  lemma Expires()
    ensures Goes(BY_ID_ONLY, TIMED_OUT, FinishConfirm(1), GIVEN_UP)
  {
  }

  lemma Revisits()
    ensures Goes(BY_ID_ONLY, GIVEN_UP, SelectMismatch(2, 7), REVISITED)
  {
  }

  lemma Crosses()
    ensures Goes(BY_ID_ONLY, REVISITED, SendQuery(2), CROSSED)
  {
  }

  lemma Acknowledges()
    ensures Goes(BY_ID_ONLY, CROSSED, NodeStep(50), LATE)
  {
  }

  lemma Misreads()
    ensures Goes(BY_ID_ONLY, LATE, Receive, MISREAD)
  {
  }

  lemma StampsAnyway()
    ensures Goes(BY_ID_ONLY, MISREAD, FinishQuery(2), SQUATTED)
  {
  }

  lemma Squats(w: Sys)
    requires Reaches(BY_ID_ONLY, SQUATTED, w)
    ensures Reaches(BY_ID_ONLY, COMMITTING, w)
  {
    StampsAnyway();
    Via(BY_ID_ONLY, MISREAD, FinishQuery(2), SQUATTED, w);
    Misreads();
    Via(BY_ID_ONLY, LATE, Receive, MISREAD, w);
    Acknowledges();
    Via(BY_ID_ONLY, CROSSED, NodeStep(50), LATE, w);
    Crosses();
    Via(BY_ID_ONLY, REVISITED, SendQuery(2), CROSSED, w);
    Revisits();
    Via(BY_ID_ONLY, GIVEN_UP, SelectMismatch(2, 7), REVISITED, w);
    Expires();
    Via(BY_ID_ONLY, TIMED_OUT, FinishConfirm(1), GIVEN_UP, w);
    Overdue();
    Via(BY_ID_ONLY, COMMITTING, Timeout(1), TIMED_OUT, w);
  }

  /**
   With every confirm guarded but replies matched by id alone, the late acknowledgment of a
   timed-out commit answers the reconciler's query. It is not a status, so the row is stamped
   as reconciled while the node stays confirmed.
   */
  lemma LateAckStampsASquattedSlot()
    ensures Reaches(BY_ID_ONLY, Init(5, 120), SQUATTED)
    ensures SQUATTED.rows[7].reconciled && SQUATTED.node[7].status == L.Confirmed
  {
    Here(BY_ID_ONLY, SQUATTED);
    Squats(SQUATTED);
    FromCommitting(BY_ID_ONLY, SQUATTED);
  }
}
