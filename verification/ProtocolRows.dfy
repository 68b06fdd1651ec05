/** What the handlers of the platform do to its rows, with no hypothesis on the run. */
module ProtocolRows {
  import opened Options
  import opened Machine
  import opened Protocol
  import L = NodeLedger

  predicate Apart(a: Row, b: Row) {
    a.endsAt <= b.startsAt || b.endsAt <= a.startsAt
  }

  /** No two rows of the node whose time is in use overlap. */
  predicate NeverTwice(s: Sys) {
    forall i, j | i in s.rows && j in s.rows && i != j && InUse(s.rows[i].status) && InUse(s.rows[j].status) ::
      Apart(s.rows[i], s.rows[j])
  }

  /** No other row whose time is in use overlaps the window. */
  predicate Clear(s: Sys, id: Id, startsAt: int, endsAt: int) {
    forall j | j in s.rows && j != id && InUse(s.rows[j].status) :: s.rows[j].endsAt <= startsAt || endsAt <= s.rows[j].startsAt
  }

  lemma OccupiedExactly(s: Sys, id: Id, startsAt: int, endsAt: int)
    ensures Occupied(s, id, startsAt, endsAt) <==> !Clear(s, id, startsAt, endsAt)
  {
    forall r: RStatus ensures Excluded(r) <==> InUse(r) {
      ExcludedExactly(r);
    }
  }

  lemma RowKeepsApart(s: Sys, id: Id, r: Row)
    requires NeverTwice(s) && (InUse(r.status) ==> Clear(s, id, r.startsAt, r.endsAt))
    ensures NeverTwice(s.(rows := s.rows[id := r]))
  {
  }

  /** A row that was in use, and keeps its window, has nothing in its way. */
  lemma InUseIsClear(s: Sys, id: Id)
    requires NeverTwice(s) && id in s.rows && InUse(s.rows[id].status)
    ensures Clear(s, id, s.rows[id].startsAt, s.rows[id].endsAt)
  {
    forall j | j in s.rows && j != id && InUse(s.rows[j].status) ensures Apart(s.rows[j], s.rows[id]) {}
  }

  lemma BookingKeepsApart(s: Sys, task: TaskId, now: int)
    requires NeverTwice(s)
    ensures NeverTwice(ApplyFinishBooking(s, task, now))
  {
    var u := ApplyFinishBooking(s, task, now);
    if u.rows != s.rows {
      var t := s.tasks[task];
      OccupiedExactly(s, t.id, t.startsAt, t.endsAt);
      RowKeepsApart(s, t.id, u.rows[t.id]);
    }
  }

  lemma SameRowsApart(s: Sys, u: Sys)
    requires NeverTwice(s) && u.rows == s.rows
    ensures NeverTwice(u)
  {
  }

  lemma ConfirmKeepsApart(s: Sys, task: TaskId)
    requires NeverTwice(s)
    ensures NeverTwice(ApplyFinishConfirm(s, task))
  {
    var u := ApplyFinishConfirm(s, task);
    if u.rows == s.rows {
      SameRowsApart(s, u);
    } else {
      var id := s.tasks[task].id;
      var r := s.rows[id];
      if s.tasks[task].phase.Got? { OccupiedExactly(s, id, r.startsAt, r.endsAt); }
      var v := s.(rows := s.rows[id := u.rows[id]]);
      RowKeepsApart(s, id, u.rows[id]);
      SameRowsApart(v, u);
    }
  }

  lemma StatusKeepsApart(s: Sys, id: Id, status: RStatus)
    requires NeverTwice(s) && id in s.rows && (InUse(status) ==> InUse(s.rows[id].status))
    ensures NeverTwice(s.(rows := s.rows[id := s.rows[id].(status := status)]))
  {
    if InUse(status) { InUseIsClear(s, id); }
    RowKeepsApart(s, id, s.rows[id].(status := status));
  }

  lemma SweepKeepsApart(s: Sys, now: int)
    requires NeverTwice(s)
    ensures NeverTwice(ApplySweep(s, now))
  {
    var u := ApplySweep(s, now);
    forall i | i in u.rows && InUse(u.rows[i].status) ensures u.rows[i] == s.rows[i] {}
  }

  lemma StampsKeepApart(s: Sys, u: Sys)
    requires NeverTwice(s) && u.rows.Keys == s.rows.Keys
    requires forall id | id in s.rows :: u.rows[id] == s.rows[id] || u.rows[id] == s.rows[id].(reconciled := true)
    ensures NeverTwice(u)
  {
    forall i, j | i in u.rows && j in u.rows && i != j && InUse(u.rows[i].status) && InUse(u.rows[j].status)
      ensures Apart(u.rows[i], u.rows[j])
    {
      assert Apart(s.rows[i], s.rows[j]);
    }
  }

  lemma StepKeepsApart(s: Sys, ev: Event)
    requires NeverTwice(s)
    ensures NeverTwice(Apply(s, ev))
  {
    match ev
    case FinishBooking(task, now) => BookingKeepsApart(s, task, now);
    case FinishConfirm(task) => ConfirmKeepsApart(s, task);
    case StartJob(id) => if id in s.rows && s.rows[id].status == Confirmed { StatusKeepsApart(s, id, Running); }
    case Settle(id, outcome) =>
      if id in s.rows && JobOutcome(outcome) && CanTransition(s.rows[id].status, outcome) { StatusKeepsApart(s, id, outcome); }
    case Sweep(now) => SweepKeepsApart(s, now);
    case _ =>
      OnlyStamps(s, ev);
      StampsKeepApart(s, Apply(s, ev));
  }

  /** No other step changes a window or a status. */
  lemma OnlyStamps(s: Sys, ev: Event)
    requires !(ev.FinishBooking? || ev.FinishConfirm? || ev.StartJob? || ev.Settle? || ev.Sweep?)
    ensures Apply(s, ev).rows.Keys == s.rows.Keys
    ensures forall id | id in s.rows ::
      Apply(s, ev).rows[id] == s.rows[id] || Apply(s, ev).rows[id] == s.rows[id].(reconciled := true)
  {
    if ev.NodeStep? { NodeSparesRows(s, ev.now); }
  }

  lemma NodeSparesRows(s: Sys, now: int)
    ensures ApplyNodeStep(s, now).rows == s.rows
  {
  }

  /** Whatever happens, in whatever order, the platform never has two rows in use for one instant of a node. */
  lemma {:induction false} RowsNeverOverlap(s: Sys, evs: seq<Event>)
    requires NeverTwice(s)
    ensures NeverTwice(Run(s, evs))
    decreases evs
  {
    if evs != [] {
      StepKeepsApart(s, evs[0]);
      RowsNeverOverlap(Apply(s, evs[0]), evs[1..]);
    }
  }

  /** A booking becomes a row exactly if the node's receipt is admitted and nothing in use is in the way; then it is held until the receipt says. */
  lemma BookedExactly(s: Sys, task: TaskId, now: int)
    requires task in s.tasks && s.tasks[task].Booking? && s.tasks[task].phase.Got? && s.tasks[task].id !in s.rows
    ensures var t, u := s.tasks[task], Apply(s, FinishBooking(task, now));
      && u.rows == (if Admitted(t, now) && Clear(s, t.id, t.startsAt, t.endsAt)
                    then s.rows[t.id := Row(t.startsAt, t.endsAt, Held, t.phase.reply.receipt.holdExpiresAt, false, false)]
                    else s.rows)
      && u.tasks == s.tasks - {task}
  {
    var t := s.tasks[task];
    OccupiedExactly(s, t.id, t.startsAt, t.endsAt);
  }

  /** A commit that the node acknowledges captures the row, once, if nothing in use is in the way; and one it refuses changes no row. */
  lemma CapturedExactly(s: Sys, task: TaskId)
    requires task in s.tasks && s.tasks[task].Confirm? && s.tasks[task].phase.Got? && s.tasks[task].id in s.rows
    requires s.tasks[task].phase.reply.Committed? || s.tasks[task].phase.reply.CommitFailed?
    ensures var t, r, u := s.tasks[task], s.rows[s.tasks[task].id], Apply(s, FinishConfirm(task));
      && u.rows == (if t.phase.reply.Committed? && !r.captured && Clear(s, t.id, r.startsAt, r.endsAt)
                    then s.rows[t.id := r.(status := Confirmed, captured := true)] else s.rows)
      && u.tasks == s.tasks - {task}
  {
    var t := s.tasks[task];
    OccupiedExactly(s, t.id, s.rows[t.id].startsAt, s.rows[t.id].endsAt);
  }

  /** The sweep expires exactly the holds that ended more than half a second ago. */
  lemma SweptExactly(s: Sys, now: int, id: Id)
    requires id in s.rows
    ensures var r, u := s.rows[id], Apply(s, Sweep(now));
      && u.rows.Keys == s.rows.Keys
      && u.rows[id] == if (r.status == Pending || r.status == Held) && now - r.holdExpiresAt > 500 then r.(status := Expired) else r
  {
  }

  /**
   So while the platform's clock is no more than half a second ahead of the node's, a hold is
   expired only when the node would not honour it any more either.
   */
  lemma SweptIsLapsed(s: Sys, now: int, nodeNow: int, id: Id)
    requires id in s.rows && id in s.node && s.rows[id].status == Held && Apply(s, Sweep(now)).rows[id].status == Expired
    requires s.node[id].status == L.Held && s.node[id].holdExpiresAt == Some(s.rows[id].holdExpiresAt)
    requires now <= nodeNow + 500
    ensures !L.Commit(s.node, id, nodeNow).1 && id in L.ExpireStale(s.node, nodeNow) && L.ExpireStale(s.node, nodeNow)[id].status == L.Released
  {
  }

  /** Nothing is sent to a node that is offline. */
  lemma OfflineSendsNothing(s: Sys, ev: Event)
    requires !s.connected
    ensures var u := Apply(s, ev); u.down == s.down || u.down == [] || (s.down != [] && u.down == s.down[1..])
  {
    if ev.NodeStep? { NodeTakesOne(s, ev.now); }
  }

  lemma NodeTakesOne(s: Sys, now: int)
    ensures ApplyNodeStep(s, now).down == if s.down == [] then [] else s.down[1..]
  {
  }

  /** A reply to a connection that is gone is lost. */
  lemma OfflineHearsNothing(s: Sys, ev: Event)
    requires !s.connected
    ensures var u := Apply(s, ev); u.up == s.up || u.up == [] || (s.up != [] && u.up == s.up[1..])
  {
    if ev.NodeStep? { NodeOfflineSaysNothing(s, ev.now); }
  }

  lemma NodeOfflineSaysNothing(s: Sys, now: int)
    requires !s.connected
    ensures ApplyNodeStep(s, now).up == s.up || ApplyNodeStep(s, now).up == []
  {
  }

  /** A confirm may start for a held row only, and the reconciler takes up only rows that are expired and not yet closed. */
  lemma HandlersStartExactly(s: Sys, task: TaskId, id: Id)
    requires task !in s.tasks
    ensures task in Apply(s, StartConfirm(task, id)).tasks <==> id in s.rows && s.rows[id].status == Held
    ensures task in Apply(s, SelectMismatch(task, id)).tasks <==> id in s.rows && s.rows[id].status == Expired && !s.rows[id].reconciled
  {
  }

  /** A job starts on a confirmed row only, and ends as the lifecycle allows: a confirmed row may only be failed by the provider. */
  lemma JobsMoveRowsExactly(s: Sys, id: Id, outcome: RStatus)
    requires id in s.rows
    ensures var r := s.rows[id];
      && Apply(s, StartJob(id)).rows == (if r.status == Confirmed then s.rows[id := r.(status := Running)] else s.rows)
      && Apply(s, Settle(id, outcome)).rows ==
           (if (r.status == Running && outcome in {Completed, FailedProvider, FailedUser, Disputed})
               || (r.status == Confirmed && outcome == FailedProvider)
            then s.rows[id := r.(status := outcome)] else s.rows)
  {
  }

  /** A call of the reconciler that fails ends its visit and closes nothing, so the row is taken up again. */
  lemma FailedVisitEnds(s: Sys, task: TaskId)
    requires task in s.tasks && s.tasks[task].phase.Failed?
    ensures s.tasks[task].Query? ==>
      Apply(s, FinishQuery(task)).tasks == s.tasks - {task} && Apply(s, FinishQuery(task)).rows == s.rows
    ensures s.tasks[task].Releasing? ==>
      Apply(s, FinishRelease(task)).tasks == s.tasks - {task} && Apply(s, FinishRelease(task)).rows == s.rows
  {
  }

  /** A timer that comes due fails its own call if it still waits, and does nothing otherwise. */
  lemma TimerFailsTheCall(s: Sys, task: TaskId)
    ensures var u := Apply(s, Timeout(task));
      if task in s.tasks && s.tasks[task].phase.Awaiting?
      then u.tasks == s.tasks[task := s.tasks[task].(phase := Failed)] && u.rows == s.rows && u.node == s.node
      else u == s
  {
  }

  /**
   What comes back for a reservation request: a receipt for a free window under a new id, a refusal
   for any other window, and the end of the connection for a free window under an id that the node
   has used before.
   */
  lemma RequestIsAnsweredExactly(s: Sys, now: int, id: Id, startsAt: int, endsAt: int)
    requires L.RowsOk(s.node) && s.connected && s.down != [] && s.down[0] == ReserveRequest(id, startsAt, endsAt)
    ensures var u := Apply(s, NodeStep(now));
      if endsAt <= startsAt || L.Contested(s.node, startsAt, endsAt, now) then u.up == s.up + [Deny(id)] && u.connected && u.node == s.node
      else if id in s.node then !u.connected && u.up == [] && u.node == s.node
      else u.up == s.up + [ReceiptReply(id, L.Receipt(id, startsAt, endsAt, s.nodePrice, now + s.ttlMs, now))] && u.connected && id in u.node
  {
    L.TryLockExact(s.node, s.ttlMs, id, startsAt, endsAt, s.nodePrice, now);
    L.RefusalExact(s.node, s.ttlMs, id, startsAt, endsAt, s.nodePrice, now);
  }

  /** A connection that ends loses the replies under way, and a new one starts with nothing under way; rows and ledger stay. */
  lemma LinksLoseMessages(s: Sys)
    ensures Apply(s, Disconnect) == s.(connected := false, up := [])
    ensures Apply(s, Connect) == s.(connected := true, down := [], up := [])
  {
  }

  /** A crash of the platform forgets its handlers and its connection, and nothing that is stored. */
  lemma CrashForgetsHandlers(s: Sys)
    ensures var u := Apply(s, PlatformCrash);
      && u.tasks == map[] && u.pending == map[] && !u.connected && u.up == []
      && u.rows == s.rows && u.node == s.node && u.down == s.down
  {
  }
}
