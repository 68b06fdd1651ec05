/**
 Refund handlers that interleave (backend/src/payments/refunds.js). `issueRefund` and
 `processRefundRetries` await the gateway and the database between their steps, a sweep is started
 every 30 seconds whether or not the last one has ended (backend/src/index.js), a write can be
 reported as failed, and the process can stop anywhere. The gateway call carries no idempotency key
 (backend/src/payments/razorpay.js).
 */
module RefundTasks {
  import opened Refunds

  type TaskId = nat

  /**
   What a handler awaits: the gateway's reply, which may have refunded already; the mark on the
   payment; the mark on the retry row; or, in the catch, the record of the failure. `first` says
   that the payment was not marked before.
   */
  datatype Stage = Calling(executed: bool) | Returned | Marked(first: bool) | Failed

  /** A selected row, with the attempts it had when it was read. */
  datatype Item = Item(p: PaymentId, attempts: nat)

  /** A sweep works on the head of `todo`. An orphan is a call whose process has stopped. */
  datatype Task = Issuing(p: PaymentId, stage: Stage) | Sweeping(todo: seq<Item>, stage: Stage) | Orphan(p: PaymentId)

  /** `returned` is history: the payments for which a gateway call has returned successfully. */
  datatype State = State(desk: Desk, tasks: map<TaskId, Task>, returned: set<PaymentId>)

  /** How an awaited write ends; `undone` says that a ROLLBACK takes back the payment's mark. */
  datatype Write = Done | Unacknowledged | Rejected(undone: bool)

  datatype Event =
    | StartIssue(task: TaskId, p: PaymentId)
    | StartSweep(task: TaskId, rows: seq<PaymentId>, now: int)
    | Executes(task: TaskId)
    | Returns(task: TaskId, ok: bool)
    | Writes(task: TaskId, w: Write, now: int)
    | Crash

  const START := State(NO_REFUNDS, map[], {})

  function Items(d: Desk, rows: seq<PaymentId>): seq<Item>
    requires forall i | 0 <= i < |rows| :: rows[i] in d.retries
  {
    seq(|rows|, i requires 0 <= i < |rows| => Item(rows[i], d.retries[rows[i]].attempts))
  }

  /** The payment that a task is working on. */
  function Head(t: Task): PaymentId
    requires t.Sweeping? ==> t.todo != []
  {
    match t
    case Issuing(p, _) => p
    case Sweeping(todo, _) => todo[0].p
    case Orphan(p) => p
  }

  predicate Shaped(s: State) {
    forall id | id in s.tasks && s.tasks[id].Sweeping? :: s.tasks[id].todo != []
  }

  function AtStage(s: State, id: TaskId, stage: Stage): State
    requires id in s.tasks && !s.tasks[id].Orphan?
  {
    s.(tasks := s.tasks[id := s.tasks[id].(stage := stage)])
  }

  function Finish(s: State, id: TaskId): State {
    s.(tasks := s.tasks - {id})
  }

  function NextRow(s: State, id: TaskId): State
    requires id in s.tasks && s.tasks[id].Sweeping? && s.tasks[id].todo != []
  {
    var rest := s.tasks[id].todo[1..];
    if rest == [] then Finish(s, id) else s.(tasks := s.tasks[id := Sweeping(rest, Calling(false))])
  }

  /** The gateway carries out a call. */
  function Execute(s: State, id: TaskId): State
    requires Shaped(s)
  {
    if id !in s.tasks then s
    else
      var t := s.tasks[id];
      if t.Orphan? then Finish(s, id).(desk := Pay(s.desk, t.p))
      else if t.stage == Calling(false) then AtStage(s, id, Calling(true)).(desk := Pay(s.desk, Head(t)))
      else s
  }

  /** The awaited call returns, or throws; it cannot return before it has been carried out. */
  function Return(s: State, id: TaskId, ok: bool): State
    requires Shaped(s)
  {
    if id !in s.tasks || s.tasks[id].Orphan? || !s.tasks[id].stage.Calling? then s
    else if !ok then AtStage(s, id, Failed)
    else if s.tasks[id].stage.executed then AtStage(s, id, Returned).(returned := s.returned + {Head(s.tasks[id])})
    else s
  }

  function IssueWrites(s: State, id: TaskId, w: Write, now: int): State
    requires id in s.tasks && s.tasks[id].Issuing?
  {
    var p := s.tasks[id].p;
    match s.tasks[id].stage
    case Returned =>
      var d := if w.Rejected? then s.desk else Mark(s.desk, p);
      if w.Done? then Finish(s, id).(desk := d) else AtStage(s, id, Failed).(desk := d)
    case Failed => Finish(s, id).(desk := if w.Rejected? then s.desk else Queue(s.desk, p, now))
    case _ => s
  }

  function SettleRow(d: Desk, p: PaymentId): Desk {
    if p in d.retries then d.(retries := d.retries[p := d.retries[p].(status := Succeeded)]) else d
  }

  /** The catch of the sweep writes the attempts it read, and no status unless they are used up. */
  function Reschedule(d: Desk, item: Item, now: int): Desk {
    if item.p !in d.retries then d
    else d.(retries := d.retries[item.p := AfterFailure(d.retries[item.p].(attempts := item.attempts), now)])
  }

  function SweepWrites(s: State, id: TaskId, w: Write, now: int): State
    requires id in s.tasks && s.tasks[id].Sweeping? && s.tasks[id].todo != []
  {
    var item := s.tasks[id].todo[0];
    match s.tasks[id].stage
    case Returned =>
      var d := if w.Rejected? then s.desk else Mark(s.desk, item.p);
      AtStage(s, id, if w.Done? then Marked(item.p !in s.desk.refunded) else Failed).(desk := d)
    case Marked(first) =>
      if w.Rejected? then
        AtStage(s, id, Failed).(desk := if w.undone && first then s.desk.(refunded := s.desk.refunded - {item.p}) else s.desk)
      else
        var d := SettleRow(s.desk, item.p);
        if w.Done? then NextRow(s, id).(desk := d) else AtStage(s, id, Failed).(desk := d)
    case Failed =>
      var d := if w.Rejected? then s.desk else Reschedule(s.desk, item, now);
      if w.Done? then NextRow(s, id).(desk := d) else Finish(s, id).(desk := d)
    case _ => s
  }

  /** The process stops: handlers are gone, but the gateway may still carry out what they asked for. */
  function Stop(s: State): State
    requires Shaped(s)
  {
    s.(tasks := map id | id in s.tasks && (s.tasks[id].Orphan? || s.tasks[id].stage == Calling(false)) :: Orphan(Head(s.tasks[id])))
  }

  ghost predicate Possible(s: State, ev: Event) {
    Shaped(s) && (ev.StartSweep? ==> Selected(s.desk, ev.rows, ev.now))
  }

  ghost function Apply(s: State, ev: Event): State
    requires Possible(s, ev)
  {
    match ev
    case StartIssue(id, p) => if id in s.tasks then s else s.(tasks := s.tasks[id := Issuing(p, Calling(false))])
    case StartSweep(id, rows, now) =>
      if id in s.tasks || rows == [] then s else s.(tasks := s.tasks[id := Sweeping(Items(s.desk, rows), Calling(false))])
    case Executes(id) => Execute(s, id)
    case Returns(id, ok) => Return(s, id, ok)
    case Writes(id, w, now) =>
      if id !in s.tasks || s.tasks[id].Orphan? then s
      else if s.tasks[id].Issuing? then IssueWrites(s, id, w, now)
      else SweepWrites(s, id, w, now)
    case Crash => Stop(s)
  }

  ghost predicate PossibleRun(s: State, evs: seq<Event>)
    decreases evs
  {
    evs != [] ==> Possible(s, evs[0]) && PossibleRun(Apply(s, evs[0]), evs[1..])
  }

  ghost function Run(s: State, evs: seq<Event>): State
    requires PossibleRun(s, evs)
    decreases evs
  {
    if evs == [] then s else Run(Apply(s, evs[0]), evs[1..])
  }

  // ---------------------------------------------------------------------------------------
  // What every run keeps.
  // ---------------------------------------------------------------------------------------

  predicate HasReturned(stage: Stage) {
    stage.Returned? || stage.Marked?
  }

  predicate TaskOk(s: State, t: Task) {
    && (t.Sweeping? ==>
          && t.todo != []
          && (forall i | 0 <= i < |t.todo| :: t.todo[i].p in s.desk.retries)
          && (forall i, j | 0 <= i < j < |t.todo| :: t.todo[i].p != t.todo[j].p))
    && (!t.Orphan? && t.stage == Calling(true) ==> Paid(s.desk, Head(t)) > 0)
    && (!t.Orphan? && HasReturned(t.stage) ==> Head(t) in s.returned)
  }

  /** A payment marked refunded has had a gateway call return successfully, which has refunded it. */
  predicate Sound(s: State) {
    && (forall id | id in s.tasks :: TaskOk(s, s.tasks[id]))
    && s.desk.refunded <= s.returned
    && (forall p | p in s.returned :: Paid(s.desk, p) > 0)
  }

  /** Nothing that a task relies on goes away. */
  ghost predicate Grows(s: State, u: State) {
    && s.desk.retries.Keys <= u.desk.retries.Keys && s.returned <= u.returned
    && (forall p | Paid(s.desk, p) > 0 :: Paid(u.desk, p) > 0)
  }

  lemma StepGrows(s: State, ev: Event)
    requires Possible(s, ev)
    ensures Grows(s, Apply(s, ev))
  {
  }

  lemma TaskStaysOk(s: State, u: State, t: Task)
    requires TaskOk(s, t) && Grows(s, u)
    ensures TaskOk(u, t)
  {
  }

  lemma StepKeepsSound(s: State, ev: Event)
    requires Possible(s, ev) && Sound(s)
    ensures Sound(Apply(s, ev))
  {
    var u := Apply(s, ev);
    StepGrows(s, ev);
    forall id | id in u.tasks ensures TaskOk(u, u.tasks[id]) {
      if id in s.tasks {
        TaskStaysOk(s, u, s.tasks[id]);
      }
      TaskStepsOk(s, ev, id);
    }
    DeskStepsOk(s, ev);
  }

  lemma TaskStepsOk(s: State, ev: Event, id: TaskId)
    requires Possible(s, ev) && Sound(s) && id in Apply(s, ev).tasks
    ensures TaskOk(Apply(s, ev), Apply(s, ev).tasks[id])
  {
    StepGrows(s, ev);
    if id in s.tasks {
      assert TaskOk(s, s.tasks[id]);
    }
    match ev
    case StartSweep(_, rows, now) => SelectedItemsOk(s, rows, now);
    case Writes(w, _, _) => if w in s.tasks { WritesOk(s, ev, id); }
    case _ =>
  }

  lemma SelectedItemsOk(s: State, rows: seq<PaymentId>, now: int)
    requires Selected(s.desk, rows, now)
    ensures forall i | 0 <= i < |rows| :: rows[i] in s.desk.retries
    ensures rows != [] ==> TaskOk(s, Sweeping(Items(s.desk, rows), Calling(false)))
  {
    forall i | 0 <= i < |rows| ensures rows[i] in s.desk.retries {
      assert Due(s.desk, rows[i], now);
    }
  }

  lemma WritesOk(s: State, ev: Event, id: TaskId)
    requires Possible(s, ev) && Sound(s) && ev.Writes? && ev.task in s.tasks && id in Apply(s, ev).tasks
    ensures TaskOk(Apply(s, ev), Apply(s, ev).tasks[id])
  {
    var u := Apply(s, ev);
    StepGrows(s, ev);
    assert TaskOk(s, s.tasks[id]);
    if id != ev.task || u.tasks[id] == s.tasks[id] {
      TaskStaysOk(s, u, s.tasks[id]);
    } else if s.tasks[id].Issuing? {
      assert u.tasks[id] == Issuing(s.tasks[id].p, Failed);
    } else {
      assert u.tasks[id].todo == s.tasks[id].todo || (u.tasks[id].todo == s.tasks[id].todo[1..] && u.tasks[id].stage == Calling(false));
    }
  }

  lemma DeskStepsOk(s: State, ev: Event)
    requires Possible(s, ev) && Sound(s)
    ensures var u := Apply(s, ev); u.desk.refunded <= u.returned && forall p | p in u.returned :: Paid(u.desk, p) > 0
  {
    if (ev.Writes? || ev.Returns?) && ev.task in s.tasks {
      assert TaskOk(s, s.tasks[ev.task]);
    }
  }

  /** Over every run, a payment is marked refunded only after a gateway call for it that refunded it and returned successfully. */
  lemma {:induction false} RefundedOnlyIfPaid(s: State, evs: seq<Event>)
    requires Sound(s) && PossibleRun(s, evs)
    ensures Sound(Run(s, evs))
    ensures forall p | p in Run(s, evs).desk.refunded :: p in Run(s, evs).returned && Paid(Run(s, evs).desk, p) > 0
    decreases evs
  {
    if evs != [] {
      StepKeepsSound(s, evs[0]);
      RefundedOnlyIfPaid(Apply(s, evs[0]), evs[1..]);
    }
  }

  /** The gateway has a call for the payment that it has not carried out; its process may have stopped meanwhile. */
  predicate AtGatewayFor(s: State, id: TaskId, p: PaymentId)
    requires Shaped(s)
  {
    id in s.tasks && Head(s.tasks[id]) == p && (s.tasks[id].Orphan? || s.tasks[id].stage == Calling(false))
  }

  ghost function Executions(s: State, evs: seq<Event>, p: PaymentId): nat
    requires PossibleRun(s, evs)
    decreases evs
  {
    if evs == [] then 0
    else (if evs[0].Executes? && AtGatewayFor(s, evs[0].task, p) then 1 else 0) + Executions(Apply(s, evs[0]), evs[1..], p)
  }

  /** What has been refunded is what the gateway has carried out, call by call, with or without a process to hear of it. */
  lemma {:induction false} PaidIsWhatWasExecuted(s: State, evs: seq<Event>, p: PaymentId)
    requires PossibleRun(s, evs)
    ensures Paid(Run(s, evs).desk, p) == Paid(s.desk, p) + Executions(s, evs, p)
    decreases evs
  {
    if evs != [] {
      StepPaysExecutions(s, evs[0], p);
      PaidIsWhatWasExecuted(Apply(s, evs[0]), evs[1..], p);
    }
  }

  lemma StepPaysExecutions(s: State, ev: Event, p: PaymentId)
    requires Possible(s, ev)
    ensures Paid(Apply(s, ev).desk, p) == Paid(s.desk, p) + if ev.Executes? && AtGatewayFor(s, ev.task, p) then 1 else 0
  {
  }

  /** A stopped process leaves its unanswered calls with the gateway, and nothing else. */
  lemma CrashKeepsCalls(s: State, id: TaskId, p: PaymentId)
    requires Shaped(s)
    ensures Shaped(Apply(s, Crash)) && Apply(s, Crash).desk == s.desk
    ensures AtGatewayFor(Apply(s, Crash), id, p) <==> AtGatewayFor(s, id, p)
    ensures id in Apply(s, Crash).tasks ==> Apply(s, Crash).tasks[id].Orphan?
  {
  }

  // ---------------------------------------------------------------------------------------
  // At most one refund.
  // ---------------------------------------------------------------------------------------

  /** The task works on the payment, or will. */
  predicate Holds(t: Task, p: PaymentId) {
    match t
    case Issuing(q, _) => q == p
    case Sweeping(todo, _) => exists i | 0 <= i < |todo| :: todo[i].p == p
    case Orphan(q) => q == p
  }

  predicate IsPending(s: State, p: PaymentId) {
    p in s.desk.retries && s.desk.retries[p].status == Pending
  }

  /** The task has not refunded the payment, and still may. */
  predicate Chance(t: Task, p: PaymentId) {
    match t
    case Issuing(_, stage) => stage == Calling(false) || stage.Failed?
    case Sweeping(todo, stage) => todo != [] && (todo[0].p != p || stage == Calling(false) || stage.Failed?)
    case Orphan(_) => true
  }

  /** The task has refunded the payment, and if nothing fails makes sure that it is not refunded again. */
  predicate Settling(s: State, t: Task, p: PaymentId) {
    match t
    case Issuing(_, stage) => stage == Calling(true) || stage.Returned?
    case Sweeping(todo, stage) =>
      todo != [] && todo[0].p == p
      && (stage == Calling(true) || HasReturned(stage) || (stage.Failed? && !IsPending(s, p)))
    case Orphan(_) => false
  }

  predicate Alone(s: State, p: PaymentId) {
    forall a, b | a in s.tasks && b in s.tasks && Holds(s.tasks[a], p) && Holds(s.tasks[b], p) :: a == b
  }

  predicate IsHeld(s: State, p: PaymentId) {
    exists a | a in s.tasks :: Holds(s.tasks[a], p)
  }

  /** The one who holds the payment fits the number of refunds so far; a pending row is the holder's own. */
  predicate HolderOk(s: State, a: TaskId, p: PaymentId)
    requires a in s.tasks
  {
    && (if Paid(s.desk, p) == 0 then Chance(s.tasks[a], p) else Settling(s, s.tasks[a], p))
    && (IsPending(s, p) ==> s.tasks[a].Sweeping?)
  }

  /**
   The payment has been refunded at most once, and has at most one chance in all: one task that
   may refund it, or a pending row that a sweep may select; and none once it has been refunded.
   */
  predicate Once(s: State, p: PaymentId) {
    && Paid(s.desk, p) <= 1 && Alone(s, p)
    && (forall a | a in s.tasks && Holds(s.tasks[a], p) :: HolderOk(s, a, p))
    && (Paid(s.desk, p) == 1 && IsPending(s, p) ==> IsHeld(s, p))
  }

  /** `id` is the task at work on the payment. */
  predicate Works(s: State, id: TaskId, p: PaymentId) {
    id in s.tasks && (s.tasks[id].Sweeping? ==> s.tasks[id].todo != []) && Head(s.tasks[id]) == p
  }

  /** The task would give the payment a second refund if it failed now. */
  predicate Exposed(s: State, id: TaskId, p: PaymentId) {
    Works(s, id, p) && !s.tasks[id].Orphan? && (s.tasks[id].Issuing? || IsPending(s, p))
  }

  /**
   What keeps a payment from being refunded twice, event by event: it is issued only if it is
   unpaid and neither pending nor at work; it is selected only if it is not at work; a call that
   has refunded it does not throw; the writes after that are acknowledged, or reach the retry row;
   and the process does not stop while a sweep has its pending row at the gateway or unmarked.
   */
  predicate Clean(s: State, ev: Event, p: PaymentId) {
    match ev
    case StartIssue(id, q) => id in s.tasks || q != p || (Paid(s.desk, p) == 0 && !IsPending(s, p) && !IsHeld(s, p))
    case StartSweep(id, rows, _) => id in s.tasks || p !in rows || !IsHeld(s, p)
    case Executes(_) => true
    case Returns(id, ok) => ok || !Exposed(s, id, p) || s.tasks[id].stage != Calling(true)
    case Writes(id, w, _) =>
      Exposed(s, id, p) ==>
        && (s.tasks[id].stage.Returned? ==> w.Done?)
        && (s.tasks[id].stage.Marked? ==> !w.Rejected?)
    case Crash => forall id | id in s.tasks :: Exposed(s, id, p) && s.tasks[id].Sweeping? ==> s.tasks[id].stage.Failed?
  }

  /** Two states that look alike to a payment. */
  ghost predicate Alike(s: State, u: State, p: PaymentId) {
    && Paid(u.desk, p) == Paid(s.desk, p) && IsPending(u, p) == IsPending(s, p)
    && (forall id :: (id in u.tasks && Holds(u.tasks[id], p)) <==> (id in s.tasks && Holds(s.tasks[id], p)))
    && (forall id | id in s.tasks && id in u.tasks && Holds(s.tasks[id], p) ::
          && u.tasks[id].Sweeping? == s.tasks[id].Sweeping?
          && Chance(u.tasks[id], p) == Chance(s.tasks[id], p) && Settling(u, u.tasks[id], p) == Settling(s, s.tasks[id], p))
  }

  lemma AlikeOnce(s: State, u: State, p: PaymentId)
    requires Alike(s, u, p) && Once(s, p)
    ensures Once(u, p)
  {
    if IsHeld(s, p) {
      var a :| a in s.tasks && Holds(s.tasks[a], p);
      assert a in u.tasks && Holds(u.tasks[a], p);
    }
  }

  /** The holder, and nobody else, moves. */
  lemma HolderMoves(s: State, u: State, id: TaskId, p: PaymentId)
    requires Once(s, p) && id in s.tasks && Holds(s.tasks[id], p)
    requires forall a | a != id :: (a in u.tasks <==> a in s.tasks) && (a in u.tasks ==> u.tasks[a] == s.tasks[a])
    ensures Once(u, p) <==>
      && Paid(u.desk, p) <= 1
      && (if id in u.tasks && Holds(u.tasks[id], p) then HolderOk(u, id, p)
          else Paid(u.desk, p) == 0 || !IsPending(u, p))
  {
    assert forall a | a in u.tasks && Holds(u.tasks[a], p) :: a == id;
    if id in u.tasks && Holds(u.tasks[id], p) {
      assert IsHeld(u, p);
    }
  }

  /** A new task joins. */
  lemma TaskJoins(s: State, u: State, id: TaskId, p: PaymentId)
    requires Once(s, p) && id !in s.tasks && id in u.tasks && u.desk == s.desk && Holds(u.tasks[id], p)
    requires u.tasks == s.tasks[id := u.tasks[id]] && u.tasks[id].Sweeping? == IsPending(s, p) && Chance(u.tasks[id], p)
    ensures Once(u, p) <==> Paid(s.desk, p) == 0 && !IsHeld(s, p)
  {
    if IsHeld(s, p) {
      var a :| a in s.tasks && Holds(s.tasks[a], p);
      assert a in u.tasks && Holds(u.tasks[a], p) && a != id;
    } else {
      assert forall a | a in u.tasks && Holds(u.tasks[a], p) :: a == id;
    }
  }

  lemma StartIssueOnce(s: State, ev: Event, p: PaymentId)
    requires Possible(s, ev) && Once(s, p) && ev.StartIssue?
    ensures Once(Apply(s, ev), p) <==> Clean(s, ev, p)
  {
    var u := Apply(s, ev);
    if ev.task !in s.tasks {
      if ev.p != p {
        AlikeOnce(s, u, p);
      } else if !IsPending(s, p) {
        TaskJoins(s, u, ev.task, p);
      } else {
        assert Holds(u.tasks[ev.task], p) && !HolderOk(u, ev.task, p);
      }
    }
  }

  lemma ItemsHold(d: Desk, rows: seq<PaymentId>, p: PaymentId, stage: Stage)
    requires forall i | 0 <= i < |rows| :: rows[i] in d.retries
    ensures Holds(Sweeping(Items(d, rows), stage), p) <==> p in rows
  {
    if p in rows {
      var i :| 0 <= i < |rows| && rows[i] == p;
      assert Items(d, rows)[i].p == p;
    }
  }

  lemma StartSweepOnce(s: State, ev: Event, p: PaymentId)
    requires Possible(s, ev) && Once(s, p) && ev.StartSweep?
    ensures Once(Apply(s, ev), p) <==> Clean(s, ev, p)
  {
    var u := Apply(s, ev);
    if ev.task !in s.tasks && ev.rows != [] {
      ItemsHold(s.desk, ev.rows, p, Calling(false));
      if p !in ev.rows {
        AlikeOnce(s, u, p);
      } else {
        var i :| 0 <= i < |ev.rows| && ev.rows[i] == p;
        assert Due(s.desk, ev.rows[i], ev.now);
        TaskJoins(s, u, ev.task, p);
      }
    }
  }

  /** A task that holds the payment only further down its list. */
  lemma LaterHolderMoves(s: State, u: State, id: TaskId, p: PaymentId)
    requires Once(s, p) && id in s.tasks && s.tasks[id].Sweeping? && s.tasks[id].todo != [] && s.tasks[id].todo[0].p != p
    requires id in u.tasks && u.tasks[id].Sweeping? && u.tasks[id].todo == s.tasks[id].todo
    requires forall a | a != id :: (a in u.tasks <==> a in s.tasks) && (a in u.tasks ==> u.tasks[a] == s.tasks[a])
    requires Paid(u.desk, p) == Paid(s.desk, p) && IsPending(u, p) == IsPending(s, p)
    ensures Once(u, p)
  {
    AlikeOnce(s, u, p);
  }

  lemma ExecutesOnce(s: State, ev: Event, p: PaymentId)
    requires Possible(s, ev) && Sound(s) && Once(s, p) && ev.Executes?
    ensures Once(Apply(s, ev), p)
  {
    var u := Apply(s, ev);
    var id := ev.task;
    if id in s.tasks && u != s {
      assert TaskOk(s, s.tasks[id]);
      if Works(s, id, p) {
        WorkerHolds(s, id, p);
        HolderMoves(s, u, id, p);
      } else if s.tasks[id].Sweeping? {
        LaterHolderMoves(s, u, id, p);
      } else {
        AlikeOnce(s, u, p);
      }
    }
  }

  lemma WorkerHolds(s: State, id: TaskId, p: PaymentId)
    requires Works(s, id, p)
    ensures Holds(s.tasks[id], p)
  {
    if s.tasks[id].Sweeping? { assert s.tasks[id].todo[0].p == p; }
  }

  lemma ReturnsOnce(s: State, ev: Event, p: PaymentId)
    requires Possible(s, ev) && Sound(s) && Once(s, p) && ev.Returns?
    ensures Once(Apply(s, ev), p) <==> Clean(s, ev, p)
  {
    if ev.task in s.tasks && Apply(s, ev) != s {
      assert TaskOk(s, s.tasks[ev.task]);
      if Works(s, ev.task, p) { WorkerReturns(s, ev, p); } else { OtherReturns(s, ev, p); }
    }
  }

  lemma WorkerReturns(s: State, ev: Event, p: PaymentId)
    requires Possible(s, ev) && Sound(s) && Once(s, p) && ev.Returns? && Works(s, ev.task, p)
    ensures Once(Apply(s, ev), p) <==> Clean(s, ev, p)
  {
    if Apply(s, ev) != s {
      assert TaskOk(s, s.tasks[ev.task]);
      WorkerHolds(s, ev.task, p);
      HolderMoves(s, Apply(s, ev), ev.task, p);
    }
  }

  lemma OtherReturns(s: State, ev: Event, p: PaymentId)
    requires Possible(s, ev) && Sound(s) && Once(s, p) && ev.Returns? && ev.task in s.tasks && !Works(s, ev.task, p)
    requires Apply(s, ev) != s && TaskOk(s, s.tasks[ev.task])
    ensures Once(Apply(s, ev), p)
  {
    if s.tasks[ev.task].Sweeping? {
      LaterHolderMoves(s, Apply(s, ev), ev.task, p);
    } else {
      AlikeOnce(s, Apply(s, ev), p);
    }
  }

  lemma IssueWritesOnce(s: State, ev: Event, p: PaymentId)
    requires Possible(s, ev) && Sound(s) && Once(s, p) && ev.Writes? && ev.task in s.tasks && s.tasks[ev.task].Issuing?
    ensures Once(Apply(s, ev), p) <==> Clean(s, ev, p)
  {
    if s.tasks[ev.task].p == p { OwnIssueWrites(s, ev, p); } else { OtherIssueWrites(s, ev, p); }
  }

  lemma OwnIssueWrites(s: State, ev: Event, p: PaymentId)
    requires Possible(s, ev) && Sound(s) && Once(s, p) && ev.Writes? && ev.task in s.tasks && s.tasks[ev.task].Issuing?
    requires s.tasks[ev.task].p == p
    ensures Once(Apply(s, ev), p) <==> Clean(s, ev, p)
  {
    assert TaskOk(s, s.tasks[ev.task]) && Holds(s.tasks[ev.task], p);
    HolderMoves(s, Apply(s, ev), ev.task, p);
  }

  lemma OtherIssueWrites(s: State, ev: Event, p: PaymentId)
    requires Possible(s, ev) && Once(s, p) && ev.Writes? && ev.task in s.tasks && s.tasks[ev.task].Issuing?
    requires s.tasks[ev.task].p != p
    ensures Once(Apply(s, ev), p)
  {
    AlikeOnce(s, Apply(s, ev), p);
  }

  /** The next row is another payment, and what follows it was waiting before. */
  lemma NextRowHolds(s: State, id: TaskId, p: PaymentId)
    requires Sound(s) && id in s.tasks && s.tasks[id].Sweeping?
    ensures var u, todo := NextRow(s, id), s.tasks[id].todo;
      && todo != []
      && (todo[0].p == p ==> !(id in u.tasks && Holds(u.tasks[id], p)))
      && (todo[0].p != p ==> ((id in u.tasks && Holds(u.tasks[id], p)) <==> Holds(s.tasks[id], p)))
      && (id in u.tasks ==> u.tasks[id].Sweeping? && Chance(u.tasks[id], p))
      && forall a | a != id :: (a in u.tasks <==> a in s.tasks) && (a in u.tasks ==> u.tasks[a] == s.tasks[a])
  {
    assert TaskOk(s, s.tasks[id]);
    var todo := s.tasks[id].todo;
    assert forall i | 0 < i < |todo| :: todo[1..][i - 1] == todo[i];
  }

  lemma SweepWritesAtHead(s: State, ev: Event, p: PaymentId)
    requires Possible(s, ev) && Sound(s) && Once(s, p) && ev.Writes? && ev.task in s.tasks && s.tasks[ev.task].Sweeping?
    requires Works(s, ev.task, p)
    ensures Once(Apply(s, ev), p) <==> Clean(s, ev, p)
  {
    match s.tasks[ev.task].stage
    case Calling(_) =>
    case Returned => PaymentWrites(s, ev, p);
    case Marked(_) => RowWrites(s, ev, p);
    case Failed => CatchWrites(s, ev, p);
  }

  lemma PaymentWrites(s: State, ev: Event, p: PaymentId)
    requires Possible(s, ev) && Sound(s) && Once(s, p) && ev.Writes? && ev.task in s.tasks && s.tasks[ev.task].Sweeping?
    requires Works(s, ev.task, p) && s.tasks[ev.task].stage.Returned?
    ensures Once(Apply(s, ev), p) <==> Clean(s, ev, p)
  {
    assert TaskOk(s, s.tasks[ev.task]);
    WorkerHolds(s, ev.task, p);
    HolderMoves(s, Apply(s, ev), ev.task, p);
  }

  lemma RowWrites(s: State, ev: Event, p: PaymentId)
    requires Possible(s, ev) && Sound(s) && Once(s, p) && ev.Writes? && ev.task in s.tasks && s.tasks[ev.task].Sweeping?
    requires Works(s, ev.task, p) && s.tasks[ev.task].stage.Marked?
    ensures Once(Apply(s, ev), p) <==> Clean(s, ev, p)
  {
    assert TaskOk(s, s.tasks[ev.task]);
    WorkerHolds(s, ev.task, p);
    NextRowHolds(s, ev.task, p);
    HolderMoves(s, Apply(s, ev), ev.task, p);
  }

  lemma CatchWrites(s: State, ev: Event, p: PaymentId)
    requires Possible(s, ev) && Sound(s) && Once(s, p) && ev.Writes? && ev.task in s.tasks && s.tasks[ev.task].Sweeping?
    requires Works(s, ev.task, p) && s.tasks[ev.task].stage.Failed?
    ensures Once(Apply(s, ev), p) && Clean(s, ev, p)
  {
    assert TaskOk(s, s.tasks[ev.task]);
    WorkerHolds(s, ev.task, p);
    NextRowHolds(s, ev.task, p);
    HolderMoves(s, Apply(s, ev), ev.task, p);
  }

  /** A sweep's writes are about the payment it works on. */
  lemma WritesSpareOthers(s: State, id: TaskId, w: Write, now: int, p: PaymentId)
    requires id in s.tasks && s.tasks[id].Sweeping? && s.tasks[id].todo != [] && s.tasks[id].todo[0].p != p
    ensures var u := SweepWrites(s, id, w, now); Paid(u.desk, p) == Paid(s.desk, p) && IsPending(u, p) == IsPending(s, p)
  {
  }

  /** It stays with its row, moves on to the next, or ends. */
  lemma WritesMoveOn(s: State, id: TaskId, w: Write, now: int)
    requires id in s.tasks && s.tasks[id].Sweeping? && s.tasks[id].todo != []
    ensures var u := SweepWrites(s, id, w, now);
      || u.tasks == NextRow(s, id).tasks
      || u.tasks == Finish(s, id).tasks
      || (id in u.tasks && u.tasks == s.tasks[id := u.tasks[id]] && u.tasks[id].Sweeping? && u.tasks[id].todo == s.tasks[id].todo)
  {
    assert s.tasks == s.tasks[id := s.tasks[id]];
  }

  lemma SweepWritesElsewhere(s: State, ev: Event, p: PaymentId)
    requires Possible(s, ev) && Sound(s) && Once(s, p) && ev.Writes? && ev.task in s.tasks && s.tasks[ev.task].Sweeping?
    requires !Works(s, ev.task, p)
    ensures Once(Apply(s, ev), p)
  {
    var u := Apply(s, ev);
    assert TaskOk(s, s.tasks[ev.task]);
    WritesSpareOthers(s, ev.task, ev.w, ev.now, p);
    WritesMoveOn(s, ev.task, ev.w, ev.now);
    NextRowHolds(s, ev.task, p);
    SweeperMoves(s, u, ev.task, p);
  }

  lemma SweeperMoves(s: State, u: State, id: TaskId, p: PaymentId)
    requires Sound(s) && Once(s, p) && id in s.tasks && s.tasks[id].Sweeping? && s.tasks[id].todo != [] && s.tasks[id].todo[0].p != p
    requires Paid(u.desk, p) == Paid(s.desk, p) && IsPending(u, p) == IsPending(s, p)
    requires || u.tasks == NextRow(s, id).tasks
             || u.tasks == Finish(s, id).tasks
             || (id in u.tasks && u.tasks == s.tasks[id := u.tasks[id]] && u.tasks[id].Sweeping? && u.tasks[id].todo == s.tasks[id].todo)
    ensures Once(u, p)
  {
    NextRowHolds(s, id, p);
    if id in u.tasks && u.tasks[id].Sweeping? && u.tasks[id].todo == s.tasks[id].todo {
      LaterHolderMoves(s, u, id, p);
    } else if Holds(s.tasks[id], p) {
      HolderMoves(s, u, id, p);
    } else {
      AlikeOnce(s, u, p);
    }
  }

  lemma CrashOnce(s: State, p: PaymentId)
    requires Possible(s, Crash) && Sound(s) && Once(s, p)
    ensures Once(Apply(s, Crash), p) <==> Clean(s, Crash, p)
  {
    var u := Apply(s, Crash);
    forall id ensures id in u.tasks && Holds(u.tasks[id], p) ==> Works(s, id, p) && Holds(s.tasks[id], p) {
      if id in u.tasks && Works(s, id, p) { WorkerHolds(s, id, p); }
    }
    if a :| a in s.tasks && Holds(s.tasks[a], p) {
      assert TaskOk(s, s.tasks[a]) && HolderOk(s, a, p);
      StopHolder(s, a, p);
    } else {
      assert !IsHeld(u, p);
      assert forall id | id in s.tasks :: Works(s, id, p) ==> Holds(s.tasks[id], p);
    }
  }

  lemma StopHolder(s: State, a: TaskId, p: PaymentId)
    requires Possible(s, Crash) && Sound(s) && Once(s, p) && a in s.tasks && Holds(s.tasks[a], p)
    requires forall id :: id in Stop(s).tasks && Holds(Stop(s).tasks[id], p) ==> Works(s, id, p) && Holds(s.tasks[id], p)
    ensures Once(Stop(s), p) <==> Clean(s, Crash, p)
  {
    var u := Stop(s);
    assert TaskOk(s, s.tasks[a]) && HolderOk(s, a, p);
    forall id | id in s.tasks && Works(s, id, p) ensures id == a {
      WorkerHolds(s, id, p);
    }
    assert Clean(s, Crash, p) <==> (Exposed(s, a, p) && s.tasks[a].Sweeping? ==> s.tasks[a].stage.Failed?);
    if a in u.tasks && Works(s, a, p) {
      assert Holds(u.tasks[a], p) && IsHeld(u, p);
    } else {
      assert !IsHeld(u, p);
    }
  }

  /** Exactly when a payment keeps its single chance: a step does so if and only if it is clean. */
  lemma StepKeepsOnceExactly(s: State, ev: Event, p: PaymentId)
    requires Possible(s, ev) && Sound(s) && Once(s, p)
    ensures Once(Apply(s, ev), p) <==> Clean(s, ev, p)
  {
    match ev
    case StartIssue(_, _) => StartIssueOnce(s, ev, p);
    case StartSweep(_, _, _) => StartSweepOnce(s, ev, p);
    case Executes(_) => ExecutesOnce(s, ev, p);
    case Returns(_, _) => ReturnsOnce(s, ev, p);
    case Writes(id, _, _) =>
      if id in s.tasks && s.tasks[id].Issuing? {
        IssueWritesOnce(s, ev, p);
      } else if id in s.tasks && s.tasks[id].Sweeping? {
        if Works(s, id, p) { SweepWritesAtHead(s, ev, p); } else { SweepWritesElsewhere(s, ev, p); }
      }
    case Crash => CrashOnce(s, p);
  }

  ghost predicate CleanRun(s: State, evs: seq<Event>, p: PaymentId)
    requires PossibleRun(s, evs)
    decreases evs
  {
    evs != [] ==> Clean(s, evs[0], p) && CleanRun(Apply(s, evs[0]), evs[1..], p)
  }

  /** However handlers interleave, the gateway refunds a payment at most once if every step is clean for it. */
  lemma {:induction false} RefundedAtMostOnce(s: State, evs: seq<Event>, p: PaymentId)
    requires PossibleRun(s, evs) && Sound(s) && Once(s, p) && CleanRun(s, evs, p)
    ensures Once(Run(s, evs), p) && Paid(Run(s, evs).desk, p) <= 1
    decreases evs
  {
    if evs != [] {
      StepKeepsSound(s, evs[0]);
      StepKeepsOnceExactly(s, evs[0], p);
      RefundedAtMostOnce(Apply(s, evs[0]), evs[1..], p);
    }
  }

  // ---------------------------------------------------------------------------------------
  // A handler that nothing interrupts.
  // ---------------------------------------------------------------------------------------

  /** What happens to a handler while it works on one payment, whose attempt has a fate. */
  function Steps(id: TaskId, f: Fate, now: int): seq<Event> {
    match f
    case Refused => [Returns(id, false), Writes(id, Done, now)]
    case ReplyLost => [Executes(id), Returns(id, false), Writes(id, Done, now)]
    case MarkFails(kept) =>
      [Executes(id), Returns(id, true), Writes(id, if kept then Unacknowledged else Rejected(false), now), Writes(id, Done, now)]
    case Succeeds => [Executes(id), Returns(id, true), Writes(id, Done, now), Writes(id, Done, now)]
  }

  function SweepSteps(id: TaskId, rows: seq<PaymentId>, fates: map<PaymentId, Fate>, now: int): seq<Event> {
    if rows == [] then []
    else SweepSteps(id, rows[..|rows| - 1], fates, now) + Steps(id, FateOf(fates, rows[|rows| - 1]), now)
  }

  lemma {:induction false} RunConcat(s: State, a: seq<Event>, b: seq<Event>)
    requires PossibleRun(s, a) && PossibleRun(Run(s, a), b)
    ensures PossibleRun(s, a + b) && Run(s, a + b) == Run(Run(s, a), b)
    decreases a
  {
    if a == [] {
      assert a + b == b;
    } else {
      assert (a + b)[1..] == a[1..] + b;
      RunConcat(Apply(s, a[0]), a[1..], b);
    }
  }

  lemma RunOne(s: State, ev: Event, rest: seq<Event>, evs: seq<Event>)
    requires evs != [] && evs[0] == ev && evs[1..] == rest && Possible(s, ev) && PossibleRun(Apply(s, ev), rest)
    ensures PossibleRun(s, evs) && Run(s, evs) == Run(Apply(s, ev), rest)
  {
  }

  lemma ShapedStays(s: State, ev: Event)
    requires Possible(s, ev)
    ensures Shaped(Apply(s, ev))
  {
  }

  /** Handlers' steps are always possible. */
  lemma {:induction false} StepsPossible(s: State, evs: seq<Event>)
    requires Shaped(s) && forall ev | ev in evs :: !ev.StartSweep?
    ensures PossibleRun(s, evs) && Shaped(Run(s, evs))
    decreases evs
  {
    if evs != [] {
      assert evs[0] in evs && forall ev | ev in evs[1..] :: ev in evs;
      ShapedStays(s, evs[0]);
      StepsPossible(Apply(s, evs[0]), evs[1..]);
    }
  }

  lemma StepsOfTwo(s: State, x: Event, y: Event)
    requires Shaped(s) && !x.StartSweep? && !y.StartSweep?
    ensures PossibleRun(s, [x, y])
    ensures Possible(s, x) && Possible(Apply(s, x), y) && Run(s, [x, y]) == Apply(Apply(s, x), y)
  {
    StepsPossible(s, [x, y]);
    assert [x, y][1..] == [y] && [y][1..] == [];
    RunOne(s, x, [y], [x, y]);
    ShapedStays(s, x);
    RunOne(Apply(s, x), y, [], [y]);
  }

  lemma CallSteps(s: State, id: TaskId, p: PaymentId)
    requires Shaped(s) && Works(s, id, p) && !s.tasks[id].Orphan? && s.tasks[id].stage == Calling(false)
    ensures PossibleRun(s, [Executes(id), Returns(id, true)]) && PossibleRun(s, [Executes(id), Returns(id, false)])
    ensures var u := Run(s, [Executes(id), Returns(id, true)]);
      u.desk == Pay(s.desk, p) && u.tasks == s.tasks[id := s.tasks[id].(stage := Returned)]
    ensures var u := Run(s, [Executes(id), Returns(id, false)]);
      u.desk == Pay(s.desk, p) && u.tasks == s.tasks[id := s.tasks[id].(stage := Failed)]
  {
    StepsOfTwo(s, Executes(id), Returns(id, true));
    StepsOfTwo(s, Executes(id), Returns(id, false));
  }

  /** One row of a sweep, from the call to the next row. */
  lemma RowUninterrupted(s: State, id: TaskId, f: Fate, now: int)
    requires Shaped(s) && id in s.tasks && s.tasks[id].Sweeping? && s.tasks[id].stage == Calling(false)
    requires var item := s.tasks[id].todo[0]; item.p in s.desk.retries && item.attempts == s.desk.retries[item.p].attempts
    ensures PossibleRun(s, Steps(id, f, now))
    ensures var u := Run(s, Steps(id, f, now));
      u.desk == Attempt(s.desk, s.tasks[id].todo[0].p, f, now) && u.tasks == NextRow(s, id).tasks
  {
    StepsPossible(s, Steps(id, f, now));
    match f
    case Refused => RefusedRow(s, id, now);
    case ReplyLost => LostRow(s, id, now);
    case MarkFails(kept) => UnmarkedRow(s, id, kept, now);
    case Succeeds => SucceedingRow(s, id, now);
  }

  lemma RefusedRow(s: State, id: TaskId, now: int)
    requires Shaped(s) && id in s.tasks && s.tasks[id].Sweeping? && s.tasks[id].stage == Calling(false)
    requires var item := s.tasks[id].todo[0]; item.p in s.desk.retries && item.attempts == s.desk.retries[item.p].attempts
    ensures PossibleRun(s, Steps(id, Refused, now))
    ensures var u := Run(s, Steps(id, Refused, now));
      u.desk == Attempt(s.desk, s.tasks[id].todo[0].p, Refused, now) && u.tasks == NextRow(s, id).tasks
  {
    StepsOfTwo(s, Returns(id, false), Writes(id, Done, now));
    CatchIsAfterFailure(AtStage(s, id, Failed), s, id, now);
  }

  /** From the catch on, with the row as it was read. */
  lemma CatchIsAfterFailure(c: State, s: State, id: TaskId, now: int)
    requires id in s.tasks && s.tasks[id].Sweeping? && s.tasks[id].todo != []
    requires c.tasks == s.tasks[id := Sweeping(s.tasks[id].todo, Failed)] && c.desk.retries == s.desk.retries
    requires var item := s.tasks[id].todo[0]; item.p in s.desk.retries && item.attempts == s.desk.retries[item.p].attempts
    ensures var u, p := SweepWrites(c, id, Done, now), s.tasks[id].todo[0].p;
      && u.desk == c.desk.(retries := s.desk.retries[p := AfterFailure(s.desk.retries[p], now)])
      && u.tasks == NextRow(s, id).tasks
  {
    var item := s.tasks[id].todo[0];
    assert s.desk.retries[item.p].(attempts := item.attempts) == s.desk.retries[item.p];
    assert c.tasks - {id} == s.tasks - {id};
  }

  lemma LostRow(s: State, id: TaskId, now: int)
    requires Shaped(s) && id in s.tasks && s.tasks[id].Sweeping? && s.tasks[id].stage == Calling(false)
    requires var item := s.tasks[id].todo[0]; item.p in s.desk.retries && item.attempts == s.desk.retries[item.p].attempts
    ensures PossibleRun(s, Steps(id, ReplyLost, now))
    ensures var u := Run(s, Steps(id, ReplyLost, now));
      u.desk == Attempt(s.desk, s.tasks[id].todo[0].p, ReplyLost, now) && u.tasks == NextRow(s, id).tasks
  {
    var call, w := [Executes(id), Returns(id, false)], Writes(id, Done, now);
    CallSteps(s, id, s.tasks[id].todo[0].p);
    StepsPossible(s, call);
    var c := Run(s, call);
    RunOne(c, w, [], [w]);
    RunConcat(s, call, [w]);
    assert call + [w] == Steps(id, ReplyLost, now);
    CatchIsAfterFailure(c, s, id, now);
  }

  lemma UnmarkedRow(s: State, id: TaskId, kept: bool, now: int)
    requires Shaped(s) && id in s.tasks && s.tasks[id].Sweeping? && s.tasks[id].stage == Calling(false)
    requires var item := s.tasks[id].todo[0]; item.p in s.desk.retries && item.attempts == s.desk.retries[item.p].attempts
    ensures PossibleRun(s, Steps(id, MarkFails(kept), now))
    ensures var u := Run(s, Steps(id, MarkFails(kept), now));
      u.desk == Attempt(s.desk, s.tasks[id].todo[0].p, MarkFails(kept), now) && u.tasks == NextRow(s, id).tasks
  {
    var p := s.tasks[id].todo[0].p;
    var call := [Executes(id), Returns(id, true)];
    var x, y := Writes(id, if kept then Unacknowledged else Rejected(false), now), Writes(id, Done, now);
    CallSteps(s, id, p);
    StepsPossible(s, call);
    var c := Run(s, call);
    StepsOfTwo(c, x, y);
    RunConcat(s, call, [x, y]);
    assert call + [x, y] == Steps(id, MarkFails(kept), now);
    var d := Apply(c, x);
    assert d.tasks == s.tasks[id := Sweeping(s.tasks[id].todo, Failed)];
    CatchIsAfterFailure(d, s, id, now);
  }

  lemma SucceedingRow(s: State, id: TaskId, now: int)
    requires Shaped(s) && id in s.tasks && s.tasks[id].Sweeping? && s.tasks[id].stage == Calling(false)
    requires var item := s.tasks[id].todo[0]; item.p in s.desk.retries && item.attempts == s.desk.retries[item.p].attempts
    ensures PossibleRun(s, Steps(id, Succeeds, now))
    ensures var u := Run(s, Steps(id, Succeeds, now));
      u.desk == Attempt(s.desk, s.tasks[id].todo[0].p, Succeeds, now) && u.tasks == NextRow(s, id).tasks
  {
    var p := s.tasks[id].todo[0].p;
    var call, w := [Executes(id), Returns(id, true)], Writes(id, Done, now);
    CallSteps(s, id, p);
    StepsPossible(s, call);
    var c := Run(s, call);
    StepsOfTwo(c, w, w);
    RunConcat(s, call, [w, w]);
    assert call + [w, w] == Steps(id, Succeeds, now);
    MarksAreSuccess(c, s, id, now);
  }

  /** From the gateway's reply on, with both writes acknowledged. */
  lemma MarksAreSuccess(c: State, s: State, id: TaskId, now: int)
    requires Shaped(c) && id in s.tasks && s.tasks[id].Sweeping? && s.tasks[id].todo != [] && s.tasks[id].todo[0].p in s.desk.retries
    requires c.tasks == s.tasks[id := Sweeping(s.tasks[id].todo, Returned)] && c.desk == Pay(s.desk, s.tasks[id].todo[0].p)
    ensures Shaped(SweepWrites(c, id, Done, now)) && SweepWrites(c, id, Done, now).tasks[id].Sweeping?
    ensures var u := SweepWrites(SweepWrites(c, id, Done, now), id, Done, now);
      u.desk == Attempt(s.desk, s.tasks[id].todo[0].p, Succeeds, now) && u.tasks == NextRow(s, id).tasks
  {
    var d := SweepWrites(c, id, Done, now);
    assert d.tasks == s.tasks[id := d.tasks[id]] && d.tasks[id].todo == s.tasks[id].todo && d.tasks[id].stage.Marked?;
    assert d.tasks - {id} == s.tasks - {id};
  }

  // ---- Writes that go wrong.

  /** A rejected write leaves the desk as it was; with a rollback it may take back this sweep's own mark, and nothing else. */
  lemma RejectedWritesNothing(s: State, id: TaskId, undone: bool, now: int)
    requires Shaped(s)
    ensures var u := Apply(s, Writes(id, Rejected(undone), now));
      && u.desk.retries == s.desk.retries && u.desk.paid == s.desk.paid
      && (u.desk.refunded == s.desk.refunded
          || (undone && id in s.tasks && s.tasks[id].Sweeping? && s.tasks[id].stage == Marked(true)
              && u.desk.refunded == s.desk.refunded - {Head(s.tasks[id])}))
  {
  }

  /** A write whose acknowledgment is lost has been written all the same. */
  lemma UnacknowledgedIsWritten(s: State, id: TaskId, now: int)
    requires Shaped(s)
    ensures Apply(s, Writes(id, Unacknowledged, now)).desk == Apply(s, Writes(id, Done, now)).desk
  {
  }

  /** If even the record of a failure cannot be written the handler is over, and the rows it had left wait for another sweep. */
  lemma FailedCatchEndsTheHandler(s: State, id: TaskId, w: Write, now: int)
    requires Shaped(s) && id in s.tasks && !s.tasks[id].Orphan? && s.tasks[id].stage.Failed? && !w.Done?
    ensures var u := Apply(s, Writes(id, w, now));
      u.tasks == s.tasks - {id} && forall p | p != Head(s.tasks[id]) :: IsPending(u, p) <==> IsPending(s, p)
  {
  }

  /** A row whose mark is written, and whose own update ends like `w`. */
  function RowWriteSteps(id: TaskId, w: Write, now: int): seq<Event> {
    [Executes(id), Returns(id, true), Writes(id, Done, now), Writes(id, w, now), Writes(id, Done, now)]
  }

  lemma RunToTheRow(s: State, id: TaskId, w: Write, now: int)
    requires Shaped(s) && id in s.tasks && s.tasks[id].Sweeping? && s.tasks[id].stage == Calling(false)
    ensures PossibleRun(s, RowWriteSteps(id, w, now))
    ensures var p := s.tasks[id].todo[0].p;
      var c := Run(s, [Executes(id), Returns(id, true)]);
      && PossibleRun(s, [Executes(id), Returns(id, true)])
      && c.desk == Pay(s.desk, p) && c.tasks == s.tasks[id := Sweeping(s.tasks[id].todo, Returned)] && Shaped(c)
      && var d := Apply(c, Writes(id, Done, now));
      && Shaped(d) && var e := Apply(d, Writes(id, w, now));
      && Shaped(e) && Run(s, RowWriteSteps(id, w, now)) == Apply(e, Writes(id, Done, now))
  {
    var call := [Executes(id), Returns(id, true)];
    var x, y := Writes(id, Done, now), Writes(id, w, now);
    CallSteps(s, id, s.tasks[id].todo[0].p);
    StepsPossible(s, call);
    StepsPossible(s, RowWriteSteps(id, w, now));
    var c := Run(s, call);
    StepsPossible(c, [x, y, x]);
    assert [x, y, x][1..] == [y, x];
    ShapedStays(c, x);
    RunOne(c, x, [y, x], [x, y, x]);
    StepsOfTwo(Apply(c, x), y, x);
    ShapedStays(Apply(c, x), y);
    RunConcat(s, call, [x, y, x]);
    assert call + [x, y, x] == RowWriteSteps(id, w, now);
  }

  /** The two marks of a sweep are one transaction: if the row's is rejected and rolled back, the attempt counts as one whose mark failed. */
  lemma RolledBackRow(s: State, id: TaskId, undone: bool, now: int)
    requires Shaped(s) && id in s.tasks && s.tasks[id].Sweeping? && s.tasks[id].stage == Calling(false)
    requires var item := s.tasks[id].todo[0]; item.p in s.desk.retries && item.attempts == s.desk.retries[item.p].attempts
    ensures PossibleRun(s, RowWriteSteps(id, Rejected(undone), now))
    ensures var u, p := Run(s, RowWriteSteps(id, Rejected(undone), now)), s.tasks[id].todo[0].p;
      u.desk == Attempt(s.desk, p, MarkFails(!undone || p in s.desk.refunded), now) && u.tasks == NextRow(s, id).tasks
  {
    RunToTheRow(s, id, Rejected(undone), now);
    var p := s.tasks[id].todo[0].p;
    var c := Run(s, [Executes(id), Returns(id, true)]);
    var d := Apply(c, Writes(id, Done, now));
    var e := Apply(d, Writes(id, Rejected(undone), now));
    assert e.tasks == s.tasks[id := Sweeping(s.tasks[id].todo, Failed)];
    assert e.desk.refunded == Charge(s.desk, p, MarkFails(!undone || p in s.desk.refunded)).refunded;
    CatchIsAfterFailure(e, s, id, now);
  }

  /** If they are committed and the answer is lost, the payment is marked and its row is not pending again. */
  lemma UnacknowledgedRow(s: State, id: TaskId, now: int)
    requires Shaped(s) && id in s.tasks && s.tasks[id].Sweeping? && s.tasks[id].stage == Calling(false)
    requires s.tasks[id].todo[0].p in s.desk.retries
    ensures PossibleRun(s, RowWriteSteps(id, Unacknowledged, now))
    ensures var u, p := Run(s, RowWriteSteps(id, Unacknowledged, now)), s.tasks[id].todo[0].p;
      && p in u.desk.refunded && !IsPending(u, p) && Paid(u.desk, p) == Paid(s.desk, p) + 1
      && p in u.desk.retries && u.desk.retries[p].attempts == s.tasks[id].todo[0].attempts + 1
      && u.tasks == NextRow(s, id).tasks
  {
    RunToTheRow(s, id, Unacknowledged, now);
    var c := Run(s, [Executes(id), Returns(id, true)]);
    var d := Apply(c, Writes(id, Done, now));
    var e := Apply(d, Writes(id, Unacknowledged, now));
    assert e.tasks == s.tasks[id := Sweeping(s.tasks[id].todo, Failed)];
    assert e.tasks - {id} == s.tasks - {id};
  }

  // ---- The handler of a first refund.

  function IssueSteps(id: TaskId, f: Fate, now: int): seq<Event> {
    match f
    case Succeeds => [Executes(id), Returns(id, true), Writes(id, Done, now)]
    case _ => Steps(id, f, now)
  }

  lemma TwoCallsThen(s: State, id: TaskId, ok: bool, rest: seq<Event>)
    requires StartsIssuing(s, id)
    requires forall ev | ev in rest :: !ev.StartSweep?
    ensures PossibleRun(s, [Executes(id), Returns(id, ok)] + rest)
    ensures var p := s.tasks[id].p;
      var c := Run(s, [Executes(id), Returns(id, ok)]);
      && PossibleRun(s, [Executes(id), Returns(id, ok)]) && Shaped(c)
      && c.desk == Pay(s.desk, p) && c.tasks == s.tasks[id := Issuing(p, if ok then Returned else Failed)]
      && PossibleRun(c, rest) && Run(s, [Executes(id), Returns(id, ok)] + rest) == Run(c, rest)
  {
    var call := [Executes(id), Returns(id, ok)];
    CallSteps(s, id, s.tasks[id].p);
    StepsPossible(s, call);
    StepsPossible(Run(s, call), rest);
    RunConcat(s, call, rest);
  }

  predicate StartsIssuing(s: State, id: TaskId) {
    Shaped(s) && id in s.tasks && s.tasks[id].Issuing? && s.tasks[id].stage == Calling(false)
  }

  lemma IssueOneWrite(s: State, id: TaskId, f: Fate, now: int)
    requires StartsIssuing(s, id) && (f.ReplyLost? || f.Succeeds?)
    ensures PossibleRun(s, IssueSteps(id, f, now))
    ensures var u := Run(s, IssueSteps(id, f, now));
      u.desk == IssueRefund(s.desk, s.tasks[id].p, f, now) && u.tasks == s.tasks - {id}
  {
    var done := Writes(id, Done, now);
    TwoCallsThen(s, id, f.Succeeds?, [done]);
    assert [Executes(id), Returns(id, f.Succeeds?)] + [done] == IssueSteps(id, f, now);
    RunOne(Run(s, [Executes(id), Returns(id, f.Succeeds?)]), done, [], [done]);
  }

  lemma IssueMarkFails(s: State, id: TaskId, kept: bool, now: int)
    requires StartsIssuing(s, id)
    ensures PossibleRun(s, IssueSteps(id, MarkFails(kept), now))
    ensures var u := Run(s, IssueSteps(id, MarkFails(kept), now));
      u.desk == IssueRefund(s.desk, s.tasks[id].p, MarkFails(kept), now) && u.tasks == s.tasks - {id}
  {
    var x, done := Writes(id, if kept then Unacknowledged else Rejected(false), now), Writes(id, Done, now);
    TwoCallsThen(s, id, true, [x, done]);
    assert [Executes(id), Returns(id, true)] + [x, done] == IssueSteps(id, MarkFails(kept), now);
    StepsOfTwo(Run(s, [Executes(id), Returns(id, true)]), x, done);
  }

  lemma IssueRefused(s: State, id: TaskId, now: int)
    requires StartsIssuing(s, id)
    ensures PossibleRun(s, IssueSteps(id, Refused, now))
    ensures var u := Run(s, IssueSteps(id, Refused, now));
      u.desk == IssueRefund(s.desk, s.tasks[id].p, Refused, now) && u.tasks == s.tasks - {id}
  {
    StepsOfTwo(s, Returns(id, false), Writes(id, Done, now));
  }

  lemma IssueBody(s: State, id: TaskId, f: Fate, now: int)
    requires StartsIssuing(s, id)
    ensures PossibleRun(s, IssueSteps(id, f, now))
    ensures var u := Run(s, IssueSteps(id, f, now));
      u.desk == IssueRefund(s.desk, s.tasks[id].p, f, now) && u.tasks == s.tasks - {id}
  {
    match f
    case Refused => IssueRefused(s, id, now);
    case MarkFails(kept) => IssueMarkFails(s, id, kept, now);
    case _ => IssueOneWrite(s, id, f, now);
  }

  /** An issued refund that nothing interrupts does what Refunds.IssueRefund says. */
  lemma IssueUninterrupted(s: State, id: TaskId, p: PaymentId, f: Fate, now: int)
    requires Shaped(s) && id !in s.tasks
    ensures PossibleRun(s, [StartIssue(id, p)] + IssueSteps(id, f, now))
    ensures var u := Run(s, [StartIssue(id, p)] + IssueSteps(id, f, now));
      u.desk == IssueRefund(s.desk, p, f, now) && u.tasks == s.tasks
  {
    var start := StartIssue(id, p);
    var c := Apply(s, start);
    IssueBody(c, id, f, now);
    var rest := IssueSteps(id, f, now);
    assert ([start] + rest)[1..] == rest;
    RunOne(s, start, rest, [start] + rest);
    assert c.tasks - {id} == s.tasks;
  }

  lemma SweepStepsAreSteps(id: TaskId, rows: seq<PaymentId>, fates: map<PaymentId, Fate>, now: int)
    ensures forall ev | ev in SweepSteps(id, rows, fates, now) :: !ev.StartSweep?
  {
  }

  /** After `n` rows the desk is that of the atomic sweep, and the rest of the list is still to do. */
  lemma {:induction false} SweepSoFar(s: State, c: State, id: TaskId, rows: seq<PaymentId>, n: nat, fates: map<PaymentId, Fate>, now: int)
    requires Shaped(s) && Selected(s.desk, rows, now) && id !in s.tasks && n <= |rows|
    requires forall i | 0 <= i < |rows| :: rows[i] in s.desk.retries
    requires rows != [] && c.desk == s.desk && c.tasks == s.tasks[id := Sweeping(Items(s.desk, rows), Calling(false))]
    ensures PossibleRun(c, SweepSteps(id, rows[..n], fates, now))
    ensures var u := Run(c, SweepSteps(id, rows[..n], fates, now));
      && u.desk == Process(s.desk, rows[..n], fates, now) && Shaped(u)
      && u.tasks == if n == |rows| then s.tasks else s.tasks[id := Sweeping(Items(s.desk, rows)[n..], Calling(false))]
  {
    SweepStepsAreSteps(id, rows[..n], fates, now);
    StepsPossible(c, SweepSteps(id, rows[..n], fates, now));
    if n == 0 {
      assert rows[..0] == [] && Items(s.desk, rows)[0..] == Items(s.desk, rows);
    } else {
      SweepSoFar(s, c, id, rows, n - 1, fates, now);
      NextSweepRow(s, c, id, rows, n - 1, fates, now);
    }
  }

  lemma ListMovesOn(v: State, tasks: map<TaskId, Task>, id: TaskId, items: seq<Item>, n: nat)
    requires n < |items| && id !in tasks && v.tasks == tasks[id := Sweeping(items[n..], Calling(false))]
    ensures NextRow(v, id).tasks == if n + 1 == |items| then tasks else tasks[id := Sweeping(items[n + 1..], Calling(false))]
  {
    assert items[n..][1..] == items[n + 1..];
    assert tasks[id := Sweeping(items[n..], Calling(false))] - {id} == tasks;
  }

  lemma UntouchedSoFar(d: Desk, rows: seq<PaymentId>, n: nat, fates: map<PaymentId, Fate>, now: int)
    requires n < |rows| && forall i | 0 <= i < |rows| :: rows[i] in d.retries
    requires forall i, j | 0 <= i < j < |rows| :: rows[i] != rows[j]
    ensures var e := Process(d, rows[..n], fates, now);
      && rows[n] in e.retries && e.retries[rows[n]] == d.retries[rows[n]]
      && Process(d, rows[..n + 1], fates, now) == Attempt(e, rows[n], FateOf(fates, rows[n]), now)
  {
    ProcessEach(d, rows[..n], fates, now);
    assert rows[n] !in rows[..n];
    assert rows[..n + 1][..n] == rows[..n];
  }

  lemma NextSweepRow(s: State, c: State, id: TaskId, rows: seq<PaymentId>, n: nat, fates: map<PaymentId, Fate>, now: int)
    requires Shaped(s) && Selected(s.desk, rows, now) && id !in s.tasks && n < |rows|
    requires forall i | 0 <= i < |rows| :: rows[i] in s.desk.retries
    requires PossibleRun(c, SweepSteps(id, rows[..n], fates, now))
    requires var v := Run(c, SweepSteps(id, rows[..n], fates, now));
      && v.desk == Process(s.desk, rows[..n], fates, now) && Shaped(v)
      && v.tasks == s.tasks[id := Sweeping(Items(s.desk, rows)[n..], Calling(false))]
    ensures PossibleRun(c, SweepSteps(id, rows[..n + 1], fates, now))
    ensures var u := Run(c, SweepSteps(id, rows[..n + 1], fates, now));
      && u.desk == Process(s.desk, rows[..n + 1], fates, now)
      && u.tasks == if n + 1 == |rows| then s.tasks else s.tasks[id := Sweeping(Items(s.desk, rows)[n + 1..], Calling(false))]
  {
    var f := FateOf(fates, rows[n]);
    var v := Run(c, SweepSteps(id, rows[..n], fates, now));
    assert rows[..n + 1][..n] == rows[..n] && rows[..n + 1][n] == rows[n];
    UntouchedSoFar(s.desk, rows, n, fates, now);
    var items := Items(s.desk, rows);
    assert items[n..][0] == items[n] == Item(rows[n], s.desk.retries[rows[n]].attempts);
    assert items[n..][1..] == items[n + 1..];
    RowUninterrupted(v, id, f, now);
    RunConcat(c, SweepSteps(id, rows[..n], fates, now), Steps(id, f, now));
    ListMovesOn(v, s.tasks, id, items, n);
  }

  /** A sweep that nothing interrupts does what Refunds.Process says. */
  lemma SweepUninterrupted(s: State, id: TaskId, rows: seq<PaymentId>, fates: map<PaymentId, Fate>, now: int)
    requires Shaped(s) && Selected(s.desk, rows, now) && id !in s.tasks && rows != []
    requires forall i | 0 <= i < |rows| :: rows[i] in s.desk.retries
    ensures PossibleRun(s, [StartSweep(id, rows, now)] + SweepSteps(id, rows, fates, now))
    ensures var u := Run(s, [StartSweep(id, rows, now)] + SweepSteps(id, rows, fates, now));
      u.desk == Process(s.desk, rows, fates, now) && u.tasks == s.tasks
  {
    var start := StartSweep(id, rows, now);
    var c := Apply(s, start);
    SweepSoFar(s, c, id, rows, |rows|, fates, now);
    assert rows[..|rows|] == rows;
    var rest := SweepSteps(id, rows, fates, now);
    assert ([start] + rest)[1..] == rest;
    RunOne(s, start, rest, [start] + rest);
  }
}

module RefundTasksImpl {
  import opened Refunds
  import opened RefundTasks

  /** The handlers of the refund worker, from one await to the next. */
  class RefundWorker {
    var refunded: set<PaymentId>
    var retries: map<PaymentId, Retry>
    var tasks: map<TaskId, Task>
    ghost var paid: map<PaymentId, nat>
    ghost var returned: set<PaymentId>

    ghost function Contents(): State
      reads this
    {
      State(Desk(refunded, retries, paid), tasks, returned)
    }

    constructor ()
      ensures Contents() == START && Sound(Contents())
    {
      refunded, retries, tasks, paid, returned := {}, map[], map[], map[], {};
    }

    /** `issueRefund` up to its first await. */
    method IssueRefund(id: TaskId, p: PaymentId)
      requires Sound(Contents()) && id !in tasks
      modifies this`tasks
      ensures Contents() == RefundTasks.Apply(old(Contents()), StartIssue(id, p))
    {
      tasks := tasks[id := Issuing(p, Calling(false))];
    }

    /** `processRefundRetries` up to its first gateway call; `rows` is what the query returned. */
    method ProcessRefundRetries(id: TaskId, rows: seq<PaymentId>, now: int)
      requires Sound(Contents()) && id !in tasks && Selected(Contents().desk, rows, now)
      modifies this`tasks
      ensures Contents() == RefundTasks.Apply(old(Contents()), StartSweep(id, rows, now))
    {
      if rows == [] {
        return;
      }
      var items := [];
      for i := 0 to |rows|
        invariant items == Items(Contents().desk, rows)[..i]
      {
        assert Due(Contents().desk, rows[i], now);
        items := items + [Item(rows[i], retries[rows[i]].attempts)];
      }
      assert items == Items(Contents().desk, rows);
      tasks := tasks[id := Sweeping(items, Calling(false))];
    }

    /** The gateway's reply, or the error of the call. */
    method OnReply(id: TaskId, ok: bool)
      requires Sound(Contents()) && id in tasks && !tasks[id].Orphan? && tasks[id].stage.Calling?
      requires ok ==> tasks[id].stage.executed
      modifies this`tasks, this`returned
      ensures Contents() == RefundTasks.Apply(old(Contents()), Returns(id, ok))
    {
      assert TaskOk(Contents(), tasks[id]);
      if ok {
        returned := returned + {Head(tasks[id])};
        tasks := tasks[id := tasks[id].(stage := Returned)];
      } else {
        tasks := tasks[id := tasks[id].(stage := Failed)];
      }
    }

    method NextRow(id: TaskId)
      requires id in tasks && tasks[id].Sweeping? && tasks[id].todo != []
      modifies this`tasks
      ensures Contents() == RefundTasks.NextRow(old(Contents()), id)
    {
      var rest := tasks[id].todo[1..];
      if rest == [] {
        tasks := tasks - {id};
      } else {
        tasks := tasks[id := Sweeping(rest, Calling(false))];
      }
    }

    /** The UPDATE of the payment, in either handler. */
    method OnPaymentWrite(id: TaskId, w: Write, now: int)
      requires Sound(Contents()) && id in tasks && !tasks[id].Orphan? && tasks[id].stage.Returned?
      modifies this`refunded, this`tasks
      ensures Contents() == RefundTasks.Apply(old(Contents()), Writes(id, w, now))
    {
      assert TaskOk(Contents(), tasks[id]);
      var p := Head(tasks[id]);
      var first := p !in refunded;
      if !w.Rejected? {
        refunded := refunded + {p};
      }
      if !w.Done? {
        tasks := tasks[id := tasks[id].(stage := Failed)];
      } else if tasks[id].Issuing? {
        tasks := tasks - {id};
      } else {
        tasks := tasks[id := Sweeping(tasks[id].todo, Marked(first))];
      }
    }

    /** The UPDATE of the retry row, and COMMIT. */
    method OnRowWrite(id: TaskId, w: Write, now: int)
      requires Sound(Contents()) && id in tasks && tasks[id].Sweeping? && tasks[id].stage.Marked?
      modifies this`refunded, this`retries, this`tasks
      ensures Contents() == RefundTasks.Apply(old(Contents()), Writes(id, w, now))
    {
      assert TaskOk(Contents(), tasks[id]);
      var p := tasks[id].todo[0].p;
      if w.Rejected? {
        if w.undone && tasks[id].stage.first {
          refunded := refunded - {p};
        }
        tasks := tasks[id := Sweeping(tasks[id].todo, Failed)];
        return;
      }
      retries := retries[p := retries[p].(status := Succeeded)];
      if w.Done? {
        NextRow(id);
      } else {
        tasks := tasks[id := Sweeping(tasks[id].todo, Failed)];
      }
    }

    /** The write in the catch; if it fails the handler throws. */
    method OnCatchWrite(id: TaskId, w: Write, now: int)
      requires Sound(Contents()) && id in tasks && !tasks[id].Orphan? && tasks[id].stage.Failed?
      modifies this`retries, this`tasks
      ensures Contents() == RefundTasks.Apply(old(Contents()), Writes(id, w, now))
    {
      assert TaskOk(Contents(), tasks[id]);
      if tasks[id].Issuing? {
        var p := tasks[id].p;
        if !w.Rejected? {
          var attempts := if p in retries then retries[p].attempts + 1 else 1;
          retries := retries[p := Retry(attempts, now + BackoffMs(0), Pending)];
        }
        tasks := tasks - {id};
        return;
      }
      var item := tasks[id].todo[0];
      if !w.Rejected? {
        var attempts := item.attempts + 1;
        if attempts >= MAX_ATTEMPTS {
          retries := retries[item.p := retries[item.p].(attempts := attempts, status := Exhausted)];
        } else {
          retries := retries[item.p := retries[item.p].(attempts := attempts, nextAttemptAt := now + BackoffMs(attempts))];
        }
      }
      if w.Done? {
        NextRow(id);
      } else {
        tasks := tasks - {id};
      }
    }
  }
}
