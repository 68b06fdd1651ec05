/**
 The two-authority reservation protocol as a step system: one node and its ledger, the
 platform's rows for that node, and the connection between them.

 Request handlers and sweeps of the platform run concurrently; each is a `Task` that takes one
 step between two awaits. Replies are correlated by reservation id through `pending`, exactly as
 the hub does it. The scheduler, the network, both clocks and crashes are the event list.
 */
module Protocol {
  import opened Options
  import opened Machine
  import L = NodeLedger
  import Receipts

  type Id = L.Id
  type TaskId = nat

  /** Platform to node, over the socket that the node opened. */
  datatype Request =
    | ReserveRequest(id: Id, startsAt: int, endsAt: int)
    | ReserveCommit(id: Id)
    | StatusQuery(id: Id)
    | ReserveRelease(id: Id)

  /** Node to platform. */
  datatype Reply =
    | ReceiptReply(id: Id, receipt: L.Receipt)
    | Deny(id: Id)
    | Committed(id: Id)
    | CommitFailed(id: Id)
    | StatusReply(id: Id, status: Option<L.Status>)
    | ReleaseAck(id: Id)

  /** A platform row. `captured` says that the ledger holds the transaction 'capture-<id>'. */
  datatype Row = Row(startsAt: int, endsAt: int, status: RStatus, holdExpiresAt: int, captured: bool, reconciled: bool)

  /** Where a handler stands with respect to its current await; `Failed` is offline or timed out. */
  datatype Phase = Ready | Awaiting | Got(reply: Reply) | Failed

  datatype Task =
    | Booking(id: Id, startsAt: int, endsAt: int, price: int, phase: Phase)
    | Confirm(id: Id, phase: Phase)
    | Query(id: Id, phase: Phase)
    | Releasing(id: Id, phase: Phase)

  datatype Sys = Sys(
    node: L.Table, nodePrice: int, ttlMs: int,
    rows: map<Id, Row>,
    tasks: map<TaskId, Task>,
    pending: map<Id, TaskId>,
    down: seq<Request>, up: seq<Reply>, connected: bool,
    // History, read by no step: ids whose commit returned true, ids whose entry was released.
    commits: set<Id>, releases: set<Id>)

  datatype Event =
    | Book(task: TaskId, id: Id, startsAt: int, endsAt: int, price: int)
    | FinishBooking(task: TaskId, now: int)
    | StartConfirm(task: TaskId, id: Id)
    | SendCommit(task: TaskId)
    | FinishConfirm(task: TaskId)
    | Sweep(now: int)
    | SelectMismatch(task: TaskId, id: Id)
    | SendQuery(task: TaskId)
    | FinishQuery(task: TaskId)
    | FinishRelease(task: TaskId)
    | StartJob(id: Id)
    | Settle(id: Id, outcome: RStatus)
    | Receive
    | Timeout(task: TaskId)
    | NodeStep(now: int)
    | NodeHeartbeat(now: int)
    | Disconnect
    | Connect
    | PlatformCrash

  const GRACE_MS := 500

  function Init(nodePrice: int, ttlMs: int): Sys {
    Sys(map[], nodePrice, ttlMs, map[], map[], map[], [], [], false, {}, {})
  }

  // ---------------------------------------------------------------------------------------
  // Steps. An event that is not enabled leaves the state as it is.
  // ---------------------------------------------------------------------------------------

  /** `_sendAwait`: register the promise under the id, overwriting any other, and send. */
  function SendAwait(s: Sys, task: TaskId, awaiting: Task, m: Request): Sys {
    s.(tasks := s.tasks[task := awaiting], pending := s.pending[awaiting.id := task], down := s.down + [m])
  }

  function Drop(s: Sys, task: TaskId): Sys {
    s.(tasks := s.tasks - {task})
  }

  predicate Occupied(s: Sys, id: Id, startsAt: int, endsAt: int) {
    exists j | j in s.rows ::
      j != id && Excluded(s.rows[j].status) && s.rows[j].startsAt < endsAt && s.rows[j].endsAt > startsAt
  }

  predicate Admitted(t: Task, now: int)
    requires t.Booking?
  {
    t.phase.Got? && t.phase.reply.ReceiptReply?
    && Receipts.AdmitReceipt(true, 0, t.phase.reply.receipt,
         Receipts.Expected(0, t.id, t.startsAt, t.endsAt, t.price), now).None?
  }

  function ApplyFinishBooking(s: Sys, task: TaskId, now: int): Sys {
    if task in s.tasks && s.tasks[task].Booking? && (s.tasks[task].phase.Got? || s.tasks[task].phase.Failed?) then
      var t := s.tasks[task];
      if Admitted(t, now) && t.id !in s.rows && !Occupied(s, t.id, t.startsAt, t.endsAt) then
        Drop(s, task).(rows := s.rows[t.id :=
          Row(t.startsAt, t.endsAt, Held, t.phase.reply.receipt.holdExpiresAt, false, false)])
      else Drop(s, task)
    else s
  }

  function ApplySendCommit(s: Sys, task: TaskId): Sys {
    if task in s.tasks && s.tasks[task].Confirm? && s.tasks[task].phase.Ready? then
      var id := s.tasks[task].id;
      if s.connected then SendAwait(s, task, Confirm(id, Awaiting), ReserveCommit(id))
      else s.(tasks := s.tasks[task := Confirm(id, Failed)])
    else s
  }

  /** The confirm handler has nothing to write, or the unique capture key rejects the write. */
  predicate CaptureRefused(s: Sys, t: Task)
    requires t.Confirm? && t.phase.Got?
  {
    || t.phase.reply.CommitFailed?
    || t.id !in s.rows
    || s.rows[t.id].captured
    || Occupied(s, t.id, s.rows[t.id].startsAt, s.rows[t.id].endsAt)
  }

  /** The rest of `commitNodeAndCapture`. Neither UPDATE rechecks the status it overwrites. */
  function ApplyFinishConfirm(s: Sys, task: TaskId): Sys {
    if task in s.tasks && s.tasks[task].Confirm? then
      var t := s.tasks[task];
      match t.phase
      case Failed =>
        if t.id in s.rows then Drop(s, task).(rows := s.rows[t.id := s.rows[t.id].(status := Expired)])
        else Drop(s, task)
      case Got(_) =>
        if CaptureRefused(s, t) then Drop(s, task)
        else Drop(s, task).(rows := s.rows[t.id := s.rows[t.id].(status := Confirmed, captured := true)])
      case _ => s
    else s
  }

  predicate Lapsed(r: Row, now: int) {
    (r.status == Pending || r.status == Held) && r.holdExpiresAt < now - GRACE_MS
  }

  function ApplySweep(s: Sys, now: int): Sys {
    s.(rows := map id | id in s.rows :: if Lapsed(s.rows[id], now) then s.rows[id].(status := Expired) else s.rows[id])
  }

  function ApplySendQuery(s: Sys, task: TaskId): Sys {
    if task in s.tasks && s.tasks[task].Query? && s.tasks[task].phase.Ready? then
      var id := s.tasks[task].id;
      if s.connected then SendAwait(s, task, Query(id, Awaiting), StatusQuery(id)) else Drop(s, task)
    else s
  }

  function Stamp(s: Sys, task: TaskId, id: Id): Sys {
    if id in s.rows then Drop(s, task).(rows := s.rows[id := s.rows[id].(reconciled := true)]) else Drop(s, task)
  }

  /** Any reply resolves the await; one that is not a status reads as `undefined`, not 'confirmed'. */
  function ApplyFinishQuery(s: Sys, task: TaskId): Sys {
    if task in s.tasks && s.tasks[task].Query? then
      var t := s.tasks[task];
      match t.phase
      case Failed => Drop(s, task)
      case Got(m) =>
        if m.StatusReply? && m.status == Some(L.Confirmed) then
          if s.connected then SendAwait(s, task, Releasing(t.id, Awaiting), ReserveRelease(t.id)) else Drop(s, task)
        else Stamp(s, task, t.id)
      case _ => s
    else s
  }

  function ApplyFinishRelease(s: Sys, task: TaskId): Sys {
    if task in s.tasks && s.tasks[task].Releasing? then
      match s.tasks[task].phase
      case Failed => Drop(s, task)
      case Got(_) => Stamp(s, task, s.tasks[task].id)
      case _ => s
    else s
  }

  /** `_resolvePending`: the reply resolves whatever promise is registered under its id. */
  function ApplyReceive(s: Sys): Sys {
    if s.up == [] then s
    else
      var m := s.up[0];
      var s1 := s.(up := s.up[1..]);
      if m.id in s.pending && s.pending[m.id] in s.tasks then
        var task := s.pending[m.id];
        s1.(pending := s.pending - {m.id}, tasks := s.tasks[task := s.tasks[task].(phase := Got(m))])
      else s1
  }

  /** The timer of `_sendAwait` deletes whatever entry its id has, and rejects its own promise. */
  function ApplyTimeout(s: Sys, task: TaskId): Sys {
    if task in s.tasks && s.tasks[task].phase.Awaiting? then
      s.(pending := s.pending - {s.tasks[task].id}, tasks := s.tasks[task := s.tasks[task].(phase := Failed)])
    else s
  }

  function Answer(s: Sys, m: Reply): Sys {
    if s.connected then s.(up := s.up + [m]) else s
  }

  function NodeLock(s: Sys, id: Id, st: int, en: int, now: int): Sys {
    var (t, outcome) := L.TryLock(s.node, s.ttlMs, id, st, en, s.nodePrice, now);
    if outcome.Granted? then Answer(s.(node := t), ReceiptReply(id, outcome.receipt))
    else if outcome.DuplicateId? then s.(connected := false, up := [])   // the error ends the session
    else Answer(s, Deny(id))
  }

  function NodeCommit(s: Sys, id: Id, now: int): Sys {
    var (t, ok) := L.Commit(s.node, id, now);
    if ok then Answer(s.(node := t, commits := s.commits + {id}), Committed(id))
    else Answer(s, CommitFailed(id))
  }

  function NodeRelease(s: Sys, id: Id): Sys {
    Answer(s.(node := L.Release(s.node, id), releases := s.releases + if id in s.node then {id} else {}), ReleaseAck(id))
  }

  /** The worker handles the next message; a reply to a dead connection is lost. */
  function ApplyNodeStep(s: Sys, now: int): Sys {
    if s.down == [] then s
    else
      var s1 := s.(down := s.down[1..]);
      match s.down[0]
      case ReserveRequest(id, st, en) => NodeLock(s1, id, st, en, now)
      case ReserveCommit(id) => NodeCommit(s1, id, now)
      case StatusQuery(id) => Answer(s1, StatusReply(id, L.StatusOf(s.node, id)))
      case ReserveRelease(id) => NodeRelease(s1, id)
  }

  function ApplyBook(s: Sys, task: TaskId, id: Id, st: int, en: int, price: int): Sys {
    if s.connected && task !in s.tasks
    then SendAwait(s, task, Booking(id, st, en, price, Awaiting), ReserveRequest(id, st, en)) else s
  }

  function ApplyStartConfirm(s: Sys, task: TaskId, id: Id): Sys {
    if task !in s.tasks && id in s.rows && CanTransition(s.rows[id].status, Confirmed)
    then s.(tasks := s.tasks[task := Confirm(id, Ready)]) else s
  }

  function ApplySelectMismatch(s: Sys, task: TaskId, id: Id): Sys {
    if task !in s.tasks && id in s.rows && s.rows[id].status == Expired && !s.rows[id].reconciled
    then s.(tasks := s.tasks[task := Query(id, Ready)]) else s
  }

  function ApplyStartJob(s: Sys, id: Id): Sys {
    if id in s.rows && s.rows[id].status == Confirmed
    then s.(rows := s.rows[id := s.rows[id].(status := Running)]) else s
  }

  function ApplySettle(s: Sys, id: Id, outcome: RStatus): Sys {
    if id in s.rows && JobOutcome(outcome) && CanTransition(s.rows[id].status, outcome)
    then s.(rows := s.rows[id := s.rows[id].(status := outcome)]) else s
  }

  function Apply(s: Sys, ev: Event): Sys {
    match ev
    case Book(task, id, st, en, price) => ApplyBook(s, task, id, st, en, price)
    case FinishBooking(task, now) => ApplyFinishBooking(s, task, now)
    case StartConfirm(task, id) => ApplyStartConfirm(s, task, id)
    case SendCommit(task) => ApplySendCommit(s, task)
    case FinishConfirm(task) => ApplyFinishConfirm(s, task)
    case Sweep(now) => ApplySweep(s, now)
    case SelectMismatch(task, id) => ApplySelectMismatch(s, task, id)
    case SendQuery(task) => ApplySendQuery(s, task)
    case FinishQuery(task) => ApplyFinishQuery(s, task)
    case FinishRelease(task) => ApplyFinishRelease(s, task)
    case StartJob(id) => ApplyStartJob(s, id)
    case Settle(id, outcome) => ApplySettle(s, id, outcome)
    case Receive => ApplyReceive(s)
    case Timeout(task) => ApplyTimeout(s, task)
    case NodeStep(now) => ApplyNodeStep(s, now)
    case NodeHeartbeat(now) => s.(node := L.ExpireStale(s.node, now))
    case Disconnect => s.(connected := false, up := [])
    case Connect => s.(connected := true, down := [], up := [])
    case PlatformCrash => s.(tasks := map[], pending := map[], connected := false, up := [])
  }

  function Run(s: Sys, evs: seq<Event>): Sys
    decreases evs
  {
    if evs == [] then s else Run(Apply(s, evs[0]), evs[1..])
  }

  // ---------------------------------------------------------------------------------------
  // Hypotheses about a run. The code checks none of them.
  // ---------------------------------------------------------------------------------------

  predicate Expects(t: Task, m: Reply) {
    match t
    case Booking(_, _, _, _, _) => m.ReceiptReply? || m.Deny?
    case Confirm(_, _) => m.Committed? || m.CommitFailed?
    case Query(_, _) => m.StatusReply?
    case Releasing(_, _) => m.ReleaseAck?
  }

  /** A reply that resolves an await has the type that await is for. The hub looks at ids only. */
  predicate Matched(s: Sys, ev: Event) {
    ev.Receive? && s.up != [] && s.up[0].id in s.pending && s.pending[s.up[0].id] in s.tasks ==>
      Expects(s.tasks[s.pending[s.up[0].id]], s.up[0])
  }

  predicate StillHeld(s: Sys, id: Id) {
    id in s.rows && s.rows[id].status == Held
  }

  /** What the reconciler sends. */
  predicate GivesUp(m: Request) {
    m.StatusQuery? || m.ReserveRelease?
  }

  /** A reply after which the reconciler has nothing left to do. */
  predicate Final(m: Reply) {
    m.ReleaseAck? || (m.StatusReply? && m.status != Some(L.Confirmed))
  }

  predicate Asked(s: Sys, id: Id) {
    exists m | m in s.down :: GivesUp(m) && m.id == id
  }

  /** The reconciler has recorded, or will hear, that the node does not keep the slot. */
  predicate Concluded(s: Sys, id: Id) {
    || (id in s.rows && s.rows[id].reconciled)
    || (exists m | m in s.up :: Final(m) && m.id == id)
    || (exists t | t in s.tasks :: s.tasks[t].phase.Got? && Final(s.tasks[t].phase.reply) && s.tasks[t].phase.reply.id == id)
  }

  /** A handler of the reconciler is at work on the id, and none of its calls has failed. */
  predicate Visited(s: Sys, id: Id) {
    exists t | t in s.tasks :: (s.tasks[t].Query? || s.tasks[t].Releasing?) && !s.tasks[t].phase.Failed? && s.tasks[t].id == id
  }

  predicate Reclaimed(s: Sys, id: Id) {
    Visited(s, id) || Asked(s, id) || Concluded(s, id) || id in s.releases
  }

  /** The node has let the slot go, and no commit brings it back. */
  predicate Dead(s: Sys, id: Id) {
    id in s.node && s.node[id].status == L.Released
  }

  /**
   A confirm sends no commit behind the reconciler's back, does not expire a captured row, and
   does not capture for an expired row that the reconciler has set out to reclaim.
   */
  predicate Timely(s: Sys, ev: Event) {
    match ev
    case SendCommit(task) =>
      task in s.tasks && s.tasks[task].Confirm? && s.tasks[task].phase.Ready? && s.connected ==>
        var id := s.tasks[task].id;
        Dead(s, id) || !(Asked(s, id) || Concluded(s, id))
    case FinishConfirm(task) =>
      task in s.tasks && s.tasks[task].Confirm? ==>
        var t := s.tasks[task];
        && (t.phase.Failed? && t.id in s.rows ==> !s.rows[t.id].captured)
        && (t.phase.Got? && !CaptureRefused(s, t) ==> StillHeld(s, t.id) || !Reclaimed(s, t.id))
    case _ => true
  }

  /** What the platform alone can check: a confirm in progress sends and writes only while its row is still held. */
  predicate Guarded(s: Sys, ev: Event) {
    match ev
    case SendCommit(task) =>
      task in s.tasks && s.tasks[task].Confirm? && s.tasks[task].phase.Ready? ==> StillHeld(s, s.tasks[task].id)
    case FinishConfirm(task) =>
      task in s.tasks && s.tasks[task].Confirm?
      && (s.tasks[task].phase.Failed? || (s.tasks[task].phase.Got? && !CaptureRefused(s, s.tasks[task]))) ==>
        StillHeld(s, s.tasks[task].id)
    case _ => true
  }

  predicate Idle(s: Sys, id: Id) {
    && id !in s.pending
    && (forall m | m in s.down :: m.id != id)
    && (forall m | m in s.up :: m.id != id)
  }

  /** One conversation at a time: nothing is sent about an id that has an await or a message in flight. */
  predicate Quiet(s: Sys, ev: Event) {
    match ev
    case Book(task, id, _, _, _) => Idle(s, id)
    case SendCommit(task) => task in s.tasks && s.tasks[task].phase.Ready? ==> Idle(s, s.tasks[task].id)
    case SendQuery(task) => task in s.tasks && s.tasks[task].phase.Ready? ==> Idle(s, s.tasks[task].id)
    case FinishQuery(task) => task in s.tasks && s.tasks[task].phase.Got? ==> Idle(s, s.tasks[task].id)
    case _ => true
  }

  datatype Rules = Rules(matched: bool, timely: bool, guarded: bool, quiet: bool)

  predicate Obeys(rules: Rules, s: Sys, ev: Event) {
    && (rules.matched ==> Matched(s, ev))
    && (rules.timely ==> Timely(s, ev))
    && (rules.guarded ==> Guarded(s, ev))
    && (rules.quiet ==> Quiet(s, ev))
  }

  predicate ObeysAll(rules: Rules, s: Sys, evs: seq<Event>)
    decreases evs
  {
    evs != [] ==> Obeys(rules, s, evs[0]) && ObeysAll(rules, Apply(s, evs[0]), evs[1..])
  }
}
