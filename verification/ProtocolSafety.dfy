/** What every run of the protocol keeps. */
module ProtocolSafety {
  import opened Options
  import opened Machine
  import opened Protocol
  import L = NodeLedger

  // ---------------------------------------------------------------------------------------
  // Part 1. Replies that match their await are enough to tie every captured row to a commit.
  // ---------------------------------------------------------------------------------------

  predicate SameWindow(s: Sys, id: Id, startsAt: int, endsAt: int) {
    id in s.node && s.node[id].startsAt == startsAt && s.node[id].endsAt == endsAt
  }

  /** What a reply in flight, or held by a handler, says about the node. */
  predicate Truthful(s: Sys, m: Reply) {
    && (m.ReceiptReply? ==> SameWindow(s, m.receipt.id, m.receipt.startsAt, m.receipt.endsAt))
    && (m.Committed? ==> m.id in s.commits)
  }

  predicate RepliesTruthful(s: Sys) {
    && (forall m | m in s.up :: Truthful(s, m))
    && (forall t | t in s.tasks && s.tasks[t].phase.Got? ::
          Truthful(s, s.tasks[t].phase.reply) && s.tasks[t].phase.reply.id == s.tasks[t].id
          && Expects(s.tasks[t], s.tasks[t].phase.reply))
  }

  predicate PendingOk(s: Sys) {
    forall id | id in s.pending ::
      s.pending[id] in s.tasks && s.tasks[s.pending[id]].id == id && s.tasks[s.pending[id]].phase.Awaiting?
  }

  /** A committed entry stays confirmed until a release is applied, and a released one stays released. */
  predicate CommitsKept(s: Sys) {
    && (forall id | id in s.commits :: id in s.node && (s.node[id].status == L.Confirmed || id in s.releases))
    && (forall id | id in s.releases :: id in s.node && s.node[id].status == L.Released)
  }

  predicate RowsBacked(s: Sys) {
    forall id | id in s.rows ::
      SameWindow(s, id, s.rows[id].startsAt, s.rows[id].endsAt) && (s.rows[id].captured ==> id in s.commits)
  }

  predicate Backed(s: Sys) {
    RepliesTruthful(s) && PendingOk(s) && CommitsKept(s) && RowsBacked(s)
  }

  /** The parts of `Backed` that speak of the node survive any later ledger. */
  lemma LaterLedger(s: Sys, u: Sys)
    requires Backed(s)
    requires L.AllLater(s.node, u.node)
    requires s.commits <= u.commits && u.rows == s.rows && u.tasks == s.tasks
    requires forall m | m in u.up :: m in s.up || Truthful(u, m)
    ensures RepliesTruthful(u) && RowsBacked(u)
  {
    forall m | m in u.up ensures Truthful(u, m) {
      if m in s.up { assert Truthful(s, m); }
    }
    forall t | t in u.tasks && u.tasks[t].phase.Got? ensures Truthful(u, u.tasks[t].phase.reply) {
      assert Truthful(s, s.tasks[t].phase.reply);
    }
    forall id | id in u.rows ensures SameWindow(u, id, u.rows[id].startsAt, u.rows[id].endsAt) {
      assert SameWindow(s, id, s.rows[id].startsAt, s.rows[id].endsAt);
    }
  }

  predicate NotAwaiting(s: Sys, task: TaskId) {
    task in s.tasks ==> !s.tasks[task].phase.Awaiting?
  }

  lemma DropBacked(s: Sys, task: TaskId)
    requires Backed(s) && NotAwaiting(s, task)
    ensures Backed(Drop(s, task))
  {
  }

  lemma AwaitBacked(s: Sys, task: TaskId, t: Task, m: Request)
    requires Backed(s) && NotAwaiting(s, task) && t.phase.Awaiting?
    ensures Backed(SendAwait(s, task, t, m))
  {
  }

  lemma TaskBacked(s: Sys, task: TaskId, t: Task)
    requires Backed(s) && NotAwaiting(s, task) && (t.phase.Ready? || t.phase.Failed?)
    ensures Backed(s.(tasks := s.tasks[task := t]))
  {
  }

  lemma RowBacked(s: Sys, id: Id, r: Row)
    requires Backed(s) && SameWindow(s, id, r.startsAt, r.endsAt) && (r.captured ==> id in s.commits)
    ensures Backed(s.(rows := s.rows[id := r]))
  {
  }

  lemma LinkBacked(s: Sys, down: seq<Request>, up: seq<Reply>, connected: bool)
    requires Backed(s) && (forall m | m in up :: m in s.up)
    ensures Backed(s.(down := down, up := up, connected := connected))
  {
    var u := s.(down := down, up := up, connected := connected);
    forall m | m in u.up ensures Truthful(u, m) {
      assert Truthful(s, m);
    }
    forall t | t in u.tasks && u.tasks[t].phase.Got? ensures Truthful(u, u.tasks[t].phase.reply) {
      assert Truthful(s, s.tasks[t].phase.reply);
    }
  }

  lemma AnswerBacked(s: Sys, m: Reply)
    requires Backed(s) && Truthful(s, m)
    ensures Backed(Answer(s, m))
  {
  }

  lemma LedgerStep(s: Sys, v: Sys, c: L.Call)
    requires Backed(s)
    requires v.node == L.Do(s.node, s.ttlMs, c)
    requires v.rows == s.rows && v.tasks == s.tasks && v.pending == s.pending && v.up == s.up
    requires s.commits <= v.commits && CommitsKept(v)
    ensures Backed(v)
  {
    L.StepMovesForward(s.node, s.ttlMs, c);
    LaterLedger(s, v);
  }

  lemma NodeLockBacked(s: Sys, id: Id, st: int, en: int, now: int)
    requires Backed(s)
    ensures Backed(NodeLock(s, id, st, en, now))
  {
    var (t, outcome) := L.TryLock(s.node, s.ttlMs, id, st, en, s.nodePrice, now);
    if outcome.Granted? {
      var v := s.(node := t);
      assert L.Do(s.node, s.ttlMs, L.CTryLock(id, st, en, s.nodePrice, now)) == t;
      LedgerStep(s, v, L.CTryLock(id, st, en, s.nodePrice, now));
      L.GrantIsRecorded(s.node, s.ttlMs, id, st, en, s.nodePrice, now);
      AnswerBacked(v, ReceiptReply(id, outcome.receipt));
    } else {
      LinkBacked(s, s.down, [], false);
      AnswerBacked(s, Deny(id));
    }
  }

  lemma NodeCommitBacked(s: Sys, id: Id, now: int)
    requires Backed(s)
    ensures Backed(NodeCommit(s, id, now))
  {
    var (t, ok) := L.Commit(s.node, id, now);
    var v := s.(node := t, commits := if ok then s.commits + {id} else s.commits);
    LedgerStep(s, v, L.CCommit(id, now));
    AnswerBacked(v, if ok then Committed(id) else CommitFailed(id));
  }

  lemma NodeReleaseBacked(s: Sys, id: Id)
    requires Backed(s)
    ensures Backed(NodeRelease(s, id))
  {
    var v := s.(node := L.Release(s.node, id), releases := s.releases + if id in s.node then {id} else {});
    LedgerStep(s, v, L.CRelease(id));
    AnswerBacked(v, ReleaseAck(id));
  }

  lemma NodeStepBacked(s: Sys, now: int)
    requires Backed(s) && s.down != []
    ensures Backed(ApplyNodeStep(s, now))
  {
    LinkBacked(s, s.down[1..], s.up, s.connected);
    var s1 := s.(down := s.down[1..]);
    match s.down[0]
    case ReserveRequest(id, st, en) => NodeLockBacked(s1, id, st, en, now);
    case ReserveCommit(id) => NodeCommitBacked(s1, id, now);
    case StatusQuery(id) => AnswerBacked(s1, StatusReply(id, L.StatusOf(s.node, id)));
    case ReserveRelease(id) => NodeReleaseBacked(s1, id);
  }

  lemma HeartbeatBacked(s: Sys, now: int)
    requires Backed(s)
    ensures Backed(Apply(s, NodeHeartbeat(now)))
  {
    LedgerStep(s, Apply(s, NodeHeartbeat(now)), L.CLiveCount(now));
  }

  lemma FinishBookingBacked(s: Sys, task: TaskId, now: int)
    requires Backed(s)
    ensures Backed(ApplyFinishBooking(s, task, now))
  {
    var u := ApplyFinishBooking(s, task, now);
    if u != s {
      DropBacked(s, task);
      var t := s.tasks[task];
      if u != Drop(s, task) {
        assert Truthful(s, t.phase.reply);
        RowBacked(Drop(s, task), t.id, u.rows[t.id]);
      }
    }
  }

  lemma FinishConfirmBacked(s: Sys, task: TaskId)
    requires Backed(s)
    ensures Backed(ApplyFinishConfirm(s, task))
  {
    var u := ApplyFinishConfirm(s, task);
    if u != s {
      DropBacked(s, task);
      var t := s.tasks[task];
      if u != Drop(s, task) {
        if t.phase.Got? {
          assert Truthful(s, t.phase.reply) && Expects(t, t.phase.reply);
        }
        RowBacked(Drop(s, task), t.id, u.rows[t.id]);
      }
    }
  }

  lemma StampBacked(s: Sys, task: TaskId, id: Id)
    requires Backed(s) && NotAwaiting(s, task)
    ensures Backed(Stamp(s, task, id))
  {
    DropBacked(s, task);
    if id in s.rows {
      RowBacked(Drop(s, task), id, s.rows[id].(reconciled := true));
    }
  }

  lemma FinishQueryBacked(s: Sys, task: TaskId)
    requires Backed(s)
    ensures Backed(ApplyFinishQuery(s, task))
  {
    if task in s.tasks && s.tasks[task].Query? && !s.tasks[task].phase.Awaiting? {
      var id := s.tasks[task].id;
      DropBacked(s, task);
      StampBacked(s, task, id);
      AwaitBacked(s, task, Releasing(id, Awaiting), ReserveRelease(id));
    }
  }

  lemma FinishReleaseBacked(s: Sys, task: TaskId)
    requires Backed(s)
    ensures Backed(ApplyFinishRelease(s, task))
  {
    if task in s.tasks && !s.tasks[task].phase.Awaiting? {
      DropBacked(s, task);
      StampBacked(s, task, s.tasks[task].id);
    }
  }

  lemma SendBacked(s: Sys, task: TaskId)
    requires Backed(s)
    ensures Backed(ApplySendCommit(s, task)) && Backed(ApplySendQuery(s, task))
  {
    if task in s.tasks && s.tasks[task].phase.Ready? {
      var id := s.tasks[task].id;
      AwaitBacked(s, task, Confirm(id, Awaiting), ReserveCommit(id));
      TaskBacked(s, task, Confirm(id, Failed));
      AwaitBacked(s, task, Query(id, Awaiting), StatusQuery(id));
      DropBacked(s, task);
    }
  }

  lemma StatusBacked(s: Sys, id: Id, outcome: RStatus)
    requires Backed(s)
    ensures Backed(ApplyStartJob(s, id)) && Backed(ApplySettle(s, id, outcome))
  {
    if id in s.rows {
      RowBacked(s, id, s.rows[id].(status := Running));
      RowBacked(s, id, s.rows[id].(status := outcome));
    }
  }

  lemma SweepBacked(s: Sys, now: int)
    requires Backed(s)
    ensures Backed(ApplySweep(s, now))
  {
  }

  lemma ReceiveBacked(s: Sys)
    requires Backed(s) && Matched(s, Receive)
    ensures Backed(ApplyReceive(s))
  {
    if s.up != [] {
      var m := s.up[0];
      assert Truthful(s, m);
      LinkBacked(s, s.down, s.up[1..], s.connected);
    }
  }

  lemma TimeoutBacked(s: Sys, task: TaskId)
    requires Backed(s)
    ensures Backed(ApplyTimeout(s, task))
  {
  }

  lemma CrashBacked(s: Sys)
    requires Backed(s)
    ensures Backed(Apply(s, PlatformCrash))
  {
  }

  lemma StepBacked(s: Sys, ev: Event)
    requires Backed(s) && Matched(s, ev)
    ensures Backed(Apply(s, ev))
  {
    match ev
    case NodeStep(now) => if s.down != [] { NodeStepBacked(s, now); }
    case NodeHeartbeat(now) => HeartbeatBacked(s, now);
    case Book(task, id, st, en, price) =>
      if task !in s.tasks { AwaitBacked(s, task, Booking(id, st, en, price, Awaiting), ReserveRequest(id, st, en)); }
    case FinishBooking(task, now) => FinishBookingBacked(s, task, now);
    case StartConfirm(task, id) => if task !in s.tasks { TaskBacked(s, task, Confirm(id, Ready)); }
    case SendCommit(task) => SendBacked(s, task);
    case FinishConfirm(task) => FinishConfirmBacked(s, task);
    case Sweep(now) => SweepBacked(s, now);
    case SelectMismatch(task, id) => if task !in s.tasks { TaskBacked(s, task, Query(id, Ready)); }
    case SendQuery(task) => SendBacked(s, task);
    case FinishQuery(task) => FinishQueryBacked(s, task);
    case FinishRelease(task) => FinishReleaseBacked(s, task);
    case StartJob(id) => StatusBacked(s, id, Held);
    case Settle(id, outcome) => StatusBacked(s, id, outcome);
    case Receive => ReceiveBacked(s);
    case Timeout(task) => TimeoutBacked(s, task);
    case Disconnect => LinkBacked(s, s.down, [], false);
    case Connect => LinkBacked(s, [], [], true);
    case PlatformCrash => CrashBacked(s);
  }

  lemma {:induction false} RunBacked(rules: Rules, s: Sys, evs: seq<Event>)
    requires Backed(s) && L.Valid(s.node) && rules.matched && ObeysAll(rules, s, evs)
    ensures Backed(Run(s, evs)) && L.Valid(Run(s, evs).node)
    decreases evs
  {
    if evs != [] {
      StepBacked(s, evs[0]);
      StepNodeValid(s, evs[0]);
      RunBacked(rules, Apply(s, evs[0]), evs[1..]);
    }
  }

  lemma NodeStepValid(s: Sys, now: int)
    requires L.Valid(s.node)
    ensures L.Valid(ApplyNodeStep(s, now).node)
  {
    if s.down != [] {
      match s.down[0]
      case ReserveRequest(id, st, en) =>
        var c := L.CTryLock(id, st, en, s.nodePrice, now);
        L.StepKeepsValid(s.node, s.ttlMs, c);
        assert NodeLock(s.(down := s.down[1..]), id, st, en, now).node in {s.node, L.Do(s.node, s.ttlMs, c)};
      case ReserveCommit(id) => L.StepKeepsValid(s.node, s.ttlMs, L.CCommit(id, now));
      case StatusQuery(id) =>
      case ReserveRelease(id) => L.StepKeepsValid(s.node, s.ttlMs, L.CRelease(id));
    }
  }

  lemma FinishSparesNode(s: Sys, ev: Event)
    requires ev.FinishBooking? || ev.FinishConfirm? || ev.FinishQuery? || ev.FinishRelease?
    ensures Apply(s, ev).node == s.node
  {
    match ev
    case FinishBooking(task, now) => assert ApplyFinishBooking(s, task, now).node == s.node;
    case FinishConfirm(task) => assert ApplyFinishConfirm(s, task).node == s.node;
    case FinishQuery(task) => assert ApplyFinishQuery(s, task).node == s.node;
    case FinishRelease(task) => assert ApplyFinishRelease(s, task).node == s.node;
  }

  lemma OtherStepsSpareNode(s: Sys, ev: Event)
    requires !ev.NodeStep? && !ev.NodeHeartbeat?
    ensures Apply(s, ev).node == s.node
  {
    if ev.FinishBooking? || ev.FinishConfirm? || ev.FinishQuery? || ev.FinishRelease? {
      FinishSparesNode(s, ev);
    }
  }

  lemma StepNodeValid(s: Sys, ev: Event)
    requires L.Valid(s.node)
    ensures L.Valid(Apply(s, ev).node)
  {
    match ev
    case NodeStep(now) => NodeStepValid(s, now);
    case NodeHeartbeat(now) => L.StepKeepsValid(s.node, s.ttlMs, L.CLiveCount(now));
    case _ => OtherStepsSpareNode(s, ev);
  }

  /**
   In every run whose replies match their awaits, a row for which money was captured has an entry
   on the node with the same window whose commit returned true; and that entry is confirmed
   exactly as long as no release has been applied to it.
   */
  lemma CapturedWasCommitted(nodePrice: int, ttlMs: int, evs: seq<Event>, id: Id)
    requires ObeysAll(Rules(true, false, false, false), Init(nodePrice, ttlMs), evs)
    requires var s := Run(Init(nodePrice, ttlMs), evs); id in s.rows && s.rows[id].captured
    ensures var s := Run(Init(nodePrice, ttlMs), evs);
      && id in s.commits
      && SameWindow(s, id, s.rows[id].startsAt, s.rows[id].endsAt)
      && (s.node[id].status == L.Confirmed <==> id !in s.releases)
  {
    RunBacked(Rules(true, false, false, false), Init(nodePrice, ttlMs), evs);
  }

  // ---------------------------------------------------------------------------------------
  // Part 2. If confirms are also timely, captured rows stay confirmed on the node, and reconciled
  // ids never become confirmed there again. Both hypotheses are exact, step by step.
  // ---------------------------------------------------------------------------------------

  /** The platform has given the reservation up for good. */
  predicate GivenUp(s: Sys, id: Id) {
    id in s.rows && s.rows[id].status == Expired
  }

  /** The node is not confirmed for the id, and nothing in flight can make it so. */
  predicate Closed(s: Sys, id: Id) {
    && GivenUp(s, id)
    && (id in s.node ==> s.node[id].status != L.Confirmed)
    && (Dead(s, id) || ReserveCommit(id) !in s.down)
  }

  predicate RowsDisciplined(s: Sys) {
    && (forall id | id in s.rows ::
          && (s.rows[id].captured <==> CapturedStatus(s.rows[id].status))
          && (!s.rows[id].captured ==> s.rows[id].status == Held || s.rows[id].status == Expired)
          && (s.rows[id].reconciled ==> Closed(s, id)))
    && (forall id | id in s.releases :: GivenUp(s, id))
  }

  predicate TasksDisciplined(s: Sys) {
    forall t | t in s.tasks ::
      && ((s.tasks[t].Query? || s.tasks[t].Releasing?) && !s.tasks[t].phase.Failed? ==> GivenUp(s, s.tasks[t].id))
      && (s.tasks[t].phase.Got? && Final(s.tasks[t].phase.reply) ==> Closed(s, s.tasks[t].phase.reply.id))
  }

  /** FIFO: behind a query or a release there is no commit that could confirm the same id. */
  predicate DownDisciplined(s: Sys) {
    && (forall m | m in s.down && GivesUp(m) :: GivenUp(s, m.id))
    && (forall i, j | 0 <= i < j < |s.down| && GivesUp(s.down[i]) && s.down[j].ReserveCommit? && !Dead(s, s.down[j].id) ::
          s.down[i].id != s.down[j].id)
  }

  predicate UpDisciplined(s: Sys) {
    forall m | m in s.up && Final(m) :: Closed(s, m.id)
  }

  predicate Disciplined(s: Sys) {
    RowsDisciplined(s) && TasksDisciplined(s) && DownDisciplined(s) && UpDisciplined(s)
  }

  lemma DropDisciplined(s: Sys, task: TaskId)
    requires Disciplined(s)
    ensures Disciplined(Drop(s, task))
  {
  }

  lemma TaskDisciplined(s: Sys, task: TaskId, t: Task)
    requires Disciplined(s) && !t.phase.Got?
    requires t.Query? || t.Releasing? ==> GivenUp(s, t.id)
    ensures Disciplined(s.(tasks := s.tasks[task := t]))
  {
  }

  lemma SendDisciplined(s: Sys, task: TaskId, t: Task, m: Request)
    requires Disciplined(s) && t.phase.Awaiting? && m.id == t.id && !m.ReserveCommit?
    requires t.Query? || t.Releasing? || GivesUp(m) ==> GivenUp(s, t.id)
    ensures Disciplined(SendAwait(s, task, t, m))
  {
    TaskDisciplined(s, task, t);
    var u := SendAwait(s, task, t, m);
    forall x | x in u.down && GivesUp(x) ensures GivenUp(u, x.id) {
      assert x in s.down || x == m;
    }
    forall x | Closed(s, x) ensures Closed(u, x) {}
  }

  /** A commit may be sent if nobody relies on there being none, or if it cannot confirm anything. */
  lemma CommitDisciplined(s: Sys, task: TaskId, id: Id)
    requires Disciplined(s)
    requires Dead(s, id) || !(Asked(s, id) || Concluded(s, id))
    ensures Disciplined(SendAwait(s, task, Confirm(id, Awaiting), ReserveCommit(id)))
  {
    TaskDisciplined(s, task, Confirm(id, Awaiting));
    var u := SendAwait(s, task, Confirm(id, Awaiting), ReserveCommit(id));
    forall x | x in u.down && GivesUp(x) ensures x in s.down && GivenUp(u, x.id) {}
    forall x | Closed(s, x) && (x == id ==> Dead(s, id)) ensures Closed(u, x) {}
  }

  /** A row changes without losing track of captured money, or leaving 'expired' while it is reclaimed. */
  lemma RowDisciplined(s: Sys, id: Id, r: Row)
    requires Disciplined(s)
    requires r.captured <==> CapturedStatus(r.status)
    requires !r.captured ==> r.status == Held || r.status == Expired
    requires GivenUp(s, id) && Reclaimed(s, id) ==> r.status == Expired
    requires r.reconciled ==> r.status == Expired && Closed(s, id)
    ensures Disciplined(s.(rows := s.rows[id := r]))
  {
    var u := s.(rows := s.rows[id := r]);
    forall x | GivenUp(s, x) && Reclaimed(s, x) ensures GivenUp(u, x) {}
    forall x | Closed(s, x) && Reclaimed(s, x) ensures Closed(u, x) {}
    forall t | t in u.tasks && (u.tasks[t].Query? || u.tasks[t].Releasing?) && !u.tasks[t].phase.Failed?
      ensures GivenUp(u, u.tasks[t].id)
    {
      assert Visited(s, s.tasks[t].id);
    }
    forall t | t in u.tasks && u.tasks[t].phase.Got? && Final(u.tasks[t].phase.reply)
      ensures Closed(u, u.tasks[t].phase.reply.id)
    {
      assert Concluded(s, s.tasks[t].phase.reply.id);
    }
    forall x | x in u.rows && u.rows[x].reconciled ensures Closed(u, x) {
      if x != id { assert Concluded(s, x); }
    }
    forall m | m in u.down && GivesUp(m) ensures GivenUp(u, m.id) { assert Asked(s, m.id); }
    forall m | m in u.up && Final(m) ensures Closed(u, m.id) { assert Concluded(s, m.id); }
  }

  lemma LinkDisciplined(s: Sys, down: seq<Request>, up: seq<Reply>, connected: bool)
    requires Disciplined(s)
    requires down == s.down || down == [] || (s.down != [] && down == s.down[1..])
    requires forall m | m in up :: m in s.up
    ensures Disciplined(s.(down := down, up := up, connected := connected))
  {
    var u := s.(down := down, up := up, connected := connected);
    forall m | m in u.down ensures m in s.down {}
    forall x | Closed(s, x) ensures Closed(u, x) {}
  }

  lemma AnswerDisciplined(s: Sys, m: Reply)
    requires Disciplined(s) && (Final(m) ==> Closed(s, m.id))
    ensures Disciplined(Answer(s, m))
  {
  }

  /** The ledger moves without newly confirming an id that nothing may confirm. */
  lemma NodeDisciplined(s: Sys, node: L.Table, commits: set<Id>, releases: set<Id>)
    requires Disciplined(s)
    requires forall id | Closed(s, id) && id in node :: node[id].status != L.Confirmed
    requires forall id | Dead(s, id) :: id in node && node[id].status == L.Released
    requires forall id | id in releases :: id in s.releases || GivenUp(s, id)
    ensures Disciplined(s.(node := node, commits := commits, releases := releases))
  {
    var u := s.(node := node, commits := commits, releases := releases);
    forall x | Closed(s, x) ensures Closed(u, x) {}
    forall x | GivenUp(s, x) ensures GivenUp(u, x) {}
  }

  lemma FinishBookingDisciplined(s: Sys, task: TaskId, now: int)
    requires Disciplined(s)
    ensures Disciplined(ApplyFinishBooking(s, task, now))
  {
    var u := ApplyFinishBooking(s, task, now);
    if u != s {
      DropDisciplined(s, task);
      if u != Drop(s, task) {
        RowDisciplined(Drop(s, task), s.tasks[task].id, u.rows[s.tasks[task].id]);
      }
    }
  }

  lemma SendStepsDisciplined(s: Sys, task: TaskId)
    requires Disciplined(s) && Timely(s, SendCommit(task))
    ensures Disciplined(ApplySendCommit(s, task))
  {
    if task in s.tasks && s.tasks[task].Confirm? && s.tasks[task].phase.Ready? {
      var id := s.tasks[task].id;
      if s.connected { CommitDisciplined(s, task, id); }
      TaskDisciplined(s, task, Confirm(id, Failed));
    }
  }

  lemma SendQueryDisciplined(s: Sys, task: TaskId)
    requires Disciplined(s)
    ensures Disciplined(ApplySendQuery(s, task))
  {
    if task in s.tasks && s.tasks[task].Query? && s.tasks[task].phase.Ready? {
      var id := s.tasks[task].id;
      SendDisciplined(s, task, Query(id, Awaiting), StatusQuery(id));
      DropDisciplined(s, task);
    }
  }

  lemma FinishConfirmDisciplined(s: Sys, task: TaskId)
    requires Disciplined(s) && Backed(s) && Timely(s, FinishConfirm(task))
    ensures Disciplined(ApplyFinishConfirm(s, task))
  {
    var u := ApplyFinishConfirm(s, task);
    if u != s {
      DropDisciplined(s, task);
      if u != Drop(s, task) {
        RowDisciplined(Drop(s, task), s.tasks[task].id, u.rows[s.tasks[task].id]);
      }
    }
  }

  lemma SweepDisciplined(s: Sys, now: int)
    requires Disciplined(s)
    ensures Disciplined(ApplySweep(s, now))
  {
    var u := ApplySweep(s, now);
    forall x | GivenUp(s, x) ensures GivenUp(u, x) {}
    forall x | Closed(s, x) ensures Closed(u, x) {}
  }

  lemma StampDisciplined(s: Sys, task: TaskId, id: Id)
    requires Disciplined(s) && Closed(s, id)
    ensures Disciplined(Stamp(s, task, id))
  {
    DropDisciplined(s, task);
    RowDisciplined(Drop(s, task), id, s.rows[id].(reconciled := true));
  }

  lemma FinishQueryDisciplined(s: Sys, task: TaskId)
    requires Disciplined(s) && Backed(s)
    ensures Disciplined(ApplyFinishQuery(s, task))
  {
    if task in s.tasks && s.tasks[task].Query? {
      var t := s.tasks[task];
      DropDisciplined(s, task);
      if t.phase.Got? {
        assert Expects(t, t.phase.reply);
        if Final(t.phase.reply) {
          StampDisciplined(s, task, t.id);
        } else {
          SendDisciplined(s, task, Releasing(t.id, Awaiting), ReserveRelease(t.id));
        }
      }
    }
  }

  lemma FinishReleaseDisciplined(s: Sys, task: TaskId)
    requires Disciplined(s) && Backed(s)
    ensures Disciplined(ApplyFinishRelease(s, task))
  {
    if task in s.tasks && s.tasks[task].Releasing? {
      var t := s.tasks[task];
      DropDisciplined(s, task);
      if t.phase.Got? {
        assert Expects(t, t.phase.reply);
        StampDisciplined(s, task, t.id);
      }
    }
  }

  lemma StatusDisciplined(s: Sys, id: Id, outcome: RStatus)
    requires Disciplined(s)
    ensures Disciplined(ApplyStartJob(s, id)) && Disciplined(ApplySettle(s, id, outcome))
  {
    if id in s.rows && s.rows[id].status == Confirmed {
      RowDisciplined(s, id, s.rows[id].(status := Running));
    }
    if id in s.rows && JobOutcome(outcome) && CanTransition(s.rows[id].status, outcome) {
      RowDisciplined(s, id, s.rows[id].(status := outcome));
    }
  }

  lemma ReceiveDisciplined(s: Sys)
    requires Disciplined(s) && Backed(s)
    ensures Disciplined(ApplyReceive(s))
  {
    if s.up != [] {
      assert s.up[0] in s.up;
      LinkDisciplined(s, s.down, s.up[1..], s.connected);
    }
  }

  lemma TimeoutDisciplined(s: Sys, task: TaskId)
    requires Disciplined(s)
    ensures Disciplined(ApplyTimeout(s, task))
  {
  }

  lemma CrashDisciplined(s: Sys)
    requires Disciplined(s)
    ensures Disciplined(Apply(s, PlatformCrash))
  {
    LinkDisciplined(s, s.down, [], false);
  }

  lemma NodeStepDisciplined(s: Sys, now: int)
    requires Disciplined(s) && s.down != []
    ensures Disciplined(ApplyNodeStep(s, now))
  {
    var m := s.down[0];
    var s1 := s.(down := s.down[1..]);
    assert m in s.down;
    LinkDisciplined(s, s.down[1..], s.up, s.connected);
    match m
    case ReserveRequest(id, st, en) => NodeLockDisciplined(s1, id, st, en, now);
    case ReserveCommit(id) => NodeCommitDisciplined(s, s1, id, now);
    case StatusQuery(id) =>
      AnswerDisciplined(s1, StatusReply(id, L.StatusOf(s.node, id)));
    case ReserveRelease(id) =>
      NodeDisciplined(s1, L.Release(s.node, id), s.commits, s.releases + if id in s.node then {id} else {});
      AnswerDisciplined(s1.(node := L.Release(s.node, id), releases := s.releases + if id in s.node then {id} else {}), ReleaseAck(id));
  }

  lemma NodeLockDisciplined(s: Sys, id: Id, st: int, en: int, now: int)
    requires Disciplined(s)
    ensures Disciplined(NodeLock(s, id, st, en, now))
  {
    var (t, outcome) := L.TryLock(s.node, s.ttlMs, id, st, en, s.nodePrice, now);
    if outcome.Granted? {
      NodeDisciplined(s, t, s.commits, s.releases);
      AnswerDisciplined(s.(node := t), ReceiptReply(id, outcome.receipt));
    } else {
      LinkDisciplined(s, s.down, [], false);
      AnswerDisciplined(s, Deny(id));
    }
  }

  /** `s` still has the commit at the head of its queue, so the id is not closed there. */
  lemma NodeCommitDisciplined(s: Sys, s1: Sys, id: Id, now: int)
    requires Disciplined(s1) && Disciplined(s)
    requires s.down != [] && s.down[0] == ReserveCommit(id) && s1 == s.(down := s.down[1..])
    ensures Disciplined(NodeCommit(s1, id, now))
  {
    var (t, ok) := L.Commit(s.node, id, now);
    var v := s1.(node := t, commits := if ok then s.commits + {id} else s.commits);
    assert Closed(s, id) ==> Dead(s, id);
    forall x | Closed(s, x) ensures Closed(v, x) {
      assert Closed(s1, x);
    }
    assert Disciplined(v);
    AnswerDisciplined(v, if ok then Committed(id) else CommitFailed(id));
  }

  lemma StepDisciplined(s: Sys, ev: Event)
    requires Disciplined(s) && Backed(s) && Timely(s, ev)
    ensures Disciplined(Apply(s, ev))
  {
    match ev
    case NodeStep(now) => if s.down != [] { NodeStepDisciplined(s, now); }
    case NodeHeartbeat(now) => NodeDisciplined(s, L.ExpireStale(s.node, now), s.commits, s.releases);
    case Book(task, id, st, en, price) =>
      if s.connected && task !in s.tasks {
        SendDisciplined(s, task, Booking(id, st, en, price, Awaiting), ReserveRequest(id, st, en));
      }
    case FinishBooking(task, now) => FinishBookingDisciplined(s, task, now);
    case StartConfirm(task, id) => TaskDisciplined(s, task, Confirm(id, Ready));
    case SendCommit(task) => SendStepsDisciplined(s, task);
    case FinishConfirm(task) => FinishConfirmDisciplined(s, task);
    case Sweep(now) => SweepDisciplined(s, now);
    case SelectMismatch(task, id) => if GivenUp(s, id) { TaskDisciplined(s, task, Query(id, Ready)); }
    case SendQuery(task) => SendQueryDisciplined(s, task);
    case FinishQuery(task) => FinishQueryDisciplined(s, task);
    case FinishRelease(task) => FinishReleaseDisciplined(s, task);
    case StartJob(id) => StatusDisciplined(s, id, Held);
    case Settle(id, outcome) => StatusDisciplined(s, id, outcome);
    case Receive => ReceiveDisciplined(s);
    case Timeout(task) => TimeoutDisciplined(s, task);
    case Disconnect => LinkDisciplined(s, s.down, [], false);
    case Connect => LinkDisciplined(s, [], [], true);
    case PlatformCrash => CrashDisciplined(s);
  }

  /** A commit that is sent behind the reconciler's back could undo what it relies on. */
  lemma UntimelyCommit(s: Sys, task: TaskId)
    requires Disciplined(s) && !Timely(s, SendCommit(task))
    ensures !Disciplined(ApplySendCommit(s, task))
  {
    var id := s.tasks[task].id;
    var u := ApplySendCommit(s, task);
    assert u.down == s.down + [ReserveCommit(id)] && u.down[|s.down|] == ReserveCommit(id);
    assert !Closed(u, id);
    if Asked(s, id) {
      var m :| m in s.down && GivesUp(m) && m.id == id;
      var i :| 0 <= i < |s.down| && s.down[i] == m;
      assert u.down[i] == m;
    } else if m :| m in s.up && Final(m) && m.id == id {
      assert m in u.up;
    } else if t :| t in s.tasks && s.tasks[t].phase.Got? && Final(s.tasks[t].phase.reply) && s.tasks[t].phase.reply.id == id {
      assert t in u.tasks && u.tasks[t] == s.tasks[t];
    } else {
      assert u.rows[id].reconciled;
    }
  }

  lemma UntimelyCapture(s: Sys, task: TaskId)
    requires Disciplined(s) && Backed(s) && !Timely(s, FinishConfirm(task))
    ensures !Disciplined(ApplyFinishConfirm(s, task))
  {
    var id := s.tasks[task].id;
    var u := ApplyFinishConfirm(s, task);
    if s.tasks[task].phase.Got? {
      assert Expects(s.tasks[task], s.tasks[task].phase.reply);
      assert id in s.commits && !GivenUp(u, id);
      assert Closed(s, id) ==> id in s.releases;
      if id in s.releases {
        assert id in u.releases;
      } else if Asked(s, id) {
        var m :| m in s.down && GivesUp(m) && m.id == id;
        assert m in u.down;
      } else {
        assert Visited(s, id);
        var t :| t in s.tasks && (s.tasks[t].Query? || s.tasks[t].Releasing?) && !s.tasks[t].phase.Failed? && s.tasks[t].id == id;
        assert t in u.tasks && u.tasks[t] == s.tasks[t];
      }
    } else {
      assert u.rows[id].captured && u.rows[id].status == Expired;
    }
  }

  lemma MismatchedReply(s: Sys)
    requires Backed(s) && !Matched(s, Receive)
    ensures !Backed(ApplyReceive(s))
  {
    var task := s.pending[s.up[0].id];
    assert ApplyReceive(s).tasks[task].phase.reply == s.up[0];
  }

  /**
   A step keeps platform and node in agreement if and only if the reply it delivers, if any,
   matches its await, and the confirm it moves, if any, is timely.
   */
  lemma StepKeepsAgreementExactly(s: Sys, ev: Event)
    requires Backed(s) && Disciplined(s)
    ensures Backed(Apply(s, ev)) && Disciplined(Apply(s, ev)) <==> Matched(s, ev) && Timely(s, ev)
  {
    if !Matched(s, ev) {
      MismatchedReply(s);
    } else if Timely(s, ev) {
      StepBacked(s, ev);
      StepDisciplined(s, ev);
    } else {
      match ev
      case SendCommit(task) => UntimelyCommit(s, task);
      case FinishConfirm(task) => UntimelyCapture(s, task);
    }
  }

  /** The check that the platform can make by itself is enough. */
  lemma GuardedIsTimely(s: Sys, ev: Event)
    requires Disciplined(s) && Guarded(s, ev)
    ensures Timely(s, ev)
  {
  }

  lemma {:induction false} GuardedRunIsTimely(s: Sys, evs: seq<Event>)
    requires Backed(s) && Disciplined(s) && ObeysAll(Rules(true, false, true, false), s, evs)
    ensures ObeysAll(Rules(true, true, true, false), s, evs)
    decreases evs
  {
    if evs != [] {
      GuardedIsTimely(s, evs[0]);
      StepKeepsAgreementExactly(s, evs[0]);
      GuardedRunIsTimely(Apply(s, evs[0]), evs[1..]);
    }
  }

  lemma {:induction false} RunDisciplined(rules: Rules, s: Sys, evs: seq<Event>)
    requires Backed(s) && L.Valid(s.node) && Disciplined(s)
    requires rules.matched && rules.timely && ObeysAll(rules, s, evs)
    ensures var u := Run(s, evs); Backed(u) && L.Valid(u.node) && Disciplined(u)
    decreases evs
  {
    if evs != [] {
      StepBacked(s, evs[0]);
      StepNodeValid(s, evs[0]);
      StepDisciplined(s, evs[0]);
      RunDisciplined(rules, Apply(s, evs[0]), evs[1..]);
    }
  }

  const DISCIPLINE := Rules(true, true, false, false)

  /**
   In every run whose replies match and whose confirms are timely, the status of a row says
   exactly whether money was captured, and every captured row is confirmed on the node for its
   own window: never charged but not reserved.
   */
  lemma CapturedIsReserved(nodePrice: int, ttlMs: int, evs: seq<Event>, id: Id)
    requires ObeysAll(DISCIPLINE, Init(nodePrice, ttlMs), evs)
    requires id in Run(Init(nodePrice, ttlMs), evs).rows
    ensures var s := Run(Init(nodePrice, ttlMs), evs);
      && (s.rows[id].captured <==> CapturedStatus(s.rows[id].status))
      && (s.rows[id].captured ==>
            id in s.commits && SameWindow(s, id, s.rows[id].startsAt, s.rows[id].endsAt) && s.node[id].status == L.Confirmed)
  {
    RunDisciplined(DISCIPLINE, Init(nodePrice, ttlMs), evs);
  }

  /** Hence no two captured rows of one node overlap, by the node's ledger alone. */
  lemma CapturedNeverOverlap(nodePrice: int, ttlMs: int, evs: seq<Event>, i: Id, j: Id)
    requires ObeysAll(DISCIPLINE, Init(nodePrice, ttlMs), evs)
    requires var s := Run(Init(nodePrice, ttlMs), evs);
      i != j && i in s.rows && j in s.rows && s.rows[i].captured && s.rows[j].captured
    ensures var s := Run(Init(nodePrice, ttlMs), evs);
      s.rows[i].endsAt <= s.rows[j].startsAt || s.rows[j].endsAt <= s.rows[i].startsAt
  {
    RunDisciplined(DISCIPLINE, Init(nodePrice, ttlMs), evs);
    CapturedIsReserved(nodePrice, ttlMs, evs, i);
    CapturedIsReserved(nodePrice, ttlMs, evs, j);
    var s := Run(Init(nodePrice, ttlMs), evs);
    assert L.Live(s.node[i]) && L.Live(s.node[j]);
  }

  lemma {:induction false} ReconciledStaysReconciled(s: Sys, evs: seq<Event>, id: Id)
    requires id in s.rows && s.rows[id].reconciled
    ensures id in Run(s, evs).rows && Run(s, evs).rows[id].reconciled
    decreases evs
  {
    if evs != [] {
      StampIsKept(s, evs[0], id);
      ReconciledStaysReconciled(Apply(s, evs[0]), evs[1..], id);
    }
  }

  lemma NodeStepKeepsRows(s: Sys, now: int)
    ensures ApplyNodeStep(s, now).rows == s.rows
  {
  }

  lemma FinishKeepsStamp(s: Sys, ev: Event, id: Id)
    requires id in s.rows && s.rows[id].reconciled
    requires ev.FinishBooking? || ev.FinishConfirm? || ev.FinishQuery? || ev.FinishRelease?
    ensures id in Apply(s, ev).rows && Apply(s, ev).rows[id].reconciled
  {
  }

  lemma OtherStepKeepsStamp(s: Sys, ev: Event, id: Id)
    requires id in s.rows && s.rows[id].reconciled
    requires !ev.NodeStep? && !(ev.FinishBooking? || ev.FinishConfirm? || ev.FinishQuery? || ev.FinishRelease?)
    ensures id in Apply(s, ev).rows && Apply(s, ev).rows[id].reconciled
  {
  }

  lemma StampIsKept(s: Sys, ev: Event, id: Id)
    requires id in s.rows && s.rows[id].reconciled
    ensures id in Apply(s, ev).rows && Apply(s, ev).rows[id].reconciled
  {
    if ev.NodeStep? {
      NodeStepKeepsRows(s, ev.now);
    } else if ev.FinishBooking? || ev.FinishConfirm? || ev.FinishQuery? || ev.FinishRelease? {
      FinishKeepsStamp(s, ev, id);
    } else {
      OtherStepKeepsStamp(s, ev, id);
    }
  }

  lemma {:induction false} ObeysPrefix(rules: Rules, s: Sys, evs: seq<Event>, more: seq<Event>)
    requires ObeysAll(rules, s, evs + more)
    ensures ObeysAll(rules, s, evs) && ObeysAll(rules, Run(s, evs), more)
    ensures Run(s, evs + more) == Run(Run(s, evs), more)
    decreases evs
  {
    if evs == [] {
      assert evs + more == more;
    } else {
      assert (evs + more)[1..] == evs[1..] + more;
      ObeysPrefix(rules, Apply(s, evs[0]), evs[1..], more);
    }
  }

  /**
   Once the reconciler has stamped a row, no continuation makes the node confirmed for it again;
   and once the node's clock has reached the end of its hold, the entry cannot be a reason to
   refuse a fresh lock on any window.
   */
  lemma StampedSlotIsFree(
      nodePrice: int, ttlMs: int, evs: seq<Event>, more: seq<Event>, id: Id, startsAt: int, endsAt: int, now: int)
    requires ObeysAll(DISCIPLINE, Init(nodePrice, ttlMs), evs + more)
    requires var s := Run(Init(nodePrice, ttlMs), evs); id in s.rows && s.rows[id].reconciled
    ensures var u := Run(Init(nodePrice, ttlMs), evs + more);
      && id in u.node && u.node[id].status != L.Confirmed
      && (u.node[id].status == L.Held ==> u.node[id].holdExpiresAt.Some?)
      && ((u.node[id].status == L.Held ==> u.node[id].holdExpiresAt.value <= now) ==>
            !L.Blocks(L.ExpireStale(u.node, now)[id], startsAt, endsAt))
  {
    var init := Init(nodePrice, ttlMs);
    ObeysPrefix(DISCIPLINE, init, evs, more);
    ReconciledStaysReconciled(Run(init, evs), more, id);
    RunDisciplined(DISCIPLINE, init, evs + more);
    var u := Run(init, evs + more);
    assert Closed(u, id);
    assert SameWindow(u, id, u.rows[id].startsAt, u.rows[id].endsAt);
    assert L.RowOk(u.node[id]);
  }
}
