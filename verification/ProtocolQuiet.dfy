/** One conversation at a time per reservation id is enough for every reply to match its await. */
module ProtocolQuiet {
  import opened Machine
  import opened Protocol
  import opened ProtocolSafety
  import L = NodeLedger

  predicate AsksFor(t: Task, m: Request) {
    match t
    case Booking(_, _, _, _, _) => m.ReserveRequest?
    case Confirm(_, _) => m.ReserveCommit?
    case Query(_, _) => m.StatusQuery?
    case Releasing(_, _) => m.ReserveRelease?
  }

  /** Whatever is in flight about an awaited id belongs to the conversation that awaits it. */
  predicate InStep(s: Sys) {
    && PendingOk(s)
    && (forall m | m in s.down && m.id in s.pending :: AsksFor(s.tasks[s.pending[m.id]], m))
    && (forall m | m in s.up && m.id in s.pending :: Expects(s.tasks[s.pending[m.id]], m))
  }

  lemma SendInStep(s: Sys, task: TaskId, t: Task, m: Request)
    requires InStep(s) && NotAwaiting(s, task) && Idle(s, t.id)
    requires t.phase.Awaiting? && m.id == t.id && AsksFor(t, m)
    ensures InStep(SendAwait(s, task, t, m))
  {
    var u := SendAwait(s, task, t, m);
    forall x | x in u.down && x.id in u.pending ensures AsksFor(u.tasks[u.pending[x.id]], x) {
      assert x in s.down || x == m;
    }
  }

  lemma TaskInStep(s: Sys, task: TaskId, t: Task)
    requires InStep(s) && NotAwaiting(s, task)
    ensures InStep(s.(tasks := s.tasks[task := t])) && InStep(Drop(s, task))
  {
  }

  /** Neither rows nor the ledger matter here. */
  lemma OnlyLinks(s: Sys, u: Sys)
    requires InStep(s) && u.tasks == s.tasks && u.pending == s.pending
    requires (forall m | m in u.down :: m in s.down) && (forall m | m in u.up :: m in s.up)
    ensures InStep(u)
  {
  }

  lemma AnswerInStep(s: Sys, m: Reply)
    requires InStep(s) && (m.id in s.pending ==> Expects(s.tasks[s.pending[m.id]], m))
    ensures InStep(Answer(s, m))
  {
  }

  lemma NodeInStep(s: Sys, now: int)
    requires InStep(s) && s.down != []
    ensures InStep(ApplyNodeStep(s, now))
  {
    var m := s.down[0];
    var s1 := s.(down := s.down[1..]);
    assert m in s.down;
    OnlyLinks(s, s1);
    match m
    case ReserveRequest(id, st, en) =>
      var (t, outcome) := L.TryLock(s.node, s.ttlMs, id, st, en, s.nodePrice, now);
      OnlyLinks(s1, s1.(connected := false, up := []));
      AnswerInStep(s1, Deny(id));
      if outcome.Granted? { AnswerInStep(s1.(node := t), ReceiptReply(id, outcome.receipt)); }
    case ReserveCommit(id) =>
      var (t, ok) := L.Commit(s.node, id, now);
      AnswerInStep(s1.(node := t, commits := s.commits + {id}), Committed(id));
      AnswerInStep(s1, CommitFailed(id));
    case StatusQuery(id) => AnswerInStep(s1, StatusReply(id, L.StatusOf(s.node, id)));
    case ReserveRelease(id) =>
      AnswerInStep(s1.(node := L.Release(s.node, id), releases := s.releases + if id in s.node then {id} else {}), ReleaseAck(id));
  }

  lemma FinishInStep(s: Sys, task: TaskId, now: int)
    requires InStep(s)
    ensures InStep(ApplyFinishBooking(s, task, now)) && InStep(ApplyFinishConfirm(s, task))
    ensures InStep(ApplyFinishRelease(s, task))
  {
    if NotAwaiting(s, task) {
      TaskInStep(s, task, Query(0, Ready));
      var d := Drop(s, task);
      var u, v, w := ApplyFinishBooking(s, task, now), ApplyFinishConfirm(s, task), ApplyFinishRelease(s, task);
      assert u == s || u == d.(rows := u.rows);
      assert v == s || v == d.(rows := v.rows);
      assert w == s || w == d.(rows := w.rows);
      OnlyLinks(d, d.(rows := u.rows));
      OnlyLinks(d, d.(rows := v.rows));
      OnlyLinks(d, d.(rows := w.rows));
    }
  }

  lemma QueryInStep(s: Sys, task: TaskId)
    requires InStep(s) && Quiet(s, FinishQuery(task))
    ensures InStep(ApplyFinishQuery(s, task))
  {
    if task in s.tasks && s.tasks[task].Query? && !s.tasks[task].phase.Awaiting? {
      var id := s.tasks[task].id;
      TaskInStep(s, task, Query(0, Ready));
      if s.tasks[task].phase.Got? {
        SendInStep(s, task, Releasing(id, Awaiting), ReserveRelease(id));
      }
      var u := ApplyFinishQuery(s, task);
      var d := Drop(s, task);
      OnlyLinks(d, d.(rows := u.rows));
    }
  }

  lemma SendStepsInStep(s: Sys, task: TaskId)
    requires InStep(s) && Quiet(s, SendCommit(task))
    ensures InStep(ApplySendCommit(s, task)) && InStep(ApplySendQuery(s, task))
  {
    if task in s.tasks && s.tasks[task].phase.Ready? {
      var id := s.tasks[task].id;
      SendInStep(s, task, Confirm(id, Awaiting), ReserveCommit(id));
      SendInStep(s, task, Query(id, Awaiting), StatusQuery(id));
      TaskInStep(s, task, Confirm(id, Failed));
    }
  }

  lemma ResolveInStep(s: Sys, task: TaskId)
    requires InStep(s)
    ensures InStep(ApplyReceive(s)) && InStep(ApplyTimeout(s, task))
  {
    if s.up != [] {
      OnlyLinks(s, s.(up := s.up[1..]));
    }
  }

  lemma StepInStep(s: Sys, ev: Event)
    requires InStep(s) && Quiet(s, ev)
    ensures InStep(Apply(s, ev))
  {
    match ev
    case NodeStep(now) => if s.down != [] { NodeInStep(s, now); }
    case NodeHeartbeat(now) => OnlyLinks(s, Apply(s, ev));
    case Book(task, id, st, en, price) =>
      if task !in s.tasks { SendInStep(s, task, Booking(id, st, en, price, Awaiting), ReserveRequest(id, st, en)); }
    case FinishBooking(task, now) => FinishInStep(s, task, now);
    case StartConfirm(task, id) => if task !in s.tasks { TaskInStep(s, task, Confirm(id, Ready)); }
    case SendCommit(task) => SendStepsInStep(s, task);
    case FinishConfirm(task) => FinishInStep(s, task, 0);
    case SelectMismatch(task, id) => if task !in s.tasks { TaskInStep(s, task, Query(id, Ready)); }
    case SendQuery(task) => SendStepsInStep(s, task);
    case FinishQuery(task) => QueryInStep(s, task);
    case FinishRelease(task) => FinishInStep(s, task, 0);
    case Receive => ResolveInStep(s, 0);
    case Timeout(task) => ResolveInStep(s, task);
    case Sweep(now) => OnlyLinks(s, ApplySweep(s, now));
    case StartJob(id) => OnlyLinks(s, ApplyStartJob(s, id));
    case Settle(id, outcome) => OnlyLinks(s, ApplySettle(s, id, outcome));
    case Disconnect => OnlyLinks(s, s.(connected := false, up := []));
    case Connect => OnlyLinks(s, s.(connected := true, down := [], up := []));
    case PlatformCrash =>
  }

  lemma QuietStepMatches(s: Sys, ev: Event)
    requires InStep(s)
    ensures Matched(s, ev)
  {
    if ev.Receive? && s.up != [] {
      assert s.up[0] in s.up;
    }
  }

  /** A run that keeps to one conversation per id resolves every await with a reply of its own type. */
  lemma {:induction false} QuietImpliesMatched(s: Sys, timely: bool, guarded: bool, evs: seq<Event>)
    requires InStep(s) && ObeysAll(Rules(false, timely, guarded, true), s, evs)
    ensures ObeysAll(Rules(true, timely, guarded, true), s, evs)
    decreases evs
  {
    if evs != [] {
      QuietStepMatches(s, evs[0]);
      StepInStep(s, evs[0]);
      QuietImpliesMatched(Apply(s, evs[0]), timely, guarded, evs[1..]);
    }
  }

  lemma {:induction false} ObeysWeaker(strong: Rules, weak: Rules, s: Sys, evs: seq<Event>)
    requires ObeysAll(strong, s, evs)
    requires (weak.matched ==> strong.matched) && (weak.timely ==> strong.timely)
    requires (weak.guarded ==> strong.guarded) && (weak.quiet ==> strong.quiet)
    ensures ObeysAll(weak, s, evs)
    decreases evs
  {
    if evs != [] {
      ObeysWeaker(strong, weak, Apply(s, evs[0]), evs[1..]);
    }
  }

  /** With one conversation per id and timely confirms, every captured row is confirmed on the node for its window. */
  lemma QuietCapturedIsReserved(nodePrice: int, ttlMs: int, evs: seq<Event>, id: Id)
    requires ObeysAll(Rules(false, true, false, true), Init(nodePrice, ttlMs), evs)
    requires var s := Run(Init(nodePrice, ttlMs), evs); id in s.rows && s.rows[id].captured
    ensures var s := Run(Init(nodePrice, ttlMs), evs);
      SameWindow(s, id, s.rows[id].startsAt, s.rows[id].endsAt) && s.node[id].status == L.Confirmed
  {
    var init := Init(nodePrice, ttlMs);
    QuietImpliesMatched(init, true, false, evs);
    ObeysWeaker(Rules(true, true, false, true), DISCIPLINE, init, evs);
    CapturedIsReserved(nodePrice, ttlMs, evs, id);
  }

  /**
   What the platform can enforce by itself, an idle id before it sends and a held row before a
   confirm acts, makes every reply match and every confirm timely; so all that ProtocolSafety
   proves of such runs holds.
   */
  lemma PlatformCanEnforceIt(nodePrice: int, ttlMs: int, evs: seq<Event>)
    requires ObeysAll(Rules(false, false, true, true), Init(nodePrice, ttlMs), evs)
    ensures ObeysAll(DISCIPLINE, Init(nodePrice, ttlMs), evs)
  {
    var init := Init(nodePrice, ttlMs);
    QuietImpliesMatched(init, false, true, evs);
    ObeysWeaker(Rules(true, false, true, true), Rules(true, false, true, false), init, evs);
    GuardedRunIsTimely(init, evs);
    ObeysWeaker(Rules(true, true, true, false), DISCIPLINE, init, evs);
  }
}
