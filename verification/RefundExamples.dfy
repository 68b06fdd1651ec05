/** For each condition of RefundTasks.Clean, a run that breaks only that one and refunds a payment twice. */
module RefundExamples {
  import R = Refunds
  import opened RefundTasks

  /** Which steps of a run need not be clean. */
  datatype Fault = WriteFails | ReplyIsLost | ProcessStops | SweepsOverlap | IssuedAgain

  predicate Allowed(f: Fault, s: State, ev: Event) {
    Clean(s, ev, 1)
    || match f
       case WriteFails => ev.Writes?
       case ReplyIsLost => ev.Returns?
       case ProcessStops => ev.Crash?
       case SweepsOverlap => ev.StartSweep?
       case IssuedAgain => ev.StartIssue?
  }

  ghost predicate AllAllowed(f: Fault, s: State, evs: seq<Event>)
    requires PossibleRun(s, evs)
    decreases evs
  {
    evs != [] ==> Allowed(f, s, evs[0]) && AllAllowed(f, Apply(s, evs[0]), evs[1..])
  }

  ghost predicate CanPayTwice(f: Fault, s: State) {
    exists evs :: PossibleRun(s, evs) && AllAllowed(f, s, evs) && R.Paid(Run(s, evs).desk, 1) == 2
  }

  lemma Arrived(f: Fault, s: State)
    requires R.Paid(s.desk, 1) == 2
    ensures CanPayTwice(f, s)
  {
    assert PossibleRun(s, []) && AllAllowed(f, s, []) && Run(s, []) == s;
  }

  lemma Via(f: Fault, s: State, ev: Event, u: State)
    requires Possible(s, ev) && Allowed(f, s, ev) && Apply(s, ev) == u && CanPayTwice(f, u)
    ensures CanPayTwice(f, s)
  {
    var rest :| PossibleRun(u, rest) && AllAllowed(f, u, rest) && R.Paid(Run(u, rest).desk, 1) == 2;
    var evs := [ev] + rest;
    assert evs[1..] == rest;
    assert PossibleRun(s, evs) && AllAllowed(f, s, evs) && Run(s, evs) == Run(u, rest);
  }

  /** Payment 1 refunded `n` times, with its first retry due after a minute, and the tasks under way. */
  function Due1(refunded: set<R.PaymentId>, n: nat, tasks: map<TaskId, Task>, returned: set<R.PaymentId>): State {
    State(R.Desk(refunded, map[1 := R.Retry(1, 60000, R.Pending)], map[1 := n]), tasks, returned)
  }

  function AtGateway(executed: bool): Task {
    Sweeping([Item(1, 1)], Calling(executed))
  }

  lemma RowIsSelected(refunded: set<R.PaymentId>, n: nat, tasks: map<TaskId, Task>, returned: set<R.PaymentId>, id: TaskId)
    requires id !in tasks && Shaped(Due1(refunded, n, tasks, returned))
    ensures var s := Due1(refunded, n, tasks, returned);
      Possible(s, StartSweep(id, [1], 60000))
      && Apply(s, StartSweep(id, [1], 60000)) == Due1(refunded, n, tasks[id := AtGateway(false)], returned)
  {
    var s := Due1(refunded, n, tasks, returned);
    assert R.Due(s.desk, 1, 60000);
    assert Items(s.desk, [1]) == [Item(1, 1)];
  }

  lemma RowIsPaid(refunded: set<R.PaymentId>, n: nat, tasks: map<TaskId, Task>, returned: set<R.PaymentId>, id: TaskId)
    requires id in tasks && tasks[id] == AtGateway(false) && Shaped(Due1(refunded, n, tasks, returned))
    ensures var s := Due1(refunded, n, tasks, returned);
      Apply(s, Executes(id)) == Due1(refunded, n + 1, tasks[id := AtGateway(true)], returned)
  {
    assert map[1 := n][1 := n + 1] == map[1 := n + 1];
  }

  /** A refunded payment whose retry is pending and at nobody's hands is refunded again by a faultless sweep. */
  lemma PendingPaysAgain(f: Fault, refunded: set<R.PaymentId>, returned: set<R.PaymentId>)
    ensures CanPayTwice(f, Due1(refunded, 1, map[], returned))
  {
    var s, t := map[9 := AtGateway(false)], map[9 := AtGateway(true)];
    RowIsSelected(refunded, 1, map[], returned, 9);
    RowIsPaid(refunded, 1, s, returned, 9);
    assert map[][9 := AtGateway(false)] == s && s[9 := AtGateway(true)] == t;
    Arrived(f, Due1(refunded, 2, t, returned));
    Via(f, Due1(refunded, 1, s, returned), Executes(9), Due1(refunded, 2, t, returned));
    Via(f, Due1(refunded, 1, map[], returned), StartSweep(9, [1], 60000), Due1(refunded, 1, s, returned));
  }

  /** One task, payment 1 refunded `n` times and never queued. */
  function Issue1(refunded: set<R.PaymentId>, n: nat, stage: Stage, returned: set<R.PaymentId>): State {
    State(R.Desk(refunded, map[], if n == 0 then map[] else map[1 := n]), map[0 := Issuing(1, stage)], returned)
  }

  lemma IssueStarts()
    ensures Possible(START, StartIssue(0, 1)) && Apply(START, StartIssue(0, 1)) == Issue1({}, 0, Calling(false), {})
  {
    assert map[][0 := Issuing(1, Calling(false))] == map[0 := Issuing(1, Calling(false))];
  }

  lemma IssueExecutes()
    ensures Apply(Issue1({}, 0, Calling(false), {}), Executes(0)) == Issue1({}, 1, Calling(true), {})
  {
    assert map[0 := Issuing(1, Calling(false))][0 := Issuing(1, Calling(true))] == map[0 := Issuing(1, Calling(true))];
    assert map[][1 := 1] == map[1 := 1];
  }

  lemma IssueQueues(n: nat, returned: set<R.PaymentId>)
    requires n > 0
    ensures Apply(Issue1({}, n, Failed, returned), Writes(0, Done, 0)) == Due1({}, n, map[], returned)
  {
    assert R.Pow2(0) == 1 && R.BackoffMs(0) == 60000;
    assert map[0 := Issuing(1, Failed)] - {0} == map[];
    assert map[][1 := R.Retry(1, 60000, R.Pending)] == map[1 := R.Retry(1, 60000, R.Pending)];
  }

  lemma FromFailedMark()
    ensures CanPayTwice(WriteFails, Issue1({}, 1, Returned, {1}))
  {
    var caught := Issue1({}, 1, Failed, {1});
    PendingPaysAgain(WriteFails, {}, {1});
    IssueQueues(1, {1});
    Via(WriteFails, caught, Writes(0, Done, 0), Due1({}, 1, map[], {1}));
    assert map[0 := Issuing(1, Returned)][0 := Issuing(1, Failed)] == map[0 := Issuing(1, Failed)];
    Via(WriteFails, Issue1({}, 1, Returned, {1}), Writes(0, Rejected(false), 0), caught);
  }

  /** The gateway refunds and says so, the mark fails, and the catch queues a retry. */
  lemma FailedMarkPaysTwice()
    ensures CanPayTwice(WriteFails, START)
  {
    var paid, back := Issue1({}, 1, Calling(true), {}), Issue1({}, 1, Returned, {1});
    FromFailedMark();
    assert map[0 := Issuing(1, Calling(true))][0 := Issuing(1, Returned)] == map[0 := Issuing(1, Returned)] && {} + {1} == {1};
    Via(WriteFails, paid, Returns(0, true), back);
    FromStart(WriteFails);
  }

  lemma FromStart(f: Fault)
    requires CanPayTwice(f, Issue1({}, 1, Calling(true), {}))
    ensures CanPayTwice(f, START)
  {
    IssueExecutes();
    Via(f, Issue1({}, 0, Calling(false), {}), Executes(0), Issue1({}, 1, Calling(true), {}));
    IssueStarts();
    Via(f, START, StartIssue(0, 1), Issue1({}, 0, Calling(false), {}));
  }

  /** The gateway refunds, but the call throws. */
  lemma LostReplyPaysTwice()
    ensures CanPayTwice(ReplyIsLost, START)
  {
    var paid, caught := Issue1({}, 1, Calling(true), {}), Issue1({}, 1, Failed, {});
    PendingPaysAgain(ReplyIsLost, {}, {});
    IssueQueues(1, {});
    Via(ReplyIsLost, caught, Writes(0, Done, 0), Due1({}, 1, map[], {}));
    assert map[0 := Issuing(1, Calling(true))][0 := Issuing(1, Failed)] == map[0 := Issuing(1, Failed)];
    Via(ReplyIsLost, paid, Returns(0, false), caught);
    FromStart(ReplyIsLost);
  }

  /** A refund that the gateway refused, queued and not yet paid. */
  const QUEUED := State(R.Desk({}, map[1 := R.Retry(1, 60000, R.Pending)], map[]), map[], {})

  lemma FromRefusal(f: Fault)
    requires CanPayTwice(f, QUEUED)
    ensures CanPayTwice(f, START)
  {
    var called, caught := Issue1({}, 0, Calling(false), {}), Issue1({}, 0, Failed, {});
    assert R.Pow2(0) == 1 && R.BackoffMs(0) == 60000;
    assert map[0 := Issuing(1, Failed)] - {0} == map[];
    assert map[][1 := R.Retry(1, 60000, R.Pending)] == map[1 := R.Retry(1, 60000, R.Pending)];
    Via(f, caught, Writes(0, Done, 0), QUEUED);
    assert map[0 := Issuing(1, Calling(false))][0 := Issuing(1, Failed)] == map[0 := Issuing(1, Failed)];
    Via(f, called, Returns(0, false), caught);
    IssueStarts();
    Via(f, START, StartIssue(0, 1), called);
  }

  lemma QueuedIsSelected(tasks: map<TaskId, Task>, id: TaskId)
    requires id !in tasks && Shaped(QUEUED.(tasks := tasks))
    ensures var s := QUEUED.(tasks := tasks);
      Possible(s, StartSweep(id, [1], 60000))
      && Apply(s, StartSweep(id, [1], 60000)) == s.(tasks := tasks[id := AtGateway(false)])
  {
    var s := QUEUED.(tasks := tasks);
    assert R.Due(s.desk, 1, 60000);
    assert Items(s.desk, [1]) == [Item(1, 1)];
  }

  lemma QueuedIsPaid(tasks: map<TaskId, Task>, id: TaskId)
    requires id in tasks && tasks[id] == AtGateway(false) && Shaped(QUEUED.(tasks := tasks))
    ensures Apply(QUEUED.(tasks := tasks), Executes(id)) == Due1({}, 1, tasks[id := AtGateway(true)], {})
  {
    assert map[][1 := 1] == map[1 := 1];
  }

  /** The process stops between the refund and its record. */
  lemma StoppedSweepPaysTwice()
    ensures CanPayTwice(ProcessStops, START)
  {
    var s, t := map[1 := AtGateway(false)], map[1 := AtGateway(true)];
    PendingPaysAgain(ProcessStops, {}, {});
    assert Stop(Due1({}, 1, t, {})).tasks == map[];
    Via(ProcessStops, Due1({}, 1, t, {}), Crash, Due1({}, 1, map[], {}));
    QueuedIsPaid(s, 1);
    assert s[1 := AtGateway(true)] == t;
    Via(ProcessStops, QUEUED.(tasks := s), Executes(1), Due1({}, 1, t, {}));
    QueuedIsSelected(map[], 1);
    assert map[][1 := AtGateway(false)] == s;
    Via(ProcessStops, QUEUED, StartSweep(1, [1], 60000), QUEUED.(tasks := s));
    FromRefusal(ProcessStops);
  }

  /** A second sweep starts while the first still awaits the gateway, and selects the same row. */
  lemma OverlappingSweepsPayTwice()
    ensures CanPayTwice(SweepsOverlap, START)
  {
    var f := SweepsOverlap;
    var one := map[1 := AtGateway(false)];
    var both, half := map[1 := AtGateway(false), 2 := AtGateway(false)], map[1 := AtGateway(true), 2 := AtGateway(false)];
    var paid := half[2 := AtGateway(true)];
    Arrived(f, Due1({}, 2, paid, {}));
    RowIsPaid({}, 1, half, {}, 2);
    Via(f, Due1({}, 1, half, {}), Executes(2), Due1({}, 2, paid, {}));
    QueuedIsPaid(both, 1);
    assert both[1 := AtGateway(true)] == half;
    Via(f, QUEUED.(tasks := both), Executes(1), Due1({}, 1, half, {}));
    QueuedIsSelected(one, 2);
    assert one[2 := AtGateway(false)] == both;
    Via(f, QUEUED.(tasks := one), StartSweep(2, [1], 60000), QUEUED.(tasks := both));
    QueuedIsSelected(map[], 1);
    assert map[][1 := AtGateway(false)] == one;
    Via(f, QUEUED, StartSweep(1, [1], 60000), QUEUED.(tasks := one));
    FromRefusal(f);
  }

  lemma FromSecondIssue()
    ensures CanPayTwice(IssuedAgain, Due1({}, 1, map[1 := Issuing(1, Calling(true))], {}))
  {
    var f := IssuedAgain;
    var paid, back := map[1 := Issuing(1, Calling(true))], map[1 := Issuing(1, Returned)];
    PendingPaysAgain(f, {1}, {1});
    assert back - {1} == map[] && {} + {1} == {1};
    Via(f, Due1({}, 1, back, {1}), Writes(1, Done, 0), Due1({1}, 1, map[], {1}));
    assert paid[1 := Issuing(1, Returned)] == back;
    Via(f, Due1({}, 1, paid, {}), Returns(1, true), Due1({}, 1, back, {1}));
  }

  /** The refund is issued again while its retry is pending. */
  lemma ReissueCanPayTwice()
    ensures CanPayTwice(IssuedAgain, START)
  {
    var f := IssuedAgain;
    var called, paid := map[1 := Issuing(1, Calling(false))], map[1 := Issuing(1, Calling(true))];
    FromSecondIssue();
    assert called[1 := Issuing(1, Calling(true))] == paid && map[][1 := 1] == map[1 := 1];
    Via(f, QUEUED.(tasks := called), Executes(1), Due1({}, 1, paid, {}));
    assert map[][1 := Issuing(1, Calling(false))] == called;
    Via(f, QUEUED, StartIssue(1, 1), QUEUED.(tasks := called));
    FromRefusal(f);
  }
}
