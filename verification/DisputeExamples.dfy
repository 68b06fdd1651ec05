/** A run in which a late result hides a mismatch from the tiebreak (see Disputes). */
module DisputeExamples {
  import opened Options
  import opened Machine
  import opened Verification
  import opened Disputes
  import B = Books

  /** The jobs and verdicts of a court, and the statuses of its rows, with the books in order and quotes of 60 paise. */
  ghost predicate Shape(c: Court, jobs: seq<Job>, res: map<Group, Resolution>, st: seq<RStatus>) {
    && c.jobs == jobs && c.resolutions == res && B.BooksOk(c.ledger)
    && |c.ledger.rows| == |st| && forall i | 0 <= i < |st| :: c.ledger.rows[i].status == st[i] && c.ledger.rows[i].quoted == 60
  }

  ghost predicate Reached(jobs: seq<Job>, res: map<Group, Resolution>, st: seq<RStatus>) {
    exists evs :: ProperRun(NO_COURT, evs) && Shape(Run(NO_COURT, evs), jobs, res, st)
  }

  lemma {:induction false} OneMore(c: Court, evs: seq<Event>, ev: Event)
    requires ProperRun(c, evs) && Proper(Run(c, evs), ev)
    ensures ProperRun(c, evs + [ev]) && Run(c, evs + [ev]) == Apply(Run(c, evs), ev)
    decreases evs
  {
    if evs == [] {
      assert [] + [ev] == [ev] && [ev][1..] == [];
    } else {
      assert (evs + [ev])[1..] == evs[1..] + [ev];
      OneMore(Apply(c, evs[0]), evs[1..], ev);
    }
  }

  ghost predicate Leads(jobs: seq<Job>, res: map<Group, Resolution>, st: seq<RStatus>, ev: Event,
                        jobs': seq<Job>, res': map<Group, Resolution>, st': seq<RStatus>) {
    forall c | Shape(c, jobs, res, st) :: Proper(c, ev) && Shape(Apply(c, ev), jobs', res', st')
  }

  lemma Next(jobs: seq<Job>, res: map<Group, Resolution>, st: seq<RStatus>, ev: Event,
             jobs': seq<Job>, res': map<Group, Resolution>, st': seq<RStatus>)
    requires Reached(jobs, res, st) && Leads(jobs, res, st, ev, jobs', res', st')
    ensures Reached(jobs', res', st')
  {
    var evs :| ProperRun(NO_COURT, evs) && Shape(Run(NO_COURT, evs), jobs, res, st);
    OneMore(NO_COURT, evs, ev);
    assert Shape(Run(NO_COURT, evs + [ev]), jobs', res', st');
  }

  // ---- The ledger.

  lemma Inserting(jobs: seq<Job>, res: map<Group, Resolution>, st: seq<RStatus>, p: B.Provider)
    ensures Leads(jobs, res, st, LedgerMoves(B.Insert(1, p, 60, 60)), jobs, res, st + [Held])
  {
    var ev := LedgerMoves(B.Insert(1, p, 60, 60));
    forall c | Shape(c, jobs, res, st) ensures Proper(c, ev) && Shape(Apply(c, ev), jobs, res, st + [Held]) {
      B.StepKeepsBooksExactly(c.ledger, ev.ev);
    }
  }

  lemma CapturesHeld(c: Court, jobs: seq<Job>, res: map<Group, Resolution>, st: seq<RStatus>, rid: nat)
    requires Shape(c, jobs, res, st) && rid < |st| && st[rid] == Held
    ensures var e := B.DoCapture(rid);
      && B.BooksOk(B.Apply(c.ledger, e)) && B.Apply(c.ledger, e).rows == B.WithStatus(c.ledger.rows, rid, Confirmed)
  {
    B.CaptureKeepsBooks(c.ledger, rid);
    assert !B.HasTxn(c.ledger.txns, B.Capture, rid);
  }

  lemma Capturing(jobs: seq<Job>, res: map<Group, Resolution>, st: seq<RStatus>, rid: nat)
    requires rid < |st| && st[rid] == Held
    ensures Leads(jobs, res, st, LedgerMoves(B.DoCapture(rid)), jobs, res, st[rid := Confirmed])
  {
    var ev := LedgerMoves(B.DoCapture(rid));
    forall c | Shape(c, jobs, res, st) ensures Proper(c, ev) && Shape(Apply(c, ev), jobs, res, st[rid := Confirmed]) {
      CapturesHeld(c, jobs, res, st, rid);
    }
  }

  lemma Starting(jobs: seq<Job>, res: map<Group, Resolution>, st: seq<RStatus>, rid: nat)
    requires rid < |st| && st[rid] == Confirmed
    ensures Leads(jobs, res, st, LedgerMoves(B.StartJob(rid)), jobs, res, st[rid := Running])
  {
    var ev := LedgerMoves(B.StartJob(rid));
    forall c | Shape(c, jobs, res, st) ensures Proper(c, ev) && Shape(Apply(c, ev), jobs, res, st[rid := Running]) {
      B.StepKeepsBooksExactly(c.ledger, ev.ev);
    }
  }

  lemma Submitting(jobs: seq<Job>, res: map<Group, Resolution>, st: seq<RStatus>, rid: nat, g: Group)
    requires rid < |st| && B.Open(st[rid]) && forall j | j in jobs :: j.rid != rid
    ensures Leads(jobs, res, st, AddJob(rid, Some(g)), jobs + [Job(rid, Some(g), JRunning, None, 0)], res, st)
  {
  }

  lemma ByInserting(st: seq<RStatus>, p: B.Provider, st': seq<RStatus>)
    requires Reached([], map[], st) && st' == st + [Held]
    ensures Reached([], map[], st')
  {
    Inserting([], map[], st, p);
    Next([], map[], st, LedgerMoves(B.Insert(1, p, 60, 60)), [], map[], st');
  }

  lemma ByCapturing(st: seq<RStatus>, rid: nat, st': seq<RStatus>)
    requires Reached([], map[], st) && rid < |st| && st[rid] == Held && st' == st[rid := Confirmed]
    ensures Reached([], map[], st')
  {
    Capturing([], map[], st, rid);
    Next([], map[], st, LedgerMoves(B.DoCapture(rid)), [], map[], st');
  }

  /** Submission: the job row, and the reservation running. */
  lemma BySubmitting(jobs: seq<Job>, st: seq<RStatus>, rid: nat, jobs': seq<Job>, st': seq<RStatus>)
    requires Reached(jobs, map[], st) && rid < |st| && st[rid] == Confirmed && forall j | j in jobs :: j.rid != rid
    requires jobs' == jobs + [Waiting(rid)] && st' == st[rid := Running]
    ensures Reached(jobs', map[], st')
  {
    Submitting(jobs, map[], st, rid, G);
    Next(jobs, map[], st, AddJob(rid, Some(G)), jobs', map[], st);
    Starting(jobs', map[], st, rid);
    Next(jobs', map[], st, LedgerMoves(B.StartJob(rid)), jobs', map[], st');
  }

  // ---- The dispute.

  const G: Group := 7

  function Waiting(rid: nat): Job {
    Job(rid, Some(G), JRunning, None, 0)
  }

  function Done(rid: nat, h: Hash): Job {
    Job(rid, Some(G), JSucceeded, Some(h), 0)
  }

  lemma TwoMembers(a: Job, b: Job)
    requires a.group == Some(G) && b.group == Some(G)
    ensures Members([a, b], G) == [a, b]
  {
    assert [a, b][..1] == [a] && [a][..0] == [];
    assert Members([a], G) == [] + [a];
  }

  /** The first result waits for the second. */
  lemma FirstResult(res: map<Group, Resolution>, st: seq<RStatus>, h: Hash)
    ensures Leads([Waiting(0), Waiting(1)], res, st, JobResult(0, Succeeded, h, 0), [Done(0, h), Waiting(1)], res, st)
  {
    TwoMembers(Done(0, h), Waiting(1));
    assert [Waiting(0), Waiting(1)][0 := Done(0, h)] == [Done(0, h), Waiting(1)];
    assert Waiting(1) in [Done(0, h), Waiting(1)];
  }

  lemma RunningPair(c: Court, jobs: seq<Job>, res: map<Group, Resolution>, st: seq<RStatus>, rid: nat)
    requires Shape(c, jobs, res, st) && rid < |st| && st[rid] == Running
    ensures RunningUnsettled(c.ledger, rid) && c.ledger.rows[rid].quoted > 0
  {
    assert c.ledger.rows[rid] in c.ledger.rows && B.RowOk(c.ledger.rows[rid]);
  }

  /** A second, different result disputes both rows. */
  lemma SecondResult(res: map<Group, Resolution>, st: seq<RStatus>, h: Hash, h': Hash)
    requires |st| == 3 && st[0] == Running && st[1] == Running && h != h'
    ensures Leads([Done(0, h), Waiting(1)], res, st, JobResult(1, Succeeded, h', 0),
                  [Done(0, h), Done(1, h')], res, [Disputed, Disputed, st[2]])
  {
    var before, after := [Done(0, h), Waiting(1)], [Done(0, h), Done(1, h')];
    forall c | Shape(c, before, res, st)
      ensures Shape(Apply(c, JobResult(1, Succeeded, h', 0)), after, res, [Disputed, Disputed, st[2]])
    {
      assert before[1 := Done(1, h')] == after;
      TwoMembers(Done(0, h), Done(1, h'));
      RunningPair(c, before, res, st, 0);
      RunningPair(c, before, res, st, 1);
      DisputeBoth(c.ledger, Done(0, h), Done(1, h'));
    }
  }

  lemma DisputeBoth(b: B.Ledger, j0: Job, j1: Job)
    requires B.BooksOk(b) && |b.rows| == 3 && RunningUnsettled(b, 0) && RunningUnsettled(b, 1) && j0.rid == 0 && j1.rid == 1
    ensures var d := SettleAll(b, [j0, j1], true);
      && B.BooksOk(d) && |d.rows| == 3
      && d.rows == B.WithStatus(B.WithStatus(b.rows, 0, Disputed), 1, Disputed)
  {
    var m := B.SettleStep(b, 0, Disputed, j0.computeSeconds).0;
    DisputeOne(b, 0, j0.computeSeconds);
    SettleIsLocal(b, 0, Disputed, j0.computeSeconds, 1);
    DisputeOne(m, 1, j1.computeSeconds);
    SettlePair(b, j0, j1, true);
  }

  lemma DisputeOne(b: B.Ledger, rid: nat, s: int)
    requires B.BooksOk(b) && RunningUnsettled(b, rid)
    ensures var d := B.SettleStep(b, rid, Disputed, s).0;
      B.BooksOk(d) && d.rows == B.WithStatus(b.rows, rid, Disputed)
  {
    assert b.rows[rid] in b.rows;
    DisputeRefundsAll(b, rid, s);
    B.SettleKeepsBooks(b, rid, Disputed, s);
  }

  lemma NothingSettles(b: B.Ledger, h: Hash)
    requires |b.rows| == 3 && b.rows[0].status == Disputed && b.rows[1].status == Disputed
    ensures SettleAll(b, [Done(0, h), Done(1, h)], false) == b
  {
    SettlePair(b, Done(0, h), Done(1, h), false);
    B.SettlingTheSettled(b, 0, Completed, 0);
    B.SettlingTheSettled(b, 1, Completed, 0);
  }

  /** A late result of the first job repeats the other's hash: it reconciles the opponents, and settles nothing. */
  lemma LateResult(res: map<Group, Resolution>, x: RStatus, h: Hash, h': Hash)
    ensures var st := [Disputed, Disputed, x];
      Leads([Done(0, h), Done(1, h')], res, st, JobResult(0, Succeeded, h', 0), [Done(0, h'), Done(1, h')], res, st)
  {
    var st := [Disputed, Disputed, x];
    var before, after := [Done(0, h), Done(1, h')], [Done(0, h'), Done(1, h')];
    forall c | Shape(c, before, res, st) ensures Shape(Apply(c, JobResult(0, Succeeded, h', 0)), after, res, st) {
      assert before[0 := Done(0, h')] == after;
      AgreeingPairRests(c.(jobs := after), h');
    }
  }

  lemma AgreeingPairRests(c: Court, h: Hash)
    requires c.jobs == [Done(0, h), Done(1, h)]
    requires |c.ledger.rows| == 3 && c.ledger.rows[0].status == Disputed && c.ledger.rows[1].status == Disputed
    ensures SettleVerificationGroup(c, G) == c && |Members(c.jobs, G)| == 2
  {
    TwoMembers(Done(0, h), Done(1, h));
    NothingSettles(c.ledger, h);
  }

  lemma ThreeMembers(h: Hash)
    ensures Members([Done(0, h), Done(1, h), Done(2, h)], G) == [Done(0, h), Done(1, h), Done(2, h)]
  {
    var a, b, c := Done(0, h), Done(1, h), Done(2, h);
    assert [a, b, c][..2] == [a, b];
    TwoMembers(a, b);
  }

  lemma TheOriginals(b: B.Ledger, h: Hash)
    requires |b.rows| == 3 && b.rows[0].status == Disputed && b.rows[1].status == Disputed && b.rows[2].status != Disputed
    ensures var jobs := [Done(0, h), Done(1, h), Done(2, h)];
      DisputedOnes(b, jobs) == [Done(0, h), Done(1, h)] && FirstUndisputed(b, jobs) == Some(Done(2, h))
  {
    var x, y, z := Done(0, h), Done(1, h), Done(2, h);
    assert [x, y, z][1..] == [y, z] && [y, z][1..] == [z] && [z][1..] == [];
    assert DisputedOnes(b, [z]) == [] && DisputedOnes(b, [y, z]) == [y] + [] && DisputedOnes(b, [x, y, z]) == [x] + [y];
    assert FirstUndisputed(b, [z]) == Some(z) && FirstUndisputed(b, [y, z]) == Some(z);
  }

  /** The tiebreaker agrees with the hash that both originals now carry. */
  lemma TiebreakResult(h: Hash)
    ensures var st := [Disputed, Disputed, Running];
      Leads([Done(0, h), Done(1, h), Waiting(2)], map[], st, JobResult(2, Succeeded, h, 0),
            [Done(0, h), Done(1, h), Done(2, h)], map[G := Resolution(2, None, None)], [Disputed, Disputed, Completed])
  {
    var before, after := [Done(0, h), Done(1, h), Waiting(2)], [Done(0, h), Done(1, h), Done(2, h)];
    forall c | Shape(c, before, map[], [Disputed, Disputed, Running])
      ensures Shape(Apply(c, JobResult(2, Succeeded, h, 0)), after, map[G := Resolution(2, None, None)], [Disputed, Disputed, Completed])
    {
      assert before[2 := Done(2, h)] == after;
      ThreeMembers(h);
      Deciding(c.(jobs := after), h);
    }
  }

  lemma Deciding(c: Court, h: Hash)
    requires Shape(c, [Done(0, h), Done(1, h), Done(2, h)], map[], [Disputed, Disputed, Running])
    ensures Shape(ResolveDisputeTiebreaker(c, G), c.jobs, map[G := Resolution(2, None, None)], [Disputed, Disputed, Completed])
  {
    ThreeMembers(h);
    TheOriginals(c.ledger, h);
    CompletesThird(c.ledger);
    var d := B.SettleStep(c.ledger, 2, Completed, 0).0;
    DecidingEnds(c, d, h);
    assert GroupIsComplete(c.jobs);
  }

  lemma DecidingEnds(c: Court, d: B.Ledger, h: Hash)
    requires Shape(c, [Done(0, h), Done(1, h), Done(2, h)], map[], [Disputed, Disputed, Running])
    requires B.BooksOk(d) && d.rows == B.WithStatus(c.ledger.rows, 2, Completed)
    ensures Shape(Resolve(c.(ledger := d), G, Done(0, h), Done(1, h), Done(2, h)), c.jobs,
                  map[G := Resolution(2, None, None)], [Disputed, Disputed, Completed])
  {
    assert map[][G := Resolution(2, None, None)] == map[G := Resolution(2, None, None)];
  }

  lemma CompletesThird(b: B.Ledger)
    requires B.BooksOk(b) && |b.rows| == 3 && b.rows[2].status == Running && b.rows[2].quoted != 1
    ensures var d := B.SettleStep(b, 2, Completed, 0).0;
      B.BooksOk(d) && d.rows == B.WithStatus(b.rows, 2, Completed)
  {
    B.SettleKeepsBooks(b, 2, Completed, 0);
    B.SettlementGoesThrough(b, 2, Completed, 0);
  }

  // ---- From an empty database.

  lemma ThreeHeld()
    ensures Reached([], map[], [Held, Held, Held])
  {
    B.EmptyIsOk();
    assert ProperRun(NO_COURT, []) && Shape(Run(NO_COURT, []), [], map[], []);
    ByInserting([], 1, [Held]);
    ByInserting([Held], 2, [Held, Held]);
    ByInserting([Held, Held], 3, [Held, Held, Held]);
  }

  lemma ThreeConfirmed()
    ensures Reached([], map[], [Confirmed, Confirmed, Confirmed])
  {
    ThreeHeld();
    ByCapturing([Held, Held, Held], 0, [Confirmed, Held, Held]);
    ByCapturing([Confirmed, Held, Held], 1, [Confirmed, Confirmed, Held]);
    ByCapturing([Confirmed, Confirmed, Held], 2, [Confirmed, Confirmed, Confirmed]);
  }

  lemma PairRunning()
    ensures Reached([Waiting(0), Waiting(1)], map[], [Running, Running, Confirmed])
  {
    ThreeConfirmed();
    BySubmitting([], [Confirmed, Confirmed, Confirmed], 0, [Waiting(0)], [Running, Confirmed, Confirmed]);
    BySubmitting([Waiting(0)], [Running, Confirmed, Confirmed], 1, [Waiting(0), Waiting(1)], [Running, Running, Confirmed]);
  }

  lemma PairReconciled(h: Hash, h': Hash)
    requires h != h'
    ensures Reached([Done(0, h), Done(1, h')], map[], [Disputed, Disputed, Confirmed])
    ensures Reached([Done(0, h'), Done(1, h')], map[], [Disputed, Disputed, Confirmed])
  {
    var st := [Running, Running, Confirmed];
    var st' := [Disputed, Disputed, Confirmed];
    PairRunning();
    FirstResult(map[], st, h);
    Next([Waiting(0), Waiting(1)], map[], st, JobResult(0, Succeeded, h, 0), [Done(0, h), Waiting(1)], map[], st);
    SecondResult(map[], st, h, h');
    Next([Done(0, h), Waiting(1)], map[], st, JobResult(1, Succeeded, h', 0), [Done(0, h), Done(1, h')], map[], st');
    LateResult(map[], Confirmed, h, h');
    Next([Done(0, h), Done(1, h')], map[], st', JobResult(0, Succeeded, h', 0), [Done(0, h'), Done(1, h')], map[], st');
  }

  lemma TheLateResultReconciles(c: Court, h: Hash, h': Hash)
    requires Shape(c, [Done(0, h), Done(1, h')], map[], [Disputed, Disputed, Confirmed])
    ensures Reconciles(c, JobResult(0, Succeeded, h', 0))
  {
    assert Opponents(c, 0, 1) && c.jobs[1].hash == Some(h');
  }

  /**
   Two results that differ dispute both reservations. Then a late result gives the first job the
   hash of the second, and a tiebreaker with that hash, which would have decided for the second,
   agrees with both and is recorded as inconclusive.
   */
  lemma LateResultHidesTheMajority(h: Hash, h': Hash)
    requires h != h'
    ensures Reached([Done(0, h), Done(1, h')], map[], [Disputed, Disputed, Confirmed])
    ensures forall c | Shape(c, [Done(0, h), Done(1, h')], map[], [Disputed, Disputed, Confirmed]) :: Reconciles(c, JobResult(0, Succeeded, h', 0))
    ensures AttributeFault(Done(0, h), Done(1, h'), Done(2, h')) == Attributed(Done(1, h'), Done(0, h))
    ensures Reached([Done(0, h'), Done(1, h'), Done(2, h')], map[G := Resolution(2, None, None)], [Disputed, Disputed, Completed])
  {
    PairReconciled(h, h');
    forall c | Shape(c, [Done(0, h), Done(1, h')], map[], [Disputed, Disputed, Confirmed])
      ensures Reconciles(c, JobResult(0, Succeeded, h', 0))
    {
      TheLateResultReconciles(c, h, h');
    }
    DecidedByTheThird(h');
  }

  lemma DecidedByTheThird(h: Hash)
    requires Reached([Done(0, h), Done(1, h)], map[], [Disputed, Disputed, Confirmed])
    ensures Reached([Done(0, h), Done(1, h), Done(2, h)], map[G := Resolution(2, None, None)], [Disputed, Disputed, Completed])
  {
    var trio := [Done(0, h), Done(1, h), Waiting(2)];
    BySubmitting([Done(0, h), Done(1, h)], [Disputed, Disputed, Confirmed], 2, trio, [Disputed, Disputed, Running]);
    TiebreakResult(h);
    Next(trio, map[], [Disputed, Disputed, Running], JobResult(2, Succeeded, h, 0),
      [Done(0, h), Done(1, h), Done(2, h)], map[G := Resolution(2, None, None)], [Disputed, Disputed, Completed]);
  }
}
