/**
 Duplicate execution and disputes: `onJobResult`, `settleVerificationGroup` and
 `resolveDisputeTiebreaker` (backend/src/api/server.js, backend/src/jobs/verification.js).
 Result hashes are abstract values compared for equality.
 */
module Verification {
  import opened Options
  import opened Machine
  import opened Settle
  import B = Books

  type Group = nat
  type Hash = nat

  /** The executor's vocabulary; `OtherExec` is any other string. */
  datatype ExecStatus = Succeeded | Failed | TimedOut | OomKilled | ExecError | OtherExec

  /** jobs.status */
  datatype JobStatus = JQueued | JStarting | JRunning | JSucceeded | JFailedUser | JFailedProvider | JTimedOut | JCancelled

  datatype Job = Job(rid: nat, group: Option<Group>, status: JobStatus, hash: Option<Hash>, computeSeconds: int)

  function MapJobStatus(x: ExecStatus): JobStatus {
    match x
    case Succeeded => JSucceeded
    case Failed => JFailedUser
    case TimedOut => JFailedUser
    case OomKilled => JFailedUser
    case _ => JFailedProvider
  }

  function JobStatusToSettlement(x: ExecStatus): RStatus {
    match x
    case Succeeded => Completed
    case Failed => FailedUser
    case TimedOut => FailedUser
    case OomKilled => FailedUser
    case _ => FailedProvider
  }

  function JobRowStatusToOutcome(s: JobStatus): RStatus {
    match s
    case JSucceeded => Completed
    case JFailedUser => FailedUser
    case JTimedOut => FailedUser
    case _ => FailedProvider
  }

  /** Going through the jobs table loses nothing that settlement needs. */
  lemma VocabulariesAgree(x: ExecStatus)
    ensures JobRowStatusToOutcome(MapJobStatus(x)) == JobStatusToSettlement(x)
    ensures TerminalJob(MapJobStatus(x)) && JobOutcome(JobStatusToSettlement(x))
    ensures JobStatusToSettlement(x) == Completed <==> x == Succeeded
    ensures forall s :: JobRowStatusToOutcome(s) == Completed <==> s == JSucceeded
    ensures forall s :: JobRowStatusToOutcome(s) == FailedUser <==> s == JFailedUser || s == JTimedOut
    ensures forall s :: JobRowStatusToOutcome(s) == FailedProvider <==> s != JSucceeded && s != JFailedUser && s != JTimedOut
  {
  }

  predicate TerminalJob(s: JobStatus) {
    s == JSucceeded || s == JFailedUser || s == JFailedProvider || s == JTimedOut || s == JCancelled
  }

  /** `compareJobResults`: a missing hash never matches. */
  predicate Matches(a: Job, b: Job) {
    a.hash.Some? && b.hash.Some? && a.hash.value == b.hash.value
  }

  predicate GroupIsComplete(jobs: seq<Job>) {
    |jobs| >= 2 && forall j | j in jobs :: TerminalJob(j.status)
  }

  datatype Verdict = Inconclusive | Attributed(vindicated: Job, atFault: Job)

  function AttributeFault(a: Job, b: Job, tiebreaker: Job): Verdict {
    var aMatches := Matches(a, tiebreaker);
    var bMatches := Matches(b, tiebreaker);
    if aMatches == bMatches then Inconclusive
    else Attributed(if aMatches then a else b, if aMatches then b else a)
  }

  /**
   On a genuine mismatch a tiebreaker never sides with both nodes, and fault is attributed exactly
   when it sides with one: to the other.
   */
  lemma TiebreakIsMajority(a: Job, b: Job, t: Job)
    requires !Matches(a, b)
    ensures !(Matches(a, t) && Matches(b, t))
    ensures AttributeFault(a, b, t) ==
      if Matches(a, t) then Attributed(a, b) else if Matches(b, t) then Attributed(b, a) else Inconclusive
  {
  }

  /** A row of dispute_resolutions. */
  datatype Resolution = Resolution(tiebreaker: nat, atFault: Option<nat>, vindicated: Option<nat>)

  datatype Court = Court(ledger: B.Ledger, jobs: seq<Job>, resolutions: map<Group, Resolution>)

  function Members(jobs: seq<Job>, g: Group): seq<Job> {
    if jobs == [] then []
    else
      var n := |jobs| - 1;
      if jobs[n].group == Some(g) then Members(jobs[..n], g) + [jobs[n]] else Members(jobs[..n], g)
  }

  function OutcomeOf(j: Job, disputed: bool): RStatus {
    if disputed then Disputed else JobRowStatusToOutcome(j.status)
  }

  function SettleAll(b: B.Ledger, jobs: seq<Job>, disputed: bool): B.Ledger {
    if jobs == [] then b
    else
      var n := |jobs| - 1;
      var j := jobs[n];
      B.SettleStep(SettleAll(b, jobs[..n], disputed), j.rid, OutcomeOf(j, disputed), j.computeSeconds).0
  }

  function SettleVerificationGroup(c: Court, g: Group): Court {
    var jobs := Members(c.jobs, g);
    if !GroupIsComplete(jobs) then c
    else c.(ledger := SettleAll(c.ledger, jobs, !Matches(jobs[0], jobs[1])))
  }

  predicate IsDisputed(b: B.Ledger, j: Job) {
    j.rid < |b.rows| && b.rows[j.rid].status == Disputed
  }

  function DisputedOnes(b: B.Ledger, jobs: seq<Job>): seq<Job> {
    if jobs == [] then []
    else (if IsDisputed(b, jobs[0]) then [jobs[0]] else []) + DisputedOnes(b, jobs[1..])
  }

  function FirstUndisputed(b: B.Ledger, jobs: seq<Job>): Option<Job> {
    if jobs == [] then None
    else if !IsDisputed(b, jobs[0]) then Some(jobs[0]) else FirstUndisputed(b, jobs[1..])
  }

  function ProviderOf(b: B.Ledger, j: Job): Option<B.Provider> {
    if j.rid < |b.rows| then Some(b.rows[j.rid].provider) else None
  }

  /** The resolution transaction: the fault and its record commit together, once for a group. */
  function Resolve(c: Court, g: Group, a: Job, b: Job, tiebreaker: Job): Court {
    if g in c.resolutions then c
    else
      match AttributeFault(a, b, tiebreaker)
      case Inconclusive => c.(resolutions := c.resolutions[g := Resolution(tiebreaker.rid, None, None)])
      case Attributed(v, f) =>
        var p := ProviderOf(c.ledger, f);
        c.(resolutions := c.resolutions[g := Resolution(tiebreaker.rid, Some(f.rid), Some(v.rid))],
           ledger := if p.Some? then c.ledger.(reps := B.Bump(c.ledger.reps, p.value, Some(B.Failure))) else c.ledger)
  }

  function ResolveDisputeTiebreaker(c: Court, g: Group): Court {
    var jobs := Members(c.jobs, g);
    if !GroupIsComplete(jobs) then c
    else
      var original := DisputedOnes(c.ledger, jobs);
      var tiebreaker := FirstUndisputed(c.ledger, jobs);
      if |original| != 2 || tiebreaker.None? then c
      else
        var t := tiebreaker.value;
        var settled := B.SettleStep(c.ledger, t.rid, JobRowStatusToOutcome(t.status), t.computeSeconds).0;
        Resolve(c.(ledger := settled), g, original[0], original[1], t)
  }

  /** JOB_RESULT, delivered any number of times and in any order. */
  function OnJobResult(c: Court, job: nat, x: ExecStatus, hash: Hash, secs: int): Court {
    if job >= |c.jobs| then c
    else
      var j := c.jobs[job].(status := MapJobStatus(x), hash := Some(hash), computeSeconds := secs);
      var c1 := c.(jobs := c.jobs[job := j]);
      match j.group
      case None => c1.(ledger := B.SettleStep(c.ledger, j.rid, JobStatusToSettlement(x), secs).0)
      case Some(g) =>
        if |Members(c1.jobs, g)| >= 3 then ResolveDisputeTiebreaker(c1, g) else SettleVerificationGroup(c1, g)
  }

  datatype Event =
    | JobResult(job: nat, x: ExecStatus, hash: Hash, secs: int)
    | AddJob(rid: nat, group: Option<Group>)
    | Unpair(job: nat)
    | LedgerMoves(ev: B.Event)

  /** A job must reference a reservation: the foreign key of `jobs`. */
  function Apply(c: Court, ev: Event): Court {
    match ev
    case JobResult(job, x, hash, secs) => OnJobResult(c, job, x, hash, secs)
    case AddJob(rid, group) => if rid < |c.ledger.rows| then c.(jobs := c.jobs + [Job(rid, group, JRunning, None, 0)]) else c
    case Unpair(job) => if job < |c.jobs| then c.(jobs := c.jobs[job := c.jobs[job].(group := None)]) else c
    case LedgerMoves(e) => c.(ledger := B.Apply(c.ledger, e))
  }

  function Run(c: Court, evs: seq<Event>): Court
    decreases evs
  {
    if evs == [] then c else Run(Apply(c, evs[0]), evs[1..])
  }

  // ---------------------------------------------------------------------------------------
  // One resolution for each group, whatever is delivered.
  // ---------------------------------------------------------------------------------------

  /** Resolutions on record are never changed or removed. */
  predicate Keeps(c: Court, d: Court) {
    forall g | g in c.resolutions :: g in d.resolutions && d.resolutions[g] == c.resolutions[g]
  }

  lemma StepResolvesOnce(c: Court, ev: Event)
    ensures Keeps(c, Apply(c, ev))
  {
  }

  /** Over every run, a group's resolution is final. */
  lemma {:induction false} RunResolvesOnce(c: Court, evs: seq<Event>)
    ensures Keeps(c, Run(c, evs))
    decreases evs
  {
    if evs != [] {
      StepResolvesOnce(c, evs[0]);
      RunResolvesOnce(Apply(c, evs[0]), evs[1..]);
    }
  }

  // ---------------------------------------------------------------------------------------
  // The counters that ranking reads.
  // ---------------------------------------------------------------------------------------

  /** The groups whose recorded resolution blames a row of the provider. */
  function Blamed(resolutions: map<Group, Resolution>, rows: seq<B.Row>, p: B.Provider): set<Group> {
    set g | g in resolutions && resolutions[g].atFault.Some?
            && resolutions[g].atFault.value < |rows| && rows[resolutions[g].atFault.value].provider == p
  }

  /** Jobs and verdicts name reservations that exist. */
  predicate Grounded(c: Court) {
    && (forall j | j in c.jobs :: j.rid < |c.ledger.rows|)
    && (forall g | g in c.resolutions && c.resolutions[g].atFault.Some? :: c.resolutions[g].atFault.value < |c.ledger.rows|)
  }

  /**
   A provider's counters are the number of its rows whose job ran on it, and the number of those it
   failed, plus in both the number of recorded resolutions that blame one of its rows.
   */
  predicate ReputationExact(c: Court, p: B.Provider) {
    B.CountersAre(c.ledger, p, |Blamed(c.resolutions, c.ledger.rows, p)|)
  }

  predicate Orderly(c: Court, ev: Event) {
    ev.LedgerMoves? ==> B.Orderly(c.ledger, ev.ev)
  }

  predicate OrderlyRun(c: Court, evs: seq<Event>)
    decreases evs
  {
    evs != [] ==> Orderly(c, evs[0]) && OrderlyRun(Apply(c, evs[0]), evs[1..])
  }

  ghost predicate CourtOk(c: Court, p: B.Provider) {
    B.BooksOk(c.ledger) && Grounded(c) && ReputationExact(c, p)
  }

  /** Rows stay, with their providers. */
  predicate RowsStay(b: B.Ledger, c: B.Ledger) {
    |b.rows| <= |c.rows| && forall i | 0 <= i < |b.rows| :: c.rows[i].provider == b.rows[i].provider
  }

  lemma LedgerKeepsRows(b: B.Ledger, ev: B.Event)
    ensures RowsStay(b, B.Apply(b, ev))
  {
    if ev.DoSettle? { B.SettleEffect(b, ev.rid, ev.outcome, ev.computeSeconds); }
  }

  lemma BlamedStays(c: Court, b: B.Ledger, p: B.Provider)
    requires Grounded(c) && RowsStay(c.ledger, b)
    ensures Grounded(c.(ledger := b)) && Blamed(c.resolutions, b.rows, p) == Blamed(c.resolutions, c.ledger.rows, p)
  {
  }

  lemma SettleKeepsCourt(c: Court, rid: nat, o: RStatus, s: int, p: B.Provider)
    requires CourtOk(c, p) && JobOutcome(o)
    ensures CourtOk(c.(ledger := B.SettleStep(c.ledger, rid, o, s).0), p)
    ensures RowsStay(c.ledger, B.SettleStep(c.ledger, rid, o, s).0)
  {
    var b := B.SettleStep(c.ledger, rid, o, s).0;
    assert b == B.Apply(c.ledger, B.DoSettle(rid, o, s));
    LedgerKeepsRows(c.ledger, B.DoSettle(rid, o, s));
    BlamedStays(c, b, p);
    B.SettleKeepsBooks(c.ledger, rid, o, s);
    B.SettleKeepsReputation(c.ledger, rid, o, s, p, |Blamed(c.resolutions, c.ledger.rows, p)|);
  }

  lemma {:induction false} SettleAllKeepsCourt(c: Court, jobs: seq<Job>, disputed: bool, p: B.Provider)
    requires CourtOk(c, p)
    ensures CourtOk(c.(ledger := SettleAll(c.ledger, jobs, disputed)), p)
    decreases jobs
  {
    if jobs != [] {
      var n := |jobs| - 1;
      SettleAllKeepsCourt(c, jobs[..n], disputed, p);
      var d := c.(ledger := SettleAll(c.ledger, jobs[..n], disputed));
      SettleKeepsCourt(d, jobs[n].rid, OutcomeOf(jobs[n], disputed), jobs[n].computeSeconds, p);
    }
  }

  lemma BumpKeepsBooks(b: B.Ledger, reps: map<B.Provider, B.Rep>)
    requires B.BooksOk(b)
    ensures B.BooksOk(b.(reps := reps))
  {
  }

  lemma BlameGrows(res: map<Group, Resolution>, rows: seq<B.Row>, g: Group, r: Resolution, p: B.Provider)
    requires g !in res && (r.atFault.Some? ==> r.atFault.value < |rows|)
    ensures |Blamed(res[g := r], rows, p)|
      == |Blamed(res, rows, p)| + if r.atFault.Some? && rows[r.atFault.value].provider == p then 1 else 0
  {
    var before, after := Blamed(res, rows, p), Blamed(res[g := r], rows, p);
    if r.atFault.Some? && rows[r.atFault.value].provider == p {
      assert after == before + {g};
    } else {
      assert after == before;
    }
  }

  lemma FaultCounts(b: B.Ledger, q: B.Provider, p: B.Provider, extra: nat)
    requires B.CountersAre(b, p, extra)
    ensures B.CountersAre(b.(reps := B.Bump(b.reps, q, Some(B.Failure))), p, extra + if p == q then 1 else 0)
  {
  }

  /** Recording a verdict and moving the counters go together. */
  lemma ResolveKeepsCourt(c: Court, g: Group, x: Job, y: Job, t: Job, p: B.Provider)
    requires CourtOk(c, p) && x.rid < |c.ledger.rows| && y.rid < |c.ledger.rows|
    ensures CourtOk(Resolve(c, g, x, y, t), p)
  {
    if g !in c.resolutions {
      var d := Resolve(c, g, x, y, t);
      BlameGrows(c.resolutions, c.ledger.rows, g, d.resolutions[g], p);
      BumpKeepsBooks(c.ledger, d.ledger.reps);
      if AttributeFault(x, y, t).Attributed? {
        var f := AttributeFault(x, y, t).atFault;
        FaultCounts(c.ledger, c.ledger.rows[f.rid].provider, p, |Blamed(c.resolutions, c.ledger.rows, p)|);
      }
    }
  }

  lemma {:induction false} MembersOf(jobs: seq<Job>, g: Group, j: Job)
    ensures j in Members(jobs, g) <==> j in jobs && j.group == Some(g)
  {
    if jobs != [] {
      MembersOf(jobs[..|jobs| - 1], g, j);
      assert jobs == jobs[..|jobs| - 1] + [jobs[|jobs| - 1]];
    }
  }

  lemma {:induction false} DisputedOf(b: B.Ledger, jobs: seq<Job>, j: Job)
    ensures j in DisputedOnes(b, jobs) <==> j in jobs && IsDisputed(b, j)
  {
    if jobs != [] {
      DisputedOf(b, jobs[1..], j);
      assert jobs == [jobs[0]] + jobs[1..];
    }
  }

  lemma TiebreakKeepsCourt(c: Court, g: Group, p: B.Provider)
    requires CourtOk(c, p)
    ensures CourtOk(ResolveDisputeTiebreaker(c, g), p)
  {
    var jobs := Members(c.jobs, g);
    var original, tiebreaker := DisputedOnes(c.ledger, jobs), FirstUndisputed(c.ledger, jobs);
    if GroupIsComplete(jobs) && |original| == 2 && tiebreaker.Some? {
      var t := tiebreaker.value;
      var o := JobRowStatusToOutcome(t.status);
      SettleKeepsCourt(c, t.rid, o, t.computeSeconds, p);
      DisputedOf(c.ledger, jobs, original[0]);
      DisputedOf(c.ledger, jobs, original[1]);
      ResolveKeepsCourt(c.(ledger := B.SettleStep(c.ledger, t.rid, o, t.computeSeconds).0), g, original[0], original[1], t, p);
    }
  }

  lemma ResultKeepsCourt(c: Court, ev: Event, p: B.Provider)
    requires CourtOk(c, p) && ev.JobResult?
    ensures CourtOk(Apply(c, ev), p)
  {
    if ev.job < |c.jobs| {
      var j := c.jobs[ev.job].(status := MapJobStatus(ev.x), hash := Some(ev.hash), computeSeconds := ev.secs);
      var c1 := c.(jobs := c.jobs[ev.job := j]);
      assert c.jobs[ev.job] in c.jobs;
      assert CourtOk(c1, p);
      if j.group.None? {
        SettleKeepsCourt(c1, j.rid, JobStatusToSettlement(ev.x), ev.secs, p);
      } else if |Members(c1.jobs, j.group.value)| >= 3 {
        TiebreakKeepsCourt(c1, j.group.value, p);
      } else {
        var jobs := Members(c1.jobs, j.group.value);
        if GroupIsComplete(jobs) { SettleAllKeepsCourt(c1, jobs, !Matches(jobs[0], jobs[1]), p); }
      }
    }
  }

  lemma StepKeepsCourt(c: Court, ev: Event, p: B.Provider)
    requires CourtOk(c, p) && Orderly(c, ev)
    ensures CourtOk(Apply(c, ev), p)
  {
    match ev
    case JobResult(job, x, hash, secs) => ResultKeepsCourt(c, ev, p);
    case AddJob(rid, group) =>
    case Unpair(job) => if job < |c.jobs| { assert c.jobs[job] in c.jobs; }
    case LedgerMoves(e) =>
      LedgerKeepsRows(c.ledger, e);
      BlamedStays(c, B.Apply(c.ledger, e), p);
      B.StepKeepsBooksExactly(c.ledger, e);
      B.StepKeepsReputation(c.ledger, e, p, |Blamed(c.resolutions, c.ledger.rows, p)|);
  }

  /**
   Over every run of results in any order and number, submissions, and orderly steps of the
   ledger, the counters that ranking reads are what the rows and the recorded verdicts say. Since
   a group has one verdict, it adds at most one fault, however often its results are delivered.
   */
  lemma {:induction false} RunKeepsReputation(c: Court, evs: seq<Event>, p: B.Provider)
    requires CourtOk(c, p) && OrderlyRun(c, evs)
    ensures CourtOk(Run(c, evs), p)
    decreases evs
  {
    if evs != [] {
      StepKeepsCourt(c, evs[0], p);
      RunKeepsReputation(Apply(c, evs[0]), evs[1..], p);
    }
  }

  const NO_COURT := Court(B.EMPTY, [], map[])

  /** With providers whose counters start at zero, an empty database is a start. */
  lemma NewProvidersAreExact(reps: map<B.Provider, B.Rep>, p: B.Provider)
    requires forall q | q in reps :: reps[q] == B.Rep(0, 0)
    ensures CourtOk(NO_COURT.(ledger := B.EMPTY.(reps := reps)), p)
  {
    B.EmptyIsOk();
    BumpKeepsBooks(B.EMPTY, reps);
    assert Blamed(map[], [], p) == {};
  }

  /** So from an empty database with new providers the counters are exact after every run. */
  lemma ReputationIsExact(reps: map<B.Provider, B.Rep>, evs: seq<Event>, p: B.Provider)
    requires forall q | q in reps :: reps[q] == B.Rep(0, 0)
    requires OrderlyRun(NO_COURT.(ledger := B.EMPTY.(reps := reps)), evs)
    ensures ReputationExact(Run(NO_COURT.(ledger := B.EMPTY.(reps := reps)), evs), p)
  {
    NewProvidersAreExact(reps, p);
    RunKeepsReputation(NO_COURT.(ledger := B.EMPTY.(reps := reps)), evs, p);
  }

  // ---------------------------------------------------------------------------------------
  // Money.
  // ---------------------------------------------------------------------------------------

  /** Everything the ledger says about one reservation. */
  predicate SameFor(b: B.Ledger, c: B.Ledger, rid: nat) {
    && (rid < |b.rows| <==> rid < |c.rows|)
    && (rid < |b.rows| ==> b.rows[rid] == c.rows[rid])
    && (forall k: B.Kind :: B.HasTxn(b.txns, k, rid) <==> B.HasTxn(c.txns, k, rid))
  }

  /** Settling one reservation neither changes nor depends on the state of another. */
  lemma SettleIsLocal(b: B.Ledger, r0: nat, o: RStatus, s: int, r1: nat)
    requires r0 != r1
    ensures SameFor(b, B.SettleStep(b, r0, o, s).0, r1)
  {
    var (c, res) := B.SettleStep(b, r0, o, s);
    B.SettleEffect(b, r0, o, s);
    if res.Settled? {
      AppendIsLocal(b, c, o, B.Txn(B.Settlement, r0, B.SettleEntries(b.rows[r0], res.charged)), r1);
    }
  }

  lemma AppendIsLocal(b: B.Ledger, c: B.Ledger, o: RStatus, t: B.Txn, rid: nat)
    requires t.rid < |b.rows| && t.rid != rid
    requires c.rows == B.WithStatus(b.rows, t.rid, o) && c.txns == b.txns + [t]
    ensures SameFor(b, c, rid)
  {
    forall k: B.Kind ensures B.HasTxn(b.txns, k, rid) <==> B.HasTxn(c.txns, k, rid) {
      B.HasTxnAppend(b.txns, t, k, rid);
    }
  }

  lemma SettleDependsOn(b: B.Ledger, c: B.Ledger, rid: nat, o: RStatus, s: int)
    requires SameFor(b, c, rid)
    ensures B.SettleStep(b, rid, o, s).1 == B.SettleStep(c, rid, o, s).1
  {
  }

  /** A complete group of two jobs for different reservations. */
  predicate Pair(c: Court, g: Group, j0: Job, j1: Job) {
    Members(c.jobs, g) == [j0, j1] && TerminalJob(j0.status) && TerminalJob(j1.status) && j0.rid != j1.rid
  }

  lemma SettlePair(b: B.Ledger, j0: Job, j1: Job, disputed: bool)
    ensures SettleAll(b, [j0, j1], disputed) ==
      B.SettleStep(B.SettleStep(b, j0.rid, OutcomeOf(j0, disputed), j0.computeSeconds).0,
                   j1.rid, OutcomeOf(j1, disputed), j1.computeSeconds).0
  {
    assert [j0][..0] == [];
    assert SettleAll(b, [j0], disputed) == B.SettleStep(b, j0.rid, OutcomeOf(j0, disputed), j0.computeSeconds).0;
    assert [j0, j1][..1] == [j0];
  }

  /**
   A matching pair settles each reservation exactly as an unverified job with the same executor
   status would: same answer, same charge and refund, same final row.
   */
  lemma MatchingPairSettlesAsSolo(c: Court, g: Group, j0: Job, j1: Job, x0: ExecStatus, x1: ExecStatus)
    requires Pair(c, g, j0, j1) && Matches(j0, j1)
    requires j0.status == MapJobStatus(x0) && j1.status == MapJobStatus(x1)
    ensures var d := SettleVerificationGroup(c, g).ledger;
      var solo0 := B.SettleStep(c.ledger, j0.rid, JobStatusToSettlement(x0), j0.computeSeconds);
      var solo1 := B.SettleStep(c.ledger, j1.rid, JobStatusToSettlement(x1), j1.computeSeconds);
      && d == B.SettleStep(solo0.0, j1.rid, JobStatusToSettlement(x1), j1.computeSeconds).0
      && B.SettleStep(solo0.0, j1.rid, JobStatusToSettlement(x1), j1.computeSeconds).1 == solo1.1
      && SameFor(d, solo0.0, j0.rid) && SameFor(d, solo1.0, j1.rid)
  {
    VocabulariesAgree(x0);
    VocabulariesAgree(x1);
    SettlePair(c.ledger, j0, j1, false);
    var o0, o1 := JobStatusToSettlement(x0), JobStatusToSettlement(x1);
    var b0 := B.SettleStep(c.ledger, j0.rid, o0, j0.computeSeconds).0;
    SettleIsLocal(c.ledger, j0.rid, o0, j0.computeSeconds, j1.rid);
    SettleIsLocal(b0, j1.rid, o1, j1.computeSeconds, j0.rid);
    SettleDependsOn(c.ledger, b0, j1.rid, o1, j1.computeSeconds);
    SettleSame(c.ledger, b0, j1.rid, o1, j1.computeSeconds);
  }

  lemma SameAfterAppend(b: B.Ledger, b': B.Ledger, c: B.Ledger, c': B.Ledger, o: RStatus, t: B.Txn)
    requires SameFor(b, c, t.rid) && t.rid < |b.rows|
    requires b'.rows == B.WithStatus(b.rows, t.rid, o) && c'.rows == B.WithStatus(c.rows, t.rid, o)
    requires b'.txns == b.txns + [t] && c'.txns == c.txns + [t]
    ensures SameFor(b', c', t.rid)
  {
    forall k: B.Kind ensures B.HasTxn(b'.txns, k, t.rid) <==> B.HasTxn(c'.txns, k, t.rid) {
      B.HasTxnAppend(b.txns, t, k, t.rid);
      B.HasTxnAppend(c.txns, t, k, t.rid);
    }
  }

  lemma SettleSame(b: B.Ledger, c: B.Ledger, rid: nat, o: RStatus, s: int)
    requires SameFor(b, c, rid)
    ensures SameFor(B.SettleStep(b, rid, o, s).0, B.SettleStep(c, rid, o, s).0, rid)
  {
    var (b', res) := B.SettleStep(b, rid, o, s);
    var c' := B.SettleStep(c, rid, o, s).0;
    B.SettleEffect(b, rid, o, s);
    B.SettleEffect(c, rid, o, s);
    SettleDependsOn(b, c, rid, o, s);
    if res.Settled? {
      SameAfterAppend(b, b', c, c', o, B.Txn(B.Settlement, rid, B.SettleEntries(b.rows[rid], res.charged)));
    }
  }

  /** Disputing a reservation that is running and unsettled refunds its whole quote. */
  lemma DisputeRefundsAll(b: B.Ledger, rid: nat, s: int)
    requires rid < |b.rows| && b.rows[rid].quoted > 0
    requires b.rows[rid].status == Running && !B.HasTxn(b.txns, B.Settlement, rid)
    ensures var (c, res) := B.SettleStep(b, rid, Disputed, s);
      c.rows == B.WithStatus(b.rows, rid, Disputed) && res == B.Settled(0, b.rows[rid].quoted)
  {
    B.ThroughUnlessOnePaisa(b, rid, Disputed, 0);
  }

  lemma RefundPaysNobody(r: B.Row, a: B.Account)
    requires r.quoted >= 0 && (a.ProviderBalance? || a.PlatformRevenue?)
    ensures B.Net(B.SettleEntries(r, 0), a) == 0
  {
    B.SettleNets(r, 0, a);
  }

  lemma DisputeShape(b: B.Ledger, rid: nat, s: int)
    ensures var c := B.SettleStep(b, rid, Disputed, s).0;
      c == b || (rid < |b.rows| && c.reps == b.reps
                 && c.txns == b.txns + [B.Txn(B.Settlement, rid, B.SettleEntries(b.rows[rid], 0))])
  {
    B.SettleEffect(b, rid, Disputed, s);
    B.SettleBumps(b, rid, Disputed, s);
  }

  lemma AppendedDisputePaysNobody(ts: seq<B.Txn>, rid: nat, r: B.Row, a: B.Account)
    requires r.quoted >= 0 && (a.ProviderBalance? || a.PlatformRevenue?)
    ensures B.Balance(ts + [B.Txn(B.Settlement, rid, B.SettleEntries(r, 0))], a) == B.Balance(ts, a)
  {
    B.BalanceAppend(ts, B.Txn(B.Settlement, rid, B.SettleEntries(r, 0)), a);
    RefundPaysNobody(r, a);
  }

  /** Disputing pays neither provider nor platform, and moves no reputation. */
  lemma DisputePaysNobody(b: B.Ledger, rid: nat, s: int, a: B.Account)
    requires a.ProviderBalance? || a.PlatformRevenue?
    requires rid < |b.rows| ==> b.rows[rid].quoted >= 0
    ensures var c := B.SettleStep(b, rid, Disputed, s).0;
      c.reps == b.reps && B.Balance(c.txns, a) == B.Balance(b.txns, a)
  {
    DisputeShape(b, rid, s);
    if rid < |b.rows| {
      AppendedDisputePaysNobody(b.txns, rid, b.rows[rid], a);
    }
  }

  predicate RunningUnsettled(b: B.Ledger, rid: nat) {
    rid < |b.rows| && b.rows[rid].status == Running && !B.HasTxn(b.txns, B.Settlement, rid)
  }

  lemma PairPaysNobody(b: B.Ledger, j0: Job, j1: Job, a: B.Account)
    requires B.Sound(b) && j0.rid != j1.rid && (a.ProviderBalance? || a.PlatformRevenue?)
    ensures var d := SettleAll(b, [j0, j1], true); B.Balance(d.txns, a) == B.Balance(b.txns, a) && d.reps == b.reps
  {
    SettlePair(b, j0, j1, true);
    var b0 := B.SettleStep(b, j0.rid, Disputed, j0.computeSeconds).0;
    SettleIsLocal(b, j0.rid, Disputed, j0.computeSeconds, j1.rid);
    if j0.rid < |b.rows| { assert b.rows[j0.rid] in b.rows; }
    if j1.rid < |b.rows| { assert b.rows[j1.rid] in b.rows; }
    DisputePaysNobody(b, j0.rid, j0.computeSeconds, a);
    DisputePaysNobody(b0, j1.rid, j1.computeSeconds, a);
  }

  /** A running reservation ends disputed in `d`, with its whole quote refunded. */
  predicate FullyRefunded(b: B.Ledger, d: B.Ledger, j: Job) {
    RunningUnsettled(b, j.rid) ==>
      && j.rid < |d.rows| && d.rows[j.rid].status == Disputed
      && B.SettleStep(b, j.rid, Disputed, j.computeSeconds).1 == B.Settled(0, b.rows[j.rid].quoted)
  }

  lemma FirstRefunded(b: B.Ledger, j0: Job, j1: Job)
    requires B.Sound(b) && j0.rid != j1.rid
    ensures FullyRefunded(b, SettleAll(b, [j0, j1], true), j0)
  {
    SettlePair(b, j0, j1, true);
    if RunningUnsettled(b, j0.rid) {
      assert b.rows[j0.rid] in b.rows;
      DisputeRefundsAll(b, j0.rid, j0.computeSeconds);
      SettleIsLocal(B.SettleStep(b, j0.rid, Disputed, j0.computeSeconds).0, j1.rid, Disputed, j1.computeSeconds, j0.rid);
    }
  }

  lemma SecondRefunded(b: B.Ledger, j0: Job, j1: Job)
    requires B.Sound(b) && j0.rid != j1.rid
    ensures FullyRefunded(b, SettleAll(b, [j0, j1], true), j1)
  {
    SettlePair(b, j0, j1, true);
    if RunningUnsettled(b, j1.rid) {
      assert b.rows[j1.rid] in b.rows;
      SettleIsLocal(b, j0.rid, Disputed, j0.computeSeconds, j1.rid);
      DisputeRefundsAll(b, j1.rid, j1.computeSeconds);
      DisputeRefundsAll(B.SettleStep(b, j0.rid, Disputed, j0.computeSeconds).0, j1.rid, j1.computeSeconds);
    }
  }

  /**
   A mismatch pays nobody and moves no reputation; each reservation of the pair that was running
   ends disputed with its whole quote refunded.
   */
  lemma MismatchChargesNothing(c: Court, g: Group, j0: Job, j1: Job, a: B.Account)
    requires Pair(c, g, j0, j1) && !Matches(j0, j1) && B.Sound(c.ledger)
    requires a.ProviderBalance? || a.PlatformRevenue?
    ensures var d := SettleVerificationGroup(c, g).ledger;
      && B.Balance(d.txns, a) == B.Balance(c.ledger.txns, a) && d.reps == c.ledger.reps
      && FullyRefunded(c.ledger, d, j0) && FullyRefunded(c.ledger, d, j1)
  {
    PairPaysNobody(c.ledger, j0, j1, a);
    FirstRefunded(c.ledger, j0, j1);
    SecondRefunded(c.ledger, j0, j1);
    assert SettleVerificationGroup(c, g).ledger == SettleAll(c.ledger, [j0, j1], true);
  }

  // ---------------------------------------------------------------------------------------
  // Every result that should settle something does.
  // ---------------------------------------------------------------------------------------

  predicate UserFailed(x: ExecStatus) {
    x == Failed || x == TimedOut || x == OomKilled
  }

  /** The one charge that the database rejects. */
  predicate OnePaisa(r: B.Row, x: ExecStatus, secs: int) {
    || (x == Succeeded && r.quoted == 1)
    || (UserFailed(x) && MeteredCharge(r.quoted, r.price, secs) == 1)
  }

  /** The row has ended as the executor's word says, and the ledger pays for that. */
  predicate EndedAs(d: B.Ledger, rid: nat, outcome: RStatus, secs: int) {
    && rid < |d.rows| && d.rows[rid].status == outcome
    && exists t | t in d.txns :: t.kind == B.Settlement && t.rid == rid && B.Pays(t.entries, d.rows[rid], outcome, secs)
  }

  predicate SettledBy(b: B.Ledger, d: B.Ledger, rid: nat, x: ExecStatus, secs: int)
    requires rid < |b.rows|
  {
    if OnePaisa(b.rows[rid], x, secs) then rid < |d.rows| && d.rows[rid] == b.rows[rid]
    else if x == Succeeded then EndedAs(d, rid, Completed, secs)
    else if UserFailed(x) then EndedAs(d, rid, FailedUser, secs)
    else EndedAs(d, rid, FailedProvider, secs)
  }

  predicate IsRunning(b: B.Ledger, rid: nat) {
    rid < |b.rows| && b.rows[rid].status == Running
  }

  lemma OutcomeEnds(b: B.Ledger, rid: nat, o: RStatus, secs: int)
    requires B.BooksOk(b) && IsRunning(b, rid) && JobOutcome(o)
    requires B.Charge(b.rows[rid], Machine.Settlement(o).value, secs) != 1
    ensures EndedAs(B.SettleStep(b, rid, o, secs).0, rid, o, secs)
  {
    B.SettlementGoesThrough(b, rid, o, secs);
    B.SettleEffect(b, rid, o, secs);
    assert b.rows[rid] in b.rows;
    B.EntriesPay(b.rows[rid], o, secs);
    var d := B.SettleStep(b, rid, o, secs).0;
    var t := B.Txn(B.Settlement, rid, B.SettleEntries(b.rows[rid], B.Charge(b.rows[rid], Machine.Settlement(o).value, secs)));
    assert t in d.txns && B.Pays(t.entries, d.rows[rid], o, secs);
  }

  lemma WordSettles(b: B.Ledger, rid: nat, x: ExecStatus, secs: int)
    requires B.BooksOk(b) && IsRunning(b, rid)
    ensures SettledBy(b, B.SettleStep(b, rid, JobStatusToSettlement(x), secs).0, rid, x, secs)
  {
    var o := JobStatusToSettlement(x);
    if OnePaisa(b.rows[rid], x, secs) {
      B.SettlementGoesThrough(b, rid, o, secs);
    } else {
      OutcomeEnds(b, rid, o, secs);
    }
  }

  /** A result of an ordinary job settles its running reservation as the executor's word says, and pays for it. */
  lemma SoloResultSettles(c: Court, job: nat, x: ExecStatus, hash: Hash, secs: int)
    requires B.BooksOk(c.ledger) && job < |c.jobs| && c.jobs[job].group == None && IsRunning(c.ledger, c.jobs[job].rid)
    ensures SettledBy(c.ledger, OnJobResult(c, job, x, hash, secs).ledger, c.jobs[job].rid, x, secs)
  {
    WordSettles(c.ledger, c.jobs[job].rid, x, secs);
  }

  /** The job table after a result. */
  function Reported(jobs: seq<Job>, job: nat, x: ExecStatus, hash: Hash, secs: int): seq<Job>
    requires job < |jobs|
  {
    jobs[job := jobs[job].(status := MapJobStatus(x), hash := Some(hash), computeSeconds := secs)]
  }

  lemma SameRowEnded(d: B.Ledger, e: B.Ledger, rid: nat, o: RStatus, secs: int)
    requires EndedAs(d, rid, o, secs) && rid < |e.rows| && e.rows[rid] == d.rows[rid] && forall t | t in d.txns :: t in e.txns
    ensures EndedAs(e, rid, o, secs)
  {
    var t :| t in d.txns && t.kind == B.Settlement && t.rid == rid && B.Pays(t.entries, d.rows[rid], o, secs);
    assert t in e.txns;
  }

  /** What a first settlement did to one row, a second one of another row leaves. */
  lemma BothEnd(b: B.Ledger, r0: nat, o0: RStatus, s0: int, r1: nat, o1: RStatus, s1: int)
    requires B.BooksOk(b) && r0 != r1 && r0 < |b.rows| && JobOutcome(o0)
    ensures var d := B.SettleStep(b, r0, o0, s0).0;
      var e := B.SettleStep(d, r1, o1, s1).0;
      && B.BooksOk(d) && (r1 < |b.rows| ==> r1 < |d.rows| && d.rows[r1] == b.rows[r1])
      && r0 < |d.rows| == |e.rows| && e.rows[r0] == d.rows[r0] && (forall t | t in d.txns :: t in e.txns)
  {
    var d := B.SettleStep(b, r0, o0, s0).0;
    B.SettleKeepsBooks(b, r0, o0, s0);
    SettleIsLocal(b, r0, o0, s0, r1);
    SettleIsLocal(d, r1, o1, s1, r0);
    B.SettleEffect(b, r0, o0, s0);
    B.SettleEffect(d, r1, o1, s1);
  }

  /** The two jobs of a pair, for running reservations, with the executor's words for them. */
  predicate ReportedPair(c: Court, jobs: seq<Job>, g: Group, j0: Job, x0: ExecStatus, j1: Job, x1: ExecStatus) {
    && Members(jobs, g) == [j0, j1] && j0.rid != j1.rid
    && j0.status == MapJobStatus(x0) && j1.status == MapJobStatus(x1)
    && IsRunning(c.ledger, j0.rid) && IsRunning(c.ledger, j1.rid)
  }

  lemma PairSettledByWords(b: B.Ledger, j0: Job, x0: ExecStatus, j1: Job, x1: ExecStatus)
    requires B.BooksOk(b) && j0.rid != j1.rid && IsRunning(b, j0.rid) && IsRunning(b, j1.rid)
    requires j0.status == MapJobStatus(x0) && j1.status == MapJobStatus(x1)
    ensures var e := SettleAll(b, [j0, j1], false);
      SettledBy(b, e, j0.rid, x0, j0.computeSeconds) && SettledBy(b, e, j1.rid, x1, j1.computeSeconds)
  {
    var o0, o1 := JobStatusToSettlement(x0), JobStatusToSettlement(x1);
    VocabulariesAgree(x0);
    VocabulariesAgree(x1);
    SettlePair(b, j0, j1, false);
    var d := B.SettleStep(b, j0.rid, o0, j0.computeSeconds).0;
    var e := B.SettleStep(d, j1.rid, o1, j1.computeSeconds).0;
    BothEnd(b, j0.rid, o0, j0.computeSeconds, j1.rid, o1, j1.computeSeconds);
    WordSettles(b, j0.rid, x0, j0.computeSeconds);
    WordSettles(d, j1.rid, x1, j1.computeSeconds);
    if !OnePaisa(b.rows[j0.rid], x0, j0.computeSeconds) { SameRowEnded(d, e, j0.rid, o0, j0.computeSeconds); }
  }

  lemma DisputeEnds(b: B.Ledger, rid: nat, secs: int)
    requires B.BooksOk(b) && IsRunning(b, rid)
    ensures EndedAs(B.SettleStep(b, rid, Disputed, secs).0, rid, Disputed, secs)
  {
    OutcomeEnds(b, rid, Disputed, secs);
  }

  /** Two settlements in a row: what the first did stands, and the second does its own. */
  lemma BothDisputed(b: B.Ledger, r0: nat, s0: int, r1: nat, s1: int)
    requires B.BooksOk(b) && r0 != r1 && IsRunning(b, r0) && IsRunning(b, r1)
    ensures var d := B.SettleStep(b, r0, Disputed, s0).0;
      var e := B.SettleStep(d, r1, Disputed, s1).0;
      EndedAs(e, r0, Disputed, s0) && EndedAs(e, r1, Disputed, s1)
  {
    var d := B.SettleStep(b, r0, Disputed, s0).0;
    BothEnd(b, r0, Disputed, s0, r1, Disputed, s1);
    DisputeEnds(b, r0, s0);
    DisputeEnds(d, r1, s1);
    SameRowEnded(d, B.SettleStep(d, r1, Disputed, s1).0, r0, Disputed, s0);
  }

  lemma PairDisputed(b: B.Ledger, j0: Job, j1: Job)
    requires B.BooksOk(b) && j0.rid != j1.rid && IsRunning(b, j0.rid) && IsRunning(b, j1.rid)
    ensures var e := SettleAll(b, [j0, j1], true);
      EndedAs(e, j0.rid, Disputed, j0.computeSeconds) && EndedAs(e, j1.rid, Disputed, j1.computeSeconds)
  {
    SettlePair(b, j0, j1, true);
    BothDisputed(b, j0.rid, j0.computeSeconds, j1.rid, j1.computeSeconds);
  }

  /**
   The result that completes a pair settles both reservations: each as its own word says when
   the hashes agree, and both as disputed, refunded in full, when they do not.
   */
  lemma PairResultSettles(c: Court, job: nat, x: ExecStatus, hash: Hash, secs: int, g: Group, j0: Job, x0: ExecStatus, j1: Job, x1: ExecStatus)
    requires B.BooksOk(c.ledger) && job < |c.jobs| && c.jobs[job].group == Some(g)
    requires ReportedPair(c, Reported(c.jobs, job, x, hash, secs), g, j0, x0, j1, x1)
    ensures var d := OnJobResult(c, job, x, hash, secs).ledger;
      if j0.hash.Some? && j0.hash == j1.hash
      then SettledBy(c.ledger, d, j0.rid, x0, j0.computeSeconds) && SettledBy(c.ledger, d, j1.rid, x1, j1.computeSeconds)
      else EndedAs(d, j0.rid, Disputed, j0.computeSeconds) && EndedAs(d, j1.rid, Disputed, j1.computeSeconds)
  {
    VocabulariesAgree(x0);
    VocabulariesAgree(x1);
    var c1 := c.(jobs := Reported(c.jobs, job, x, hash, secs));
    assert OnJobResult(c, job, x, hash, secs) == SettleVerificationGroup(c1, g);
    if j0.hash.Some? && j0.hash == j1.hash {
      PairSettledByWords(c.ledger, j0, x0, j1, x1);
    } else {
      PairDisputed(c.ledger, j0, j1);
    }
  }

  /** Until both have reported, a pair settles nothing. */
  lemma HalfAPairWaits(c: Court, job: nat, x: ExecStatus, hash: Hash, secs: int, g: Group, j: Job)
    requires job < |c.jobs| && c.jobs[job].group == Some(g)
    requires var jobs := Members(Reported(c.jobs, job, x, hash, secs), g);
      |jobs| <= 2 && (|jobs| == 2 ==> j in jobs && (j.status == JQueued || j.status == JStarting || j.status == JRunning))
    ensures OnJobResult(c, job, x, hash, secs).ledger == c.ledger
  {
  }

  /** Three jobs that have ended, in any order; all but the one at `k` belong to disputed reservations. */
  predicate Tiebreak(b: B.Ledger, jobs: seq<Job>, k: nat) {
    && |jobs| == 3 && k < 3 && (forall i | 0 <= i < 3 :: TerminalJob(jobs[i].status))
    && forall i | 0 <= i < 3 :: IsDisputed(b, jobs[i]) <==> i != k
  }

  /** The tiebreaker's own reservation is settled as its word says, whatever verdict it leads to. */
  lemma TiebreakerIsSettled(c: Court, job: nat, x: ExecStatus, hash: Hash, secs: int, g: Group, k: nat, xt: ExecStatus)
    requires B.BooksOk(c.ledger) && job < |c.jobs| && c.jobs[job].group == Some(g)
    requires var jobs := Members(Reported(c.jobs, job, x, hash, secs), g);
      Tiebreak(c.ledger, jobs, k) && IsRunning(c.ledger, jobs[k].rid) && jobs[k].status == MapJobStatus(xt)
    ensures var t := Members(Reported(c.jobs, job, x, hash, secs), g)[k];
      SettledBy(c.ledger, OnJobResult(c, job, x, hash, secs).ledger, t.rid, xt, t.computeSeconds)
  {
    VocabulariesAgree(xt);
    var c1 := c.(jobs := Reported(c.jobs, job, x, hash, secs));
    var jobs := Members(c1.jobs, g);
    var t := jobs[k];
    assert OnJobResult(c, job, x, hash, secs) == ResolveDisputeTiebreaker(c1, g);
    OneUndisputed(c.ledger, jobs, k);
    WordSettles(c.ledger, t.rid, xt, t.computeSeconds);
    var settled := B.SettleStep(c.ledger, t.rid, JobStatusToSettlement(xt), t.computeSeconds).0;
    var original := DisputedOnes(c.ledger, jobs);
    var d := Resolve(c1.(ledger := settled), g, original[0], original[1], t).ledger;
    assert d.rows == settled.rows && d.txns == settled.txns;
  }

  lemma OneUndisputed(b: B.Ledger, jobs: seq<Job>, k: nat)
    requires Tiebreak(b, jobs, k)
    ensures |DisputedOnes(b, jobs)| == 2 && FirstUndisputed(b, jobs) == Some(jobs[k])
  {
    var x, y, z := jobs[0], jobs[1], jobs[2];
    assert jobs[1..] == [y, z] && [y, z][1..] == [z] && [z][1..] == [];
    assert DisputedOnes(b, [z]) == (if k == 2 then [] else [z]) + [];
    assert DisputedOnes(b, [y, z]) == (if k == 1 then [] else [y]) + DisputedOnes(b, [z]);
    assert DisputedOnes(b, jobs) == (if k == 0 then [] else [x]) + DisputedOnes(b, [y, z]);
    assert FirstUndisputed(b, [z]) == if k == 2 then Some(z) else None;
    assert k > 0 ==> FirstUndisputed(b, [y, z]) == Some(jobs[k]);
  }

  // ---------------------------------------------------------------------------------------
  // A dispute's refund is final.
  // ---------------------------------------------------------------------------------------

  predicate Frozen(b: B.Ledger, c: B.Ledger, rid: nat) {
    rid < |b.rows| <= |c.rows| && c.rows[rid] == b.rows[rid]
  }

  lemma {:induction false} SettleAllFrozen(b: B.Ledger, jobs: seq<Job>, disputed: bool, rid: nat)
    requires rid < |b.rows| && Terminal(b.rows[rid].status)
    ensures Frozen(b, SettleAll(b, jobs, disputed), rid)
  {
    if jobs != [] {
      SettleAllFrozen(b, jobs[..|jobs| - 1], disputed, rid);
    }
  }

  lemma StepFrozen(b: B.Ledger, r0: nat, o: RStatus, s: int, rid: nat)
    requires rid < |b.rows| && Terminal(b.rows[rid].status)
    ensures Frozen(b, B.SettleStep(b, r0, o, s).0, rid)
  {
    B.SettleEffect(b, r0, o, s);
  }

  lemma TiebreakFrozen(c: Court, g: Group, rid: nat)
    requires rid < |c.ledger.rows| && Terminal(c.ledger.rows[rid].status)
    ensures Frozen(c.ledger, ResolveDisputeTiebreaker(c, g).ledger, rid)
  {
    var tiebreaker := FirstUndisputed(c.ledger, Members(c.jobs, g));
    if tiebreaker.Some? {
      var t := tiebreaker.value;
      StepFrozen(c.ledger, t.rid, JobRowStatusToOutcome(t.status), t.computeSeconds, rid);
    }
  }

  lemma PairFrozen(c: Court, g: Group, rid: nat)
    requires rid < |c.ledger.rows| && Terminal(c.ledger.rows[rid].status)
    ensures Frozen(c.ledger, SettleVerificationGroup(c, g).ledger, rid)
  {
    var jobs := Members(c.jobs, g);
    if GroupIsComplete(jobs) {
      SettleAllFrozen(c.ledger, jobs, !Matches(jobs[0], jobs[1]), rid);
    }
  }

  lemma ResultFrozen(c: Court, ev: Event, rid: nat)
    requires ev.JobResult? && rid < |c.ledger.rows| && Terminal(c.ledger.rows[rid].status)
    ensures Frozen(c.ledger, Apply(c, ev).ledger, rid)
  {
    if ev.job < |c.jobs| {
      var j := c.jobs[ev.job].(status := MapJobStatus(ev.x), hash := Some(ev.hash), computeSeconds := ev.secs);
      var c1 := c.(jobs := c.jobs[ev.job := j]);
      if j.group.Some? {
        TiebreakFrozen(c1, j.group.value, rid);
        PairFrozen(c1, j.group.value, rid);
      } else {
        StepFrozen(c.ledger, j.rid, JobStatusToSettlement(ev.x), ev.secs, rid);
      }
    }
  }

  /** Every event is a delivery or a submission: the ledger moves only through job results. */
  predicate OnlyJobs(evs: seq<Event>) {
    forall ev | ev in evs :: !ev.LedgerMoves?
  }

  /** No sequence of results and submissions, tiebreak included, moves a settled reservation again. */
  lemma {:induction false} SettledRowsAreFinal(c: Court, evs: seq<Event>, rid: nat)
    requires OnlyJobs(evs) && rid < |c.ledger.rows| && Terminal(c.ledger.rows[rid].status)
    ensures Frozen(c.ledger, Run(c, evs).ledger, rid)
    decreases evs
  {
    if evs != [] {
      assert evs[0] in evs;
      if evs[0].JobResult? { ResultFrozen(c, evs[0], rid); }
      assert OnlyJobs(evs[1..]);
      SettledRowsAreFinal(Apply(c, evs[0]), evs[1..], rid);
    }
  }
}

module VerificationImpl {
  import opened Options
  import opened Machine
  import opened Verification
  import B = Books
  import opened LedgerDbImpl

  /** The job table and dispute records, beside the ledger that settlement updates. */
  class DisputeDesk {
    const db: LedgerDb
    var jobs: seq<Job>
    var resolutions: map<Group, Resolution>

    ghost function State(): Court
      reads this, db
    {
      Court(db.Contents(), jobs, resolutions)
    }

    constructor (db: LedgerDb)
      ensures this.db == db && State() == Court(db.Contents(), [], map[])
    {
      this.db := db;
      jobs, resolutions := [], map[];
    }

    /** The loop of `settleVerificationGroup` over the jobs of the group. */
    method SettleVerificationGroup(g: Group)
      modifies db
      ensures State() == Verification.SettleVerificationGroup(old(State()), g)
    {
      var group := Members(jobs, g);
      if !GroupIsComplete(group) {
        return;
      }
      var disputed := !Matches(group[0], group[1]);
      for i := 0 to |group|
        invariant db.Contents() == SettleAll(old(db.Contents()), group[..i], disputed)
      {
        var job := group[i];
        var outcome := if disputed then Disputed else JobRowStatusToOutcome(job.status);
        var _ := db.SettleReservation(job.rid, outcome, job.computeSeconds);
        assert group[..i + 1][..i] == group[..i];
      }
      assert group[..|group|] == group;
    }

    method ResolveDisputeTiebreaker(g: Group)
      modifies this`resolutions, db
      ensures State() == Verification.ResolveDisputeTiebreaker(old(State()), g)
    {
      var group := Members(jobs, g);
      if !GroupIsComplete(group) {
        return;
      }
      var ledger := B.Ledger(db.rows, db.txns, db.reps);
      var original, tiebreaker := DisputedOnes(ledger, group), FirstUndisputed(ledger, group);
      if |original| != 2 || tiebreaker.None? {
        return;
      }
      var t := tiebreaker.value;
      var _ := db.SettleReservation(t.rid, JobRowStatusToOutcome(t.status), t.computeSeconds);
      if g in resolutions {
        return;
      }
      var verdict := AttributeFault(original[0], original[1], t);
      match verdict
      case Inconclusive =>
        resolutions := resolutions[g := Resolution(t.rid, None, None)];
      case Attributed(vindicated, atFault) =>
        if atFault.rid < |db.rows| {
          db.BumpReputation(db.rows[atFault.rid].provider, Some(B.Failure));
        }
        resolutions := resolutions[g := Resolution(t.rid, Some(atFault.rid), Some(vindicated.rid))];
    }

    method OnJobResult(job: nat, x: ExecStatus, hash: Hash, secs: int)
      modifies this, db
      ensures State() == Verification.OnJobResult(old(State()), job, x, hash, secs)
    {
      if job >= |jobs| {
        return;
      }
      jobs := jobs[job := jobs[job].(status := MapJobStatus(x), hash := Some(hash), computeSeconds := secs)];
      var j := jobs[job];
      if j.group.None? {
        var _ := db.SettleReservation(j.rid, JobStatusToSettlement(x), secs);
        return;
      }
      if |Members(jobs, j.group.value)| >= 3 {
        ResolveDisputeTiebreaker(j.group.value);
      } else {
        SettleVerificationGroup(j.group.value);
      }
    }
  }
}
