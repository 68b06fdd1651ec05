/**
 Which disputes a tiebreak can decide. `onJobResult` overwrites the hash of a job whenever a
 result arrives, also after the dispute (backend/src/api/server.js), so that a mismatch need not
 stand until the tiebreaker reports. This module proves when it does, and what is recorded then.
 */
module Disputes {
  import opened Options
  import opened Machine
  import opened Verification
  import B = Books

  /**
   What holds of the jobs table: jobs name different reservations that exist, a finished job has a
   hash, and a job whose reservation is disputed has finished.
   */
  predicate JobOk(c: Court, j: Job) {
    && j.rid < |c.ledger.rows|
    && (TerminalJob(j.status) ==> j.hash.Some?)
    && (IsDisputed(c.ledger, j) ==> TerminalJob(j.status))
  }

  predicate TableOk(c: Court) {
    && (forall j | j in c.jobs :: JobOk(c, j))
    && (forall i, k | 0 <= i < k < |c.jobs| :: c.jobs[i].rid != c.jobs[k].rid)
  }

  /** Two jobs of one group whose reservations are both disputed. */
  predicate Opponents(c: Court, i: nat, k: nat) {
    && i < |c.jobs| && k < |c.jobs| && i != k
    && c.jobs[i].group.Some? && c.jobs[i].group == c.jobs[k].group
    && IsDisputed(c.ledger, c.jobs[i]) && IsDisputed(c.ledger, c.jobs[k])
  }

  /** Every mismatch that led to a dispute still stands. */
  ghost predicate MismatchesStand(c: Court) {
    forall i: nat, k: nat | Opponents(c, i, k) :: !Matches(c.jobs[i], c.jobs[k])
  }

  /**
   What the endpoints check and the rest of the system keeps: a job is submitted for a reservation
   that is confirmed, or running by the end of the submission, and has no job yet; the ledger moves
   in order, and settles nothing as disputed by itself.
   */
  predicate Proper(c: Court, ev: Event) {
    match ev
    case AddJob(rid, _) =>
      rid < |c.ledger.rows| ==> B.Open(c.ledger.rows[rid].status) && forall j | j in c.jobs :: j.rid != rid
    case LedgerMoves(e) => B.Orderly(c.ledger, e) && (e.DoSettle? ==> e.outcome != Disputed)
    case _ => true
  }

  /** A result that gives a disputed job the hash of the one it was disputed with. */
  predicate Reconciles(c: Court, ev: Event) {
    ev.JobResult? && exists k | 0 <= k < |c.jobs| :: Opponents(c, ev.job, k) && c.jobs[k].hash == Some(ev.hash)
  }

  // ---------------------------------------------------------------------------------------
  // Groups.
  // ---------------------------------------------------------------------------------------

  lemma {:induction false} MembersCount(jobs: seq<Job>, g: Group, i: nat, k: nat)
    requires i < k < |jobs| && jobs[i].group == Some(g) && jobs[k].group == Some(g)
    ensures |Members(jobs, g)| >= 2
    ensures |Members(jobs, g)| == 2 ==> Members(jobs, g) == [jobs[i], jobs[k]]
  {
    var n := |jobs| - 1;
    if k < n {
      MembersCount(jobs[..n], g, i, k);
    } else {
      OneMember(jobs[..n], g, i);
    }
  }

  lemma {:induction false} OneMember(jobs: seq<Job>, g: Group, i: nat)
    requires i < |jobs| && jobs[i].group == Some(g)
    ensures |Members(jobs, g)| >= 1
    ensures |Members(jobs, g)| == 1 ==> Members(jobs, g) == [jobs[i]]
  {
    var n := |jobs| - 1;
    if i < n {
      OneMember(jobs[..n], g, i);
    }
  }

  /** Members at different places of a group are at different places of the table. */
  lemma {:induction false} MembersApart(jobs: seq<Job>, g: Group, a: nat, b: nat) returns (i: nat, k: nat)
    requires a < b < |Members(jobs, g)|
    ensures i < k < |jobs| && jobs[i] == Members(jobs, g)[a] && jobs[k] == Members(jobs, g)[b]
    ensures jobs[i].group == Some(g) && jobs[k].group == Some(g)
  {
    var n := |jobs| - 1;
    if b < |Members(jobs[..n], g)| {
      i, k := MembersApart(jobs[..n], g, a, b);
    } else {
      k := n;
      var m := Members(jobs[..n], g)[a];
      assert m in Members(jobs[..n], g);
      MembersOf(jobs[..n], g, m);
      i :| 0 <= i < n && jobs[..n][i] == m;
    }
  }

  lemma {:induction false} DisputedApart(b: B.Ledger, jobs: seq<Job>) returns (i: nat, k: nat)
    requires |DisputedOnes(b, jobs)| == 2
    ensures i < k < |jobs| && [jobs[i], jobs[k]] == DisputedOnes(b, jobs)
    ensures IsDisputed(b, jobs[i]) && IsDisputed(b, jobs[k])
  {
    if IsDisputed(b, jobs[0]) {
      var y := DisputedOnes(b, jobs[1..])[0];
      assert y in DisputedOnes(b, jobs[1..]);
      DisputedOf(b, jobs[1..], y);
      var m :| 0 <= m < |jobs[1..]| && jobs[1..][m] == y;
      i, k := 0, m + 1;
    } else {
      var i', k' := DisputedApart(b, jobs[1..]);
      i, k := i' + 1, k' + 1;
    }
  }

  // ---------------------------------------------------------------------------------------
  // Which rows a settlement disputes.
  // ---------------------------------------------------------------------------------------

  predicate DisputedRow(b: B.Ledger, rid: nat) {
    rid < |b.rows| && b.rows[rid].status == Disputed
  }

  lemma SettleDisputes(b: B.Ledger, r: nat, o: RStatus, s: int, rid: nat)
    ensures var d := B.SettleStep(b, r, o, s).0;
      && |d.rows| == |b.rows|
      && (DisputedRow(b, rid) ==> DisputedRow(d, rid))
      && (DisputedRow(d, rid) ==> DisputedRow(b, rid) || (rid == r && o == Disputed))
  {
    B.SettleEffect(b, r, o, s);
  }

  lemma {:induction false} SettleAllDisputes(b: B.Ledger, jobs: seq<Job>, disputed: bool, rid: nat)
    ensures var d := SettleAll(b, jobs, disputed);
      && |d.rows| == |b.rows|
      && (DisputedRow(b, rid) ==> DisputedRow(d, rid))
      && (DisputedRow(d, rid) ==> DisputedRow(b, rid) || (disputed && exists j | j in jobs :: j.rid == rid))
    decreases jobs
  {
    if jobs != [] {
      var n := |jobs| - 1;
      SettleAllDisputes(b, jobs[..n], disputed, rid);
      SettleDisputes(SettleAll(b, jobs[..n], disputed), jobs[n].rid, OutcomeOf(jobs[n], disputed), jobs[n].computeSeconds, rid);
      assert jobs == jobs[..n] + [jobs[n]];
    }
  }

  lemma LedgerDisputes(b: B.Ledger, e: B.Event, rid: nat)
    requires B.Orderly(b, e) && (e.DoSettle? ==> e.outcome != Disputed)
    ensures |b.rows| <= |B.Apply(b, e).rows|
    ensures DisputedRow(B.Apply(b, e), rid) ==> DisputedRow(b, rid)
  {
    if e.DoSettle? { SettleDisputes(b, e.rid, e.outcome, e.computeSeconds, rid); }
  }

  // ---------------------------------------------------------------------------------------
  // One result.
  // ---------------------------------------------------------------------------------------

  /** The table once the result is stored, before anything is settled. */
  function Stored(c: Court, ev: Event): Court
    requires ev.JobResult? && ev.job < |c.jobs|
  {
    c.(jobs := c.jobs[ev.job := c.jobs[ev.job].(status := MapJobStatus(ev.x), hash := Some(ev.hash), computeSeconds := ev.secs)])
  }

  lemma StoringKeepsTable(c: Court, ev: Event)
    requires TableOk(c) && ev.JobResult? && ev.job < |c.jobs|
    ensures TableOk(Stored(c, ev))
  {
    var d := Stored(c, ev);
    VocabulariesAgree(ev.x);
    forall i | 0 <= i < |d.jobs| ensures JobOk(d, d.jobs[i]) {
      assert c.jobs[i] in c.jobs && JobOk(c, c.jobs[i]);
    }
  }

  /** Storing a result leaves every mismatch standing unless it reconciles two opponents. */
  lemma StoringStands(c: Court, ev: Event)
    requires TableOk(c) && MismatchesStand(c) && ev.JobResult? && ev.job < |c.jobs|
    ensures MismatchesStand(Stored(c, ev)) <==> !Reconciles(c, ev)
  {
    var d := Stored(c, ev);
    forall i: nat, k: nat ensures Opponents(d, i, k) <==> Opponents(c, i, k) {
    }
    if Reconciles(c, ev) {
      var k :| 0 <= k < |c.jobs| && Opponents(c, ev.job, k) && c.jobs[k].hash == Some(ev.hash);
      assert Opponents(d, ev.job, k) && Matches(d.jobs[ev.job], d.jobs[k]);
    } else {
      forall i: nat, k: nat | Opponents(d, i, k) ensures !Matches(d.jobs[i], d.jobs[k]) {
        StandsUnlessReconciled(c, ev, i, k);
      }
    }
  }

  lemma StandsUnlessReconciled(c: Court, ev: Event, i: nat, k: nat)
    requires MismatchesStand(c) && ev.JobResult? && ev.job < |c.jobs| && !Reconciles(c, ev) && Opponents(c, i, k)
    ensures !Matches(Stored(c, ev).jobs[i], Stored(c, ev).jobs[k])
  {
    assert Opponents(c, k, i);
    if ev.job == i {
      assert c.jobs[k].hash != Some(ev.hash);
    } else if ev.job == k {
      assert c.jobs[i].hash != Some(ev.hash);
    }
  }

  /** Settling by an outcome other than disputed changes no opponents. */
  lemma SameDisputesStand(c: Court, d: Court)
    requires TableOk(c) && d.jobs == c.jobs && |c.ledger.rows| <= |d.ledger.rows|
    requires forall rid: nat | rid < |c.ledger.rows| :: DisputedRow(d.ledger, rid) <==> DisputedRow(c.ledger, rid)
    ensures TableOk(d) && (MismatchesStand(d) <==> MismatchesStand(c))
  {
    forall j | j in d.jobs ensures JobOk(d, j) && (IsDisputed(d.ledger, j) <==> IsDisputed(c.ledger, j)) {
      assert JobOk(c, j);
      assert DisputedRow(d.ledger, j.rid) <==> DisputedRow(c.ledger, j.rid);
    }
    forall i: nat, k: nat ensures Opponents(d, i, k) <==> Opponents(c, i, k) {
      if i < |c.jobs| && k < |c.jobs| {
        assert c.jobs[i] in d.jobs && c.jobs[k] in d.jobs;
      }
    }
  }

  /** Disputing a pair that mismatches adds a mismatch that stands. */
  lemma PairDisputeStands(c: Court, g: Group)
    requires TableOk(c) && |Members(c.jobs, g)| == 2 && GroupIsComplete(Members(c.jobs, g))
    requires !Matches(Members(c.jobs, g)[0], Members(c.jobs, g)[1])
    ensures var d := SettleVerificationGroup(c, g); TableOk(d) && (MismatchesStand(c) ==> MismatchesStand(d))
  {
    var jobs := Members(c.jobs, g);
    var d := SettleVerificationGroup(c, g);
    SettleAllDisputes(c.ledger, jobs, true, 0);
    forall i | 0 <= i < |d.jobs| ensures JobOk(d, d.jobs[i]) {
      NewlyDisputed(c, g, i);
    }
    forall i: nat, k: nat | Opponents(d, i, k) && MismatchesStand(c) ensures !Matches(d.jobs[i], d.jobs[k]) {
      NewlyDisputed(c, g, i);
      NewlyDisputed(c, g, k);
      if Opponents(c, i, k) {
      } else if i < k {
        MembersCount(c.jobs, g, i, k);
      } else {
        MembersCount(c.jobs, g, k, i);
      }
    }
  }

  /** Only members of the group are disputed, and they have finished. */
  lemma NewlyDisputed(c: Court, g: Group, i: nat)
    requires TableOk(c) && GroupIsComplete(Members(c.jobs, g)) && i < |c.jobs|
    requires !Matches(Members(c.jobs, g)[0], Members(c.jobs, g)[1])
    ensures JobOk(SettleVerificationGroup(c, g), c.jobs[i])
    ensures IsDisputed(SettleVerificationGroup(c, g).ledger, c.jobs[i]) ==> IsDisputed(c.ledger, c.jobs[i]) || c.jobs[i].group == Some(g)
  {
    var jobs := Members(c.jobs, g);
    SettleAllDisputes(c.ledger, jobs, true, c.jobs[i].rid);
    assert c.jobs[i] in c.jobs && JobOk(c, c.jobs[i]);
    if j :| j in jobs && j.rid == c.jobs[i].rid {
      MembersOf(c.jobs, g, j);
      var k :| 0 <= k < |c.jobs| && c.jobs[k] == j;
      assert k == i;
    }
  }

  lemma TiebreakStands(c: Court, g: Group)
    requires TableOk(c)
    ensures var d := ResolveDisputeTiebreaker(c, g); TableOk(d) && (MismatchesStand(d) <==> MismatchesStand(c))
  {
    var d := ResolveDisputeTiebreaker(c, g);
    var tiebreaker := FirstUndisputed(c.ledger, Members(c.jobs, g));
    if tiebreaker.Some? {
      var t := tiebreaker.value;
      var o := JobRowStatusToOutcome(t.status);
      SettleDisputes(c.ledger, t.rid, o, t.computeSeconds, 0);
      forall rid: nat | rid < |c.ledger.rows| ensures DisputedRow(d.ledger, rid) <==> DisputedRow(c.ledger, rid) {
        SettleDisputes(c.ledger, t.rid, o, t.computeSeconds, rid);
      }
    }
    SameDisputesStand(c, d);
  }

  lemma PairStands(c: Court, g: Group)
    requires TableOk(c) && |Members(c.jobs, g)| < 3
    ensures var d := SettleVerificationGroup(c, g); TableOk(d) && (MismatchesStand(d) <==> MismatchesStand(c))
  {
    var jobs := Members(c.jobs, g);
    var d := SettleVerificationGroup(c, g);
    if GroupIsComplete(jobs) && !Matches(jobs[0], jobs[1]) {
      PairDisputeStands(c, g);
      DisputesOnlyGrow(c, d, jobs);
    } else {
      if GroupIsComplete(jobs) {
        forall rid: nat | rid < |c.ledger.rows| ensures DisputedRow(d.ledger, rid) <==> DisputedRow(c.ledger, rid) {
          SettleAllDisputes(c.ledger, jobs, false, rid);
        }
        SettleAllDisputes(c.ledger, jobs, false, 0);
      }
      SameDisputesStand(c, d);
    }
  }

  /** Opponents stay opponents while the group is settled. */
  lemma DisputesOnlyGrow(c: Court, d: Court, jobs: seq<Job>)
    requires d.jobs == c.jobs && d.ledger == SettleAll(c.ledger, jobs, true)
    ensures MismatchesStand(d) ==> MismatchesStand(c)
  {
    forall i: nat, k: nat | Opponents(c, i, k) ensures Opponents(d, i, k) {
      SettleAllDisputes(c.ledger, jobs, true, c.jobs[i].rid);
      SettleAllDisputes(c.ledger, jobs, true, c.jobs[k].rid);
    }
  }

  lemma SoloStands(c: Court, rid: nat, x: ExecStatus, s: int)
    requires TableOk(c)
    ensures var d := c.(ledger := B.SettleStep(c.ledger, rid, JobStatusToSettlement(x), s).0);
      TableOk(d) && (MismatchesStand(d) <==> MismatchesStand(c))
  {
    var o := JobStatusToSettlement(x);
    var d := c.(ledger := B.SettleStep(c.ledger, rid, o, s).0);
    SettleDisputes(c.ledger, rid, o, s, 0);
    forall r: nat | r < |c.ledger.rows| ensures DisputedRow(d.ledger, r) <==> DisputedRow(c.ledger, r) {
      SettleDisputes(c.ledger, rid, o, s, r);
    }
    SameDisputesStand(c, d);
  }

  lemma ResultStands(c: Court, ev: Event)
    requires TableOk(c) && MismatchesStand(c) && ev.JobResult?
    ensures TableOk(Apply(c, ev)) && (MismatchesStand(Apply(c, ev)) <==> !Reconciles(c, ev))
  {
    if ev.job < |c.jobs| {
      var c1 := Stored(c, ev);
      StoringKeepsTable(c, ev);
      StoringStands(c, ev);
      match c1.jobs[ev.job].group
      case None => SoloStands(c1, c1.jobs[ev.job].rid, ev.x, ev.secs);
      case Some(g) =>
        if |Members(c1.jobs, g)| >= 3 { TiebreakStands(c1, g); } else { PairStands(c1, g); }
    }
  }

  lemma SubmissionStands(c: Court, ev: Event)
    requires TableOk(c) && MismatchesStand(c) && Proper(c, ev) && ev.AddJob?
    ensures TableOk(Apply(c, ev)) && MismatchesStand(Apply(c, ev))
  {
    var d := Apply(c, ev);
    if ev.rid < |c.ledger.rows| {
      forall i | 0 <= i < |d.jobs| ensures JobOk(d, d.jobs[i]) && (i < |c.jobs| ==> d.jobs[i].rid != ev.rid) {
        assert i < |c.jobs| ==> c.jobs[i] in c.jobs && JobOk(c, c.jobs[i]);
      }
      assert forall i: nat, k: nat | Opponents(d, i, k) :: Opponents(c, i, k);
    }
  }

  lemma LedgerStands(c: Court, ev: Event)
    requires TableOk(c) && MismatchesStand(c) && Proper(c, ev) && ev.LedgerMoves?
    ensures TableOk(Apply(c, ev)) && MismatchesStand(Apply(c, ev))
  {
    var d := Apply(c, ev);
    forall j | j in d.jobs ensures JobOk(d, j) && (IsDisputed(d.ledger, j) ==> IsDisputed(c.ledger, j)) {
      assert JobOk(c, j);
      LedgerDisputes(c.ledger, ev.ev, j.rid);
    }
    forall i: nat, k: nat | Opponents(d, i, k) ensures Opponents(c, i, k) {
      assert d.jobs[i] in d.jobs && d.jobs[k] in d.jobs;
    }
  }

  lemma UnpairingStands(c: Court, ev: Event)
    requires TableOk(c) && MismatchesStand(c) && ev.Unpair?
    ensures TableOk(Apply(c, ev)) && MismatchesStand(Apply(c, ev))
  {
    var d := Apply(c, ev);
    if ev.job < |c.jobs| {
      forall i | 0 <= i < |d.jobs| ensures JobOk(d, d.jobs[i]) {
        assert c.jobs[i] in c.jobs && JobOk(c, c.jobs[i]);
      }
      assert forall i: nat, k: nat | Opponents(d, i, k) :: Opponents(c, i, k);
    }
  }

  /**
   Exactly when every disputed mismatch stands: a step keeps it so if and only if it is not a result
   that gives a disputed job the hash of its opponent. A redelivery that repeats its content never is.
   */
  lemma StandsExactly(c: Court, ev: Event)
    requires TableOk(c) && MismatchesStand(c) && Proper(c, ev)
    ensures TableOk(Apply(c, ev)) && (MismatchesStand(Apply(c, ev)) <==> !Reconciles(c, ev))
  {
    match ev
    case JobResult(_, _, _, _) => ResultStands(c, ev);
    case AddJob(_, _) => SubmissionStands(c, ev);
    case Unpair(_) => UnpairingStands(c, ev);
    case LedgerMoves(_) => LedgerStands(c, ev);
  }

  lemma RepeatNeverReconciles(c: Court, ev: Event)
    requires MismatchesStand(c) && ev.JobResult? && ev.job < |c.jobs| && c.jobs[ev.job].hash == Some(ev.hash)
    ensures !Reconciles(c, ev)
  {
    forall k: nat | Opponents(c, ev.job, k) ensures c.jobs[k].hash != Some(ev.hash) {
      assert !Matches(c.jobs[ev.job], c.jobs[k]);
    }
  }

  predicate ProperRun(c: Court, evs: seq<Event>)
    decreases evs
  {
    evs != [] ==> Proper(c, evs[0]) && ProperRun(Apply(c, evs[0]), evs[1..])
  }

  predicate NothingReconciled(c: Court, evs: seq<Event>)
    decreases evs
  {
    evs != [] ==> !Reconciles(c, evs[0]) && NothingReconciled(Apply(c, evs[0]), evs[1..])
  }

  lemma {:induction false} RunStands(c: Court, evs: seq<Event>)
    requires TableOk(c) && MismatchesStand(c) && ProperRun(c, evs) && NothingReconciled(c, evs)
    ensures TableOk(Run(c, evs)) && MismatchesStand(Run(c, evs))
    decreases evs
  {
    if evs != [] {
      StandsExactly(c, evs[0]);
      RunStands(Apply(c, evs[0]), evs[1..]);
    }
  }

  // ---------------------------------------------------------------------------------------
  // What is recorded.
  // ---------------------------------------------------------------------------------------

  /** The verdict of `t` on two jobs that differ: it sides with the one it agrees with, if any. */
  predicate IsMajority(r: Resolution, a: Job, b: Job, t: Job) {
    && !Matches(a, b) && !(Matches(a, t) && Matches(b, t))
    && r == if Matches(a, t) then Resolution(t.rid, Some(b.rid), Some(a.rid))
            else if Matches(b, t) then Resolution(t.rid, Some(a.rid), Some(b.rid))
            else Resolution(t.rid, None, None)
  }

  predicate Among(jobs: seq<Job>, g: Group, a: Job, b: Job, t: Job) {
    && a in jobs && b in jobs && t in jobs && a.rid != b.rid
    && a.group == Some(g) && b.group == Some(g) && t.group == Some(g)
  }

  lemma {:induction false} FirstUndisputedIn(b: B.Ledger, jobs: seq<Job>)
    ensures FirstUndisputed(b, jobs).Some? ==>
      FirstUndisputed(b, jobs).value in jobs && !IsDisputed(b, FirstUndisputed(b, jobs).value)
  {
    if jobs != [] {
      FirstUndisputedIn(b, jobs[1..]);
    }
  }

  lemma TiebreakRecordsMajority(c: Court, g: Group)
    requires TableOk(c) && MismatchesStand(c) && g !in c.resolutions && g in ResolveDisputeTiebreaker(c, g).resolutions
    ensures exists a, b, t :: Among(c.jobs, g, a, b, t) && IsMajority(ResolveDisputeTiebreaker(c, g).resolutions[g], a, b, t)
  {
    var jobs := Members(c.jobs, g);
    var original := DisputedOnes(c.ledger, jobs);
    var t := FirstUndisputed(c.ledger, jobs).value;
    FirstUndisputedIn(c.ledger, jobs);
    MembersOf(c.jobs, g, t);
    var x, y := DisputedApart(c.ledger, jobs);
    var i, k := MembersApart(c.jobs, g, x, y);
    var a, b := original[0], original[1];
    assert a == c.jobs[i] && b == c.jobs[k];
    assert Opponents(c, i, k);
    TiebreakIsMajority(a, b, t);
    assert Among(c.jobs, g, a, b, t) && IsMajority(ResolveDisputeTiebreaker(c, g).resolutions[g], a, b, t);
  }

  lemma OthersUnresolved(c: Court, ev: Event, g: Group)
    requires g !in c.resolutions && g in Apply(c, ev).resolutions
    ensures ev.JobResult? && ev.job < |c.jobs| && c.jobs[ev.job].group == Some(g)
    ensures Apply(c, ev) == ResolveDisputeTiebreaker(Stored(c, ev), g)
  {
  }

  /**
   In every proper run whose results reconcile no opponents, a resolution is recorded on a mismatch
   that stands: the tiebreaker does not agree with both sides, and fault is attributed to the side
   it disagrees with, or to nobody if it disagrees with both.
   */
  lemma RecordedVerdictIsMajority(start: Court, evs: seq<Event>, ev: Event, g: Group)
    requires start.jobs == [] && ProperRun(start, evs) && NothingReconciled(start, evs)
    requires var c := Run(start, evs);
      !Reconciles(c, ev) && g !in c.resolutions && g in Apply(c, ev).resolutions
    ensures var d := Apply(Run(start, evs), ev);
      exists a, b, t :: Among(d.jobs, g, a, b, t) && IsMajority(d.resolutions[g], a, b, t)
  {
    RunStands(start, evs);
    var c := Run(start, evs);
    OthersUnresolved(c, ev, g);
    StoringKeepsTable(c, ev);
    StoringStands(c, ev);
    TiebreakRecordsMajority(Stored(c, ev), g);
  }
}
