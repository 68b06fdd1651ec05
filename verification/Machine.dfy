/** The platform's reservation lifecycle (backend/src/reservations/machine.js). */
module Machine {
  import opened Options

  datatype RStatus =
    | Pending | Held | Confirmed | Running
    | Completed | Cancelled | Expired | FailedProvider | FailedUser | Disputed

  datatype Rule = SettleFull | SettleMetered | RefundFull | RefundPerPolicy

  function Edges(s: RStatus): set<RStatus> {
    match s
    case Pending => {Held, Expired, Cancelled}
    case Held => {Confirmed, Expired, Cancelled}
    case Confirmed => {Running, Cancelled, FailedProvider}
    case Running => {Completed, FailedProvider, FailedUser, Disputed}
    case _ => {}
  }

  predicate CanTransition(from: RStatus, to: RStatus) {
    to in Edges(from)
  }

  predicate Terminal(s: RStatus) {
    Edges(s) == {}
  }

  function Settlement(s: RStatus): Option<Rule> {
    match s
    case Completed => Some(SettleFull)
    case FailedUser => Some(SettleMetered)
    case FailedProvider => Some(RefundFull)
    case Expired => Some(RefundFull)
    case Cancelled => Some(RefundPerPolicy)
    case Disputed => Some(RefundFull)
    case _ => None
  }

  /** The outcomes a finished job can settle as. */
  predicate JobOutcome(s: RStatus) {
    s == Completed || s == FailedProvider || s == FailedUser || s == Disputed
  }

  /** Statuses in which the user's money has been captured. */
  predicate CapturedStatus(s: RStatus) {
    s == Confirmed || s == Running || JobOutcome(s)
  }

  /** The statuses guarded by the exclusion constraint on (node, slot). */
  predicate Excluded(s: RStatus) {
    s == Held || s == Confirmed || s == Running || s == Completed
  }

  /**
   The platform holds or has kept the time: it is on hold, or its money is captured and either not
   settled yet or settled in full. A row whose money went back, in whole or in part, is not.
   */
  predicate InUse(s: RStatus) {
    s == Held || (CapturedStatus(s) && (Settlement(s).None? || Settlement(s) == Some(SettleFull)))
  }

  /** The exclusion constraint guards exactly those rows. */
  lemma ExcludedExactly(s: RStatus)
    ensures Excluded(s) <==> InUse(s)
  {
  }

  /** Following the edge list any number of times. */
  predicate Path(ss: seq<RStatus>) {
    forall k | 0 <= k < |ss| - 1 :: CanTransition(ss[k], ss[k + 1])
  }

  /**
   Who pays is decided for exactly the terminal states: in full for 'completed' only, metered for a
   user's failure only, by policy for a cancellation only, and otherwise all goes back. The
   lifecycle reaches a state where money has been captured only through 'confirmed', which it
   enters only from 'held'.
   */
  lemma {:induction false} MoneyOnlyThroughConfirmed(ss: seq<RStatus>)
    requires |ss| > 0 && Path(ss) && ss[0] == Pending
    ensures forall s :: Terminal(s) <==> Settlement(s).Some?
    ensures forall s :: Settlement(s) == Some(SettleFull) <==> s == Completed
    ensures forall s :: Settlement(s) == Some(SettleMetered) <==> s == FailedUser
    ensures forall s :: Settlement(s) == Some(RefundPerPolicy) <==> s == Cancelled
    ensures CapturedStatus(ss[|ss| - 1]) ==>
      exists k :: 1 <= k < |ss| && ss[k] == Confirmed && ss[k - 1] == Held
  {
    forall s ensures Terminal(s) <==> Settlement(s).Some? {
      match s
      case Pending => assert Held in Edges(s);
      case Held => assert Confirmed in Edges(s);
      case Confirmed => assert Running in Edges(s);
      case Running => assert Completed in Edges(s);
      case _ =>
    }
    var n := |ss| - 1;
    if n > 0 && CapturedStatus(ss[n]) {
      assert CanTransition(ss[n - 1], ss[n]);
      if ss[n] != Confirmed {
        var init := ss[..n];
        MoneyOnlyThroughConfirmed(init);
        var k :| 1 <= k < n && init[k] == Confirmed && init[k - 1] == Held;
        assert ss[k] == Confirmed && ss[k - 1] == Held;
      }
    }
  }
}
