/** What search offers, against the rows that the reservation protocol keeps. */
module Storefront {
  import opened Options
  import opened Machine
  import opened Availability
  import C = Catalogue
  import P = Protocol
  import S = ProtocolSafety
  import L = NodeLedger

  function SlotOf(n: C.NodeId, r: P.Row): C.Booking {
    C.Booking(n, r.status, Interval(r.startsAt, r.endsAt))
  }

  /** The booking rows that search reads for the node are the platform's rows of the protocol. */
  predicate Lists(bookings: seq<C.Booking>, n: C.NodeId, s: P.Sys) {
    && (forall id | id in s.rows :: SlotOf(n, s.rows[id]) in bookings)
    && (forall b | b in bookings && b.node == n :: exists id | id in s.rows :: b == SlotOf(n, s.rows[id]))
  }

  predicate OfOthersOk(bookings: seq<C.Booking>, n: C.NodeId) {
    forall b | b in bookings && b.node != n :: b.slot.start <= b.slot.end
  }

  lemma RowsAreSlots(s: P.Sys, bookings: seq<C.Booking>, n: C.NodeId)
    requires S.Backed(s) && L.Valid(s.node) && Lists(bookings, n, s) && OfOthersOk(bookings, n)
    ensures C.SlotsOk(bookings)
  {
    forall b | b in bookings ensures b.slot.start <= b.slot.end {
      if b.node == n {
        var id :| id in s.rows && b == SlotOf(n, s.rows[id]);
        assert S.SameWindow(s, id, s.rows[id].startsAt, s.rows[id].endsAt) && L.RowOk(s.node[id]);
      }
    }
  }

  /** The money of the row is captured, and not given back for a job that failed or was disputed. */
  predicate Kept(r: P.Row) {
    r.captured && r.status != FailedProvider && r.status != FailedUser && r.status != Disputed
  }

  /**
   In every run whose replies match and whose confirms are timely, a window that search offers
   overlaps no row whose money is captured and kept, so nobody is offered a slot that the node has
   confirmed for such a row.
   */
  lemma OfferedIsNotPaidFor(
      nodePrice: int, ttlMs: int, evs: seq<P.Event>, id: P.Id,
      decl: seq<C.Declared>, bookings: seq<C.Booking>, n: C.NodeId, from: int, until: int)
    requires P.ObeysAll(S.DISCIPLINE, P.Init(nodePrice, ttlMs), evs)
    requires var s := P.Run(P.Init(nodePrice, ttlMs), evs);
      Lists(bookings, n, s) && OfOthersOk(bookings, n) && id in s.rows && Kept(s.rows[id])
    requires from < until && CoversWindow(C.Left(decl, bookings, n, from, Some(until)), from, until)
    ensures var s := P.Run(P.Init(nodePrice, ttlMs), evs);
      id in s.node && s.node[id].status == L.Confirmed && !L.Overlaps(s.node[id], from, until)
  {
    var s := P.Run(P.Init(nodePrice, ttlMs), evs);
    S.RunDisciplined(S.DISCIPLINE, P.Init(nodePrice, ttlMs), evs);
    S.CapturedIsReserved(nodePrice, ttlMs, evs, id);
    RowsAreSlots(s, bookings, n);
    C.SearchSellsWhatIsFree(decl, bookings, n, from, until);
    assert SlotOf(n, s.rows[id]) in bookings && InUse(s.rows[id].status);
  }
}
