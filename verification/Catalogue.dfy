/** Search candidates and the browse catalogue (backend/src/marketplace/nodeStore.js). */
module Catalogue {
  import opened Options
  import opened Machine
  import opened Availability

  type NodeId = nat

  /** A row of node_availability. */
  datatype Declared = Declared(node: NodeId, window: Interval)

  /** A row of reservations, as far as its slot is concerned. */
  datatype Booking = Booking(node: NodeId, status: RStatus, slot: Interval)

  /** The SQL prefilter on windows; search passes both ends of the request, browse only `now`. */
  predicate Wanted(w: Interval, from: int, until: Option<int>) {
    w.end >= from && (until.Some? ==> w.start <= until.value)
  }

  function WindowsOf(decl: seq<Declared>, n: NodeId, from: int, until: Option<int>): seq<Interval> {
    if decl == [] then []
    else
      var k := |decl| - 1;
      WindowsOf(decl[..k], n, from, until)
      + if decl[k].node == n && Wanted(decl[k].window, from, until) then [decl[k].window] else []
  }

  /** The slots that `busySlotsByNode` reads: the statuses of the exclusion constraint, not yet over. */
  predicate Sold(b: Booking, n: NodeId, from: int) {
    b.node == n && Excluded(b.status) && b.slot.end >= from
  }

  function BusyOf(bookings: seq<Booking>, n: NodeId, from: int): seq<Interval> {
    if bookings == [] then []
    else
      var k := |bookings| - 1;
      BusyOf(bookings[..k], n, from) + if Sold(bookings[k], n, from) then [bookings[k].slot] else []
  }

  type ByNode = map<NodeId, seq<Interval>>

  function At(m: ByNode, n: NodeId): seq<Interval> {
    if n in m then m[n] else []
  }

  /** What is left to sell on a node, given which windows and bookings were read. */
  function Left(decl: seq<Declared>, bookings: seq<Booking>, n: NodeId, from: int, until: Option<int>): seq<Interval> {
    SubtractBusy(WindowsOf(decl, n, from, until), BusyOf(bookings, n, from))
  }

  /** The grouping loops over query results. */
  method GroupWindows(decl: seq<Declared>, from: int, until: Option<int>) returns (byNode: ByNode)
    ensures forall n :: At(byNode, n) == WindowsOf(decl, n, from, until)
    ensures forall n | n in byNode :: byNode[n] != []
  {
    byNode := map[];
    for i := 0 to |decl|
      invariant forall n :: At(byNode, n) == WindowsOf(decl[..i], n, from, until)
      invariant forall n | n in byNode :: byNode[n] != []
    {
      assert decl[..i + 1][..i] == decl[..i];
      if Wanted(decl[i].window, from, until) {
        byNode := byNode[decl[i].node := At(byNode, decl[i].node) + [decl[i].window]];
      }
    }
    assert decl[..|decl|] == decl;
  }

  method GroupBusy(bookings: seq<Booking>, from: int) returns (byNode: ByNode)
    ensures forall n :: At(byNode, n) == BusyOf(bookings, n, from)
  {
    byNode := map[];
    for i := 0 to |bookings|
      invariant forall n :: At(byNode, n) == BusyOf(bookings[..i], n, from)
    {
      assert bookings[..i + 1][..i] == bookings[..i];
      var b := bookings[i];
      if Sold(b, b.node, from) {
        byNode := byNode[b.node := At(byNode, b.node) + [b.slot]];
      }
    }
    assert bookings[..|bookings|] == bookings;
  }

  /** The availability that search attaches to each candidate for a request for [s, e). */
  method SearchAvailability(decl: seq<Declared>, bookings: seq<Booking>, s: int, e: int) returns (windowsByNode: ByNode)
    ensures forall n :: At(windowsByNode, n) == Left(decl, bookings, n, s, Some(e))
  {
    var busyByNode := GroupBusy(bookings, s);
    var windows := GroupWindows(decl, s, Some(e));
    windowsByNode := windows;
    var todo := windows.Keys;
    while todo != {}
      invariant todo <= windows.Keys && windowsByNode.Keys == windows.Keys
      invariant forall n | n in todo :: windowsByNode[n] == windows[n]
      invariant forall n | n in windows && n !in todo :: windowsByNode[n] == SubtractBusy(windows[n], At(busyByNode, n))
      decreases todo
    {
      var n :| n in todo;
      windowsByNode := windowsByNode[n := SubtractBusy(windowsByNode[n], At(busyByNode, n))];
      todo := todo - {n};
    }
    SubtractFromNothing();
  }

  /** The catalogue's availability; a node with nothing left drops out. */
  method BrowseAvailability(decl: seq<Declared>, bookings: seq<Booking>, now: int) returns (windowsByNode: ByNode)
    ensures forall n :: At(windowsByNode, n) == Left(decl, bookings, n, now, None)
    ensures forall n :: n in windowsByNode <==> Left(decl, bookings, n, now, None) != []
  {
    var windows := GroupWindows(decl, now, None);
    var busyByNode := GroupBusy(bookings, now);
    windowsByNode := windows;
    var todo := windows.Keys;
    while todo != {}
      invariant todo <= windows.Keys && todo <= windowsByNode.Keys <= windows.Keys
      invariant forall n | n in todo :: windowsByNode[n] == windows[n]
      invariant forall n | n in windows && n !in todo ::
        At(windowsByNode, n) == SubtractBusy(windows[n], At(busyByNode, n)) && (n in windowsByNode ==> windowsByNode[n] != [])
      decreases todo
    {
      var n :| n in todo;
      var free := SubtractBusy(windowsByNode[n], At(busyByNode, n));
      if |free| > 0 {
        windowsByNode := windowsByNode[n := free];
      } else {
        windowsByNode := windowsByNode - {n};
      }
      todo := todo - {n};
    }
    SubtractFromNothing();
  }

  lemma SubtractFromNothing()
    ensures forall busy :: SubtractBusy([], busy) == []
  {
  }

  // ---------------------------------------------------------------------------------------
  // The prefilters are invisible.
  // ---------------------------------------------------------------------------------------

  /** The slot is guarded by the exclusion constraint and overlaps [s, e). */
  predicate Conflicts(b: Booking, n: NodeId, s: int, e: int) {
    b.node == n && Excluded(b.status) && b.slot.start < e && b.slot.end > s
  }

  lemma {:induction false} WindowsMembers(decl: seq<Declared>, n: NodeId, from: int, until: Option<int>, w: Interval)
    ensures w in WindowsOf(decl, n, from, until) <==> Declared(n, w) in decl && Wanted(w, from, until)
  {
    if decl != [] {
      var k := |decl| - 1;
      WindowsMembers(decl[..k], n, from, until, w);
      assert decl == decl[..k] + [decl[k]];
    }
  }

  lemma {:induction false} BusyMembers(bookings: seq<Booking>, n: NodeId, from: int, i: Interval)
    ensures i in BusyOf(bookings, n, from) <==> exists b | b in bookings :: Sold(b, n, from) && b.slot == i
  {
    if bookings != [] {
      var k := |bookings| - 1;
      BusyMembers(bookings[..k], n, from, i);
      assert bookings == bookings[..k] + [bookings[k]];
    }
  }

  /** Slots are ranges: their ends are in order. */
  predicate SlotsOk(bookings: seq<Booking>) {
    forall b | b in bookings :: b.slot.start <= b.slot.end
  }

  lemma BusyOk(bookings: seq<Booking>, n: NodeId, from: int)
    requires SlotsOk(bookings)
    ensures forall i | i in BusyOf(bookings, n, from) :: i.start <= i.end
  {
    forall i | i in BusyOf(bookings, n, from) ensures i.start <= i.end {
      BusyMembers(bookings, n, from, i);
    }
  }

  lemma ClashIsConflict(bookings: seq<Booking>, n: NodeId, from: int, s: int, e: int)
    requires from <= s
    ensures Clash(BusyOf(bookings, n, from), s, e) <==> exists b | b in bookings :: Conflicts(b, n, s, e)
  {
    if Clash(BusyOf(bookings, n, from), s, e) {
      var i :| i in BusyOf(bookings, n, from) && i.start < e && i.end > s;
      BusyMembers(bookings, n, from, i);
      var b :| b in bookings && Sold(b, n, from) && b.slot == i;
      assert Conflicts(b, n, s, e);
    }
    if exists b | b in bookings :: Conflicts(b, n, s, e) {
      var b :| b in bookings && Conflicts(b, n, s, e);
      assert Sold(b, n, from);
      BusyMembers(bookings, n, from, b.slot);
    }
  }

  /**
   A node passes the window test of a search for [s, e) iff one of its declared windows contains
   the request and no row guarded by the exclusion constraint overlaps it: neither the prefilter
   on windows nor the one on bookings can be seen.
   */
  lemma SearchIsExact(decl: seq<Declared>, bookings: seq<Booking>, n: NodeId, s: int, e: int)
    requires SlotsOk(bookings) && s < e
    ensures CoversWindow(Left(decl, bookings, n, s, Some(e)), s, e) <==>
      && (exists d | d in decl :: d.node == n && Contains(d.window, s, e))
      && !(exists b | b in bookings :: Conflicts(b, n, s, e))
  {
    var windows := WindowsOf(decl, n, s, Some(e));
    BusyOk(bookings, n, s);
    CoversExact(windows, BusyOf(bookings, n, s), s, e);
    ClashIsConflict(bookings, n, s, s, e);
    if CoversWindow(windows, s, e) {
      var w :| w in windows && Contains(w, s, e);
      WindowsMembers(decl, n, s, Some(e), w);
      assert Declared(n, w) in decl && Declared(n, w).node == n && Contains(Declared(n, w).window, s, e);
    }
    if exists d | d in decl :: d.node == n && Contains(d.window, s, e) {
      var d :| d in decl && d.node == n && Contains(d.window, s, e);
      WindowsMembers(decl, n, s, Some(e), d.window);
      assert d == Declared(n, d.window);
    }
  }

  /** A booking whose time is in use overlaps the request. */
  predicate Clashes(bookings: seq<Booking>, n: NodeId, s: int, e: int) {
    exists b | b in bookings :: b.node == n && InUse(b.status) && b.slot.start < e && b.slot.end > s
  }

  /**
   So search sells exactly what is declared and not in use: time that is on hold, or paid for and
   running, confirmed or completed, is off the market, and time of every other booking is on it.
   */
  lemma SearchSellsWhatIsFree(decl: seq<Declared>, bookings: seq<Booking>, n: NodeId, s: int, e: int)
    requires SlotsOk(bookings) && s < e
    ensures CoversWindow(Left(decl, bookings, n, s, Some(e)), s, e) <==>
      (exists d | d in decl :: d.node == n && Contains(d.window, s, e)) && !Clashes(bookings, n, s, e)
  {
    SearchIsExact(decl, bookings, n, s, e);
    forall b: Booking ensures Excluded(b.status) <==> InUse(b.status) {
      ExcludedExactly(b.status);
    }
    if Clashes(bookings, n, s, e) {
      var b :| b in bookings && b.node == n && InUse(b.status) && b.slot.start < e && b.slot.end > s;
      assert Conflicts(b, n, s, e);
    }
  }

  /**
   Any request inside an advertised piece, from `from` on, avoids every row that the exclusion
   constraint guards, so the database would accept it.
   */
  lemma AdvertisedIsBookable(decl: seq<Declared>, bookings: seq<Booking>, n: NodeId, from: int, until: Option<int>, p: Interval, s: int, e: int)
    requires SlotsOk(bookings) && p in Left(decl, bookings, n, from, until)
    requires from <= s < e && Contains(p, s, e)
    ensures !(exists b | b in bookings :: Conflicts(b, n, s, e))
  {
    BusyOk(bookings, n, from);
    assert CoversWindow(Left(decl, bookings, n, from, until), s, e);
    CoversExact(WindowsOf(decl, n, from, until), BusyOf(bookings, n, from), s, e);
    ClashIsConflict(bookings, n, from, s, e);
  }

  /** A declared window of the node that is still read contains the instant. */
  predicate Offered(decl: seq<Declared>, n: NodeId, from: int, until: Option<int>, t: int) {
    exists d | d in decl ::
      d.node == n && d.window.end >= from && (until.Some? ==> d.window.start <= until.value) && In(t, d.window)
  }

  /** A booking of the node whose time is in use, and not over by `from`, contains the instant. */
  predicate StillTaken(bookings: seq<Booking>, n: NodeId, from: int, t: int) {
    exists b | b in bookings :: b.node == n && InUse(b.status) && b.slot.end >= from && In(t, b.slot)
  }

  /** A booking of the node whose time is in use contains the instant. */
  predicate Taken(bookings: seq<Booking>, n: NodeId, t: int) {
    exists b | b in bookings :: b.node == n && InUse(b.status) && In(t, b.slot)
  }

  /** The CHECK on node_availability: windows have positive length. */
  predicate WindowsOk(decl: seq<Declared>) {
    forall d | d in decl :: d.window.start < d.window.end
  }

  lemma OfferedInstant(decl: seq<Declared>, n: NodeId, from: int, until: Option<int>, t: int)
    ensures InSome(t, WindowsOf(decl, n, from, until)) <==> Offered(decl, n, from, until, t)
  {
    var windows := WindowsOf(decl, n, from, until);
    if InSome(t, windows) {
      var w :| w in windows && In(t, w);
      WindowsMembers(decl, n, from, until, w);
      assert Declared(n, w) in decl && Declared(n, w).node == n;
    }
    if Offered(decl, n, from, until, t) {
      var d :| d in decl && d.node == n && d.window.end >= from && (until.Some? ==> d.window.start <= until.value) && In(t, d.window);
      WindowsMembers(decl, n, from, until, d.window);
      assert d == Declared(n, d.window);
    }
  }

  lemma TakenInstant(bookings: seq<Booking>, n: NodeId, from: int, t: int)
    ensures InSome(t, BusyOf(bookings, n, from)) <==> StillTaken(bookings, n, from, t)
  {
    forall b: Booking ensures Excluded(b.status) <==> InUse(b.status) {
      ExcludedExactly(b.status);
    }
    if InSome(t, BusyOf(bookings, n, from)) {
      var i :| i in BusyOf(bookings, n, from) && In(t, i);
      BusyMembers(bookings, n, from, i);
    }
    if StillTaken(bookings, n, from, t) {
      var b :| b in bookings && b.node == n && InUse(b.status) && b.slot.end >= from && In(t, b.slot);
      assert Sold(b, n, from);
      BusyMembers(bookings, n, from, b.slot);
    }
  }

  /** What is shown of a node, instant by instant: declared, still read, and not taken by a booking that is still read. */
  lemma ShownExactly(decl: seq<Declared>, bookings: seq<Booking>, n: NodeId, from: int, until: Option<int>, t: int)
    ensures InSome(t, Left(decl, bookings, n, from, until)) <==>
      Offered(decl, n, from, until, t) && !StillTaken(bookings, n, from, t)
  {
    SubtractBusyExact(WindowsOf(decl, n, from, until), BusyOf(bookings, n, from), t);
    OfferedInstant(decl, n, from, until, t);
    TakenInstant(bookings, n, from, t);
  }

  lemma {:induction false} PiecesHaveInstants(windows: seq<Interval>, busy: seq<Interval>)
    requires forall w | w in windows :: w.start < w.end
    ensures forall p | p in SubtractBusy(windows, busy) :: p.start < p.end
  {
    if busy != [] && windows != [] {
      assert windows[0] in windows && forall w | w in windows[1..] :: w in windows;
      PiecesHaveInstants(windows[1..], busy);
      WalkedExact(busy, windows[0]);
      CarveHasInstants(windows[0].start, SortByStart(Touching(busy, windows[0])), windows[0].end);
    }
  }

  lemma {:induction false} CarveHasInstants(cursor: int, sorted: seq<Interval>, end: int)
    ensures forall p | p in Carve(cursor, sorted, end) :: p.start < p.end
    decreases sorted
  {
    if sorted != [] && Max(cursor, sorted[0].end) < end {
      CarveHasInstants(Max(cursor, sorted[0].end), sorted[1..], end);
    }
  }

  /**
   A node is listed if and only if some instant of a window the catalogue reads is in none of the
   bookings it reads. Bookings that are over are not read, and windows that have begun are read whole.
   */
  lemma ListedExactly(decl: seq<Declared>, bookings: seq<Booking>, n: NodeId, now: int)
    requires WindowsOk(decl)
    ensures Left(decl, bookings, n, now, None) != [] <==>
      exists t :: Offered(decl, n, now, None, t) && !StillTaken(bookings, n, now, t)
  {
    var windows, busy := WindowsOf(decl, n, now, None), BusyOf(bookings, n, now);
    var left := Left(decl, bookings, n, now, None);
    forall t ensures InSome(t, left) <==> Offered(decl, n, now, None, t) && !StillTaken(bookings, n, now, t) {
      ShownExactly(decl, bookings, n, now, None, t);
    }
    if left != [] {
      forall w | w in windows ensures w.start < w.end {
        WindowsMembers(decl, n, now, None, w);
        assert Declared(n, w) in decl;
      }
      PiecesHaveInstants(windows, busy);
      assert left[0] in left && In(left[0].start, left[0]);
      assert InSome(left[0].start, left);
    }
  }

  /** From `now` on, the bookings that are read are all that matter. */
  lemma FutureIsRead(bookings: seq<Booking>, n: NodeId, now: int, t: int)
    requires now <= t
    ensures StillTaken(bookings, n, now, t) <==> Taken(bookings, n, t)
  {
    if Taken(bookings, n, t) {
      var b :| b in bookings && b.node == n && InUse(b.status) && In(t, b.slot);
      assert b.slot.end >= now;
    }
  }

  /** Some instant from now on is declared and not taken. */
  ghost predicate Sellable(decl: seq<Declared>, bookings: seq<Booking>, n: NodeId, now: int) {
    exists t :: now <= t && Offered(decl, n, now, None, t) && !Taken(bookings, n, t)
  }

  /** Up to now, every window that has begun is filled by bookings that are still read. */
  ghost predicate PastIsFilled(decl: seq<Declared>, bookings: seq<Booking>, n: NodeId, now: int) {
    forall t | t < now && Offered(decl, n, now, None, t) :: StillTaken(bookings, n, now, t)
  }

  /**
   A node is listed if and only if it has time to sell from now on, or some window that has begun
   was not filled up to now by bookings still read. So a listing is right exactly in the first
   case, or when the past is filled.
   */
  lemma ListingIsRight(decl: seq<Declared>, bookings: seq<Booking>, n: NodeId, now: int)
    requires WindowsOk(decl)
    ensures Left(decl, bookings, n, now, None) != []
      <==> Sellable(decl, bookings, n, now) || !PastIsFilled(decl, bookings, n, now)
    ensures (Left(decl, bookings, n, now, None) != [] <==> Sellable(decl, bookings, n, now))
      <==> Sellable(decl, bookings, n, now) || PastIsFilled(decl, bookings, n, now)
  {
    ListedExactly(decl, bookings, n, now);
    forall t | now <= t ensures StillTaken(bookings, n, now, t) <==> Taken(bookings, n, t) {
      FutureIsRead(bookings, n, now, t);
    }
  }

  /** An unsold instant from now on is advertised. */
  lemma UnsoldIsListed(decl: seq<Declared>, bookings: seq<Booking>, n: NodeId, now: int, t: int)
    requires now <= t && (exists d | d in decl :: d.node == n && In(t, d.window)) && !Taken(bookings, n, t)
    ensures InSome(t, Left(decl, bookings, n, now, None))
  {
    ShownExactly(decl, bookings, n, now, None, t);
    FutureIsRead(bookings, n, now, t);
    var d :| d in decl && d.node == n && In(t, d.window);
    assert d.window.end >= now;
  }

  /** A node whose remaining time is all sold is still listed, for the time that has passed. */
  lemma PastTimeIsListed()
    ensures Left([Declared(1, Interval(0, 100))], [Booking(1, Confirmed, Interval(50, 100))], 1, 50, None) == [Interval(0, 50)]
  {
    var w, b := Interval(0, 100), Interval(50, 100);
    assert WindowsOf([Declared(1, w)], 1, 50, None) == [] + [w];
    assert BusyOf([Booking(1, Confirmed, b)], 1, 50) == [] + [b];
    assert Touching([b], w) == [b] && SortByStart([b]) == [b];
    assert Carve(0, [b], 100) == [Interval(0, 50)];
    assert FlatFree([w], [b]) == FreeIn(w, [b]) + FlatFree([], [b]);
  }
}
