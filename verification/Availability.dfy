/**
 What is left to sell: `subtractBusy` and `coversWindow` (backend/src/marketplace/scheduler.js)
 and how search and catalogue use them (backend/src/marketplace/nodeStore.js).
 Instants are integer milliseconds and windows are half-open.
 */
module Availability {
  datatype Interval = Interval(start: int, end: int)

  predicate In(t: int, i: Interval) {
    i.start <= t < i.end
  }

  predicate InSome(t: int, s: seq<Interval>) {
    exists i | i in s :: In(t, i)
  }

  predicate Touches(b: Interval, w: Interval) {
    b.start < w.end && b.end > w.start
  }

  function Touching(busy: seq<Interval>, w: Interval): seq<Interval> {
    if busy == [] then []
    else (if Touches(busy[0], w) then [busy[0]] else []) + Touching(busy[1..], w)
  }

  function InsertByStart(b: Interval, s: seq<Interval>): seq<Interval> {
    if s == [] || b.start <= s[0].start then [b] + s else [s[0]] + InsertByStart(b, s[1..])
  }

  /** `.sort((a, b) => a.start - b.start)`, which is stable. */
  function SortByStart(s: seq<Interval>): seq<Interval> {
    if s == [] then [] else InsertByStart(s[0], SortByStart(s[1..]))
  }

  function Max(a: int, b: int): int { if a < b then b else a }

  /** The free pieces from `cursor` on, given the bookings still to come, earliest first. */
  function Carve(cursor: int, sorted: seq<Interval>, end: int): seq<Interval>
    decreases sorted
  {
    if sorted == [] then (if cursor < end then [Interval(cursor, end)] else [])
    else
      var b := sorted[0];
      var piece := if b.start > cursor then [Interval(cursor, b.start)] else [];
      var next := Max(cursor, b.end);
      if next >= end then piece else piece + Carve(next, sorted[1..], end)
  }

  function FreeIn(w: Interval, busy: seq<Interval>): seq<Interval> {
    Carve(w.start, SortByStart(Touching(busy, w)), w.end)
  }

  function FlatFree(windows: seq<Interval>, busy: seq<Interval>): seq<Interval> {
    if windows == [] then [] else FreeIn(windows[0], busy) + FlatFree(windows[1..], busy)
  }

  function SubtractBusy(windows: seq<Interval>, busy: seq<Interval>): seq<Interval> {
    if busy == [] then windows else FlatFree(windows, busy)
  }

  lemma CarveStep(free: seq<Interval>, cursor: int, s: seq<Interval>, i: nat, end: int)
    requires i < |s|
    ensures var b := s[i];
      var grown := if b.start > cursor then free + [Interval(cursor, b.start)] else free;
      var next := Max(cursor, b.end);
      free + Carve(cursor, s[i..], end) == if next >= end then grown else grown + Carve(next, s[i + 1..], end)
  {
    assert s[i..][1..] == s[i + 1..];
  }

  /** The cursor loop over one window. */
  method FreePieces(w: Interval, overlapping: seq<Interval>) returns (free: seq<Interval>)
    ensures free == Carve(w.start, overlapping, w.end)
  {
    free := [];
    var cursor := w.start;
    var i := 0;
    while i < |overlapping|
      invariant 0 <= i <= |overlapping|
      invariant free + Carve(cursor, overlapping[i..], w.end) == Carve(w.start, overlapping, w.end)
    {
      var b := overlapping[i];
      CarveStep(free, cursor, overlapping, i, w.end);
      if b.start > cursor {
        free := free + [Interval(cursor, b.start)];
      }
      cursor := Max(cursor, b.end);
      i := i + 1;
      if cursor >= w.end {
        break;
      }
    }
    if cursor < w.end {
      free := free + [Interval(cursor, w.end)];
    }
  }

  // ---------------------------------------------------------------------------------------
  // Sorting and filtering.
  // ---------------------------------------------------------------------------------------

  predicate Sorted(s: seq<Interval>) {
    forall i, j | 0 <= i < j < |s| :: s[i].start <= s[j].start
  }

  lemma {:induction false} InsertMembers(b: Interval, s: seq<Interval>, x: Interval)
    ensures x in InsertByStart(b, s) <==> x == b || x in s
  {
    if s != [] {
      assert s == [s[0]] + s[1..];
      if b.start > s[0].start {
        InsertMembers(b, s[1..], x);
      }
    }
  }

  lemma ConsSorted(x: Interval, s: seq<Interval>)
    requires Sorted(s) && forall y | y in s :: x.start <= y.start
    ensures Sorted([x] + s)
  {
    forall i, j | 0 <= i < j < |[x] + s| ensures ([x] + s)[i].start <= ([x] + s)[j].start {
      assert ([x] + s)[j] == s[j - 1] && s[j - 1] in s;
    }
  }

  lemma {:induction false} InsertSorted(b: Interval, s: seq<Interval>)
    requires Sorted(s)
    ensures Sorted(InsertByStart(b, s))
  {
    if s != [] {
      assert s == [s[0]] + s[1..];
      if b.start > s[0].start {
        InsertSorted(b, s[1..]);
        forall y | y in InsertByStart(b, s[1..]) ensures s[0].start <= y.start {
          InsertMembers(b, s[1..], y);
        }
        ConsSorted(s[0], InsertByStart(b, s[1..]));
      } else {
        ConsSorted(b, s);
      }
    }
  }

  lemma {:induction false} SortSorts(s: seq<Interval>)
    ensures Sorted(SortByStart(s))
    ensures forall x :: x in SortByStart(s) <==> x in s
  {
    if s != [] {
      SortSorts(s[1..]);
      InsertSorted(s[0], SortByStart(s[1..]));
      forall x ensures x in SortByStart(s) <==> x in s {
        InsertMembers(s[0], SortByStart(s[1..]), x);
        assert s == [s[0]] + s[1..];
      }
    }
  }

  lemma {:induction false} TouchingExact(busy: seq<Interval>, w: Interval, b: Interval)
    ensures b in Touching(busy, w) <==> b in busy && Touches(b, w)
  {
    if busy != [] {
      TouchingExact(busy[1..], w, b);
      assert b in busy <==> b == busy[0] || b in busy[1..];
    }
  }

  /** The bookings that the loop walks: exactly those that touch the window, earliest first. */
  lemma WalkedExact(busy: seq<Interval>, w: Interval)
    ensures var s := SortByStart(Touching(busy, w));
      Sorted(s) && forall b :: b in s <==> b in busy && Touches(b, w)
  {
    var f := Touching(busy, w);
    SortSorts(f);
    forall b ensures b in SortByStart(f) <==> b in busy && Touches(b, w) {
      TouchingExact(busy, w, b);
    }
  }

  // ---------------------------------------------------------------------------------------
  // Exactness.
  // ---------------------------------------------------------------------------------------

  lemma InSomeConcat(t: int, a: seq<Interval>, b: seq<Interval>)
    ensures InSome(t, a + b) <==> InSome(t, a) || InSome(t, b)
  {
    assert forall i | i in a :: i in a + b;
    assert forall i | i in b :: i in a + b;
  }

  lemma InSomeSingle(t: int, i: Interval)
    ensures InSome(t, [i]) <==> In(t, i)
  {
    assert i in [i];
  }

  lemma FirstPieceExact(cursor: int, b: Interval, t: int)
    ensures InSome(t, if b.start > cursor then [Interval(cursor, b.start)] else []) <==> cursor <= t < b.start
  {
    InSomeSingle(t, Interval(cursor, b.start));
  }

  lemma FirstBooking(s: seq<Interval>, t: int)
    requires Sorted(s) && s != []
    ensures InSome(t, s) <==> In(t, s[0]) || InSome(t, s[1..])
    ensures InSome(t, s[1..]) ==> s[0].start <= t
  {
    assert s == [s[0]] + s[1..];
    InSomeConcat(t, [s[0]], s[1..]);
    InSomeSingle(t, s[0]);
    if InSome(t, s[1..]) {
      var x :| x in s[1..] && In(t, x);
      assert s[0].start <= x.start;
    }
  }

  lemma {:induction false} CarveExact(cursor: int, s: seq<Interval>, end: int, t: int)
    requires Sorted(s) && forall b | b in s :: b.start < end
    ensures InSome(t, Carve(cursor, s, end)) <==> cursor <= t < end && !InSome(t, s)
    decreases s
  {
    if s == [] {
      InSomeSingle(t, Interval(cursor, end));
    } else {
      var b, rest := s[0], s[1..];
      assert b in s && forall x | x in rest :: x in s;
      FirstBooking(s, t);
      FirstPieceExact(cursor, b, t);
      var next := Max(cursor, b.end);
      if next < end {
        CarveExact(next, rest, end, t);
        InSomeConcat(t, if b.start > cursor then [Interval(cursor, b.start)] else [], Carve(next, rest, end));
      }
    }
  }

  /** An instant is in a piece of a window iff it is in the window and in no booking. */
  lemma FreeInExact(w: Interval, busy: seq<Interval>, t: int)
    ensures InSome(t, FreeIn(w, busy)) <==> In(t, w) && !InSome(t, busy)
  {
    WalkedExact(busy, w);
    var s := SortByStart(Touching(busy, w));
    CarveExact(w.start, s, w.end, t);
    if In(t, w) && InSome(t, busy) {
      var b :| b in busy && In(t, b);
      assert b in s;
    }
  }

  /**
   For any declared windows and any bookings, unsorted, overlapping, nested or even empty, an
   instant is advertised iff it is in a declared window and in no booking.
   */
  lemma {:induction false} SubtractBusyExact(windows: seq<Interval>, busy: seq<Interval>, t: int)
    ensures InSome(t, SubtractBusy(windows, busy)) <==> InSome(t, windows) && !InSome(t, busy)
  {
    if busy != [] && windows != [] {
      SubtractBusyExact(windows[1..], busy, t);
      FreeInExact(windows[0], busy, t);
      InSomeConcat(t, FreeIn(windows[0], busy), FlatFree(windows[1..], busy));
      assert windows == [windows[0]] + windows[1..];
      InSomeConcat(t, [windows[0]], windows[1..]);
      InSomeSingle(t, windows[0]);
    }
  }

  /** Pieces are non-empty, in order, and disjoint. */
  predicate InOrder(s: seq<Interval>) {
    && (forall i | 0 <= i < |s| :: s[i].start < s[i].end)
    && (forall i, j | 0 <= i < j < |s| :: s[i].end <= s[j].start)
  }

  /** A piece cannot be extended inside the window: each end is the window's or touches a booking. */
  predicate Maximal(p: Interval, cursor: int, end: int, busy: seq<Interval>) {
    && (p.start == cursor || InSome(p.start - 1, busy))
    && (p.end == end || InSome(p.end, busy))
  }

  lemma ConsInOrder(p: Interval, rest: seq<Interval>)
    requires InOrder(rest) && p.start < p.end && forall q | q in rest :: p.end <= q.start
    ensures InOrder([p] + rest)
  {
    var s := [p] + rest;
    forall i, j | 0 <= i < j < |s| ensures s[i].end <= s[j].start {
      assert s[j] == rest[j - 1] && rest[j - 1] in rest;
    }
  }

  lemma {:induction false} CarveInOrder(cursor: int, s: seq<Interval>, end: int)
    requires Sorted(s) && forall b | b in s :: b.start < end && b.start <= b.end
    ensures InOrder(Carve(cursor, s, end))
    ensures forall p | p in Carve(cursor, s, end) :: cursor <= p.start && p.end <= end
    decreases s
  {
    if s != [] {
      var b := s[0];
      assert b in s;
      var next := Max(cursor, b.end);
      if next < end {
        CarveInOrder(next, s[1..], end);
        if b.start > cursor {
          ConsInOrder(Interval(cursor, b.start), Carve(next, s[1..], end));
        } else {
          assert [] + Carve(next, s[1..], end) == Carve(next, s[1..], end);
        }
      }
    }
  }

  lemma {:induction false} CarveMaximal(cursor: int, s: seq<Interval>, end: int, p: Interval)
    requires Sorted(s) && forall b | b in s :: b.start < end && b.start < b.end
    requires p in Carve(cursor, s, end)
    ensures Maximal(p, cursor, end, s)
    decreases s
  {
    if s != [] {
      var b, rest := s[0], s[1..];
      assert b in s;
      assert In(b.start, b) && In(b.end - 1, b);
      if !(b.start > cursor && p == Interval(cursor, b.start)) {
        var next := Max(cursor, b.end);
        CarveMaximal(next, rest, end, p);
        assert forall x | x in rest :: x in s;
      }
    }
  }

  /** Pieces of one window are in order and disjoint; with bookings of positive length, maximal. */
  lemma PiecesInOrderAndMaximal(w: Interval, busy: seq<Interval>)
    requires forall b | b in busy :: b.start <= b.end
    ensures InOrder(FreeIn(w, busy))
    ensures forall p | p in FreeIn(w, busy) :: w.start <= p.start && p.end <= w.end
    ensures (forall b | b in busy :: b.start < b.end) ==>
      forall p | p in FreeIn(w, busy) :: Maximal(p, w.start, w.end, busy)
  {
    WalkedExact(busy, w);
    var s := SortByStart(Touching(busy, w));
    CarveInOrder(w.start, s, w.end);
    if forall b | b in busy :: b.start < b.end {
      forall p | p in FreeIn(w, busy) ensures Maximal(p, w.start, w.end, busy) {
        CarveMaximal(w.start, s, w.end, p);
        assert forall x | x in s :: x in busy;
      }
    }
  }

  /**
   Positive length is needed for that: an empty booking inside a window would split it. No such
   row can be stored, since a quote of zero seconds throws and an empty range has no bounds to read.
   */
  lemma EmptyBookingSplits()
    ensures FreeIn(Interval(0, 10), [Interval(5, 5)]) == [Interval(0, 5), Interval(5, 10)]
    ensures !Maximal(Interval(0, 5), 0, 10, [Interval(5, 5)])
  {
    var b := Interval(5, 5);
    assert Touching([b], Interval(0, 10)) == [b];
    assert SortByStart([b]) == [b];
    assert Carve(5, [], 10) == [Interval(5, 10)];
  }

  // ---------------------------------------------------------------------------------------
  // Requests.
  // ---------------------------------------------------------------------------------------

  predicate Contains(w: Interval, s: int, e: int) {
    w.start <= s && w.end >= e
  }

  /** One window must contain the whole request. */
  predicate CoversWindow(windows: seq<Interval>, s: int, e: int) {
    exists w | w in windows :: Contains(w, s, e)
  }

  predicate Clash(busy: seq<Interval>, s: int, e: int) {
    exists b | b in busy :: b.start < e && b.end > s
  }

  lemma CoversConcat(a: seq<Interval>, b: seq<Interval>, s: int, e: int)
    ensures CoversWindow(a + b, s, e) <==> CoversWindow(a, s, e) || CoversWindow(b, s, e)
  {
    assert forall i | i in a :: i in a + b;
    assert forall i | i in b :: i in a + b;
  }

  lemma CoversSingle(w: Interval, s: int, e: int)
    ensures CoversWindow([w], s, e) <==> Contains(w, s, e)
  {
    assert w in [w];
  }

  lemma ClashCons(b: Interval, rest: seq<Interval>, s: int, e: int)
    ensures Clash([b] + rest, s, e) <==> (b.start < e && b.end > s) || Clash(rest, s, e)
  {
    assert b in [b] + rest;
    assert forall i | i in rest :: i in [b] + rest;
  }

  lemma FirstPieceCovers(cursor: int, b: Interval, s: int, e: int)
    requires s < e
    ensures CoversWindow(if b.start > cursor then [Interval(cursor, b.start)] else [], s, e) <==> cursor <= s && e <= b.start
  {
    CoversSingle(Interval(cursor, b.start), s, e);
  }

  lemma FirstClash(sorted: seq<Interval>, s: int, e: int)
    requires Sorted(sorted) && sorted != []
    ensures Clash(sorted, s, e) <==> (sorted[0].start < e && sorted[0].end > s) || Clash(sorted[1..], s, e)
    ensures Clash(sorted[1..], s, e) ==> sorted[0].start < e
  {
    assert sorted == [sorted[0]] + sorted[1..];
    ClashCons(sorted[0], sorted[1..], s, e);
    if Clash(sorted[1..], s, e) {
      var x :| x in sorted[1..] && x.start < e && x.end > s;
      assert sorted[0].start <= x.start;
    }
  }

  lemma {:induction false} CarveCovers(cursor: int, sorted: seq<Interval>, end: int, s: int, e: int)
    requires Sorted(sorted) && (forall b | b in sorted :: b.start < end && b.start <= b.end) && s < e
    ensures CoversWindow(Carve(cursor, sorted, end), s, e) <==> cursor <= s && e <= end && !Clash(sorted, s, e)
    decreases sorted
  {
    if sorted == [] {
      CoversSingle(Interval(cursor, end), s, e);
    } else {
      var b, rest := sorted[0], sorted[1..];
      assert b in sorted && forall x | x in rest :: x in sorted;
      FirstClash(sorted, s, e);
      FirstPieceCovers(cursor, b, s, e);
      var next := Max(cursor, b.end);
      if next < end {
        CarveCovers(next, rest, end, s, e);
        CoversConcat(if b.start > cursor then [Interval(cursor, b.start)] else [], Carve(next, rest, end), s, e);
      }
    }
  }

  lemma FreeInCovers(w: Interval, busy: seq<Interval>, s: int, e: int)
    requires (forall b | b in busy :: b.start <= b.end) && s < e
    ensures CoversWindow(FreeIn(w, busy), s, e) <==> Contains(w, s, e) && !Clash(busy, s, e)
  {
    WalkedExact(busy, w);
    var sorted := SortByStart(Touching(busy, w));
    CarveCovers(w.start, sorted, w.end, s, e);
    if Contains(w, s, e) && Clash(busy, s, e) {
      var b :| b in busy && b.start < e && b.end > s;
      assert b in sorted;
    }
  }

  /** A request fits what is left iff one declared window contains it and no booking clashes with it. */
  lemma {:induction false} CoversExact(windows: seq<Interval>, busy: seq<Interval>, s: int, e: int)
    requires (forall b | b in busy :: b.start <= b.end) && s < e
    ensures CoversWindow(SubtractBusy(windows, busy), s, e) <==> CoversWindow(windows, s, e) && !Clash(busy, s, e)
  {
    if busy != [] && windows != [] {
      CoversExact(windows[1..], busy, s, e);
      FreeInCovers(windows[0], busy, s, e);
      CoversConcat(FreeIn(windows[0], busy), FlatFree(windows[1..], busy), s, e);
      assert windows == [windows[0]] + windows[1..];
      CoversConcat([windows[0]], windows[1..], s, e);
      CoversSingle(windows[0], s, e);
    }
  }
}
