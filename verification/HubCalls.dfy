/**
 Requests to nodes and their replies (backend/src/ws/hub.js): the `_pending` map, its timers and
 the promises that `_sendAwait` hands out.
 */
module HubCalls {
  import opened Options

  /** Reservation ids and job ids share one map. */
  type Key = nat

  /** A reply names a reservation, a job, both or neither; the content is opaque. */
  datatype Message = Message(reservationId: Option<Key>, jobId: Option<Key>, content: int)

  datatype Outcome = Waiting | Resolved(msg: Message) | TimedOut

  /** One call of `_sendAwait`: its correlation id, whether its timer is set, and its promise. */
  datatype Call = Call(key: Key, armed: bool, outcome: Outcome)

  /** Calls are numbered in the order they are made; `pending` maps an id to the call that owns its entry. */
  datatype State = State(pending: map<Key, nat>, calls: seq<Call>)

  datatype Event = Send(key: Key) | Reply(msg: Message) | Timer(call: nat)

  function KeyOf(msg: Message): Option<Key> {
    if msg.reservationId.Some? then msg.reservationId else msg.jobId
  }

  function SendAwait(s: State, key: Key): State {
    State(s.pending[key := |s.calls|], s.calls + [Call(key, true, Waiting)])
  }

  function ResolvePending(s: State, msg: Message): State {
    var key := KeyOf(msg);
    if key.None? || key.value !in s.pending || s.pending[key.value] >= |s.calls| then s
    else
      var c := s.pending[key.value];
      State(s.pending - {key.value}, s.calls[c := Call(s.calls[c].key, false, Resolved(msg))])
  }

  /** The timer of a call; it removes whatever entry its id has by then. */
  function FireTimer(s: State, c: nat): State {
    if c >= |s.calls| || !s.calls[c].armed then s
    else State(s.pending - {s.calls[c].key}, s.calls[c := Call(s.calls[c].key, false, TimedOut)])
  }

  function Apply(s: State, ev: Event): State {
    match ev
    case Send(key) => SendAwait(s, key)
    case Reply(msg) => ResolvePending(s, msg)
    case Timer(c) => FireTimer(s, c)
  }

  function Run(s: State, evs: seq<Event>): State
    decreases evs
  {
    if evs == [] then s else Run(Apply(s, evs[0]), evs[1..])
  }

  const EMPTY := State(map[], [])

  /** The call whose `resolve` or `reject` an event invokes. */
  function Invokes(s: State, ev: Event): Option<nat> {
    match ev
    case Send(_) => None
    case Reply(msg) =>
      var key := KeyOf(msg);
      if key.Some? && key.value in s.pending then Some(s.pending[key.value]) else None
    case Timer(c) => if c < |s.calls| && s.calls[c].armed then Some(c) else None
  }

  function Invocations(s: State, evs: seq<Event>, c: nat): nat
    decreases evs
  {
    if evs == [] then 0
    else (if Invokes(s, evs[0]) == Some(c) then 1 else 0) + Invocations(Apply(s, evs[0]), evs[1..], c)
  }

  /** A map entry belongs to a call on that id whose timer is set, and a timer is set exactly while its promise waits. */
  predicate Valid(s: State) {
    && (forall key | key in s.pending ::
        s.pending[key] < |s.calls| && s.calls[s.pending[key]].key == key && s.calls[s.pending[key]].armed)
    && (forall c | 0 <= c < |s.calls| :: s.calls[c].armed <==> s.calls[c].outcome.Waiting?)
  }

  predicate IsWaiting(s: State, c: nat) {
    c < |s.calls| && s.calls[c].outcome.Waiting?
  }

  /** The map still leads to the call. */
  predicate Owns(s: State, c: nat) {
    c < |s.calls| && s.calls[c].key in s.pending && s.pending[s.calls[c].key] == c
  }

  lemma StepKeepsValid(s: State, ev: Event)
    requires Valid(s)
    ensures Valid(Apply(s, ev))
  {
  }

  lemma {:induction false} RunKeepsValid(s: State, evs: seq<Event>)
    requires Valid(s)
    ensures Valid(Run(s, evs))
    decreases evs
  {
    if evs != [] {
      StepKeepsValid(s, evs[0]);
      RunKeepsValid(Apply(s, evs[0]), evs[1..]);
    }
  }

  /** An event settles the call it invokes, which was waiting, and touches no other. */
  lemma StepSettles(s: State, ev: Event, c: nat)
    requires Valid(s) && c < |s.calls|
    ensures |Apply(s, ev).calls| >= |s.calls| && Apply(s, ev).calls[c].key == s.calls[c].key
    ensures Invokes(s, ev) == Some(c) ==> IsWaiting(s, c) && !IsWaiting(Apply(s, ev), c)
    ensures Invokes(s, ev) != Some(c) ==> Apply(s, ev).calls[c] == s.calls[c]
    ensures !IsWaiting(s, c) ==> Apply(s, ev).calls[c] == s.calls[c]
  {
  }

  /**
   Every promise settles exactly once. Over any run, whatever ids are reused, the `resolve` or
   `reject` of a waiting call is invoked once or the call still waits; one that is settled is
   never invoked again and keeps its outcome.
   */
  lemma {:induction false} SettlesExactlyOnce(s: State, evs: seq<Event>, c: nat)
    requires Valid(s) && c < |s.calls|
    ensures c < |Run(s, evs).calls| && Run(s, evs).calls[c].key == s.calls[c].key
    ensures Invocations(s, evs, c) == (if IsWaiting(s, c) && !IsWaiting(Run(s, evs), c) then 1 else 0)
    ensures !IsWaiting(s, c) ==> Run(s, evs).calls[c] == s.calls[c]
    decreases evs
  {
    if evs != [] {
      StepKeepsValid(s, evs[0]);
      StepSettles(s, evs[0], c);
      SettlesExactlyOnce(Apply(s, evs[0]), evs[1..], c);
    }
  }

  /** No promise waits for ever: once its own timer has come due it is settled. */
  lemma {:induction false} TimerSettles(s: State, evs: seq<Event>, c: nat, i: nat)
    requires Valid(s) && c < |s.calls| && i < |evs| && evs[i] == Timer(c)
    ensures c < |Run(s, evs).calls| && !IsWaiting(Run(s, evs), c)
    decreases evs
  {
    StepKeepsValid(s, evs[0]);
    StepSettles(s, evs[0], c);
    if i == 0 {
      SettlesExactlyOnce(Apply(s, evs[0]), evs[1..], c);
    } else {
      TimerSettles(Apply(s, evs[0]), evs[1..], c, i - 1);
    }
  }

  /**
   A call whose entry was overwritten by a later call on the same id, or deleted by another
   call's timer, never gets it back: only its own timer can still settle it.
   */
  lemma {:induction false} OrphanOnlyTimesOut(s: State, evs: seq<Event>, c: nat)
    requires Valid(s) && IsWaiting(s, c) && !Owns(s, c)
    ensures c < |Run(s, evs).calls| && Run(s, evs).calls[c].outcome == (if Timer(c) in evs then TimedOut else Waiting)
    decreases evs
  {
    if evs != [] {
      StepKeepsValid(s, evs[0]);
      assert evs == [evs[0]] + evs[1..];
      if evs[0] == Timer(c) {
        SettlesExactlyOnce(Apply(s, evs[0]), evs[1..], c);
      } else {
        OrphanOnlyTimesOut(Apply(s, evs[0]), evs[1..], c);
      }
    }
  }

  /** The reply is about the id: about a reservation of that id, or else, naming no reservation, a job of that id. */
  predicate Carries(msg: Message, key: Key) {
    match msg.reservationId
    case Some(reservation) => reservation == key
    case None => msg.jobId == Some(key)
  }

  /**
   Exactly when a reply reaches a call, whatever ids are reused: it settles the call that owns the
   map entry of its id, which waits, and changes no other; and the entry is gone.
   */
  lemma ReplySettlesTheOwner(s: State, msg: Message, c: nat)
    requires Valid(s) && c < |s.calls|
    ensures Owns(s, c) ==> IsWaiting(s, c)
    ensures Apply(s, Reply(msg)).calls[c] ==
      if Owns(s, c) && Carries(msg, s.calls[c].key) then Call(s.calls[c].key, false, Resolved(msg)) else s.calls[c]
    ensures forall key :: key in Apply(s, Reply(msg)).pending <==> key in s.pending && !Carries(msg, key)
  {
  }

  /** So a waiting call misses a reply under its own id if and only if it has lost its entry. */
  lemma ReplyIsLostExactlyByOrphans(evs: seq<Event>, msg: Message, c: nat)
    requires IsWaiting(Run(EMPTY, evs), c) && Carries(msg, Run(EMPTY, evs).calls[c].key)
    ensures c < |Apply(Run(EMPTY, evs), Reply(msg)).calls|
    ensures IsWaiting(Apply(Run(EMPTY, evs), Reply(msg)), c) <==> !Owns(Run(EMPTY, evs), c)
  {
    RunKeepsValid(EMPTY, evs);
    ReplySettlesTheOwner(Run(EMPTY, evs), msg, c);
  }

  // ---------------------------------------------------------------------------------------
  // Distinct outstanding ids.
  // ---------------------------------------------------------------------------------------

  /** No request is made under an id for which another call still waits. */
  predicate Distinct(s: State, evs: seq<Event>)
    decreases evs
  {
    evs == []
    || ((evs[0].Send? ==> forall c | 0 <= c < |s.calls| && s.calls[c].outcome.Waiting? :: s.calls[c].key != evs[0].key)
        && Distinct(Apply(s, evs[0]), evs[1..]))
  }

  /** The map leads to every waiting call, so no two of them share an id. */
  predicate Tracked(s: State) {
    forall c | 0 <= c < |s.calls| && s.calls[c].outcome.Waiting? :: Owns(s, c)
  }

  lemma {:induction false} DistinctStaysTracked(s: State, evs: seq<Event>)
    requires Valid(s) && Tracked(s) && Distinct(s, evs)
    ensures Valid(Run(s, evs)) && Tracked(Run(s, evs))
    decreases evs
  {
    if evs != [] {
      StepKeepsValid(s, evs[0]);
      StepKeepsTracked(s, evs[0]);
      DistinctStaysTracked(Apply(s, evs[0]), evs[1..]);
    }
  }

  lemma StepKeepsTracked(s: State, ev: Event)
    requires Valid(s) && Tracked(s)
    requires ev.Send? ==> forall c | 0 <= c < |s.calls| && s.calls[c].outcome.Waiting? :: s.calls[c].key != ev.key
    ensures Tracked(Apply(s, ev))
  {
    var t := Apply(s, ev);
    forall c | 0 <= c < |t.calls| && t.calls[c].outcome.Waiting? ensures Owns(t, c) {
      if c < |s.calls| {
        StepSettles(s, ev, c);
        assert Owns(s, c);
      }
    }
  }

  /** With distinct outstanding ids a reply settles a call if and only if that call waits under the id the reply carries. */
  lemma ReplyReachesItsCall(evs: seq<Event>, msg: Message, c: nat)
    requires Distinct(EMPTY, evs) && c < |Run(EMPTY, evs).calls|
    ensures var s, t := Run(EMPTY, evs), Apply(Run(EMPTY, evs), Reply(msg));
      t.calls[c] == if s.calls[c].outcome.Waiting? && Carries(msg, s.calls[c].key)
                    then Call(s.calls[c].key, false, Resolved(msg)) else s.calls[c]
  {
    DistinctStaysTracked(EMPTY, evs);
    var s := Run(EMPTY, evs);
    ReplySettlesTheOwner(s, msg, c);
    assert IsWaiting(s, c) ==> Owns(s, c);
  }

  /** Without that discipline a reply can be lost: the first call's timer drops the second call's entry. */
  lemma ReusedIdLosesTheReply(key: Key, msg: Message)
    requires Carries(msg, key)
    ensures !Distinct(EMPTY, [Send(key), Send(key)])
    ensures Run(EMPTY, [Send(key), Send(key), Timer(0), Reply(msg), Timer(1)]).calls
            == [Call(key, false, TimedOut), Call(key, false, TimedOut)]
  {
    var evs := [Send(key), Send(key), Timer(0), Reply(msg), Timer(1)];
    assert [Send(key), Send(key)][1..] == [Send(key)];
    assert EMPTY.pending == map[];
    assert Apply(EMPTY, evs[0]).calls[0] == Call(key, true, Waiting);
    Unroll(EMPTY, evs);
    var s1 := Apply(EMPTY, evs[0]);
    Unroll(s1, evs[1..]);
    var s2 := Apply(s1, evs[1]);
    Unroll(s2, evs[2..]);
    var s3 := Apply(s2, evs[2]);
    assert key !in s3.pending;
    Unroll(s3, evs[3..]);
    Unroll(s3, evs[4..]);
    assert evs[5..] == [];
  }

  lemma Unroll(s: State, evs: seq<Event>)
    requires evs != []
    ensures Run(s, evs) == Run(Apply(s, evs[0]), evs[1..])
  {
  }
}

module HubCallsImpl {
  import opened Options
  import opened HubCalls

  /** The correlation half of the Hub, updated in place. */
  class Correlator {
    var pending: map<Key, nat>
    var calls: seq<Call>

    ghost function Contents(): State
      reads this
    {
      State(pending, calls)
    }

    constructor ()
      ensures Contents() == EMPTY
    {
      pending := map[];
      calls := [];
    }

    method Await(key: Key) returns (c: nat)
      requires Valid(Contents())
      modifies this
      ensures Contents() == SendAwait(old(Contents()), key)
      ensures Valid(Contents()) && Owns(Contents(), c) && IsWaiting(Contents(), c) && c == |old(calls)|
    {
      c := |calls|;
      calls := calls + [Call(key, true, Waiting)];
      pending := pending[key := c];
      StepKeepsValid(old(Contents()), Send(key));
    }

    method OnReply(msg: Message)
      requires Valid(Contents())
      modifies this
      ensures Contents() == ResolvePending(old(Contents()), msg)
      ensures Valid(Contents())
    {
      StepKeepsValid(Contents(), Reply(msg));
      var key := KeyOf(msg);
      if key.None? || key.value !in pending {
        return;
      }
      var c := pending[key.value];
      pending := pending - {key.value};
      calls := calls[c := Call(calls[c].key, false, Resolved(msg))];
    }

    /** Runs only for a timer that nobody has cleared. */
    method OnTimer(c: nat)
      requires Valid(Contents()) && c < |calls| && calls[c].armed
      modifies this
      ensures Contents() == FireTimer(old(Contents()), c)
      ensures Valid(Contents())
    {
      StepKeepsValid(Contents(), Timer(c));
      pending := pending - {calls[c].key};
      calls := calls[c := Call(calls[c].key, false, TimedOut)];
    }
  }
}
