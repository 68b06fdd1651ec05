/**
 Which nodes are online (backend/src/ws/hub.js): the `_nodes` map, the presence callback and the
 heartbeat sweep. Closing a socket may fire its 'close' event at once or later; every step takes
 that choice as a parameter.
 */
module HubPresence {
  import opened Options

  type Node = nat

  const MISS_LIMIT := 3

  /**
   One socket: the node it has authenticated as, the sweeps since its last heartbeat, whether its
   'close' event has fired, and whether the sweep has asked it to close.
   */
  datatype Conn = Conn(nodeId: Option<Node>, missed: nat, closed: bool, timedOut: bool)

  /** `log[n]` lists the presence events emitted for node `n`, oldest first. */
  datatype State = State(conns: seq<Conn>, nodes: map<Node, nat>, log: map<Node, seq<bool>>)

  datatype Event =
    | Connect
    | Authenticate(conn: nat, node: Node, prompt: bool)
    | Heartbeat(conn: nat)
    | Close(conn: nat)
    | Sweep(promptly: set<nat>)

  const EMPTY := State([], map[], map[])

  function LogOf(s: State, n: Node): seq<bool> {
    if n in s.log then s.log[n] else []
  }

  function Emit(s: State, n: Node, online: bool): State {
    s.(log := s.log[n := LogOf(s, n) + [online]])
  }

  predicate Registered(s: State, c: nat) {
    c < |s.conns| && s.conns[c].nodeId.Some? && s.conns[c].nodeId.value in s.nodes && s.nodes[s.conns[c].nodeId.value] == c
  }

  /** The 'close' event of a socket. */
  function OnClose(s: State, c: nat): State
    requires c < |s.conns|
  {
    var t := s.(conns := s.conns[c := s.conns[c].(closed := true)]);
    if Registered(s, c) then
      var n := s.conns[c].nodeId.value;
      Emit(t.(nodes := t.nodes - {n}), n, false)
    else t
  }

  /** A verified challenge response; `prompt` says that closing the prior socket fires its event at once. */
  function OnAuthenticated(s: State, c: nat, n: Node, prompt: bool): State {
    if c >= |s.conns| || s.conns[c].closed || s.conns[c].nodeId.Some? then s
    else
      var t := if n in s.nodes && prompt && s.nodes[n] < |s.conns| then OnClose(s, s.nodes[n]) else s;
      Emit(t.(conns := t.conns[c := t.conns[c].(nodeId := Some(n))], nodes := t.nodes[n := c]), n, true)
  }

  function OnHeartbeat(s: State, c: nat): State {
    if c >= |s.conns| || s.conns[c].closed || s.conns[c].nodeId.None? then s
    else s.(conns := s.conns[c := s.conns[c].(missed := 0)])
  }

  predicate Overdue(k: Conn) {
    k.missed + 1 > MISS_LIMIT
  }

  function SweptConn(k: Conn, promptly: bool): Conn {
    Conn(k.nodeId, k.missed + 1, k.closed || (Overdue(k) && promptly), k.timedOut || Overdue(k))
  }

  /** Whether the sweep removes a node, because its socket is overdue and closes at once. */
  predicate Drops(s: State, n: Node, promptly: set<nat>) {
    n in s.nodes && s.nodes[n] < |s.conns| && s.nodes[n] in promptly && Overdue(s.conns[s.nodes[n]])
  }

  /** The state in the middle of a sweep, with the nodes of `todo` still to be visited. */
  function SweptExcept(s: State, todo: set<Node>, promptly: set<nat>): State {
    State(
      seq(|s.conns|, c requires 0 <= c < |s.conns| =>
        if Registered(s, c) && s.conns[c].nodeId.value !in todo then SweptConn(s.conns[c], c in promptly) else s.conns[c]),
      map n | n in s.nodes && (n in todo || !Drops(s, n, promptly)) :: s.nodes[n],
      map n | n in s.log :: if n !in todo && Drops(s, n, promptly) then s.log[n] + [false] else s.log[n])
  }

  function SweepStale(s: State, promptly: set<nat>): State {
    SweptExcept(s, {}, promptly)
  }

  function Apply(s: State, ev: Event): State {
    match ev
    case Connect => s.(conns := s.conns + [Conn(None, 0, false, false)])
    case Authenticate(c, n, prompt) => OnAuthenticated(s, c, n, prompt)
    case Heartbeat(c) => OnHeartbeat(s, c)
    case Close(c) => if c < |s.conns| then OnClose(s, c) else s
    case Sweep(promptly) => SweepStale(s, promptly)
  }

  function Run(s: State, evs: seq<Event>): State
    decreases evs
  {
    if evs == [] then s else Run(Apply(s, evs[0]), evs[1..])
  }

  // ---------------------------------------------------------------------------------------
  // Presence.
  // ---------------------------------------------------------------------------------------

  predicate SaysOnline(log: seq<bool>) {
    log != [] && log[|log| - 1]
  }

  /** The map holds open sockets under the node they proved to be, and the last event for a node says whether it is there. */
  ghost predicate Valid(s: State) {
    && (forall n | n in s.nodes :: s.nodes[n] < |s.conns| && !s.conns[s.nodes[n]].closed && s.conns[s.nodes[n]].nodeId == Some(n))
    && (forall n :: n in s.nodes <==> SaysOnline(LogOf(s, n)))
  }

  lemma CloseKeepsValid(s: State, c: nat)
    requires Valid(s) && c < |s.conns|
    ensures Valid(OnClose(s, c))
    ensures !Registered(OnClose(s, c), c)
  {
    var t := OnClose(s, c);
    forall n ensures n in t.nodes <==> SaysOnline(LogOf(t, n)) {
      assert n in s.nodes <==> SaysOnline(LogOf(s, n));
    }
  }

  lemma AuthenticateKeepsValid(s: State, c: nat, n: Node, prompt: bool)
    requires Valid(s)
    ensures Valid(OnAuthenticated(s, c, n, prompt))
  {
    if c < |s.conns| && !s.conns[c].closed && s.conns[c].nodeId.None? {
      var t := if n in s.nodes && prompt then OnClose(s, s.nodes[n]) else s;
      if n in s.nodes && prompt {
        CloseKeepsValid(s, s.nodes[n]);
      }
      RegisterKeepsValid(t, c, n);
    }
  }

  lemma RegisterKeepsValid(t: State, c: nat, n: Node)
    requires Valid(t) && c < |t.conns| && !t.conns[c].closed && t.conns[c].nodeId.None?
    ensures Valid(Emit(t.(conns := t.conns[c := t.conns[c].(nodeId := Some(n))], nodes := t.nodes[n := c]), n, true))
  {
    var u := Emit(t.(conns := t.conns[c := t.conns[c].(nodeId := Some(n))], nodes := t.nodes[n := c]), n, true);
    forall m ensures m in u.nodes <==> SaysOnline(LogOf(u, m)) {
      assert m in t.nodes <==> SaysOnline(LogOf(t, m));
    }
  }

  lemma SweepKeepsValid(s: State, promptly: set<nat>)
    requires Valid(s)
    ensures Valid(SweepStale(s, promptly))
  {
    var t := SweepStale(s, promptly);
    forall n ensures n in t.nodes <==> SaysOnline(LogOf(t, n)) {
      assert n in s.nodes <==> SaysOnline(LogOf(s, n));
    }
    forall n | n in t.nodes ensures t.nodes[n] < |t.conns| && !t.conns[t.nodes[n]].closed && t.conns[t.nodes[n]].nodeId == Some(n) {
      assert Registered(s, s.nodes[n]);
    }
  }

  lemma {:induction false} RunKeepsValid(s: State, evs: seq<Event>)
    requires Valid(s)
    ensures Valid(Run(s, evs)) && |Run(s, evs).conns| >= |s.conns|
    decreases evs
  {
    if evs != [] {
      StepKeepsValid(s, evs[0]);
      RunKeepsValid(Apply(s, evs[0]), evs[1..]);
    }
  }

  /**
   After every step of every run, with sockets closing at once or later, the last presence event
   emitted for a node is `true` if and only if the node is in the map, and the map leads to an
   open connection of that node.
   */
  lemma PresenceIsExact(evs: seq<Event>, steps: nat, n: Node)
    requires steps <= |evs|
    ensures var s := Run(EMPTY, evs[..steps]);
      && (n in s.nodes <==> SaysOnline(LogOf(s, n)))
      && (n in s.nodes ==> s.nodes[n] < |s.conns| && !s.conns[s.nodes[n]].closed && s.conns[s.nodes[n]].nodeId == Some(n))
  {
    RunKeepsValid(EMPTY, evs[..steps]);
  }

  lemma StepKeepsValid(s: State, ev: Event)
    requires Valid(s)
    ensures Valid(Apply(s, ev))
  {
    match ev
    case Connect => assert forall n :: LogOf(Apply(s, ev), n) == LogOf(s, n);
    case Authenticate(c, n, prompt) => AuthenticateKeepsValid(s, c, n, prompt);
    case Heartbeat(c) => assert forall n :: LogOf(Apply(s, ev), n) == LogOf(s, n);
    case Close(c) => if c < |s.conns| { CloseKeepsValid(s, c); }
    case Sweep(promptly) => SweepKeepsValid(s, promptly);
  }

  /** A node that connects and proves who it is comes online, in place of any connection it had, with no sweep held against it. */
  lemma NewConnectionComesOnline(s: State, n: Node, prompt: bool)
    requires Valid(s)
    ensures var c, t := |s.conns|, Apply(Apply(s, Connect), Authenticate(|s.conns|, n, prompt));
      && n in t.nodes && t.nodes[n] == c && c < |t.conns| && t.conns[c] == Conn(Some(n), 0, false, false)
      && SaysOnline(LogOf(t, n))
      && forall m | m != n :: LogOf(t, m) == LogOf(s, m) && (m in t.nodes <==> m in s.nodes)
  {
    var u := Apply(s, Connect);
    if n in s.nodes && prompt {
      assert Registered(u, u.nodes[n]);
    }
  }

  /** What a step adds to the presence log of a node. */
  function Emitted(s: State, ev: Event, n: Node): seq<bool> {
    match ev
    case Connect => []
    case Heartbeat(_) => []
    case Authenticate(c, m, prompt) =>
      if c >= |s.conns| || s.conns[c].closed || s.conns[c].nodeId.Some? || m != n then []
      else if n in s.nodes && prompt then [false, true]
      else [true]
    case Close(c) => if Registered(s, c) && s.conns[c].nodeId == Some(n) then [false] else []
    case Sweep(promptly) => if Drops(s, n, promptly) then [false] else []
  }

  lemma EmittedExactly(s: State, ev: Event, n: Node)
    requires Valid(s)
    ensures LogOf(Apply(s, ev), n) == LogOf(s, n) + Emitted(s, ev, n)
  {
    match ev
    case Authenticate(c, m, prompt) =>
      if m in s.nodes && prompt && c < |s.conns| && !s.conns[c].closed && s.conns[c].nodeId.None? {
        var t := OnClose(s, s.nodes[m]);
        assert Registered(s, s.nodes[m]);
        assert LogOf(t, n) == LogOf(s, n) + if m == n then [false] else [];
      }
    case _ =>
  }

  /** The connection whose departure an offline event reports. */
  predicate CausesOffline(s: State, ev: Event, c: nat) {
    match ev
    case Connect => false
    case Heartbeat(_) => false
    case Authenticate(d, n, prompt) =>
      d < |s.conns| && !s.conns[d].closed && s.conns[d].nodeId.None? && n in s.nodes && prompt && s.nodes[n] == c
    case Close(d) => d == c && Registered(s, c)
    case Sweep(promptly) => Registered(s, c) && c in promptly && Overdue(s.conns[c])
  }

  function OfflineEvents(s: State, evs: seq<Event>, c: nat): nat
    decreases evs
  {
    if evs == [] then 0
    else (if CausesOffline(s, evs[0], c) then 1 else 0) + OfflineEvents(Apply(s, evs[0]), evs[1..], c)
  }

  /** A node's offline event in a step is the departure of the connection that stood for it, and of no other. */
  lemma OfflineHasOneCause(s: State, ev: Event, n: Node)
    requires Valid(s)
    ensures false in Emitted(s, ev, n) <==> (n in s.nodes && CausesOffline(s, ev, s.nodes[n]))
    ensures forall c | CausesOffline(s, ev, c) :: Registered(s, c)
  {
    if n in s.nodes {
      assert Registered(s, s.nodes[n]);
    }
  }

  /** A connection that has been registered and is not any more. */
  predicate Gone(s: State, c: nat) {
    c < |s.conns| && s.conns[c].nodeId.Some? && !Registered(s, c)
  }

  lemma GoneStaysGone(s: State, ev: Event, c: nat)
    requires Valid(s) && Gone(s, c)
    ensures Gone(Apply(s, ev), c)
  {
  }

  lemma DepartureIsFinal(s: State, ev: Event, c: nat)
    requires Valid(s) && CausesOffline(s, ev, c)
    ensures Gone(Apply(s, ev), c)
  {
    match ev
    case Authenticate(d, n, prompt) =>
      assert Registered(s, c) && d != c;
      CloseKeepsValid(s, c);
    case Close(d) => CloseKeepsValid(s, c);
    case Sweep(promptly) =>
      var n := s.conns[c].nodeId.value;
      assert Drops(s, n, promptly);
      assert n !in SweepStale(s, promptly).nodes;
  }

  lemma {:induction false} GoneIsSilent(s: State, evs: seq<Event>, c: nat)
    requires Valid(s) && Gone(s, c)
    ensures OfflineEvents(s, evs, c) == 0
    decreases evs
  {
    if evs != [] {
      StepKeepsValid(s, evs[0]);
      GoneStaysGone(s, evs[0], c);
      GoneIsSilent(Apply(s, evs[0]), evs[1..], c);
      CauseIsRegistered(s, evs[0], c);
    }
  }

  lemma CauseIsRegistered(s: State, ev: Event, c: nat)
    requires Valid(s)
    ensures CausesOffline(s, ev, c) ==> Registered(s, c)
  {
  }

  /** Over any run each connection causes at most one offline event, even if its 'close' event fires more than once. */
  lemma {:induction false} AtMostOneOffline(s: State, evs: seq<Event>, c: nat)
    requires Valid(s)
    ensures OfflineEvents(s, evs, c) <= 1
    decreases evs
  {
    if evs != [] {
      StepKeepsValid(s, evs[0]);
      if CausesOffline(s, evs[0], c) {
        DepartureIsFinal(s, evs[0], c);
        GoneIsSilent(Apply(s, evs[0]), evs[1..], c);
      } else {
        AtMostOneOffline(Apply(s, evs[0]), evs[1..], c);
      }
    }
  }

  // ---------------------------------------------------------------------------------------
  // Heartbeats.
  // ---------------------------------------------------------------------------------------

  /** Sweeps since the last beat, after one more event. */
  function Silence(m: nat, ev: Event, c: nat): nat {
    if ev.Sweep? then m + 1 else if ev == Heartbeat(c) then 0 else m
  }

  /** Counting from `m`, the connection never lets more than three sweeps go by without a beat. */
  predicate Beats(evs: seq<Event>, c: nat, m: nat)
    decreases evs
  {
    evs == [] || (Silence(m, evs[0], c) <= MISS_LIMIT && Beats(evs[1..], c, Silence(m, evs[0], c)))
  }

  lemma {:induction false} FewerMissesBeatToo(evs: seq<Event>, c: nat, m: nat, m': nat)
    requires Beats(evs, c, m) && m' <= m
    ensures Beats(evs, c, m')
    decreases evs
  {
    if evs != [] {
      FewerMissesBeatToo(evs[1..], c, Silence(m, evs[0], c), Silence(m', evs[0], c));
    }
  }

  lemma SilenceBounds(s: State, ev: Event, c: nat)
    requires Valid(s) && c < |s.conns| && s.conns[c].nodeId.Some? && !s.conns[c].closed
    ensures c < |Apply(s, ev).conns| && Apply(s, ev).conns[c].nodeId == s.conns[c].nodeId
    ensures Apply(s, ev).conns[c].missed <= Silence(s.conns[c].missed, ev, c)
    ensures Apply(s, ev).conns[c].timedOut ==> s.conns[c].timedOut || Silence(s.conns[c].missed, ev, c) > MISS_LIMIT
  {
  }

  lemma ClosedStep(s: State, ev: Event, c: nat)
    requires Valid(s) && c < |s.conns| && s.conns[c].closed
    ensures c < |Apply(s, ev).conns| && Apply(s, ev).conns[c] == s.conns[c]
  {
    assert !Registered(s, c);
  }

  lemma {:induction false} ClosedIsLeftAlone(s: State, evs: seq<Event>, c: nat)
    requires Valid(s) && c < |s.conns| && s.conns[c].closed
    ensures c < |Run(s, evs).conns| && Run(s, evs).conns[c] == s.conns[c]
    decreases evs
  {
    if evs != [] {
      StepKeepsValid(s, evs[0]);
      ClosedStep(s, evs[0], c);
      ClosedIsLeftAlone(Apply(s, evs[0]), evs[1..], c);
    }
  }

  /** A node that beats at least once every three sweeps is never closed by the sweep, whatever else happens. */
  lemma {:induction false} BeatingIsNeverClosed(s: State, evs: seq<Event>, c: nat)
    requires Valid(s) && c < |s.conns| && s.conns[c].nodeId.Some?
    requires Beats(evs, c, s.conns[c].missed)
    ensures c < |Run(s, evs).conns| && Run(s, evs).conns[c].timedOut == s.conns[c].timedOut
    decreases evs
  {
    if s.conns[c].closed {
      ClosedIsLeftAlone(s, evs, c);
    } else if evs != [] {
      var t := Apply(s, evs[0]);
      StepKeepsValid(s, evs[0]);
      SilenceBounds(s, evs[0], c);
      TimedOutStays(s, evs[0], c);
      FewerMissesBeatToo(evs[1..], c, Silence(s.conns[c].missed, evs[0], c), t.conns[c].missed);
      BeatingIsNeverClosed(t, evs[1..], c);
    }
  }

  lemma TimedOutStays(s: State, ev: Event, c: nat)
    requires c < |s.conns|
    ensures c < |Apply(s, ev).conns| && (s.conns[c].timedOut ==> Apply(s, ev).conns[c].timedOut)
  {
  }

  lemma {:induction false} TimedOutStaysOverRuns(s: State, evs: seq<Event>, c: nat)
    requires c < |s.conns| && s.conns[c].timedOut
    ensures c < |Run(s, evs).conns| && Run(s, evs).conns[c].timedOut
    decreases evs
  {
    if evs != [] {
      TimedOutStays(s, evs[0], c);
      TimedOutStaysOverRuns(Apply(s, evs[0]), evs[1..], c);
    }
  }

  /** Nobody else authenticates as the node, and the socket does not close by itself. */
  predicate Undisturbed(evs: seq<Event>, c: nat, n: Node) {
    forall ev | ev in evs :: ev != Close(c) && (ev.Authenticate? ==> ev.node != n)
  }

  lemma OthersLeaveItAlone(s: State, ev: Event, c: nat, n: Node)
    requires Valid(s) && Registered(s, c) && s.conns[c].nodeId == Some(n)
    requires (ev.Authenticate? && ev.node != n) || (ev.Close? && ev.conn != c)
    ensures c < |Apply(s, ev).conns| && Apply(s, ev).conns[c] == s.conns[c] && Registered(Apply(s, ev), c)
  {
  }

  lemma UndisturbedStep(s: State, ev: Event, c: nat, n: Node)
    requires Valid(s) && Registered(s, c) && s.conns[c].nodeId == Some(n)
    requires ev != Close(c) && (ev.Authenticate? ==> ev.node != n)
    ensures c < |Apply(s, ev).conns| && Apply(s, ev).conns[c].nodeId == Some(n)
    ensures Apply(s, ev).conns[c].missed == Silence(s.conns[c].missed, ev, c)
    ensures Apply(s, ev).conns[c].timedOut || Registered(Apply(s, ev), c)
    ensures ev.Sweep? && Apply(s, ev).conns[c].missed > MISS_LIMIT ==> Apply(s, ev).conns[c].timedOut
  {
    if ev.Authenticate? || ev.Close? {
      OthersLeaveItAlone(s, ev, c, n);
    }
  }

  /** A registered connection that is left undisturbed is closed by the sweep if and only if it falls silent. */
  lemma {:induction false} ClosedExactlyWhenSilent(s: State, evs: seq<Event>, c: nat, n: Node)
    requires Valid(s) && Registered(s, c) && s.conns[c].nodeId == Some(n) && !s.conns[c].timedOut
    requires s.conns[c].missed <= MISS_LIMIT && Undisturbed(evs, c, n)
    ensures c < |Run(s, evs).conns| && (Run(s, evs).conns[c].timedOut <==> !Beats(evs, c, s.conns[c].missed))
    decreases evs
  {
    if Beats(evs, c, s.conns[c].missed) {
      BeatingIsNeverClosed(s, evs, c);
    } else {
      assert evs[0] in evs;
      assert forall ev | ev in evs[1..] :: ev in evs;
      var t := Apply(s, evs[0]);
      StepKeepsValid(s, evs[0]);
      UndisturbedStep(s, evs[0], c, n);
      TimedOutStays(s, evs[0], c);
      if t.conns[c].timedOut {
        TimedOutStaysOverRuns(t, evs[1..], c);
      } else {
        ClosedExactlyWhenSilent(t, evs[1..], c, n);
      }
    }
  }

  function Sweeps(evs: seq<Event>): nat {
    if evs == [] then 0 else (if evs[0].Sweep? then 1 else 0) + Sweeps(evs[1..])
  }

  lemma {:induction false} SilentCounting(evs: seq<Event>, c: nat, m: nat)
    requires Heartbeat(c) !in evs && m <= MISS_LIMIT
    ensures Beats(evs, c, m) <==> m + Sweeps(evs) <= MISS_LIMIT
    decreases evs
  {
    if evs != [] && Silence(m, evs[0], c) <= MISS_LIMIT {
      assert evs == [evs[0]] + evs[1..];
      SilentCounting(evs[1..], c, Silence(m, evs[0], c));
    }
  }

  /** A fresh connection that never beats is closed on the fourth sweep: not before, and not later. */
  lemma SilentIsClosedOnTheFourth(s: State, evs: seq<Event>, c: nat, n: Node)
    requires Valid(s) && Registered(s, c) && s.conns[c] == Conn(Some(n), 0, false, false)
    requires Undisturbed(evs, c, n) && Heartbeat(c) !in evs
    ensures c < |Run(s, evs).conns| && (Run(s, evs).conns[c].timedOut <==> Sweeps(evs) >= 4)
  {
    SilentCounting(evs, c, 0);
    ClosedExactlyWhenSilent(s, evs, c, n);
  }

  // ---------------------------------------------------------------------------------------
  // The sweep as a loop over the nodes.
  // ---------------------------------------------------------------------------------------

  /** One turn of the sweep's loop. */
  function MissOne(s: State, n: Node, promptly: bool): State
    requires n in s.nodes && s.nodes[n] < |s.conns|
  {
    var c := s.nodes[n];
    var k := s.conns[c];
    var t := s.(conns := s.conns[c := k.(missed := k.missed + 1, timedOut := k.timedOut || Overdue(k))]);
    if Overdue(k) && promptly then OnClose(t, c) else t
  }

  lemma SweptBegins(s: State, promptly: set<nat>)
    ensures SweptExcept(s, s.nodes.Keys, promptly) == s
  {
    var t := SweptExcept(s, s.nodes.Keys, promptly);
    assert t.conns == s.conns;
    assert t.nodes == s.nodes;
    assert t.log == s.log;
  }

  lemma MissOneExact(s: State, n: Node, promptly: bool)
    requires n in s.nodes && s.nodes[n] < |s.conns| && s.conns[s.nodes[n]].nodeId == Some(n)
    ensures var t := MissOne(s, n, promptly);
      var drop := Overdue(s.conns[s.nodes[n]]) && promptly;
      && t.conns == s.conns[s.nodes[n] := SweptConn(s.conns[s.nodes[n]], promptly)]
      && t.nodes == (if drop then s.nodes - {n} else s.nodes)
      && t.log == (if drop then s.log[n := LogOf(s, n) + [false]] else s.log)
  {
  }

  /** What the sweep relies on: the map leads to connections of the node, whose log has begun. */
  predicate Wired(s: State) {
    forall n | n in s.nodes :: s.nodes[n] < |s.conns| && s.conns[s.nodes[n]].nodeId == Some(n) && n in s.log
  }

  lemma ValidIsWired(s: State)
    requires Valid(s)
    ensures Wired(s)
  {
    forall n | n in s.nodes ensures n in s.log {
      assert SaysOnline(LogOf(s, n));
    }
  }

  lemma SweptConns(s: State, todo: set<Node>, n: Node, promptly: set<nat>)
    requires Wired(s) && todo <= s.nodes.Keys && n in todo
    ensures var t, c := SweptExcept(s, todo, promptly), s.nodes[n];
      t.conns[c := SweptConn(t.conns[c], c in promptly)] == SweptExcept(s, todo - {n}, promptly).conns
  {
    var c := s.nodes[n];
    var t, v := SweptExcept(s, todo, promptly), SweptExcept(s, todo - {n}, promptly);
    var u := t.conns[c := SweptConn(t.conns[c], c in promptly)];
    assert Registered(s, c) && t.conns[c] == s.conns[c];
    forall d | 0 <= d < |s.conns| ensures u[d] == v.conns[d] {
      if d != c && Registered(s, d) {
        assert s.conns[d].nodeId.value != n;
      }
    }
  }

  lemma SweptNodes(s: State, todo: set<Node>, n: Node, promptly: set<nat>)
    requires n in todo
    ensures var t := SweptExcept(s, todo, promptly).nodes;
      SweptExcept(s, todo - {n}, promptly).nodes == if Drops(s, n, promptly) then t - {n} else t
  {
  }

  lemma SweptLog(s: State, todo: set<Node>, n: Node, promptly: set<nat>)
    requires n in todo && n in s.log
    ensures var t := SweptExcept(s, todo, promptly);
      SweptExcept(s, todo - {n}, promptly).log == if Drops(s, n, promptly) then t.log[n := LogOf(t, n) + [false]] else t.log
  {
  }

  /** Each node is visited once, and the visits do not disturb each other. */
  lemma SweptStep(s: State, todo: set<Node>, n: Node, promptly: set<nat>)
    requires Wired(s) && todo <= s.nodes.Keys && n in todo
    ensures var t := SweptExcept(s, todo, promptly);
      && n in t.nodes && t.nodes[n] == s.nodes[n] < |t.conns|
      && MissOne(t, n, s.nodes[n] in promptly) == SweptExcept(s, todo - {n}, promptly)
  {
    assert Registered(s, s.nodes[n]);
    MissOneExact(SweptExcept(s, todo, promptly), n, s.nodes[n] in promptly);
    SweptConns(s, todo, n, promptly);
    SweptNodes(s, todo, n, promptly);
    SweptLog(s, todo, n, promptly);
  }
}

module HubPresenceImpl {
  import opened Options
  import opened HubPresence

  /** The presence half of the Hub, updated in place. */
  class Hub {
    var conns: seq<Conn>
    var nodes: map<Node, nat>
    var log: map<Node, seq<bool>>

    ghost function Contents(): State
      reads this
    {
      State(conns, nodes, log)
    }

    constructor ()
      ensures Contents() == EMPTY && Valid(Contents())
    {
      conns := [];
      nodes := map[];
      log := map[];
    }

    method OnPresence(n: Node, online: bool)
      modifies this`log
      ensures Contents() == Emit(old(Contents()), n, online)
    {
      log := log[n := (if n in log then log[n] else []) + [online]];
    }

    method HandleConnection() returns (c: nat)
      requires Valid(Contents())
      modifies this
      ensures Contents() == Apply(old(Contents()), Connect) && Valid(Contents())
      ensures c == |old(conns)|
    {
      StepKeepsValid(Contents(), Connect);
      c := |conns|;
      conns := conns + [Conn(None, 0, false, false)];
    }

    method HandleClose(c: nat)
      requires c < |conns|
      modifies this
      ensures Contents() == OnClose(old(Contents()), c)
    {
      var id := conns[c].nodeId;
      conns := conns[c := conns[c].(closed := true)];
      if id.Some? && id.value in nodes && nodes[id.value] == c {
        nodes := nodes - {id.value};
        OnPresence(id.value, false);
      }
    }

    /** The tail of `_handlePreAuth`, once the signature over the nonce has been verified. */
    method Welcome(c: nat, n: Node, prompt: bool)
      requires Valid(Contents()) && c < |conns| && !conns[c].closed && conns[c].nodeId.None?
      modifies this
      ensures Contents() == OnAuthenticated(old(Contents()), c, n, prompt) && Valid(Contents())
    {
      AuthenticateKeepsValid(Contents(), c, n, prompt);
      if n in nodes && prompt {
        HandleClose(nodes[n]);
      }
      conns := conns[c := conns[c].(nodeId := Some(n))];
      nodes := nodes[n := c];
      OnPresence(n, true);
    }

    method HandleHeartbeat(c: nat)
      requires Valid(Contents()) && c < |conns| && !conns[c].closed && conns[c].nodeId.Some?
      modifies this`conns
      ensures Contents() == OnHeartbeat(old(Contents()), c) && Valid(Contents())
    {
      StepKeepsValid(Contents(), Heartbeat(c));
      conns := conns[c := conns[c].(missed := 0)];
    }

    method CountMiss(n: Node, promptly: set<nat>)
      requires n in nodes && nodes[n] < |conns|
      modifies this
      ensures Contents() == MissOne(old(Contents()), n, old(nodes)[n] in promptly)
    {
      var c := nodes[n];
      conns := conns[c := conns[c].(missed := conns[c].missed + 1)];
      if conns[c].missed > MISS_LIMIT {
        conns := conns[c := conns[c].(timedOut := true)];
        if c in promptly {
          HandleClose(c);
        }
      }
    }

    method Visit(n: Node, promptly: set<nat>, ghost s: State, ghost todo: set<Node>)
      requires Wired(s) && todo <= s.nodes.Keys && n in todo && Contents() == SweptExcept(s, todo, promptly)
      modifies this
      ensures Contents() == SweptExcept(s, todo - {n}, promptly)
    {
      SweptStep(s, todo, n, promptly);
      CountMiss(n, promptly);
    }

    /** The sweep may meet the nodes in any order. */
    method CountMisses(promptly: set<nat>)
      requires Wired(Contents())
      modifies this
      ensures Contents() == HubPresence.SweepStale(old(Contents()), promptly)
    {
      ghost var s := Contents();
      var todo := nodes.Keys;
      SweptBegins(s, promptly);
      while todo != {}
        invariant todo <= s.nodes.Keys
        invariant Contents() == SweptExcept(s, todo, promptly)
        decreases |todo|
      {
        var n :| n in todo;
        Visit(n, promptly, s, todo);
        todo := todo - {n};
      }
    }

    method SweepStale(promptly: set<nat>)
      requires Valid(Contents())
      modifies this
      ensures Contents() == HubPresence.SweepStale(old(Contents()), promptly) && Valid(Contents())
    {
      ValidIsWired(Contents());
      SweepKeepsValid(Contents(), promptly);
      CountMisses(promptly);
    }
  }
}
