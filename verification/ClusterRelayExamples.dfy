/** Concrete runs in which an instance ends up wrong about a node, one for each hypothesis of ClusterRelay. */
module ClusterRelayExamples {
  import opened ClusterRelay

  /**
   `Full` asks for the hypotheses as they stand; `Lossy` lets publishes get lost; `Hasty` lets a
   node connect elsewhere while its last instance still has news of it to publish.
   */
  datatype Rule = Full | Lossy | Hasty

  predicate Allowed(rule: Rule, s: State, ev: Event) {
    match rule
    case Full => Obeys(s, ev)
    case Lossy => ev.Lose? || Obeys(s, ev)
    case Hasty => !ev.Lose? && (ev.Connect? ==> forall j | j in s.insts && j != ev.inst :: ev.node !in s.insts[j].hub)
  }

  predicate AllAllowed(rule: Rule, s: State, evs: seq<Event>)
    decreases evs
  {
    evs == [] || (Allowed(rule, s, evs[0]) && AllAllowed(rule, Apply(s, evs[0]), evs[1..]))
  }

  ghost predicate Reaches(rule: Rule, s: State, u: State) {
    exists evs :: AllAllowed(rule, s, evs) && Run(s, evs) == u
  }

  lemma Here(rule: Rule, s: State)
    ensures Reaches(rule, s, s)
  {
    assert AllAllowed(rule, s, []) && Run(s, []) == s;
  }

  lemma Via(rule: Rule, s: State, ev: Event, u: State, w: State)
    requires Allowed(rule, s, ev) && Apply(s, ev) == u && Reaches(rule, u, w)
    ensures Reaches(rule, s, w)
  {
    var rest :| AllAllowed(rule, u, rest) && Run(u, rest) == w;
    assert ([ev] + rest)[1..] == rest;
    assert AllAllowed(rule, s, [ev] + rest) && Run(s, [ev] + rest) == w;
  }

  const NEW := Instance({}, [], false, false, map[], [])
  const LISTENING := NEW.(subscribed := true)

  function Pair(a: Instance, b: Instance, taught: set<(Inst, Inst)>): State {
    State(map[0 := a, 1 := b], taught)
  }

  lemma PairUpdates(a: Instance, b: Instance, c: Instance)
    ensures map[0 := a, 1 := b][0 := c] == map[0 := c, 1 := b]
    ensures map[0 := a, 1 := b][1 := c] == map[0 := a, 1 := c]
  {
  }

  lemma PairHears(a: Instance, b: Instance, m: Msg)
    ensures Broadcast(map[0 := a, 1 := b], m) == map[0 := Receive(a, m), 1 := Receive(b, m)]
  {
  }

  /** A step of instance `i` that publishes nothing. */
  lemma PairSteps(a: Instance, b: Instance, taught: set<(Inst, Inst)>, ev: Event, c: Instance)
    requires !ev.Start? && !ev.Publish? && !ev.Deliver? && ev.inst <= 1
    requires var k := if ev.inst == 0 then a else b;
      && (ev.Subscribe? ==> c == k.(subscribed := true))
      && (ev.AskAround? ==> k.subscribed && !k.asked && c == k.(asked := true, outbox := k.outbox + [Ask(ev.inst)]))
      && (ev.Connect? ==> c == k.(hub := k.hub + {ev.node}, outbox := k.outbox + [Presence(ev.inst, ev.node, true)]))
      && (ev.Disconnect? ==> ev.node in k.hub && c == k.(hub := k.hub - {ev.node}, outbox := k.outbox + [Presence(ev.inst, ev.node, false)]))
      && (ev.Lose? ==> k.outbox != [] && c == k.(outbox := k.outbox[1..]))
    ensures Apply(Pair(a, b, taught), ev) == if ev.inst == 0 then Pair(c, b, taught) else Pair(a, c, taught)
  {
    PairUpdates(a, b, c);
  }

  lemma PairPublishes(a: Instance, b: Instance, taught: set<(Inst, Inst)>, i: Inst)
    requires i <= 1 && (if i == 0 then a else b).outbox != []
    ensures var k := if i == 0 then a else b;
      var rest := k.(outbox := k.outbox[1..]);
      Apply(Pair(a, b, taught), Publish(i)) ==
      if i == 0 then Pair(Receive(rest, k.outbox[0]), Receive(b, k.outbox[0]), taught)
      else Pair(Receive(a, k.outbox[0]), Receive(rest, k.outbox[0]), taught)
  {
    var k := if i == 0 then a else b;
    var rest := k.(outbox := k.outbox[1..]);
    PairUpdates(a, b, rest);
    if i == 0 { PairHears(rest, b, k.outbox[0]); } else { PairHears(a, rest, k.outbox[0]); }
  }

  lemma PairDelivers(a: Instance, b: Instance, taught: set<(Inst, Inst)>)
    requires b.inbox != [] && Answer(b.inbox[0], 1, b.hub) == []
    ensures Apply(Pair(a, b, taught), Deliver(1)) ==
      Pair(a, b.(inbox := b.inbox[1..], remoteOwner := Handle(b.remoteOwner, b.inbox[0], 1)), taught)
  {
    var c := b.(inbox := b.inbox[1..], remoteOwner := Handle(b.remoteOwner, b.inbox[0], 1));
    PairUpdates(a, b, c);
    assert b.outbox + [] == b.outbox;
    assert taught + {} == taught;
  }

  // ---- Two instances that start together: the request of one is published before the other subscribes.

  const MISSED := Pair(Instance({5}, [], true, false, map[], []), Instance({}, [], true, true, map[], []), {})

  lemma MissedFromAsking()
    ensures Reaches(Full, Pair(NEW.(hub := {5}), LISTENING, {}), MISSED)
  {
    var holder := NEW.(hub := {5});
    var asked := LISTENING.(asked := true);
    var asking, hearing := asked.(outbox := [Ask(1)]), asked.(inbox := [Ask(1)]);
    assert [Ask(1)][1..] == [] && [] + [Ask(1)] == [Ask(1)];
    Here(Full, MISSED);
    PairSteps(holder, asked, {}, Subscribe(0), MISSED.insts[0]);
    Via(Full, Pair(holder, asked, {}), Subscribe(0), MISSED, MISSED);
    PairDelivers(holder, hearing, {});
    Via(Full, Pair(holder, hearing, {}), Deliver(1), Pair(holder, asked, {}), MISSED);
    PairPublishes(holder, asking, {}, 1);
    Via(Full, Pair(holder, asking, {}), Publish(1), Pair(holder, hearing, {}), MISSED);
    PairSteps(holder, LISTENING, {}, AskAround(1), asking);
    Via(Full, Pair(holder, LISTENING, {}), AskAround(1), Pair(holder, asking, {}), MISSED);
  }

  function Single(a: Instance): State {
    State(map[0 := a], {})
  }

  lemma SingleSteps(x: Node)
    ensures Apply(EMPTY, Start(0)) == Single(NEW)
    ensures Apply(Single(NEW), Connect(0, x)) == Single(NEW.(hub := {x}, outbox := [Presence(0, x, true)]))
    ensures Apply(Single(NEW.(hub := {x}, outbox := [Presence(0, x, true)])), Publish(0)) == Single(NEW.(hub := {x}))
    ensures Apply(Single(NEW.(hub := {x})), Start(1)) == Pair(NEW.(hub := {x}), NEW, {})
  {
    var on := Presence(0, x, true);
    var busy := NEW.(hub := {x}, outbox := [on]);
    assert Apply(EMPTY, Start(0)).taught == {};
    assert [] + [on] == [on] && {} + {x} == {x} && [on][1..] == [];
    assert map[0 := NEW][0 := busy] == map[0 := busy];
    assert map[0 := busy][0 := NEW.(hub := {x})] == map[0 := NEW.(hub := {x})];
    assert Broadcast(map[0 := NEW.(hub := {x})], on) == map[0 := NEW.(hub := {x})];
    assert Apply(Single(NEW.(hub := {x})), Start(1)).taught == {};
    assert map[0 := NEW.(hub := {x})][1 := NEW] == map[0 := NEW.(hub := {x}), 1 := NEW];
  }

  lemma MissedFromStart()
    ensures Reaches(Full, EMPTY, MISSED)
  {
    var holder := NEW.(hub := {5});
    var busy := holder.(outbox := [Presence(0, 5, true)]);
    SingleSteps(5);
    MissedFromAsking();
    PairSteps(holder, NEW, {}, Subscribe(1), LISTENING);
    Via(Full, Pair(holder, NEW, {}), Subscribe(1), Pair(holder, LISTENING, {}), MISSED);
    Via(Full, Single(holder), Start(1), Pair(holder, NEW, {}), MISSED);
    Via(Full, Single(busy), Publish(0), Single(holder), MISSED);
    Via(Full, Single(NEW), Connect(0, 5), Single(busy), MISSED);
    Via(Full, EMPTY, Start(0), Single(NEW), MISSED);
  }

  /**
   Both instances are up, both have subscribed, nothing is under way and every hypothesis holds,
   yet instance 1 takes node 5 to be offline: instance 0 never saw its request.
   */
  lemma ConcurrentStartIsMissed()
    ensures exists evs :: AllAllowed(Full, EMPTY, evs) && Run(EMPTY, evs) == MISSED
    ensures Caught(MISSED, 1) && 5 in MISSED.insts[0].hub && !IsOnline(MISSED.insts[1], 5) && !Informed(MISSED, 1)
  {
    MissedFromStart();
  }

  // ---- A lost publish.

  const STALE := Pair(NEW, LISTENING.(remoteOwner := map[5 := 0]), {(1, 0)})

  const PRESENT := Pair(NEW.(hub := {5}), LISTENING.(remoteOwner := map[5 := 0]), {(1, 0)})

  lemma StaleFromPresent()
    ensures Reaches(Lossy, PRESENT, STALE)
  {
    var t := {(1, 0)};
    var off := Presence(0, 5, false);
    var knows, leaving := LISTENING.(remoteOwner := map[5 := 0]), NEW.(outbox := [off]);
    assert [off][1..] == [] && [] + [off] == [off] && {5} - {5} == {};
    Here(Lossy, STALE);
    PairSteps(leaving, knows, t, Lose(0), NEW);
    Via(Lossy, Pair(leaving, knows, t), Lose(0), STALE, STALE);
    PairSteps(NEW.(hub := {5}), knows, t, Disconnect(0, 5), leaving);
    Via(Lossy, PRESENT, Disconnect(0, 5), Pair(leaving, knows, t), STALE);
  }

  const JOINING := NEW.(hub := {5}, outbox := [Presence(0, 5, true)])

  lemma StaleFromJoining()
    ensures Reaches(Lossy, Pair(JOINING, LISTENING, {(1, 0)}), STALE)
  {
    var t := {(1, 0)};
    var on := Presence(0, 5, true);
    var hearing, holder := LISTENING.(inbox := [on]), NEW.(hub := {5});
    assert [on][1..] == [] && [] + [on] == [on];
    StaleFromPresent();
    PairDelivers(holder, hearing, t);
    Via(Lossy, Pair(holder, hearing, t), Deliver(1), PRESENT, STALE);
    PairPublishes(JOINING, LISTENING, t, 0);
    Via(Lossy, Pair(JOINING, LISTENING, t), Publish(0), Pair(holder, hearing, t), STALE);
  }

  lemma IdleSteps()
    ensures Apply(EMPTY, Start(1)) == State(map[1 := NEW], {})
    ensures Apply(State(map[1 := NEW], {}), Subscribe(1)) == State(map[1 := LISTENING], {})
    ensures Apply(State(map[1 := LISTENING], {}), Start(0)) == Pair(NEW, LISTENING, {(1, 0)})
  {
    assert Apply(EMPTY, Start(1)).taught == {};
    assert map[1 := NEW][1 := LISTENING] == map[1 := LISTENING];
    assert map[1 := LISTENING][0 := NEW] == map[0 := NEW, 1 := LISTENING];
    assert Apply(State(map[1 := LISTENING], {}), Start(0)).taught == {(1, 0)};
  }

  lemma StaleFromStart()
    ensures Reaches(Lossy, EMPTY, STALE)
  {
    var idle := Pair(NEW, LISTENING, {(1, 0)});
    assert {} + {5} == {5} && [] + [Presence(0, 5, true)] == [Presence(0, 5, true)];
    StaleFromJoining();
    PairSteps(NEW, LISTENING, {(1, 0)}, Connect(0, 5), JOINING);
    Via(Lossy, idle, Connect(0, 5), Pair(JOINING, LISTENING, {(1, 0)}), STALE);
    IdleSteps();
    Via(Lossy, State(map[1 := LISTENING], {}), Start(0), idle, STALE);
    Via(Lossy, State(map[1 := NEW], {}), Subscribe(1), State(map[1 := LISTENING], {}), STALE);
    Via(Lossy, EMPTY, Start(1), State(map[1 := NEW], {}), STALE);
  }

  /** A lost disconnect leaves the node online for ever, though the other instance has been taught. */
  lemma LostPublishLeavesAStaleOwner()
    ensures exists evs :: AllAllowed(Lossy, EMPTY, evs) && Run(EMPTY, evs) == STALE
    ensures Caught(STALE, 1) && Informed(STALE, 1) && IsOnline(STALE.insts[1], 5) && forall p | p in STALE.insts :: 5 !in STALE.insts[p].hub
  {
    StaleFromStart();
  }

  // ---- A node that moves faster than its instances publish.

  function Trio(a: Instance, b: Instance, c: Instance): State {
    State(map[0 := a, 1 := b, 2 := c], {(2, 0), (2, 1)})
  }

  const ON0 := Presence(0, 5, true)
  const ON1 := Presence(1, 5, true)
  const OFF1 := Presence(1, 5, false)
  const HOLDER := NEW.(hub := {5})
  const FORGOTTEN := Trio(HOLDER, NEW, LISTENING.(inbox := [ON0, ON1, OFF1]))

  lemma TrioUpdates(a: Instance, b: Instance, c: Instance, d: Instance)
    ensures map[0 := a, 1 := b, 2 := c][0 := d] == map[0 := d, 1 := b, 2 := c]
    ensures map[0 := a, 1 := b, 2 := c][1 := d] == map[0 := a, 1 := d, 2 := c]
  {
  }

  lemma TrioHears(a: Instance, b: Instance, c: Instance, m: Msg)
    requires !a.subscribed && !b.subscribed && c.subscribed
    ensures Broadcast(map[0 := a, 1 := b, 2 := c], m) == map[0 := a, 1 := b, 2 := c.(inbox := c.inbox + [m])]
  {
  }

  lemma Moves()
    ensures Apply(Trio(NEW, NEW, LISTENING), Connect(1, 5)) == Trio(NEW, HOLDER.(outbox := [ON1]), LISTENING)
    ensures Apply(Trio(NEW, HOLDER.(outbox := [ON1]), LISTENING), Disconnect(1, 5)) == Trio(NEW, NEW.(outbox := [ON1, OFF1]), LISTENING)
    ensures Apply(Trio(NEW, NEW.(outbox := [ON1, OFF1]), LISTENING), Connect(0, 5))
            == Trio(HOLDER.(outbox := [ON0]), NEW.(outbox := [ON1, OFF1]), LISTENING)
  {
    assert {} + {5} == {5} && {5} - {5} == {};
    assert [] + [ON1] == [ON1] && [ON1] + [OFF1] == [ON1, OFF1] && [] + [ON0] == [ON0];
    TrioUpdates(NEW, NEW, LISTENING, HOLDER.(outbox := [ON1]));
    TrioUpdates(NEW, HOLDER.(outbox := [ON1]), LISTENING, NEW.(outbox := [ON1, OFF1]));
    TrioUpdates(NEW, NEW.(outbox := [ON1, OFF1]), LISTENING, HOLDER.(outbox := [ON0]));
  }

  lemma TrioPublishes(a: Instance, b: Instance, c: Instance, i: Inst)
    requires i <= 1 && (if i == 0 then a else b).outbox != [] && !a.subscribed && !b.subscribed && c.subscribed
    ensures var k := if i == 0 then a else b;
      var rest, hears := k.(outbox := k.outbox[1..]), c.(inbox := c.inbox + [k.outbox[0]]);
      Apply(Trio(a, b, c), Publish(i)) == if i == 0 then Trio(rest, b, hears) else Trio(a, rest, hears)
  {
    var k := if i == 0 then a else b;
    var rest := k.(outbox := k.outbox[1..]);
    TrioUpdates(a, b, c, rest);
    if i == 0 { TrioHears(rest, b, c, k.outbox[0]); } else { TrioHears(a, rest, c, k.outbox[0]); }
  }

  lemma ForgottenFromHome()
    ensures Reaches(Hasty, Trio(HOLDER.(outbox := [ON0]), NEW.(outbox := [ON1, OFF1]), LISTENING), FORGOTTEN)
  {
    var home, visited, left := HOLDER.(outbox := [ON0]), NEW.(outbox := [ON1, OFF1]), NEW.(outbox := [OFF1]);
    var one, two := LISTENING.(inbox := [ON0]), LISTENING.(inbox := [ON0, ON1]);
    assert [ON0][1..] == [] && [OFF1][1..] == [] && [ON1, OFF1][1..] == [OFF1];
    assert [] + [ON0] == [ON0] && [ON0] + [ON1] == [ON0, ON1] && [ON0, ON1] + [OFF1] == [ON0, ON1, OFF1];
    Here(Hasty, FORGOTTEN);
    TrioPublishes(HOLDER, left, two, 1);
    Via(Hasty, Trio(HOLDER, left, two), Publish(1), FORGOTTEN, FORGOTTEN);
    TrioPublishes(HOLDER, visited, one, 1);
    Via(Hasty, Trio(HOLDER, visited, one), Publish(1), Trio(HOLDER, left, two), FORGOTTEN);
    TrioPublishes(home, visited, LISTENING, 0);
    Via(Hasty, Trio(home, visited, LISTENING), Publish(0), Trio(HOLDER, visited, one), FORGOTTEN);
  }

  lemma ForgottenFromIdle()
    ensures Reaches(Hasty, Trio(NEW, NEW, LISTENING), FORGOTTEN)
  {
    var home, visited, visiting := HOLDER.(outbox := [ON0]), NEW.(outbox := [ON1, OFF1]), HOLDER.(outbox := [ON1]);
    Moves();
    ForgottenFromHome();
    Via(Hasty, Trio(NEW, visited, LISTENING), Connect(0, 5), Trio(home, visited, LISTENING), FORGOTTEN);
    Via(Hasty, Trio(NEW, visiting, LISTENING), Disconnect(1, 5), Trio(NEW, visited, LISTENING), FORGOTTEN);
    Via(Hasty, Trio(NEW, NEW, LISTENING), Connect(1, 5), Trio(NEW, visiting, LISTENING), FORGOTTEN);
  }

  lemma TrioStarts()
    ensures Apply(EMPTY, Start(2)) == State(map[2 := NEW], {})
    ensures Apply(State(map[2 := NEW], {}), Subscribe(2)) == State(map[2 := LISTENING], {})
    ensures Apply(State(map[2 := LISTENING], {}), Start(0)) == State(map[0 := NEW, 2 := LISTENING], {(2, 0)})
  {
    assert Apply(EMPTY, Start(2)).taught == {};
    assert map[2 := NEW][2 := LISTENING] == map[2 := LISTENING];
    assert map[2 := LISTENING][0 := NEW] == map[0 := NEW, 2 := LISTENING];
    assert Apply(State(map[2 := LISTENING], {}), Start(0)).taught == {(2, 0)};
  }

  lemma TrioStartsLast()
    ensures Apply(State(map[0 := NEW, 2 := LISTENING], {(2, 0)}), Start(1)) == Trio(NEW, NEW, LISTENING)
  {
    assert map[0 := NEW, 2 := LISTENING][1 := NEW] == map[0 := NEW, 1 := NEW, 2 := LISTENING];
    assert Apply(State(map[0 := NEW, 2 := LISTENING], {(2, 0)}), Start(1)).taught == {(2, 0), (2, 1)};
  }

  lemma ForgottenFromStart()
    ensures Reaches(Hasty, EMPTY, FORGOTTEN)
  {
    var two := State(map[0 := NEW, 2 := LISTENING], {(2, 0)});
    ForgottenFromIdle();
    TrioStartsLast();
    Via(Hasty, two, Start(1), Trio(NEW, NEW, LISTENING), FORGOTTEN);
    TrioStarts();
    Via(Hasty, State(map[2 := LISTENING], {}), Start(0), two, FORGOTTEN);
    Via(Hasty, State(map[2 := NEW], {}), Subscribe(2), State(map[2 := LISTENING], {}), FORGOTTEN);
    Via(Hasty, EMPTY, Start(2), State(map[2 := NEW], {}), FORGOTTEN);
  }

  /**
   Node 5 visits instance 1 and settles on instance 0, which publishes first: instance 2 hears
   the visit last and ends up taking the node to be offline.
   */
  lemma HastyMoveIsForgotten()
    ensures exists evs :: AllAllowed(Hasty, EMPTY, evs) && Run(EMPTY, evs) == FORGOTTEN
    ensures Informed(FORGOTTEN, 2) && 5 in FORGOTTEN.insts[0].hub
    ensures Absorb(FORGOTTEN.insts[2].remoteOwner, FORGOTTEN.insts[2].inbox, 2) == map[]
  {
    ForgottenFromStart();
    TheVisitIsHeardLast();
  }

  lemma TheVisitIsHeardLast()
    ensures Absorb(map[], [ON0, ON1, OFF1], 2) == map[]
  {
    AbsorbFirst(map[], [ON0, ON1, OFF1], [ON1, OFF1], map[5 := 0]);
    AbsorbFirst(map[5 := 0], [ON1, OFF1], [OFF1], map[5 := 1]);
    AbsorbFirst(map[5 := 1], [OFF1], [], map[]);
  }

  lemma AbsorbFirst(owner: map<Node, Inst>, ms: seq<Msg>, rest: seq<Msg>, next: map<Node, Inst>)
    requires ms != [] && ms[1..] == rest && Handle(owner, ms[0], 2) == next
    ensures Absorb(owner, ms, 2) == Absorb(next, rest, 2)
  {
  }
}
