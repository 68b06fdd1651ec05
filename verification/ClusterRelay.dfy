/**
 Presence across backend instances (backend/src/ws/clusterRelay.js). Every instance publishes the
 connects and disconnects of its own Hub, asks its peers once for a snapshot, and keeps a map of
 which other instance holds which node. The broker hands each published message to all
 instances that are subscribed by then; an `outbox` holds what an instance has sent and the
 broker has not yet taken, an `inbox` what it has not yet handled.
 */
module ClusterRelay {
  import opened Options

  type Inst = nat
  type Node = nat

  datatype Msg =
    | Presence(sender: Inst, node: Node, online: bool)
    | Ask(sender: Inst)
    | Snapshot(sender: Inst, receiver: Inst, nodes: set<Node>)

  datatype Instance = Instance(
    hub: set<Node>, outbox: seq<Msg>, subscribed: bool, asked: bool, remoteOwner: map<Node, Inst>, inbox: seq<Msg>)

  /**
   `taught` records history: the pairs (learner, teacher) where the teacher has answered the
   learner's snapshot request, or started when the learner was already subscribed.
   */
  datatype State = State(insts: map<Inst, Instance>, taught: set<(Inst, Inst)>)

  datatype Event =
    | Start(inst: Inst)
    | Subscribe(inst: Inst)
    | AskAround(inst: Inst)
    | Connect(inst: Inst, node: Node)
    | Disconnect(inst: Inst, node: Node)
    | Publish(inst: Inst)
    | Deliver(inst: Inst)
    | Lose(inst: Inst)

  const EMPTY := State(map[], {})

  function Lookup(m: map<Node, Inst>, x: Node): Option<Inst> {
    if x in m then Some(m[x]) else None
  }

  /** What one message does to the owner map of instance `self`. */
  function Handle(owner: map<Node, Inst>, m: Msg, self: Inst): map<Node, Inst> {
    match m
    case Presence(p, x, online) =>
      if p == self then owner
      else if online then owner[x := p]
      else if Lookup(owner, x) == Some(p) then owner - {x}
      else owner
    case Ask(_) => owner
    case Snapshot(p, to, nodes) => if to == self then owner + (map x | x in nodes :: p) else owner
  }

  /** What instance `self` sends back. */
  function Answer(m: Msg, self: Inst, hub: set<Node>): seq<Msg> {
    if m.Ask? && m.sender != self then [Snapshot(self, m.sender, hub)] else []
  }

  function Receive(k: Instance, m: Msg): Instance {
    if k.subscribed then k.(inbox := k.inbox + [m]) else k
  }

  function Apply(s: State, ev: Event): State {
    var i := ev.inst;
    if ev.Start? then
      if i in s.insts then s
      else State(s.insts[i := Instance({}, [], false, false, map[], [])],
                 s.taught + (set n | n in s.insts && s.insts[n].subscribed :: (n, i)))
    else if i !in s.insts then s
    else
      var k := s.insts[i];
      match ev
      case Subscribe(_) => s.(insts := s.insts[i := k.(subscribed := true)])
      case AskAround(_) =>
        if k.subscribed && !k.asked then s.(insts := s.insts[i := k.(asked := true, outbox := k.outbox + [Ask(i)])]) else s
      case Connect(_, x) =>
        s.(insts := s.insts[i := k.(hub := k.hub + {x}, outbox := k.outbox + [Presence(i, x, true)])])
      case Disconnect(_, x) =>
        if x in k.hub then
          s.(insts := s.insts[i := k.(hub := k.hub - {x}, outbox := k.outbox + [Presence(i, x, false)])])
        else s
      case Publish(_) =>
        if k.outbox == [] then s
        else s.(insts := Broadcast(s.insts[i := k.(outbox := k.outbox[1..])], k.outbox[0]))
      case Lose(_) => if k.outbox == [] then s else s.(insts := s.insts[i := k.(outbox := k.outbox[1..])])
      case Deliver(_) =>
        if k.inbox == [] then s
        else
          var m := k.inbox[0];
          State(
            s.insts[i := k.(inbox := k.inbox[1..], remoteOwner := Handle(k.remoteOwner, m, i), outbox := k.outbox + Answer(m, i, k.hub))],
            s.taught + if Answer(m, i, k.hub) != [] then {(m.sender, i)} else {})
  }

  function Broadcast(insts: map<Inst, Instance>, m: Msg): map<Inst, Instance> {
    map n | n in insts :: Receive(insts[n], m)
  }

  function Run(s: State, evs: seq<Event>): State
    decreases evs
  {
    if evs == [] then s else Run(Apply(s, evs[0]), evs[1..])
  }

  /** `wrapped.isOnline`. */
  predicate IsOnline(k: Instance, x: Node) {
    x in k.hub || x in k.remoteOwner
  }

  datatype Route = Local | Relay(owner: Inst) | Offline

  /** Where a wrapped Hub method sends a request for a node. */
  function RouteOf(k: Instance, x: Node): Route {
    if x in k.hub then Local else if x in k.remoteOwner then Relay(k.remoteOwner[x]) else Offline
  }

  // ---------------------------------------------------------------------------------------
  // One node at a time.
  // ---------------------------------------------------------------------------------------

  predicate Mentions(m: Msg, x: Node) {
    match m
    case Presence(_, y, _) => y == x
    case Ask(_) => false
    case Snapshot(_, _, nodes) => x in nodes
  }

  predicate Mentioned(ms: seq<Msg>, x: Node) {
    exists m | m in ms :: Mentions(m, x)
  }

  function HandleAt(o: Option<Inst>, m: Msg, x: Node, self: Inst): Option<Inst> {
    match m
    case Presence(p, y, online) =>
      if p == self || y != x then o else if online then Some(p) else if o == Some(p) then None else o
    case Ask(_) => o
    case Snapshot(p, to, nodes) => if to == self && x in nodes then Some(p) else o
  }

  function Fold(o: Option<Inst>, ms: seq<Msg>, x: Node, self: Inst): Option<Inst>
    decreases ms
  {
    if ms == [] then o else Fold(HandleAt(o, ms[0], x, self), ms[1..], x, self)
  }

  lemma HandleIsPointwise(owner: map<Node, Inst>, m: Msg, x: Node, self: Inst)
    ensures Lookup(Handle(owner, m, self), x) == HandleAt(Lookup(owner, x), m, x, self)
  {
  }

  lemma {:induction false} FoldConcat(o: Option<Inst>, a: seq<Msg>, b: seq<Msg>, x: Node, self: Inst)
    ensures Fold(o, a + b, x, self) == Fold(Fold(o, a, x, self), b, x, self)
    decreases a
  {
    if a == [] {
      assert a + b == b;
    } else {
      assert (a + b)[1..] == a[1..] + b;
      FoldConcat(HandleAt(o, a[0], x, self), a[1..], b, x, self);
    }
  }

  lemma FoldOne(o: Option<Inst>, a: seq<Msg>, m: Msg, x: Node, self: Inst)
    ensures Fold(o, a + [m], x, self) == HandleAt(Fold(o, a, x, self), m, x, self)
  {
    FoldConcat(o, a, [m], x, self);
    assert [m][1..] == [];
  }

  lemma {:induction false} FoldSkips(o: Option<Inst>, ms: seq<Msg>, x: Node, self: Inst)
    requires !Mentioned(ms, x)
    ensures Fold(o, ms, x, self) == o
    decreases ms
  {
    if ms != [] {
      assert ms[0] in ms && !Mentions(ms[0], x);
      assert forall m | m in ms[1..] :: m in ms;
      FoldSkips(o, ms[1..], x, self);
    }
  }

  /** What one sender teaches from nothing, it teaches whatever was believed before. */
  lemma {:induction false} FoldFromNothing(o: Option<Inst>, o': Option<Inst>, ms: seq<Msg>, x: Node, self: Inst, p: Inst)
    requires forall m | m in ms :: m.sender == p
    requires o == None || o == o'
    requires Fold(o, ms, x, self) == Some(p)
    ensures Fold(o', ms, x, self) == Some(p)
    decreases ms
  {
    if ms != [] {
      assert ms[0] in ms && ms[0].sender == p;
      assert forall m | m in ms[1..] :: m in ms;
      FoldFromNothing(HandleAt(o, ms[0], x, self), HandleAt(o', ms[0], x, self), ms[1..], x, self, p);
    }
  }

  /** What `self` will believe about `x` once it has handled its inbox and then the outbox of `p`. */
  function View(s: State, self: Inst, p: Inst, x: Node): Option<Inst>
    requires self in s.insts && p in s.insts
  {
    Fold(Lookup(s.insts[self].remoteOwner, x), s.insts[self].inbox + s.insts[p].outbox, x, self)
  }

  // ---------------------------------------------------------------------------------------
  // The invariant.
  // ---------------------------------------------------------------------------------------

  /** The instance holds the node, or still has something to publish about it. */
  predicate Active(k: Instance, x: Node) {
    x in k.hub || Mentioned(k.outbox, x)
  }

  /**
   The hypotheses: a node connects to an instance only when no other holds it or has news of it
   left to publish, and no publish is lost.
   */
  predicate Obeys(s: State, ev: Event) {
    && !ev.Lose?
    && (ev.Connect? ==> forall j | j in s.insts && j != ev.inst :: !Active(s.insts[j], ev.node))
  }

  predicate ObeysAll(s: State, evs: seq<Event>)
    decreases evs
  {
    evs == [] || (Obeys(s, evs[0]) && ObeysAll(Apply(s, evs[0]), evs[1..]))
  }

  /** Messages come from known instances; a snapshot is addressed to somebody else, and only a subscribed instance asks for one. */
  predicate Sane(s: State, m: Msg) {
    && m.sender in s.insts
    && (m.Snapshot? ==> m.sender != m.receiver)
    && (m.Ask? ==> s.insts[m.sender].subscribed)
  }

  predicate InstanceOk(s: State, i: Inst)
    requires i in s.insts
  {
    var k := s.insts[i];
    && (forall m | m in k.outbox :: m.sender == i && Sane(s, m))
    && (forall m | m in k.inbox :: Sane(s, m))
    && (!k.subscribed ==> k.inbox == [] && k.remoteOwner == map[])
    && (forall x | x in k.remoteOwner :: k.remoteOwner[x] in s.insts && k.remoteOwner[x] != i)
  }

  predicate WellFormed(s: State) {
    && (forall i | i in s.insts :: InstanceOk(s, i))
    && (forall t | t in s.taught :: t.0 in s.insts && t.1 in s.insts && s.insts[t.0].subscribed)
  }

  ghost predicate Exclusive(s: State) {
    forall i, j, x | i in s.insts && j in s.insts && i != j :: !(Active(s.insts[i], x) && Active(s.insts[j], x))
  }

  /** Somebody who knows nothing is taught nothing wrong by what the instance has left to publish. */
  ghost predicate Promises(k: Instance, p: Inst, x: Node) {
    forall self | self != p :: Fold(None, k.outbox, x, self) == Some(p) ==> x in k.hub
  }

  /** The view of a node's holder is never wrong, and is complete once the holder has taught. */
  predicate PairOk(s: State, self: Inst, p: Inst, x: Node)
    requires self in s.insts && p in s.insts
  {
    && (View(s, self, p, x) == Some(p) ==> x in s.insts[p].hub)
    && ((self, p) in s.taught && x in s.insts[p].hub ==> View(s, self, p, x) == Some(p))
  }

  ghost predicate Valid(s: State) {
    && WellFormed(s) && Exclusive(s)
    && (forall p, x | p in s.insts :: Promises(s.insts[p], p, x))
    && (forall self, p, x | self in s.insts && p in s.insts && self != p :: PairOk(s, self, p, x))
  }

  // ---------------------------------------------------------------------------------------
  // Well-formedness and exclusiveness.
  // ---------------------------------------------------------------------------------------

  /** Instances stay, and stay subscribed. */
  lemma InstancesStay(s: State, ev: Event, i: Inst)
    requires i in s.insts
    ensures i in Apply(s, ev).insts && (s.insts[i].subscribed ==> Apply(s, ev).insts[i].subscribed)
  {
  }

  lemma SaneStays(s: State, ev: Event, m: Msg)
    requires Sane(s, m)
    ensures Sane(Apply(s, ev), m)
  {
    InstancesStay(s, ev, m.sender);
  }

  /** Every message of the new outbox or inbox is an old one of that instance, or sane. */
  lemma NewMessages(s: State, ev: Event, i: Inst, m: Msg)
    requires WellFormed(s) && i in Apply(s, ev).insts
    ensures m in Apply(s, ev).insts[i].outbox ==> m.sender == i && Sane(Apply(s, ev), m)
    ensures m in Apply(s, ev).insts[i].inbox ==> Sane(Apply(s, ev), m)
  {
    if i in s.insts {
      assert InstanceOk(s, i);
      if Sane(s, m) {
        SaneStays(s, ev, m);
      }
      if ev.Publish? && ev.inst in s.insts {
        assert InstanceOk(s, ev.inst);
      }
    }
  }

  lemma NewOwners(s: State, ev: Event, i: Inst, x: Node)
    requires WellFormed(s) && i in Apply(s, ev).insts && x in Apply(s, ev).insts[i].remoteOwner
    ensures Apply(s, ev).insts[i].remoteOwner[x] in Apply(s, ev).insts && Apply(s, ev).insts[i].remoteOwner[x] != i
  {
    assert i in s.insts && InstanceOk(s, i);
    if ev == Deliver(i) && s.insts[i].inbox != [] {
      var m := s.insts[i].inbox[0];
      assert Sane(s, m);
      HandleIsPointwise(s.insts[i].remoteOwner, m, x, i);
    }
  }

  lemma StepKeepsWellFormed(s: State, ev: Event)
    requires WellFormed(s)
    ensures WellFormed(Apply(s, ev))
  {
    var t := Apply(s, ev);
    forall i | i in t.insts ensures InstanceOk(t, i) {
      forall m ensures (m in t.insts[i].outbox ==> m.sender == i && Sane(t, m)) && (m in t.insts[i].inbox ==> Sane(t, m)) {
        NewMessages(s, ev, i, m);
      }
      forall x | x in t.insts[i].remoteOwner ensures t.insts[i].remoteOwner[x] in t.insts && t.insts[i].remoteOwner[x] != i {
        NewOwners(s, ev, i, x);
      }
      if !t.insts[i].subscribed {
        NothingBeforeSubscribing(s, ev, i);
      }
    }
    TaughtIsSane(s, ev);
  }

  lemma NothingBeforeSubscribing(s: State, ev: Event, i: Inst)
    requires WellFormed(s) && i in Apply(s, ev).insts && !Apply(s, ev).insts[i].subscribed
    ensures Apply(s, ev).insts[i].inbox == [] && Apply(s, ev).insts[i].remoteOwner == map[]
  {
    if i in s.insts {
      assert InstanceOk(s, i);
    }
  }

  lemma TaughtIsSane(s: State, ev: Event)
    requires WellFormed(s)
    ensures forall u | u in Apply(s, ev).taught ::
      u.0 in Apply(s, ev).insts && u.1 in Apply(s, ev).insts && Apply(s, ev).insts[u.0].subscribed
  {
    forall u | u in Apply(s, ev).taught
      ensures u.0 in Apply(s, ev).insts && u.1 in Apply(s, ev).insts && Apply(s, ev).insts[u.0].subscribed
    {
      if u in s.taught {
        InstancesStay(s, ev, u.0);
        InstancesStay(s, ev, u.1);
      } else if ev.Deliver? {
        assert InstanceOk(s, ev.inst);
        assert Sane(s, s.insts[ev.inst].inbox[0]);
      }
    }
  }

  lemma ActiveHasCause(s: State, ev: Event, j: Inst, x: Node)
    requires j in Apply(s, ev).insts && Active(Apply(s, ev).insts[j], x)
    ensures j in s.insts && (Active(s.insts[j], x) || ev == Connect(j, x))
  {
    var k := Apply(s, ev).insts[j];
    if j in s.insts && Mentioned(k.outbox, x) {
      var m :| m in k.outbox && Mentions(m, x);
      assert m in s.insts[j].outbox ==> Mentioned(s.insts[j].outbox, x);
    }
  }

  lemma StepKeepsExclusive(s: State, ev: Event)
    requires Exclusive(s) && Obeys(s, ev)
    ensures Exclusive(Apply(s, ev))
  {
    var t := Apply(s, ev);
    forall i, j, x | i in t.insts && j in t.insts && i != j ensures !(Active(t.insts[i], x) && Active(t.insts[j], x)) {
      if Active(t.insts[i], x) && Active(t.insts[j], x) {
        ActiveHasCause(s, ev, i, x);
        ActiveHasCause(s, ev, j, x);
      }
    }
  }

  // ---------------------------------------------------------------------------------------
  // Views.
  // ---------------------------------------------------------------------------------------

  /** A belief comes from somewhere. */
  lemma {:induction false} BeliefHasSource(o: Option<Inst>, ms: seq<Msg>, x: Node, self: Inst, p: Inst)
    requires Fold(o, ms, x, self) == Some(p)
    ensures o == Some(p) || exists m | m in ms :: m.sender == p
    decreases ms
  {
    if ms != [] {
      assert ms[0] in ms;
      assert forall m | m in ms[1..] :: m in ms;
      BeliefHasSource(HandleAt(o, ms[0], x, self), ms[1..], x, self, p);
    }
  }

  /** What an event appends to the outbox of an instance that publishes nothing in it. */
  function Appended(s: State, ev: Event, p: Inst): seq<Msg>
    requires p in s.insts
  {
    if ev.inst != p then []
    else
      var k := s.insts[p];
      match ev
      case AskAround(_) => if k.subscribed && !k.asked then [Ask(p)] else []
      case Connect(_, x) => [Presence(p, x, true)]
      case Disconnect(_, x) => if x in k.hub then [Presence(p, x, false)] else []
      case Deliver(_) => if k.inbox == [] then [] else Answer(k.inbox[0], p, k.hub)
      case _ => []
  }

  lemma OutboxGrows(s: State, ev: Event, p: Inst)
    requires p in s.insts && !ev.Lose? && ev != Publish(p)
    ensures Apply(s, ev).insts[p].outbox == s.insts[p].outbox + Appended(s, ev, p)
  {
    assert s.insts[p].outbox + [] == s.insts[p].outbox;
  }

  /** An appended message is no false news about the instance's own nodes, and leaves the belief about others alone. */
  lemma AppendedIsTrue(s: State, ev: Event, p: Inst, o: Option<Inst>, x: Node, self: Inst)
    requires p in s.insts && self != p && (o == Some(p) ==> x in s.insts[p].hub)
    ensures var o' := Fold(o, Appended(s, ev, p), x, self);
      && (o' == Some(p) ==> x in Apply(s, ev).insts[p].hub)
      && (o == Some(p) && x in Apply(s, ev).insts[p].hub ==> o' == Some(p))
      && (x in Apply(s, ev).insts[p].hub && x !in s.insts[p].hub ==> o' == Some(p))
  {
    var ms := Appended(s, ev, p);
    if ms != [] {
      assert ms[1..] == [];
    }
  }

  lemma PromiseSurvivesPublishing(k: Instance, p: Inst, x: Node, self: Inst)
    requires k.outbox != [] && forall m | m in k.outbox :: m.sender == p
    requires Fold(None, k.outbox, x, self) == Some(p) ==> x in k.hub
    ensures Fold(None, k.outbox[1..], x, self) == Some(p) ==> x in k.hub
  {
    var out := k.outbox;
    assert forall m | m in out[1..] :: m in out;
    if Fold(None, out[1..], x, self) == Some(p) {
      FoldFromNothing(None, HandleAt(None, out[0], x, self), out[1..], x, self, p);
    }
  }

  lemma PromiseSurvivesAppending(s: State, ev: Event, p: Inst, x: Node, self: Inst)
    requires p in s.insts && self != p && !ev.Lose? && ev != Publish(p)
    requires Fold(None, s.insts[p].outbox, x, self) == Some(p) ==> x in s.insts[p].hub
    ensures Fold(None, Apply(s, ev).insts[p].outbox, x, self) == Some(p) ==> x in Apply(s, ev).insts[p].hub
  {
    OutboxGrows(s, ev, p);
    FoldConcat(None, s.insts[p].outbox, Appended(s, ev, p), x, self);
    AppendedIsTrue(s, ev, p, Fold(None, s.insts[p].outbox, x, self), x, self);
  }

  lemma StepKeepsPromises(s: State, ev: Event, p: Inst, x: Node)
    requires Valid(s) && Obeys(s, ev) && p in Apply(s, ev).insts
    ensures Promises(Apply(s, ev).insts[p], p, x)
  {
    if p in s.insts {
      var k := s.insts[p];
      assert InstanceOk(s, p) && Promises(k, p, x);
      forall self | self != p
        ensures Fold(None, Apply(s, ev).insts[p].outbox, x, self) == Some(p) ==> x in Apply(s, ev).insts[p].hub
      {
        assert Fold(None, k.outbox, x, self) == Some(p) ==> x in k.hub;
        if ev != Publish(p) {
          PromiseSurvivesAppending(s, ev, p, x, self);
        } else if k.outbox != [] {
          PromiseSurvivesPublishing(k, p, x, self);
        }
      }
    }
  }

  /** The part of a view that `self` has received. */
  function Heard(s: State, self: Inst, x: Node): Option<Inst>
    requires self in s.insts
  {
    Fold(Lookup(s.insts[self].remoteOwner, x), s.insts[self].inbox, x, self)
  }

  lemma ViewSplits(s: State, self: Inst, p: Inst, x: Node)
    requires self in s.insts && p in s.insts
    ensures View(s, self, p, x) == Fold(Heard(s, self, x), s.insts[p].outbox, x, self)
  {
    FoldConcat(Lookup(s.insts[self].remoteOwner, x), s.insts[self].inbox, s.insts[p].outbox, x, self);
  }

  /** Only a publication changes what has been received. */
  lemma HeardStays(s: State, ev: Event, self: Inst, x: Node)
    requires self in s.insts && !ev.Publish?
    ensures Heard(Apply(s, ev), self, x) == Heard(s, self, x)
  {
    var k := s.insts[self];
    if ev == Deliver(self) && k.inbox != [] {
      HandleIsPointwise(k.remoteOwner, k.inbox[0], x, self);
    }
  }

  lemma PublishedIsHeard(s: State, i: Inst, self: Inst, x: Node)
    requires self in s.insts && i in s.insts && s.insts[i].outbox != []
    ensures Heard(Apply(s, Publish(i)), self, x) ==
      if s.insts[self].subscribed then HandleAt(Heard(s, self, x), s.insts[i].outbox[0], x, self) else Heard(s, self, x)
  {
    FoldOne(Lookup(s.insts[self].remoteOwner, x), s.insts[self].inbox, s.insts[i].outbox[0], x, self);
  }

  /** A publication by the holder moves the head of its outbox to the inboxes of the subscribed. */
  lemma OwnPublication(s: State, p: Inst, self: Inst, x: Node)
    requires self in s.insts && p in s.insts && self != p && s.insts[p].outbox != [] && s.insts[self].subscribed
    ensures View(Apply(s, Publish(p)), self, p, x) == View(s, self, p, x)
  {
    ViewSplits(s, self, p, x);
    ViewSplits(Apply(s, Publish(p)), self, p, x);
    PublishedIsHeard(s, p, self, x);
  }

  /** A publication by somebody else is not about a node of this instance. */
  lemma OthersPublication(s: State, i: Inst, self: Inst, p: Inst, x: Node)
    requires Valid(s) && self in s.insts && p in s.insts && i in s.insts && self != p && i != p
    requires s.insts[i].outbox != []
    ensures View(Apply(s, Publish(i)), self, p, x) == Some(p) <==> View(s, self, p, x) == Some(p)
  {
    var t := Apply(s, Publish(i));
    var m := s.insts[i].outbox[0];
    ViewSplits(s, self, p, x);
    ViewSplits(t, self, p, x);
    PublishedIsHeard(s, i, self, x);
    assert InstanceOk(s, i) && m in s.insts[i].outbox && m.sender == i;
    assert t.insts[p].outbox == s.insts[p].outbox;
    if Mentions(m, x) {
      assert Active(s.insts[i], x);
      assert !Active(s.insts[p], x);
      FoldSkips(Heard(s, self, x), s.insts[p].outbox, x, self);
      FoldSkips(Heard(t, self, x), s.insts[p].outbox, x, self);
      assert PairOk(s, self, p, x);
    }
  }

  lemma PublishKeepsPair(s: State, i: Inst, self: Inst, p: Inst, x: Node)
    requires Valid(s) && self in s.insts && p in s.insts && i in s.insts && self != p && s.insts[i].outbox != []
    ensures PairOk(Apply(s, Publish(i)), self, p, x)
  {
    assert PairOk(s, self, p, x);
    if i != p {
      OthersPublication(s, i, self, p, x);
    } else if s.insts[self].subscribed {
      OwnPublication(s, p, self, x);
    } else {
      assert InstanceOk(s, self);
      StepKeepsPromises(s, Publish(p), p, x);
      ViewSplits(Apply(s, Publish(p)), self, p, x);
      assert (self, p) !in s.taught;
    }
  }

  /** All other steps of an instance only append to its outbox, or make it read on. */
  lemma StepKeepsPair(s: State, ev: Event, self: Inst, p: Inst, x: Node)
    requires Valid(s) && Obeys(s, ev) && self in s.insts && p in s.insts && self != p && !ev.Publish?
    ensures PairOk(Apply(s, ev), self, p, x)
  {
    var t := Apply(s, ev);
    assert PairOk(s, self, p, x);
    ViewSplits(s, self, p, x);
    ViewSplits(t, self, p, x);
    HeardStays(s, ev, self, x);
    OutboxGrows(s, ev, p);
    FoldConcat(Heard(s, self, x), s.insts[p].outbox, Appended(s, ev, p), x, self);
    AppendedIsTrue(s, ev, p, View(s, self, p, x), x, self);
    if (self, p) in t.taught && (self, p) !in s.taught && x in t.insts[p].hub {
      NewlyTaught(s, ev, self, p, View(s, self, p, x), x);
    }
  }

  /** Teaching is answering: the snapshot names all the teacher's nodes. */
  lemma NewlyTaught(s: State, ev: Event, self: Inst, p: Inst, o: Option<Inst>, x: Node)
    requires self in s.insts && p in s.insts && self != p
    requires (self, p) in Apply(s, ev).taught && (self, p) !in s.taught && x in Apply(s, ev).insts[p].hub
    ensures Fold(o, Appended(s, ev, p), x, self) == Some(p)
  {
    var m := s.insts[p].inbox[0];
    assert Appended(s, ev, p) == [Snapshot(p, self, s.insts[p].hub)];
    assert Appended(s, ev, p)[1..] == [];
  }

  /** A new instance knows what others promise, and has taught nobody anything wrong. */
  lemma StartKeepsPair(s: State, i: Inst, self: Inst, p: Inst, x: Node)
    requires Valid(s) && i !in s.insts && self != p
    requires self in Apply(s, Start(i)).insts && p in Apply(s, Start(i)).insts && (self == i || p == i)
    ensures PairOk(Apply(s, Start(i)), self, p, x)
  {
    var t := Apply(s, Start(i));
    ViewSplits(t, self, p, x);
    if self == i {
      assert Promises(s.insts[p], p, x);
      assert (self, p) !in t.taught;
    } else {
      var k := s.insts[self];
      assert InstanceOk(s, self);
      assert View(t, self, p, x) == Heard(s, self, x);
      if Heard(s, self, x) == Some(p) {
        BeliefHasSource(Lookup(k.remoteOwner, x), k.inbox, x, self, p);
        assert false;
      }
    }
  }

  lemma StepKeepsValid(s: State, ev: Event)
    requires Valid(s) && Obeys(s, ev)
    ensures Valid(Apply(s, ev))
  {
    var t := Apply(s, ev);
    StepKeepsWellFormed(s, ev);
    StepKeepsExclusive(s, ev);
    forall p, x | p in t.insts ensures Promises(t.insts[p], p, x) {
      StepKeepsPromises(s, ev, p, x);
    }
    forall self, p, x | self in t.insts && p in t.insts && self != p ensures PairOk(t, self, p, x) {
      StepKeepsAnyPair(s, ev, self, p, x);
    }
  }

  lemma StepKeepsAnyPair(s: State, ev: Event, self: Inst, p: Inst, x: Node)
    requires Valid(s) && Obeys(s, ev) && self != p
    requires self in Apply(s, ev).insts && p in Apply(s, ev).insts
    ensures PairOk(Apply(s, ev), self, p, x)
  {
    if self !in s.insts || p !in s.insts {
      StartKeepsPair(s, ev.inst, self, p, x);
    } else if !ev.Publish? {
      StepKeepsPair(s, ev, self, p, x);
    } else if ev.inst in s.insts && s.insts[ev.inst].outbox != [] {
      PublishKeepsPair(s, ev.inst, self, p, x);
    } else {
      assert PairOk(s, self, p, x);
    }
  }

  /** As long as nothing is lost, the hypothesis on where a node connects is exact. */
  lemma ConnectsExactly(s: State, ev: Event)
    requires Valid(s) && !ev.Lose? && (ev.Connect? ==> ev.inst in s.insts)
    ensures Valid(Apply(s, ev)) <==> Obeys(s, ev)
  {
    if Obeys(s, ev) {
      StepKeepsValid(s, ev);
    } else {
      var j :| j in s.insts && j != ev.inst && Active(s.insts[j], ev.node);
      var t := Apply(s, ev);
      assert t.insts[j] == s.insts[j] && ev.node in t.insts[ev.inst].hub;
      assert Active(t.insts[j], ev.node) && Active(t.insts[ev.inst], ev.node);
    }
  }

  lemma {:induction false} RunKeepsValid(s: State, evs: seq<Event>)
    requires Valid(s) && ObeysAll(s, evs)
    ensures Valid(Run(s, evs))
    decreases evs
  {
    if evs != [] {
      StepKeepsValid(s, evs[0]);
      RunKeepsValid(Apply(s, evs[0]), evs[1..]);
    }
  }

  // ---------------------------------------------------------------------------------------
  // What instances believe.
  // ---------------------------------------------------------------------------------------

  /** The owner map after handling a list of messages. */
  function Absorb(owner: map<Node, Inst>, ms: seq<Msg>, self: Inst): map<Node, Inst>
    decreases ms
  {
    if ms == [] then owner else Absorb(Handle(owner, ms[0], self), ms[1..], self)
  }

  lemma {:induction false} AbsorbIsFold(owner: map<Node, Inst>, ms: seq<Msg>, x: Node, self: Inst)
    ensures Lookup(Absorb(owner, ms, self), x) == Fold(Lookup(owner, x), ms, x, self)
    decreases ms
  {
    if ms != [] {
      HandleIsPointwise(owner, ms[0], x, self);
      AbsorbIsFold(Handle(owner, ms[0], self), ms[1..], x, self);
    }
  }

  /** The snapshot exchange of an instance is done: every other instance has taught it. */
  predicate Informed(s: State, self: Inst) {
    forall p | p in s.insts && p != self :: (self, p) in s.taught
  }

  function FromSender(ms: seq<Msg>, p: Inst): seq<Msg> {
    if ms == [] then [] else (if ms[0].sender == p then [ms[0]] else []) + FromSender(ms[1..], p)
  }

  /** The broker may still take the messages of all outboxes in this order. */
  predicate Interleaves(ms: seq<Msg>, s: State) {
    (forall m | m in ms :: m.sender in s.insts) && (forall p | p in s.insts :: FromSender(ms, p) == s.insts[p].outbox)
  }

  lemma {:induction false} FromSenderHas(ms: seq<Msg>, m: Msg)
    requires m in ms
    ensures m in FromSender(ms, m.sender)
  {
    assert ms == [ms[0]] + ms[1..];
    if m != ms[0] {
      FromSenderHas(ms[1..], m);
    }
  }

  /** Only the messages that mention the node matter. */
  lemma {:induction false} FoldOneSender(o: Option<Inst>, ms: seq<Msg>, x: Node, self: Inst, a: Inst)
    requires forall m | m in ms && Mentions(m, x) :: m.sender == a
    ensures Fold(o, ms, x, self) == Fold(o, FromSender(ms, a), x, self)
    decreases ms
  {
    if ms != [] {
      assert ms[0] in ms && forall m | m in ms[1..] :: m in ms;
      var o' := HandleAt(o, ms[0], x, self);
      FoldOneSender(o', ms[1..], x, self, a);
      var rest := FromSender(ms[1..], a);
      if ms[0].sender == a {
        assert ([ms[0]] + rest)[1..] == rest;
      } else {
        assert o' == o && [] + rest == rest;
      }
    }
  }

  /** One instance's messages name nobody else as owner. */
  lemma {:induction false} FoldForeign(o: Option<Inst>, ms: seq<Msg>, x: Node, self: Inst, a: Inst, p: Inst)
    requires (forall m | m in ms :: m.sender == a) && p != a && Fold(o, ms, x, self) == Some(p)
    ensures o == Some(p)
    decreases ms
  {
    if ms != [] {
      assert ms[0] in ms && forall m | m in ms[1..] :: m in ms;
      FoldForeign(HandleAt(o, ms[0], x, self), ms[1..], x, self, a, p);
    }
  }

  lemma {:induction false} FoldNotSelf(o: Option<Inst>, ms: seq<Msg>, x: Node, self: Inst)
    requires o != Some(self) && forall m | m in ms && m.Snapshot? :: m.sender != m.receiver
    ensures Fold(o, ms, x, self) != Some(self)
    decreases ms
  {
    if ms != [] {
      assert ms[0] in ms && forall m | m in ms[1..] :: m in ms;
      FoldNotSelf(HandleAt(o, ms[0], x, self), ms[1..], x, self);
    }
  }

  /** Whatever the order, the messages about a node are those of the one instance that is active for it. */
  lemma OneOutboxSpeaks(s: State, ms: seq<Msg>, x: Node, self: Inst, a: Inst)
    requires Exclusive(s) && Interleaves(ms, s) && self in s.insts && a in s.insts && Active(s.insts[a], x)
    ensures Fold(Heard(s, self, x), ms, x, self) == View(s, self, a, x)
  {
    forall m | m in ms && Mentions(m, x) ensures m.sender == a {
      FromSenderHas(ms, m);
      assert Active(s.insts[m.sender], x);
    }
    FoldOneSender(Heard(s, self, x), ms, x, self, a);
    ViewSplits(s, self, a, x);
  }

  lemma NobodySpeaks(s: State, ms: seq<Msg>, x: Node, self: Inst)
    requires Interleaves(ms, s) && self in s.insts && forall a | a in s.insts :: !Active(s.insts[a], x)
    ensures Fold(Heard(s, self, x), ms, x, self) == Heard(s, self, x)
  {
    if Mentioned(ms, x) {
      var m :| m in ms && Mentions(m, x);
      FromSenderHas(ms, m);
      assert Active(s.insts[m.sender], x);
    } else {
      FoldSkips(Heard(s, self, x), ms, x, self);
    }
  }

  lemma SilentView(s: State, self: Inst, p: Inst, x: Node)
    requires self in s.insts && p in s.insts && !Active(s.insts[p], x)
    ensures View(s, self, p, x) == Heard(s, self, x)
  {
    ViewSplits(s, self, p, x);
    FoldSkips(Heard(s, self, x), s.insts[p].outbox, x, self);
  }

  lemma SettledView(s: State, ms: seq<Msg>, self: Inst, p: Inst, x: Node)
    requires Valid(s) && Interleaves(ms, s) && self in s.insts && p in s.insts && self != p
    ensures var o := Fold(Heard(s, self, x), ms, x, self);
      && (o == Some(p) ==> x in s.insts[p].hub)
      && ((self, p) in s.taught && x in s.insts[p].hub ==> o == Some(p))
  {
    assert PairOk(s, self, p, x);
    if Active(s.insts[p], x) {
      OneOutboxSpeaks(s, ms, x, self, p);
    } else {
      SilentView(s, self, p, x);
      if a :| a in s.insts && Active(s.insts[a], x) {
        OneOutboxSpeaks(s, ms, x, self, a);
        ViewSplits(s, self, a, x);
        assert InstanceOk(s, a);
        if View(s, self, a, x) == Some(p) {
          FoldForeign(Heard(s, self, x), s.insts[a].outbox, x, self, a, p);
        }
      } else {
        NobodySpeaks(s, ms, x, self);
      }
    }
  }

  lemma SettledOwnerIsKnown(s: State, ms: seq<Msg>, self: Inst, x: Node)
    requires Valid(s) && Interleaves(ms, s) && self in s.insts
    ensures var o := Fold(Heard(s, self, x), ms, x, self);
      o.Some? ==> o.value in s.insts && o.value != self
  {
    var k := s.insts[self];
    assert InstanceOk(s, self);
    FoldNotSelf(Lookup(k.remoteOwner, x), k.inbox, x, self);
    forall m | m in ms ensures Sane(s, m) {
      FromSenderHas(ms, m);
      assert InstanceOk(s, m.sender);
    }
    FoldNotSelf(Heard(s, self, x), ms, x, self);
    var o := Fold(Heard(s, self, x), ms, x, self);
    if o.Some? {
      BeliefHasSource(Heard(s, self, x), ms, x, self, o.value);
      if Heard(s, self, x) == o {
        BeliefHasSource(Lookup(k.remoteOwner, x), k.inbox, x, self, o.value);
      }
    }
  }

  /**
   In every run that obeys the hypotheses, an instance that handles everything still under way,
   in whatever order the broker takes the outboxes, then names as owners only instances that hold
   the node, and names every instance that has taught it as the owner of all its nodes. Once all
   others have taught it, its map is exactly the owner map of the others.
   */
  lemma UndeliveredMessagesSettleIt(evs: seq<Event>, ms: seq<Msg>, self: Inst, x: Node)
    requires ObeysAll(EMPTY, evs) && self in Run(EMPTY, evs).insts && Interleaves(ms, Run(EMPTY, evs))
    ensures var s := Run(EMPTY, evs);
      var owner := Absorb(s.insts[self].remoteOwner, s.insts[self].inbox + ms, self);
      && (x in owner ==> owner[x] in s.insts && owner[x] != self && x in s.insts[owner[x]].hub)
      && (forall p | p in s.insts && p != self && (self, p) in s.taught && x in s.insts[p].hub :: Lookup(owner, x) == Some(p))
      && (Informed(s, self) ==> forall p :: Lookup(owner, x) == Some(p) <==> p in s.insts && p != self && x in s.insts[p].hub)
  {
    RunKeepsValid(EMPTY, evs);
    var s := Run(EMPTY, evs);
    var k := s.insts[self];
    AbsorbIsFold(k.remoteOwner, k.inbox + ms, x, self);
    FoldConcat(Lookup(k.remoteOwner, x), k.inbox, ms, x, self);
    SettledOwnerIsKnown(s, ms, self, x);
    forall p | p in s.insts && p != self
      ensures Lookup(Absorb(k.remoteOwner, k.inbox + ms, self), x) == Some(p) ==> x in s.insts[p].hub
      ensures (self, p) in s.taught && x in s.insts[p].hub ==> Lookup(Absorb(k.remoteOwner, k.inbox + ms, self), x) == Some(p)
    {
      SettledView(s, ms, self, p, x);
    }
  }

  /** Nothing is under way to an instance. */
  predicate Caught(s: State, self: Inst)
    requires self in s.insts
  {
    s.insts[self].inbox == [] && forall p | p in s.insts && p != self :: s.insts[p].outbox == []
  }

  lemma CaughtView(s: State, self: Inst, p: Inst, x: Node)
    requires self in s.insts && p in s.insts && self != p && Caught(s, self)
    ensures View(s, self, p, x) == Lookup(s.insts[self].remoteOwner, x)
  {
  }

  /** Once nothing is under way, what an instance believes of others is true. */
  lemma CaughtUpIsSound(evs: seq<Event>, self: Inst, x: Node)
    requires ObeysAll(EMPTY, evs) && self in Run(EMPTY, evs).insts && Caught(Run(EMPTY, evs), self)
    ensures var s := Run(EMPTY, evs); var k := s.insts[self];
      && (IsOnline(k, x) ==> exists p | p in s.insts :: x in s.insts[p].hub)
      && (RouteOf(k, x).Relay? ==> RouteOf(k, x).owner in s.insts && x in s.insts[RouteOf(k, x).owner].hub)
  {
    RunKeepsValid(EMPTY, evs);
    var s := Run(EMPTY, evs);
    var k := s.insts[self];
    assert InstanceOk(s, self);
    if x in k.remoteOwner {
      var p := k.remoteOwner[x];
      assert PairOk(s, self, p, x);
      CaughtView(s, self, p, x);
    }
  }

  /**
   If, besides, all others have taught it, it knows exactly who holds what: it is right about
   every node, online or not, and sends each request to the instance that holds the socket.
   */
  lemma CaughtUpIsExact(evs: seq<Event>, self: Inst, x: Node)
    requires ObeysAll(EMPTY, evs) && self in Run(EMPTY, evs).insts
    requires Caught(Run(EMPTY, evs), self) && Informed(Run(EMPTY, evs), self)
    ensures var s := Run(EMPTY, evs); var k := s.insts[self];
      && (IsOnline(k, x) <==> exists p | p in s.insts :: x in s.insts[p].hub)
      && (forall p | p in s.insts && p != self :: Lookup(k.remoteOwner, x) == Some(p) <==> x in s.insts[p].hub)
      && (forall p | p in s.insts && p != self :: x in s.insts[p].hub <==> RouteOf(k, x) == Relay(p))
      && (x in k.hub <==> RouteOf(k, x) == Local)
      && (RouteOf(k, x) == Offline <==> forall p | p in s.insts :: x !in s.insts[p].hub)
  {
    RunKeepsValid(EMPTY, evs);
    var s := Run(EMPTY, evs);
    var k := s.insts[self];
    CaughtUpIsSound(evs, self, x);
    forall p | p in s.insts && p != self
      ensures Lookup(k.remoteOwner, x) == Some(p) <==> x in s.insts[p].hub
      ensures x in s.insts[p].hub <==> RouteOf(k, x) == Relay(p)
    {
      assert PairOk(s, self, p, x);
      CaughtView(s, self, p, x);
      if x in s.insts[p].hub {
        assert Active(s.insts[p], x);
        assert !Active(k, x);
      }
    }
  }

  // ---------------------------------------------------------------------------------------
  // Whoever asks is told.
  // ---------------------------------------------------------------------------------------

  /** The question of `self` is on its way to `p`, or `p` has answered it. */
  predicate Asking(s: State, self: Inst, p: Inst) {
    && self in s.insts && p in s.insts && self != p && s.insts[self].subscribed && s.insts[p].subscribed
    && (Ask(self) in s.insts[self].outbox || Ask(self) in s.insts[p].inbox || (self, p) in s.taught)
  }

  lemma InTail(ms: seq<Msg>, m: Msg)
    requires m in ms && m != ms[0]
    ensures m in ms[1..]
  {
  }

  /** No question is dropped, and a delivered one is answered. */
  lemma StepKeepsAsking(s: State, ev: Event, self: Inst, p: Inst)
    requires Asking(s, self, p) && !ev.Lose?
    ensures Asking(Apply(s, ev), self, p)
  {
    var k, j := s.insts[self], s.insts[p];
    if ev.Publish? && ev.inst == self && Ask(self) in k.outbox && k.outbox[0] != Ask(self) { InTail(k.outbox, Ask(self)); }
    if ev.Deliver? && ev.inst == p && Ask(self) in j.inbox && j.inbox[0] != Ask(self) { InTail(j.inbox, Ask(self)); }
  }

  /** Either way, `self` will have been taught by `p`. */
  predicate WillBeTaught(s: State, self: Inst, p: Inst) {
    (self in s.insts && s.insts[self].subscribed && (p !in s.insts || (self, p) in s.taught)) || Asking(s, self, p)
  }

  lemma StepTeaches(s: State, ev: Event, self: Inst, p: Inst)
    requires WillBeTaught(s, self, p) && self != p && !ev.Lose?
    ensures WillBeTaught(Apply(s, ev), self, p)
  {
    if Asking(s, self, p) {
      StepKeepsAsking(s, ev, self, p);
    } else {
      InstancesStay(s, ev, self);
    }
  }

  lemma {:induction false} RunTeaches(s: State, evs: seq<Event>, self: Inst, p: Inst)
    requires WillBeTaught(s, self, p) && self != p && ObeysAll(s, evs)
    ensures WillBeTaught(Run(s, evs), self, p)
    decreases evs
  {
    if evs != [] {
      StepTeaches(s, evs[0], self, p);
      RunTeaches(Apply(s, evs[0]), evs[1..], self, p);
    }
  }

  lemma {:induction false} RunInParts(s: State, before: seq<Event>, after: seq<Event>)
    requires ObeysAll(s, before + after)
    ensures ObeysAll(s, before) && ObeysAll(Run(s, before), after)
    ensures Run(s, before + after) == Run(Run(s, before), after)
    decreases before
  {
    if before == [] {
      assert before + after == after;
    } else {
      assert (before + after)[1..] == before[1..] + after;
      RunInParts(Apply(s, before[0]), before[1..], after);
    }
  }

  /** Nothing at all is under way. */
  predicate AllDelivered(s: State) {
    forall i | i in s.insts :: s.insts[i].inbox == [] && s.insts[i].outbox == []
  }

  /**
   An instance that asks around while every other one is subscribed knows, once everything is
   delivered, exactly who holds what; whoever starts later is no exception.
   */
  lemma AskerKnowsAll(before: seq<Event>, after: seq<Event>, self: Inst, x: Node)
    requires ObeysAll(EMPTY, before + after)
    requires var s := Run(EMPTY, before);
      && self in s.insts && Ask(self) in s.insts[self].outbox
      && forall p | p in s.insts && p != self :: s.insts[p].subscribed
    requires AllDelivered(Run(EMPTY, before + after))
    ensures var u := Run(EMPTY, before + after);
      && self in u.insts
      && (forall p | p in u.insts && p != self :: x in u.insts[p].hub <==> RouteOf(u.insts[self], x) == Relay(p))
      && (x in u.insts[self].hub <==> RouteOf(u.insts[self], x) == Local)
      && (RouteOf(u.insts[self], x) == Offline <==> forall p | p in u.insts :: x !in u.insts[p].hub)
  {
    var s, u := Run(EMPTY, before), Run(EMPTY, before + after);
    RunInParts(EMPTY, before, after);
    RunKeepsValid(EMPTY, before);
    assert InstanceOk(s, self) && Sane(s, Ask(self));
    forall p | p != self ensures WillBeTaught(u, self, p) {
      RunTeaches(s, after, self, p);
    }
    assert WillBeTaught(u, self, self + 1);
    forall p | p in u.insts && p != self ensures (self, p) in u.taught {
      assert WillBeTaught(u, self, p) && u.insts[self].outbox == [] && u.insts[p].inbox == [];
    }
    CaughtUpIsExact(before + after, self, x);
  }
}

module ClusterRelayImpl {
  import opened ClusterRelay

  /** The relay of one instance: its message handler and the wrapped Hub's look-ups. */
  class Relay {
    const instanceId: Inst
    var hubNodes: set<Node>
    var remoteOwner: map<Node, Inst>
    var outbox: seq<Msg>

    constructor (instanceId: Inst)
      ensures this.instanceId == instanceId && hubNodes == {} && remoteOwner == map[] && outbox == []
    {
      this.instanceId := instanceId;
      hubNodes := {};
      remoteOwner := map[];
      outbox := [];
    }

    /** `sub.on('message', ...)`, for the three presence channels. */
    method OnMessage(m: Msg)
      modifies this`remoteOwner, this`outbox
      ensures remoteOwner == Handle(old(remoteOwner), m, instanceId)
      ensures outbox == old(outbox) + Answer(m, instanceId, hubNodes)
    {
      assert outbox + [] == outbox;
      match m {
        case Presence(p, x, online) =>
          if p == instanceId {
            return;
          }
          if online {
            remoteOwner := remoteOwner[x := p];
          } else if x in remoteOwner && remoteOwner[x] == p {
            remoteOwner := remoteOwner - {x};
          }
        case Ask(p) =>
          if p == instanceId {
            return;
          }
          outbox := outbox + [Snapshot(instanceId, p, hubNodes)];
        case Snapshot(p, to, nodes) =>
          if to != instanceId {
            return;
          }
          Merge(p, nodes);
      }
    }

    method Merge(p: Inst, nodes: set<Node>)
      modifies this`remoteOwner
      ensures remoteOwner == old(remoteOwner) + map x | x in nodes :: p
    {
      var todo := nodes;
      while todo != {}
        invariant todo <= nodes
        invariant remoteOwner == old(remoteOwner) + map x | x in nodes - todo :: p
        decreases |todo|
      {
        var x :| x in todo;
        remoteOwner := remoteOwner[x := p];
        todo := todo - {x};
        assert remoteOwner.Keys == old(remoteOwner).Keys + (nodes - todo);
      }
      assert nodes - todo == nodes;
    }

    /** The wrapped `_onPresence`. */
    method OnPresence(x: Node, online: bool)
      modifies this`outbox
      ensures outbox == old(outbox) + [Presence(instanceId, x, online)]
    {
      outbox := outbox + [Presence(instanceId, x, online)];
    }

    /** Where a wrapped method goes, and what the wrapped `isOnline` says. */
    method Find(x: Node) returns (online: bool, route: Route)
      ensures var k := Instance(hubNodes, outbox, true, true, remoteOwner, []);
        online == IsOnline(k, x) && route == RouteOf(k, x)
      ensures online <==> route != Offline
    {
      online := x in hubNodes || x in remoteOwner;
      if x in hubNodes {
        return online, Local;
      }
      if x !in remoteOwner {
        return online, Offline;
      }
      return online, Route.Relay(remoteOwner[x]);
    }
  }
}
