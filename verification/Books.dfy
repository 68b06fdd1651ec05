/**
 The double-entry ledger: the database half of `commitNodeAndCapture`, and `settleReservation`
 (backend/src/api/server.js). A database transaction is one step; a reservation is named by its
 position in `rows`; the unique idempotency keys 'capture-<id>' and 'settle-<id>' are the kind
 and reservation of a transaction.
 */
module Books {
  import opened Options
  import opened Machine
  import opened Settle

  type User = nat
  type Provider = nat

  datatype Account = GatewayClearing | Escrow(user: User) | ProviderBalance(provider: Provider) | PlatformRevenue | Refunds

  datatype Entry = Entry(account: Account, amount: int)

  datatype Kind = Capture | Settlement

  datatype Txn = Txn(kind: Kind, rid: nat, entries: seq<Entry>)

  datatype Row = Row(user: User, provider: Provider, price: int, quoted: int, status: RStatus)

  /** rep_jobs_total and rep_jobs_failed of a provider. */
  datatype Rep = Rep(total: nat, failed: nat)

  datatype Ledger = Ledger(rows: seq<Row>, txns: seq<Txn>, reps: map<Provider, Rep>)

  datatype SettleResult =
    | Settled(charged: int, refunded: int)
    | NotFound | UnknownOutcome | CannotSettle | AlreadySettled
    | RejectedByDatabase

  predicate HasTxn(txns: seq<Txn>, kind: Kind, rid: nat) {
    exists t | t in txns :: t.kind == kind && t.rid == rid
  }

  function WithStatus(rows: seq<Row>, rid: nat, s: RStatus): seq<Row>
    requires rid < |rows|
  {
    rows[rid := rows[rid].(status := s)]
  }

  function CaptureEntries(r: Row): seq<Entry> {
    [] + [Entry(GatewayClearing, -r.quoted)] + [Entry(Escrow(r.user), r.quoted)]
  }

  /** The capture transaction; false when the idempotency key already exists. */
  function CaptureStep(b: Ledger, rid: nat): (r: (Ledger, bool))
    requires rid < |b.rows|
  {
    if HasTxn(b.txns, Capture, rid) then (b, false)
    else (b.(rows := WithStatus(b.rows, rid, Confirmed),
             txns := b.txns + [Txn(Capture, rid, CaptureEntries(b.rows[rid]))]), true)
  }

  function Charge(r: Row, rule: Rule, computeSeconds: int): int {
    match rule
    case SettleFull => r.quoted
    case SettleMetered => MeteredCharge(r.quoted, r.price, computeSeconds)
    case _ => 0
  }

  function ShareEntries(r: Row, charge: int): seq<Entry> {
    var shares := Split(charge, PLATFORM_FEE_BPS);
    if charge > 0 && shares.Some?
    then [] + [Entry(ProviderBalance(r.provider), shares.value.provider)] + [Entry(PlatformRevenue, shares.value.platform)]
    else []
  }

  function RefundEntries(refund: int): seq<Entry> {
    if refund > 0 then [] + [Entry(Refunds, refund)] else []
  }

  function SettleEntries(r: Row, charge: int): seq<Entry> {
    [] + [Entry(Escrow(r.user), -r.quoted)] + ShareEntries(r, charge) + RefundEntries(r.quoted - charge)
  }

  datatype Effect = Success | Failure

  /** What an outcome says about the provider (backend/src/providers/reputation.js). */
  function ReputationEffect(outcome: RStatus): Option<Effect> {
    match outcome
    case Completed => Some(Success)
    case FailedUser => Some(Success)
    case FailedProvider => Some(Failure)
    case _ => None
  }

  function Bump(reps: map<Provider, Rep>, p: Provider, effect: Option<Effect>): map<Provider, Rep> {
    if effect.None? || p !in reps then reps
    else reps[p := Rep(reps[p].total + 1, reps[p].failed + if effect == Some(Failure) then 1 else 0)]
  }

  /** Every ledger entry must be non-zero: the CHECK on ledger_entries.amount_paise. */
  predicate NoZeroEntry(es: seq<Entry>) {
    forall e | e in es :: e.amount != 0
  }

  /** The settle transaction for a given charge. */
  function SettleWith(b: Ledger, rid: nat, outcome: RStatus, charge: int): (r: (Ledger, SettleResult))
    requires rid < |b.rows|
  {
    var row := b.rows[rid];
    if HasTxn(b.txns, Settlement, rid) then (b, AlreadySettled)
    else
      var entries := SettleEntries(row, charge);
      if !NoZeroEntry(entries) then (b, RejectedByDatabase)
      else
        (Ledger(WithStatus(b.rows, rid, outcome),
               b.txns + [Txn(Settlement, rid, entries)],
               Bump(b.reps, row.provider, ReputationEffect(outcome))),
         Settled(charge, row.quoted - charge))
  }

  function SettleStep(b: Ledger, rid: nat, outcome: RStatus, computeSeconds: int): (r: (Ledger, SettleResult)) {
    if rid >= |b.rows| then (b, NotFound)
    else
      match Machine.Settlement(outcome)
      case None => (b, UnknownOutcome)
      case Some(rule) =>
        if !CanTransition(b.rows[rid].status, outcome) then (b, CannotSettle)
        else SettleWith(b, rid, outcome, Charge(b.rows[rid], rule, computeSeconds))
  }

  // ---------------------------------------------------------------------------------------
  // What the entries add up to.
  // ---------------------------------------------------------------------------------------

  function Total(es: seq<Entry>): int {
    if es == [] then 0 else Total(es[..|es| - 1]) + es[|es| - 1].amount
  }

  function Net(es: seq<Entry>, a: Account): int {
    if es == [] then 0
    else Net(es[..|es| - 1], a) + if es[|es| - 1].account == a then es[|es| - 1].amount else 0
  }

  function Balance(ts: seq<Txn>, a: Account): int {
    if ts == [] then 0 else Balance(ts[..|ts| - 1], a) + Net(ts[|ts| - 1].entries, a)
  }

  /** Money captured for the row and not yet settled. */
  predicate Open(s: RStatus) {
    s == Confirmed || s == Running
  }

  function OpenQuotes(rows: seq<Row>, u: User): int {
    if rows == [] then 0
    else
      var r := rows[|rows| - 1];
      OpenQuotes(rows[..|rows| - 1], u) + if r.user == u && Open(r.status) then r.quoted else 0
  }

  lemma {:induction false} NetConcat(es: seq<Entry>, fs: seq<Entry>, a: Account)
    ensures Net(es + fs, a) == Net(es, a) + Net(fs, a) && Total(es + fs) == Total(es) + Total(fs)
  {
    if fs == [] {
      assert es + fs == es;
    } else {
      var n := |fs| - 1;
      assert (es + fs)[..|es + fs| - 1] == es + fs[..n];
      NetConcat(es, fs[..n], a);
    }
  }

  lemma NetSingle(e: Entry, a: Account)
    ensures Net([e], a) == (if e.account == a then e.amount else 0) && Total([e]) == e.amount
  {
    assert [e][..0] == [];
  }

  lemma CaptureNets(r: Row, a: Account)
    ensures Total(CaptureEntries(r)) == 0
    ensures Net(CaptureEntries(r), a) ==
      if a == GatewayClearing then -r.quoted else if a == Escrow(r.user) then r.quoted else 0
  {
    var x, y := Entry(GatewayClearing, -r.quoted), Entry(Escrow(r.user), r.quoted);
    assert CaptureEntries(r) == [x] + [y];
    NetConcat([x], [y], a);
    NetSingle(x, a);
    NetSingle(y, a);
  }

  function ProviderShare(charge: int): int {
    charge * 9000 / 10000
  }

  lemma ShareNets(r: Row, charge: int, a: Account)
    requires 0 <= charge
    ensures Total(ShareEntries(r, charge)) == charge
    ensures Net(ShareEntries(r, charge), a) ==
      match a
      case ProviderBalance(p) => if p == r.provider then ProviderShare(charge) else 0
      case PlatformRevenue => charge - ProviderShare(charge)
      case _ => 0
  {
    SplitIsExact(charge, PLATFORM_FEE_BPS);
    if charge > 0 {
      var s := Split(charge, PLATFORM_FEE_BPS).value;
      var x, y := Entry(ProviderBalance(r.provider), s.provider), Entry(PlatformRevenue, s.platform);
      assert ShareEntries(r, charge) == [x] + [y];
      NetConcat([x], [y], a);
      NetSingle(x, a);
      NetSingle(y, a);
    }
  }

  lemma RefundNets(refund: int, a: Account)
    requires 0 <= refund
    ensures Total(RefundEntries(refund)) == refund
    ensures Net(RefundEntries(refund), a) == if a == Refunds then refund else 0
  {
    if refund > 0 {
      assert RefundEntries(refund) == [Entry(Refunds, refund)];
      NetSingle(Entry(Refunds, refund), a);
    }
  }

  lemma NetOfThree(x: seq<Entry>, y: seq<Entry>, z: seq<Entry>, a: Account)
    ensures Net(x + y + z, a) == Net(x, a) + Net(y, a) + Net(z, a)
    ensures Total(x + y + z) == Total(x) + Total(y) + Total(z)
  {
    NetConcat(x, y, a);
    NetConcat(x + y, z, a);
  }

  lemma SettleParts(r: Row, charge: int, a: Account)
    ensures var e1, e2 := ShareEntries(r, charge), RefundEntries(r.quoted - charge);
      && Total(SettleEntries(r, charge)) == -r.quoted + Total(e1) + Total(e2)
      && Net(SettleEntries(r, charge), a) == (if a == Escrow(r.user) then -r.quoted else 0) + Net(e1, a) + Net(e2, a)
  {
    var e0 := [Entry(Escrow(r.user), -r.quoted)];
    NetSingle(e0[0], a);
    assert [] + e0 == e0;
    NetOfThree(e0, ShareEntries(r, charge), RefundEntries(r.quoted - charge), a);
  }

  /** The entries of a settlement move the quote out of escrow and account for all of it. */
  lemma SettleNets(r: Row, charge: int, a: Account)
    requires 0 <= charge <= r.quoted
    ensures Total(SettleEntries(r, charge)) == 0
    ensures Net(SettleEntries(r, charge), a) ==
      match a
      case GatewayClearing => 0
      case Escrow(u) => if u == r.user then -r.quoted else 0
      case ProviderBalance(p) => if p == r.provider then ProviderShare(charge) else 0
      case PlatformRevenue => charge - ProviderShare(charge)
      case Refunds => r.quoted - charge
  {
    SettleParts(r, charge, a);
    ShareNets(r, charge, a);
    RefundNets(r.quoted - charge, a);
  }

  function Weight(r: Row, u: User): int {
    if r.user == u && Open(r.status) then r.quoted else 0
  }

  lemma {:induction false} OpenQuotesUpdate(rows: seq<Row>, i: nat, r: Row, u: User)
    requires i < |rows|
    ensures OpenQuotes(rows[i := r], u) == OpenQuotes(rows, u) - Weight(rows[i], u) + Weight(r, u)
  {
    var n := |rows| - 1;
    if i == n {
      assert rows[i := r][..n] == rows[..n];
    } else {
      assert rows[i := r][..n] == rows[..n][i := r];
      OpenQuotesUpdate(rows[..n], i, r, u);
    }
  }

  lemma BalanceAppend(ts: seq<Txn>, t: Txn, a: Account)
    ensures Balance(ts + [t], a) == Balance(ts, a) + Net(t.entries, a)
  {
    assert (ts + [t])[..|ts|] == ts;
  }

  // ---------------------------------------------------------------------------------------
  // Runs.
  // ---------------------------------------------------------------------------------------

  datatype Event =
    | Insert(user: User, provider: Provider, price: int, quoted: int)
    | DoCapture(rid: nat)
    | StartJob(rid: nat)
    | DoSettle(rid: nat, outcome: RStatus, computeSeconds: int)
    | MarkExpired(rid: nat)

  /** Both status UPDATEs are unconditional, as in the source. */
  function Apply(b: Ledger, ev: Event): Ledger {
    match ev
    case Insert(u, p, price, quoted) =>
      // The CHECK constraints on price and quote.
      if price > 0 && quoted > 0 then b.(rows := b.rows + [Row(u, p, price, quoted, Held)]) else b
    case DoCapture(rid) => if rid < |b.rows| then CaptureStep(b, rid).0 else b
    case StartJob(rid) => if rid < |b.rows| then b.(rows := WithStatus(b.rows, rid, Running)) else b
    case DoSettle(rid, outcome, secs) => SettleStep(b, rid, outcome, secs).0
    case MarkExpired(rid) => if rid < |b.rows| then b.(rows := WithStatus(b.rows, rid, Expired)) else b
  }

  /**
   The interleavings the code counts on: a job starts while captured money is unsettled, a row is
   marked expired only before capture, and a settlement that goes through is of a job outcome.
   */
  predicate Orderly(b: Ledger, ev: Event) {
    match ev
    case StartJob(rid) => rid < |b.rows| ==> Open(b.rows[rid].status)
    case MarkExpired(rid) => rid < |b.rows| ==> !CapturedStatus(b.rows[rid].status)
    case DoSettle(rid, outcome, _) =>
      rid < |b.rows| && CanTransition(b.rows[rid].status, outcome) && Machine.Settlement(outcome).Some? ==> JobOutcome(outcome)
    case _ => true
  }

  function Run(b: Ledger, evs: seq<Event>): Ledger
    decreases evs
  {
    if evs == [] then b else Run(Apply(b, evs[0]), evs[1..])
  }

  predicate OrderlyRun(b: Ledger, evs: seq<Event>)
    decreases evs
  {
    evs != [] ==> Orderly(b, evs[0]) && OrderlyRun(Apply(b, evs[0]), evs[1..])
  }

  predicate RowOk(r: Row) {
    r.price > 0 && r.quoted > 0
  }

  /** Every transaction balances; a settlement pays out and refunds exactly the quote. */
  predicate TxnOk(rows: seq<Row>, t: Txn) {
    && t.rid < |rows|
    && Total(t.entries) == 0
    && (t.kind == Settlement ==>
          var r := rows[t.rid];
          && 0 <= Net(t.entries, Refunds) <= r.quoted
          && 0 <= Net(t.entries, ProviderBalance(r.provider)) && 0 <= Net(t.entries, PlatformRevenue)
          && Net(t.entries, ProviderBalance(r.provider)) + Net(t.entries, PlatformRevenue) + Net(t.entries, Refunds) == r.quoted)
  }

  /** At most one capture and one settlement for each reservation. */
  predicate KeysUnique(txns: seq<Txn>) {
    forall i, j | 0 <= i < j < |txns| :: txns[i].kind != txns[j].kind || txns[i].rid != txns[j].rid
  }

  /** A status tells whether the row was captured and whether it was settled. */
  predicate StatusTells(b: Ledger) {
    forall rid: nat | rid < |b.rows| ::
      && (HasTxn(b.txns, Capture, rid) <==> CapturedStatus(b.rows[rid].status))
      && (HasTxn(b.txns, Settlement, rid) <==> JobOutcome(b.rows[rid].status))
  }

  ghost predicate EscrowExact(b: Ledger) {
    forall u :: Balance(b.txns, Escrow(u)) == OpenQuotes(b.rows, u)
  }

  predicate Sound(b: Ledger) {
    && (forall r | r in b.rows :: RowOk(r))
    && (forall t | t in b.txns :: TxnOk(b.rows, t))
    && KeysUnique(b.txns)
  }

  ghost predicate BooksOk(b: Ledger) {
    Sound(b) && StatusTells(b) && EscrowExact(b)
  }

  lemma ChargeWithinQuote(r: Row, rule: Rule, computeSeconds: int)
    requires RowOk(r)
    ensures 0 <= Charge(r, rule, computeSeconds) <= r.quoted
  {
    MinutePriceMonotone(r.price, 0, Max(5, CeilDiv(computeSeconds, 60)));
    assert MinutePrice(r.price, 0) == 0;
  }

  lemma HasTxnAppend(ts: seq<Txn>, t: Txn, kind: Kind, rid: nat)
    ensures HasTxn(ts + [t], kind, rid) <==> HasTxn(ts, kind, rid) || (t.kind == kind && t.rid == rid)
  {
    if HasTxn(ts, kind, rid) {
      var x :| x in ts && x.kind == kind && x.rid == rid;
      assert x in ts + [t];
    }
    assert t in ts + [t];
  }

  /** Appending a transaction with a new key, and changing a status, keep the books sound. */
  lemma SoundAppend(b: Ledger, u: Ledger, t: Txn)
    requires Sound(b) && t.rid < |b.rows| && !HasTxn(b.txns, t.kind, t.rid)
    requires |u.rows| == |b.rows| && u.txns == b.txns + [t] && u.rows == WithStatus(b.rows, t.rid, u.rows[t.rid].status)
    requires TxnOk(b.rows, t)
    ensures Sound(u)
  {
    forall x | x in u.txns ensures TxnOk(u.rows, x) {
      assert TxnOk(b.rows, x);
    }
    forall r | r in u.rows ensures RowOk(r) {
      var i :| 0 <= i < |u.rows| && u.rows[i] == r;
      assert b.rows[i] in b.rows;
    }
  }

  /** No run, orderly or not, unbalances a transaction or repeats an idempotency key. */
  lemma StepSound(b: Ledger, ev: Event)
    requires Sound(b)
    ensures Sound(Apply(b, ev))
  {
    match ev
    case Insert(u, p, price, quoted) =>
      forall t | t in b.txns ensures TxnOk(Apply(b, ev).rows, t) { assert TxnOk(b.rows, t); }
    case DoCapture(rid) =>
      if rid < |b.rows| && !HasTxn(b.txns, Capture, rid) {
        CaptureNets(b.rows[rid], Refunds);
        SoundAppend(b, Apply(b, ev), Txn(Capture, rid, CaptureEntries(b.rows[rid])));
      }
    case StartJob(rid) => if rid < |b.rows| { SoundStatus(b, rid, Running); }
    case DoSettle(rid, outcome, secs) => SettleSound(b, rid, outcome, secs);
    case MarkExpired(rid) => if rid < |b.rows| { SoundStatus(b, rid, Expired); }
  }

  lemma SoundStatus(b: Ledger, rid: nat, s: RStatus)
    requires Sound(b) && rid < |b.rows|
    ensures Sound(b.(rows := WithStatus(b.rows, rid, s)))
  {
    var u := b.(rows := WithStatus(b.rows, rid, s));
    forall t | t in u.txns ensures TxnOk(u.rows, t) { assert TxnOk(b.rows, t); }
    forall r | r in u.rows ensures RowOk(r) {
      var i :| 0 <= i < |u.rows| && u.rows[i] == r;
      assert b.rows[i] in b.rows;
    }
  }

  lemma SettleTxnOk(rows: seq<Row>, rid: nat, charge: int)
    requires rid < |rows| && 0 <= charge <= rows[rid].quoted
    ensures TxnOk(rows, Txn(Settlement, rid, SettleEntries(rows[rid], charge)))
  {
    SettleNets(rows[rid], charge, Refunds);
    SettleNets(rows[rid], charge, PlatformRevenue);
    SettleNets(rows[rid], charge, ProviderBalance(rows[rid].provider));
  }

  /** A settlement that goes through sets the status and records one transaction; any other changes nothing. */
  lemma SettleEffect(b: Ledger, rid: nat, outcome: RStatus, secs: int)
    ensures var (c, res) := SettleStep(b, rid, outcome, secs);
      if res.Settled? then
        && rid < |b.rows| && !HasTxn(b.txns, Settlement, rid) && Machine.Settlement(outcome).Some?
        && CanTransition(b.rows[rid].status, outcome)
        && res.charged == Charge(b.rows[rid], Machine.Settlement(outcome).value, secs)
        && c.rows == WithStatus(b.rows, rid, outcome)
        && c.txns == b.txns + [Txn(Settlement, rid, SettleEntries(b.rows[rid], res.charged))]
      else c == b
  {
  }

  lemma AppendSettlement(b: Ledger, c: Ledger, rid: nat, outcome: RStatus, charge: int)
    requires Sound(b) && rid < |b.rows| && !HasTxn(b.txns, Settlement, rid) && 0 <= charge <= b.rows[rid].quoted
    requires c.rows == WithStatus(b.rows, rid, outcome)
    requires c.txns == b.txns + [Txn(Settlement, rid, SettleEntries(b.rows[rid], charge))]
    ensures Sound(c)
  {
    SettleTxnOk(b.rows, rid, charge);
    SoundAppend(b, c, Txn(Settlement, rid, SettleEntries(b.rows[rid], charge)));
  }

  lemma ChargeOfSoundRow(b: Ledger, rid: nat, rule: Rule, secs: int)
    requires Sound(b) && rid < |b.rows|
    ensures 0 <= Charge(b.rows[rid], rule, secs) <= b.rows[rid].quoted && b.rows[rid].quoted > 0
  {
    assert b.rows[rid] in b.rows;
    ChargeWithinQuote(b.rows[rid], rule, secs);
  }

  lemma SettleSound(b: Ledger, rid: nat, outcome: RStatus, secs: int)
    requires Sound(b)
    ensures Sound(SettleStep(b, rid, outcome, secs).0)
  {
    var (c, res) := SettleStep(b, rid, outcome, secs);
    SettleEffect(b, rid, outcome, secs);
    if res.Settled? {
      ChargeOfSoundRow(b, rid, Machine.Settlement(outcome).value, secs);
      AppendSettlement(b, c, rid, outcome, res.charged);
    }
  }

  lemma {:induction false} RunSound(b: Ledger, evs: seq<Event>)
    requires Sound(b)
    ensures Sound(Run(b, evs))
    decreases evs
  {
    if evs != [] {
      StepSound(b, evs[0]);
      RunSound(Apply(b, evs[0]), evs[1..]);
    }
  }

  /** How one status change and at most one transaction move escrow against open quotes. */
  lemma EscrowMoves(b: Ledger, rid: nat, s: RStatus, u: User)
    requires rid < |b.rows|
    ensures OpenQuotes(WithStatus(b.rows, rid, s), u)
      == OpenQuotes(b.rows, u) - Weight(b.rows[rid], u) + Weight(b.rows[rid].(status := s), u)
  {
    OpenQuotesUpdate(b.rows, rid, b.rows[rid].(status := s), u);
  }

  lemma CaptureKeepsBooks(b: Ledger, rid: nat)
    requires BooksOk(b) && rid < |b.rows|
    ensures BooksOk(CaptureStep(b, rid).0)
  {
    StepSound(b, DoCapture(rid));
    var r := b.rows[rid];
    var t := Txn(Capture, rid, CaptureEntries(r));
    if !HasTxn(b.txns, Capture, rid) {
      var c := CaptureStep(b, rid).0;
      forall u ensures Balance(c.txns, Escrow(u)) == OpenQuotes(c.rows, u) {
        BalanceAppend(b.txns, t, Escrow(u));
        CaptureNets(r, Escrow(u));
        EscrowMoves(b, rid, Confirmed, u);
      }
      StatusTellsAppend(b, c, t);
    }
  }

  lemma StatusTellsAppend(b: Ledger, c: Ledger, t: Txn)
    requires StatusTells(b) && t.rid < |b.rows| == |c.rows|
    requires c.txns == b.txns + [t] && c.rows == WithStatus(b.rows, t.rid, c.rows[t.rid].status)
    requires t.kind == Capture ==> c.rows[t.rid].status == Confirmed && !JobOutcome(b.rows[t.rid].status)
    requires t.kind == Settlement ==> JobOutcome(c.rows[t.rid].status) && CapturedStatus(b.rows[t.rid].status)
    ensures StatusTells(c)
  {
    forall i: nat | i < |c.rows|
      ensures HasTxn(c.txns, Capture, i) <==> CapturedStatus(c.rows[i].status)
      ensures HasTxn(c.txns, Settlement, i) <==> JobOutcome(c.rows[i].status)
    {
      HasTxnAppend(b.txns, t, Capture, i);
      HasTxnAppend(b.txns, t, Settlement, i);
    }
  }

  /** A settlement that went through, with the charge as a plain number. */
  predicate SettledAs(b: Ledger, c: Ledger, rid: nat, outcome: RStatus, charge: int) {
    && rid < |b.rows| && JobOutcome(outcome) && CanTransition(b.rows[rid].status, outcome)
    && 0 <= charge <= b.rows[rid].quoted
    && c.rows == WithStatus(b.rows, rid, outcome)
    && c.txns == b.txns + [Txn(Settlement, rid, SettleEntries(b.rows[rid], charge))]
  }

  lemma SettleShape(b: Ledger, rid: nat, outcome: RStatus, secs: int)
    requires Sound(b) && JobOutcome(outcome)
    ensures var (c, res) := SettleStep(b, rid, outcome, secs);
      if res.Settled? then SettledAs(b, c, rid, outcome, res.charged) && !HasTxn(b.txns, Settlement, rid) else c == b
  {
    var (c, res) := SettleStep(b, rid, outcome, secs);
    if res.Settled? {
      assert b.rows[rid] in b.rows;
      ChargeWithinQuote(b.rows[rid], Machine.Settlement(outcome).value, secs);
    }
  }

  lemma SettledKeepsBooks(b: Ledger, c: Ledger, rid: nat, outcome: RStatus, charge: int)
    requires BooksOk(b) && SettledAs(b, c, rid, outcome, charge)
    ensures StatusTells(c) && EscrowExact(c)
  {
    var r := b.rows[rid];
    var t := Txn(Settlement, rid, SettleEntries(r, charge));
    forall u ensures Balance(c.txns, Escrow(u)) == OpenQuotes(c.rows, u) {
      SettledMovesEscrow(b, c, rid, outcome, charge, u);
    }
    StatusTellsAppend(b, c, t);
  }

  lemma ReleaseMovesEscrow(b: Ledger, c: Ledger, t: Txn, s: RStatus, u: User)
    requires t.rid < |b.rows| && Open(b.rows[t.rid].status) && !Open(s)
    requires c.rows == WithStatus(b.rows, t.rid, s) && c.txns == b.txns + [t]
    requires Net(t.entries, Escrow(u)) == if u == b.rows[t.rid].user then -b.rows[t.rid].quoted else 0
    requires Balance(b.txns, Escrow(u)) == OpenQuotes(b.rows, u)
    ensures Balance(c.txns, Escrow(u)) == OpenQuotes(c.rows, u)
  {
    BalanceAppend(b.txns, t, Escrow(u));
    EscrowMoves(b, t.rid, s, u);
  }

  lemma SettledMovesEscrow(b: Ledger, c: Ledger, rid: nat, outcome: RStatus, charge: int, u: User)
    requires SettledAs(b, c, rid, outcome, charge) && Balance(b.txns, Escrow(u)) == OpenQuotes(b.rows, u)
    ensures Balance(c.txns, Escrow(u)) == OpenQuotes(c.rows, u)
  {
    SettleNets(b.rows[rid], charge, Escrow(u));
    ReleaseMovesEscrow(b, c, Txn(Settlement, rid, SettleEntries(b.rows[rid], charge)), outcome, u);
  }

  lemma SettleKeepsBooks(b: Ledger, rid: nat, outcome: RStatus, secs: int)
    requires BooksOk(b) && JobOutcome(outcome)
    ensures BooksOk(SettleStep(b, rid, outcome, secs).0)
  {
    SettleSound(b, rid, outcome, secs);
    SettleShape(b, rid, outcome, secs);
    var (c, res) := SettleStep(b, rid, outcome, secs);
    if res.Settled? {
      SettledKeepsBooks(b, c, rid, outcome, res.charged);
    }
  }

  /** An unconditional status update keeps the books exactly when it keeps captured and settled. */
  lemma StatusKeepsBooks(b: Ledger, rid: nat, s: RStatus)
    requires BooksOk(b) && rid < |b.rows|
    requires var o := b.rows[rid].status;
      CapturedStatus(o) == CapturedStatus(s) && JobOutcome(o) == JobOutcome(s)
    ensures BooksOk(b.(rows := WithStatus(b.rows, rid, s)))
  {
    SoundStatus(b, rid, s);
    var c := b.(rows := WithStatus(b.rows, rid, s));
    forall u ensures Balance(c.txns, Escrow(u)) == OpenQuotes(c.rows, u) {
      EscrowMoves(b, rid, s, u);
    }
  }

  lemma InsertKeepsBooks(b: Ledger, r: Row)
    requires BooksOk(b) && RowOk(r) && r.status == Held
    ensures BooksOk(b.(rows := b.rows + [r]))
  {
    var c := b.(rows := b.rows + [r]);
    forall t | t in c.txns ensures TxnOk(c.rows, t) { assert TxnOk(b.rows, t); }
    forall u ensures Balance(c.txns, Escrow(u)) == OpenQuotes(c.rows, u) {
      assert c.rows[..|b.rows|] == b.rows;
    }
    forall t | t in c.txns ensures t.rid < |b.rows| { assert TxnOk(b.rows, t); }
    assert StatusTells(c);
  }

  /**
   The exact condition under which one step keeps the books: each transaction balanced and unique,
   statuses that tell what was captured and settled, and each user's escrow equal to the quotes of
   the user's confirmed or running rows.
   */
  lemma StepKeepsBooksExactly(b: Ledger, ev: Event)
    requires BooksOk(b)
    ensures BooksOk(Apply(b, ev)) <==> Orderly(b, ev)
  {
    match ev
    case Insert(u, p, price, quoted) =>
      if price > 0 && quoted > 0 { InsertKeepsBooks(b, Row(u, p, price, quoted, Held)); }
    case DoCapture(rid) => if rid < |b.rows| { CaptureKeepsBooks(b, rid); }
    case StartJob(rid) =>
      if rid < |b.rows| {
        if Open(b.rows[rid].status) { StatusKeepsBooks(b, rid, Running); }
        else { StatusTellsBreaks(b, rid, Running); }
      }
    case MarkExpired(rid) =>
      if rid < |b.rows| {
        if !CapturedStatus(b.rows[rid].status) { StatusKeepsBooks(b, rid, Expired); }
        else { StatusTellsBreaks(b, rid, Expired); }
      }
    case DoSettle(rid, outcome, secs) =>
      if JobOutcome(outcome) { SettleKeepsBooks(b, rid, outcome, secs); }
      else if rid < |b.rows| && CanTransition(b.rows[rid].status, outcome) && Machine.Settlement(outcome).Some? {
        OffBookSettleBreaks(b, rid, outcome, secs);
      }
  }

  lemma StatusTellsBreaks(b: Ledger, rid: nat, s: RStatus)
    requires StatusTells(b) && rid < |b.rows|
    requires var o := b.rows[rid].status; CapturedStatus(o) != CapturedStatus(s) || JobOutcome(o) != JobOutcome(s)
    ensures !StatusTells(b.(rows := WithStatus(b.rows, rid, s)))
  {
    var c := b.(rows := WithStatus(b.rows, rid, s));
    assert c.rows[rid].status == s;
  }

  /** Settling as 'expired' or 'cancelled' records a settlement that the status does not tell. */
  lemma OffBookSettleBreaks(b: Ledger, rid: nat, outcome: RStatus, secs: int)
    requires BooksOk(b) && rid < |b.rows| && !JobOutcome(outcome)
    requires CanTransition(b.rows[rid].status, outcome) && Machine.Settlement(outcome).Some?
    ensures !StatusTells(SettleStep(b, rid, outcome, secs).0)
  {
    var r := b.rows[rid];
    assert r in b.rows;
    assert NoZeroEntry(SettleEntries(r, 0));
    var t := Txn(Settlement, rid, SettleEntries(r, 0));
    assert SettleStep(b, rid, outcome, secs).0.txns == b.txns + [t];
    HasTxnAppend(b.txns, t, Settlement, rid);
  }

  /** Hence the books hold over every orderly run from an empty database. */
  lemma {:induction false} RunKeepsBooks(b: Ledger, evs: seq<Event>)
    requires BooksOk(b) && OrderlyRun(b, evs)
    ensures BooksOk(Run(b, evs))
    decreases evs
  {
    if evs != [] {
      StepKeepsBooksExactly(b, evs[0]);
      RunKeepsBooks(Apply(b, evs[0]), evs[1..]);
    }
  }

  const EMPTY := Ledger([], [], map[])

  lemma EmptyIsOk()
    ensures BooksOk(EMPTY)
  {
  }

  // ---------------------------------------------------------------------------------------
  // Reputation.
  // ---------------------------------------------------------------------------------------

  /** The row says that a job ran on the provider; with `failed`, that the provider failed it. */
  function Record(r: Row, p: Provider, failed: bool): nat {
    if r.provider == p && (r.status == FailedProvider || (!failed && (r.status == Completed || r.status == FailedUser)))
    then 1 else 0
  }

  function Jobs(rows: seq<Row>, p: Provider, failed: bool): nat {
    if rows == [] then 0 else Jobs(rows[..|rows| - 1], p, failed) + Record(rows[|rows| - 1], p, failed)
  }

  /** Both counters of the provider exceed what its rows say by `extra`. */
  predicate CountersAre(b: Ledger, p: Provider, extra: nat) {
    p in b.reps ==> b.reps[p] == Rep(Jobs(b.rows, p, false) + extra, Jobs(b.rows, p, true) + extra)
  }

  lemma {:induction false} JobsUpdate(rows: seq<Row>, i: nat, r: Row, p: Provider, failed: bool)
    requires i < |rows|
    ensures Jobs(rows[i := r], p, failed) == Jobs(rows, p, failed) - Record(rows[i], p, failed) + Record(r, p, failed)
  {
    var n := |rows| - 1;
    if i == n {
      assert rows[i := r][..n] == rows[..n];
    } else {
      assert rows[i := r][..n] == rows[..n][i := r];
      JobsUpdate(rows[..n], i, r, p, failed);
    }
  }

  lemma JobsAfterStatus(b: Ledger, rid: nat, s: RStatus)
    requires rid < |b.rows| && !JobOutcome(b.rows[rid].status)
    ensures var r, after := b.rows[rid].(status := s), WithStatus(b.rows, rid, s);
      forall p, failed :: Jobs(after, p, failed) == Jobs(b.rows, p, failed) + Record(r, p, failed)
  {
    var r, after := b.rows[rid].(status := s), WithStatus(b.rows, rid, s);
    forall p, failed ensures Jobs(after, p, failed) == Jobs(b.rows, p, failed) + Record(r, p, failed) {
      JobsUpdate(b.rows, rid, b.rows[rid].(status := s), p, failed);
    }
  }

  lemma StatusKeepsReputation(b: Ledger, c: Ledger, rid: nat, s: RStatus, p: Provider, extra: nat)
    requires CountersAre(b, p, extra) && rid < |b.rows| && !JobOutcome(b.rows[rid].status) && !JobOutcome(s)
    requires c.reps == b.reps && c.rows == WithStatus(b.rows, rid, s)
    ensures CountersAre(c, p, extra)
  {
    JobsAfterStatus(b, rid, s);
  }

  lemma SettleBumps(b: Ledger, rid: nat, outcome: RStatus, secs: int)
    ensures var (c, res) := SettleStep(b, rid, outcome, secs);
      res.Settled? ==> rid < |b.rows| && c.reps == Bump(b.reps, b.rows[rid].provider, ReputationEffect(outcome))
  {
  }

  lemma BumpIsRecord(reps: map<Provider, Rep>, r: Row, outcome: RStatus, p: Provider)
    requires p in reps && JobOutcome(outcome)
    ensures p in Bump(reps, r.provider, ReputationEffect(outcome))
    ensures var q := r.(status := outcome);
      Bump(reps, r.provider, ReputationEffect(outcome))[p]
      == Rep(reps[p].total + Record(q, p, false), reps[p].failed + Record(q, p, true))
  {
  }

  lemma BumpedReputation(b: Ledger, c: Ledger, rid: nat, outcome: RStatus, p: Provider, extra: nat)
    requires CountersAre(b, p, extra) && JobOutcome(outcome) && rid < |b.rows| && !JobOutcome(b.rows[rid].status)
    requires c.rows == WithStatus(b.rows, rid, outcome)
    requires c.reps == Bump(b.reps, b.rows[rid].provider, ReputationEffect(outcome))
    ensures CountersAre(c, p, extra)
  {
    JobsAfterStatus(b, rid, outcome);
    if p in b.reps { BumpIsRecord(b.reps, b.rows[rid], outcome, p); }
  }

  lemma SettleKeepsReputation(b: Ledger, rid: nat, outcome: RStatus, secs: int, p: Provider, extra: nat)
    requires CountersAre(b, p, extra) && JobOutcome(outcome)
    ensures CountersAre(SettleStep(b, rid, outcome, secs).0, p, extra)
  {
    var (c, res) := SettleStep(b, rid, outcome, secs);
    SettleEffect(b, rid, outcome, secs);
    SettleBumps(b, rid, outcome, secs);
    if res.Settled? {
      BumpedReputation(b, c, rid, outcome, p, extra);
    }
  }

  /**
   Every orderly step of the ledger moves a provider's counters exactly as its rows move: a user's
   own failure counts as a job well run, a provider's as a failed one, a dispute as nothing.
   */
  lemma StepKeepsReputation(b: Ledger, ev: Event, p: Provider, extra: nat)
    requires BooksOk(b) && Orderly(b, ev) && CountersAre(b, p, extra)
    ensures CountersAre(Apply(b, ev), p, extra)
  {
    var c := Apply(b, ev);
    match ev
    case Insert(u, q, price, quoted) =>
      if c != b { assert c.rows[..|b.rows|] == b.rows; }
    case DoCapture(rid) =>
      if rid < |b.rows| && !HasTxn(b.txns, Capture, rid) { StatusKeepsReputation(b, c, rid, Confirmed, p, extra); }
    case StartJob(rid) => if rid < |b.rows| { StatusKeepsReputation(b, c, rid, Running, p, extra); }
    case MarkExpired(rid) => if rid < |b.rows| { StatusKeepsReputation(b, c, rid, Expired, p, extra); }
    case DoSettle(rid, outcome, secs) =>
      if JobOutcome(outcome) { SettleKeepsReputation(b, rid, outcome, secs, p, extra); }
      else { SettleEffect(b, rid, outcome, secs); }
  }

  lemma NoZeroConcat(es: seq<Entry>, fs: seq<Entry>)
    ensures NoZeroEntry(es + fs) <==> NoZeroEntry(es) && NoZeroEntry(fs)
  {
    assert forall e | e in es + fs :: e in es || e in fs;
    assert forall e | e in es || e in fs :: e in es + fs;
  }

  lemma NoZeroShare(r: Row, charge: int)
    requires 0 <= charge
    ensures NoZeroEntry(ShareEntries(r, charge)) <==> charge != 1
  {
    SplitIsExact(charge, PLATFORM_FEE_BPS);
    if charge > 0 {
      var s := Split(charge, PLATFORM_FEE_BPS).value;
      var x, y := Entry(ProviderBalance(r.provider), s.provider), Entry(PlatformRevenue, s.platform);
      assert ShareEntries(r, charge) == [x] + [y];
      NoZeroConcat([x], [y]);
      assert x in [x] && y in [y];
    }
  }

  /** The database accepts the entries of a settlement unless the charge is one paisa. */
  lemma OnlyOnePaisaIsRejected(r: Row, charge: int)
    requires r.quoted > 0 && 0 <= charge <= r.quoted
    ensures NoZeroEntry(SettleEntries(r, charge)) <==> charge != 1
  {
    var e0, e1, e2 := [Entry(Escrow(r.user), -r.quoted)], ShareEntries(r, charge), RefundEntries(r.quoted - charge);
    assert SettleEntries(r, charge) == e0 + e1 + e2;
    NoZeroShare(r, charge);
    NoZeroConcat(e0, e1);
    NoZeroConcat(e0 + e1, e2);
  }

  lemma NotYetSettled(b: Ledger, rid: nat)
    requires StatusTells(b) && rid < |b.rows| && !JobOutcome(b.rows[rid].status)
    ensures !HasTxn(b.txns, Settlement, rid)
  {
  }

  /**
   A job outcome settles a row in a state that allows it, except that a charge of one paisa is
   rejected by the database: the provider's share rounds to a zero entry. Such a row can only be
   settled with another charge.
   */
  lemma SettlementGoesThrough(b: Ledger, rid: nat, outcome: RStatus, secs: int)
    requires BooksOk(b) && rid < |b.rows| && JobOutcome(outcome) && CanTransition(b.rows[rid].status, outcome)
    ensures var (c, res) := SettleStep(b, rid, outcome, secs);
      var charge := Charge(b.rows[rid], Machine.Settlement(outcome).value, secs);
      if charge == 1 then c == b && res == RejectedByDatabase
      else c.rows == WithStatus(b.rows, rid, outcome) && res == Settled(charge, b.rows[rid].quoted - charge)
  {
    var charge := Charge(b.rows[rid], Machine.Settlement(outcome).value, secs);
    ChargeOfSoundRow(b, rid, Machine.Settlement(outcome).value, secs);
    NotYetSettled(b, rid);
    ThroughUnlessOnePaisa(b, rid, outcome, charge);
    assert SettleStep(b, rid, outcome, secs) == SettleWith(b, rid, outcome, charge);
  }

  lemma ThroughUnlessOnePaisa(b: Ledger, rid: nat, outcome: RStatus, charge: int)
    requires rid < |b.rows| && b.rows[rid].quoted > 0 && !HasTxn(b.txns, Settlement, rid)
    requires 0 <= charge <= b.rows[rid].quoted
    ensures var (c, res) := SettleWith(b, rid, outcome, charge);
      if charge == 1 then c == b && res == RejectedByDatabase
      else c.rows == WithStatus(b.rows, rid, outcome) && res == Settled(charge, b.rows[rid].quoted - charge)
  {
    OnlyOnePaisaIsRejected(b.rows[rid], charge);
  }

  /** A booking of at least one paisa, at a price of at least one, is a new held row with nothing captured; the database takes no other. */
  lemma InsertsExactly(b: Ledger, user: User, provider: Provider, price: int, quoted: int)
    requires BooksOk(b)
    ensures var c := Apply(b, Insert(user, provider, price, quoted));
      if price < 1 || quoted < 1 then c == b
      else
        && |c.rows| == |b.rows| + 1 && c.rows[..|b.rows|] == b.rows && c.txns == b.txns && c.reps == b.reps
        && var r := c.rows[|b.rows|];
           r.user == user && r.provider == provider && r.price == price && r.quoted == quoted && r.status == Held
  {
  }

  /** A row is captured once: the first call says so and moves its quote from the gateway to escrow, any other changes nothing. */
  lemma CapturesOnce(b: Ledger, rid: nat, a: Account)
    requires BooksOk(b) && rid < |b.rows|
    ensures var (c, first) := CaptureStep(b, rid);
      && (first <==> !CapturedStatus(b.rows[rid].status))
      && (!first ==> c == b)
      && CapturedStatus(c.rows[rid].status) && CaptureStep(c, rid) == (c, false)
      && Balance(c.txns, a) == Balance(b.txns, a) +
           if first && a == Escrow(b.rows[rid].user) then b.rows[rid].quoted
           else if first && a == GatewayClearing then -b.rows[rid].quoted else 0
  {
    var (c, first) := CaptureStep(b, rid);
    if first {
      var t := Txn(Capture, rid, CaptureEntries(b.rows[rid]));
      HasTxnAppend(b.txns, t, Capture, rid);
      BalanceAppend(b.txns, t, a);
      CaptureNets(b.rows[rid], a);
    }
  }

  // ---------------------------------------------------------------------------------------
  // Who is paid for which outcome.
  // ---------------------------------------------------------------------------------------

  /** What the marketplace promises: who bears a job that ended this way. */
  predicate Pays(es: seq<Entry>, r: Row, outcome: RStatus, computeSeconds: int) {
    var provider, platform, refund := Net(es, ProviderBalance(r.provider)), Net(es, PlatformRevenue), Net(es, Refunds);
    match outcome
    case Completed =>
      provider == r.quoted * 9 / 10 && platform == r.quoted - provider && refund == 0
    case FailedUser =>
      var charge := MeteredCharge(r.quoted, r.price, computeSeconds);
      provider == charge * 9 / 10 && platform == charge - provider && refund == r.quoted - charge
    case _ => provider == 0 && platform == 0 && refund == r.quoted
  }

  lemma ShareOf(charge: int)
    ensures ProviderShare(charge) == charge * 9 / 10
  {
  }

  lemma EntriesPay(r: Row, outcome: RStatus, secs: int)
    requires RowOk(r) && Machine.Settlement(outcome).Some?
    ensures Pays(SettleEntries(r, Charge(r, Machine.Settlement(outcome).value, secs)), r, outcome, secs)
  {
    var charge := Charge(r, Machine.Settlement(outcome).value, secs);
    ChargeWithinQuote(r, Machine.Settlement(outcome).value, secs);
    ShareOf(charge);
    SettleNets(r, charge, ProviderBalance(r.provider));
    SettleNets(r, charge, PlatformRevenue);
    SettleNets(r, charge, Refunds);
  }

  /** A settled row is not moved again by any orderly run. */
  lemma {:induction false} SettledRowStays(b: Ledger, evs: seq<Event>, rid: nat)
    requires BooksOk(b) && OrderlyRun(b, evs) && rid < |b.rows| && JobOutcome(b.rows[rid].status)
    ensures rid < |Run(b, evs).rows| && Run(b, evs).rows[rid] == b.rows[rid]
    decreases evs
  {
    if evs != [] {
      var c := Apply(b, evs[0]);
      StepKeepsBooksExactly(b, evs[0]);
      if evs[0].DoSettle? { SettleEffect(b, evs[0].rid, evs[0].outcome, evs[0].computeSeconds); }
      assert rid < |c.rows| && c.rows[rid] == b.rows[rid];
      SettledRowStays(c, evs[1..], rid);
    }
  }

  /** The report that the settlement of a row answers. */
  predicate Reported(evs: seq<Event>, t: Txn, r: Row) {
    exists k | 0 <= k < |evs| ::
      evs[k].DoSettle? && evs[k].rid == t.rid && evs[k].outcome == r.status && Pays(t.entries, r, r.status, evs[k].computeSeconds)
  }

  /**
   Over every orderly run each new settlement answers one reported outcome, which is the final
   status of its row, and pays by it: all to provider and platform for a completed job, what the
   reported seconds cost for a job that the user failed, all back to the user otherwise.
   */
  lemma {:induction false} OutcomePays(b: Ledger, evs: seq<Event>, t: Txn)
    requires BooksOk(b) && OrderlyRun(b, evs)
    requires t in Run(b, evs).txns && t !in b.txns && t.kind == Settlement
    ensures t.rid < |Run(b, evs).rows| && Reported(evs, t, Run(b, evs).rows[t.rid])
    decreases evs
  {
    if evs != [] {
      var c := Apply(b, evs[0]);
      StepKeepsBooksExactly(b, evs[0]);
      if t in c.txns {
        SettlesNow(b, evs[0], t);
        SettledRowStays(c, evs[1..], t.rid);
        assert evs[0].outcome == Run(b, evs).rows[t.rid].status;
      } else {
        OutcomePays(c, evs[1..], t);
        var r := Run(b, evs).rows[t.rid];
        var k :| 0 <= k < |evs[1..]| && evs[1..][k].DoSettle? && evs[1..][k].rid == t.rid
          && evs[1..][k].outcome == r.status && Pays(t.entries, r, r.status, evs[1..][k].computeSeconds);
        assert evs[k + 1] == evs[1..][k];
      }
    }
  }

  lemma SettlesNow(b: Ledger, ev: Event, t: Txn)
    requires BooksOk(b) && Orderly(b, ev) && t in Apply(b, ev).txns && t !in b.txns && t.kind == Settlement
    ensures var c := Apply(b, ev);
      && ev.DoSettle? && ev.rid == t.rid && t.rid < |c.rows| && c.rows[t.rid].status == ev.outcome && JobOutcome(ev.outcome)
      && Pays(t.entries, c.rows[t.rid], ev.outcome, ev.computeSeconds)
  {
    if ev.DoSettle? {
      SettleEffect(b, ev.rid, ev.outcome, ev.computeSeconds);
      assert b.rows[ev.rid] in b.rows;
      EntriesPay(b.rows[ev.rid], ev.outcome, ev.computeSeconds);
    }
  }

  lemma SettlingTheSettled(c: Ledger, rid: nat, o: RStatus, s: int)
    requires rid < |c.rows| && JobOutcome(c.rows[rid].status)
    ensures SettleStep(c, rid, o, s) == (c, if Machine.Settlement(o).None? then UnknownOutcome else CannotSettle)
  {
    assert Terminal(c.rows[rid].status);
  }

  /**
   Repeating a settlement changes nothing: whatever a first call with a job outcome left behind, a
   second call with any job outcome only repeats an error.
   */
  lemma SettleTwice(b: Ledger, rid: nat, o1: RStatus, s1: int, o2: RStatus, s2: int)
    requires SettleStep(b, rid, o1, s1).1.Settled? && JobOutcome(o1)
    ensures SettleStep(SettleStep(b, rid, o1, s1).0, rid, o2, s2) == (SettleStep(b, rid, o1, s1).0, if Machine.Settlement(o2).None? then UnknownOutcome else CannotSettle)
  {
    SettleEffect(b, rid, o1, s1);
    SettlingTheSettled(SettleStep(b, rid, o1, s1).0, rid, o2, s2);
  }
}

module LedgerDbImpl {
  import opened Options
  import opened Machine
  import opened Settle
  import opened Books

  /** The tables that capture and settlement update, each method one database transaction. */
  class LedgerDb {
    var rows: seq<Row>
    var txns: seq<Txn>
    var reps: map<Provider, Rep>

    ghost function Contents(): Ledger
      reads this
    {
      Ledger(rows, txns, reps)
    }

    constructor (reps: map<Provider, Rep>)
      ensures Contents() == Ledger([], [], reps)
    {
      rows := [];
      txns := [];
      this.reps := reps;
    }

    /** The part of `commitNodeAndCapture` that follows the node's acknowledgment. */
    method Capture(rid: nat) returns (captured: bool)
      requires rid < |rows|
      modifies this
      ensures (Contents(), captured) == CaptureStep(old(Contents()), rid)
    {
      if HasTxn(txns, Kind.Capture, rid) {
        return false;
      }
      var resv := rows[rid];
      var entries := [Entry(GatewayClearing, -resv.quoted)];
      entries := entries + [Entry(Escrow(resv.user), resv.quoted)];
      assert entries == CaptureEntries(resv);
      txns := txns + [Txn(Kind.Capture, rid, entries)];
      rows := rows[rid := resv.(status := Confirmed)];
      captured := true;
    }

    method SettleReservation(rid: nat, outcome: RStatus, computeSeconds: int) returns (result: SettleResult)
      modifies this
      ensures (Contents(), result) == SettleStep(old(Contents()), rid, outcome, computeSeconds)
    {
      if rid >= |rows| {
        return NotFound;
      }
      var resv := rows[rid];
      var rule := Machine.Settlement(outcome);
      if rule.None? {
        return UnknownOutcome;
      }
      if !CanTransition(resv.status, outcome) {
        return CannotSettle;
      }
      var charge := 0;
      if rule.value.SettleFull? {
        charge := resv.quoted;
      } else if rule.value.SettleMetered? {
        charge := MeteredCharge(resv.quoted, resv.price, computeSeconds);
      }
      if HasTxn(txns, Kind.Settlement, rid) {
        return AlreadySettled;
      }
      var accepted, inserted := InsertEntries(EntriesOf(resv, charge));
      if !accepted {
        return RejectedByDatabase;
      }
      txns := txns + [Txn(Kind.Settlement, rid, inserted)];
      rows := rows[rid := resv.(status := outcome)];
      BumpReputation(resv.provider, ReputationEffect(outcome));
      result := Settled(charge, resv.quoted - charge);
    }

    method BumpReputation(provider: Provider, effect: Option<Effect>)
      modifies this`reps
      ensures reps == Bump(old(reps), provider, effect)
    {
      if effect.None? || provider !in reps {
        return;
      }
      var failed := if effect.value.Failure? then 1 else 0;
      reps := reps[provider := Rep(reps[provider].total + 1, reps[provider].failed + failed)];
    }

    /** The entry list is pushed together piece by piece, leaving out what is not owed. */
    static function EntriesOf(resv: Row, charge: int): (entries: seq<Entry>)
      ensures entries == SettleEntries(resv, charge)
    {
      var debit := [Entry(Escrow(resv.user), -resv.quoted)];
      var paid :=
        if charge > 0 then
          var shares := Split(charge, PLATFORM_FEE_BPS).value;
          debit + ([Entry(ProviderBalance(resv.provider), shares.provider)] + [Entry(PlatformRevenue, shares.platform)])
        else debit;
      var refund := resv.quoted - charge;
      if refund > 0 then paid + [Entry(Refunds, refund)] else paid
    }

    /** One INSERT per entry; the first that violates the non-zero CHECK aborts the transaction. */
    static method InsertEntries(entries: seq<Entry>) returns (accepted: bool, inserted: seq<Entry>)
      ensures accepted <==> NoZeroEntry(entries)
      ensures accepted ==> inserted == entries
    {
      inserted := [];
      for i := 0 to |entries|
        invariant inserted == entries[..i]
        invariant NoZeroEntry(inserted)
      {
        if entries[i].amount == 0 {
          assert entries[i] in entries;
          return false, inserted;
        }
        inserted := inserted + [entries[i]];
      }
      assert entries[..|entries|] == entries;
      accepted := true;
    }
  }
}
