/** Ranking of candidates (backend/src/marketplace/scheduler.js), in exact real arithmetic. */
module Ranking {
  import opened Options
  import opened Availability

  datatype Weights = Weights(cost: real, perf: real, reliability: real, latency: real)

  datatype Mode = Cheapest | BestValue | Fastest

  function WeightsOf(mode: Mode): Weights {
    match mode
    case Cheapest => Weights(0.70, 0.05, 0.20, 0.05)
    case BestValue => Weights(0.35, 0.30, 0.25, 0.10)
    case Fastest => Weights(0.05, 0.60, 0.20, 0.15)
  }

  datatype Node = Node(
    id: nat, online: bool, vramMb: int, cpuCores: int, ramMb: int, pricePaiseHr: real,
    perfScore: Option<real>, reliability: Option<real>, latencyMs: Option<real>, availability: seq<Interval>)

  datatype Request = Request(
    minVramMb: int, minCpuCores: int, minRamMb: int, maxPricePaiseHr: Option<real>, startsAt: int, endsAt: int)

  predicate Feasible(n: Node, req: Request) {
    && n.online
    && n.vramMb >= req.minVramMb && n.cpuCores >= req.minCpuCores && n.ramMb >= req.minRamMb
    && (req.maxPricePaiseHr.Some? ==> n.pricePaiseHr <= req.maxPricePaiseHr.value)
    && CoversWindow(n.availability, req.startsAt, req.endsAt)
  }

  function OrElse(o: Option<real>, d: real): real {
    if o.Some? then o.value else d
  }

  function Clamp(v: real, lo: real, hi: real): real {
    var m := if v > lo then v else lo;
    if m < hi then m else hi
  }

  function Hours(req: Request): real {
    (req.endsAt - req.startsAt) as real / 3600000.0
  }

  function ExpectedCost(n: Node, hours: real): real {
    n.pricePaiseHr * hours / Clamp(OrElse(n.reliability, 0.5), 0.01, 1.0)
  }

  function MinOf(v: seq<real>): real
    requires v != []
  {
    if |v| == 1 then v[0]
    else
      var m := MinOf(v[1..]);
      if v[0] < m then v[0] else m
  }

  function MaxOf(v: seq<real>): real
    requires v != []
  {
    if |v| == 1 then v[0]
    else
      var m := MaxOf(v[1..]);
      if v[0] > m then v[0] else m
  }

  /** One value on the [0,1] scale of its column; a column without spread is neutral. */
  function Normal(v: real, lo: real, hi: real, lowerIsBetter: bool): real {
    if hi == lo then 0.5
    else
      var t := (v - lo) / (hi - lo);
      if lowerIsBetter then 1.0 - t else t
  }

  datatype Column = Cost | Perf | Reliability | Latency

  function ValueOf(n: Node, c: Column, hours: real): real {
    match c
    case Cost => ExpectedCost(n, hours)
    case Perf => OrElse(n.perfScore, 0.0)
    case Reliability => OrElse(n.reliability, 0.5)
    case Latency => OrElse(n.latencyMs, 0.0)
  }

  predicate LowerIsBetter(c: Column) {
    c == Cost || c == Latency
  }

  function ColumnOf(pool: seq<Node>, c: Column, hours: real): (r: seq<real>)
    ensures |r| == |pool|
  {
    if pool == [] then [] else [ValueOf(pool[0], c, hours)] + ColumnOf(pool[1..], c, hours)
  }

  /** The normalized value of a node in a column of the pool. */
  function Grade(pool: seq<Node>, n: Node, c: Column, hours: real): real
    requires pool != []
  {
    var v := ColumnOf(pool, c, hours);
    Normal(ValueOf(n, c, hours), MinOf(v), MaxOf(v), LowerIsBetter(c))
  }

  function Times(f: real, x: real): real {
    f * x
  }

  function Score(pool: seq<Node>, n: Node, w: Weights, hours: real): real
    requires pool != []
  {
    Times(w.cost, Grade(pool, n, Cost, hours)) + Times(w.perf, Grade(pool, n, Perf, hours))
    + Times(w.reliability, Grade(pool, n, Reliability, hours)) + Times(w.latency, Grade(pool, n, Latency, hours))
  }

  datatype Ranked = Ranked(node: Node, score: real)

  function FeasibleOnes(nodes: seq<Node>, req: Request): seq<Node> {
    if nodes == [] then []
    else (if Feasible(nodes[0], req) then [nodes[0]] else []) + FeasibleOnes(nodes[1..], req)
  }

  function Scored(pool: seq<Node>, rest: seq<Node>, w: Weights, hours: real): seq<Ranked>
    requires pool != []
    decreases rest
  {
    if rest == [] then [] else [Ranked(rest[0], Score(pool, rest[0], w, hours))] + Scored(pool, rest[1..], w, hours)
  }

  function InsertByScore(x: Ranked, s: seq<Ranked>): seq<Ranked> {
    if s == [] || x.score >= s[0].score then [x] + s else [s[0]] + InsertByScore(x, s[1..])
  }

  /** `.sort((a, b) => b.score - a.score)`, which is stable. */
  function SortByScore(s: seq<Ranked>): seq<Ranked> {
    if s == [] then [] else InsertByScore(s[0], SortByScore(s[1..]))
  }

  function Rank(nodes: seq<Node>, req: Request, mode: Mode): seq<Ranked> {
    var pool := FeasibleOnes(nodes, req);
    if pool == [] then [] else SortByScore(Scored(pool, pool, WeightsOf(mode), Hours(req)))
  }

  // ---------------------------------------------------------------------------------------
  // Columns.
  // ---------------------------------------------------------------------------------------

  lemma {:induction false} BoundsHold(v: seq<real>, x: real)
    requires x in v
    ensures MinOf(v) <= x <= MaxOf(v)
  {
    if |v| > 1 && x in v[1..] {
      BoundsHold(v[1..], x);
    }
  }

  lemma {:induction false} ColumnHas(pool: seq<Node>, n: Node, c: Column, hours: real)
    requires n in pool
    ensures ValueOf(n, c, hours) in ColumnOf(pool, c, hours)
  {
    if n != pool[0] {
      ColumnHas(pool[1..], n, c, hours);
    }
  }

  lemma Quotient(x: real, y: real, d: real)
    requires d > 0.0
    ensures x <= y ==> x / d <= y / d
    ensures 0.0 <= x ==> 0.0 <= x / d
    ensures x <= d ==> x / d <= 1.0
  {
  }

  /** A grade lies in [0,1], and a better value never has a lower grade. */
  lemma NormalBounds(v: real, v': real, lo: real, hi: real, lower: bool)
    requires lo <= v <= hi && lo <= v' <= hi
    ensures 0.0 <= Normal(v, lo, hi, lower) <= 1.0
    ensures (if lower then v <= v' else v >= v') ==> Normal(v, lo, hi, lower) >= Normal(v', lo, hi, lower)
  {
    if lo < hi {
      Quotient(v - lo, v' - lo, hi - lo);
      Quotient(v' - lo, v - lo, hi - lo);
    }
  }

  predicate NoWorse(a: real, b: real, c: Column) {
    if LowerIsBetter(c) then a <= b else a >= b
  }

  lemma GradeBounds(pool: seq<Node>, n: Node, n': Node, c: Column, hours: real)
    requires n in pool && n' in pool
    ensures 0.0 <= Grade(pool, n, c, hours) <= 1.0
    ensures NoWorse(ValueOf(n, c, hours), ValueOf(n', c, hours), c) ==> Grade(pool, n, c, hours) >= Grade(pool, n', c, hours)
  {
    var v := ColumnOf(pool, c, hours);
    ColumnHas(pool, n, c, hours);
    ColumnHas(pool, n', c, hours);
    BoundsHold(v, ValueOf(n, c, hours));
    BoundsHold(v, ValueOf(n', c, hours));
    NormalBounds(ValueOf(n, c, hours), ValueOf(n', c, hours), MinOf(v), MaxOf(v), LowerIsBetter(c));
  }

  lemma WeightsSumToOne(mode: Mode)
    ensures var w := WeightsOf(mode);
      && w.cost >= 0.0 && w.perf >= 0.0 && w.reliability >= 0.0 && w.latency >= 0.0
      && w.cost + w.perf + w.reliability + w.latency == 1.0
  {
  }

  lemma Weighted(w: real, g: real)
    requires w >= 0.0 && 0.0 <= g <= 1.0
    ensures 0.0 <= Times(w, g) <= w
  {
  }

  lemma WeightedLe(w: real, g: real, g': real)
    requires w >= 0.0 && g <= g'
    ensures Times(w, g) <= Times(w, g')
  {
  }

  /** Every score lies in [0,1]. */
  lemma ScoreInUnit(pool: seq<Node>, n: Node, mode: Mode, hours: real)
    requires n in pool
    ensures 0.0 <= Score(pool, n, WeightsOf(mode), hours) <= 1.0
  {
    var w := WeightsOf(mode);
    WeightsSumToOne(mode);
    GradeBounds(pool, n, n, Cost, hours);
    GradeBounds(pool, n, n, Perf, hours);
    GradeBounds(pool, n, n, Reliability, hours);
    GradeBounds(pool, n, n, Latency, hours);
    Weighted(w.cost, Grade(pool, n, Cost, hours));
    Weighted(w.perf, Grade(pool, n, Perf, hours));
    Weighted(w.reliability, Grade(pool, n, Reliability, hours));
    Weighted(w.latency, Grade(pool, n, Latency, hours));
  }

  /** No worse on price, performance, reliability and latency. */
  predicate Dominates(a: Node, b: Node) {
    && 0.0 <= a.pricePaiseHr <= b.pricePaiseHr
    && OrElse(a.perfScore, 0.0) >= OrElse(b.perfScore, 0.0)
    && OrElse(a.reliability, 0.5) >= OrElse(b.reliability, 0.5)
    && OrElse(a.latencyMs, 0.0) <= OrElse(b.latencyMs, 0.0)
  }

  lemma QuotientLe(x: real, y: real, r: real, s: real)
    requires 0.0 <= x <= y && 0.0 < s <= r
    ensures x / r <= y / s
  {
    Quotient(x, y, s);
    assert (x / r) * r == x && (x / s) * s == x;
    assert x / s >= 0.0;
    assert (x / s) * s <= (x / s) * r;
    if x / r > x / s {
      assert (x / r) * r > (x / s) * r;
    }
  }

  lemma TimesLe(x: real, y: real, h: real)
    requires x <= y && h >= 0.0
    ensures x * h <= y * h
  {
  }

  lemma PriceLe(p: real, q: real, h: real, r: real, s: real)
    requires 0.0 <= p <= q && h >= 0.0 && 0.0 < s <= r
    ensures p * h / r <= q * h / s
  {
    TimesLe(p, q, h);
    TimesLe(0.0, p, h);
    QuotientLe(p * h, q * h, r, s);
  }

  lemma DominatesOnCost(a: Node, b: Node, hours: real)
    requires Dominates(a, b) && hours >= 0.0
    ensures ExpectedCost(a, hours) <= ExpectedCost(b, hours)
  {
    PriceLe(a.pricePaiseHr, b.pricePaiseHr, hours,
      Clamp(OrElse(a.reliability, 0.5), 0.01, 1.0), Clamp(OrElse(b.reliability, 0.5), 0.01, 1.0));
  }

  /** A dominating node never scores lower, for a window that does not run backwards. */
  lemma DominatingNeverScoresLower(pool: seq<Node>, a: Node, b: Node, mode: Mode, hours: real)
    requires a in pool && b in pool && Dominates(a, b) && hours >= 0.0
    ensures Score(pool, a, WeightsOf(mode), hours) >= Score(pool, b, WeightsOf(mode), hours)
  {
    var w := WeightsOf(mode);
    WeightsSumToOne(mode);
    DominatesOnCost(a, b, hours);
    GradeBounds(pool, a, b, Cost, hours);
    GradeBounds(pool, a, b, Perf, hours);
    GradeBounds(pool, a, b, Reliability, hours);
    GradeBounds(pool, a, b, Latency, hours);
    WeightedLe(w.cost, Grade(pool, b, Cost, hours), Grade(pool, a, Cost, hours));
    WeightedLe(w.perf, Grade(pool, b, Perf, hours), Grade(pool, a, Perf, hours));
    WeightedLe(w.reliability, Grade(pool, b, Reliability, hours), Grade(pool, a, Reliability, hours));
    WeightedLe(w.latency, Grade(pool, b, Latency, hours), Grade(pool, a, Latency, hours));
  }

  /** A strictly better value has a strictly higher grade. */
  lemma NormalStrict(v: real, v': real, lo: real, hi: real, lower: bool)
    requires lo <= v <= hi && lo <= v' <= hi && (if lower then v < v' else v > v')
    ensures Normal(v, lo, hi, lower) > Normal(v', lo, hi, lower)
  {
    QuotientStrict(v - lo, v' - lo, hi - lo);
    QuotientStrict(v' - lo, v - lo, hi - lo);
  }

  lemma QuotientStrict(x: real, y: real, d: real)
    requires d > 0.0
    ensures x < y ==> x / d < y / d
  {
    assert x / d * d == x && y / d * d == y;
  }

  lemma GradesTell(pool: seq<Node>, a: Node, b: Node, c: Column, hours: real)
    requires a in pool && b in pool && NoWorse(ValueOf(a, c, hours), ValueOf(b, c, hours), c)
    ensures Grade(pool, a, c, hours) >= Grade(pool, b, c, hours)
    ensures Grade(pool, a, c, hours) == Grade(pool, b, c, hours) <==> ValueOf(a, c, hours) == ValueOf(b, c, hours)
  {
    GradeBounds(pool, a, b, c, hours);
    var v := ColumnOf(pool, c, hours);
    ColumnHas(pool, a, c, hours);
    ColumnHas(pool, b, c, hours);
    BoundsHold(v, ValueOf(a, c, hours));
    BoundsHold(v, ValueOf(b, c, hours));
    if ValueOf(a, c, hours) != ValueOf(b, c, hours) {
      NormalStrict(ValueOf(a, c, hours), ValueOf(b, c, hours), MinOf(v), MaxOf(v), LowerIsBetter(c));
    }
  }

  lemma WeightedStrict(w: real, g: real, g': real)
    requires w > 0.0 && g <= g'
    ensures Times(w, g) <= Times(w, g') && (Times(w, g) == Times(w, g') <==> g == g')
  {
    if g < g' { assert w * (g' - g) > 0.0; }
  }

  predicate EqualOnAll(a: Node, b: Node, hours: real) {
    && ValueOf(a, Cost, hours) == ValueOf(b, Cost, hours)
    && ValueOf(a, Perf, hours) == ValueOf(b, Perf, hours)
    && ValueOf(a, Reliability, hours) == ValueOf(b, Reliability, hours)
    && ValueOf(a, Latency, hours) == ValueOf(b, Latency, hours)
  }

  lemma TermTies(pool: seq<Node>, a: Node, b: Node, c: Column, hours: real, w: real)
    requires a in pool && b in pool && NoWorse(ValueOf(a, c, hours), ValueOf(b, c, hours), c) && w > 0.0
    ensures Times(w, Grade(pool, b, c, hours)) <= Times(w, Grade(pool, a, c, hours))
    ensures Times(w, Grade(pool, b, c, hours)) == Times(w, Grade(pool, a, c, hours)) <==> ValueOf(a, c, hours) == ValueOf(b, c, hours)
  {
    GradesTell(pool, a, b, c, hours);
    WeightedStrict(w, Grade(pool, b, c, hours), Grade(pool, a, c, hours));
  }

  /** Every criterion counts in every mode: a dominating node ties only if it is equal on all four columns. */
  lemma TiesOnlyWhenEqual(pool: seq<Node>, a: Node, b: Node, mode: Mode, hours: real)
    requires a in pool && b in pool && Dominates(a, b) && hours >= 0.0
    ensures Score(pool, a, WeightsOf(mode), hours) == Score(pool, b, WeightsOf(mode), hours) <==> EqualOnAll(a, b, hours)
  {
    var w := WeightsOf(mode);
    DominatesOnCost(a, b, hours);
    TermTies(pool, a, b, Cost, hours, w.cost);
    TermTies(pool, a, b, Perf, hours, w.perf);
    TermTies(pool, a, b, Reliability, hours, w.reliability);
    TermTies(pool, a, b, Latency, hours, w.latency);
  }

  // ---------------------------------------------------------------------------------------
  // What a mode means: which criteria decide.
  // ---------------------------------------------------------------------------------------

  /** What a criterion counts for in a mode, in percent. */
  function Percent(mode: Mode, c: Column): int {
    match mode
    case Cheapest => (match c case Cost => 70 case Perf => 5 case Reliability => 20 case Latency => 5)
    case BestValue => (match c case Cost => 35 case Perf => 30 case Reliability => 25 case Latency => 10)
    case Fastest => (match c case Cost => 5 case Perf => 60 case Reliability => 20 case Latency => 15)
  }

  function Part(mode: Mode, cs: set<Column>, c: Column): int {
    if c in cs then Percent(mode, c) else 0
  }

  function Worth(mode: Mode, cs: set<Column>): int {
    Part(mode, cs, Cost) + Part(mode, cs, Perf) + Part(mode, cs, Reliability) + Part(mode, cs, Latency)
  }

  function WeightOf(w: Weights, c: Column): real {
    match c
    case Cost => w.cost
    case Perf => w.perf
    case Reliability => w.reliability
    case Latency => w.latency
  }

  lemma WeightsAreThePercents(mode: Mode, c: Column)
    ensures WeightOf(WeightsOf(mode), c) == Percent(mode, c) as real / 100.0
  {
  }

  /** No node of the pool is better on the column; with `Worst`, none is worse. */
  predicate Best(pool: seq<Node>, n: Node, c: Column, hours: real) {
    forall m | m in pool :: NoWorse(ValueOf(n, c, hours), ValueOf(m, c, hours), c)
  }

  predicate Worst(pool: seq<Node>, n: Node, c: Column, hours: real) {
    forall m | m in pool :: NoWorse(ValueOf(m, c, hours), ValueOf(n, c, hours), c)
  }

  lemma {:induction false} ExtremesAreValues(v: seq<real>)
    requires v != []
    ensures MinOf(v) in v && MaxOf(v) in v
  {
    if |v| > 1 {
      ExtremesAreValues(v[1..]);
    }
  }

  lemma {:induction false} ColumnIsOf(pool: seq<Node>, c: Column, hours: real, x: real)
    requires x in ColumnOf(pool, c, hours)
    ensures exists m | m in pool :: ValueOf(m, c, hours) == x
  {
    if x == ValueOf(pool[0], c, hours) {
      assert pool[0] in pool;
    } else {
      assert x in ColumnOf(pool[1..], c, hours);
      ColumnIsOf(pool[1..], c, hours, x);
    }
  }

  lemma BestIsExtreme(pool: seq<Node>, n: Node, c: Column, hours: real)
    requires n in pool
    ensures var v := ColumnOf(pool, c, hours);
      && (Best(pool, n, c, hours) ==> ValueOf(n, c, hours) == if LowerIsBetter(c) then MinOf(v) else MaxOf(v))
      && (Worst(pool, n, c, hours) ==> ValueOf(n, c, hours) == if LowerIsBetter(c) then MaxOf(v) else MinOf(v))
  {
    var v := ColumnOf(pool, c, hours);
    ColumnHas(pool, n, c, hours);
    BoundsHold(v, ValueOf(n, c, hours));
    ExtremesAreValues(v);
    ColumnIsOf(pool, c, hours, MinOf(v));
    ColumnIsOf(pool, c, hours, MaxOf(v));
  }

  lemma NormalExtremes(lo: real, hi: real, lower: bool)
    requires lo != hi
    ensures Normal(lo, lo, hi, lower) == (if lower then 1.0 else 0.0)
    ensures Normal(hi, lo, hi, lower) == (if lower then 0.0 else 1.0)
  {
    assert (hi - lo) / (hi - lo) == 1.0 && (lo - lo) / (hi - lo) == 0.0;
  }

  /** On a column with any spread the best node has grade 1 and the worst grade 0. */
  lemma ExtremeGrades(pool: seq<Node>, a: Node, b: Node, c: Column, hours: real)
    requires a in pool && b in pool && Best(pool, a, c, hours) && Worst(pool, b, c, hours)
    requires ValueOf(a, c, hours) != ValueOf(b, c, hours)
    ensures Grade(pool, a, c, hours) == 1.0 && Grade(pool, b, c, hours) == 0.0
  {
    BestIsExtreme(pool, a, c, hours);
    BestIsExtreme(pool, b, c, hours);
    var v := ColumnOf(pool, c, hours);
    NormalExtremes(MinOf(v), MaxOf(v), LowerIsBetter(c));
  }

  /** `a` has the best value of the pool on each of these columns, and `b` the worst. */
  predicate Leads(pool: seq<Node>, a: Node, b: Node, cs: set<Column>, hours: real) {
    forall c | c in cs :: Best(pool, a, c, hours) && Worst(pool, b, c, hours) && ValueOf(a, c, hours) != ValueOf(b, c, hours)
  }

  lemma TermOfLead(pool: seq<Node>, a: Node, b: Node, cs: set<Column>, hours: real, mode: Mode, c: Column)
    requires a in pool && b in pool && Leads(pool, a, b, cs, hours)
    ensures var w := WeightOf(WeightsOf(mode), c);
      && Times(w, Grade(pool, a, c, hours)) >= Part(mode, cs, c) as real / 100.0
      && Times(w, Grade(pool, b, c, hours)) <= (Percent(mode, c) - Part(mode, cs, c)) as real / 100.0
  {
    WeightsAreThePercents(mode, c);
    GradeBounds(pool, a, b, c, hours);
    GradeBounds(pool, b, a, c, hours);
    if c in cs {
      ExtremeGrades(pool, a, b, c, hours);
    } else {
      Weighted(WeightOf(WeightsOf(mode), c), Grade(pool, a, c, hours));
      Weighted(WeightOf(WeightsOf(mode), c), Grade(pool, b, c, hours));
    }
  }

  /** Leading on some columns is worth at least their percentage, and at most the rest is left for the other. */
  lemma LeadIsWorth(pool: seq<Node>, a: Node, b: Node, cs: set<Column>, hours: real, mode: Mode)
    requires a in pool && b in pool && Leads(pool, a, b, cs, hours)
    ensures Score(pool, a, WeightsOf(mode), hours) >= Worth(mode, cs) as real / 100.0
    ensures Score(pool, b, WeightsOf(mode), hours) <= (100 - Worth(mode, cs)) as real / 100.0
  {
    TermOfLead(pool, a, b, cs, hours, mode, Cost);
    TermOfLead(pool, a, b, cs, hours, mode, Perf);
    TermOfLead(pool, a, b, cs, hours, mode, Reliability);
    TermOfLead(pool, a, b, cs, hours, mode, Latency);
  }

  const ALL := {Cost, Perf, Reliability, Latency}

  /** One node leads on these columns and the other on all the rest: their scores are what the columns are worth. */
  lemma SplitLeadsScore(pool: seq<Node>, a: Node, b: Node, cs: set<Column>, hours: real, mode: Mode)
    requires a in pool && b in pool && Leads(pool, a, b, cs, hours) && Leads(pool, b, a, ALL - cs, hours)
    ensures Score(pool, a, WeightsOf(mode), hours) == Worth(mode, cs) as real / 100.0
    ensures Score(pool, b, WeightsOf(mode), hours) == (100 - Worth(mode, cs)) as real / 100.0
  {
    assert Worth(mode, ALL - cs) == 100 - Worth(mode, cs);
    LeadIsWorth(pool, a, b, cs, hours, mode);
    LeadIsWorth(pool, b, a, ALL - cs, hours, mode);
  }

  /** Leading on these columns wins in every pool, whatever the other columns say. */
  ghost predicate Decide(mode: Mode, cs: set<Column>) {
    forall pool: seq<Node>, a, b, hours | a in pool && b in pool && Leads(pool, a, b, cs, hours) ::
      Score(pool, a, WeightsOf(mode), hours) > Score(pool, b, WeightsOf(mode), hours)
  }

  /** A node that is good on these columns; its price makes its expected cost for an hour 1 or 2. */
  function Sample(cs: set<Column>): Node {
    var reliability := if Reliability in cs then 1.0 else 0.5;
    Node(0, true, 0, 0, 0, (if Cost in cs then 1.0 else 2.0) * reliability, Some(if Perf in cs then 1.0 else 0.0),
      Some(reliability), Some(if Latency in cs then 0.0 else 1.0), [])
  }

  lemma SampleValue(cs: set<Column>, c: Column)
    ensures ValueOf(Sample(cs), c, 1.0) ==
      match c
      case Cost => if c in cs then 1.0 else 2.0
      case Perf => if c in cs then 1.0 else 0.0
      case Reliability => if c in cs then 1.0 else 0.5
      case Latency => if c in cs then 0.0 else 1.0
  {
  }

  lemma SampleLeads(cs: set<Column>, ds: set<Column>, pool: seq<Node>)
    requires cs !! ds && forall n | n in pool :: n == Sample(cs) || n == Sample(ds)
    ensures Leads(pool, Sample(cs), Sample(ds), cs, 1.0)
  {
    forall c | c in cs
      ensures Best(pool, Sample(cs), c, 1.0) && Worst(pool, Sample(ds), c, 1.0)
      ensures ValueOf(Sample(cs), c, 1.0) != ValueOf(Sample(ds), c, 1.0)
    {
      assert c !in ds;
      SampleValue(cs, c);
      SampleValue(ds, c);
    }
  }

  lemma HalfDoesNotDecide(mode: Mode, cs: set<Column>)
    requires Worth(mode, cs) <= 50
    ensures !Decide(mode, cs)
  {
    var a, b := Sample(cs), Sample(ALL - cs);
    var pool := [a, b];
    SampleLeads(cs, ALL - cs, pool);
    SampleLeads(ALL - cs, cs, pool);
    assert a in pool && b in pool;
    SplitLeadsScore(pool, a, b, cs, 1.0, mode);
  }

  lemma MoreThanHalfDecides(mode: Mode, cs: set<Column>)
    requires Worth(mode, cs) > 50
    ensures Decide(mode, cs)
  {
    forall pool: seq<Node>, a, b, hours | a in pool && b in pool && Leads(pool, a, b, cs, hours)
      ensures Score(pool, a, WeightsOf(mode), hours) > Score(pool, b, WeightsOf(mode), hours)
    {
      LeadIsWorth(pool, a, b, cs, hours, mode);
    }
  }

  /**
   What the modes are for. In 'cheapest' the node with the lowest expected cost beats the one with
   the highest whatever else they are like, and nothing else has that power; in 'fastest' the same
   holds of performance; in 'best value' it takes two of cost, performance and reliability.
   */
  lemma ModesDecideExactly(mode: Mode, cs: set<Column>)
    ensures Decide(mode, cs) <==>
      match mode
      case Cheapest => Cost in cs
      case BestValue => |{Cost, Perf, Reliability} * cs| >= 2
      case Fastest => Perf in cs
  {
    MajorityOfThree(cs);
    if Worth(mode, cs) > 50 {
      MoreThanHalfDecides(mode, cs);
    } else {
      HalfDoesNotDecide(mode, cs);
    }
  }

  lemma MajorityOfThree(cs: set<Column>)
    ensures |{Cost, Perf, Reliability} * cs| ==
      (if Cost in cs then 1 else 0) + (if Perf in cs then 1 else 0) + (if Reliability in cs then 1 else 0)
  {
    var x := if Cost in cs then {Cost} else {};
    var y := if Perf in cs then {Perf} else {};
    var z := if Reliability in cs then {Reliability} else {};
    assert {Cost, Perf, Reliability} * cs == x + y + z;
  }

  /** How likely a run is taken to finish: one half for a node without history, and never under one in a hundred. */
  function ChanceToFinish(n: Node): (r: real)
    ensures 0.0 < r <= 1.0
  {
    if n.reliability.None? then 0.5
    else if n.reliability.value <= 0.01 then 0.01
    else if n.reliability.value >= 1.0 then 1.0
    else n.reliability.value
  }

  /** Price is judged by what a finished run costs: a cheaper node wins on cost only if it is not flakier by more than it is cheaper. */
  lemma ReliabilityOffsetsPrice(a: Node, b: Node, hours: real)
    requires hours > 0.0
    ensures ExpectedCost(a, hours) <= ExpectedCost(b, hours)
      <==> a.pricePaiseHr * ChanceToFinish(b) <= b.pricePaiseHr * ChanceToFinish(a)
  {
    CrossMultiply(a.pricePaiseHr, b.pricePaiseHr, hours, ChanceToFinish(a), ChanceToFinish(b));
  }

  /** What a node without history counts as. */
  function WithDefaults(n: Node): Node {
    n.(perfScore := if n.perfScore.None? then Some(0.0) else n.perfScore,
       reliability := if n.reliability.None? then Some(0.5) else n.reliability,
       latencyMs := if n.latencyMs.None? then Some(0.0) else n.latencyMs)
  }

  lemma DefaultsFillIn(n: Node, c: Column, hours: real)
    ensures ValueOf(n, c, hours) == ValueOf(WithDefaults(n), c, hours)
  {
  }

  /** A column on which all candidates are equal counts half for each of them. */
  lemma EqualColumnIsNeutral(pool: seq<Node>, n: Node, c: Column, hours: real)
    requires n in pool && forall m | m in pool :: ValueOf(m, c, hours) == ValueOf(n, c, hours)
    ensures Grade(pool, n, c, hours) == 0.5
  {
    var v := ColumnOf(pool, c, hours);
    ExtremesAreValues(v);
    ColumnIsOf(pool, c, hours, MinOf(v));
    ColumnIsOf(pool, c, hours, MaxOf(v));
  }

  /** So candidates that are all alike, or a single one, score exactly one half. */
  lemma AlikeScoreHalf(pool: seq<Node>, n: Node, mode: Mode, hours: real)
    requires n in pool && forall m, c | m in pool :: ValueOf(m, c, hours) == ValueOf(n, c, hours)
    ensures Score(pool, n, WeightsOf(mode), hours) == 0.5
  {
    EqualColumnIsNeutral(pool, n, Cost, hours);
    EqualColumnIsNeutral(pool, n, Perf, hours);
    EqualColumnIsNeutral(pool, n, Reliability, hours);
    EqualColumnIsNeutral(pool, n, Latency, hours);
  }

  lemma CrossMultiply(p: real, q: real, h: real, r: real, s: real)
    requires h > 0.0 && r > 0.0 && s > 0.0
    ensures p * h / r <= q * h / s <==> p * s <= q * r
  {
    var x, y := p * h / r, q * h / s;
    assert x * r == p * h && y * s == q * h;
    assert x * r * s == p * s * h && y * s * r == q * r * h;
    var k := r * s;
    assert k > 0.0 && x * k == p * s * h && y * k == q * r * h;
    ScaleCompare(y, x, k);
    ScaleCompare(q * r, p * s, h);
  }

  // ---------------------------------------------------------------------------------------
  // The ranking as a list.
  // ---------------------------------------------------------------------------------------

  function NodesOf(s: seq<Ranked>): seq<Node> {
    if s == [] then [] else [s[0].node] + NodesOf(s[1..])
  }

  predicate Descending(s: seq<Ranked>) {
    forall i, j | 0 <= i < j < |s| :: s[i].score >= s[j].score
  }

  lemma {:induction false} InsertMembers(x: Ranked, s: seq<Ranked>)
    ensures multiset(InsertByScore(x, s)) == multiset{x} + multiset(s)
  {
    if s != [] {
      assert s == [s[0]] + s[1..];
      if x.score < s[0].score {
        InsertMembers(x, s[1..]);
      }
    }
  }

  lemma ConsDescending(x: Ranked, s: seq<Ranked>)
    requires Descending(s) && forall y | y in s :: x.score >= y.score
    ensures Descending([x] + s)
  {
    forall i, j | 0 <= i < j < |[x] + s| ensures ([x] + s)[i].score >= ([x] + s)[j].score {
      assert ([x] + s)[j] == s[j - 1] && s[j - 1] in s;
    }
  }

  lemma {:induction false} InsertDescending(x: Ranked, s: seq<Ranked>)
    requires Descending(s)
    ensures Descending(InsertByScore(x, s))
  {
    if s != [] {
      assert s == [s[0]] + s[1..];
      if x.score < s[0].score {
        InsertDescending(x, s[1..]);
        var r := InsertByScore(x, s[1..]);
        InsertMembers(x, s[1..]);
        forall y | y in r ensures s[0].score >= y.score {
          assert y in multiset(r);
        }
        ConsDescending(s[0], r);
      } else {
        ConsDescending(x, s);
      }
    }
  }

  lemma {:induction false} SortCorrect(s: seq<Ranked>)
    ensures Descending(SortByScore(s)) && multiset(SortByScore(s)) == multiset(s)
  {
    if s != [] {
      SortCorrect(s[1..]);
      InsertDescending(s[0], SortByScore(s[1..]));
      InsertMembers(s[0], SortByScore(s[1..]));
      assert s == [s[0]] + s[1..];
    }
  }

  function Scoring(s: seq<Ranked>, score: real): seq<Ranked> {
    if s == [] then [] else (if s[0].score == score then [s[0]] else []) + Scoring(s[1..], score)
  }

  lemma {:induction false} InsertKeepsTies(x: Ranked, s: seq<Ranked>, score: real)
    ensures Scoring(InsertByScore(x, s), score) == Scoring([x] + s, score)
  {
    assert ([x] + s)[1..] == s;
    if s != [] && x.score < s[0].score {
      InsertKeepsTies(x, s[1..], score);
      var r := InsertByScore(x, s[1..]);
      assert ([s[0]] + r)[1..] == r;
      assert ([x] + s[1..])[1..] == s[1..];
    }
  }

  /** Equal scores keep the order of the catalogue query. */
  lemma {:induction false} SortIsStable(s: seq<Ranked>, score: real)
    ensures Scoring(SortByScore(s), score) == Scoring(s, score)
  {
    if s != [] {
      SortIsStable(s[1..], score);
      var r := SortByScore(s[1..]);
      InsertKeepsTies(s[0], r, score);
      assert ([s[0]] + r)[1..] == r;
    }
  }

  lemma ConsCount<T>(y: T, t: seq<T>, x: T)
    ensures multiset([y] + t)[x] == (if x == y then 1 else 0) + multiset(t)[x]
  {
  }

  lemma {:induction false} FeasibleExact(nodes: seq<Node>, req: Request, n: Node)
    ensures multiset(FeasibleOnes(nodes, req))[n] == if Feasible(n, req) then multiset(nodes)[n] else 0
  {
    if nodes != [] {
      FeasibleExact(nodes[1..], req, n);
      ConsCount(nodes[0], nodes[1..], n);
      assert nodes == [nodes[0]] + nodes[1..];
      ConsCount(nodes[0], FeasibleOnes(nodes[1..], req), n);
      assert [] + FeasibleOnes(nodes[1..], req) == FeasibleOnes(nodes[1..], req);
    }
  }

  lemma {:induction false} ScoredExact(pool: seq<Node>, rest: seq<Node>, w: Weights, hours: real, x: Ranked)
    requires pool != []
    ensures multiset(Scored(pool, rest, w, hours))[x] ==
      if x.score == Score(pool, x.node, w, hours) then multiset(rest)[x.node] else 0
    decreases rest
  {
    if rest != [] {
      ScoredExact(pool, rest[1..], w, hours, x);
      ConsCount(rest[0], rest[1..], x.node);
      assert rest == [rest[0]] + rest[1..];
      ConsCount(Ranked(rest[0], Score(pool, rest[0], w, hours)), Scored(pool, rest[1..], w, hours), x);
    }
  }

  /**
   The ranking holds each candidate as often as it is offered and feasible, with its score over
   the feasible pool, in non-increasing order of scores that lie in [0,1].
   */
  lemma RankIsExact(nodes: seq<Node>, req: Request, mode: Mode, x: Ranked)
    ensures var r := Rank(nodes, req, mode);
      var pool := FeasibleOnes(nodes, req);
      && Descending(r)
      && (x in r ==> Feasible(x.node, req) && 0.0 <= x.score <= 1.0)
      && multiset(r)[x] ==
           if Feasible(x.node, req) && pool != [] && x.score == Score(pool, x.node, WeightsOf(mode), Hours(req))
           then multiset(nodes)[x.node] else 0
  {
    var pool := FeasibleOnes(nodes, req);
    FeasibleExact(nodes, req, x.node);
    if pool != [] {
      var s := Scored(pool, pool, WeightsOf(mode), Hours(req));
      SortCorrect(s);
      ScoredExact(pool, pool, WeightsOf(mode), Hours(req), x);
      var r := Rank(nodes, req, mode);
      assert x in r <==> multiset(r)[x] > 0;
      if x in r {
        assert multiset(pool)[x.node] > 0;
        ScoreInUnit(pool, x.node, mode, Hours(req));
      }
    }
  }

  /**
   Requirements are constraints and not preferences: a node is ranked if and only if it is offered,
   online, large enough, within budget and free in one window for the whole time.
   */
  lemma RankedIfItMeetsAll(nodes: seq<Node>, req: Request, mode: Mode, n: Node)
    ensures (exists x | x in Rank(nodes, req, mode) :: x.node == n) <==>
      && n in nodes && n.online
      && n.vramMb >= req.minVramMb && n.cpuCores >= req.minCpuCores && n.ramMb >= req.minRamMb
      && (req.maxPricePaiseHr.None? || n.pricePaiseHr <= req.maxPricePaiseHr.value)
      && exists w | w in n.availability :: w.start <= req.startsAt && req.endsAt <= w.end
  {
    var r, pool := Rank(nodes, req, mode), FeasibleOnes(nodes, req);
    FeasibleExact(nodes, req, n);
    assert n in nodes <==> multiset(nodes)[n] > 0;
    assert n in pool <==> multiset(pool)[n] > 0;
    if n in pool {
      var x := Ranked(n, Score(pool, n, WeightsOf(mode), Hours(req)));
      RankIsExact(nodes, req, mode, x);
      assert multiset(r)[x] > 0 && x in r;
    }
    forall x | x in r && x.node == n ensures n in nodes && Feasible(n, req) {
      RankIsExact(nodes, req, mode, x);
      assert multiset(r)[x] > 0;
    }
  }

  // ---------------------------------------------------------------------------------------
  // The unit of money does not matter.
  // ---------------------------------------------------------------------------------------

  function ScaleNode(n: Node, k: real): Node {
    n.(pricePaiseHr := k * n.pricePaiseHr)
  }

  function ScaleAll(nodes: seq<Node>, k: real): seq<Node> {
    if nodes == [] then [] else [ScaleNode(nodes[0], k)] + ScaleAll(nodes[1..], k)
  }

  function ScaleRequest(req: Request, k: real): Request {
    req.(maxPricePaiseHr := if req.maxPricePaiseHr.Some? then Some(k * req.maxPricePaiseHr.value) else None)
  }

  function ScaleRanked(s: seq<Ranked>, k: real): seq<Ranked> {
    if s == [] then [] else [Ranked(ScaleNode(s[0].node, k), s[0].score)] + ScaleRanked(s[1..], k)
  }

  lemma ScaleFeasible(n: Node, req: Request, k: real)
    requires k > 0.0
    ensures Feasible(ScaleNode(n, k), ScaleRequest(req, k)) <==> Feasible(n, req)
  {
    if req.maxPricePaiseHr.Some? {
      var p, m := n.pricePaiseHr, req.maxPricePaiseHr.value;
      if p <= m { assert k * p <= k * m; } else { assert k * p > k * m; }
    }
  }

  lemma {:induction false} ScalePool(nodes: seq<Node>, req: Request, k: real)
    requires k > 0.0
    ensures FeasibleOnes(ScaleAll(nodes, k), ScaleRequest(req, k)) == ScaleAll(FeasibleOnes(nodes, req), k)
  {
    if nodes != [] {
      ScalePool(nodes[1..], req, k);
      ScaleFeasible(nodes[0], req, k);
      var rest := FeasibleOnes(nodes[1..], req);
      assert ScaleAll(nodes, k)[1..] == ScaleAll(nodes[1..], k);
      if Feasible(nodes[0], req) {
        assert ([nodes[0]] + rest)[1..] == rest;
      } else {
        assert [] + rest == rest;
      }
    }
  }

  function Factor(c: Column, k: real): real {
    if c == Cost then k else 1.0
  }

  lemma ScaleValue(n: Node, c: Column, hours: real, k: real)
    ensures ValueOf(ScaleNode(n, k), c, hours) == Times(Factor(c, k), ValueOf(n, c, hours))
  {
    if c == Cost {
      var r := Clamp(OrElse(n.reliability, 0.5), 0.01, 1.0);
      var x := n.pricePaiseHr * hours;
      assert k * n.pricePaiseHr * hours == k * x;
      assert k * x / r == k * (x / r);
    }
  }

  function Scale(v: seq<real>, f: real): (r: seq<real>)
    ensures |r| == |v|
  {
    if v == [] then [] else [Times(f, v[0])] + Scale(v[1..], f)
  }

  lemma ScaleCompare(x: real, y: real, f: real)
    requires f > 0.0
    ensures x < y <==> Times(f, x) < Times(f, y)
  {
    if x < y { assert f * x < f * y; }
    if y < x { assert f * y < f * x; }
  }

  lemma {:induction false} ScaleExtremes(v: seq<real>, f: real)
    requires v != [] && f > 0.0
    ensures MinOf(Scale(v, f)) == Times(f, MinOf(v))
    ensures MaxOf(Scale(v, f)) == Times(f, MaxOf(v))
  {
    assert Scale(v, f)[1..] == Scale(v[1..], f);
    if |v| > 1 {
      ScaleExtremes(v[1..], f);
      ScaleCompare(v[0], MinOf(v[1..]), f);
      ScaleCompare(MaxOf(v[1..]), v[0], f);
    }
  }

  lemma {:induction false} ScaleColumn(pool: seq<Node>, c: Column, hours: real, k: real)
    ensures |ScaleAll(pool, k)| == |pool|
    ensures ColumnOf(ScaleAll(pool, k), c, hours) == Scale(ColumnOf(pool, c, hours), Factor(c, k))
  {
    if pool != [] {
      ScaleValue(pool[0], c, hours, k);
      ScaleColumn(pool[1..], c, hours, k);
      assert ScaleAll(pool, k)[1..] == ScaleAll(pool[1..], k);
      assert ColumnOf(pool, c, hours)[1..] == ColumnOf(pool[1..], c, hours);
    }
  }

  lemma ScaleNormal(v: real, lo: real, hi: real, lower: bool, f: real)
    requires f > 0.0 && lo <= hi
    ensures Normal(Times(f, v), Times(f, lo), Times(f, hi), lower) == Normal(v, lo, hi, lower)
  {
    ScaleCompare(lo, hi, f);
    if lo < hi {
      var x, d := v - lo, hi - lo;
      assert f * v - f * lo == f * x && f * hi - f * lo == f * d;
      ScaleQuotient(x, d, f);
    }
  }

  lemma ScaleQuotient(x: real, d: real, f: real)
    requires f > 0.0 && d > 0.0
    ensures f * d > 0.0 && (f * x) / (f * d) == x / d
  {
    var q := x / d;
    assert x == q * d;
    assert f * x == q * (f * d);
    assert f * d > 0.0;
  }

  lemma ScaleInColumn(v: seq<real>, x: real, f: real, lower: bool)
    requires x in v && f > 0.0
    ensures Normal(Times(f, x), MinOf(Scale(v, f)), MaxOf(Scale(v, f)), lower) == Normal(x, MinOf(v), MaxOf(v), lower)
  {
    ScaleExtremes(v, f);
    BoundsHold(v, x);
    ScaleNormal(x, MinOf(v), MaxOf(v), lower, f);
  }

  lemma ScaleGrade(pool: seq<Node>, n: Node, c: Column, hours: real, k: real)
    requires n in pool && k > 0.0
    ensures ScaleAll(pool, k) != []
    ensures Grade(ScaleAll(pool, k), ScaleNode(n, k), c, hours) == Grade(pool, n, c, hours)
  {
    ScaleColumn(pool, c, hours, k);
    ScaleValue(n, c, hours, k);
    ColumnHas(pool, n, c, hours);
    ScaleInColumn(ColumnOf(pool, c, hours), ValueOf(n, c, hours), Factor(c, k), LowerIsBetter(c));
  }

  lemma ScaleScore(pool: seq<Node>, n: Node, w: Weights, hours: real, k: real)
    requires n in pool && k > 0.0
    ensures ScaleAll(pool, k) != []
    ensures Score(ScaleAll(pool, k), ScaleNode(n, k), w, hours) == Score(pool, n, w, hours)
  {
    ScaleGrade(pool, n, Cost, hours, k);
    ScaleGrade(pool, n, Perf, hours, k);
    ScaleGrade(pool, n, Reliability, hours, k);
    ScaleGrade(pool, n, Latency, hours, k);
  }

  lemma {:induction false} ScaleScored(pool: seq<Node>, rest: seq<Node>, w: Weights, hours: real, k: real)
    requires pool != [] && k > 0.0 && forall n | n in rest :: n in pool
    ensures ScaleAll(pool, k) != []
    ensures Scored(ScaleAll(pool, k), ScaleAll(rest, k), w, hours) == ScaleRanked(Scored(pool, rest, w, hours), k)
    decreases rest
  {
    if rest != [] {
      var n := rest[0];
      assert n in rest;
      ScaleScore(pool, n, w, hours, k);
      assert forall m | m in rest[1..] :: m in rest;
      ScaleScored(pool, rest[1..], w, hours, k);
      assert ScaleAll(rest, k)[1..] == ScaleAll(rest[1..], k);
      assert Scored(pool, rest, w, hours)[1..] == Scored(pool, rest[1..], w, hours);
    }
  }

  lemma {:induction false} ScaleInsert(x: Ranked, s: seq<Ranked>, k: real)
    ensures InsertByScore(Ranked(ScaleNode(x.node, k), x.score), ScaleRanked(s, k)) == ScaleRanked(InsertByScore(x, s), k)
  {
    if s == [] {
      assert [x][1..] == [];
    } else if x.score >= s[0].score {
      assert ([x] + s)[1..] == s;
    } else {
      ScaleInsert(x, s[1..], k);
      var r := InsertByScore(x, s[1..]);
      assert ([s[0]] + r)[1..] == r;
      assert ScaleRanked(s, k)[1..] == ScaleRanked(s[1..], k);
    }
  }

  lemma {:induction false} ScaleSort(s: seq<Ranked>, k: real)
    ensures SortByScore(ScaleRanked(s, k)) == ScaleRanked(SortByScore(s), k)
  {
    if s != [] {
      ScaleSort(s[1..], k);
      ScaleInsert(s[0], SortByScore(s[1..]), k);
      assert ScaleRanked(s, k)[1..] == ScaleRanked(s[1..], k);
    }
  }

  /** Quoting prices and budget in another unit changes neither a score nor the order. */
  lemma RankIgnoresMoneyUnit(nodes: seq<Node>, req: Request, mode: Mode, k: real)
    requires k > 0.0
    ensures Rank(ScaleAll(nodes, k), ScaleRequest(req, k), mode) == ScaleRanked(Rank(nodes, req, mode), k)
  {
    ScalePool(nodes, req, k);
    var pool := FeasibleOnes(nodes, req);
    if pool != [] {
      ScaleScored(pool, pool, WeightsOf(mode), Hours(req), k);
      ScaleSort(Scored(pool, pool, WeightsOf(mode), Hours(req)), k);
    }
  }

  // ---------------------------------------------------------------------------------------
  // Nor does the length of the booking.
  // ---------------------------------------------------------------------------------------

  lemma {:induction false} CostColumnScales(pool: seq<Node>, hours: real, k: real)
    ensures ColumnOf(pool, Cost, k * hours) == Scale(ColumnOf(pool, Cost, hours), k)
  {
    if pool != [] {
      CostScales(pool[0], hours, k);
      CostColumnScales(pool[1..], hours, k);
      assert ColumnOf(pool, Cost, hours)[1..] == ColumnOf(pool[1..], Cost, hours);
    }
  }

  lemma CostScales(n: Node, hours: real, k: real)
    ensures ExpectedCost(n, k * hours) == Times(k, ExpectedCost(n, hours))
  {
    var r := Clamp(OrElse(n.reliability, 0.5), 0.01, 1.0);
    var x := n.pricePaiseHr * hours;
    assert n.pricePaiseHr * (k * hours) == k * x;
    assert k * x / r == k * (x / r);
  }

  lemma {:induction false} OtherColumnsStay(pool: seq<Node>, c: Column, hours: real, hours': real)
    requires c != Cost
    ensures ColumnOf(pool, c, hours) == ColumnOf(pool, c, hours')
  {
    if pool != [] {
      OtherColumnsStay(pool[1..], c, hours, hours');
    }
  }

  /** Scores do not depend on how long the booking is. */
  lemma ScoreIgnoresDuration(pool: seq<Node>, n: Node, w: Weights, hours: real, k: real)
    requires n in pool && k > 0.0
    ensures Score(pool, n, w, k * hours) == Score(pool, n, w, hours)
  {
    CostColumnScales(pool, hours, k);
    CostScales(n, hours, k);
    ColumnHas(pool, n, Cost, hours);
    ScaleInColumn(ColumnOf(pool, Cost, hours), ExpectedCost(n, hours), k, true);
    OtherColumnsStay(pool, Perf, k * hours, hours);
    OtherColumnsStay(pool, Reliability, k * hours, hours);
    OtherColumnsStay(pool, Latency, k * hours, hours);
  }
}
