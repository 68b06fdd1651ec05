/**
 Settlement arithmetic (backend/src/payments/settle.js) and the price that search shows
 (backend/src/marketplace/scheduler.js). Amounts are integer paise and divisions are exact.
 */
module Settle {
  import opened Options

  const PLATFORM_FEE_BPS := 1000
  const MS_PER_HOUR := 3600000

  /** `Math.ceil(a / b)`. */
  function CeilDiv(a: int, b: int): (q: int)
    requires b > 0
    ensures b * (q - 1) < a <= b * q
  {
    (a + b - 1) / b
  }

  lemma MulLe(b: int, x: int, y: int)
    requires b > 0
    ensures x <= y ==> b * x <= b * y
  {
  }

  lemma CeilDivUnique(a: int, b: int, q: int)
    requires b > 0 && b * (q - 1) < a <= b * q
    ensures CeilDiv(a, b) == q
  {
    var c := CeilDiv(a, b);
    MulLe(b, c, q - 1);
    MulLe(b, q, c - 1);
  }

  lemma CeilDivMonotone(a: int, a': int, b: int)
    requires b > 0 && a <= a'
    ensures CeilDiv(a, b) <= CeilDiv(a', b)
  {
    var c, c' := CeilDiv(a, b), CeilDiv(a', b);
    MulLe(b, c', c - 1);
  }

  datatype Shares = Shares(provider: int, platform: int)

  /** None when the source throws. */
  function Split(total: int, feeBps: int): Option<Shares> {
    if total < 0 then None
    else
      var platform := (total * feeBps + 9999) / 10000;   // rounded up
      Some(Shares(total - platform, platform))
  }

  /** The split loses nothing, and the provider's share is the floor of its exact fraction. */
  lemma SplitIsExact(total: int, feeBps: int)
    requires 0 <= feeBps <= 10000
    ensures Split(total, feeBps).Some? <==> total >= 0
    ensures total >= 0 ==>
      var s := Split(total, feeBps).value;
      && s.provider + s.platform == total
      && s.provider == total * (10000 - feeBps) / 10000
      && 0 <= s.provider <= total
  {
    if total >= 0 {
      var t := total * feeBps;
      assert total * (10000 - feeBps) == 10000 * total - t;
      assert 0 <= t <= total * 10000;
    }
  }

  /** `Math.round(ms / 1000)`, halves up. */
  function Seconds(ms: int): int {
    (ms + 500) / 1000
  }

  /** Rounded up to whole paise. */
  function MinutePrice(pricePaiseHr: int, minutes: int): int {
    (pricePaiseHr * minutes + 59) / 60
  }

  /** What a booking of a window costs; None when the source throws. */
  function Quote(pricePaiseHr: int, startsAt: int, endsAt: int): Option<int> {
    var seconds := Seconds(endsAt - startsAt);
    if seconds <= 0 then None else Some(MinutePrice(pricePaiseHr, CeilDiv(seconds, 60)))
  }

  function Max(a: int, b: int): int { if a < b then b else a }

  function Min(a: int, b: int): int { if a < b then a else b }

  function MeteredCharge(quoted: int, pricePaiseHr: int, computeSeconds: int, minimumMinutes: int := 5): int {
    Min(MinutePrice(pricePaiseHr, Max(minimumMinutes, CeilDiv(computeSeconds, 60))), quoted)
  }

  /** To the nearest second, and half a second counts as one. */
  lemma SecondsAreNearest(ms: int)
    ensures 1000 * Seconds(ms) - 500 <= ms < 1000 * Seconds(ms) + 500
  {
  }

  /** `q` is the least integer that `d` times itself reaches `x`. */
  predicate IsCeiling(q: int, x: int, d: int) {
    d * (q - 1) < x <= d * q
  }

  /**
   A window has a quote exactly if it rounds to a second or more: every minute that has begun is
   charged at a sixtieth of the hourly price, and the sum is rounded up to the paisa.
   */
  lemma QuoteExactly(p: int, startsAt: int, endsAt: int, minutes: int, q: int)
    ensures Quote(p, startsAt, endsAt).Some? <==> endsAt - startsAt >= 500
    ensures endsAt - startsAt >= 500 && IsCeiling(minutes, Seconds(endsAt - startsAt), 60) && IsCeiling(q, p * minutes, 60) ==>
      Quote(p, startsAt, endsAt) == Some(q)
  {
    SecondsAreNearest(endsAt - startsAt);
    if endsAt - startsAt >= 500 && IsCeiling(minutes, Seconds(endsAt - startsAt), 60) && IsCeiling(q, p * minutes, 60) {
      CeilDivUnique(Seconds(endsAt - startsAt), 60, minutes);
      CeilDivUnique(p * minutes, 60, q);
    }
  }

  lemma MinutePriceMonotone(p: int, m: int, m': int)
    requires p >= 0 && m <= m'
    ensures MinutePrice(p, m) <= MinutePrice(p, m')
  {
    assert p * m <= p * m';
    CeilDivMonotone(p * m, p * m', 60);
  }

  /** A longer window never costs less, to the millisecond. */
  lemma QuoteMonotone(p: int, s: int, e: int, s': int, e': int)
    requires p >= 0 && e - s <= e' - s' && Quote(p, s, e).Some?
    ensures Quote(p, s', e').Some? && Quote(p, s, e).value <= Quote(p, s', e').value
  {
    CeilDivMonotone(Seconds(e - s), Seconds(e' - s'), 60);
    MinutePriceMonotone(p, CeilDiv(Seconds(e - s), 60), CeilDiv(Seconds(e' - s'), 60));
  }

  lemma CeilDivSubadditive(a: int, a': int, b: int)
    requires b > 0
    ensures CeilDiv(a + a', b) <= CeilDiv(a, b) + CeilDiv(a', b)
  {
    var c, d, x := CeilDiv(a, b), CeilDiv(a', b), CeilDiv(a + a', b);
    assert b * c + b * d == b * (c + d);
    MulLe(b, c + d, x - 1);
  }

  lemma MinutePriceSubadditive(p: int, m: int, m': int)
    ensures MinutePrice(p, m + m') <= MinutePrice(p, m) + MinutePrice(p, m')
  {
    assert p * (m + m') == p * m + p * m';
    CeilDivSubadditive(p * m, p * m', 60);
  }

  /** The minutes that a quote bills. */
  function BilledMinutes(startsAt: int, endsAt: int): int {
    CeilDiv(Seconds(endsAt - startsAt), 60)
  }

  /** At this price, booking [s, m) and [m, e) costs at least as much as booking [s, e). */
  predicate SplitCostsAsMuch(p: int, s: int, m: int, e: int)
    requires Seconds(m - s) > 0 && Seconds(e - m) > 0 && Seconds(e - s) > 0
  {
    Quote(p, s, e).value <= Quote(p, s, m).value + Quote(p, m, e).value
  }

  /**
   Booking a window in two parts is never cheaper, whatever the price, if and only if the parts
   are billed at least the minutes of the whole.
   */
  lemma SplittingIsNeverCheaper(s: int, m: int, e: int)
    requires Seconds(m - s) > 0 && Seconds(e - m) > 0 && Seconds(e - s) > 0
    ensures (forall p | p >= 0 :: SplitCostsAsMuch(p, s, m, e))
      <==> BilledMinutes(s, e) <= BilledMinutes(s, m) + BilledMinutes(m, e)
  {
    var whole, a, b := BilledMinutes(s, e), BilledMinutes(s, m), BilledMinutes(m, e);
    if whole <= a + b {
      forall p | p >= 0 ensures SplitCostsAsMuch(p, s, m, e) {
        MinutePriceMonotone(p, whole, a + b);
        MinutePriceSubadditive(p, a, b);
      }
    } else {
      PerMinute(whole);
      PerMinute(a);
      PerMinute(b);
      assert !SplitCostsAsMuch(60, s, m, e);
    }
  }

  /** At 60 paise an hour a minute costs one paisa. */
  lemma PerMinute(minutes: int)
    ensures MinutePrice(60, minutes) == minutes
  {
  }

  /** Cuts at whole seconds meet the condition, so there a split is never cheaper. */
  lemma WholeSecondCutsAreNeverCheaper(p: int, s: int, m: int, e: int)
    requires p >= 0 && s < m < e && (m - s) % 1000 == 0 && (e - m) % 1000 == 0
    ensures Seconds(m - s) > 0 && Seconds(e - m) > 0 && Seconds(e - s) > 0 && SplitCostsAsMuch(p, s, m, e)
  {
    var x, y := (m - s) / 1000, (e - m) / 1000;
    assert Seconds(m - s) == x && Seconds(e - m) == y && Seconds(e - s) == x + y;
    CeilDivSubadditive(x, y, 60);
    SplittingIsNeverCheaper(s, m, e);
  }

  /** To the millisecond it can fail: 60.4 s twice is two minutes, 120.8 s is three. */
  lemma MillisecondSplitCanBeCheaper()
    ensures Quote(60, 0, 120800) == Some(3) && Quote(60, 0, 60400) == Some(1) && Quote(60, 60400, 120800) == Some(1)
  {
    assert Seconds(120800) == 121 && Seconds(60400) == 60;
    assert CeilDiv(121, 60) == 3 && CeilDiv(60, 60) == 1;
  }

  /**
   A user's own failure is billed for what ran: never less for more compute, never more than the
   quote, and the whole quote once the compute reaches the booked seconds.
   */
  lemma MeteredChargeBounds(p: int, s: int, e: int, computed: int, computed': int)
    requires p >= 0 && Quote(p, s, e).Some? && computed <= computed'
    ensures var q := Quote(p, s, e).value;
      && 0 <= MeteredCharge(q, p, computed) <= MeteredCharge(q, p, computed') <= q
      && (computed >= Seconds(e - s) ==> MeteredCharge(q, p, computed) == q)
      && MeteredCharge(q, p, computed) >= Min(MinutePrice(p, 5), q)
  {
    var q := Quote(p, s, e).value;
    var booked := CeilDiv(Seconds(e - s), 60);
    var m, m' := CeilDiv(computed, 60), CeilDiv(computed', 60);
    CeilDivMonotone(computed, computed', 60);
    MinutePriceMonotone(p, Max(5, m), Max(5, m'));
    MinutePriceMonotone(p, 5, Max(5, m));
    MinutePriceMonotone(p, 0, booked);
    MinutePriceMonotone(p, 0, 5);
    assert MinutePrice(p, 0) == 0;
    if computed >= Seconds(e - s) {
      CeilDivMonotone(Seconds(e - s), computed, 60);
      MinutePriceMonotone(p, booked, Max(5, m));
    }
  }

  /**
   It is the price of a window as long as the compute, but of at least five minutes, capped by
   the quote: a cheaper booking would not have helped the user.
   */
  lemma MeteredIsTheQuoteOfWhatRan(q: int, p: int, s: int, computed: int)
    ensures var booked := Quote(p, s, s + 1000 * Max(computed, 300));
      booked.Some? && MeteredCharge(q, p, computed) == Min(booked.value, q)
  {
    assert Seconds(1000 * Max(computed, 300)) == Max(computed, 300);
    CeilDivUnique(300, 60, 5);
    CeilDivMonotone(computed, Max(computed, 300), 60);
    CeilDivMonotone(300, Max(computed, 300), 60);
  }

  /** The price that search shows: `Math.ceil(price * hours)` with exact hours. */
  function SearchQuote(pricePaiseHr: int, startsAt: int, endsAt: int): int {
    CeilDiv(pricePaiseHr * (endsAt - startsAt), MS_PER_HOUR)
  }

  lemma MulLt(x: int, y: int, k: int)
    requires x < y && k > 0
    ensures x * k < y * k
  {
  }

  lemma MulSwap(b: int, q: int, k: int)
    ensures (b * q) * k == (b * k) * q
  {
  }

  lemma CeilDivCancel(a: int, b: int, k: int)
    requires b > 0 && k > 0
    ensures b * k > 0 && CeilDiv(a * k, b * k) == CeilDiv(a, b)
  {
    var q := CeilDiv(a, b);
    var lower, upper := b * (q - 1), b * q;
    MulLt(0, b, k);
    MulLt(lower, a, k);
    if a < upper { MulLt(a, upper, k); }
    MulSwap(b, q - 1, k);
    MulSwap(b, q, k);
    CeilDivUnique(a * k, b * k, q);
  }

  /** On whole-minute windows search shows exactly what booking charges. */
  lemma SearchAgreesOnWholeMinutes(p: int, s: int, minutes: int)
    requires p >= 0 && minutes > 0
    ensures Quote(p, s, s + 60000 * minutes) == Some(SearchQuote(p, s, s + 60000 * minutes))
  {
    SearchQuoteOfMinutes(p, s, minutes);
    assert Seconds(60000 * minutes) == 60 * minutes;
    CeilDivUnique(60 * minutes, 60, minutes);
  }

  lemma SearchQuoteOfMinutes(p: int, s: int, minutes: int)
    ensures SearchQuote(p, s, s + 60000 * minutes) == CeilDiv(p * minutes, 60)
  {
    MulSwap(p, minutes, 60000);
    MulSwap(p, 60000, minutes);
    CeilDivCancel(p * minutes, 60, 60000);
  }

  lemma CeilGap(x: int, y: int, d: int)
    requires x <= y <= x + d
    ensures 0 <= 3600 * (CeilDiv(y, 3600) - CeilDiv(x, 3600)) < d + 3600
  {
  }

  lemma RoundedUpMinutes(p: int, seconds: int, m: int)
    requires p >= 0 && seconds <= 60 * m <= seconds + 59
    ensures p * seconds <= p * m * 60 <= p * seconds + 59 * p
  {
    var k := 60 * m - seconds;
    assert p * m * 60 == p * (60 * m) == p * seconds + p * k;
    assert 0 <= p * k <= p * 59;
  }

  /**
   On whole-second windows search never shows more than booking charges, and the difference
   stays below 59 seconds at the hourly price plus one paisa.
   */
  lemma SearchGapOnWholeSeconds(p: int, s: int, seconds: int)
    requires p >= 0 && seconds > 0
    ensures var e := s + 1000 * seconds;
      && Quote(p, s, e).Some?
      && 0 <= 3600 * (Quote(p, s, e).value - SearchQuote(p, s, e)) < 59 * p + 3600
  {
    var m := CeilDiv(seconds, 60);
    SearchQuoteOfSeconds(p, s, seconds);
    RoundedUpMinutes(p, seconds, m);
    CeilDivCancel(p * m, 60, 60);
    CeilGap(p * seconds, p * m * 60, 59 * p);
  }

  lemma SearchQuoteOfSeconds(p: int, s: int, seconds: int)
    ensures SearchQuote(p, s, s + 1000 * seconds) == CeilDiv(p * seconds, 3600)
    ensures Seconds(s + 1000 * seconds - s) == seconds
  {
    assert p * (1000 * seconds) == (p * seconds) * 1000;
    CeilDivCancel(p * seconds, 3600, 1000);
  }
}
