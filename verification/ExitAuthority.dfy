/**
 * Exit authority of coordinator/src/store.rs: how it is built from a quote when an exit
 * starts, and how it is checked again against the same quote just before a send.
 */
module ExitAuthorities {
  import opened Arith
  import opened Common

  const BPS: nat := 10_000
  const MAX_EXIT_SUBMISSION_WINDOW_MS: nat := 15 * 60 * 1_000
  const MAX_EXIT_RECONCILIATION_WINDOW_MS: nat := 24 * 60 * 60 * 1_000

  // A row of execution_market_quotes joined with its market configuration.
  datatype ExitQuote = ExitQuote(
    session: nat, eventId: nat, markPrice: nat, spotIn: nat, expectedOut: nat,
    receivedAt: nat, expiresAt: nat, maxDeviationBps: nat, maxSlippageBps: nat)

  // The column checks of migrations 0004 and 0005.
  predicate ValidQuote(q: ExitQuote) {
    && 1 <= q.markPrice <= U32_MAX
    && q.spotIn <= U128_MAX && q.expectedOut <= U128_MAX
    && 1 <= q.maxDeviationBps <= 5000 && 1 <= q.maxSlippageBps <= 1000
    && q.receivedAt < q.expiresAt
  }

  // Amounts are numbers here; module Decimals shows their string form loses nothing.
  datatype ExitAuthority = ExitAuthority(
    session: nat, eventId: nat, quoteExpiresAt: nat, markPrice: nat, unwindPrice: nat,
    spotIn: nat, minimumOut: nat, submissionDeadline: nat, reconciliationDeadline: nat)

  function MaxPrice(q: ExitQuote): (r: Option<nat>) {
    var numerator := Times(q.markPrice, BPS + q.maxDeviationBps);
    if BPS + q.maxDeviationBps > U32_MAX || numerator > U128_MAX || CeilDiv(numerator, BPS) > U32_MAX
    then None else Some(CeilDiv(numerator, BPS))
  }

  function MinimumBound(q: ExitQuote): (r: Option<nat>) {
    if q.maxSlippageBps > BPS || Times(q.expectedOut, BPS - q.maxSlippageBps) > U128_MAX then None
    else Some(CeilDiv(Times(q.expectedOut, BPS - q.maxSlippageBps), BPS))
  }

  function Build(spot: nat, q: ExitQuote, now: nat, submission: nat, reconciliation: nat,
                 price: Option<nat>, minimum: Option<nat>): (r: Option<ExitAuthority>)
  {
    if q.receivedAt > now || q.expiresAt <= now || submission <= now || submission > q.expiresAt
       || now + MAX_EXIT_SUBMISSION_WINDOW_MS > U64_MAX
       || submission > now + MAX_EXIT_SUBMISSION_WINDOW_MS
       || reconciliation <= submission
       || submission + MAX_EXIT_RECONCILIATION_WINDOW_MS > U64_MAX
       || reconciliation > submission + MAX_EXIT_RECONCILIATION_WINDOW_MS
       || q.spotIn != spot
       || (q.spotIn == 0) != (q.expectedOut == 0)
    then None
    else if MaxPrice(q).None? || MinimumBound(q).None? then None
    else
      var p := price.Or(MaxPrice(q).value);
      var m := minimum.Or(MinimumBound(q).value);
      if p < q.markPrice || p > MaxPrice(q).value then None
      else if m < MinimumBound(q).value || m > q.expectedOut then None
      else Some(ExitAuthority(q.session, q.eventId, q.expiresAt, q.markPrice, p, q.spotIn, m,
                              submission, reconciliation))
  }

  // ---------------------------------------------------------------- the send-time checks

  predicate PriceBounded(a: ExitAuthority, q: ExitQuote) {
    && a.unwindPrice >= q.markPrice
    && (a.unwindPrice - q.markPrice) * BPS <= q.markPrice * q.maxDeviationBps
  }

  predicate MinimumBounded(a: ExitAuthority, q: ExitQuote) {
    && a.minimumOut <= q.expectedOut
    && a.minimumOut * BPS <= U128_MAX
    && q.maxSlippageBps <= BPS
    && q.expectedOut * (BPS - q.maxSlippageBps) <= U128_MAX
    && a.minimumOut * BPS >= q.expectedOut * (BPS - q.maxSlippageBps)
  }

  // The quote the SQL finds: same source event and expiry, still unexpired.
  predicate SameQuote(a: ExitAuthority, q: ExitQuote, now: nat) {
    a.session == q.session && a.eventId == q.eventId && a.quoteExpiresAt == q.expiresAt && q.expiresAt > now
  }

  datatype SendCheck = Authorized | Unavailable | Mismatch

  function CheckSend(a: ExitAuthority, now: nat, quote: Option<ExitQuote>): (r: SendCheck) {
    if now > a.submissionDeadline || now > a.quoteExpiresAt then Unavailable
    else if quote.None? || !SameQuote(a, quote.value, now) then Unavailable
    else
      var q := quote.value;
      if a.markPrice != q.markPrice || a.spotIn != q.spotIn || !PriceBounded(a, q) || !MinimumBounded(a, q)
      then Mismatch else Authorized
  }

  // coordinator/src/worker.rs `exit_authority`: what the worker accepts in a payload.
  predicate WorkerAccepts(a: ExitAuthority, spot: nat) {
    && a.markPrice != 0
    && a.unwindPrice >= a.markPrice
    && a.submissionDeadline <= a.quoteExpiresAt
    && a.reconciliationDeadline > a.submissionDeadline
    && ((a.spotIn == 0) <==> (a.minimumOut == 0))
    && a.spotIn == spot
  }

  // ---------------------------------------------------------------- the two stages together

  /** Every authority the store builds is one the worker accepts. */
  lemma BuiltIsAccepted(spot: nat, q: ExitQuote, now: nat, submission: nat, reconciliation: nat,
                        price: Option<nat>, minimum: Option<nat>)
    requires ValidQuote(q) && Build(spot, q, now, submission, reconciliation, price, minimum).Some?
    ensures WorkerAccepts(Build(spot, q, now, submission, reconciliation, price, minimum).value, spot)
  {
    var bound := CeilDiv(Times(q.expectedOut, BPS - q.maxSlippageBps), BPS);
    if q.expectedOut > 0 {
      MulMono(1, q.expectedOut, BPS - q.maxSlippageBps);
      assert bound > 0;
    }
  }

  /** Whenever expectedOut * 10000 fits a u128 the settlement minimum of a built authority passes at send time. */
  lemma BuiltMinimumPasses(spot: nat, q: ExitQuote, now: nat, submission: nat, reconciliation: nat,
                           price: Option<nat>, minimum: Option<nat>)
    requires Build(spot, q, now, submission, reconciliation, price, minimum).Some?
    ensures MinimumBounded(Build(spot, q, now, submission, reconciliation, price, minimum).value, q)
            <==> Build(spot, q, now, submission, reconciliation, price, minimum).value.minimumOut * BPS <= U128_MAX
    ensures q.expectedOut * BPS <= U128_MAX ==>
              MinimumBounded(Build(spot, q, now, submission, reconciliation, price, minimum).value, q)
  {
    var a := Build(spot, q, now, submission, reconciliation, price, minimum).value;
    MulMono(MinimumBound(q).value, a.minimumOut, BPS);
    MulMono(a.minimumOut, q.expectedOut, BPS);
  }

  lemma DefaultPriceDelta(mark: nat, deviation: nat)
    ensures CeilDiv(Times(mark, BPS + deviation), BPS) == mark + CeilDiv(Times(mark, deviation), BPS)
  {
    var c := CeilDiv(Times(mark, deviation), BPS);
    assert Times(mark, BPS + deviation) == mark * BPS + Times(mark, deviation);
    QuotientUnique(Times(mark, BPS + deviation) + (BPS - 1), BPS, mark + c);
  }

  /** The default price passes the send-time check exactly when 10000 divides mark * deviation. */
  lemma DefaultPricePassesExactly(spot: nat, q: ExitQuote, now: nat, submission: nat, reconciliation: nat,
                                  minimum: Option<nat>)
    requires Build(spot, q, now, submission, reconciliation, None, minimum).Some?
    ensures PriceBounded(Build(spot, q, now, submission, reconciliation, None, minimum).value, q)
            <==> Divides(BPS, Times(q.markPrice, q.maxDeviationBps))
  {
    DefaultPriceDelta(q.markPrice, q.maxDeviationBps);
    var x := Times(q.markPrice, q.maxDeviationBps);
    if Divides(BPS, x) {
      QuotientUnique(x + (BPS - 1), BPS, FloorDiv(x, BPS));
    } else if CeilDiv(x, BPS) * BPS <= x {
      QuotientUnique(x, BPS, CeilDiv(x, BPS));
      assert false;
    }
  }

  /** A default price that the send-time check refuses: mark 25001 at 2500 basis points. */
  lemma DefaultPriceCanFail()
    ensures var q := ExitQuote(1, 1, 25_001, 0, 0, 0, 1_000, 2_500, 500);
            && ValidQuote(q)
            && Build(0, q, 10, 1_000, 2_000, None, None).Some?
            && CheckSend(Build(0, q, 10, 1_000, 2_000, None, None).value, 20, Some(q)) == Mismatch
  {
  }

  /** Any price authorized for sending lies between the mark and mark * (1 + deviation). */
  lemma AuthorizedPriceInBand(a: ExitAuthority, now: nat, q: ExitQuote)
    requires CheckSend(a, now, Some(q)) == Authorized
    ensures a.markPrice <= a.unwindPrice
    ensures a.unwindPrice * BPS <= a.markPrice * (BPS + q.maxDeviationBps)
    ensures a.minimumOut <= q.expectedOut && a.minimumOut * BPS >= q.expectedOut * (BPS - q.maxSlippageBps)
    ensures a.spotIn == q.spotIn && now < q.expiresAt
  {
    assert a.markPrice * (BPS + q.maxDeviationBps) == a.markPrice * BPS + a.markPrice * q.maxDeviationBps;
  }

  /** A requested price survives both stages exactly when it meets the exact send-time inequality. */
  lemma RequestedPriceSurvivesExactly(spot: nat, q: ExitQuote, now: nat, submission: nat, reconciliation: nat,
                                      p: nat, minimum: Option<nat>, later: nat)
    requires Build(spot, q, now, submission, reconciliation, Some(p), minimum).Some?
    requires q.expectedOut * BPS <= U128_MAX
    requires later <= submission && later < q.expiresAt
    ensures CheckSend(Build(spot, q, now, submission, reconciliation, Some(p), minimum).value, later, Some(q))
            == Authorized
            <==> (p - q.markPrice) * BPS <= q.markPrice * q.maxDeviationBps
  {
    BuiltMinimumPasses(spot, q, now, submission, reconciliation, Some(p), minimum);
  }
}
