/**
 * The intent of execution/src/intent.rs: its validation, the notional of a perp
 * fill and the spot amounts that hedge a fill, in checked u64/u128 arithmetic.
 */
module PairIntents {
  import opened Arith
  import opened Common

  const USD_SCALE: nat := 1_000_000
  const CANARY_LEG_CAP_MICROS: nat := 25 * USD_SCALE
  const CANARY_GROSS_CAP_MICROS: nat := 50 * USD_SCALE
  const LEG_NAV_DENOMINATOR: nat := 400
  const GROSS_NAV_DENOMINATOR: nat := 200
  const MIN_ORDER_EXPIRY_MS: nat := 5 * 60 * 1_000
  const MAX_ORDER_EXPIRY_MS: nat := 30 * 24 * 60 * 60 * 1_000
  const MAX_CLIENT_ORDER_INDEX: nat := 0xFFFF_FFFF_FFFF
  const MULTIPLIER_SCALE: nat := 1_000_000_000_000_000_000
  const BYTES32_MAX: nat :=
    0xFFFF_FFFF_FFFF_FFFF_FFFF_FFFF_FFFF_FFFF_FFFF_FFFF_FFFF_FFFF_FFFF_FFFF_FFFF_FFFF
  const ADDRESS_MAX: nat := 0xFFFF_FFFF_FFFF_FFFF_FFFF_FFFF_FFFF_FFFF_FFFF_FFFF

  datatype SpotSide = Buy | Sell
  datatype PerpSide = Long | Short

  datatype FrozenEvidence = FrozenEvidence(
    datasetManifest: nat, strategyVersion: string, marketManifest: nat, quoteBlockHash: nat,
    quoteReceivedAt: nat, quoteExpiresAt: nat, multiplier: nat, markPrice: nat)

  datatype PairIntent = PairIntent(
    id: nat, spotUnwindId: nat, symbol: string, spotToken: nat, marketIndex: nat,
    spotSide: SpotSide, perpSide: PerpSide,
    spotNotional: nat, perpNotional: nat, nav: nat,
    rawSpotAmount: nat, settlementIn: nat, minimumSpotOut: nat, minimumUnwindOut: nat,
    spotDecimals: nat, spotConfigVersion: nat,
    baseAmount: nat, baseDecimals: nat, priceDecimals: nat, limitPrice: nat,
    clientOrderIndex: nat, unwindPrice: nat, unwindOrderIndex: nat, maxUnwindAttempts: nat,
    orderExpiry: nat, emergencyDeadline: nat, reconciliationDeadline: nat,
    leverage: nat, createdAt: nat, deadline: nat, evidence: FrozenEvidence)

  datatype PairIntentError =
    | MissingIdentity | UnsupportedDirection | EmptyLeg | LegCapExceeded | GrossCapExceeded
    | InvalidLeverage | InvalidDeadline | InvalidEvidence | InvalidExecution | ExposureMismatch

  datatype SpotAmounts = SpotAmounts(settlementIn: nat, minimumOut: nat, target: nat)

  // ---------------------------------------------------------------- arithmetic of the source

  function Pow10(n: nat): (r: nat)
    ensures r > 0
  {
    if n == 0 then 1 else 10 * Pow10(n - 1)
  }

  // `10u128.checked_pow(n)`
  function CheckedPow10(n: nat): (r: Option<nat>) {
    if Pow10(n) <= U128_MAX then Some(Pow10(n)) else None
  }

  // `u64::saturating_add`
  function SaturatingAdd64(x: nat, y: nat): (r: nat) { Min(x + y, U64_MAX) }

  predicate ValidBytes32(x: nat) { 0 < x <= BYTES32_MAX }

  predicate ValidAddress(x: nat) { 0 < x <= ADDRESS_MAX }

  function ScaleUnits(value: nat, from: nat, to: nat): (r: Option<nat>) {
    if from == to then Some(value)
    else if from < to then
      match CheckedPow10(to - from)
      case None => None
      case Some(p) => if Times(value, p) <= U128_MAX then Some(Times(value, p)) else None
    else
      match CheckedPow10(from - to)
      case None => None
      case Some(p) => if Divides(p, value) then Some(FloorDiv(value, p)) else None
  }

  function PerpNotionalForFill(i: PairIntent, base: nat, price: nat): (r: Option<nat>) {
    if base == 0 || price == 0 then None else
    match CheckedPow10(i.baseDecimals + i.priceDecimals)
    case None => None
    case Some(d) =>
      var numerator := Times(Times(base, price), USD_SCALE);
      if numerator + (d - 1) > U128_MAX then None else
      var micros := FloorDiv(numerator + (d - 1), d);
      if micros <= U64_MAX then Some(micros) else None
  }

  function DerivedPerpNotional(i: PairIntent): (r: Option<nat>) {
    PerpNotionalForFill(i, i.baseAmount, Max(i.limitPrice, i.evidence.markPrice))
  }

  function SpotAmountsForFill(i: PairIntent, fill: nat): (r: Option<SpotAmounts>) {
    if fill == 0 || fill > i.baseAmount then None else
    var target := Times(i.rawSpotAmount, fill);
    var settlement := Times(i.settlementIn, fill);
    var minimum := Times(i.minimumSpotOut, fill);
    if target > U128_MAX || !Divides(i.baseAmount, target)
       || settlement + (i.baseAmount - 1) > U128_MAX || minimum > U128_MAX
    then None else
    var a := SpotAmounts(FloorDiv(settlement + (i.baseAmount - 1), i.baseAmount),
                         FloorDiv(minimum, i.baseAmount),
                         FloorDiv(target, i.baseAmount));
    if a.settlementIn == 0 || a.minimumOut == 0 || a.target == 0 then None else Some(a)
  }

  // ---------------------------------------------------------------- validate

  predicate HasIdentity(i: PairIntent) {
    && ValidBytes32(i.id) && ValidBytes32(i.spotUnwindId) && i.spotUnwindId != i.id
    && i.symbol != "" && ValidAddress(i.spotToken)
    && ValidBytes32(i.evidence.datasetManifest) && i.evidence.strategyVersion != ""
    && ValidBytes32(i.evidence.marketManifest) && ValidBytes32(i.evidence.quoteBlockHash)
  }

  predicate EmptyLegs(i: PairIntent) {
    || i.spotNotional == 0 || i.perpNotional == 0 || i.rawSpotAmount == 0 || i.settlementIn == 0
    || i.minimumSpotOut == 0 || i.minimumUnwindOut == 0 || i.baseAmount == 0
  }

  function LegCap(nav: nat): (r: nat) { Min(CANARY_LEG_CAP_MICROS, nav / LEG_NAV_DENOMINATOR) }

  function GrossCap(nav: nat): (r: nat) { Min(CANARY_GROSS_CAP_MICROS, nav / GROSS_NAV_DENOMINATOR) }

  predicate BadExecution(i: PairIntent) {
    || i.settlementIn != i.spotNotional
    || i.minimumSpotOut > i.rawSpotAmount
    || i.minimumUnwindOut > i.settlementIn
    || i.spotConfigVersion == 0
    || i.marketIndex > 0x7FFF
    || i.baseAmount > I64_MAX
    || i.evidence.markPrice == 0
    || i.limitPrice == 0
    || i.unwindPrice == 0
    || i.clientOrderIndex > MAX_CLIENT_ORDER_INDEX
    || i.unwindOrderIndex > MAX_CLIENT_ORDER_INDEX
    || i.unwindOrderIndex == i.clientOrderIndex
    || !(1 <= i.maxUnwindAttempts <= 8)
    || i.unwindOrderIndex + i.maxUnwindAttempts - 1 > MAX_CLIENT_ORDER_INDEX
    || i.unwindOrderIndex <= i.clientOrderIndex <= i.unwindOrderIndex + i.maxUnwindAttempts - 1
    || i.orderExpiry < SaturatingAdd64(i.createdAt, MIN_ORDER_EXPIRY_MS)
    || i.orderExpiry > SaturatingAdd64(i.createdAt, MAX_ORDER_EXPIRY_MS)
    || i.emergencyDeadline <= i.orderExpiry
    || i.emergencyDeadline > SaturatingAdd64(i.createdAt, MAX_ORDER_EXPIRY_MS)
    || i.reconciliationDeadline <= i.emergencyDeadline
    || i.reconciliationDeadline > SaturatingAdd64(i.createdAt, MAX_ORDER_EXPIRY_MS)
    || i.deadline > i.orderExpiry
  }

  // The last stage of `validate`: the share exposure of the spot leg equals the perp base amount.
  predicate ExposureMatches(i: PairIntent)
    requires i.baseAmount > 0
  {
    && i.spotDecimals <= 38 && i.baseDecimals <= 18 && i.priceDecimals <= 18
    && Divides(i.baseAmount, i.rawSpotAmount)
    && i.minimumSpotOut >= i.baseAmount
    && var adjusted := Times(i.rawSpotAmount, i.evidence.multiplier);
    && adjusted <= U128_MAX
    && Divides(MULTIPLIER_SCALE, adjusted)
    && ScaleUnits(FloorDiv(adjusted, MULTIPLIER_SCALE), i.spotDecimals, i.baseDecimals) == Some(i.baseAmount)
  }

  function Validate(i: PairIntent): (r: Option<PairIntentError>) {
    if !HasIdentity(i) then Some(MissingIdentity)
    else if i.spotSide != Buy || i.perpSide != Short then Some(UnsupportedDirection)
    else if EmptyLegs(i) then Some(EmptyLeg)
    else if DerivedPerpNotional(i) != Some(i.perpNotional) then Some(InvalidExecution)
    else if i.spotNotional != i.perpNotional then Some(InvalidExecution)
    else if LegCap(i.nav) == 0 || i.spotNotional > LegCap(i.nav) || i.perpNotional > LegCap(i.nav)
    then Some(LegCapExceeded)
    else if i.spotNotional + i.perpNotional > U64_MAX then Some(GrossCapExceeded)
    else if GrossCap(i.nav) == 0 || i.spotNotional + i.perpNotional > GrossCap(i.nav) then Some(GrossCapExceeded)
    else if i.leverage == 0 || i.leverage > USD_SCALE then Some(InvalidLeverage)
    else if i.createdAt >= i.deadline || i.evidence.quoteReceivedAt > i.createdAt
            || i.evidence.quoteExpiresAt < i.deadline
            || i.evidence.quoteReceivedAt >= i.evidence.quoteExpiresAt
    then Some(InvalidDeadline)
    else if i.evidence.multiplier == 0 then Some(InvalidEvidence)
    else if BadExecution(i) then Some(InvalidExecution)
    else if !ExposureMatches(i) then Some(ExposureMismatch)
    else None
  }

  predicate Valid(i: PairIntent) { Validate(i).None? }

  // ---------------------------------------------------------------- exact rescaling

  lemma {:induction false} Pow10Adds(m: nat, n: nat)
    ensures Pow10(m + n) == Pow10(m) * Pow10(n)
  {
    if m > 0 {
      Pow10Adds(m - 1, n);
      Swap3(10, Pow10(m - 1), Pow10(n));
    }
  }

  lemma TimesRegroups(value: nat, p: nat, low: nat)
    ensures Times(value, p) * low == value * Times(p, low)
  {
    Swap3(value, p, low);
  }

  lemma ScaleUpIs(value: nat, from: nat, to: nat, r: nat)
    requires from < to && ScaleUnits(value, from, to) == Some(r)
    ensures r == Times(value, Pow10(to - from))
  {
  }

  lemma ScaleDownIs(value: nat, from: nat, to: nat, r: nat)
    requires from > to && ScaleUnits(value, from, to) == Some(r)
    ensures value == Times(r, Pow10(from - to))
  {
  }

  lemma Pow10Splits(m: nat, n: nat)
    requires m <= n
    ensures Pow10(n) == Times(Pow10(n - m), Pow10(m))
  {
    Pow10Adds(n - m, m);
  }

  /** `scale_units` is exact: it answers only when the value is the same quantity in the new decimals. */
  lemma ScaleUnitsExact(value: nat, from: nat, to: nat, r: nat)
    requires ScaleUnits(value, from, to) == Some(r)
    ensures r * Pow10(from) == value * Pow10(to)
  {
    if from < to {
      ScaleUpIs(value, from, to, r);
      Pow10Splits(from, to);
      TimesRegroups(value, Pow10(to - from), Pow10(from));
    } else if from > to {
      ScaleDownIs(value, from, to, r);
      Pow10Splits(to, from);
      TimesRegroups(r, Pow10(from - to), Pow10(to));
    }
  }

  // ---------------------------------------------------------------- delta neutrality

  // raw * multiplier * 10^base == base * 10^18 * 10^spot: what validation established.
  lemma WholeExposure(i: PairIntent)
    requires Valid(i)
    ensures i.rawSpotAmount * i.evidence.multiplier * Pow10(i.baseDecimals)
            == i.baseAmount * MULTIPLIER_SCALE * Pow10(i.spotDecimals)
  {
    var product := Times(i.rawSpotAmount, i.evidence.multiplier);
    var adjusted := FloorDiv(product, MULTIPLIER_SCALE);
    ScaleUnitsExact(adjusted, i.spotDecimals, i.baseDecimals, i.baseAmount);
    ExposureAlgebra(i.rawSpotAmount, i.evidence.multiplier, adjusted, MULTIPLIER_SCALE,
                    Pow10(i.baseDecimals), i.baseAmount, Pow10(i.spotDecimals));
  }

  lemma ExposureAlgebra(raw: nat, m: nat, adjusted: nat, scale: nat, pb: nat, base: nat, ps: nat)
    requires raw * m == adjusted * scale && base * ps == adjusted * pb
    ensures raw * m * pb == base * scale * ps
  {
    Swap3(adjusted, scale, pb);
    assert raw * m * pb == adjusted * scale * pb;
    assert adjusted * pb * scale == base * ps * scale;
    Swap3(base, ps, scale);
  }

  lemma TargetIsExact(raw: nat, base: nat, fill: nat)
    requires base > 0 && Divides(base, raw)
    ensures Divides(base, Times(raw, fill))
    ensures FloorDiv(Times(raw, fill), base) == Times(FloorDiv(raw, base), fill)
  {
    var q := FloorDiv(raw, base);
    Swap3(q, base, fill);
    assert Times(raw, fill) == Times(q, fill) * base;
    DivExact(Times(q, fill), base);
  }

  lemma FillAlgebra(q: nat, fill: nat, m: nat, p: nat, base: nat, s: nat, w: nat)
    requires base > 0 && q * base * m * p == base * s * w
    ensures q * fill * m * p == fill * s * w
  {
    var whole, part := Times(Times(q, m), p), Times(s, w);
    assert whole * base == part * base by {
      Swap3(q, base, m);
      Swap3(Times(q, m), base, p);
      Swap3(base, s, w);
    }
    MulCancel(whole, part, base);
    Swap3(q, fill, m);
    Swap3(Times(q, m), fill, p);
    Swap3(fill, s, w);
  }

  /**
   * Exact delta neutrality of partial fills: the spot target, through the stock-token
   * multiplier and the two decimal scales, is the filled perp base amount exactly.
   */
  lemma HedgeIsDeltaNeutral(i: PairIntent, fill: nat)
    requires Valid(i) && SpotAmountsForFill(i, fill).Some?
    ensures var a := SpotAmountsForFill(i, fill).value;
            a.target * i.evidence.multiplier * Pow10(i.baseDecimals)
            == fill * MULTIPLIER_SCALE * Pow10(i.spotDecimals)
  {
    WholeExposure(i);
    TargetIsExact(i.rawSpotAmount, i.baseAmount, fill);
    FillAlgebra(FloorDiv(i.rawSpotAmount, i.baseAmount), fill, i.evidence.multiplier, Pow10(i.baseDecimals),
                i.baseAmount, MULTIPLIER_SCALE, Pow10(i.spotDecimals));
  }

  /** The minimum never exceeds the target and the settlement spent never exceeds the intent's. */
  lemma HedgeIsBounded(i: PairIntent, fill: nat)
    requires Valid(i) && SpotAmountsForFill(i, fill).Some?
    ensures var a := SpotAmountsForFill(i, fill).value;
            0 < a.minimumOut <= a.target && 0 < a.settlementIn <= i.settlementIn
  {
    MulMono(i.minimumSpotOut, i.rawSpotAmount, fill);
    DivMono(Times(i.minimumSpotOut, fill), Times(i.rawSpotAmount, fill), i.baseAmount);
    SettlementBounded(i.settlementIn, fill, i.baseAmount);
  }

  lemma SettlementBounded(s: nat, fill: nat, base: nat)
    requires 0 < fill <= base
    ensures FloorDiv(Times(s, fill) + (base - 1), base) <= s
    ensures s > 0 ==> FloorDiv(Times(s, fill) + (base - 1), base) > 0
  {
    MulMono(fill, base, s);
    DivMono(Times(s, fill) + (base - 1), Times(s, base) + (base - 1), base);
    QuotientUnique(Times(s, base) + (base - 1), base, s);
    if s > 0 {
      MulMono(1, s, fill);
      DivMono(base, Times(s, fill) + (base - 1), base);
      QuotientUnique(base, base, 1);
    }
  }

  lemma MinimumPositive(minimum: nat, fill: nat, base: nat)
    requires 0 < base <= minimum
    ensures FloorDiv(Times(minimum, fill), base) >= fill
  {
    MulMono(base, minimum, fill);
    DivMono(Times(fill, base), Times(minimum, fill), base);
    DivExact(fill, base);
  }

  /** A hedge is returned for exactly the fills in range whose target numerator fits a u128. */
  lemma HedgeReturnedExactly(i: PairIntent, fill: nat)
    requires Valid(i)
    ensures SpotAmountsForFill(i, fill).Some?
            <==> 0 < fill <= i.baseAmount && i.rawSpotAmount * fill <= U128_MAX
  {
    if 0 < fill <= i.baseAmount && i.rawSpotAmount * fill <= U128_MAX {
      TargetIsExact(i.rawSpotAmount, i.baseAmount, fill);
      MulMono(i.minimumSpotOut, i.rawSpotAmount, fill);
      assert i.settlementIn <= CANARY_LEG_CAP_MICROS;
      MulMono(i.settlementIn, CANARY_LEG_CAP_MICROS, fill);
      SettlementBounded(i.settlementIn, fill, i.baseAmount);
      MinimumPositive(i.minimumSpotOut, fill, i.baseAmount);
      MinimumPositive(i.rawSpotAmount, fill, i.baseAmount);
    }
  }

  /** In particular every fill can be hedged when the full product fits. */
  lemma EveryFillHedged(i: PairIntent, fill: nat)
    requires Valid(i) && 0 < fill <= i.baseAmount && i.rawSpotAmount * i.baseAmount <= U128_MAX
    ensures SpotAmountsForFill(i, fill).Some?
  {
    MulMono(fill, i.baseAmount, i.rawSpotAmount);
    HedgeReturnedExactly(i, fill);
  }

  // ---------------------------------------------------------------- caps on accepted fills

  // coordinator/src/worker.rs `fill_within_cap`
  predicate FillWithinCap(i: PairIntent, averagePrice: Option<nat>, fill: nat) {
    && fill <= i.baseAmount
    && averagePrice.Some?
    && PerpNotionalForFill(i, fill, averagePrice.value).Some?
    && PerpNotionalForFill(i, fill, averagePrice.value).value <= i.perpNotional
  }

  /** Every accepted fill respects the leg cap, and with its hedge the gross cap. */
  lemma AcceptedFillsRespectCaps(i: PairIntent, averagePrice: Option<nat>, fill: nat)
    requires Valid(i) && FillWithinCap(i, averagePrice, fill)
    ensures var notional := PerpNotionalForFill(i, fill, averagePrice.value).value;
            && notional <= CANARY_LEG_CAP_MICROS && notional * LEG_NAV_DENOMINATOR <= i.nav
            && (SpotAmountsForFill(i, fill).Some? ==>
                  var gross := notional + SpotAmountsForFill(i, fill).value.settlementIn;
                  gross <= CANARY_GROSS_CAP_MICROS && gross * GROSS_NAV_DENOMINATOR <= i.nav)
  {
    if SpotAmountsForFill(i, fill).Some? {
      HedgeIsBounded(i, fill);
    }
  }

  lemma NotionalMonotone(i: PairIntent, fill: nat, price: nat, base: nat, top: nat)
    requires 0 < fill <= base && 0 < price <= top && PerpNotionalForFill(i, base, top).Some?
    ensures PerpNotionalForFill(i, fill, price).Some?
    ensures PerpNotionalForFill(i, fill, price).value <= PerpNotionalForFill(i, base, top).value
  {
    var d := Pow10(i.baseDecimals + i.priceDecimals);
    MulMono(fill, base, price);
    MulMono(price, top, base);
    MulMono(Times(fill, price), Times(base, top), USD_SCALE);
    DivMono(Times(Times(fill, price), USD_SCALE) + (d - 1), Times(Times(base, top), USD_SCALE) + (d - 1), d);
  }

  /** Conversely no fill up to the order size at a price up to max(limit, mark) is an overfill. */
  lemma OrdinaryFillsAreWithinCap(i: PairIntent, fill: nat, price: nat)
    requires Valid(i)
    requires 0 < fill <= i.baseAmount && 0 < price <= Max(i.limitPrice, i.evidence.markPrice)
    ensures FillWithinCap(i, Some(price), fill)
  {
    NotionalMonotone(i, fill, price, i.baseAmount, Max(i.limitPrice, i.evidence.markPrice));
  }

  /** A fill above the order size, or at a price whose exact notional exceeds the intent's, is an overfill. */
  lemma OverfillsAreCaught(i: PairIntent, fill: nat, price: nat)
    requires fill > i.baseAmount
             || fill * price * USD_SCALE > i.perpNotional * Pow10(i.baseDecimals + i.priceDecimals)
    ensures !FillWithinCap(i, Some(price), fill)
  {
    if FillWithinCap(i, Some(price), fill) {
      var d := Pow10(i.baseDecimals + i.priceDecimals);
      var micros := PerpNotionalForFill(i, fill, price).value;
      MulMono(micros, i.perpNotional, d);
      assert false;
    }
  }
}
