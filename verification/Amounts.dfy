/** Amount arithmetic on Rust's `u64` and `i64`. The subset types carry the machine ranges, so
    an expression that typechecks as `U64` has been shown not to overflow; the two operations
    that can overflow in the source (`round_up_to_sat` and the `amount + max_fee` sum) wrap
    explicitly, as they do in a release build. */
module Amounts {
  import opened Primitives

  const U64_LIMIT: int := 0x1_0000_0000_0000_0000
  const I64_LIMIT: int := 0x8000_0000_0000_0000

  type U64 = x: int | 0 <= x < U64_LIMIT
  type I64 = x: int | -I64_LIMIT <= x < I64_LIMIT

  /** The greatest amount whose ceiling to a whole satoshi is still a `u64`. */
  const ROUNDABLE_MAX: U64 := 18_446_744_073_709_551_000

  /** Rust's `as i64`: reinterpret the 64 bits. */
  function AsI64(x: U64): I64 {
    if x < I64_LIMIT then x else x - U64_LIMIT
  }

  lemma {:induction false} ProductNonNegative(x: nat, y: nat)
    ensures x * y >= 0
  {
    if x != 0 {
      ProductNonNegative(x - 1, y);
      assert x * y == (x - 1) * y + y;
    }
  }

  function SaturatingMul(x: U64, y: U64): U64 {
    ProductNonNegative(x, y);
    if x * y < U64_LIMIT then x * y else U64_LIMIT - 1
  }

  function RoundUpToSat(msat: U64): U64 {
    (msat + 999) / 1000 * 1000 % U64_LIMIT
  }

  function WholeSat(msat: U64): U64 {
    msat / 1000
  }

  /** `r` is the least whole-satoshi amount that is not below `msat`. */
  predicate IsSatCeiling(msat: int, r: int) {
    r % 1000 == 0 && msat <= r < msat + 1000
  }

  /** The ceiling is right exactly up to `ROUNDABLE_MAX`; above it the product wraps to an
      amount below one satoshi. */
  lemma RoundUpIsCeilingExactlyWhenRoundable(msat: U64)
    ensures IsSatCeiling(msat, RoundUpToSat(msat)) <==> msat <= ROUNDABLE_MAX
    ensures msat > ROUNDABLE_MAX ==> RoundUpToSat(msat) < 1000
  {
    var up := (msat + 999) / 1000 * 1000;
    if msat <= ROUNDABLE_MAX {
      assert up < U64_LIMIT;
    } else {
      assert up == ROUNDABLE_MAX + 1000;
      assert up % U64_LIMIT == up - U64_LIMIT;
    }
  }

  // ---- Postgres BIGINT and LND's signed fields ----

  function EncodeBigint(msat: U64): Option<I64> {
    if msat < I64_LIMIT then Some(msat) else None
  }

  function DecodeBigint(v: I64): Option<U64> {
    if v < 0 then None else Some(v)
  }

  /** Encoding and decoding are inverse where both are defined, and neither accepts more. */
  lemma BigintRoundTrip(msat: U64, v: I64)
    ensures EncodeBigint(msat).Some? ==> DecodeBigint(EncodeBigint(msat).value) == Some(msat)
    ensures DecodeBigint(v).Some? ==> EncodeBigint(DecodeBigint(v).value) == Some(v)
    ensures EncodeBigint(msat).None? <==> (forall w: I64 :: DecodeBigint(w) != Some(msat))
  {
    if msat < I64_LIMIT {
      assert DecodeBigint(msat) == Some(msat);
    }
  }

  /** LND's raw `fee_msat`: negative means zero, then round up to a whole satoshi. */
  function ReportedFee(raw: I64): U64 {
    RoundUpToSat(if raw < 0 then 0 else raw)
  }

  /** `OutboxEvent::to_proto` on the stored `amount_sat`. */
  function ProtoSats(amountSat: I64): U64 {
    if amountSat >= 0 then amountSat else 0
  }

  /** Every `whole_sat() as i64` cast is lossless, so the negative clamp never fires. */
  lemma OutboxAmountReachesTheWire(msat: U64)
    ensures AsI64(WholeSat(msat)) >= 0
    ensures ProtoSats(AsI64(WholeSat(msat))) * 1000 <= msat < ProtoSats(AsI64(WholeSat(msat))) * 1000 + 1000
  {
    assert msat / 1000 < I64_LIMIT;
  }

  // ---- Fee policy ----

  const FEE_CAP_BASIS_POINTS: U64 := 50
  const FEE_CAP_MIN_SAT: U64 := 10

  function MaxFor(amountMsat: U64): U64 {
    var amountSat := WholeSat(amountMsat);
    var scaled := SaturatingMul(amountSat, FEE_CAP_BASIS_POINTS);
    var quotient := scaled / 10_000;
    var pctSat: U64 := if scaled % 10_000 > 5_000 then quotient + 1 else quotient;
    var maxFeeSat := if pctSat < FEE_CAP_MIN_SAT then FEE_CAP_MIN_SAT else pctSat;
    maxFeeSat * 1000
  }

  /** `r` is `n / 10_000` rounded to the nearest integer, a tie going down. */
  predicate IsNearestTieDown(n: int, r: int) {
    -5_000 < n - 10_000 * r <= 5_000
  }

  /** The cap is the larger of 10 sat and half a percent rounded to nearest, ties down, on every
      `u64`: the multiplication never saturates. It is the floor exactly up to 2100 whole sats. */
  lemma FeeCapIsNearestHalfPercent(amountMsat: U64, pct: int)
    requires IsNearestTieDown(50 * WholeSat(amountMsat), pct)
    ensures SaturatingMul(WholeSat(amountMsat), FEE_CAP_BASIS_POINTS) == 50 * WholeSat(amountMsat)
    ensures MaxFor(amountMsat) == 1000 * (if pct < 10 then 10 else pct)
    ensures MaxFor(amountMsat) == 10_000 <==> WholeSat(amountMsat) <= 2100
  {
    var scaled := 50 * WholeSat(amountMsat);
    assert scaled < U64_LIMIT;
    var quotient := scaled / 10_000;
    var mine := if scaled % 10_000 > 5_000 then quotient + 1 else quotient;
    assert IsNearestTieDown(scaled, mine);
    assert mine == pct;
  }

  lemma FeeCapMonotone(a: U64, b: U64)
    requires a <= b
    ensures MaxFor(a) <= MaxFor(b)
  {
    var sa, sb := 50 * WholeSat(a), 50 * WholeSat(b);
    assert sa <= sb < U64_LIMIT;
    assert sa / 10_000 <= sb / 10_000;
  }

  // ---- The AuthorizeSpend hold ----

  function HoldSat(amountMsat: U64, maxFeeMsat: U64): U64 {
    WholeSat(RoundUpToSat((amountMsat + maxFeeMsat) % U64_LIMIT))
  }

  lemma WholeHoldIsExact(amount: U64, maxFee: U64)
    requires amount % 1000 == 0 && maxFee % 1000 == 0 && amount + maxFee < U64_LIMIT
    ensures HoldSat(amount, maxFee) * 1000 == amount + maxFee
  {
    var k := amount / 1000 + maxFee / 1000;
    assert amount + maxFee == 1000 * k;
    hide WholeSat, RoundUpToSat;
    WholeRoundsToItself(k);
    assert (amount + maxFee) % U64_LIMIT == 1000 * k;
  }

  lemma WholeRoundsToItself(k: nat)
    requires 1000 * k < U64_LIMIT
    ensures WholeSat(RoundUpToSat(1000 * k)) == k
  {
    assert (1000 * k + 999) / 1000 == k;
  }

  /** LND's fee is reported in whole satoshis, rounded up; a negative one as zero. */
  lemma ReportedFeeIsCeiling(rawFee: I64)
    ensures rawFee >= 0 ==> IsSatCeiling(rawFee, ReportedFee(rawFee))
    ensures rawFee < 0 ==> ReportedFee(rawFee) == 0
  {
    RoundUpIsCeilingExactlyWhenRoundable(if rawFee < 0 then 0 else rawFee);
  }

  lemma FeeWithinCap(rawFee: I64, maxFee: U64)
    requires rawFee <= maxFee && maxFee % 1000 == 0
    ensures ReportedFee(rawFee) <= maxFee && ReportedFee(rawFee) % 1000 == 0
    ensures if rawFee < 0 then ReportedFee(rawFee) == 0 else IsSatCeiling(rawFee, ReportedFee(rawFee))
  {
    RoundUpIsCeilingExactlyWhenRoundable(if rawFee < 0 then 0 else rawFee);
  }

  lemma FeeCapFits(amount: U64)
    requires amount < I64_LIMIT
    ensures MaxFor(amount) % 1000 == 0 && MaxFor(amount) <= amount + 10_000 && EncodeBigint(MaxFor(amount)).Some?
    ensures amount + MaxFor(amount) < U64_LIMIT
  {
  }

  /** For every decoded invoice amount whose payment row the database accepts, the hold is the
      worst case to the millisatoshi, and any fee LND reports within its limit leaves a refund of
      whole satoshis between zero and the cap: what the hold has left after amount and raw fee,
      rounded down. */
  lemma HoldCoversWorstCase(invoiceMsat: U64, rawFee: I64)
    requires invoiceMsat <= ROUNDABLE_MAX
    requires EncodeBigint(RoundUpToSat(invoiceMsat)).Some?
    ensures var amount := RoundUpToSat(invoiceMsat);
            var maxFee := MaxFor(amount);
            && EncodeBigint(maxFee).Some?
            && HoldSat(amount, maxFee) * 1000 == amount + maxFee
            && (rawFee <= maxFee ==>
                  var refund := HoldSat(amount, maxFee) * 1000 - amount - ReportedFee(rawFee);
                  && 0 <= refund <= maxFee && refund % 1000 == 0
                  && (rawFee < 0 ==> refund == maxFee)
                  && (rawFee >= 0 ==>
                        refund <= HoldSat(amount, maxFee) * 1000 - amount - rawFee < refund + 1000))
  {
    hide MaxFor, HoldSat, ReportedFee, RoundUpToSat;
    var amount := RoundUpToSat(invoiceMsat);
    RoundUpIsCeilingExactlyWhenRoundable(invoiceMsat);
    FeeCapFits(amount);
    var maxFee := MaxFor(amount);
    WholeHoldIsExact(amount, maxFee);
    if rawFee <= maxFee {
      FeeWithinCap(rawFee, maxFee);
    }
  }
}
