/** Saturating quota conversion, and the twice-rounded charge of a channel test. Numbers are exact reals
    beside the float values the conversion treats specially. */
module QuotaMath {
  import opened Wrappers
  import opened Numbers

  const MAX_QUOTA := 0x7FFF_FFFF
  const MIN_QUOTA := -0x8000_0000

  datatype Clamp = ClampedNaN | ClampedOverflow | ClampedUnderflow

  function Floor(v: real): (n: int)
    ensures n as real <= v < n as real + 1.0
  {
    v.Floor
  }

  /** Go's conversion of a float to an integer. */
  function Truncate(v: real): (n: int)
    ensures v >= 0.0 ==> n as real <= v < n as real + 1.0
    ensures v <= 0.0 ==> n as real - 1.0 < v <= n as real
  {
    if v >= 0.0 then Floor(v) else -Floor(-v)
  }

  /** `math.Round`: to the nearest integer, halves away from zero. */
  function Round(v: real): (n: int)
    ensures -0.5 <= n as real - v <= 0.5
    ensures v >= 0.0 ==> v < n as real + 0.5 && n >= 0
    ensures v <= 0.0 ==> n as real - 0.5 < v && n <= 0
  {
    if v >= 0.0 then Floor(v + 0.5) else -Floor(-v + 0.5)
  }

  /** `saturateQuota`. */
  function Saturate(v: Float): (r: (int, Option<Clamp>))
    ensures MIN_QUOTA <= r.0 <= MAX_QUOTA
    ensures r.1.None? <==> v.Finite? && MIN_QUOTA as real < v.value < MAX_QUOTA as real
    ensures r.1.None? ==> (v.value >= 0.0 ==> r.0 as real <= v.value < r.0 as real + 1.0)
                          && (v.value <= 0.0 ==> r.0 as real - 1.0 < v.value <= r.0 as real)
    ensures v.NaN? <==> r == (0, Some(ClampedNaN))
    ensures r.1 == Some(ClampedOverflow) <==> v == PositiveInfinity || (v.Finite? && v.value >= MAX_QUOTA as real)
    ensures r.1 == Some(ClampedUnderflow) <==> v == NegativeInfinity || (v.Finite? && v.value <= MIN_QUOTA as real)
    ensures r.1 == Some(ClampedOverflow) ==> r.0 == MAX_QUOTA
    ensures r.1 == Some(ClampedUnderflow) ==> r.0 == MIN_QUOTA
  {
    match v
    case NaN => (0, Some(ClampedNaN))
    case PositiveInfinity => (MAX_QUOTA, Some(ClampedOverflow))
    case NegativeInfinity => (MIN_QUOTA, Some(ClampedUnderflow))
    case Finite(x) =>
      if x >= MAX_QUOTA as real then (MAX_QUOTA, Some(ClampedOverflow))
      else if x <= MIN_QUOTA as real then (MIN_QUOTA, Some(ClampedUnderflow))
      else (Truncate(x), None)
  }

  /** `QuotaFromFloatChecked`. */
  function FromFloat(v: Float): (int, Option<Clamp>) {
    Saturate(v)
  }

  /** `QuotaRoundChecked`. */
  function RoundChecked(v: Float): (int, Option<Clamp>) {
    Saturate(if v.Finite? then Finite(Round(v.value) as real) else v)
  }

  function Clamped(n: int): int {
    if n >= MAX_QUOTA then MAX_QUOTA else if n <= MIN_QUOTA then MIN_QUOTA else n
  }

  /** Rounding with saturation is rounding, cut off at the bounds. */
  lemma RoundedIsClamped(v: real)
    ensures RoundChecked(Finite(v)).0 == Clamped(Round(v))
    ensures RoundChecked(Finite(v)).1.None? <==> MIN_QUOTA < Round(v) < MAX_QUOTA
  {
    var n := Round(v);
    assert Truncate(n as real) == n;
  }

  lemma RoundIsMonotone(a: real, b: real)
    requires a <= b
    ensures Round(a) <= Round(b)
  {
  }

  /** Both conversions preserve order, on all finite inputs. */
  lemma ConversionsAreMonotone(a: real, b: real)
    requires a <= b
    ensures RoundChecked(Finite(a)).0 <= RoundChecked(Finite(b)).0
    ensures FromFloat(Finite(a)).0 <= FromFloat(Finite(b)).0
  {
    RoundedIsClamped(a);
    RoundedIsClamped(b);
    RoundIsMonotone(a, b);
  }

  // ---------------------------------------------------------------- the charge of a test

  datatype PriceData = PriceData(usePrice: bool, modelPrice: real, modelRatio: real, completionRatio: real)

  /** Prompt tokens and completion tokens, the latter by their ratio. */
  function Tokens(prompt: nat, completion: nat, ratio: real): real {
    prompt as real + Times(completion, ratio)
  }

  function Times(n: int, ratio: real): real {
    n as real * ratio
  }

  /** `QuotaRound` on a finite value. */
  function Rounded(v: real): int {
    Clamped(Round(v))
  }

  /** The final charge for a product: at least 1 for a model that is not free. */
  function Priced(product: real, ratio: real): int {
    if ratio != 0.0 && Rounded(product) <= 0 then 1 else Rounded(product)
  }

  function Charge(prompt: nat, completion: nat, price: PriceData): int {
    Priced(Times(Rounded(Tokens(prompt, completion, price.completionRatio)), price.modelRatio), price.modelRatio)
  }

  method QuotaRound(v: real) returns (quota: int)
    ensures quota == Rounded(v) && MIN_QUOTA <= quota <= MAX_QUOTA
  {
    RoundedIsClamped(v);
    quota := RoundChecked(Finite(v)).0;
  }

  /** The non-tiered part of `settleTestQuota`. */
  method SettleTestQuota(prompt: nat, completion: nat, price: PriceData, quotaPerUnit: real) returns (quota: int)
    ensures !price.usePrice ==> quota == Charge(prompt, completion, price)
    ensures price.usePrice ==> quota == FromFloat(Finite(price.modelPrice * quotaPerUnit)).0
    ensures MIN_QUOTA <= quota <= MAX_QUOTA
  {
    quota := 0;
    if !price.usePrice {
      quota := QuotaRound(Tokens(prompt, completion, price.completionRatio));
      quota := QuotaRound(Times(quota, price.modelRatio));
      if price.modelRatio != 0.0 && quota <= 0 {
        quota := 1;
      }
      return;
    }
    quota := FromFloat(Finite(price.modelPrice * quotaPerUnit)).0;
  }

  // ---------------------------------------------------------------- what a test costs

  lemma TimesIsMonotone(m: int, n: int, ratio: real)
    requires m <= n && ratio >= 0.0
    ensures Times(m, ratio) <= Times(n, ratio)
  {
    NonNegative((n - m) as real, ratio);
    assert (n - m) as real * ratio == n as real * ratio - m as real * ratio;
  }

  lemma TokensAreMonotone(p: nat, c: nat, p': nat, c': nat, ratio: real)
    requires p <= p' && c <= c' && ratio >= 0.0
    ensures 0.0 <= Tokens(p, c, ratio) <= Tokens(p', c', ratio)
  {
    TimesIsMonotone(c, c', ratio);
    TimesIsMonotone(0, c, ratio);
  }

  lemma RoundedIsMonotone(a: real, b: real)
    requires a <= b
    ensures Rounded(a) <= Rounded(b)
    ensures a >= 0.0 ==> Rounded(a) >= 0
  {
    RoundIsMonotone(a, b);
  }

  lemma PricedIsMonotone(a: real, b: real, ratio: real)
    requires 0.0 <= a <= b && ratio >= 0.0
    ensures 0 <= Priced(a, ratio) <= Priced(b, ratio) <= MAX_QUOTA
    ensures ratio != 0.0 ==> Priced(a, ratio) > 0
  {
    RoundedIsMonotone(a, b);
  }

  /** More tokens never cost less. */
  lemma ChargeIsMonotone(p: nat, c: nat, p': nat, c': nat, price: PriceData)
    requires p <= p' && c <= c' && price.completionRatio >= 0.0 && price.modelRatio >= 0.0
    ensures Charge(p, c, price) <= Charge(p', c', price)
  {
    var t, t' := Tokens(p, c, price.completionRatio), Tokens(p', c', price.completionRatio);
    TokensAreMonotone(p, c, p', c', price.completionRatio);
    RoundedIsMonotone(t, t');
    TimesIsMonotone(Rounded(t), Rounded(t'), price.modelRatio);
    TimesIsMonotone(0, Rounded(t), price.modelRatio);
    PricedIsMonotone(Times(Rounded(t), price.modelRatio), Times(Rounded(t'), price.modelRatio), price.modelRatio);
  }

  /** A charge is a valid quota, positive unless the model is free, and nothing when it is. */
  lemma ChargeIsInRange(p: nat, c: nat, price: PriceData)
    requires price.completionRatio >= 0.0 && price.modelRatio >= 0.0
    ensures 0 <= Charge(p, c, price) <= MAX_QUOTA
    ensures price.modelRatio != 0.0 <==> Charge(p, c, price) > 0
  {
    var t := Tokens(p, c, price.completionRatio);
    TokensAreMonotone(p, c, p, c, price.completionRatio);
    RoundedIsMonotone(t, t);
    TimesIsMonotone(0, Rounded(t), price.modelRatio);
    var product := Times(Rounded(t), price.modelRatio);
    PricedIsMonotone(product, product, price.modelRatio);
  }

  /** Rounding that stops at 2147483647. */
  ghost function Whole(v: real): int {
    if v >= 2147483646.5 then 2147483647 else Round(v)
  }

  /** The charge for a product: one that comes to nothing is raised to 1 unless the model is free. */
  ghost function FinalCharge(product: real, ratio: real): int {
    if ratio != 0.0 && product < 0.5 then 1 else Whole(product)
  }

  lemma RoundedIsWhole(v: real)
    requires v >= 0.0
    ensures 0 <= Rounded(v) == Whole(v)
  {
  }

  lemma PricedIsFinal(product: real, ratio: real)
    requires product >= 0.0
    ensures Priced(product, ratio) == FinalCharge(product, ratio)
  {
    RoundedIsWhole(product);
  }

  /** The charge in full: the tokens rounded, then their price. */
  ghost function FullCharge(tokens: real, ratio: real): int {
    FinalCharge(Times(Whole(tokens), ratio), ratio)
  }

  lemma PricedTokens(tokens: real, ratio: real)
    requires tokens >= 0.0 && ratio >= 0.0
    ensures Priced(Times(Rounded(tokens), ratio), ratio) == FullCharge(tokens, ratio)
  {
    RoundedIsWhole(tokens);
    TimesIsMonotone(0, Rounded(tokens), ratio);
    PricedIsFinal(Times(Rounded(tokens), ratio), ratio);
  }

  lemma ChargeIsFull(p: nat, c: nat, price: PriceData, tokens: real)
    requires price.completionRatio >= 0.0 && price.modelRatio >= 0.0 && tokens == Tokens(p, c, price.completionRatio)
    ensures tokens >= 0.0 && Charge(p, c, price) == FullCharge(tokens, price.modelRatio)
  {
    TokensAreMonotone(p, c, p, c, price.completionRatio);
    PricedTokens(tokens, price.modelRatio);
  }

  /** Both roundings stop at 2147483647, and a charge that comes to nothing is raised to 1 unless the model is
      free. */
  lemma ChargeInFull(p: nat, c: nat, price: PriceData, tokens: real)
    requires price.completionRatio >= 0.0 && price.modelRatio >= 0.0
    requires tokens == p as real + c as real * price.completionRatio
    ensures Charge(p, c, price) == FullCharge(tokens, price.modelRatio)
  {
    assert tokens == Tokens(p, c, price.completionRatio);
    ChargeIsFull(p, c, price, tokens);
  }

  /** Neither rounding runs into the bound, and the charge is not raised to the least one. */
  predicate Ordinary(tokens: real, ratio: real) {
    tokens < 2147483646.5 && OrdinaryProduct(Times(Round(tokens), ratio), ratio)
  }

  predicate OrdinaryProduct(product: real, ratio: real) {
    product < 2147483646.5 && (ratio == 0.0 || product >= 0.5)
  }

  lemma FullChargeIsAccurate(tokens: real, ratio: real)
    requires tokens >= 0.0 && ratio >= 0.0 && Ordinary(tokens, ratio)
    ensures -(ratio / 2.0 + 0.5) <= FullCharge(tokens, ratio) as real - tokens * ratio <= ratio / 2.0 + 0.5
  {
    var product := Times(Round(tokens), ratio);
    ScaledError(Round(tokens), tokens, ratio);
    AddErrors(product, tokens * ratio, ratio);
  }

  /** The two roundings together move the charge by at most half a token's price and half a unit. */
  lemma ChargeIsAccurate(p: nat, c: nat, price: PriceData, tokens: real)
    requires price.completionRatio >= 0.0 && price.modelRatio >= 0.0 && Ordinary(tokens, price.modelRatio)
    requires tokens == p as real + c as real * price.completionRatio
    ensures var bound := price.modelRatio / 2.0 + 0.5;
            -bound <= Charge(p, c, price) as real - tokens * price.modelRatio <= bound
  {
    ChargeIsFull(p, c, price, tokens);
    FullChargeIsAccurate(tokens, price.modelRatio);
  }

  lemma AddErrors(product: real, exact: real, ratio: real)
    requires -ratio / 2.0 <= product - exact <= ratio / 2.0 && OrdinaryProduct(product, ratio)
    ensures -(ratio / 2.0 + 0.5) <= FinalCharge(product, ratio) as real - exact <= ratio / 2.0 + 0.5
  {
  }

  lemma ScaledError(t: int, tokens: real, ratio: real)
    requires -0.5 <= t as real - tokens <= 0.5 && ratio >= 0.0
    ensures -ratio / 2.0 <= Times(t, ratio) - tokens * ratio <= ratio / 2.0
  {
    var d := t as real - tokens;
    assert Times(t, ratio) - tokens * ratio == d * ratio;
    NonNegative(0.5 - d, ratio);
    NonNegative(d + 0.5, ratio);
    assert (0.5 - d) * ratio == 0.5 * ratio - d * ratio;
    assert (d + 0.5) * ratio == d * ratio + 0.5 * ratio;
  }

  lemma NonNegative(a: real, b: real)
    requires a >= 0.0 && b >= 0.0
    ensures a * b >= 0.0
  {
  }

  /** The bound is attained: half a token rounds up, and so does its price. */
  lemma AccuracyIsTight()
    ensures var price := PriceData(false, 0.0, 1.5, 0.5);
            && Ordinary(0.5, 1.5)
            && Charge(0, 1, price) as real - 0.5 * 1.5 == price.modelRatio / 2.0 + 0.5
  {
    var price := PriceData(false, 0.0, 1.5, 0.5);
    assert Round(0.5) == 1 && Times(1, 1.5) == 1.5 && Round(1.5) == 2;
    ChargeIsFull(0, 1, price, 0.5);
  }
}
