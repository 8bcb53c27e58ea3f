/** The what-if stability simulator of the TCN agent view: four sliders in
    [0, 100] feed a liquidity buffer, a weekly income/spending/savings series
    (the random noise is an input here) and a clamped, weighted stability score
    that a decision table turns into one of six prediction texts. */
module StabilityScorer {
  import opened Rounding

  // ---------------------------------------------------------------------------
  // Sliders
  // ---------------------------------------------------------------------------

  datatype Sliders = Sliders(savings: int, spendingVol: int, incomeStab: int, paymentReliability: int)

  datatype SliderField = Savings | SpendingVol | IncomeStab | PaymentReliability

  /** The range of every slider control (min 0, max 100). */
  predicate InRange(v: int) { 0 <= v <= 100 }

  predicate ValidSliders(s: Sliders)
  {
    InRange(s.savings) && InRange(s.spendingVol) && InRange(s.incomeStab) && InRange(s.paymentReliability)
  }

  /** The sliders a fresh view starts with. */
  const DefaultSliders: Sliders := Sliders(50, 30, 80, 90)

  /** `{ ...sliders, field: v }`. */
  function WithField(s: Sliders, f: SliderField, v: int): (t: Sliders)
    ensures f == Savings ==> t == s.(savings := v)
    ensures f == SpendingVol ==> t == s.(spendingVol := v)
    ensures f == IncomeStab ==> t == s.(incomeStab := v)
    ensures f == PaymentReliability ==> t == s.(paymentReliability := v)
    ensures ValidSliders(s) && InRange(v) ==> ValidSliders(t)
  {
    match f
    case Savings => s.(savings := v)
    case SpendingVol => s.(spendingVol := v)
    case IncomeStab => s.(incomeStab := v)
    case PaymentReliability => s.(paymentReliability := v)
  }

  // ---------------------------------------------------------------------------
  // Liquidity buffer and stability score
  // ---------------------------------------------------------------------------

  /** savings/20 + (100 - spendingVol)/25: the liquidity buffer, in [0, 9] for in-range sliders. */
  function Liquidity(s: Sliders): (liq: real)
    ensures ValidSliders(s) ==> 0.0 <= liq <= 9.0
    ensures s.savings >= 0 && s.spendingVol <= 100 ==> liq >= 0.0
  {
    s.savings as real / 20.0 + (100 - s.spendingVol) as real / 25.0
  }

  /** The weighted sum before clamping. */
  function RawScore(s: Sliders, liquidity: real): real
  {
    0.5
    + (s.incomeStab as real / 100.0) * 0.25
    - (s.spendingVol as real / 100.0) * 0.20
    + (s.savings as real / 100.0) * 0.15
    + (s.paymentReliability as real / 100.0) * 0.20
    + (liquidity / 10.0) * 0.10
  }

  function Min(a: real, b: real): real { if a <= b then a else b }
  function Max(a: real, b: real): real { if a >= b then a else b }

  /** `Math.min(0.99, Math.max(0.1, x))`. */
  function Clamp(x: real): (r: real)
    ensures 0.1 <= r <= 0.99
    ensures 0.1 <= x <= 0.99 ==> r == x
    ensures x < 0.1 ==> r == 0.1
    ensures x > 0.99 ==> r == 0.99
  {
    Min(0.99, Max(0.1, x))
  }

  /** The score the view shows for the given sliders: the clamped weighted sum,
      computed with the liquidity derived from the same sliders. */
  function Score(s: Sliders): real
  {
    Clamp(RawScore(s, Liquidity(s)))
  }

  // ---------------------------------------------------------------------------
  // Prediction table and colour bands
  // ---------------------------------------------------------------------------

  datatype Prediction =
    | HighConsistency
    | ModerateVolatility
    | PaymentIrregular
    | StableMinor
    | IrregularIncome
    | CriticalInstability

  /** The decision table from score and sliders to a prediction. Inside the middle
      band the spending-volatility test comes before the payment-reliability test. */
  function PredictionFor(score: real, s: Sliders): (p: Prediction)
    ensures p == HighConsistency <==> score > 0.85
    ensures p == ModerateVolatility <==> 0.70 < score <= 0.85 && s.spendingVol > 60
    ensures p == PaymentIrregular <==> 0.70 < score <= 0.85 && s.spendingVol <= 60 && s.paymentReliability < 70
    ensures p == StableMinor <==> 0.70 < score <= 0.85 && s.spendingVol <= 60 && s.paymentReliability >= 70
    ensures p == IrregularIncome <==> 0.50 < score <= 0.70
    ensures p == CriticalInstability <==> score <= 0.50
  {
    if score > 0.85 then HighConsistency
    else if score > 0.70 then
      (if s.spendingVol > 60 then ModerateVolatility
       else if s.paymentReliability < 70 then PaymentIrregular
       else StableMinor)
    else if score > 0.50 then IrregularIncome
    else CriticalInstability
  }

  // The six prediction texts.
  const HighConsistencyText: string := "High consistency detected across all temporal vectors. Ideal candidate for automated credit approval."
  const ModerateVolatilityText: string := "Moderate volatility in spending patterns. Suggest limiting exposure until variance stabilizes."
  const PaymentIrregularText: string := "Payment history showing irregularities. Recommend manual review."
  const StableMinorText: string := "Stable behavior with minor fluctuations. Standard credit terms applicable."
  const IrregularIncomeText: string := "Irregular income and high spending volatility detected. High risk of default."
  const CriticalInstabilityText: string := "Critical instability in financial behavior. Application rejected by TCN model."

  function Text(p: Prediction): string
  {
    match p
    case HighConsistency => HighConsistencyText
    case ModerateVolatility => ModerateVolatilityText
    case PaymentIrregular => PaymentIrregularText
    case StableMinor => StableMinorText
    case IrregularIncome => IrregularIncomeText
    case CriticalInstability => CriticalInstabilityText
  }

  datatype Band = Emerald | Yellow | Red

  /** The three colour bands of `getScoreColor` and `getStatusColor`. */
  function ScoreBand(score: real): (b: Band)
    ensures b == Emerald <==> score > 0.8
    ensures b == Yellow <==> 0.6 < score <= 0.8
    ensures b == Red <==> score <= 0.6
  {
    if score > 0.8 then Emerald else if score > 0.6 then Yellow else Red
  }

  /** `getScoreColor`: text colour class of the score. */
  function ScoreColor(score: real): string
  {
    match ScoreBand(score)
    case Emerald => "text-emerald-400"
    case Yellow => "text-yellow-400"
    case Red => "text-red-400"
  }

  /** `getStatusColor`: the same bands in the darker shade. */
  function StatusColor(score: real): string
  {
    match ScoreBand(score)
    case Emerald => "text-emerald-500"
    case Yellow => "text-yellow-500"
    case Red => "text-red-500"
  }

  /** The header pill: "System Stable" when the score is above 0.6. */
  predicate SystemStable(score: real) { score > 0.6 }

  /** The header pill says stable exactly when the score is not in the red band. */
  lemma HeaderMatchesBand(score: real)
    ensures SystemStable(score) <==> ScoreBand(score) != Red
  {
  }

  datatype RiskLevel = Critical | Moderate | Low

  /** The spending-volatility risk label. */
  function SpendingRisk(spendingVol: int): (r: RiskLevel)
    ensures r == Critical <==> spendingVol > 75
    ensures r == Moderate <==> 40 < spendingVol <= 75
    ensures r == Low <==> spendingVol <= 40
  {
    if spendingVol > 75 then Critical else if spendingVol > 40 then Moderate else Low
  }

  function RiskLabel(r: RiskLevel): string
  {
    match r
    case Critical => "CRITICAL"
    case Moderate => "MODERATE"
    case Low => "LOW"
  }

  /** Liquidity bar `i` (one of 1..6) is lit when `i <= liquidityBuffer`. */
  predicate BarLit(i: int, liquidity: real) { i as real <= liquidity }

  /** How many of the bars 1..n are lit. */
  function LitBars(n: nat, liquidity: real): nat
  {
    if n == 0 then 0 else LitBars(n - 1, liquidity) + (if BarLit(n, liquidity) then 1 else 0)
  }

  /** Of bars 1..n, exactly the first min(n, floor(liquidity)) are lit (none for a negative buffer). */
  lemma {:induction false} LitBarsCount(n: nat, liquidity: real)
    ensures LitBars(n, liquidity) == if liquidity < 0.0 then 0 else if liquidity.Floor < n then liquidity.Floor else n
  {
    if n > 0 {
      LitBarsCount(n - 1, liquidity);
    }
  }

  // ---------------------------------------------------------------------------
  // The stability computation, as the view performs it
  // ---------------------------------------------------------------------------

  /** `calculateStability`: accumulate the weighted terms into `score`, clamp it,
      then pick the prediction. */
  method CalculateStability(s: Sliders, liquidity: real) returns (score: real, prediction: Prediction)
    ensures 0.1 <= score <= 0.99
    ensures score == Clamp(RawScore(s, liquidity))
    ensures prediction == PredictionFor(score, s)
  {
    score := 0.5;
    score := score + (s.incomeStab as real / 100.0) * 0.25;
    score := score - (s.spendingVol as real / 100.0) * 0.20;
    score := score + (s.savings as real / 100.0) * 0.15;
    score := score + (s.paymentReliability as real / 100.0) * 0.20;
    score := score + (liquidity / 10.0) * 0.10;
    score := Min(0.99, Max(0.1, score));
    if score > 0.85 {
      prediction := HighConsistency;
    } else if score > 0.70 {
      if s.spendingVol > 60 {
        prediction := ModerateVolatility;
      } else if s.paymentReliability < 70 {
        prediction := PaymentIrregular;
      } else {
        prediction := StableMinor;
      }
    } else if score > 0.50 {
      prediction := IrregularIncome;
    } else {
      prediction := CriticalInstability;
    }
  }

  /** For in-range sliders the unclamped score never falls below 0.3, so only the
      upper clamp can ever take effect. */
  lemma LowerClampInactive(s: Sliders)
    requires ValidSliders(s)
    ensures RawScore(s, Liquidity(s)) >= 0.3
    ensures Score(s) == Min(0.99, RawScore(s, Liquidity(s)))
  {
  }

  /** The upper clamp is reachable: with every slider at its best the weighted sum is 1.19. */
  lemma UpperClampReachable()
    ensures RawScore(Sliders(100, 0, 100, 100), Liquidity(Sliders(100, 0, 100, 100))) == 1.19
    ensures Score(Sliders(100, 0, 100, 100)) == 0.99
  {
  }

  /** `t` is at least as good as `s` on every slider. */
  predicate Dominates(t: Sliders, s: Sliders)
  {
    t.incomeStab >= s.incomeStab && t.savings >= s.savings
    && t.paymentReliability >= s.paymentReliability && t.spendingVol <= s.spendingVol
  }

  /** The score is non-decreasing in income stability, savings and payment
      reliability and non-increasing in spending volatility. */
  lemma ScoreMonotone(s: Sliders, t: Sliders)
    requires Dominates(t, s)
    ensures Score(s) <= Score(t)
  {
    assert Liquidity(s) <= Liquidity(t);
    assert RawScore(s, Liquidity(s)) <= RawScore(t, Liquidity(t));
  }

  /** The default sliders 50/30/80/90 give liquidity 5.3 and score 0.948, in the top band. */
  lemma DefaultOutputs()
    ensures Liquidity(DefaultSliders) == 5.3
    ensures Score(DefaultSliders) == 0.948
    ensures PredictionFor(Score(DefaultSliders), DefaultSliders) == HighConsistency
    ensures ScoreBand(Score(DefaultSliders)) == Emerald
  {
  }

  // ---------------------------------------------------------------------------
  // Week labels
  // ---------------------------------------------------------------------------

  function DigitChar(d: int): char
    requires 0 <= d < 10
  {
    "0123456789"[d]
  }

  function DigitValue(c: char): int
  {
    if '0' <= c <= '9' then (c as int) - ('0' as int) else 0
  }

  /** Decimal rendering of a natural number, as a template literal prints it. */
  function NatToString(n: nat): (s: string)
    ensures |s| >= 1
    ensures forall k :: 0 <= k < |s| ==> '0' <= s[k] <= '9'
  {
    if n < 10 then [DigitChar(n)] else NatToString(n / 10) + [DigitChar(n % 10)]
  }

  /** Reads a string of decimal digits back as a number. */
  function ParseDigits(s: string): int
  {
    if |s| == 0 then 0 else ParseDigits(s[..|s| - 1]) * 10 + DigitValue(s[|s| - 1])
  }

  lemma {:induction false} ParseNatToString(n: nat)
    ensures ParseDigits(NatToString(n)) == n
  {
    var s := NatToString(n);
    if n < 10 {
      assert s[..|s| - 1] == [];
    } else {
      ParseNatToString(n / 10);
      assert s[..|s| - 1] == NatToString(n / 10);
    }
  }

  /** `W${i}`. */
  function WeekLabel(i: nat): string
  {
    "W" + NatToString(i)
  }

  /** Different weeks get different labels. */
  lemma WeekLabelInjective(i: nat, j: nat)
    requires WeekLabel(i) == WeekLabel(j)
    ensures i == j
  {
    assert NatToString(i) == WeekLabel(i)[1..];
    assert NatToString(j) == WeekLabel(j)[1..];
    ParseNatToString(i);
    ParseNatToString(j);
  }

  // ---------------------------------------------------------------------------
  // The weekly series
  // ---------------------------------------------------------------------------

  datatype WeekPoint = WeekPoint(week: string, income: int, spending: int, savings: int)

  /** The two `Math.random()` draws of one week, each in [0, 1). */
  datatype Noise = Noise(incomeDraw: real, spendingDraw: real)

  predicate ValidNoise(n: Noise) { 0.0 <= n.incomeDraw < 1.0 && 0.0 <= n.spendingDraw < 1.0 }

  function IncomeRaw(s: Sliders, draw: real): real
  {
    5000.0 + (draw - 0.5) * ((100 - s.incomeStab) * 15) as real
  }

  function SpendingRaw(s: Sliders, draw: real): real
  {
    3500.0 + (draw - 0.5) * (s.spendingVol * 25) as real
  }

  function SavingsMultiplier(s: Sliders): real
  {
    1.0 + (s.savings - 50) as real / 100.0
  }

  function IntMax(a: int, b: int): int { if a >= b then a else b }

  /** The point of week `i` for the given draws: income and spending rounded and
      floored at 0; savings rounded from the unfloored income and spending. */
  function WeekPointFor(s: Sliders, i: nat, n: Noise): WeekPoint
  {
    var income := IncomeRaw(s, n.incomeDraw);
    var spending := SpendingRaw(s, n.spendingDraw);
    WeekPoint(WeekLabel(i), IntMax(0, MathRound(income)), IntMax(0, MathRound(spending)),
              MathRound((income - spending) * SavingsMultiplier(s)))
  }

  /** `generateData`'s loop: one point per week 1..weeks, pushed in order. */
  method GenerateSeries(s: Sliders, weeks: nat, noise: seq<Noise>) returns (data: seq<WeekPoint>)
    requires |noise| == weeks
    ensures |data| == weeks
    ensures forall k :: 0 <= k < weeks ==> data[k] == WeekPointFor(s, k + 1, noise[k])
  {
    var baseIncome := 5000.0;
    var baseSpending := 3500.0;
    data := [];
    for i := 1 to weeks + 1
      invariant |data| == i - 1
      invariant forall k :: 0 <= k < i - 1 ==> data[k] == WeekPointFor(s, k + 1, noise[k])
    {
      var draw := noise[i - 1];
      var incomeNoise := ((100 - s.incomeStab) * 15) as real;
      var income := baseIncome + (draw.incomeDraw - 0.5) * incomeNoise;
      var spendingNoise := (s.spendingVol * 25) as real;
      var spending := baseSpending + (draw.spendingDraw - 0.5) * spendingNoise;
      var savingsMulti := 1.0 + (s.savings - 50) as real / 100.0;
      var savings := (income - spending) * savingsMulti;
      assert income == IncomeRaw(s, draw.incomeDraw) && spending == SpendingRaw(s, draw.spendingDraw);
      assert savingsMulti == SavingsMultiplier(s);
      data := data + [WeekPoint(WeekLabel(i), IntMax(0, MathRound(income)), IntMax(0, MathRound(spending)), MathRound(savings))];
    }
  }

  /** Every generated point is labelled with its week, has income and spending at
      least 0, and savings rounded from the unfloored income and spending. */
  lemma WeekPointShape(s: Sliders, i: nat, n: Noise)
    ensures WeekPointFor(s, i, n).week == WeekLabel(i)
    ensures WeekPointFor(s, i, n).income >= 0 && WeekPointFor(s, i, n).spending >= 0
    ensures WeekPointFor(s, i, n).savings
            == MathRound((IncomeRaw(s, n.incomeDraw) - SpendingRaw(s, n.spendingDraw)) * SavingsMultiplier(s))
  {
  }

  /** A draw in [0, 1), centred, scaled by an amplitude in [0, a], lies within a/2 of 0. */
  lemma {:induction false} CentredNoiseBound(draw: real, amp: int, a: int)
    requires 0.0 <= draw < 1.0 && 0 <= amp <= a
    ensures -(a as real) / 2.0 <= (draw - 0.5) * amp as real <= (a as real) / 2.0
  {
    var d := draw - 0.5;
    var m := amp as real;
    assert 0.5 * m <= (a as real) / 2.0;
    ProductNonNegative(0.5 - d, m);
    ProductNonNegative(d + 0.5, m);
    assert d * m == 0.5 * m - (0.5 - d) * m;
    assert d * m == (d + 0.5) * m - 0.5 * m;
  }

  lemma ProductNonNegative(x: real, y: real)
    requires x >= 0.0 && y >= 0.0
    ensures x * y >= 0.0
  {
  }

  /** With in-range sliders and draws in [0, 1) neither `Math.max(0, ...)` ever
      takes effect: income stays in [4250, 5750] and spending in [2250, 4750]. */
  lemma SeriesClampsInactive(s: Sliders, n: Noise)
    requires ValidSliders(s) && ValidNoise(n)
    ensures 4250 <= MathRound(IncomeRaw(s, n.incomeDraw)) <= 5750
    ensures 2250 <= MathRound(SpendingRaw(s, n.spendingDraw)) <= 4750
    ensures IntMax(0, MathRound(IncomeRaw(s, n.incomeDraw))) == MathRound(IncomeRaw(s, n.incomeDraw))
    ensures IntMax(0, MathRound(SpendingRaw(s, n.spendingDraw))) == MathRound(SpendingRaw(s, n.spendingDraw))
  {
    CentredNoiseBound(n.incomeDraw, (100 - s.incomeStab) * 15, 1500);
    CentredNoiseBound(n.spendingDraw, s.spendingVol * 25, 2500);
    MathRoundMonotone(4250.0, IncomeRaw(s, n.incomeDraw));
    MathRoundMonotone(IncomeRaw(s, n.incomeDraw), 5750.0);
    MathRoundMonotone(2250.0, SpendingRaw(s, n.spendingDraw));
    MathRoundMonotone(SpendingRaw(s, n.spendingDraw), 4750.0);
  }

  // ---------------------------------------------------------------------------
  // The view's state
  // ---------------------------------------------------------------------------

  /** The simulator view: its React state cells as fields. After every event the
      data effect (which depends on `weeks` and `sliders`) has run. */
  class Visualizer {
    var weeks: int
    var data: seq<WeekPoint>
    var stabilityScore: real
    var predictionText: string
    var liquidityBuffer: real
    var sliders: Sliders
    var isSimulating: bool

    /** The derived cells agree with the sliders, and weeks grows from 12 in steps of 4. */
    ghost predicate Valid()
      reads this
    {
      && ValidSliders(sliders)
      && weeks >= 12 && weeks % 4 == 0
      && |data| == weeks
      && (forall k :: 0 <= k < weeks ==> data[k].week == WeekLabel(k + 1))
      && liquidityBuffer == Liquidity(sliders)
      && stabilityScore == Score(sliders)
      && predictionText == Text(PredictionFor(stabilityScore, sliders))
    }

    /** Mounting: the initial state cells, then the data effect with the first noise draws. */
    constructor Mount(noise: seq<Noise>)
      requires |noise| == 12
      ensures Valid()
      ensures weeks == 12 && sliders == DefaultSliders && !isSimulating
      ensures stabilityScore == 0.948 && liquidityBuffer == 5.3
      ensures |data| == weeks && forall k :: 0 <= k < weeks ==> data[k] == WeekPointFor(sliders, k + 1, noise[k])
    {
      weeks := 12;
      data := [];
      stabilityScore := 0.82;
      predictionText := "";
      liquidityBuffer := 4.2;
      sliders := DefaultSliders;
      isSimulating := false;
      new;
      GenerateData(noise);
      DefaultOutputs();
    }

    /** `generateData`: recompute liquidity, the series and the score from the sliders. */
    method GenerateData(noise: seq<Noise>)
      requires weeks >= 0 && |noise| == weeks
      modifies this
      ensures weeks == old(weeks) && sliders == old(sliders) && isSimulating == old(isSimulating)
      ensures liquidityBuffer == Liquidity(sliders)
      ensures stabilityScore == Score(sliders)
      ensures predictionText == Text(PredictionFor(stabilityScore, sliders))
      ensures |data| == weeks
      ensures forall k :: 0 <= k < weeks ==> data[k] == WeekPointFor(sliders, k + 1, noise[k])
    {
      var calculatedLiquidity := Liquidity(sliders);
      liquidityBuffer := calculatedLiquidity;
      data := GenerateSeries(sliders, weeks, noise);
      var score, prediction := CalculateStability(sliders, calculatedLiquidity);
      stabilityScore := score;
      predictionText := Text(prediction);
    }

    /** Moving one slider to `v`, after which the data effect runs. */
    method SetSlider(f: SliderField, v: int, noise: seq<Noise>)
      requires Valid() && InRange(v) && |noise| == weeks
      modifies this
      ensures Valid()
      ensures sliders == WithField(old(sliders), f, v)
      ensures weeks == old(weeks) && isSimulating == old(isSimulating)
      ensures |data| == weeks && forall k :: 0 <= k < weeks ==> data[k] == WeekPointFor(sliders, k + 1, noise[k])
    {
      sliders := WithField(sliders, f, v);
      GenerateData(noise);
    }

    /** `handleSimulate`, click part: the button is disabled while a simulation runs. */
    method StartSimulation()
      requires Valid()
      modifies this
      ensures Valid() && isSimulating
      ensures weeks == old(weeks) && sliders == old(sliders) && data == old(data)
      ensures stabilityScore == old(stabilityScore) && liquidityBuffer == old(liquidityBuffer)
      ensures predictionText == old(predictionText)
    {
      if !isSimulating {
        isSimulating := true;
      }
    }

    /** `handleSimulate`, timer part: four more weeks, then the data effect runs. */
    method SimulationTimerFires(noise: seq<Noise>)
      requires Valid() && isSimulating && |noise| == weeks + 4
      modifies this
      ensures Valid() && !isSimulating
      ensures weeks == old(weeks) + 4
      ensures sliders == old(sliders)
      ensures |data| == weeks && forall k :: 0 <= k < weeks ==> data[k] == WeekPointFor(sliders, k + 1, noise[k])
    {
      weeks := weeks + 4;
      isSimulating := false;
      GenerateData(noise);
    }
  }
}
