/** The decision page: the rule that turns a risk poll into the displayed graph
    metrics and the combined risk score, the approve/reject handler, and the
    ordering of the feature-attribution bars. */
module DecisionEngine {
  import opened Wrappers
  import opened Rounding

  // ---------------------------------------------------------------------------
  // The combined risk score
  // ---------------------------------------------------------------------------

  /** The temporal model's score, fixed on this page. */
  const TcnScore: real := 0.79

  /** `Number((1.0 - (c * 0.6 + 0.79 * 0.4)).toFixed(2))`. */
  function CombinedRisk(c: real): real
  {
    ToFixed2(1.0 - (c * 0.6 + TcnScore * 0.4))
  }

  /** A higher graph confidence never raises the combined risk. */
  lemma CombinedRiskAntitone(c1: real, c2: real)
    requires c1 <= c2
    ensures CombinedRisk(c2) <= CombinedRisk(c1)
  {
    ToFixed2Monotone(1.0 - (c2 * 0.6 + TcnScore * 0.4), 1.0 - (c1 * 0.6 + TcnScore * 0.4));
  }

  /** For a confidence in [0, 1] the combined risk lies in [0.08, 0.68], the values
      at the two ends. */
  lemma CombinedRiskRange(c: real)
    requires 0.0 <= c <= 1.0
    ensures 0.08 <= CombinedRisk(c) <= 0.68
  {
    CombinedRiskAntitone(c, 1.0);
    CombinedRiskAntitone(0.0, c);
    assert CombinedRisk(1.0) == 0.08 by {
      assert 100.0 * (1.0 - (1.0 * 0.6 + TcnScore * 0.4)) == 8.4;
      assert (8.4 + 0.5).Floor == 8;
    }
    assert CombinedRisk(0.0) == 0.68 by {
      assert 100.0 * (1.0 - (0.0 * 0.6 + TcnScore * 0.4)) == 68.4;
      assert (68.4 + 0.5).Floor == 68;
    }
  }

  /** The default risk 0.28 is not what the rule gives for the default graph score
      0.84, which is 0.18. */
  lemma DefaultRiskIsNotDerived()
    ensures CombinedRisk(0.84) == 0.18
  {
    assert 100.0 * (1.0 - (0.84 * 0.6 + TcnScore * 0.4)) == 18.0;
    assert (18.0 + 0.5).Floor == 18;
  }

  // ---------------------------------------------------------------------------
  // Graph metrics and the poll
  // ---------------------------------------------------------------------------

  datatype GnnMetrics = GnnMetrics(score: real, status: string, networkDensity: string, relStability: string, volExposure: string)

  /** The `details` object of a response. */
  datatype Details = Details(relationalStability: string, volatilityExposure: string)

  /** One poll of the risk endpoint: a parsed response, or a fetch or parse that threw. */
  datatype PollOutcome =
    | Response(status: string, confidence: real, details: Option<Details>)
    | FetchFailed

  /** The strength label shown for a graph score. */
  function Strength(score: real): (s: string)
    ensures s == "Strong" <==> score > 0.7
    ensures s == "Strong" || s == "Moderate"
  {
    if score > 0.7 then "Strong" else "Moderate"
  }

  const DefaultMetrics: GnnMetrics := GnnMetrics(0.84, "Strong", "Medium", "High", "Low")
  const DefaultRisk: real := 0.28

  /** A response is applied only when its status is `success`; reading `details` of a
      response without it throws before anything is set. */
  predicate Applies(o: PollOutcome)
  {
    o.Response? && o.status == "success" && o.details.Some?
  }

  function MetricsFrom(c: real, d: Details): GnnMetrics
  {
    GnnMetrics(c, Strength(c), "Medium", d.relationalStability, d.volatilityExposure)
  }

  /** The label and density shown always agree with the score. */
  predicate Coherent(m: GnnMetrics)
  {
    m.status == Strength(m.score) && m.networkDensity == "Medium"
  }

  class DecisionPage {
    var sanctioned: bool
    var showConfetti: bool
    var gnnMetrics: GnnMetrics
    var riskScore: real
    /** Whether the parent passed `onSanction`. */
    const hasSanctionSink: bool
    /** The decisions reported through `onSanction`, oldest first. */
    var reported: seq<string>

    ghost predicate Valid()
      reads this
    {
      Coherent(gnnMetrics) && (!hasSanctionSink ==> reported == [])
    }

    constructor (hasSink: bool)
      ensures Valid()
      ensures !sanctioned && !showConfetti && reported == [] && hasSanctionSink == hasSink
      ensures gnnMetrics == DefaultMetrics && riskScore == DefaultRisk
    {
      sanctioned := false;
      showConfetti := false;
      gnnMetrics := DefaultMetrics;
      riskScore := DefaultRisk;
      hasSanctionSink := hasSink;
      reported := [];
    }

    /** `fetchRisk`: a successful response replaces the metrics and the risk; anything
        else leaves both as they were. */
    method ApplyPoll(o: PollOutcome)
      requires Valid()
      modifies this
      ensures Valid()
      ensures Applies(o) ==> gnnMetrics == MetricsFrom(o.confidence, o.details.value) && riskScore == CombinedRisk(o.confidence)
      ensures !Applies(o) ==> gnnMetrics == old(gnnMetrics) && riskScore == old(riskScore)
      ensures Applies(o) && 0.0 <= o.confidence <= 1.0 ==> 0.08 <= riskScore <= 0.68
      ensures sanctioned == old(sanctioned) && showConfetti == old(showConfetti) && reported == old(reported)
    {
      if Applies(o) {
        gnnMetrics := MetricsFrom(o.confidence, o.details.value);
        riskScore := CombinedRisk(o.confidence);
        if 0.0 <= o.confidence <= 1.0 {
          CombinedRiskRange(o.confidence);
        }
      }
    }

    /** `handleDecision`: `approved` sanctions and starts the confetti; any other value
        is reported as a rejection and changes nothing else. */
    method HandleDecision(decision: string)
      requires Valid()
      modifies this
      ensures Valid()
      ensures decision == "approved" ==> sanctioned && showConfetti
      ensures decision != "approved" ==> sanctioned == old(sanctioned) && showConfetti == old(showConfetti)
      ensures reported == old(reported) + (if hasSanctionSink then [if decision == "approved" then "approved" else "rejected"] else [])
      ensures gnnMetrics == old(gnnMetrics) && riskScore == old(riskScore)
    {
      if decision == "approved" {
        sanctioned := true;
        showConfetti := true;
        if hasSanctionSink {
          reported := reported + ["approved"];
        }
      } else {
        if hasSanctionSink {
          reported := reported + ["rejected"];
        }
      }
    }

    /** The confetti timer. */
    method ConfettiTimerFires()
      requires Valid()
      modifies this
      ensures Valid() && !showConfetti
      ensures sanctioned == old(sanctioned) && reported == old(reported)
      ensures gnnMetrics == old(gnnMetrics) && riskScore == old(riskScore)
    {
      showConfetti := false;
    }

    /** The two decision buttons exist only until the loan is sanctioned, so once
        sanctioned no further decision is reported. */
    method ClickDecision(approve: bool)
      requires Valid()
      modifies this
      ensures Valid()
      ensures old(sanctioned) ==> sanctioned && reported == old(reported) && showConfetti == old(showConfetti)
      ensures !old(sanctioned) && approve ==> sanctioned && showConfetti
      ensures !old(sanctioned) && !approve ==> !sanctioned && showConfetti == old(showConfetti)
      ensures !old(sanctioned) ==> reported == old(reported) + (if hasSanctionSink then [if approve then "approved" else "rejected"] else [])
      ensures gnnMetrics == old(gnnMetrics) && riskScore == old(riskScore)
    {
      if !sanctioned {
        HandleDecision(if approve then "approved" else "rejected");
      }
    }
  }

  // ---------------------------------------------------------------------------
  // Feature attributions
  // ---------------------------------------------------------------------------

  datatype ShapEntry = ShapEntry(name: string, value: real)

  const RentName: string := "Consistent Rent"
  const IncomeName: string := "Stable Income"
  const SavingsName: string := "Savings Growth"
  const SpendingName: string := "Spending Volatility"
  const VariabilityName: string := "Income Variability"

  const ShapLiteral: seq<ShapEntry> := [
    ShapEntry(RentName, 0.18), ShapEntry(IncomeName, 0.12), ShapEntry(SavingsName, 0.09),
    ShapEntry(SpendingName, -0.07), ShapEntry(VariabilityName, -0.04)
  ]

  predicate SortedDesc(xs: seq<ShapEntry>)
  {
    forall i, j :: 0 <= i < j < |xs| ==> xs[i].value >= xs[j].value
  }

  /** Insert `e` before the first entry not larger than it. */
  function Insert(e: ShapEntry, xs: seq<ShapEntry>): seq<ShapEntry>
  {
    if |xs| == 0 || xs[0].value <= e.value then [e] + xs
    else [xs[0]] + Insert(e, xs[1..])
  }

  /** No entry of `xs` has a value above `v`. */
  predicate AtMost(v: real, xs: seq<ShapEntry>)
  {
    forall j :: 0 <= j < |xs| ==> xs[j].value <= v
  }

  lemma {:induction false} InsertAtMost(e: ShapEntry, xs: seq<ShapEntry>, v: real)
    requires AtMost(v, xs) && e.value <= v
    ensures AtMost(v, Insert(e, xs))
  {
    if |xs| > 0 && xs[0].value > e.value {
      InsertAtMost(e, xs[1..], v);
      assert forall j :: 1 <= j < |Insert(e, xs)| ==> Insert(e, xs)[j] == Insert(e, xs[1..])[j - 1];
    } else {
      assert forall j :: 1 <= j < |xs| + 1 ==> Insert(e, xs)[j] == xs[j - 1];
    }
  }

  lemma {:induction false} InsertPermutes(e: ShapEntry, xs: seq<ShapEntry>)
    ensures multiset(Insert(e, xs)) == multiset(xs) + multiset{e}
  {
    if |xs| > 0 && xs[0].value > e.value {
      InsertPermutes(e, xs[1..]);
      assert xs == [xs[0]] + xs[1..];
    }
  }

  lemma {:induction false} InsertSorted(e: ShapEntry, xs: seq<ShapEntry>)
    requires SortedDesc(xs)
    ensures SortedDesc(Insert(e, xs))
    ensures multiset(Insert(e, xs)) == multiset(xs) + multiset{e}
  {
    InsertPermutes(e, xs);
    if |xs| == 0 || xs[0].value <= e.value {
      assert forall j :: 1 <= j < |xs| + 1 ==> Insert(e, xs)[j] == xs[j - 1];
    } else {
      var rest := Insert(e, xs[1..]);
      InsertSorted(e, xs[1..]);
      InsertAtMost(e, xs[1..], xs[0].value);
      assert Insert(e, xs) == [xs[0]] + rest;
      assert forall j :: 1 <= j < |rest| + 1 ==> ([xs[0]] + rest)[j] == rest[j - 1];
    }
  }

  /** `.sort((a, b) => b.value - a.value)`: by non-increasing value. */
  function SortDesc(xs: seq<ShapEntry>): seq<ShapEntry>
  {
    if |xs| == 0 then [] else Insert(xs[0], SortDesc(xs[1..]))
  }

  /** The sort yields the same entries, by non-increasing value. */
  lemma {:induction false} SortDescCorrect(xs: seq<ShapEntry>)
    ensures SortedDesc(SortDesc(xs))
    ensures multiset(SortDesc(xs)) == multiset(xs)
  {
    if |xs| > 0 {
      SortDescCorrect(xs[1..]);
      InsertSorted(xs[0], SortDesc(xs[1..]));
      assert xs == [xs[0]] + xs[1..];
    }
  }

  /** The bars as displayed: the literal entries by non-increasing value. */
  function ShapData(): (r: seq<ShapEntry>)
    ensures SortedDesc(r) && multiset(r) == multiset(ShapLiteral)
  {
    SortDescCorrect(ShapLiteral);
    SortDesc(ShapLiteral)
  }

  /** The displayed order: the two negative attributions swap places. */
  lemma ShapDataOrder()
    ensures SortDesc(ShapLiteral) == [ShapLiteral[0], ShapLiteral[1], ShapLiteral[2], ShapLiteral[4], ShapLiteral[3]]
  {
    var e0, e1, e2, e3, e4 := ShapLiteral[0], ShapLiteral[1], ShapLiteral[2], ShapLiteral[3], ShapLiteral[4];
    var s4 := [e4];
    var s34 := [e4, e3];
    var s234 := [e2, e4, e3];
    var s1234 := [e1, e2, e4, e3];
    assert SortDesc([e4]) == s4 by {
      assert [e4][1..] == [];
    }
    assert SortDesc([e3, e4]) == s34 by {
      assert [e3, e4][1..] == [e4];
      assert Insert(e3, s4) == [e4] + Insert(e3, s4[1..]);
    }
    assert SortDesc([e2, e3, e4]) == s234 by {
      assert [e2, e3, e4][1..] == [e3, e4];
      assert Insert(e2, s34) == [e2] + s34;
    }
    assert SortDesc([e1, e2, e3, e4]) == s1234 by {
      assert [e1, e2, e3, e4][1..] == [e2, e3, e4];
      assert Insert(e1, s234) == [e1] + s234;
    }
    assert SortDesc([e0, e1, e2, e3, e4]) == [e0] + s1234 by {
      assert [e0, e1, e2, e3, e4][1..] == [e1, e2, e3, e4];
      assert Insert(e0, s1234) == [e0] + s1234;
    }
    assert ShapLiteral == [e0, e1, e2, e3, e4];
  }
}
