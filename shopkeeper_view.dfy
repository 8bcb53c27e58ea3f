/** The merchant's view of a financing request: which request it shows, the
    amounts it lists, and the approve/decline buttons whose decision reaches the
    app after a delay. */
module ShopkeeperView {
  import opened Wrappers
  import opened Requests
  import opened Rounding

  const SeedLine: string := "Hybrid Wheat Seeds (20kg)"
  const UreaLine: string := "Urea Fertilizer (50kg)"

  /** The request shown when the app passes none. */
  const FallbackRequest: StructuredRequest := StructuredRequest(
    DemoUserName, DemoUserLocation,
    [RequestItem(SeedLine, 2, 1200), RequestItem(UreaLine, 5, 850)],
    6650, 0.28, 0.84, 0.79, RejectionReason)

  /** `requestData || fallback`: a supplied request object is always truthy. */
  function ActiveRequest(requestData: Option<StructuredRequest>): (r: StructuredRequest)
    ensures requestData.Some? ==> r == requestData.value
    ensures requestData.None? ==> r == FallbackRequest
  {
    requestData.GetOr(FallbackRequest)
  }

  /** The fallback's stated total is the sum of its lines: 2 x 1200 + 5 x 850. */
  lemma FallbackTotalMatchesLines()
    ensures LinesTotal(FallbackRequest.items) == FallbackRequest.total == 6650
  {
    var items := FallbackRequest.items;
    assert items[1..] == [items[1]] && items[1..][1..] == [];
    assert LinesTotal(items[1..]) == LineTotal(items[1]);
  }

  /** The amount each inventory row shows. */
  function RowAmounts(items: seq<RequestItem>): (r: seq<int>)
    ensures |r| == |items|
    ensures forall i :: 0 <= i < |items| ==> r[i] == items[i].qty * items[i].price
  {
    if |items| == 0 then [] else [LineTotal(items[0])] + RowAmounts(items[1..])
  }

  function Sum(xs: seq<int>): int
  {
    if |xs| == 0 then 0 else xs[0] + Sum(xs[1..])
  }

  /** The row amounts add up to the lines' total, so for a request whose total is
      its lines' sum the rows add up to the total shown beneath them. */
  lemma {:induction false} RowAmountsSum(items: seq<RequestItem>)
    ensures Sum(RowAmounts(items)) == LinesTotal(items)
  {
    if |items| > 0 {
      RowAmountsSum(items[1..]);
    }
  }

  /** `(x * 100).toFixed(0)`: a score shown as a whole percentage. */
  function Percent(x: real): (r: int)
    ensures (r as real) - 0.5 <= 100.0 * x <= (r as real) + 0.5
    ensures 100.0 * x - (100.0 * x).Floor as real != 0.5 ==> r == MathRound(100.0 * x)
    ensures 100.0 * x - (100.0 * x).Floor as real == 0.5 ==>
      r == if x >= 0.0 then (100.0 * x).Floor + 1 else (100.0 * x).Floor
  {
    RoundHalfAway(100.0 * x)
  }

  /** The fallback shows 84% graph confidence and 79% temporal stability. */
  lemma FallbackPercents()
    ensures Percent(FallbackRequest.gnnConfidence) == 84
    ensures Percent(FallbackRequest.tcnStability) == 79
  {
  }

  datatype Decision = Approved | Rejected

  /** The value handed to `onDecision`. */
  function DecisionText(d: Decision): string
  {
    match d
    case Approved => "approved"
    case Rejected => "rejected"
  }

  lemma DecisionTextInjective(d: Decision, e: Decision)
    ensures DecisionText(d) == DecisionText(e) <==> d == e
  {
  }

  /** The dashboard's state. Every click schedules a timer; timers share one delay,
      so they fire in click order. */
  class Dashboard {
    const requestData: Option<StructuredRequest>
    var isProcessing: bool
    /** Decisions whose timers have not fired yet, oldest first. */
    var pending: seq<Decision>
    /** Decisions handed to `onDecision`, in order. */
    var forwarded: seq<Decision>
    /** Every decision clicked so far. */
    ghost var clicks: seq<Decision>

    ghost predicate Valid()
      reads this
    {
      clicks == forwarded + pending &&
      (pending == [] ==> !isProcessing)
    }

    function Shown(): StructuredRequest
      reads this
    {
      ActiveRequest(requestData)
    }

    constructor (data: Option<StructuredRequest>)
      ensures Valid()
      ensures requestData == data && !isProcessing && pending == [] && forwarded == []
    {
      requestData := data;
      isProcessing := false;
      pending := [];
      forwarded := [];
      clicks := [];
    }

    /** `handleDecision`: mark processing and schedule the forward. */
    method HandleDecision(d: Decision)
      requires Valid()
      modifies this
      ensures Valid()
      ensures isProcessing && pending == old(pending) + [d] && forwarded == old(forwarded)
      ensures clicks == old(clicks) + [d]
    {
      isProcessing := true;
      pending := pending + [d];
      clicks := clicks + [d];
    }

    /** The approve button, disabled while processing. */
    method ApproveClick()
      requires Valid()
      modifies this
      ensures Valid()
      ensures old(isProcessing) ==> isProcessing == old(isProcessing) && pending == old(pending) && forwarded == old(forwarded) && clicks == old(clicks)
      ensures !old(isProcessing) ==> isProcessing && pending == old(pending) + [Approved] && forwarded == old(forwarded)
    {
      if !isProcessing {
        HandleDecision(Approved);
      }
    }

    /** The decline button, never disabled. */
    method RejectClick()
      requires Valid()
      modifies this
      ensures Valid()
      ensures isProcessing && pending == old(pending) + [Rejected] && forwarded == old(forwarded)
    {
      HandleDecision(Rejected);
    }

    /** The oldest timer fires: processing ends and its decision is forwarded
        unchanged. */
    method TimerFires()
      requires Valid() && pending != []
      modifies this
      ensures Valid()
      ensures !isProcessing
      ensures forwarded == old(forwarded) + [old(pending)[0]] && pending == old(pending)[1..]
      ensures clicks == old(clicks)
    {
      var d := pending[0];
      isProcessing := false;
      forwarded := forwarded + [d];
      pending := pending[1..];
    }
  }
}
