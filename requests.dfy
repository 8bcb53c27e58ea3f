/** The structured financing request that the borrower's dashboard builds and the
    shopkeeper's dashboard displays (passed between the two views by the app). */
module Requests {

  /** One requested product line. */
  datatype RequestItem = RequestItem(name: string, qty: int, price: int)

  datatype StructuredRequest = StructuredRequest(
    userName: string,
    userLocation: string,
    items: seq<RequestItem>,
    total: int,
    riskScore: real,
    gnnConfidence: real,
    tcnStability: real,
    rejectionReason: string)

  /** The amount one line stands for: quantity times unit price. */
  function LineTotal(item: RequestItem): int
  {
    item.qty * item.price
  }

  /** The sum of the line amounts of a request. */
  function LinesTotal(items: seq<RequestItem>): int
  {
    if |items| == 0 then 0 else LineTotal(items[0]) + LinesTotal(items[1..])
  }

  lemma {:induction false} LinesTotalAppend(a: seq<RequestItem>, b: seq<RequestItem>)
    ensures LinesTotal(a + b) == LinesTotal(a) + LinesTotal(b)
  {
    if |a| == 0 {
      assert a + b == b;
    } else {
      assert (a + b)[0] == a[0];
      assert (a + b)[1..] == a[1..] + b;
      LinesTotalAppend(a[1..], b);
    }
  }

  const DemoUserName: string := "Rajesh Kumar"
  const DemoUserLocation: string := "Village-2, Sector B"

  /** The same applicant, scores and reason that both views show. */
  const RejectionReason: string := "Direct loan rejected due to high spending volatility exceeding cash-buffer thresholds."

  /** The request with the demo applicant's fixed fields around the given lines and total. */
  function MakeRequest(items: seq<RequestItem>, total: int): (r: StructuredRequest)
    ensures r.items == items && r.total == total
    ensures r.riskScore == 0.28 && r.gnnConfidence == 0.84 && r.tcnStability == 0.79
  {
    StructuredRequest(DemoUserName, DemoUserLocation, items, total, 0.28, 0.84, 0.79, RejectionReason)
  }
}
