/** The borrower's dashboard: the five-step structured-financing flow (0 none,
    1 intro, 2 shop selection, 3 item selection, 4 pending), the item cart, its
    total, the structured request it submits, and the "simulate improvement"
    transform of the weekly chart. */
module FinancingFlow {
  import opened Wrappers
  import opened Requests

  // ---------------------------------------------------------------------------
  // Catalogue
  // ---------------------------------------------------------------------------

  datatype Shop = Shop(id: int, name: string, distance: string, rating: string, verified: bool, inventory: seq<string>)

  datatype ShopItem = ShopItem(id: string, name: string, price: int, credit: bool)

  const KisanName: string := "Kisan Sewa Kendra"
  const AgriTargetName: string := "AgriTarget Supplies"
  const CoopName: string := "Village Co-op Store"

  const NearbyShops: seq<Shop> := [
    Shop(1, KisanName, "0.8 km", "4.8", true, ["Seeds", "Fertilizers"]),
    Shop(2, AgriTargetName, "2.1 km", "4.5", true, ["Tools", "Pesticides"]),
    Shop(3, CoopName, "3.5 km", "4.9", true, ["All"])
  ]

  const WheatName: string := "Hybrid Wheat Seeds (20kg)"
  const UreaName: string := "Urea Fertilizer (50kg)"
  const PesticideName: string := "Bio-Pesticide (1L)"
  const SprayerName: string := "Spread Sprayer"
  const DapName: string := "DAP Fertilizer (50kg)"

  const ShopItems: seq<ShopItem> := [
    ShopItem("s1", WheatName, 1200, true),
    ShopItem("f1", UreaName, 850, true),
    ShopItem("p1", PesticideName, 450, true),
    ShopItem("t1", SprayerName, 2500, false),
    ShopItem("f2", DapName, 1350, true)
  ]

  /** `items.find(i => i.id === id)`: an item with that id, if there is one. */
  function FindItem(items: seq<ShopItem>, id: string): (r: Option<ShopItem>)
    ensures r.Some? ==> r.value.id == id && r.value in items
    ensures r.None? <==> forall k :: 0 <= k < |items| ==> items[k].id != id
  {
    if |items| == 0 then None
    else if items[0].id == id then Some(items[0])
    else
      var r := FindItem(items[1..], id);
      assert r.None? ==> forall k :: 1 <= k < |items| ==> items[k].id != id by {
        if r.None? {
          forall k | 1 <= k < |items| ensures items[k].id != id { assert items[k] == items[1..][k - 1]; }
        }
      }
      r
  }

  predicate DistinctItemIds(items: seq<ShopItem>)
  {
    forall i, j :: 0 <= i < j < |items| ==> items[i].id != items[j].id
  }

  /** With distinct ids, `find` returns the very item whose id it was given. */
  lemma {:induction false} FindDistinct(items: seq<ShopItem>, k: nat)
    requires DistinctItemIds(items) && k < |items|
    ensures FindItem(items, items[k].id) == Some(items[k])
  {
    if k > 0 {
      assert items[0].id != items[k].id;
      assert items[k] == items[1..][k - 1];
      FindDistinct(items[1..], k - 1);
    }
  }

  /** The unit price of a catalogue id; ids not in the catalogue count 0. */
  function PriceOf(id: string): (p: int)
    ensures p >= 0
    ensures FindItem(ShopItems, id).None? ==> p == 0
    ensures FindItem(ShopItems, id).Some? ==> p == FindItem(ShopItems, id).value.price
  {
    match FindItem(ShopItems, id)
    case Some(item) => item.price
    case None => 0
  }

  /** The id has credit controls: it is a catalogue item offered on credit. */
  predicate OnCredit(id: string)
  {
    FindItem(ShopItems, id).Some? && FindItem(ShopItems, id).value.credit
  }

  /** The sprayer `t1` is cash only. */
  lemma SprayerIsCashOnly()
    ensures !OnCredit("t1")
  {
    assert ShopItems[0].id != "t1" && ShopItems[1].id != "t1" && ShopItems[2].id != "t1";
    assert ShopItems[3].id == "t1";
    assert FindItem(ShopItems, "t1") == Some(ShopItems[3]);
  }

  // ---------------------------------------------------------------------------
  // The cart: an object from item id to quantity, kept in key insertion order
  // ---------------------------------------------------------------------------

  datatype CartEntry = CartEntry(id: string, qty: int)

  type Cart = seq<CartEntry>

  predicate DistinctIds(cart: Cart)
  {
    forall i, j :: 0 <= i < j < |cart| ==> cart[i].id != cart[j].id
  }

  /** `cart[id]`. */
  function Lookup(cart: Cart, id: string): (r: Option<int>)
    ensures r.None? <==> forall k :: 0 <= k < |cart| ==> cart[k].id != id
  {
    if |cart| == 0 then None
    else if cart[0].id == id then Some(cart[0].qty)
    else
      var r := Lookup(cart[1..], id);
      assert r.None? ==> forall k :: 1 <= k < |cart| ==> cart[k].id != id by {
        if r.None? {
          forall k | 1 <= k < |cart| ensures cart[k].id != id { assert cart[k] == cart[1..][k - 1]; }
        }
      }
      r
  }

  /** With distinct keys, looking up an entry's key finds that entry's quantity. */
  lemma {:induction false} LookupDistinct(cart: Cart, k: nat)
    requires DistinctIds(cart) && k < |cart|
    ensures Lookup(cart, cart[k].id) == Some(cart[k].qty)
  {
    if k > 0 {
      assert cart[0].id != cart[k].id;
      assert cart[k] == cart[1..][k - 1];
      LookupDistinct(cart[1..], k - 1);
    }
  }

  /** `cart[id] || 0`. */
  function QtyOr0(cart: Cart, id: string): int
  {
    match Lookup(cart, id)
    case Some(q) => q
    case None => 0
  }

  /** No quantity read from a cart without negative entries is negative. */
  lemma {:induction false} QtyNonNegative(cart: Cart, id: string)
    requires forall k :: 0 <= k < |cart| ==> cart[k].qty >= 0
    ensures QtyOr0(cart, id) >= 0
  {
    if |cart| > 0 && cart[0].id != id {
      assert forall k :: 0 <= k < |cart[1..]| ==> cart[1..][k] == cart[k + 1];
      QtyNonNegative(cart[1..], id);
    }
  }

  /** `{ ...cart, [id]: qty }`: an existing key keeps its place, a new key goes last. */
  function Put(cart: Cart, id: string, qty: int): (r: Cart)
    ensures |r| == if Lookup(cart, id).None? then |cart| + 1 else |cart|
    ensures Lookup(cart, id).None? ==> r == cart + [CartEntry(id, qty)]
    ensures Lookup(cart, id).Some? ==>
      exists p :: 0 <= p < |cart| && cart[p].id == id && (forall k :: 0 <= k < p ==> cart[k].id != id) &&
        r == cart[p := CartEntry(id, qty)]
  {
    if |cart| == 0 then [CartEntry(id, qty)]
    else if cart[0].id == id then
      var r := [CartEntry(id, qty)] + cart[1..];
      assert r == cart[0 := CartEntry(id, qty)];
      r
    else
      var rest := Put(cart[1..], id, qty);
      var r := [cart[0]] + rest;
      assert Lookup(cart, id) == Lookup(cart[1..], id);
      assert Lookup(cart, id).None? ==> r == cart + [CartEntry(id, qty)] by {
        if Lookup(cart, id).None? { assert cart == [cart[0]] + cart[1..]; }
      }
      assert Lookup(cart, id).Some? ==>
        exists p :: 0 <= p < |cart| && cart[p].id == id && (forall k :: 0 <= k < p ==> cart[k].id != id) &&
          r == cart[p := CartEntry(id, qty)] by {
        if Lookup(cart, id).Some? {
          var q :| 0 <= q < |cart[1..]| && cart[1..][q].id == id && (forall k :: 0 <= k < q ==> cart[1..][k].id != id) &&
            rest == cart[1..][q := CartEntry(id, qty)];
          assert cart[q + 1].id == id;
          assert forall k :: 0 <= k < q + 1 ==> cart[k].id != id by {
            forall k | 0 <= k < q + 1 ensures cart[k].id != id {
              if k > 0 { assert cart[k] == cart[1..][k - 1]; }
            }
          }
          assert r == cart[q + 1 := CartEntry(id, qty)];
        }
      }
      r
  }

  /** After the update `id` holds `qty` and every other key holds what it held. */
  lemma {:induction false} PutLookup(cart: Cart, id: string, qty: int, other: string)
    ensures Lookup(Put(cart, id, qty), id) == Some(qty)
    ensures other != id ==> Lookup(Put(cart, id, qty), other) == Lookup(cart, other)
  {
    if |cart| > 0 && cart[0].id != id {
      PutLookup(cart[1..], id, qty, other);
      assert Put(cart, id, qty)[1..] == Put(cart[1..], id, qty);
    } else if |cart| > 0 {
      assert Put(cart, id, qty)[1..] == cart[1..];
    }
  }

  /** Every entry of the updated cart is the new entry or an entry of the old cart. */
  lemma {:induction false} PutEntries(cart: Cart, id: string, qty: int)
    ensures forall e :: e in Put(cart, id, qty) ==> e == CartEntry(id, qty) || e in cart
  {
    if |cart| > 0 && cart[0].id != id {
      PutEntries(cart[1..], id, qty);
      assert Put(cart, id, qty) == [cart[0]] + Put(cart[1..], id, qty);
      assert forall e :: e in cart[1..] ==> e in cart;
    } else if |cart| > 0 {
      assert forall e :: e in cart[1..] ==> e in cart;
    }
  }

  /** The update keeps the keys distinct. */
  lemma {:induction false} PutDistinct(cart: Cart, id: string, qty: int)
    requires DistinctIds(cart)
    ensures DistinctIds(Put(cart, id, qty))
  {
    if |cart| > 0 && cart[0].id != id {
      PutDistinct(cart[1..], id, qty);
      PutEntries(cart[1..], id, qty);
      var r := Put(cart, id, qty);
      assert r == [cart[0]] + Put(cart[1..], id, qty);
      forall j | 1 <= j < |r| ensures r[j].id != cart[0].id {
        assert r[j] in Put(cart[1..], id, qty);
        if r[j] != CartEntry(id, qty) {
          var i :| 0 <= i < |cart[1..]| && cart[1..][i] == r[j];
          assert cart[i + 1] == r[j];
        }
      }
    } else if |cart| > 0 {
      var r := Put(cart, id, qty);
      assert forall j :: 1 <= j < |r| ==> r[j] == cart[j];
    }
  }

  /** The amount one entry adds to the total: price times quantity, or 0 for an unknown id. */
  function EntryValue(e: CartEntry): int
  {
    PriceOf(e.id) * e.qty
  }

  /** `cartTotal`: the sum over the cart's entries of price times quantity. */
  function CartTotal(cart: Cart): int
  {
    if |cart| == 0 then 0 else EntryValue(cart[0]) + CartTotal(cart[1..])
  }

  /** Setting one entry changes the total by the price times the change of that entry alone. */
  lemma {:induction false} PutTotal(cart: Cart, id: string, qty: int)
    ensures CartTotal(Put(cart, id, qty)) == CartTotal(cart) + PriceOf(id) * (qty - QtyOr0(cart, id))
  {
    var p := PriceOf(id);
    if |cart| == 0 {
    } else if cart[0].id == id {
      var r := Put(cart, id, qty);
      assert r[0] == CartEntry(id, qty) && r[1..] == cart[1..];
      assert p * (qty - cart[0].qty) == p * qty - p * cart[0].qty;
    } else {
      PutTotal(cart[1..], id, qty);
      var r := Put(cart, id, qty);
      assert r[0] == cart[0] && r[1..] == Put(cart[1..], id, qty);
    }
  }

  /** The cart as the user interface can make it: distinct keys, no negative
      quantity, and only items offered on credit. */
  predicate CartOk(cart: Cart)
  {
    DistinctIds(cart)
    && (forall k :: 0 <= k < |cart| ==> cart[k].qty >= 0)
    && (forall k :: 0 <= k < |cart| ==> OnCredit(cart[k].id))
  }

  /** The cash-only sprayer never enters a cart the interface can build. */
  lemma CashOnlyNeverInCart(cart: Cart)
    requires CartOk(cart)
    ensures Lookup(cart, "t1").None?
  {
    SprayerIsCashOnly();
  }

  /** Only catalogue items with a positive price are on credit. */
  lemma CreditItemsHavePositivePrice(id: string)
    requires OnCredit(id)
    ensures PriceOf(id) > 0
  {
    var item := FindItem(ShopItems, id).value;
    assert item in ShopItems;
  }

  /** On a cart the interface can build the total is 0 exactly when no quantity is positive. */
  lemma {:induction false} TotalZeroIffEmptySelection(cart: Cart)
    requires (forall k :: 0 <= k < |cart| ==> cart[k].qty >= 0)
    requires (forall k :: 0 <= k < |cart| ==> OnCredit(cart[k].id))
    ensures CartTotal(cart) >= 0
    ensures CartTotal(cart) == 0 <==> forall k :: 0 <= k < |cart| ==> cart[k].qty == 0
  {
    if |cart| > 0 {
      CreditItemsHavePositivePrice(cart[0].id);
      TotalZeroIffEmptySelection(cart[1..]);
      assert forall k :: 1 <= k < |cart| ==> cart[k] == cart[1..][k - 1];
      assert EntryValue(cart[0]) == PriceOf(cart[0].id) * cart[0].qty;
    }
  }

  /** The cart after a `+` click on a credit item: its quantity grows by one and the
      total by its price; the cart stays one the interface can build. */
  function AddOne(cart: Cart, id: string): (r: Cart)
    requires CartOk(cart) && OnCredit(id)
    ensures CartOk(r)
    ensures Lookup(r, id) == Some(QtyOr0(cart, id) + 1)
    ensures CartTotal(r) == CartTotal(cart) + PriceOf(id)
  {
    QtyNonNegative(cart, id);
    SetQuantity(cart, id, QtyOr0(cart, id) + 1);
    Put(cart, id, QtyOr0(cart, id) + 1)
  }

  /** The cart after a `-` click on an item with a positive quantity: its quantity
      shrinks by one and the total by its price. */
  function RemoveOne(cart: Cart, id: string): (r: Cart)
    requires CartOk(cart) && OnCredit(id) && QtyOr0(cart, id) > 0
    ensures CartOk(r)
    ensures Lookup(r, id) == Some(QtyOr0(cart, id) - 1)
    ensures CartTotal(r) == CartTotal(cart) - PriceOf(id)
  {
    SetQuantity(cart, id, QtyOr0(cart, id) - 1);
    Put(cart, id, QtyOr0(cart, id) - 1)
  }

  // ---------------------------------------------------------------------------
  // The submitted request
  // ---------------------------------------------------------------------------

  /** `Object.entries(cart).map(...)`: each entry as a line; `None` when an id is not
      in the catalogue (reading `item.name` of `undefined` throws). */
  function MapEntries(cart: Cart): (r: Option<seq<RequestItem>>)
    ensures r.Some? <==> forall k :: 0 <= k < |cart| ==> FindItem(ShopItems, cart[k].id).Some?
    ensures r.Some? ==> |r.value| == |cart|
    ensures r.Some? ==> forall k :: 0 <= k < |cart| ==>
      r.value[k] == RequestItem(FindItem(ShopItems, cart[k].id).value.name, cart[k].qty,
                                FindItem(ShopItems, cart[k].id).value.price)
  {
    if |cart| == 0 then Some([])
    else
      var rest := MapEntries(cart[1..]);
      assert rest.Some? <==> forall k :: 1 <= k < |cart| ==> FindItem(ShopItems, cart[k].id).Some? by {
        assert forall k :: 1 <= k < |cart| ==> cart[k] == cart[1..][k - 1];
      }
      match FindItem(ShopItems, cart[0].id)
      case None => None
      case Some(item) =>
        if rest.None? then None
        else Some([RequestItem(item.name, cart[0].qty, item.price)] + rest.value)
  }

  /** `.filter(i => i.qty > 0)`. */
  function KeepPositive(items: seq<RequestItem>): (r: seq<RequestItem>)
    ensures forall k :: 0 <= k < |r| ==> r[k].qty > 0
    ensures |r| <= |items|
    ensures forall x :: x in r <==> x in items && x.qty > 0
  {
    if |items| == 0 then []
    else if items[0].qty > 0 then [items[0]] + KeepPositive(items[1..])
    else KeepPositive(items[1..])
  }

  /** The filter distributes over concatenation, so it keeps the lines in their order. */
  lemma {:induction false} KeepPositiveAppend(a: seq<RequestItem>, b: seq<RequestItem>)
    ensures KeepPositive(a + b) == KeepPositive(a) + KeepPositive(b)
  {
    if |a| > 0 {
      assert (a + b)[1..] == a[1..] + b;
      KeepPositiveAppend(a[1..], b);
    } else {
      assert a + b == b;
    }
  }

  /** `selectedItems` of `handleSubmitFinancing`. */
  function SelectedItems(cart: Cart): Option<seq<RequestItem>>
  {
    match MapEntries(cart)
    case None => None
    case Some(xs) => Some(KeepPositive(xs))
  }

  lemma {:induction false} KeepPositiveTotal(items: seq<RequestItem>)
    requires forall k :: 0 <= k < |items| ==> items[k].qty >= 0
    ensures LinesTotal(KeepPositive(items)) == LinesTotal(items)
  {
    if |items| > 0 {
      assert forall k :: 0 <= k < |items[1..]| ==> items[1..][k] == items[k + 1];
      KeepPositiveTotal(items[1..]);
    }
  }

  lemma {:induction false} MapEntriesTotal(cart: Cart)
    requires MapEntries(cart).Some?
    ensures LinesTotal(MapEntries(cart).value) == CartTotal(cart)
    ensures forall k :: 0 <= k < |cart| ==> MapEntries(cart).value[k].qty == cart[k].qty
  {
    if |cart| > 0 {
      MapEntriesTotal(cart[1..]);
      var item := FindItem(ShopItems, cart[0].id).value;
      var xs := MapEntries(cart).value;
      assert xs == [RequestItem(item.name, cart[0].qty, item.price)] + MapEntries(cart[1..]).value;
      assert xs[1..] == MapEntries(cart[1..]).value;
      assert PriceOf(cart[0].id) == item.price;
      assert LineTotal(xs[0]) == EntryValue(cart[0]);
      assert forall k :: 1 <= k < |cart| ==> xs[k] == xs[1..][k - 1] && cart[k] == cart[1..][k - 1];
    }
  }

  /** The submitted lines are defined exactly when every cart id is in the catalogue;
      they then have positive quantities and add up to `cartTotal`. */
  lemma SelectedItemsTotal(cart: Cart)
    requires forall k :: 0 <= k < |cart| ==> cart[k].qty >= 0
    ensures SelectedItems(cart).Some? <==> forall k :: 0 <= k < |cart| ==> FindItem(ShopItems, cart[k].id).Some?
    ensures SelectedItems(cart).Some? ==> LinesTotal(SelectedItems(cart).value) == CartTotal(cart)
    ensures SelectedItems(cart).Some? ==> forall k :: 0 <= k < |SelectedItems(cart).value| ==> SelectedItems(cart).value[k].qty > 0
  {
    if MapEntries(cart).Some? {
      MapEntriesTotal(cart);
      KeepPositiveTotal(MapEntries(cart).value);
    }
  }

  /** The request `handleSubmitFinancing` hands on for a cart with a non-zero total:
      its lines are the positive cart entries, they add up to its total, which is
      `cartTotal`, and the demo applicant's scores go with it. */
  function RequestFor(cart: Cart): (r: StructuredRequest)
    requires CartOk(cart) && CartTotal(cart) != 0
    ensures Consistent(r) && |r.items| > 0
    ensures r.total == CartTotal(cart)
    ensures r.riskScore == 0.28 && r.gnnConfidence == 0.84 && r.tcnStability == 0.79
    ensures MapEntries(cart).Some? && r.items == KeepPositive(MapEntries(cart).value)
  {
    CartIdsInCatalogue(cart);
    SelectedItemsTotal(cart);
    SelectedNonEmpty(cart);
    MakeRequest(SelectedItems(cart).value, CartTotal(cart))
  }

  /** The lines kept by the filter are the lines whose cart entry has a positive quantity. */
  lemma {:induction false} KeepPositiveMembers(cart: Cart, xs: seq<RequestItem>)
    requires |xs| == |cart| && forall k :: 0 <= k < |cart| ==> xs[k].qty == cart[k].qty
    ensures forall x :: x in KeepPositive(xs) <==> exists k :: 0 <= k < |cart| && cart[k].qty > 0 && x == xs[k]
  {
    forall x | x in KeepPositive(xs) ensures exists k :: 0 <= k < |cart| && cart[k].qty > 0 && x == xs[k] {
      var k :| 0 <= k < |xs| && xs[k] == x;
      assert cart[k].qty > 0;
    }
  }

  /** A line of the request is exactly the catalogue name and price of a cart entry
      with a positive quantity, together with that quantity. */
  lemma {:induction false} RequestForLines(cart: Cart)
    requires CartOk(cart) && CartTotal(cart) != 0
    ensures forall x :: x in RequestFor(cart).items <==>
      exists k :: 0 <= k < |cart| && cart[k].qty > 0 &&
        x == RequestItem(FindItem(ShopItems, cart[k].id).value.name, cart[k].qty,
                         FindItem(ShopItems, cart[k].id).value.price)
  {
    var xs := MapEntries(cart).value;
    assert RequestFor(cart).items == KeepPositive(xs);
    KeepPositiveMembers(cart, xs);
  }

  /** The structured request and its lines agree: the total is the sum of the lines. */
  predicate Consistent(r: StructuredRequest)
  {
    r.total == LinesTotal(r.items) && forall k :: 0 <= k < |r.items| ==> r.items[k].qty > 0
  }

  // ---------------------------------------------------------------------------
  // The weekly chart and its "simulate improvement" transform
  // ---------------------------------------------------------------------------

  datatype WeekRow = WeekRow(week: string, income: int, spending: int, savings: int)

  const InitialData: seq<WeekRow> := [
    WeekRow("W1", 4000, 3800, 200), WeekRow("W2", 4200, 4000, 200), WeekRow("W3", 3800, 4100, -300),
    WeekRow("W4", 4500, 3500, 1000), WeekRow("W5", 4100, 3900, 200), WeekRow("W6", 4300, 4200, 100),
    WeekRow("W7", 4000, 3800, 200), WeekRow("W8", 4600, 3600, 1000), WeekRow("W9", 4200, 4000, 200),
    WeekRow("W10", 4400, 4100, 300), WeekRow("W11", 4100, 3900, 200), WeekRow("W12", 4500, 3700, 800)
  ]

  function ImproveRow(d: WeekRow, i: int): WeekRow
  {
    if i > 8 then d.(savings := d.savings + 500, spending := d.spending - 300) else d
  }

  /** `improvedData`: rows after index 8 save 500 more and spend 300 less. */
  function Improve(data: seq<WeekRow>): (r: seq<WeekRow>)
    ensures |r| == |data|
    ensures forall k :: 0 <= k < |data| && k <= 8 ==> r[k] == data[k]
    ensures forall k :: 8 < k < |data| ==>
      r[k].week == data[k].week && r[k].income == data[k].income
      && r[k].savings == data[k].savings + 500 && r[k].spending == data[k].spending - 300
  {
    seq(|data|, k requires 0 <= k < |data| => ImproveRow(data[k], k))
  }

  function SavingsSum(data: seq<WeekRow>): int
  {
    if |data| == 0 then 0 else SavingsSum(data[..|data| - 1]) + data[|data| - 1].savings
  }

  lemma {:induction false} ImproveSavingsSum(data: seq<WeekRow>)
    ensures SavingsSum(Improve(data)) == SavingsSum(data) + 500 * (if |data| > 9 then |data| - 9 else 0)
  {
    if |data| > 0 {
      var n := |data|;
      ImproveSavingsSum(data[..n - 1]);
      assert Improve(data)[..n - 1] == Improve(data[..n - 1]);
    }
  }

  /** The improvement adds 1500 to the savings of the twelve demo weeks. */
  lemma ImprovedDemoSavings()
    ensures SavingsSum(Improve(InitialData)) == SavingsSum(InitialData) + 1500
  {
    ImproveSavingsSum(InitialData);
  }

  // ---------------------------------------------------------------------------
  // The dashboard's state
  // ---------------------------------------------------------------------------

  datatype LoanStatus = NoLoan | Review | Approved | Rejected | StructuredApproved | StructuredRejected

  function IntMax(a: int, b: int): int { if a >= b then a else b }

  class BorrowerDashboard {
    var financingStep: int
    var selectedShop: Option<Shop>
    var cart: Cart
    var isSubmitting: bool
    /** The request captured when submit was clicked, delivered when its timer fires. */
    var pendingRequest: Option<StructuredRequest>
    /** Whether the parent passed `setStructuredRequest`. */
    const hasRequestSink: bool
    /** The parent's copy of the request, set through `setStructuredRequest`. */
    var sentRequest: Option<StructuredRequest>
    var improvementMode: bool
    var simulating: bool

    /** The chart the overview draws: the improved series while the mode is on. */
    function ChartData(): seq<WeekRow>
      reads this
    {
      if improvementMode then Improve(InitialData) else InitialData
    }

    ghost predicate Valid()
      reads this
    {
      && 0 <= financingStep <= 4
      && (financingStep >= 3 ==> selectedShop.Some?)
      && CartOk(cart)
      && (isSubmitting ==> pendingRequest.Some? && selectedShop.Some?)
      && (pendingRequest.Some? ==> Consistent(pendingRequest.value) && |pendingRequest.value.items| > 0)
      && (sentRequest.Some? ==> Consistent(sentRequest.value) && |sentRequest.value.items| > 0)
    }

    constructor (hasSink: bool)
      ensures Valid()
      ensures financingStep == 0 && selectedShop == None && cart == [] && !isSubmitting
      ensures pendingRequest == None && sentRequest == None && hasRequestSink == hasSink
      ensures !improvementMode && !simulating && ChartData() == InitialData
    {
      financingStep := 0;
      selectedShop := None;
      cart := [];
      isSubmitting := false;
      pendingRequest := None;
      hasRequestSink := hasSink;
      sentRequest := None;
      improvementMode := false;
      simulating := false;
    }

    /** "Activate Smart Assistance", shown only on the overview for a rejected loan. */
    method ActivateAssistance(loanStatus: LoanStatus)
      requires Valid()
      modifies this
      ensures Valid()
      ensures financingStep == if old(financingStep) == 0 && loanStatus == Rejected then 1 else old(financingStep)
      ensures cart == old(cart) && selectedShop == old(selectedShop) && sentRequest == old(sentRequest)
      ensures isSubmitting == old(isSubmitting) && pendingRequest == old(pendingRequest)
      ensures improvementMode == old(improvementMode) && simulating == old(simulating)
    {
      if financingStep == 0 && loanStatus == Rejected {
        financingStep := 1;
      }
    }

    /** "Find Nearby Agri Shops" on step 1. */
    method FindShops()
      requires Valid()
      modifies this
      ensures Valid()
      ensures financingStep == if old(financingStep) == 1 then 2 else old(financingStep)
      ensures cart == old(cart) && selectedShop == old(selectedShop) && sentRequest == old(sentRequest)
      ensures isSubmitting == old(isSubmitting) && pendingRequest == old(pendingRequest)
      ensures improvementMode == old(improvementMode) && simulating == old(simulating)
    {
      if financingStep == 1 {
        financingStep := 2;
      }
    }

    /** Clicking shop `k` of the list on step 2 selects it and moves to step 3. */
    method ChooseShop(k: nat)
      requires Valid() && k < |NearbyShops|
      modifies this
      ensures Valid()
      ensures old(financingStep) == 2 ==> financingStep == 3 && selectedShop == Some(NearbyShops[k])
      ensures old(financingStep) != 2 ==> financingStep == old(financingStep) && selectedShop == old(selectedShop)
      ensures cart == old(cart) && sentRequest == old(sentRequest)
      ensures isSubmitting == old(isSubmitting) && pendingRequest == old(pendingRequest)
      ensures improvementMode == old(improvementMode) && simulating == old(simulating)
    {
      if financingStep == 2 {
        selectedShop := Some(NearbyShops[k]);
        financingStep := 3;
      }
    }

    /** The `+` control of item `id`; the catalogue renders it on step 3 for credit items only. */
    method Increment(id: string)
      requires Valid()
      modifies this
      ensures Valid()
      ensures cart == if old(financingStep) == 3 && OnCredit(id) then AddOne(old(cart), id) else old(cart)
      ensures financingStep == old(financingStep) && selectedShop == old(selectedShop) && sentRequest == old(sentRequest)
      ensures isSubmitting == old(isSubmitting) && pendingRequest == old(pendingRequest)
      ensures improvementMode == old(improvementMode) && simulating == old(simulating)
    {
      if financingStep == 3 && OnCredit(id) {
        var c := AddOne(cart, id);
        cart := c;
      }
    }

    /** The `-` control of item `id`, rendered only while its quantity is positive. */
    method Decrement(id: string)
      requires Valid()
      modifies this
      ensures Valid()
      ensures cart == if old(financingStep) == 3 && OnCredit(id) && QtyOr0(old(cart), id) > 0 then RemoveOne(old(cart), id) else old(cart)
      ensures financingStep == old(financingStep) && selectedShop == old(selectedShop) && sentRequest == old(sentRequest)
      ensures isSubmitting == old(isSubmitting) && pendingRequest == old(pendingRequest)
      ensures improvementMode == old(improvementMode) && simulating == old(simulating)
    {
      if financingStep == 3 && OnCredit(id) && QtyOr0(cart, id) > 0 {
        var c := RemoveOne(cart, id);
        cart := c;
      }
    }

    /** "Submit Financing Request", disabled while the total is 0 or a submission runs:
        captures the selected lines and the total. */
    method SubmitFinancing()
      requires Valid()
      modifies this
      ensures Valid()
      ensures if old(financingStep) == 3 && CartTotal(old(cart)) != 0 && !old(isSubmitting)
        then isSubmitting && pendingRequest == Some(RequestFor(old(cart)))
        else isSubmitting == old(isSubmitting) && pendingRequest == old(pendingRequest)
      ensures financingStep == old(financingStep) && cart == old(cart) && sentRequest == old(sentRequest)
      ensures selectedShop == old(selectedShop)
      ensures improvementMode == old(improvementMode) && simulating == old(simulating)
    {
      if financingStep == 3 && CartTotal(cart) != 0 && !isSubmitting {
        var r := RequestFor(cart);
        isSubmitting := true;
        pendingRequest := Some(r);
      }
    }

    /** The submission timer: step 4, and the captured request goes to the parent. */
    method SubmitTimerFires()
      requires Valid() && isSubmitting
      modifies this
      ensures Valid()
      ensures financingStep == 4 && !isSubmitting && pendingRequest == None
      ensures sentRequest == if hasRequestSink then old(pendingRequest) else old(sentRequest)
      ensures cart == old(cart) && selectedShop == old(selectedShop)
      ensures improvementMode == old(improvementMode) && simulating == old(simulating)
    {
      financingStep := 4;
      isSubmitting := false;
      if hasRequestSink {
        sentRequest := pendingRequest;
      }
      pendingRequest := None;
    }

    /** "Done" after an approved structured request: back to the overview. */
    method Done(loanStatus: LoanStatus)
      requires Valid()
      modifies this
      ensures Valid()
      ensures financingStep == if old(financingStep) == 4 && loanStatus == StructuredApproved then 0 else old(financingStep)
      ensures cart == old(cart) && selectedShop == old(selectedShop) && sentRequest == old(sentRequest)
      ensures isSubmitting == old(isSubmitting) && pendingRequest == old(pendingRequest)
      ensures improvementMode == old(improvementMode) && simulating == old(simulating)
    {
      if financingStep == 4 && loanStatus == StructuredApproved {
        financingStep := 0;
      }
    }

    /** "Try Another Shop" after a declined structured request: back to shop selection. */
    method TryAnotherShop(loanStatus: LoanStatus)
      requires Valid()
      modifies this
      ensures Valid()
      ensures financingStep == if old(financingStep) == 4 && loanStatus == StructuredRejected then 2 else old(financingStep)
      ensures cart == old(cart) && selectedShop == old(selectedShop) && sentRequest == old(sentRequest)
      ensures isSubmitting == old(isSubmitting) && pendingRequest == old(pendingRequest)
      ensures improvementMode == old(improvementMode) && simulating == old(simulating)
    {
      if financingStep == 4 && loanStatus == StructuredRejected {
        financingStep := 2;
      }
    }

    /** The back arrow of the flow (shown on steps 1..4): one step back, never below 0. */
    method Back()
      requires Valid()
      modifies this
      ensures Valid()
      ensures financingStep == if old(financingStep) != 0 then IntMax(0, old(financingStep) - 1) else 0
      ensures cart == old(cart) && selectedShop == old(selectedShop) && sentRequest == old(sentRequest)
      ensures isSubmitting == old(isSubmitting) && pendingRequest == old(pendingRequest)
      ensures improvementMode == old(improvementMode) && simulating == old(simulating)
    {
      if financingStep != 0 {
        financingStep := IntMax(0, financingStep - 1);
      }
    }

    /** "Simulate Improvement", click part: disabled while a simulation runs, and
        unreachable once the financing flow has started, since the column holding
        it then takes no pointer events. */
    method StartToggle()
      requires Valid()
      modifies this
      ensures Valid()
      ensures simulating == (old(simulating) || old(financingStep) == 0)
      ensures improvementMode == old(improvementMode) && ChartData() == old(ChartData())
      ensures financingStep == old(financingStep) && cart == old(cart)
      ensures selectedShop == old(selectedShop) && sentRequest == old(sentRequest)
      ensures isSubmitting == old(isSubmitting) && pendingRequest == old(pendingRequest)
    {
      if !simulating && financingStep == 0 {
        simulating := true;
      }
    }

    /** `toggleSimulation`'s timer: flip the mode and show the matching chart. */
    method ToggleTimerFires()
      requires Valid() && simulating
      modifies this
      ensures Valid() && !simulating
      ensures improvementMode == !old(improvementMode)
      ensures ChartData() == if old(improvementMode) then InitialData else Improve(InitialData)
      ensures financingStep == old(financingStep) && cart == old(cart)
      ensures selectedShop == old(selectedShop) && sentRequest == old(sentRequest)
      ensures isSubmitting == old(isSubmitting) && pendingRequest == old(pendingRequest)
    {
      var wasOn := improvementMode;
      improvementMode := !wasOn;
      simulating := false;
    }
  }

  // ---------------------------------------------------------------------------
  // Helper lemmas for the dashboard's methods
  // ---------------------------------------------------------------------------

  /** The catalogue ids are distinct, so item `k` is what its id finds. */
  lemma FirstItemWithIndexId(k: nat)
    requires k < |ShopItems|
    ensures FindItem(ShopItems, ShopItems[k].id) == Some(ShopItems[k])
    ensures PriceOf(ShopItems[k].id) == ShopItems[k].price
    ensures OnCredit(ShopItems[k].id) == ShopItems[k].credit
  {
    CatalogueIdsDistinct();
    FindDistinct(ShopItems, k);
  }

  lemma CatalogueIdsDistinct()
    ensures DistinctItemIds(ShopItems)
  {
    var ids := ["s1", "f1", "p1", "t1", "f2"];
    assert forall k :: 0 <= k < 5 ==> ShopItems[k].id == ids[k];
    assert ids[0][0] == 's' && ids[1][0] == 'f' && ids[2][0] == 'p' && ids[3][0] == 't' && ids[4][0] == 'f';
    assert ids[1][1] == '1' && ids[4][1] == '2';
  }

  /** Setting a credit item's quantity to a non-negative value keeps the cart
      well formed, stores the value and moves the total by the price of the change. */
  lemma SetQuantity(cart: Cart, id: string, qty: int)
    requires CartOk(cart) && OnCredit(id) && qty >= 0
    ensures QtyOr0(cart, id) >= 0
    ensures CartOk(Put(cart, id, qty))
    ensures Lookup(Put(cart, id, qty), id) == Some(qty)
    ensures CartTotal(Put(cart, id, qty)) == CartTotal(cart) + PriceOf(id) * (qty - QtyOr0(cart, id))
  {
    QtyNonNegative(cart, id);
    PutKeepsCartOk(cart, id, qty);
    PutLookup(cart, id, qty, id);
    PutTotal(cart, id, qty);
  }

  lemma PutKeepsCartOk(cart: Cart, id: string, qty: int)
    requires CartOk(cart) && OnCredit(id) && qty >= 0
    ensures CartOk(Put(cart, id, qty))
  {
    PutDistinct(cart, id, qty);
    PutEntries(cart, id, qty);
    var r := Put(cart, id, qty);
    forall k | 0 <= k < |r| ensures r[k].qty >= 0 && OnCredit(r[k].id) {
      assert r[k] in r;
    }
  }

  lemma CartIdsInCatalogue(cart: Cart)
    requires CartOk(cart)
    ensures forall k :: 0 <= k < |cart| ==> FindItem(ShopItems, cart[k].id).Some?
  {
  }

  lemma SelectedNonEmpty(cart: Cart)
    requires CartOk(cart) && CartTotal(cart) != 0
    ensures SelectedItems(cart).Some? && |SelectedItems(cart).value| > 0
  {
    SelectedItemsTotal(cart);
    TotalZeroIffEmptySelection(cart);
  }
}
