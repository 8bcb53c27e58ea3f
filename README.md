# Credit decisioning demo: a verified model of its rules

The application is a demo of alternative credit scoring. A borrower's financial
behaviour appears in three places:

- a temporal "stability" simulator driven by four sliders;
- a relational "credit mesh" graph;
- a small graph neural network on a Python backend, which scores the borrower.

A lender's page combines the backend score with a fixed temporal score. When a
direct loan is rejected, the borrower can build a shop-financing request. A
shopkeeper's view then shows that request and approves or declines it.

This project models the deterministic rules inside those views and the
backend. Each source file is one Dafny module:

| module | file | models |
|---|---|---|
| `StabilityScorer` | `stability_scorer.dfy` | `src/components/TCNAgentVisualizer.jsx`: liquidity, weekly series, clamped score, prediction table, colour bands, the view's state cells |
| `FinancingFlow` | `financing_flow.dfy` | `src/components/UserDashboard.jsx`: the financing step machine, cart, cart total, structured request, improvement simulation |
| `CreditMesh` | `credit_mesh.dfy` | `src/components/CreditMesh.jsx`: the node/link builder, force parameters, colours and icons, drag pin/unpin, selection and hover cells |
| `DecisionEngine` | `decision_engine.dfy` | `src/components/DecisionEngine.jsx`: the poll update, combined risk, sanction handler, SHAP ordering |
| `RiskEndpoint` | `risk_endpoint.dfy` | `backend_agents/main.py`: the post-processing of `/predict-risk` |
| `GraphPrep` | `graph_prep.dfy` | `backend_agents/gnn_train.py`: id and label numbering, edges, adjacency, labels, degrees, stratified split |
| `ShopkeeperView` | `shopkeeper_view.dfy` | `src/components/ShopkeeperDashboard.jsx`: the fallback request, row amounts, decision forwarding |
| `Requests` | `requests.dfy` | the structured request passed from the borrower's view to the shopkeeper's |
| `Rounding` | `rounding.dfy` | `Math.round`, `toFixed`, and Python's `round` over exact reals |
| `Wrappers` | `wrappers.dfy` | `Option` |

How the model is written:

- **Numbers.** Numbers are `real` (exact) or `int`.
- **Stateful views.** A React view whose handlers overwrite state cells is a
  `class` whose methods are the handlers.
- **Timers.** A `setTimeout` callback is its own method: the timer firing.
- **Loops.** Loops that build arrays or lists are methods with loop invariants.
  Each is proved equal to a function, and the properties are proved about that
  function.
- **Randomness.** `Math.random()` draws and `random.shuffle` are inputs:
  - draws in `[0, 1)`;
  - an arbitrary permutation of each label's index list.

Points where the code computes something other than it appears to:

- **Default score.** The default sliders (50/30/80/90) give liquidity 5.3 and
  score 0.948 (`StabilityScorer.DefaultOutputs`). The 0.82 in the view's first
  state cell is a placeholder that mounting overwrites.
- **Prediction texts.** The prediction table has six texts, not five. The
  middle band splits three ways.
- **Default risk.** The lender page's default `riskScore` of 0.28 is not what its
  own formula gives for the default confidence 0.84: that is 0.18
  (`DecisionEngine.DefaultRiskIsNotDerived`).
- **Raw versus rounded confidence.** The backend's `relational_stability` label
  tests the raw confidence. `volatility_exposure` tests the rounded risk. The
  two can disagree: a raw confidence of 0.7004 reports confidence 0.7 and risk
  0.3, yet says "High" stability and "High" exposure
  (`RiskEndpoint.RawAndRoundedLabelsDiverge`).
- **Strength label.** The lender page's "Strong" label tests the rounded
  confidence that the backend returns.

## Model

| member | source | states |
|---|---|---|
| `Rounding.MathRound` | src/components/TCNAgentVisualizer.jsx:63-65 | `Math.round(x)` is the integer r with r - 1/2 <= x < r + 1/2 (ties go up) |
| `Rounding.RoundHalfEven` | backend_agents/main.py:95 | Python's rounding: the result is within 1/2 of x, agrees with `Math.round` off ties, and is even on a tie |
| `Rounding.PyRound2` | backend_agents/main.py:95-100 | `round(x, 2)` is a whole number of hundredths within 0.005 of x: off a tie it is `Math.round(100x)` hundredths, and on a tie the even number of hundredths |
| `Rounding.RoundHalfAway` | src/components/ShopkeeperDashboard.jsx:141-148 | `toFixed(0)`'s digit choice: within 1/2 of x, with the sign of x, `Math.round(x)` off a tie, and on a tie the integer further from zero |
| `Rounding.ToFixed2` | src/components/DecisionEngine.jsx:124 | `Number(x.toFixed(2))` is a whole number of hundredths within 0.005 of x: off a tie it is `Math.round(100x)` hundredths, and on a tie the hundredth further from zero |
| `Rounding.RoundHalfEvenReflect` | backend_agents/main.py:95-100 | ties-to-even rounding commutes with reflection about an even integer: round(k - x) = k - round(x) |
| `Rounding.MathRoundMonotone` | src/components/TCNAgentVisualizer.jsx:63-65 | `Math.round` is monotone |
| `Rounding.RoundHalfAwayMonotone` | src/components/ShopkeeperDashboard.jsx:141-148 | ties-away rounding is monotone |
| `Rounding.ToFixed2Monotone` | src/components/DecisionEngine.jsx:124 | two-decimal `toFixed` is monotone |
| `StabilityScorer.WithField` | src/components/TCNAgentVisualizer.jsx:251-273 | a slider's `onChange` replaces exactly its own field, and an in-range value keeps all sliders in range |
| `StabilityScorer.Liquidity` | src/components/TCNAgentVisualizer.jsx:44 | savings/20 + (100 - spendingVol)/25 lies in [0, 9] for sliders in [0, 100] |
| `StabilityScorer.Clamp` | src/components/TCNAgentVisualizer.jsx:84 | the clamped score is in [0.1, 0.99], equals its input inside that interval, and is the nearer bound outside it |
| `StabilityScorer.PredictionFor` | src/components/TCNAgentVisualizer.jsx:89-99 | each of the six predictions holds exactly on its score band; in the middle band spendingVol > 60 is tested before paymentReliability < 70 |
| `StabilityScorer.Text` | src/components/TCNAgentVisualizer.jsx:89-99 | the prediction's displayed sentence; definition, the band each prediction holds on is in `PredictionFor` |
| `StabilityScorer.ScoreBand` | src/components/TCNAgentVisualizer.jsx:435-445 | the colour bands are exactly > 0.8, (0.6, 0.8] and <= 0.6 |
| `StabilityScorer.ScoreColor` | src/components/TCNAgentVisualizer.jsx:435-439 | `getScoreColor`'s three classes; definition, its bands are in `ScoreBand` |
| `StabilityScorer.StatusColor` | src/components/TCNAgentVisualizer.jsx:441-445 | `getStatusColor`'s three classes; definition, its bands are in `ScoreBand` |
| `StabilityScorer.HeaderMatchesBand` | src/components/TCNAgentVisualizer.jsx:153-156 | the "System Stable" pill shows exactly when the score is not in the red band |
| `StabilityScorer.SystemStable` | src/components/TCNAgentVisualizer.jsx:153-156 | the `score > 0.6` test of the header pill; definition, its properties are in `HeaderMatchesBand` |
| `StabilityScorer.SpendingRisk` | src/components/TCNAgentVisualizer.jsx:316 | CRITICAL iff spendingVol > 75, MODERATE iff 40 < spendingVol <= 75, LOW iff spendingVol <= 40 |
| `StabilityScorer.RiskLabel` | src/components/TCNAgentVisualizer.jsx:316 | the CRITICAL, MODERATE and LOW labels; definition, its thresholds are in `SpendingRisk` |
| `StabilityScorer.LitBarsCount` | src/components/TCNAgentVisualizer.jsx:351-355 | of the bars 1..n, exactly min(n, floor(liquidity)) are lit, and none for a negative buffer |
| `StabilityScorer.BarLit` | src/components/TCNAgentVisualizer.jsx:351-355 | bar i is lit when `i <= liquidityBuffer`; definition, its properties are in `LitBarsCount` |
| `StabilityScorer.LitBars` | src/components/TCNAgentVisualizer.jsx:351-355 | the number of lit liquidity bars among 1..n; definition, its properties are in `LitBarsCount` |
| `StabilityScorer.CalculateStability` | src/components/TCNAgentVisualizer.jsx:72-100 | the accumulated score equals the clamped weighted sum, lies in [0.1, 0.99], and the prediction is the table's |
| `StabilityScorer.RawScore` | src/components/TCNAgentVisualizer.jsx:75-81 | the unclamped weighted score; definition, its properties are in `LowerClampInactive`, `UpperClampReachable` and `ScoreMonotone` |
| `StabilityScorer.Score` | src/components/TCNAgentVisualizer.jsx:75-84 | the clamped score for the sliders; definition, its properties are in `CalculateStability`, `Clamp` and `ScoreMonotone` |
| `StabilityScorer.LowerClampInactive` | src/components/TCNAgentVisualizer.jsx:75-84 | for in-range sliders the unclamped score is >= 0.3, so only the upper clamp can apply |
| `StabilityScorer.UpperClampReachable` | src/components/TCNAgentVisualizer.jsx:75-84 | the best sliders give 1.19 before clamping, so the upper clamp does apply |
| `StabilityScorer.ScoreMonotone` | src/components/TCNAgentVisualizer.jsx:77-81 | the score never falls when income stability, savings or reliability rise or spending volatility falls |
| `StabilityScorer.DefaultOutputs` | src/components/TCNAgentVisualizer.jsx:25-30 | the default sliders give liquidity 5.3, score 0.948, the top prediction and the emerald band |
| `StabilityScorer.NatToString` | src/components/TCNAgentVisualizer.jsx:62 | a week number renders as a non-empty string of decimal digits |
| `StabilityScorer.ParseNatToString` | src/components/TCNAgentVisualizer.jsx:62 | reading the rendered digits back gives the number |
| `StabilityScorer.WeekLabelInjective` | src/components/TCNAgentVisualizer.jsx:62 | different weeks get different `W${i}` labels |
| `StabilityScorer.WeekLabel` | src/components/TCNAgentVisualizer.jsx:62 | the `W${i}` label; definition, its properties are in `WeekLabelInjective` and `ParseNatToString` |
| `StabilityScorer.GenerateSeries` | src/components/TCNAgentVisualizer.jsx:47-67 | the loop yields exactly `weeks` points, point k being week k+1's point for the k-th noise draws |
| `StabilityScorer.WeekPointShape` | src/components/TCNAgentVisualizer.jsx:61-66 | each point is labelled with its week, has income and spending >= 0, and savings rounded from the unfloored income and spending |
| `StabilityScorer.WeekPointFor` | src/components/TCNAgentVisualizer.jsx:50-66 | week i's point for its noise draws; definition, its properties are in `WeekPointShape` and `SeriesClampsInactive` |
| `StabilityScorer.IncomeRaw` | src/components/TCNAgentVisualizer.jsx:50-51 | the base income plus the centred stability noise; definition, its range is in `SeriesClampsInactive` and `CentredNoiseBound` |
| `StabilityScorer.SpendingRaw` | src/components/TCNAgentVisualizer.jsx:54-55 | the base spending plus the centred volatility noise; definition, its range is in `SeriesClampsInactive` and `CentredNoiseBound` |
| `StabilityScorer.SavingsMultiplier` | src/components/TCNAgentVisualizer.jsx:58 | `1 + (savings - 50) / 100`; definition, its use is in `WeekPointShape` |
| `StabilityScorer.CentredNoiseBound` | src/components/TCNAgentVisualizer.jsx:51-55 | a centred draw times an amplitude in [0, a] stays within a/2 of 0 |
| `StabilityScorer.SeriesClampsInactive` | src/components/TCNAgentVisualizer.jsx:50-64 | for in-range sliders and draws in [0, 1), income lies in [4250, 5750] and spending in [2250, 4750]; neither `Math.max(0, ...)` ever applies |
| `StabilityScorer.Visualizer.Mount` | src/components/TCNAgentVisualizer.jsx:14-37 | after mounting and the first data effect: 12 weeks, default sliders, score 0.948, liquidity 5.3, all derived cells consistent, and point k is week k+1's point for the k-th noise draws |
| `StabilityScorer.Visualizer.GenerateData` | src/components/TCNAgentVisualizer.jsx:39-70 | liquidity, series, score and text are recomputed from the sliders; weeks and sliders are untouched |
| `StabilityScorer.Visualizer.SetSlider` | src/components/TCNAgentVisualizer.jsx:251-273 | moving one slider updates that field, reruns the effect, so point k is week k+1's point for the new sliders, and keeps the view consistent |
| `StabilityScorer.Visualizer.StartSimulation` | src/components/TCNAgentVisualizer.jsx:102-103 | the simulate click sets `isSimulating` and leaves weeks, sliders, data, score, liquidity and text unchanged |
| `StabilityScorer.Visualizer.SimulationTimerFires` | src/components/TCNAgentVisualizer.jsx:104-107 | the timer adds exactly 4 weeks and clears `isSimulating`; weeks stay >= 12 and a multiple of 4, and the data is regenerated for the new week count |
| `FinancingFlow.FindItem` | src/components/UserDashboard.jsx:93 | `SHOP_ITEMS.find` returns an entry with the asked id, or nothing exactly when no entry has it |
| `FinancingFlow.FindDistinct` | src/components/UserDashboard.jsx:33-39 | with distinct ids, finding an entry's id returns that entry |
| `FinancingFlow.PriceOf` | src/components/UserDashboard.jsx:92-95 | an id's unit price is its catalogue item's price, and an unknown id contributes 0 (`item ? item.price : 0`); never negative |
| `FinancingFlow.SprayerIsCashOnly` | src/components/UserDashboard.jsx:37 | the sprayer `t1` is not sold on credit |
| `FinancingFlow.OnCredit` | src/components/UserDashboard.jsx:384 | the `item.credit` test that renders the quantity controls; definition, its properties are in `SprayerIsCashOnly` and `CashOnlyNeverInCart` |
| `FinancingFlow.Lookup` | src/components/UserDashboard.jsx:51 | `cart[id]` is undefined exactly when no entry has that id |
| `FinancingFlow.LookupDistinct` | src/components/UserDashboard.jsx:51 | in a cart with distinct ids, looking up an entry's id yields its quantity |
| `FinancingFlow.QtyNonNegative` | src/components/UserDashboard.jsx:389 | `cart[id]` or 0 is non-negative when all quantities are |
| `FinancingFlow.QtyOr0` | src/components/UserDashboard.jsx:387-390 | `cart[id] || 0`; definition, its properties are in `QtyNonNegative`, `AddOne` and `RemoveOne` |
| `FinancingFlow.Put` | src/components/UserDashboard.jsx:387-390 | `{...cart, [id]: q}` appends a new key at the end, and for a present key replaces its first entry in place, leaving every other entry and the order as they were |
| `FinancingFlow.PutLookup` | src/components/UserDashboard.jsx:387-390 | after `{...cart, [id]: q}`, `id` maps to q and every other id is unchanged |
| `FinancingFlow.PutEntries` | src/components/UserDashboard.jsx:387-390 | the spread introduces no entry other than (id, q) |
| `FinancingFlow.PutDistinct` | src/components/UserDashboard.jsx:387-390 | the spread keeps ids distinct |
| `FinancingFlow.PutTotal` | src/components/UserDashboard.jsx:92-95 | setting id's quantity to q changes the total by price(id) * (q - old quantity) |
| `FinancingFlow.CashOnlyNeverInCart` | src/components/UserDashboard.jsx:384-394 | a cart reachable through the controls never holds `t1` |
| `FinancingFlow.CreditItemsHavePositivePrice` | src/components/UserDashboard.jsx:33-39 | every item offered on credit has a positive price |
| `FinancingFlow.TotalZeroIffEmptySelection` | src/components/UserDashboard.jsx:92-95 | for credit items with non-negative quantities, the total is >= 0 and is 0 exactly when every quantity is 0 |
| `FinancingFlow.AddOne` | src/components/UserDashboard.jsx:390 | `+` sets the item to old-or-0 plus 1, keeps the cart well formed and raises the total by the item's price |
| `FinancingFlow.RemoveOne` | src/components/UserDashboard.jsx:386-387 | `-`, offered only at quantity > 0, subtracts exactly 1, keeps quantities non-negative and lowers the total by the price |
| `FinancingFlow.MapEntries` | src/components/UserDashboard.jsx:99-101 | mapping entries to items succeeds exactly when every id is in the catalogue (otherwise `item.name` throws), one item per entry, item k carrying entry k's quantity and its catalogue name and price |
| `FinancingFlow.KeepPositive` | src/components/UserDashboard.jsx:102 | a line is in the result exactly when it is an input line with qty > 0 |
| `FinancingFlow.KeepPositiveAppend` | src/components/UserDashboard.jsx:102 | the filter distributes over concatenation, so it keeps the lines in their order |
| `FinancingFlow.KeepPositiveMembers` | src/components/UserDashboard.jsx:99-102 | for lines that carry the cart's quantities, the kept lines are exactly those of the entries with qty > 0 |
| `FinancingFlow.KeepPositiveTotal` | src/components/UserDashboard.jsx:102 | dropping zero-quantity lines keeps the lines' total |
| `FinancingFlow.MapEntriesTotal` | src/components/UserDashboard.jsx:92-101 | the mapped lines sum to `cartTotal` and keep each entry's quantity |
| `FinancingFlow.CartTotal` | src/components/UserDashboard.jsx:92-95 | `cartTotal`, the sum of price times quantity over the entries with an unknown id counting 0; definition, its properties are in `MapEntriesTotal`, `PutTotal` and `TotalZeroIffEmptySelection` |
| `FinancingFlow.EntryValue` | src/components/UserDashboard.jsx:93-94 | one reduce step, `item ? item.price * qty : 0`; definition, its properties are in `PutTotal` and `MapEntriesTotal` |
| `FinancingFlow.SelectedItemsTotal` | src/components/UserDashboard.jsx:92-102 | `selectedItems` exists exactly when every id is known; its lines have qty > 0 and sum to `cartTotal` |
| `FinancingFlow.SelectedItems` | src/components/UserDashboard.jsx:99-102 | `selectedItems`, the filtered map of the cart's entries; definition, its properties are in `SelectedItemsTotal` and `RequestForLines` |
| `FinancingFlow.RequestFor` | src/components/UserDashboard.jsx:99-117 | the request built on submit has non-empty items summing to its total, total = `cartTotal`, and the fixed demo scores; its items are exactly `selectedItems`, the filtered map of the cart's entries |
| `FinancingFlow.RequestForLines` | src/components/UserDashboard.jsx:99-102 | a request line is exactly the catalogue name and price of a cart entry with qty > 0, with that quantity |
| `FinancingFlow.Improve` | src/components/UserDashboard.jsx:70 | same length; weeks at index <= 8 unchanged; later weeks get savings + 500 and spending - 300 with week and income kept |
| `FinancingFlow.ImproveRow` | src/components/UserDashboard.jsx:70 | the per-row map of `improvedData`; definition, its properties are in `Improve` |
| `FinancingFlow.ImproveSavingsSum` | src/components/UserDashboard.jsx:70 | improving adds 500 savings for every week past the ninth |
| `FinancingFlow.ImprovedDemoSavings` | src/components/UserDashboard.jsx:55-70 | on the 12-week demo series, improvement adds 1500 to total savings |
| `FinancingFlow.BorrowerDashboard.constructor` | src/components/UserDashboard.jsx:42-71 | step 0, no shop, empty cart, nothing submitting, mode off, chart shows the initial data |
| `FinancingFlow.BorrowerDashboard.ActivateAssistance` | src/components/UserDashboard.jsx:278-306 | 0 -> 1, only when the loan status is rejected; every other cell is unchanged |
| `FinancingFlow.BorrowerDashboard.FindShops` | src/components/UserDashboard.jsx:337 | 1 -> 2; every other cell is unchanged |
| `FinancingFlow.BorrowerDashboard.ChooseShop` | src/components/UserDashboard.jsx:351 | 2 -> 3 and the chosen shop is recorded; every other cell is unchanged |
| `FinancingFlow.BorrowerDashboard.Increment` | src/components/UserDashboard.jsx:384-394 | at step 3, `+` on a credit item applies `AddOne`; otherwise the cart is unchanged, and every other cell always is |
| `FinancingFlow.BorrowerDashboard.Decrement` | src/components/UserDashboard.jsx:384-394 | at step 3, `-` on a credit item with quantity > 0 applies `RemoveOne`; otherwise the cart is unchanged, and every other cell always is |
| `FinancingFlow.BorrowerDashboard.SubmitFinancing` | src/components/UserDashboard.jsx:97-103 | submit, enabled only at a non-zero total while not submitting, captures the request for the current cart; step, cart, shop, sent request and the chart cells are unchanged |
| `FinancingFlow.BorrowerDashboard.SubmitTimerFires` | src/components/UserDashboard.jsx:104-119 | the timer moves to step 4, clears submitting and hands the captured request to the parent when it gave a setter; cart, shop and the chart cells are unchanged |
| `FinancingFlow.BorrowerDashboard.Done` | src/components/UserDashboard.jsx:418-427 | 4 -> 0 only for a structured approval; every other cell is unchanged |
| `FinancingFlow.BorrowerDashboard.TryAnotherShop` | src/components/UserDashboard.jsx:429-438 | 4 -> 2 only for a structured rejection; every other cell is unchanged |
| `FinancingFlow.BorrowerDashboard.Back` | src/components/UserDashboard.jsx:318 | back sets the step to max(0, step - 1); the step stays in 0..4; every other cell is unchanged |
| `FinancingFlow.BorrowerDashboard.StartToggle` | src/components/UserDashboard.jsx:154-168 | the toggle button (disabled while simulating, in a column taking no pointer events once the flow has started) sets `simulating` exactly when the step is 0; mode, chart and every flow cell are unchanged |
| `FinancingFlow.BorrowerDashboard.ToggleTimerFires` | src/components/UserDashboard.jsx:75-79 | the mode flips, and the chart shows the improved data exactly when the new mode is on; every flow cell is unchanged |
| `FinancingFlow.BorrowerDashboard.ChartData` | src/components/UserDashboard.jsx:71-77 | the `chartData` cell, following the mode; definition, its properties are in `BorrowerDashboard.constructor` and `BorrowerDashboard.ToggleTimerFires` |
| `FinancingFlow.FirstItemWithIndexId` | src/components/UserDashboard.jsx:33-39 | each catalogue row is found by its id, with its price and credit flag |
| `FinancingFlow.CatalogueIdsDistinct` | src/components/UserDashboard.jsx:33-39 | the catalogue ids are distinct |
| `FinancingFlow.SetQuantity` | src/components/UserDashboard.jsx:387-390 | setting a credit item to a quantity >= 0 keeps the cart well formed, records the quantity and moves the total by price times the change |
| `FinancingFlow.PutKeepsCartOk` | src/components/UserDashboard.jsx:384-394 | the UI's updates keep the cart to distinct credit items with non-negative quantities |
| `FinancingFlow.CartIdsInCatalogue` | src/components/UserDashboard.jsx:99-101 | every id in a reachable cart is in the catalogue, so `item.name` never fails |
| `FinancingFlow.SelectedNonEmpty` | src/components/UserDashboard.jsx:99-102 | whenever submit is enabled, `selectedItems` is non-empty |
| `CreditMesh.PrimaryNodes` | src/components/CreditMesh.jsx:86-87 | one primary node per spec, in order |
| `CreditMesh.PrimaryNode` | src/components/CreditMesh.jsx:87 | a primary spec with `r: 15 + importance` and type primary; definition, its properties are in `PrimaryNodes` and `GraphLayout` |
| `CreditMesh.PrimaryLinks` | src/components/CreditMesh.jsx:88-95 | one hub link per spec, in order |
| `CreditMesh.PrimaryLink` | src/components/CreditMesh.jsx:88-95 | the hub link pushed for a primary; definition, its fields are in `PrimaryLinkFlags` and `LinkMetricsRange` |
| `CreditMesh.KidsNodes` | src/components/CreditMesh.jsx:107-108 | one leaf node per child, in order |
| `CreditMesh.ChildNode` | src/components/CreditMesh.jsx:108 | a cluster child with its parent as group, r 8 and importance 3; definition, its properties are in `KidsNodes` and `LeafParents` |
| `CreditMesh.KidsLinks` | src/components/CreditMesh.jsx:107-109 | one parent-to-leaf link per child, in order |
| `CreditMesh.ChildLink` | src/components/CreditMesh.jsx:109 | the parent-to-child link; definition, its properties are in `KidsLinks` and `LeafLinkMatchesNode` |
| `CreditMesh.SecondaryLengths` | src/components/CreditMesh.jsx:106-111 | the cluster loop pushes as many nodes as links, one per child |
| `CreditMesh.SecondaryNodes` | src/components/CreditMesh.jsx:40-114 | the leaf nodes of every cluster; definition, its properties are in `SecondaryLengths` and `SecondaryNodesValue` |
| `CreditMesh.SecondaryLinks` | src/components/CreditMesh.jsx:40-114 | the parent-to-leaf links of every cluster; definition, its properties are in `SecondaryLengths` and `LeafLinkMatchesNode` |
| `CreditMesh.PushPrimaries` | src/components/CreditMesh.jsx:44-96 | the first loop pushes the user node, then one node and one link per primary |
| `CreditMesh.PushCluster` | src/components/CreditMesh.jsx:107-110 | the inner loop appends exactly one cluster's nodes and links |
| `CreditMesh.PushClusters` | src/components/CreditMesh.jsx:106-111 | the outer loop appends every cluster's nodes and links, in cluster order |
| `CreditMesh.BuildGraph` | src/components/CreditMesh.jsx:40-114 | the builder returns exactly the specified nodes and links |
| `CreditMesh.GraphNodes` | src/components/CreditMesh.jsx:40-114 | the `graphData` node list; definition, its properties are in `BuildGraph`, `GraphShape`, `LeafParents` and `NodeIdsDistinct` |
| `CreditMesh.GraphLinks` | src/components/CreditMesh.jsx:40-114 | the `graphData` link list for the metric draws; definition, its properties are in `BuildGraph`, `GraphLinksValue` and `LinkEndpoints` |
| `CreditMesh.SecondaryNodesValue` | src/components/CreditMesh.jsx:99-111 | the leaves come from employer, upi, merchant and savings, in that order |
| `CreditMesh.LeafParents` | src/components/CreditMesh.jsx:106-110 | 14 nodes; each leaf's group is its parent id; leaves are secondary with r = 8, importance 3 and no metrics |
| `CreditMesh.GraphShape` | src/components/CreditMesh.jsx:40-111 | 14 nodes and 13 links; the node ids are the listed ids in push order |
| `CreditMesh.NodeIdsDistinct` | src/components/CreditMesh.jsx:45-104 | the 14 node ids are pairwise distinct |
| `CreditMesh.LinkEndpoints` | src/components/CreditMesh.jsx:86-111 | every link endpoint is a node id, and `user` is never a target |
| `CreditMesh.GraphLinksValue` | src/components/CreditMesh.jsx:86-110 | links 0..5 go from user to each primary; links 6..12 go from each leaf's group to that leaf |
| `CreditMesh.LeafLinkMatchesNode` | src/components/CreditMesh.jsx:107-109 | the k-th leaf link targets the k-th leaf node from that node's group |
| `CreditMesh.PrimaryLinkFlags` | src/components/CreditMesh.jsx:87-93 | a primary's r = 15 + importance; its link is stable iff the status is stable, active iff volatile or the id is `upi`; distance 120, width importance/2 |
| `CreditMesh.DemoPrimaryFlags` | src/components/CreditMesh.jsx:53-93 | in the demo data exactly upi and merchant pulse, and exactly employer, rent and savings are stable |
| `CreditMesh.RandomIntRange` | src/components/CreditMesh.jsx:94 | `Math.floor(draw * n) + base` lies in [base, base + n - 1] for draws in [0, 1) |
| `CreditMesh.RandomInt` | src/components/CreditMesh.jsx:94 | `Math.floor(draw * n) + base` for a given draw; definition, its range is in `RandomIntRange` |
| `CreditMesh.LinkMetricsRange` | src/components/CreditMesh.jsx:94 | txCount is in [10, 59] and avgVal in [500, 5499]; only the six hub links carry metrics |
| `CreditMesh.LinkDistance` | src/components/CreditMesh.jsx:130 | the link distance: a set non-zero distance is used, an absent one becomes 60 |
| `CreditMesh.NoDefaultDistance` | src/components/CreditMesh.jsx:88-130 | every built link has its own distance: 120 for hub links, 40 for leaves; the default is never used |
| `CreditMesh.RadialTarget` | src/components/CreditMesh.jsx:134 | ring 0 for the user group, 140 for primaries, 220 otherwise |
| `CreditMesh.GraphLayout` | src/components/CreditMesh.jsx:133-134 | the hub is at the centre, primaries on ring 140, leaves on ring 220; every collide radius is >= 23 |
| `CreditMesh.CollideRadius` | src/components/CreditMesh.jsx:133 | `d.r + 15`; definition, its bound is in `GraphLayout` |
| `CreditMesh.NodeColor` | src/components/CreditMesh.jsx:257-265 | gold for `user` whatever its status, otherwise the status colour |
| `CreditMesh.StatusColorInjective` | src/components/CreditMesh.jsx:259-264 | different statuses get different colours, none of them gold (neutral falls to the default blue) |
| `CreditMesh.StatusColor` | src/components/CreditMesh.jsx:259-264 | the status switch's colours; definition, its properties are in `StatusColorInjective` and `NodeColor` |
| `CreditMesh.IconName` | src/components/CreditMesh.jsx:267-276 | any group outside the five named ones gets `circle` |
| `CreditMesh.SocialGroupHasDefaultIcon` | src/components/CreditMesh.jsx:267-276 | the P2P node's `social` group falls to the default icon |
| `CreditMesh.SimNode.constructor` | src/components/CreditMesh.jsx:129 | a simulation node starts at its position and unpinned |
| `CreditMesh.MeshView.constructor` | src/components/CreditMesh.jsx:33-35 | nothing selected or hovered |
| `CreditMesh.MeshView.DragStart` | src/components/CreditMesh.jsx:233-238 | drag start pins fx, fy to the current position, selects the node and hides both tooltips |
| `CreditMesh.MeshView.Dragged` | src/components/CreditMesh.jsx:239 | dragging sets the pin to the pointer |
| `CreditMesh.MeshView.DragEnd` | src/components/CreditMesh.jsx:240-243 | drag end clears fx and fy |
| `CreditMesh.MeshView.NodeClick` | src/components/CreditMesh.jsx:186 | a node click selects it and hides both tooltips |
| `CreditMesh.MeshView.ClearSelection` | src/components/CreditMesh.jsx:246 | a background click or the close button clears the selection, and the hover tooltips reappear as hovered |
| `CreditMesh.MeshView.NodeEnter` | src/components/CreditMesh.jsx:184 | entering records a snapshot of the node; its tooltip shows iff it has metrics and nothing is selected |
| `CreditMesh.MeshView.NodeLeave` | src/components/CreditMesh.jsx:185 | leaving clears the node hover and its tooltip |
| `CreditMesh.MeshView.EdgeEnter` | src/components/CreditMesh.jsx:165 | entering a link records it with the pointer position; its tooltip shows iff nothing is selected |
| `CreditMesh.MeshView.EdgeLeave` | src/components/CreditMesh.jsx:166 | leaving clears the edge hover and its tooltip |
| `CreditMesh.MeshView.NodeTooltipShown` | src/components/CreditMesh.jsx:320 | the node tooltip's render condition; definition, its properties are in `MeshView.NodeEnter` and `TooltipNodes` |
| `CreditMesh.MeshView.EdgeTooltipShown` | src/components/CreditMesh.jsx:349 | the edge tooltip's render condition; definition, its properties are in `MeshView.EdgeEnter` and `MeshView.DragStart` |
| `CreditMesh.MeshView.SidePanelShown` | src/components/CreditMesh.jsx:366 | the side panel's render condition; definition, its properties are in `MeshView.NodeClick` and `MeshView.ClearSelection` |
| `CreditMesh.TooltipNodes` | src/components/CreditMesh.jsx:45-87 | exactly the user and the six primaries carry metrics and can show a tooltip |
| `DecisionEngine.CombinedRiskAntitone` | src/components/DecisionEngine.jsx:122-124 | a higher confidence never gives a higher combined risk |
| `DecisionEngine.CombinedRisk` | src/components/DecisionEngine.jsx:122-124 | `Number((1 - (c*0.6 + 0.79*0.4)).toFixed(2))`; definition, its properties are in `CombinedRiskAntitone`, `CombinedRiskRange` and `DefaultRiskIsNotDerived` |
| `DecisionEngine.CombinedRiskRange` | src/components/DecisionEngine.jsx:122-124 | for confidence in [0, 1] the combined risk lies in [0.08, 0.68] |
| `DecisionEngine.DefaultRiskIsNotDerived` | src/components/DecisionEngine.jsx:96-124 | the formula gives 0.18 for the default confidence 0.84, not the shown default 0.28 |
| `DecisionEngine.Strength` | src/components/DecisionEngine.jsx:114 | "Strong" exactly when the confidence exceeds 0.7, otherwise "Moderate" |
| `DecisionEngine.MetricsFrom` | src/components/DecisionEngine.jsx:112-118 | the metrics a successful poll sets; definition, its properties are in `Strength` and `DecisionPage.ApplyPoll` |
| `DecisionEngine.Applies` | src/components/DecisionEngine.jsx:111 | the poll outcomes that update the metrics; definition, its use is in `DecisionPage.ApplyPoll` |
| `DecisionEngine.DecisionPage.constructor` | src/components/DecisionEngine.jsx:92-104 | before any poll: score 0.84, "Strong", risk 0.28, not sanctioned |
| `DecisionEngine.DecisionPage.ApplyPoll` | src/components/DecisionEngine.jsx:107-129 | a success response sets the metrics from its confidence and details and sets risk = `toFixed(2)` of 1 - (0.6c + 0.4 * 0.79); any other outcome leaves them unchanged |
| `DecisionEngine.DecisionPage.HandleDecision` | src/components/DecisionEngine.jsx:137-152 | 'approved' sanctions and reports 'approved'; anything else reports 'rejected' and leaves sanction untouched |
| `DecisionEngine.DecisionPage.ConfettiTimerFires` | src/components/DecisionEngine.jsx:148 | the timer only hides the confetti |
| `DecisionEngine.DecisionPage.ClickDecision` | src/components/DecisionEngine.jsx:314-334 | the buttons exist only before sanction; approve sanctions and starts the confetti, reject changes neither; each click reports its decision |
| `DecisionEngine.InsertAtMost` | src/components/DecisionEngine.jsx:168 | inserting a value <= v keeps every value <= v |
| `DecisionEngine.InsertPermutes` | src/components/DecisionEngine.jsx:168 | an insertion adds exactly the inserted entry |
| `DecisionEngine.InsertSorted` | src/components/DecisionEngine.jsx:168 | inserting into a descending list keeps it descending and adds exactly that entry |
| `DecisionEngine.SortDescCorrect` | src/components/DecisionEngine.jsx:168 | the sort gives a non-increasing permutation of its input |
| `DecisionEngine.SortDesc` | src/components/DecisionEngine.jsx:168 | `.sort((a, b) => b.value - a.value)`; definition, its properties are in `SortDescCorrect` |
| `DecisionEngine.ShapData` | src/components/DecisionEngine.jsx:162-168 | `shapData` is ordered by non-increasing value and is a permutation of the five literal entries |
| `DecisionEngine.ShapDataOrder` | src/components/DecisionEngine.jsx:162-168 | the shown order is rent, income, savings, income variability, spending volatility |
| `RiskEndpoint.MaxOf` | backend_agents/main.py:92 | `np.max` is an entry of the row and at least every entry |
| `RiskEndpoint.PredictRisk` | backend_agents/main.py:79-107 | success exactly when the model yields a non-empty user row; then confidence = round(max, 2) and risk = round(1 - max, 2); a raised exception becomes an error result |
| `RiskEndpoint.RelationalStability` | backend_agents/main.py:102 | `"High" if confidence > 0.7 else "Moderate"`; definition, its properties are in `SuccessShape` |
| `RiskEndpoint.VolatilityExposure` | backend_agents/main.py:103 | `"Low" if risk_score < 0.3 else "High"`; definition, its properties are in `SuccessShape` and `RawAndRoundedLabelsDiverge` |
| `RiskEndpoint.RoundedComplement` | backend_agents/main.py:95-100 | the rounded risk and the rounded confidence always add up to exactly 1 |
| `RiskEndpoint.PyRound2UnitInterval` | backend_agents/main.py:95-100 | rounding keeps a value in [0, 1] |
| `RiskEndpoint.SuccessShape` | backend_agents/main.py:95-104 | risk + confidence = 1; exposure is "Low" iff the rounded confidence exceeds 0.7; stability is "High" iff the raw confidence exceeds 0.7; probabilities in [0, 1] give scores in [0, 1] |
| `RiskEndpoint.RawAndRoundedLabelsDiverge` | backend_agents/main.py:100-103 | raw confidence 0.7004 reports 0.7 and 0.3, yet "High" stability and "High" exposure |
| `GraphPrep.IndexOf` | backend_agents/gnn_train.py:64 | the comprehension's keys are exactly the elements; each maps to a position holding it, and to the last such position |
| `GraphPrep.IndexOfBijective` | backend_agents/gnn_train.py:23-64 | positional numbering maps each element to its own position exactly when the elements are distinct; it is injective |
| `GraphPrep.IdToIdx` | backend_agents/gnn_train.py:64 | `id_to_idx`; definition, its properties are in `IndexOf`, `IndexOfBijective` and `EdgeLinks` |
| `GraphPrep.NodeIdsDistinct` | backend_agents/gnn_train.py:23-61 | the 26 node ids are distinct, so `id_to_idx` is a bijection onto 0..25 |
| `GraphPrep.BelowIrreflexive` | backend_agents/gnn_train.py:65 | string order is irreflexive |
| `GraphPrep.BelowTransitive` | backend_agents/gnn_train.py:65 | string order is transitive |
| `GraphPrep.BelowTotal` | backend_agents/gnn_train.py:65 | any two different strings are ordered |
| `GraphPrep.BelowAsymmetric` | backend_agents/gnn_train.py:65 | string order is asymmetric |
| `GraphPrep.InsertNameSorted` | backend_agents/gnn_train.py:65 | inserting a name keeps a strictly sorted list strictly sorted, adding exactly that name |
| `GraphPrep.ClusterNamesSorted` | backend_agents/gnn_train.py:65 | `sorted({clusters})` is strictly increasing and holds exactly the clusters that occur |
| `GraphPrep.ClusterNames` | backend_agents/gnn_train.py:65 | `cluster_names`; definition, its properties are in `ClusterNamesSorted` and `ClusterNamesValue` |
| `GraphPrep.SortedUnique` | backend_agents/gnn_train.py:65 | two strictly sorted lists with the same elements are equal |
| `GraphPrep.ClusterLabelsOrdered` | backend_agents/gnn_train.py:65-66 | `cluster_to_label` numbers exactly the clusters 0..k-1, name order matching label order |
| `GraphPrep.ClusterToLabel` | backend_agents/gnn_train.py:66 | `cluster_to_label`; definition, its properties are in `ClusterLabelsOrdered`, `LabelOfNode` and `ClusterLabelsValue` |
| `GraphPrep.ClusterListSorted` | backend_agents/gnn_train.py:65 | the six cluster names are strictly sorted |
| `GraphPrep.ClusterSetValue` | backend_agents/gnn_train.py:23-61 | the clusters that occur are exactly the six names |
| `GraphPrep.ClusterNamesValue` | backend_agents/gnn_train.py:65 | `cluster_names` is income, obligation, peer, savings, spending, user |
| `GraphPrep.ClusterLabelsValue` | backend_agents/gnn_train.py:66 | the six names get labels 0..5 in that order, and the user node's cluster gets 5 |
| `GraphPrep.HubEdges` | backend_agents/gnn_train.py:71 | every hub edge goes from `user` to another node's id, and every non-user node has one |
| `GraphPrep.EdgesIncludeHub` | backend_agents/gnn_train.py:69-91 | EDGES holds (user, n) for every node after the first |
| `GraphPrep.ChainEdgesResolveFrom0` | backend_agents/gnn_train.py:74-75 | the income chain's endpoints are node ids and no edge is a loop |
| `GraphPrep.ChainEdgesResolveFrom4` | backend_agents/gnn_train.py:78 | the obligation chain's endpoints are node ids and no edge is a loop |
| `GraphPrep.ChainEdgesResolveFrom8` | backend_agents/gnn_train.py:81 | the spending chain's endpoints are node ids and no edge is a loop |
| `GraphPrep.ChainEdgesResolveFrom12` | backend_agents/gnn_train.py:84 | the savings chain's endpoints are node ids and no edge is a loop |
| `GraphPrep.ChainEdgesResolveFrom16` | backend_agents/gnn_train.py:87 | the peer chain's endpoints are node ids and no edge is a loop |
| `GraphPrep.ChainEdgesResolveFrom20` | backend_agents/gnn_train.py:90 | the cross-cluster edges' endpoints are node ids and no edge is a loop |
| `GraphPrep.EdgesWellFormed` | backend_agents/gnn_train.py:69-97 | every `id_to_idx[s]`, `id_to_idx[t]` lookup succeeds, and EDGES has no self-edge |
| `GraphPrep.HubPlusResolves` | backend_agents/gnn_train.py:69-91 | adding the hub edges to a resolving, loop-free edge list keeps it resolving and loop-free |
| `GraphPrep.FillAdjacency` | backend_agents/gnn_train.py:95-99 | the loop leaves A[i, j] = 1 exactly when (i, j) or (j, i) is a listed pair, and 0 elsewhere |
| `GraphPrep.BuildAdjacency` | backend_agents/gnn_train.py:94-99 | A[i, j] = 1 exactly when an edge joins the nodes at i and j in either direction, and 0 otherwise |
| `GraphPrep.LinkedShape` | backend_agents/gnn_train.py:96-99 | adjacency is symmetric, and without self-edges its diagonal is empty |
| `GraphPrep.EdgeLinks` | backend_agents/gnn_train.py:96-99 | with distinct ids, an edge between the ids of nodes i and j links positions i and j |
| `GraphPrep.LinkedEdge` | backend_agents/gnn_train.py:96-99 | conversely, linked positions i and j hold the ids of some edge, in one direction or the other |
| `GraphPrep.RowSumBound` | backend_agents/gnn_train.py:134-135 | the first n entries of row i of A + I sum to at least 1 when i < n |
| `GraphPrep.DegreeAtLeastOne` | backend_agents/gnn_train.py:134-137 | every row degree of A + I is >= 1, so `D ** -0.5` never divides by zero |
| `GraphPrep.Degree` | backend_agents/gnn_train.py:135 | row i's sum of `A + I`; definition, its properties are in `RowSumBound` and `DegreeAtLeastOne` |
| `GraphPrep.LabelOfNode` | backend_agents/gnn_train.py:65-66 | a node's cluster has a label, in range, naming that cluster |
| `GraphPrep.BuildLabels` | backend_agents/gnn_train.py:114-118 | the loop sets Y[idx] to the label of node idx's cluster |
| `GraphPrep.InsertLabel` | backend_agents/gnn_train.py:173 | inserting keeps the label list increasing and adds exactly that label |
| `GraphPrep.Unique` | backend_agents/gnn_train.py:173 | `np.unique(Y)` is increasing and holds exactly the labels that occur |
| `GraphPrep.Where` | backend_agents/gnn_train.py:174 | `np.where(Y == v)` holds exactly the indices with label v |
| `GraphPrep.SplitKeepsAll` | backend_agents/gnn_train.py:177-178 | cutting every list and joining the heads and tails loses and invents no index |
| `GraphPrep.FlatShuffled` | backend_agents/gnn_train.py:174-175 | shuffling each label's list keeps the joined indices |
| `GraphPrep.WhereCount` | backend_agents/gnn_train.py:174 | `np.where` lists each index with that label exactly once |
| `GraphPrep.WhereAllCount` | backend_agents/gnn_train.py:173-174 | over distinct labels, each index with one of them occurs exactly once |
| `GraphPrep.SplitPartitions` | backend_agents/gnn_train.py:171-178 | train and test are disjoint, and together they hold every node index exactly once |
| `GraphPrep.TrainPartHas` | backend_agents/gnn_train.py:177 | every index in a label's head is in train |
| `GraphPrep.LabelShare` | backend_agents/gnn_train.py:176-177 | each label's cut is max(1, floor(0.6 n)) >= 1, and its first shuffled index, which has that label, goes to train |
| `GraphPrep.SplitPoint` | backend_agents/gnn_train.py:176 | `max(1, int(0.6 * len(idxs)))`; definition, its properties are in `LabelShare` |
| `GraphPrep.Cut` | backend_agents/gnn_train.py:176-178 | where Python's slices cut a list, at most its length; definition, its properties are in `SplitKeepsAll` and `LabelShare` |
| `GraphPrep.TrainPart` | backend_agents/gnn_train.py:177 | `train_idx`, the heads of the per-label lists; definition, its properties are in `SplitPartitions`, `TrainPartHas` and `SplitCoversLabels` |
| `GraphPrep.TestPart` | backend_agents/gnn_train.py:178 | `test_idx`, the tails of the per-label lists; definition, its properties are in `SplitPartitions` |
| `GraphPrep.SplitCoversLabels` | backend_agents/gnn_train.py:173-178 | every cut is max(1, floor(0.6 n)), and every label that occurs has an index in train |
| `GraphPrep.StratifiedSplit` | backend_agents/gnn_train.py:171-178 | the loop's train and test partition all indices, and every label has a training index |
| `GraphPrep.Prepare` | backend_agents/gnn_train.py:63-137 | for distinct ids and resolving, loop-free edges, A is a symmetric 0/1 matrix with zero diagonal, holds every edge, holds nothing but the edges, has degrees >= 1, and Y gives every node its cluster's label |
| `GraphPrep.PrepareGraph` | backend_agents/gnn_train.py:23-137 | the 26-node graph: A symmetric 0/1 with zero diagonal, the user joined to every node, A[i, j] = 1 exactly when an edge joins nodes i and j, degrees >= 1, Y in 0..5 naming each node's cluster, the user labelled 5 |
| `Requests.LinesTotalAppend` | src/components/UserDashboard.jsx:92-95 | the lines' total is additive over concatenation |
| `Requests.LineTotal` | src/components/ShopkeeperDashboard.jsx:179 | a line's amount, `qty * price`; definition, its properties are in `ShopkeeperView.RowAmounts` |
| `Requests.LinesTotal` | src/components/UserDashboard.jsx:92-95 | the sum of the lines' amounts; definition, its properties are in `LinesTotalAppend`, `FinancingFlow.MapEntriesTotal` and `ShopkeeperView.RowAmountsSum` |
| `Requests.MakeRequest` | src/components/UserDashboard.jsx:108-117 | the request carries the given items and total and the fixed demo scores 0.28 / 0.84 / 0.79 |
| `ShopkeeperView.ActiveRequest` | src/components/ShopkeeperDashboard.jsx:24-36 | a supplied request is shown as is, and the literal fallback only when none is supplied |
| `ShopkeeperView.FallbackTotalMatchesLines` | src/components/ShopkeeperDashboard.jsx:27-31 | the fallback's total 6650 is 2 x 1200 + 5 x 850 |
| `ShopkeeperView.RowAmounts` | src/components/ShopkeeperDashboard.jsx:179 | each inventory row shows qty * price for its own item |
| `ShopkeeperView.RowAmountsSum` | src/components/ShopkeeperDashboard.jsx:179-185 | the row amounts add up to the lines' total |
| `ShopkeeperView.Percent` | src/components/ShopkeeperDashboard.jsx:141-148 | the shown percentage is within 1/2 of 100x: `Math.round(100x)` off a tie, and on a tie the integer further from zero |
| `ShopkeeperView.FallbackPercents` | src/components/ShopkeeperDashboard.jsx:141-148 | the fallback shows 84% and 79% |
| `ShopkeeperView.DecisionTextInjective` | src/components/ShopkeeperDashboard.jsx:234-240 | the two buttons forward different values |
| `ShopkeeperView.DecisionText` | src/components/ShopkeeperDashboard.jsx:234-240 | the string each button passes to `handleDecision`; definition, its properties are in `DecisionTextInjective` |
| `ShopkeeperView.Dashboard.constructor` | src/components/ShopkeeperDashboard.jsx:19-21 | not processing, nothing pending or forwarded |
| `ShopkeeperView.Dashboard.Shown` | src/components/ShopkeeperDashboard.jsx:24 | the request the view shows, `requestData || fallback`; definition, its properties are in `ActiveRequest` |
| `ShopkeeperView.Dashboard.HandleDecision` | src/components/ShopkeeperDashboard.jsx:38-40 | a decision sets processing and schedules exactly that decision |
| `ShopkeeperView.Dashboard.ApproveClick` | src/components/ShopkeeperDashboard.jsx:239-241 | approve is ignored while processing, otherwise schedules 'approved' |
| `ShopkeeperView.Dashboard.RejectClick` | src/components/ShopkeeperDashboard.jsx:233-234 | decline is never disabled and always schedules 'rejected' |
| `ShopkeeperView.Dashboard.TimerFires` | src/components/ShopkeeperDashboard.jsx:40-43 | the oldest timer clears processing and forwards its own decision unchanged; forwarded decisions stay a prefix of the clicks, in click order |

## Left out

- Rendering is left out: JSX markup, CSS classes, framer-motion animation, recharts charts, d3 SVG drawing and the confetti effect. None of it has a contract.
- The d3 force simulation is left out: its many-body, link, collide and radial integration is a third-party float solver. Only its parameter functions and the pin/unpin of `fx`/`fy` are modelled.
- `Math.random`, `random.shuffle`, `np.random` and the `hash()`-seeded cluster centres are left out. Draws and permutations are inputs of the model.
- The node feature matrix `X` (random features around random centres) is left out for the same reason.
- Timer delays, the 5 s polling interval and interleaving are left out. A timer firing is a separate method, and polling is repeated `ApplyPoll` calls.
- `fetch` and HTTP are left out. A poll is a `PollOutcome` input: a success with confidence and details, or a non-success or thrown request.
- PyTorch is left out: `SimpleGCN.forward`, softmax, the Adam training loop and accuracy reporting are float numerics in a foreign library. `RiskEndpoint.PredictRisk` takes the model's probability rows, or the exception it raised, as input.
- The final `D^-1/2 (A + I) D^-1/2` product of `normalize_adj` is left out, as float matrix numerics. The degree step is modelled, and the `isinf` guard is shown never to fire.
- Writing `synthetic_graph.json`, loading and saving `gnn_model.pth`, and the server start-up are left out. All are file or process I/O.
- The `/run-agents` endpoint in `backend_agents/main.py` is left out. It is a wrapper over external crewai agents.
- `src/components/Navbar.jsx` is not part of this model. It holds navigation and scrolling UI only.
- IEEE-754 behaviour is left out. Each rounding is a function on exact reals. A binary value that sits just off a decimal tie is not modelled.
- The borrower page's direct-loan application (`handleApply` and its modal) is left out. It sets `isSubmitting`, and after a delay clears it, closes the modal and passes the typed amount to the parent (`src/components/UserDashboard.jsx` lines 82-89). It shares `isSubmitting` with the financing submit button, which `BorrowerDashboard` models. The model leaves it out because Apply is offered only while the loan status is `none` (lines 236-248), and the financing flow that reads `isSubmitting` starts only for a rejected loan.
- Two values are unused and left out: the shopkeeper view's `view` state and its `riskMetrics` prop.
- `GraphPrep.SplitPoint` models `int(0.6 * n)` exactly as floor(6n/10). Float error in `0.6 * n` is not modelled.
- `GraphPrep.StratifiedSplit` does not model `random.shuffle` mutating the index lists in place. Each shuffled list is an input that must be a permutation of `np.where(Y == l)`.
- `GraphPrep.BuildAdjacency` uses `float32` entries, modelled as the reals 0 and 1.
- `CreditMesh.NodeColor` compares statuses as an enumeration. A status string outside the four known ones is not modelled; all the data uses known statuses.
- `StabilityScorer.Visualizer.SetSlider` assumes `parseInt` of a range input returns an integer in [0, 100]. It does not model NaN or out-of-range strings.
- A source defect is noted but not modelled. `backend_agents/main.py` line 67 imports `device`, which `gnn_train.py` binds only under `__main__` (line 161).
