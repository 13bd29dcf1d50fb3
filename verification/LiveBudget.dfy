/** One live analysis: its usage caps, its model price, and the two reservations it makes before
    and settles after. */
module LiveBudget {
  import opened Common
  import opened Decimals
  import opened Budget

  // ---------------------------------------------------------------- prices

  datatype ModelPrice = ModelPrice(input: nat, output: nat)
  datatype Prices = Prices(reviewedAt: int, maxAgeDays: int, prices: map<string, ModelPrice>)

  const DAY: int := 86400

  function ForModel(p: Prices, model: string, now: int): Option<ModelPrice> {
    if now - p.reviewedAt > p.maxAgeDays * DAY || model !in p.prices then None else Some(p.prices[model])
  }

  /** Every operation on decimals rounds to 28 digits; the last one rounds up to a whole paisa. */
  ghost function Cost(price: ModelPrice, input: nat, output: nat): int {
    Ceiling(Rounded(Thousandth(Rounded(Rounded((input * price.input) as real) + Rounded((output * price.output) as real)))))
  }

  ghost function Rounded(x: real): (y: real)
    requires x >= 0.0
    ensures y >= 0.0
  {
    RoundIsRepresentable(x);
    Round28(x)
  }

  function Thousandth(x: real): (y: real)
    requires x >= 0.0
    ensures y >= 0.0
  {
    x / 1000.0
  }

  ghost function CostMinor(p: Prices, model: string, input: nat, output: nat, now: int): Option<int> {
    var price := ForModel(p, model, now);
    if price.None? then None else Some(Cost(price.value, input, output))
  }

  lemma RoundedMonotone(x: real, y: real)
    requires 0.0 <= x <= y
    ensures Rounded(x) <= Rounded(y)
  {
    hide Round28;
    RoundMonotone(x, y);
  }

  lemma ProductMonotone(a: nat, b: nat, c: nat)
    requires a <= b
    ensures a * c <= b * c
  {}

  /** The cost of more tokens is never lower, at any price. */
  lemma CostMonotone(price: ModelPrice, i: nat, o: nat, i': nat, o': nat)
    requires i <= i' && o <= o'
    ensures 0 <= Cost(price, i, o) <= Cost(price, i', o')
  {
    hide Rounded, Ceiling;
    ProductMonotone(i, i', price.input);
    ProductMonotone(o, o', price.output);
    RoundedMonotone((i * price.input) as real, (i' * price.input) as real);
    RoundedMonotone((o * price.output) as real, (o' * price.output) as real);
    var x := Rounded((i * price.input) as real) + Rounded((o * price.output) as real);
    var y := Rounded((i' * price.input) as real) + Rounded((o' * price.output) as real);
    RoundedMonotone(x, y);
    RoundedMonotone(Thousandth(Rounded(x)), Thousandth(Rounded(y)));
    CeilingMonotone(Rounded(Thousandth(Rounded(x))), Rounded(Thousandth(Rounded(y))));
    CeilingNonnegative(Rounded(Thousandth(Rounded(x))));
  }

  lemma CeilingNonnegative(x: real)
    requires x >= 0.0
    ensures Ceiling(x) >= 0
  {}

  // ---------------------------------------------------------------- the exact price

  /** What the tokens cost, in thousandths of a paisa. */
  function Thousandths(price: ModelPrice, input: nat, output: nat): nat { input * price.input + output * price.output }

  /** The least whole number of paise that covers so many thousandths. */
  predicate IsLeastCover(c: int, thousandths: nat) { 1000 * (c - 1) < thousandths <= 1000 * c }

  lemma WholeThousandths(n: nat)
    requires n <= Tens(28)
    ensures Rounded(n as real) == n as real && Rounded(Thousandth(n as real)) == Thousandth(n as real)
  {
    hide Pow10, Tens, Round28;
    WholeIsRepresentable(n);
    RoundKeepsRepresentable(n as real);
    ThreeDown();
    assert Thousandth(n as real) == Shifted(n, -3);
    assert Representable(Shifted(n, -3));
    RoundKeepsRepresentable(Thousandth(n as real));
  }

  lemma ThreeDown()
    ensures Pow10(-3) == 0.001
  {
    assert Pow10(-1) == Pow10(0) / 10.0;
    assert Pow10(-2) == Pow10(-1) / 10.0;
    assert Pow10(-3) == Pow10(-2) / 10.0;
  }

  lemma CeilingCovers(n: nat)
    ensures IsLeastCover(Ceiling(Thousandth(n as real)), n)
  {}

  /** Up to 28 digits the cost is exact: input tokens at the input price and output tokens at the
      output price, together rounded up once to a whole paisa. */
  lemma CostIsExact(price: ModelPrice, input: nat, output: nat)
    requires Thousandths(price, input, output) <= Tens(28)
    ensures IsLeastCover(Cost(price, input, output), Thousandths(price, input, output))
  {
    hide Rounded, Ceiling, Tens;
    var i, o := input * price.input, output * price.output;
    assert Thousandths(price, input, output) == i + o;
    assert 0 <= i && 0 <= o by { ProductMonotone(0, input, price.input); ProductMonotone(0, output, price.output); }
    WholeThousandths(i);
    WholeThousandths(o);
    WholeThousandths(i + o);
    assert i as real + o as real == (i + o) as real;
    CeilingCovers(i + o);
  }

  /** Costs of at most so many thousandths are exact. */
  ghost predicate AlwaysExactTo(limit: nat) {
    forall price: ModelPrice, input: nat, output: nat :: Thousandths(price, input, output) <= limit ==>
      IsLeastCover(Cost(price, input, output), Thousandths(price, input, output))
  }

  /** One thousandth past 28 digits is lost: the cost comes out one paisa short. */
  lemma OneThousandthIsLost()
    ensures Thousandths(ModelPrice(Tens(28) + 1, 0), 1, 0) == Tens(28) + 1
    ensures !IsLeastCover(Cost(ModelPrice(Tens(28) + 1, 0), 1, 0), Tens(28) + 1)
  {
    hide Tens, Rounded, Ceiling;
    var n := Tens(28);
    LastDigitLost();
    WholeThousandths(0);
    WholeThousandths(n);
    CeilingCovers(n);
    assert 1 * (n + 1) == n + 1 && 0 * 0 == 0;
    assert Cost(ModelPrice(n + 1, 0), 1, 0) == Ceiling(Thousandth(n as real));
    ThreeMore(25);
  }

  lemma LastDigitLost()
    ensures Rounded((Tens(28) + 1) as real) == Tens(28) as real
  {
    hide Pow10, Tens, HalfEven, Scale;
    var x := (Tens(28) + 1) as real;
    TensIsPow10(28);
    TensIsPow10(29);
    NextTens();
    assert HasPlace(x, 28);
    PlacesAgree(x, Scale(x) + DIGITS - 1, 28);
    TensIsPow10(1);
    TenthBelow(Tens(27));
    assert Round28(x) == HalfEven(x / 10.0) as real * 10.0;
  }

  lemma NextTens()
    ensures Tens(28) == 10 * Tens(27) && Tens(29) == 10 * Tens(28) && Tens(1) == 10
  {}

  lemma TenthBelow(n: nat)
    ensures HalfEven((10 * n + 1) as real / 10.0) == n
  {
    assert (10 * n + 1) as real / 10.0 == n as real + 0.1;
  }

  lemma ThreeMore(n: nat)
    ensures Tens(n + 3) == 1000 * Tens(n)
  {
    assert Tens(n + 1) == 10 * Tens(n) && Tens(n + 2) == 10 * Tens(n + 1) && Tens(n + 3) == 10 * Tens(n + 2);
  }

  /** Every cost up to a limit is exact if and only if the limit is at most 10^28 thousandths. */
  lemma ExactIffTwentyEightDigits(limit: nat)
    ensures AlwaysExactTo(limit) <==> limit <= Tens(28)
  {
    hide Cost, Tens;
    if limit <= Tens(28) {
      forall price: ModelPrice, input: nat, output: nat | Thousandths(price, input, output) <= limit
        ensures IsLeastCover(Cost(price, input, output), Thousandths(price, input, output)) {
        CostIsExact(price, input, output);
      }
    } else {
      OneThousandthIsLost();
      assert Thousandths(ModelPrice(Tens(28) + 1, 0), 1, 0) <= limit;
    }
  }

  // ---------------------------------------------------------------- usage caps

  const MAX_INPUT: nat := 40_000
  const MAX_OUTPUT: nat := 8_000
  const RESERVED_TOKENS: nat := 48_000

  /** The counters of one analysis. A call past a cap counts what was used, then raises. */
  class AnalysisLimits {
    var inputTokens: nat
    var outputTokens: nat

    predicate WithinCaps() reads this { inputTokens <= MAX_INPUT && outputTokens <= MAX_OUTPUT }

    constructor ()
      ensures WithinCaps() && inputTokens == 0 && outputTokens == 0
    {
      inputTokens, outputTokens := 0, 0;
    }

    method RecordUsage(input: int, output: int) returns (ok: bool)
      modifies this
      ensures input < 0 || output < 0 ==> !ok && inputTokens == old(inputTokens) && outputTokens == old(outputTokens)
      ensures input >= 0 && output >= 0 ==>
                inputTokens == old(inputTokens) + input && outputTokens == old(outputTokens) + output && (ok <==> WithinCaps())
    {
      if input < 0 || output < 0 { return false; }
      inputTokens := inputTokens + input;
      outputTokens := outputTokens + output;
      if inputTokens > MAX_INPUT { return false; }
      if outputTokens > MAX_OUTPUT { return false; }
      return true;
    }
  }

  // ---------------------------------------------------------------- reserving and settling

  datatype LiveBudget = LiveBudget(tenant: RowKey, deployment: RowKey, prices: Prices, model: string, tokens: int, cost: int)

  /** The configured limits of a day. */
  datatype Settings = Settings(prices: Prices, model: string, tenantTokens: int, deploymentTokens: int, dailyCost: int)

  function TenantRequest(s: Settings, b: LiveBudget, workflow: nat, scope: string, day: int): Request {
    Request(b.tenant, workflow, b.tokens, b.cost, WindowKey(scope, day), s.tenantTokens, Some(s.dailyCost))
  }

  function DeploymentRequest(s: Settings, b: LiveBudget, workflow: nat, day: int): Request {
    Request(b.deployment, workflow, b.tokens, b.cost, WindowKey("deployment", day), s.deploymentTokens, Some(s.dailyCost))
  }

  /** Both reservations for the largest analysis the caps allow, or none. */
  ghost function ReserveLive(l: Ledger, s: Settings, tenant: RowKey, deployment: RowKey, workflow: nat, scope: string, day: int, now: int)
    : (Ledger, Option<LiveBudget>)
  {
    var cost := CostMinor(s.prices, s.model, MAX_INPUT, MAX_OUTPUT, now);
    if cost.None? || cost.value > s.dailyCost then (l, None)
    else
      var b := LiveBudget(tenant, deployment, s.prices, s.model, RESERVED_TOKENS, cost.value);
      var first := Reserve(l, TenantRequest(s, b, workflow, scope, day));
      if first.error.Some? then (l, None)
      else
        var second := Reserve(first.ledger, DeploymentRequest(s, b, workflow, day));
        if second.error.Some? then (l, None) else (second.ledger, Some(b))
  }

  /** What a settlement charges; nothing if the price went stale. */
  ghost function Charge(b: LiveBudget, input: nat, output: nat, conservative: bool, now: int): Option<(int, int)> {
    if conservative then Some((b.tokens, b.cost))
    else
      var cost := CostMinor(b.prices, b.model, input, output, now);
      if cost.None? then None else Some((input + output, cost.value))
  }

  function SettleOne(l: Ledger, key: RowKey, tokens: int, cost: int): Reply {
    if key in l.rows && l.rows[key].status == Reserved then Reconcile(l, key, tokens, cost) else Reply(l, None)
  }

  ghost predicate HoldsFor(l: Ledger, b: LiveBudget, key: RowKey) {
    key in l.rows && l.rows[key].tokens == b.tokens && l.rows[key].cost == b.cost && l.rows[key].window in l.windows
  }

  /** The budget of a live run: reserved at the caps' cost, and both rows carry it. */
  ghost predicate IsLive(l: Ledger, b: LiveBudget) {
    && b.tokens == RESERVED_TOKENS && b.tenant != b.deployment
    && b.model in b.prices.prices && b.cost == Cost(b.prices.prices[b.model], MAX_INPUT, MAX_OUTPUT)
    && HoldsFor(l, b, b.tenant) && HoldsFor(l, b, b.deployment)
  }

  lemma ReserveHolds(l: Ledger, q: Request)
    requires Inv(l) && Reserve(l, q).error.None?
    ensures q.key in Reserve(l, q).ledger.rows
    ensures var r := Reserve(l, q).ledger.rows[q.key];
            r.tokens == q.tokens && r.cost == q.cost && r.window in Reserve(l, q).ledger.windows
  {}

  lemma ReserveKeepsOthers(l: Ledger, q: Request, key: RowKey)
    requires key in l.rows
    ensures key in Reserve(l, q).ledger.rows && Reserve(l, q).ledger.rows[key] == l.rows[key]
    ensures forall w :: w in l.windows ==> w in Reserve(l, q).ledger.windows
  {}

  /** A granted live reservation holds the cost of a full analysis on both rows. */
  lemma LiveReservationHolds(l: Ledger, s: Settings, tenant: RowKey, deployment: RowKey, workflow: nat, scope: string, day: int, now: int)
    requires Inv(l) && tenant != deployment
    ensures var (l', b) := ReserveLive(l, s, tenant, deployment, workflow, scope, day, now);
            Inv(l') && (b.Some? ==> IsLive(l', b.value))
  {
    hide Inv, Reserve, Cost;
    var cost := CostMinor(s.prices, s.model, MAX_INPUT, MAX_OUTPUT, now);
    if cost.Some? && cost.value <= s.dailyCost {
      var b := LiveBudget(tenant, deployment, s.prices, s.model, RESERVED_TOKENS, cost.value);
      var q := TenantRequest(s, b, workflow, scope, day);
      var first := Reserve(l, q);
      ReserveKeepsInv(l, q);
      if first.error.None? {
        ReserveHolds(l, q);
        var p := DeploymentRequest(s, b, workflow, day);
        ReserveKeepsInv(first.ledger, p);
        ReserveKeepsOthers(first.ledger, p, tenant);
        if Reserve(first.ledger, p).error.None? { ReserveHolds(first.ledger, p); }
      }
    }
  }

  /** A granted live reservation is two reserve steps of a run, after which the budget is held. */
  lemma LiveReservationExtendsRun(run: seq<Ledger>, steps: seq<Step>, s: Settings, tenant: RowKey, deployment: RowKey,
                                  workflow: nat, scope: string, day: int, now: int)
    returns (run': seq<Ledger>, steps': seq<Step>)
    requires IsRun(run, steps) && tenant != deployment
    requires ReserveLive(run[|run| - 1], s, tenant, deployment, workflow, scope, day, now).1.Some?
    ensures var (l, b) := ReserveLive(run[|run| - 1], s, tenant, deployment, workflow, scope, day, now);
            && IsRun(run', steps') && |run'| == |run| + 2 && run' == run + run'[|run|..] && run'[|run| + 1] == l && IsLive(l, b.value)
            && steps' == steps + [ReserveStep(TenantRequest(s, b.value, workflow, scope, day)), ReserveStep(DeploymentRequest(s, b.value, workflow, day))]
  {
    hide Inv, Reserve, Cost, IsLive;
    var l := run[|run| - 1];
    var (after, b) := ReserveLive(l, s, tenant, deployment, workflow, scope, day, now);
    ReachableInv(run, steps, |run| - 1);
    LiveReservationHolds(l, s, tenant, deployment, workflow, scope, day, now);
    var first := Reserve(l, TenantRequest(s, b.value, workflow, scope, day)).ledger;
    run' := run + [first, after];
    steps' := steps + [ReserveStep(TenantRequest(s, b.value, workflow, scope, day)), ReserveStep(DeploymentRequest(s, b.value, workflow, day))];
  }

  lemma SettleFits(l: Ledger, b: LiveBudget, key: RowKey, tokens: int, cost: int)
    requires HoldsFor(l, b, key) && 0 <= tokens <= b.tokens && 0 <= cost <= b.cost
    ensures SettleOne(l, key, tokens, cost).error.None?
    ensures key in SettleOne(l, key, tokens, cost).ledger.rows && SettleOne(l, key, tokens, cost).ledger.rows[key].status == Reconciled
    ensures forall other :: other != key && HoldsFor(l, b, other) ==> HoldsFor(SettleOne(l, key, tokens, cost).ledger, b, other)
    ensures forall other :: other != key && other in l.rows ==>
              other in SettleOne(l, key, tokens, cost).ledger.rows && SettleOne(l, key, tokens, cost).ledger.rows[other] == l.rows[other]
  {}

  /** Whatever a run within its caps used, the charge fits what was reserved: a settlement is
      only ever refused because the reviewed price went stale, and never when it is conservative. */
  lemma ChargeFits(l: Ledger, b: LiveBudget, input: nat, output: nat, conservative: bool, now: int)
    requires IsLive(l, b)
    requires conservative || (input <= MAX_INPUT && output <= MAX_OUTPUT)
    ensures var c := Charge(b, input, output, conservative, now);
            && (c.None? <==> !conservative && now - b.prices.reviewedAt > b.prices.maxAgeDays * DAY)
            && (c.Some? ==> 0 <= c.value.0 <= b.tokens && 0 <= c.value.1 <= b.cost)
  {
    hide Cost;
    CostMonotone(b.prices.prices[b.model], 0, 0, MAX_INPUT, MAX_OUTPUT);
    if !conservative {
      CostMonotone(b.prices.prices[b.model], input, output, MAX_INPUT, MAX_OUTPUT);
    }
  }

  /** Settles both rows with the same charge; a failure rolls both back. */
  function SettleBoth(l: Ledger, b: LiveBudget, tokens: int, cost: int): Reply {
    var first := SettleOne(l, b.tenant, tokens, cost);
    if first.error.Some? then Reply(l, first.error)
    else
      var second := SettleOne(first.ledger, b.deployment, tokens, cost);
      if second.error.Some? then Reply(l, second.error) else second
  }

  /** Whatever other reservations and settlements come in between, the budget stays as reserved. */
  lemma LiveStays(l: Ledger, step: Step, b: LiveBudget)
    requires IsLive(l, b)
    ensures IsLive(Apply(l, step), b)
  {
    hide Cost, Apply;
    StepKeepsRows(l, step, b.tenant);
    StepKeepsRows(l, step, b.deployment);
    WindowsStay(l, step);
  }

  lemma WindowsStay(l: Ledger, step: Step)
    ensures forall w :: w in l.windows ==> w in Apply(l, step).windows
  {}

  lemma {:induction false} LiveStaysInRun(run: seq<Ledger>, steps: seq<Step>, i: nat, j: nat, b: LiveBudget)
    requires IsRun(run, steps) && i <= j < |run| && IsLive(run[i], b)
    ensures IsLive(run[j], b)
  {
    hide IsLive, Apply;
    if i < j {
      LiveStaysInRun(run, steps, i, j - 1, b);
      LiveStays(run[j - 1], steps[j - 1], b);
    }
  }

  /** In any run, an analysis that was granted its budget and stayed within its caps is never
      refused at settlement for exceeding it: the settlement goes through, and both rows are
      reconciled, unless the price went stale in between; a conservative one always does. */
  lemma SettlementIsNeverExceeded(run: seq<Ledger>, steps: seq<Step>, i: nat, j: nat, b: LiveBudget,
                                  input: nat, output: nat, conservative: bool, now: int)
    requires IsRun(run, steps) && i <= j < |run| && IsLive(run[i], b)
    requires conservative || (input <= MAX_INPUT && output <= MAX_OUTPUT)
    ensures var charge := Charge(b, input, output, conservative, now);
            && (charge.None? <==> !conservative && now - b.prices.reviewedAt > b.prices.maxAgeDays * DAY)
            && (charge.Some? ==>
                  var reply := SettleBoth(run[j], b, charge.value.0, charge.value.1);
                  && reply.error.None?
                  && b.tenant in reply.ledger.rows && reply.ledger.rows[b.tenant].status == Reconciled
                  && b.deployment in reply.ledger.rows && reply.ledger.rows[b.deployment].status == Reconciled)
  {
    hide IsRun, Charge, SettleOne;
    LiveStaysInRun(run, steps, i, j, b);
    ChargeFits(run[j], b, input, output, conservative, now);
    var charge := Charge(b, input, output, conservative, now);
    if charge.Some? {
      SettleFits(run[j], b, b.tenant, charge.value.0, charge.value.1);
      SettleFits(SettleOne(run[j], b.tenant, charge.value.0, charge.value.1).ledger, b, b.deployment, charge.value.0, charge.value.1);
    }
  }

  // ---------------------------------------------------------------- what is held and what is charged

  /** A live reservation is granted at the least cost that covers forty thousand input and eight
      thousand output tokens at their own prices, and both rows hold exactly that. */
  lemma ReservationIsExact(l: Ledger, s: Settings, tenant: RowKey, deployment: RowKey, workflow: nat, scope: string, day: int, now: int)
    requires Inv(l) && tenant != deployment && ReserveLive(l, s, tenant, deployment, workflow, scope, day, now).1.Some?
    requires s.model in s.prices.prices ==> Thousandths(s.prices.prices[s.model], 40_000, 8_000) <= Tens(28)
    ensures var (after, b) := ReserveLive(l, s, tenant, deployment, workflow, scope, day, now);
            && s.model in s.prices.prices && now - s.prices.reviewedAt <= s.prices.maxAgeDays * 86400
            && IsLeastCover(b.value.cost, 40_000 * s.prices.prices[s.model].input + 8_000 * s.prices.prices[s.model].output)
            && b.value.cost <= s.dailyCost && b.value.tokens == 48_000
            && b.value.tenant == tenant && b.value.deployment == deployment && b.value.prices == s.prices && b.value.model == s.model
            && tenant in after.rows && after.rows[tenant].tokens == 48_000 && after.rows[tenant].cost == b.value.cost
            && deployment in after.rows && after.rows[deployment].tokens == 48_000 && after.rows[deployment].cost == b.value.cost
  {
    hide Inv, Reserve, Cost, Tens;
    LiveReservationHolds(l, s, tenant, deployment, workflow, scope, day, now);
    CostIsExact(s.prices.prices[s.model], MAX_INPUT, MAX_OUTPUT);
  }

  /** The row is settled with this use, if it was not before; then it is left as it is. */
  predicate SettledWith(a: Row, b: Row, tokens: int, cost: int) {
    b == if a.status == Reserved then Row(a.window, a.workflow, a.tokens, a.cost, tokens, cost, Reconciled) else a
  }

  /** What a settlement writes: the tokens used, and the least cost that covers them at the prices of
      the reservation, on both rows and no other; a conservative one writes what was reserved. */
  lemma SettlementIsExact(run: seq<Ledger>, steps: seq<Step>, i: nat, j: nat, b: LiveBudget, input: nat, output: nat, conservative: bool, now: int)
    requires IsRun(run, steps) && i <= j < |run| && IsLive(run[i], b)
    requires conservative || (input <= MAX_INPUT && output <= MAX_OUTPUT)
    requires Thousandths(b.prices.prices[b.model], input, output) <= Tens(28)
    requires Charge(b, input, output, conservative, now).Some?
    ensures var (tokens, cost) := Charge(b, input, output, conservative, now).value;
            && (if conservative then tokens == b.tokens && cost == b.cost
                else tokens == input + output
                     && IsLeastCover(cost, input * b.prices.prices[b.model].input + output * b.prices.prices[b.model].output))
            && var after := SettleBoth(run[j], b, tokens, cost).ledger;
            && after.rows.Keys == run[j].rows.Keys && b.tenant in after.rows && b.deployment in after.rows
            && SettledWith(run[j].rows[b.tenant], after.rows[b.tenant], tokens, cost)
            && SettledWith(run[j].rows[b.deployment], after.rows[b.deployment], tokens, cost)
            && (forall k :: k in after.rows && k != b.tenant && k != b.deployment ==> after.rows[k] == run[j].rows[k])
  {
    hide IsRun, SettleOne, Cost, Tens;
    if !conservative { CostIsExact(b.prices.prices[b.model], input, output); }
    LiveStaysInRun(run, steps, i, j, b);
    ChargeFits(run[j], b, input, output, conservative, now);
    var (tokens, cost) := Charge(b, input, output, conservative, now).value;
    var first := SettleOne(run[j], b.tenant, tokens, cost).ledger;
    SettleFits(run[j], b, b.tenant, tokens, cost);
    SettleWrites(run[j], b, b.tenant, tokens, cost);
    SettleFits(first, b, b.deployment, tokens, cost);
    SettleWrites(first, b, b.deployment, tokens, cost);
  }

  lemma SettleWrites(l: Ledger, b: LiveBudget, key: RowKey, tokens: int, cost: int)
    requires HoldsFor(l, b, key) && 0 <= tokens <= b.tokens && 0 <= cost <= b.cost
    ensures var after := SettleOne(l, key, tokens, cost).ledger;
            after.rows.Keys == l.rows.Keys && SettledWith(l.rows[key], after.rows[key], tokens, cost)
  {}

  const ONE_MODEL := Prices(0, 30, map["model" := ModelPrice(1, 1)])

  ghost function SomeSettings(): Settings {
    Settings(ONE_MODEL, "model", 250_000, 1_000_000, Cost(ModelPrice(1, 1), MAX_INPUT, MAX_OUTPUT))
  }

  lemma SomeBudgetIsGranted(tenant: RowKey, deployment: RowKey)
    requires tenant != deployment
    ensures ReserveLive(EMPTY, SomeSettings(), tenant, deployment, 0, "tenant", 0, 0).1.Some?
  {
    hide Cost;
    CostMonotone(ModelPrice(1, 1), 0, 0, MAX_INPUT, MAX_OUTPUT);
  }

  /** A run with a granted budget: thirty days after the price review it can still be settled for
      its usage, one second later only conservatively. */
  lemma AGrantedBudgetCanGoStale() returns (run: seq<Ledger>, steps: seq<Step>, b: LiveBudget)
    ensures IsRun(run, steps) && IsLive(run[|run| - 1], b)
    ensures Charge(b, 0, 0, false, 30 * DAY).Some? && Charge(b, 0, 0, false, 30 * DAY + 1).None?
    ensures SettleBoth(run[|run| - 1], b, b.tokens, b.cost).error.None?
  {
    hide Cost, Reserve, Charge, SettleOne, IsLive;
    var tenant, deployment := RowKey(0, "tenant"), RowKey(0, "deployment");
    SomeBudgetIsGranted(tenant, deployment);
    run, steps := [EMPTY], [];
    b := ReserveLive(EMPTY, SomeSettings(), tenant, deployment, 0, "tenant", 0, 0).1.value;
    run, steps := LiveReservationExtendsRun(run, steps, SomeSettings(), tenant, deployment, 0, "tenant", 0, 0);
    ChargeFits(run[2], b, 0, 0, false, 30 * DAY);
    ChargeFits(run[2], b, 0, 0, false, 30 * DAY + 1);
    SettlementIsNeverExceeded(run, steps, 2, 2, b, 0, 0, true, 0);
    ConservativeCharge(b, 0, 0, 0);
  }

  lemma ConservativeCharge(b: LiveBudget, input: nat, output: nat, now: int)
    ensures Charge(b, input, output, true, now) == Some((b.tokens, b.cost))
  {}

  class LiveLedger {
    const tables: BudgetTables

    constructor (t: BudgetTables)
      ensures tables == t
    {
      tables := t;
    }

    /** Settles the two rows one after the other; one already settled is left alone. */
    method Settle(b: LiveBudget, tokens: int, cost: int) returns (error: Option<Error>)
      modifies tables
      ensures Reply(tables.Contents(), error) == SettleBoth(old(tables.Contents()), b, tokens, cost)
    {
      var windows, rows := tables.windows, tables.rows;
      var keys := [b.tenant, b.deployment];
      var i := 0;
      error := None;
      while i < 2 && error.None?
        invariant 0 <= i <= 2
        invariant i == 0 ==> tables.Contents() == old(tables.Contents()) && error.None?
        invariant i == 1 ==> Reply(tables.Contents(), error) == SettleOne(old(tables.Contents()), b.tenant, tokens, cost)
        invariant i == 2 ==>
                    var first := SettleOne(old(tables.Contents()), b.tenant, tokens, cost);
                    first.error.None? && Reply(tables.Contents(), error) == SettleOne(first.ledger, b.deployment, tokens, cost)
      {
        if keys[i] in tables.rows && tables.rows[keys[i]].status == Reserved {
          error := tables.ReconcileBudget(keys[i], tokens, cost);
        }
        i := i + 1;
      }
      if error.Some? { tables.windows, tables.rows := windows, rows; }
    }
  }
}
