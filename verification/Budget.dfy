/** The analysis budget ledger: daily windows whose running totals summarise reservation rows. */
module Budget {
  import opened Common
  import opened Sums

  datatype WindowKey = WindowKey(scope: string, day: int)

  /** A reservation key is unique for its tenant. */
  datatype RowKey = RowKey(tenant: nat, key: string)

  datatype Window = Window(
    tokenLimit: int, costLimit: Option<int>,
    tokensReserved: int, tokensUsed: int, costReserved: int, costUsed: int)

  datatype RowStatus = Reserved | Reconciled
  datatype Row = Row(
    window: WindowKey, workflow: nat, tokens: int, cost: int, tokensUsed: int, costUsed: int, status: RowStatus)

  datatype Ledger = Ledger(windows: map<WindowKey, Window>, rows: map<RowKey, Row>)

  const EMPTY := Ledger(map[], map[])

  datatype Error = Invalid | NotFound | Conflict | Exhausted | Exceeded
  datatype Reply = Reply(ledger: Ledger, error: Option<Error>)

  datatype Request = Request(
    key: RowKey, workflow: nat, tokens: int, cost: int, window: WindowKey, tokenLimit: int, costLimit: Option<int>)

  // ---------------------------------------------------------------- reserving

  predicate IsWellFormed(q: Request) {
    && 0 < q.tokens <= q.tokenLimit
    && 0 <= q.cost && (q.costLimit.Some? ==> q.cost <= q.costLimit.value)
  }

  function Opened(l: Ledger, q: Request): map<WindowKey, Window> {
    if q.window in l.windows then l.windows
    else l.windows[q.window := Window(q.tokenLimit, q.costLimit, 0, 0, 0, 0)]
  }

  predicate Fits(w: Window, q: Request) {
    && w.tokensReserved + w.tokensUsed + q.tokens <= w.tokenLimit
    && (w.costLimit.Some? ==> w.costReserved + w.costUsed + q.cost <= w.costLimit.value)
  }

  function Charged(w: Window, q: Request): Window {
    w.(tokensReserved := w.tokensReserved + q.tokens, costReserved := w.costReserved + q.cost)
  }

  function NewRow(q: Request): Row { Row(q.window, q.workflow, q.tokens, q.cost, 0, 0, Reserved) }

  predicate IsReplay(r: Row, q: Request) { r.workflow == q.workflow && r.tokens == q.tokens && r.cost == q.cost }

  function Reserve(l: Ledger, q: Request): Reply {
    if !IsWellFormed(q) then Reply(l, Some(Invalid))
    else
      var windows := Opened(l, q);
      var w := windows[q.window];
      if w.tokenLimit != q.tokenLimit || w.costLimit != q.costLimit then Reply(l, Some(Conflict))
      else if q.key in l.rows then
        if IsReplay(l.rows[q.key], q) then Reply(Ledger(windows, l.rows), None) else Reply(l, Some(Conflict))
      else if !Fits(w, q) then Reply(l, Some(Exhausted))
      else Reply(Ledger(windows[q.window := Charged(w, q)], l.rows[q.key := NewRow(q)]), None)
  }

  /** Settles a reservation with what was really used. */
  function Reconcile(l: Ledger, key: RowKey, tokens: int, cost: int): Reply {
    if tokens < 0 || cost < 0 then Reply(l, Some(Invalid))
    else if key !in l.rows then Reply(l, Some(NotFound))
    else
      var r := l.rows[key];
      if r.status != Reserved then Reply(l, Some(Conflict))
      else if tokens > r.tokens || cost > r.cost then Reply(l, Some(Exceeded))
      else if r.window !in l.windows then Reply(l, Some(NotFound))
      else Reply(Ledger(l.windows[r.window := Released(l.windows[r.window], r, tokens, cost)],
                        l.rows[key := r.(tokensUsed := tokens, costUsed := cost, status := Reconciled)]), None)
  }

  function Released(w: Window, r: Row, tokens: int, cost: int): Window {
    w.(tokensReserved := w.tokensReserved - r.tokens, costReserved := w.costReserved - r.cost,
       tokensUsed := w.tokensUsed + tokens, costUsed := w.costUsed + cost)
  }

  // ---------------------------------------------------------------- what the totals mean

  datatype Measure = TokensReserved | TokensUsed | CostReserved | CostUsed

  function Field(w: Window, m: Measure): int {
    match m
    case TokensReserved => w.tokensReserved
    case TokensUsed => w.tokensUsed
    case CostReserved => w.costReserved
    case CostUsed => w.costUsed
  }

  /** What one row contributes to a total of a window. */
  function Part(r: Row, k: WindowKey, m: Measure): int {
    if r.window != k then 0
    else
      match m
      case TokensReserved => if r.status == Reserved then r.tokens else 0
      case TokensUsed => if r.status == Reconciled then r.tokensUsed else 0
      case CostReserved => if r.status == Reserved then r.cost else 0
      case CostUsed => if r.status == Reconciled then r.costUsed else 0
  }

  function Column(rows: map<RowKey, Row>, k: WindowKey, m: Measure): map<RowKey, int> {
    map i | i in rows :: Part(rows[i], k, m)
  }

  /** Every running total is the sum over the rows it summarises. */
  ghost predicate Balanced(l: Ledger) {
    forall k, m :: k in l.windows ==> Field(l.windows[k], m) == Total(Column(l.rows, k, m))
  }

  predicate Within(w: Window) {
    && w.tokensReserved + w.tokensUsed <= w.tokenLimit
    && (w.costLimit.Some? ==> w.costReserved + w.costUsed <= w.costLimit.value)
  }

  ghost predicate Inv(l: Ledger) {
    && Balanced(l)
    && (forall k :: k in l.windows ==> Within(l.windows[k]))
    && (forall i :: i in l.rows ==> l.rows[i].window in l.windows)
  }

  // ---------------------------------------------------------------- steps

  lemma OpenKeepsBalance(l: Ledger, q: Request)
    requires Inv(l) && IsWellFormed(q)
    ensures Inv(Ledger(Opened(l, q), l.rows))
  {
    if q.window !in l.windows {
      forall m: Measure ensures Total(Column(l.rows, q.window, m)) == 0 {
        TotalZero(Column(l.rows, q.window, m));
      }
    }
  }

  lemma ChargeKeepsBalance(l: Ledger, q: Request)
    requires Inv(l) && q.window in l.windows && q.key !in l.rows && Fits(l.windows[q.window], q)
    ensures Inv(Ledger(l.windows[q.window := Charged(l.windows[q.window], q)], l.rows[q.key := NewRow(q)]))
  {
    var windows, rows := l.windows[q.window := Charged(l.windows[q.window], q)], l.rows[q.key := NewRow(q)];
    forall k, m | k in windows ensures Field(windows[k], m) == Total(Column(rows, k, m)) {
      TotalInsert(Column(l.rows, k, m), q.key, Part(NewRow(q), k, m));
      assert Column(rows, k, m) == Column(l.rows, k, m)[q.key := Part(NewRow(q), k, m)];
    }
  }

  lemma ReserveKeepsInv(l: Ledger, q: Request)
    requires Inv(l)
    ensures Inv(Reserve(l, q).ledger)
  {
    hide Inv, Fits, Charged, NewRow, IsReplay;
    if IsWellFormed(q) {
      OpenKeepsBalance(l, q);
      var o := Ledger(Opened(l, q), l.rows);
      if q.key !in l.rows && Fits(o.windows[q.window], q) { ChargeKeepsBalance(o, q); }
    }
  }

  lemma ReconcileKeepsInv(l: Ledger, key: RowKey, tokens: int, cost: int)
    requires Inv(l)
    ensures Inv(Reconcile(l, key, tokens, cost).ledger)
  {
    var reply := Reconcile(l, key, tokens, cost);
    if reply.error.None? {
      var r := l.rows[key];
      var row := r.(tokensUsed := tokens, costUsed := cost, status := Reconciled);
      SettleKeepsBalance(l, key, row, tokens, cost);
    }
  }

  lemma SettleKeepsBalance(l: Ledger, key: RowKey, row: Row, tokens: int, cost: int)
    requires Balanced(l) && key in l.rows && l.rows[key].status == Reserved && l.rows[key].window in l.windows
    requires row == l.rows[key].(tokensUsed := tokens, costUsed := cost, status := Reconciled)
    ensures Balanced(Ledger(l.windows[row.window := Released(l.windows[row.window], l.rows[key], tokens, cost)], l.rows[key := row]))
  {
    var windows, rows := l.windows[row.window := Released(l.windows[row.window], l.rows[key], tokens, cost)], l.rows[key := row];
    forall k, m | k in windows ensures Field(windows[k], m) == Total(Column(rows, k, m)) {
      TotalUpdate(Column(l.rows, k, m), key, Part(row, k, m));
      assert Column(rows, k, m) == Column(l.rows, k, m)[key := Part(row, k, m)];
    }
  }

  // ---------------------------------------------------------------- runs

  datatype Step = ReserveStep(request: Request) | ReconcileStep(key: RowKey, tokens: int, cost: int)

  function Apply(l: Ledger, step: Step): Ledger {
    match step
    case ReserveStep(q) => Reserve(l, q).ledger
    case ReconcileStep(key, tokens, cost) => Reconcile(l, key, tokens, cost).ledger
  }

  ghost predicate IsRun(run: seq<Ledger>, steps: seq<Step>) {
    && |run| == |steps| + 1
    && run[0] == EMPTY
    && forall i :: 0 <= i < |steps| ==> run[i + 1] == Apply(run[i], steps[i])
  }

  lemma {:induction false} ReachableInv(run: seq<Ledger>, steps: seq<Step>, i: nat)
    requires IsRun(run, steps) && i < |run|
    ensures Inv(run[i])
  {
    hide Reserve, Reconcile;
    if i > 0 {
      ReachableInv(run, steps, i - 1);
      match steps[i - 1]
      case ReserveStep(q) => ReserveKeepsInv(run[i - 1], q);
      case ReconcileStep(key, tokens, cost) => ReconcileKeepsInv(run[i - 1], key, tokens, cost);
    }
  }

  /** In every run each window's reserved and used totals are the sums over its reserved and its
      reconciled rows, and together they never exceed the window's limits. */
  lemma Conservation(run: seq<Ledger>, steps: seq<Step>, i: nat, k: WindowKey)
    requires IsRun(run, steps) && i < |run| && k in run[i].windows
    ensures var w, rows := run[i].windows[k], run[i].rows;
            && w.tokensReserved == Total(Column(rows, k, TokensReserved))
            && w.tokensUsed == Total(Column(rows, k, TokensUsed))
            && w.costReserved == Total(Column(rows, k, CostReserved))
            && w.costUsed == Total(Column(rows, k, CostUsed))
            && w.tokensReserved + w.tokensUsed <= w.tokenLimit
            && (w.costLimit.Some? ==> w.costReserved + w.costUsed <= w.costLimit.value)
  {
    hide IsRun;
    ReachableInv(run, steps, i);
    var l := run[i];
    assert Field(l.windows[k], TokensReserved) == Total(Column(l.rows, k, TokensReserved));
    assert Field(l.windows[k], TokensUsed) == Total(Column(l.rows, k, TokensUsed));
    assert Field(l.windows[k], CostReserved) == Total(Column(l.rows, k, CostReserved));
    assert Field(l.windows[k], CostUsed) == Total(Column(l.rows, k, CostUsed));
  }

  lemma StepKeepsRows(l: Ledger, step: Step, key: RowKey)
    requires key in l.rows
    ensures key in Apply(l, step).rows
    ensures var a, b := l.rows[key], Apply(l, step).rows[key];
            b.window == a.window && b.workflow == a.workflow && b.tokens == a.tokens && b.cost == a.cost
            && (a.status == Reconciled ==> b == a)
  {}

  lemma {:induction false} RowsStay(run: seq<Ledger>, steps: seq<Step>, i: nat, j: nat, key: RowKey)
    requires IsRun(run, steps) && i <= j < |run| && key in run[i].rows
    ensures key in run[j].rows
    ensures var a, b := run[i].rows[key], run[j].rows[key];
            b.window == a.window && b.workflow == a.workflow && b.tokens == a.tokens && b.cost == a.cost
            && (a.status == Reconciled ==> b == a)
  {
    hide Apply;
    if i < j {
      RowsStay(run, steps, i, j - 1, key);
      StepKeepsRows(run[j - 1], steps[j - 1], key);
    }
  }

  /** Repeating a reservation key, however much later and even after it was settled, changes no
      row and no total; with other values it is refused. */
  lemma RepeatedReservation(run: seq<Ledger>, steps: seq<Step>, i: nat, j: nat, q: Request)
    requires IsRun(run, steps) && i <= j < |run| && q.key in run[i].rows
    ensures var reply := Reserve(run[j], q);
            && reply.ledger.rows == run[j].rows
            && (forall k :: k in run[j].windows ==> k in reply.ledger.windows && reply.ledger.windows[k] == run[j].windows[k])
            && (!IsReplay(run[i].rows[q.key], q) ==> reply.error.Some?)
  {
    hide IsRun;
    RowsStay(run, steps, i, j, q.key);
  }

  /** A reservation is settled at most once, and only within what was reserved. */
  lemma SettledOnce(run: seq<Ledger>, steps: seq<Step>, i: nat, j: nat, key: RowKey, tokens: int, cost: int)
    requires IsRun(run, steps) && i <= j < |run| && key in run[i].rows && run[i].rows[key].status == Reconciled
    ensures Reconcile(run[j], key, tokens, cost).ledger == run[j] && Reconcile(run[j], key, tokens, cost).error.Some?
  {
    hide IsRun;
    RowsStay(run, steps, i, j, key);
  }

  // ---------------------------------------------------------------- what one call writes

  /** What is already spoken for in a window, nothing in a new one. */
  function TokensTaken(l: Ledger, k: WindowKey): int { if k in l.windows then l.windows[k].tokensReserved + l.windows[k].tokensUsed else 0 }
  function CostTaken(l: Ledger, k: WindowKey): int { if k in l.windows then l.windows[k].costReserved + l.windows[k].costUsed else 0 }

  /** A reservation goes through exactly if it is within its own limits, its window has the same
      limits, and its key is new with room left in the window, or known with the same values. */
  lemma ReservationIff(l: Ledger, q: Request)
    ensures Reserve(l, q).error.None? <==>
              && 0 < q.tokens <= q.tokenLimit && 0 <= q.cost && (q.costLimit.Some? ==> q.cost <= q.costLimit.value)
              && (q.window in l.windows ==> l.windows[q.window].tokenLimit == q.tokenLimit && l.windows[q.window].costLimit == q.costLimit)
              && if q.key in l.rows then
                   l.rows[q.key].workflow == q.workflow && l.rows[q.key].tokens == q.tokens && l.rows[q.key].cost == q.cost
                 else
                   && TokensTaken(l, q.window) + q.tokens <= q.tokenLimit
                   && (q.costLimit.Some? ==> CostTaken(l, q.window) + q.cost <= q.costLimit.value)
    ensures Reserve(l, q).error.Some? ==> Reserve(l, q).ledger == l
    ensures Reserve(l, q).error == Some(Invalid) <==>
              !(0 < q.tokens <= q.tokenLimit && 0 <= q.cost && (q.costLimit.Some? ==> q.cost <= q.costLimit.value))
    ensures Reserve(l, q).error == Some(Exhausted) ==>
              q.key !in l.rows && (TokensTaken(l, q.window) + q.tokens > q.tokenLimit
                                   || (q.costLimit.Some? && CostTaken(l, q.window) + q.cost > q.costLimit.value))
    ensures Reserve(l, q).error.Some? ==> Reserve(l, q).error.value in {Invalid, Conflict, Exhausted}
    ensures q.key in l.rows ==> Reserve(l, q).error != Some(Exhausted)
  {}

  /** A new key adds one row and takes its amounts out of its window, and of no other one. */
  lemma ReservationOutcome(l: Ledger, q: Request)
    requires Reserve(l, q).error.None? && q.key !in l.rows
    ensures var b := Reserve(l, q).ledger;
            && b.rows == l.rows[q.key := Row(q.window, q.workflow, q.tokens, q.cost, 0, 0, Reserved)]
            && q.window in b.windows && b.windows == l.windows[q.window := b.windows[q.window]]
            && var w := b.windows[q.window];
            && w.tokenLimit == q.tokenLimit && w.costLimit == q.costLimit
            && w.tokensReserved + w.tokensUsed == TokensTaken(l, q.window) + q.tokens
            && w.costReserved + w.costUsed == CostTaken(l, q.window) + q.cost
            && (q.window in l.windows ==> w.tokensUsed == l.windows[q.window].tokensUsed && w.costUsed == l.windows[q.window].costUsed)
            && (q.window !in l.windows ==> w.tokensUsed == 0 && w.costUsed == 0)
  {}

  /** A settlement goes through exactly once per reservation and within it. It records what was
      used on the row, and turns the window's reservation into that use. */
  lemma SettlementIff(l: Ledger, key: RowKey, tokens: int, cost: int)
    requires Inv(l)
    ensures var reply := Reconcile(l, key, tokens, cost);
            && (reply.error.None? <==>
                  key in l.rows && l.rows[key].status == Reserved && 0 <= tokens <= l.rows[key].tokens && 0 <= cost <= l.rows[key].cost)
            && (reply.error.Some? ==>
                  && reply.ledger == l
                  && reply.error.value == if tokens < 0 || cost < 0 then Invalid else if key !in l.rows then NotFound
                                          else if l.rows[key].status == Reconciled then Conflict else Exceeded)
            && (reply.error.None? ==>
                  var r, b := l.rows[key], reply.ledger;
                  && b.rows == l.rows[key := Row(r.window, r.workflow, r.tokens, r.cost, tokens, cost, Reconciled)]
                  && r.window in l.windows && r.window in b.windows && b.windows == l.windows[r.window := b.windows[r.window]]
                  && var w, w' := l.windows[r.window], b.windows[r.window];
                  && w'.tokenLimit == w.tokenLimit && w'.costLimit == w.costLimit
                  && w'.tokensReserved == w.tokensReserved - r.tokens && w'.tokensUsed == w.tokensUsed + tokens
                  && w'.costReserved == w.costReserved - r.cost && w'.costUsed == w.costUsed + cost)
  {
    hide Balanced;
  }

  // ---------------------------------------------------------------- the tables

  class BudgetTables {
    var windows: map<WindowKey, Window>
    var rows: map<RowKey, Row>

    ghost function Contents(): Ledger reads this { Ledger(windows, rows) }

    constructor ()
      ensures Contents() == EMPTY
    {
      windows, rows := map[], map[];
    }

    method ReserveBudget(q: Request) returns (error: Option<Error>)
      modifies this
      ensures Reply(Contents(), error) == Reserve(old(Contents()), q)
    {
      if q.tokens <= 0 || q.tokens > q.tokenLimit { return Some(Invalid); }
      if q.cost < 0 || (q.costLimit.Some? && q.cost > q.costLimit.value) { return Some(Invalid); }
      var saved := windows;
      if q.window !in windows {
        windows := windows[q.window := Window(q.tokenLimit, q.costLimit, 0, 0, 0, 0)];
      }
      var w := windows[q.window];
      if w.tokenLimit != q.tokenLimit || w.costLimit != q.costLimit { return Some(Conflict); }
      if q.key in rows {
        if !IsReplay(rows[q.key], q) { windows := saved; return Some(Conflict); }
        return None;
      }
      if w.tokensReserved + w.tokensUsed + q.tokens > w.tokenLimit { windows := saved; return Some(Exhausted); }
      if w.costLimit.Some? && w.costReserved + w.costUsed + q.cost > w.costLimit.value { windows := saved; return Some(Exhausted); }
      w := w.(tokensReserved := w.tokensReserved + q.tokens);
      w := w.(costReserved := w.costReserved + q.cost);
      windows := windows[q.window := w];
      rows := rows[q.key := Row(q.window, q.workflow, q.tokens, q.cost, 0, 0, Reserved)];
      return None;
    }

    method ReconcileBudget(key: RowKey, tokens: int, cost: int) returns (error: Option<Error>)
      modifies this
      ensures Reply(Contents(), error) == Reconcile(old(Contents()), key, tokens, cost)
    {
      if tokens < 0 || cost < 0 { return Some(Invalid); }
      if key !in rows { return Some(NotFound); }
      var r := rows[key];
      if r.status != Reserved { return Some(Conflict); }
      if tokens > r.tokens || cost > r.cost { return Some(Exceeded); }
      if r.window !in windows { return Some(NotFound); }
      var w := windows[r.window];
      w := w.(tokensReserved := w.tokensReserved - r.tokens);
      w := w.(costReserved := w.costReserved - r.cost);
      w := w.(tokensUsed := w.tokensUsed + tokens);
      w := w.(costUsed := w.costUsed + cost);
      windows := windows[r.window := w];
      rows := rows[key := r.(tokensUsed := tokens, costUsed := cost, status := Reconciled)];
      return None;
    }
  }
}
