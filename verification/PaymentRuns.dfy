/** Runs of the payment commands, and what holds in every one of them. */
module PaymentRuns {
  import opened Common
  import opened Payments
  import opened PaymentRules
  import opened PaymentSteps
  import Actions

  datatype Step =
    | RequestStep(request: nat, total: int)   // an acceptance created the payment request
    | PrepareStep(request: nat, account: string)
    | ReplaceStep(request: nat, expected: nat, account: string, now: int)
    | DispatchStep(link: LinkKey, account: string, answer: Answer, now: int)
    | ActionStep(link: LinkKey, op: Actions.Op)
    | ObserveStep(event: Event, now: int)
    | ReplayStep(batch: seq<EventKey>, now: int)
    | ReconcileStep(request: nat, account: string, found: seq<Found>, fetched: Option<Fetched>, flushes: bool, now: int)

  function NewRequest(db: Tables, p: nat, total: int): Tables {
    if p in db.requests then db
    else db.(requests := db.requests[p := Request(total, CreationPending, None, 1)])
  }

  ghost function Apply(db: Tables, step: Step): Outcome {
    match step
    case RequestStep(p, total) => Done(NewRequest(db, p, total))
    case PrepareStep(p, account) => Prepare(db, p, account)
    case ReplaceStep(p, e, account, now) => Replace(db, p, e, account, now)
    case DispatchStep(k, account, answer, now) => Dispatch(db, k, account, answer, now)
    case ActionStep(k, op) => ActionCall(db, k, op)
    case ObserveStep(e, now) => Observe(db, db.links, e, now)
    case ReplayStep(batch, now) => Replay(db, batch, now)
    case ReconcileStep(p, account, found, fetched, flushes, now) => Reconcile(db, p, account, found, fetched, flushes, now)
  }

  /** A failed call is rolled back, unless its worker commits after the failure. */
  ghost function After(db: Tables, step: Step, commitsFailure: bool): Tables {
    var r := Apply(db, step);
    if r.Done? || commitsFailure then r.db else db
  }

  datatype Call = Call(step: Step, commitsFailure: bool)

  ghost predicate IsRun(run: seq<Tables>, calls: seq<Call>) {
    && |run| == |calls| + 1
    && run[0] == EMPTY
    && forall i :: 0 <= i < |calls| ==> run[i + 1] == After(run[i], calls[i].step, calls[i].commitsFailure)
  }

  lemma NewRequestKeeps(db: Tables, p: nat, total: int)
    requires Inv(db)
    ensures Quiet(db, NewRequest(db, p, total))
  {
    hide NumberedOk, ActionsOk, UniqueOk, ObservationsOk;
    EventsSame(db.observations);
  }

  lemma StepKeeps(db: Tables, step: Step, commitsFailure: bool)
    requires Inv(db)
    ensures Keeps(db, After(db, step, commitsFailure))
  {
    hide Inv, Keeps, Quiet, NewRequest, Prepare, Replace, Dispatch, ActionCall, Observe, Replay, Reconcile;
    SameIsQuiet(db);
    QuietKeeps(db, db);
    var b := Apply(db, step).db;
    match step
    case RequestStep(p, total) => NewRequestKeeps(db, p, total); QuietKeeps(db, b);
    case PrepareStep(p, account) => PrepareKeeps(db, p, account); QuietKeeps(db, b);
    case ReplaceStep(p, e, account, now) => ReplaceKeeps(db, p, e, account, now); QuietKeeps(db, b);
    case DispatchStep(k, account, answer, now) => DispatchKeeps(db, k, account, answer, now); QuietKeeps(db, b);
    case ActionStep(k, op) => ActionCallKeeps(db, k, op); QuietKeeps(db, b);
    case ObserveStep(e, now) => ObserveKeeps(db, db.links, e, now);
    case ReplayStep(batch, now) => ReplayKeeps(db, batch, now);
    case ReconcileStep(p, account, found, fetched, flushes, now) => ReconcileKeeps(db, p, account, found, fetched, flushes, now);
  }

  lemma {:induction false} ReachableInv(run: seq<Tables>, calls: seq<Call>, i: nat)
    requires IsRun(run, calls) && i < |run|
    ensures Inv(run[i])
  {
    hide Apply;
    if i > 0 {
      ReachableInv(run, calls, i - 1);
      StepKeeps(run[i - 1], calls[i - 1].step, calls[i - 1].commitsFailure);
    }
  }

  /** A request never loses its total, and events once recorded stay as they came. */
  lemma {:induction false} RowsStay(run: seq<Tables>, calls: seq<Call>, i: nat, j: nat)
    requires IsRun(run, calls) && i <= j < |run|
    ensures RequestsKept(run[i].requests, run[j].requests) && EventsKept(run[i].observations, run[j].observations)
  {
    hide Apply, After, Inv, Justified;
    if i < j {
      RowsStay(run, calls, i, j - 1);
      ReachableInv(run, calls, j - 1);
      StepKeeps(run[j - 1], calls[j - 1].step, calls[j - 1].commitsFailure);
    }
  }

  // ---------------------------------------------------------------- paid is justified and permanent

  /** Whenever a request is paid, there is a step at which it became paid, and right after that
      step a verified, associated capture of one of its links carries the link's reference,
      amount and currency, the request's total, and the link's own non-empty order id. */
  lemma {:induction false} PaidIsJustified(run: seq<Tables>, calls: seq<Call>, i: nat, p: nat)
    requires IsRun(run, calls) && i < |run| && IsPaid(run[i].requests, p)
    ensures exists j: nat :: j < i && BecomesPaid(run, j, p) && run[j + 1].requests[p] == run[i].requests[p]
  {
    hide Apply, Inv, Justified, After;
    var j := i - 1;
    ReachableInv(run, calls, j);
    var call := calls[j];
    StepKeeps(run[j], call.step, call.commitsFailure);
    if IsPaid(run[j].requests, p) {
      PaidIsJustified(run, calls, j, p);
    } else {
      assert PaidNow(run[j].requests, run[i].requests, p);
      assert BecomesPaid(run, j, p);
    }
  }

  /** Step j pays the request, with its evidence in place right after. */
  ghost predicate BecomesPaid(run: seq<Tables>, j: nat, p: nat)
    requires j + 1 < |run|
  {
    !IsPaid(run[j].requests, p) && IsPaid(run[j + 1].requests, p) && Justified(run[j + 1], p)
  }

  /** Once paid, a request's row never changes again: not its status, not the time it was paid,
      not its row version. */
  lemma PaidForever(run: seq<Tables>, calls: seq<Call>, i: nat, j: nat, p: nat)
    requires IsRun(run, calls) && i <= j < |run| && IsPaid(run[i].requests, p)
    ensures p in run[j].requests && run[j].requests[p] == run[i].requests[p]
  {
    hide Apply;
    RowsStay(run, calls, i, j);
  }

  /** Delivering a recorded event again, whatever it now contains and whether or not the
      failure is committed, changes nothing. */
  lemma RedeliveryChangesNothing(run: seq<Tables>, calls: seq<Call>, i: nat, j: nat, e: Event, now: int, commitsFailure: bool)
    requires IsRun(run, calls) && i <= j < |run|
    requires e.key in run[i].observations
    ensures After(run[j], ObserveStep(e, now), commitsFailure) == run[j]
  {
    hide IsRun;
    RowsStay(run, calls, i, j);
  }

  /** Every link asks for exactly its request's total, a request has at most three links, they
      are numbered 1..n, and no two links share a provider id. */
  lemma LinksAreBounded(run: seq<Tables>, calls: seq<Call>, i: nat, p: nat)
    requires IsRun(run, calls) && i < |run| && p in run[i].requests
    ensures var links := run[i].links; var n := MaxOf(NumbersOf(links, p));
            && n <= MAX_LINKS
            && (forall k: nat :: LinkKey(p, k) in links <==> 1 <= k <= n)
            && (forall k: nat :: LinkKey(p, k) in links ==> links[LinkKey(p, k)].amount == run[i].requests[p].total)
            && (forall j, k :: j in links && k in links && links[j].providerLink.Some? && links[j].providerLink == links[k].providerLink ==> j == k)
  {
    hide IsRun;
    ReachableInv(run, calls, i);
    LinksOfOne(run[i].requests, run[i].links, p);
  }

  lemma LinksOfOne(requests: map<nat, Request>, links: map<LinkKey, Link>, p: nat)
    requires LinksOk(requests, links) && NumberedOk(links)
    ensures MaxOf(NumbersOf(links, p)) <= MAX_LINKS
    ensures forall k: nat :: LinkKey(p, k) in links <==> 1 <= k <= MaxOf(NumbersOf(links, p))
  {
    var n := MaxOf(NumbersOf(links, p));
    if n > 0 {
      assert n in NumbersOf(links, p);
      assert LinkKey(p, n) in links;
    }
    forall k: nat ensures LinkKey(p, k) in links <==> 1 <= k <= n {
      if LinkKey(p, k) in links { assert LinkKey(p, k).number in NumbersOf(links, p); }
    }
  }

  /** A link is replaced exactly when the request is the one the caller read, is not collected
      or under review, and its latest link was closed by the provider; a closed request then
      pends again, and there is a fourth link under no circumstances. */
  lemma ReplacementIff(db: Tables, p: nat, expected: nat, account: string, now: int)
    requires Inv(db)
    ensures var n := MaxOf(NumbersOf(db.links, p)); var reply := Replace(db, p, expected, account, now);
            && (reply.Done? <==>
                  && p in db.requests && db.requests[p].rowVersion == expected && db.requests[p].status !in {Paid, Reversed, ReviewRequired}
                  && n >= 1 && db.links[LinkKey(p, n)].status in {Lapsed, Closed}
                  && (n < MAX_LINKS || ActiveNumbers(db.links, p) != {}))
            && (reply.Done? ==> p in reply.db.requests && reply.db.requests[p].status in {CreationPending, Pending})
  {
    hide Actions.RowOk, ObservationsOk, UniqueOk, LinksOk, NumberedOk, ActionsOk;
    LinkNumbers(db.requests, db.links, db.actions, p);
  }

  lemma LinkNumbers(requests: map<nat, Request>, links: map<LinkKey, Link>, actions: map<LinkKey, Actions.Action>, p: nat)
    requires LinksOk(requests, links) && NumberedOk(links) && ActionsOk(links, actions)
    ensures var n := MaxOf(NumbersOf(links, p)); n <= MAX_LINKS && (n >= 1 <==> LinkKey(p, n) in links)
    ensures ActiveNumbers(links, p) != {} ==> LinkKey(p, MaxOf(ActiveNumbers(links, p))) in actions
  {
    LinksOfOne(requests, links, p);
    var active := ActiveNumbers(links, p);
    if active != {} { assert MaxOf(active) in active; }
  }

  // ---------------------------------------------------------------- exactly when an event pays

  /** What a caller can check before delivering an event. */
  ghost predicate WillPay(db: Tables, e: Event, p: nat) {
    && e.key.environment == TEST && e.verified && e.key !in db.observations
    && p in db.requests && db.requests[p].status in {Pending, ReviewRequired, Expired}
    && IsPaying(e.kind)
    && (exists k :: k in db.links && k.request == p && e.linkId != "" && db.links[k].providerLink == Some(e.linkId) && Matches(k, db.links[k], e))
    && e.paymentId != "" && (e.paymentId in db.charges ==> db.charges[e.paymentId].captured)
    && (e.paymentId !in db.charges ==> e.captured && 0 < db.requests[p].total <= MAX_AMOUNT)
  }

  lemma FoundHere(links: map<LinkKey, Link>, id: string, k: LinkKey)
    requires UniqueOk(links) && k in links && links[k].providerLink == Some(id) && id != ""
    ensures Find(links, id) == Some(k)
  {}

  /** A direct observation pays its request exactly under that condition. */
  lemma ObservationPaysIff(db: Tables, e: Event, p: nat, now: int)
    requires Inv(db) && !IsPaid(db.requests, p)
    ensures IsPaid(Observe(db, db.links, e, now).db.requests, p) <==> WillPay(db, e, p)
  {
    hide Inv, Observe, WillPay;
    if WillPay(db, e, p) { WillPayPays(db, e, p, now); }
    if IsPaid(Observe(db, db.links, e, now).db.requests, p) { PaidByWillPay(db, e, p, now); }
  }

  lemma WillPayPays(db: Tables, e: Event, p: nat, now: int)
    requires Inv(db) && WillPay(db, e, p)
    ensures Observe(db, db.links, e, now).Done? && IsPaid(Observe(db, db.links, e, now).db.requests, p)
  {
    hide Inv, Find, Matches, Drive, Recorded;
    var k :| k in db.links && k.request == p && db.links[k].providerLink == Some(e.linkId) && Matches(k, db.links[k], e);
    LinkIsSound(db, k);
    FoundHere(db.links, e.linkId, k);
    MatchTerms(k, db.links[k], e);
    RecordedHere(db, e, Some(k), now);
    DrivePays(Recorded(db, e, Some(k), now), k, e, ChargeOf(db, e, Some(k)), now);
  }

  lemma LinkIsSound(db: Tables, k: LinkKey)
    requires Inv(db) && k in db.links
    ensures UniqueOk(db.links) && k.request in db.requests
    ensures db.links[k].amount == db.requests[k.request].total && db.links[k].currency == INR
  {}

  lemma MatchTerms(k: LinkKey, link: Link, e: Event)
    requires Matches(k, link, e)
    ensures e.amount == Some(link.amount) && e.currency == link.currency
  {}

  /** A matching event with a charge pays exactly when it is a capture of a payable request. */
  lemma DrivePays(db: Tables, k: LinkKey, e: Event, charge: Option<Charge>, now: int)
    requires k in db.links && k.request in db.requests && db.requests[k.request].status != Paid
    ensures IsPaid(Drive(db, k, e, charge, now).db.requests, k.request) <==>
              IsPaying(e.kind) && charge.Some? && charge.value.captured && db.requests[k.request].status in {Pending, ReviewRequired, Expired}
    ensures IsPaid(Drive(db, k, e, charge, now).db.requests, k.request) ==> Drive(db, k, e, charge, now).Done?
  {}

  lemma DrivePaysNoOther(db: Tables, k: LinkKey, e: Event, charge: Option<Charge>, now: int)
    requires k in db.links && k.request in db.requests
    ensures forall p :: p != k.request ==> (IsPaid(Drive(db, k, e, charge, now).db.requests, p) <==> IsPaid(db.requests, p))
  {
    hide MayMove;
  }

  lemma ReviewPaysNothing(db: Tables, k: LinkKey, s: LinkStatus, now: int)
    requires k in db.links && k.request in db.requests
    ensures forall p :: IsPaid(Review(db, k, s, now).db.requests, p) ==> IsPaid(db.requests, p)
  {}

  lemma PaidByWillPay(db: Tables, e: Event, p: nat, now: int)
    requires Inv(db) && !IsPaid(db.requests, p) && IsPaid(Observe(db, db.links, e, now).db.requests, p)
    ensures WillPay(db, e, p)
  {
    hide Inv, Find, Matches, Drive, Recorded, Review;
    FindIsLink(db.links, e.linkId);
    var link := Find(db.links, e.linkId);
    RecordedHere(db, e, link, now);
    if link.Some? {
      var k := link.value;
      LinkIsSound(db, k);
      ReviewPaysNothing(Recorded(db, e, link, now), k, NeedsReview, now);
      MatchTermsIf(k, db.links[k], e);
      FindNeedsId(db.links, e.linkId);
      if IsPaid(db.requests, k.request) { PaidDriveKeeps(Recorded(db, e, link, now), k, e, ChargeOf(db, e, link), now); }
      else { DrivePays(Recorded(db, e, link, now), k, e, ChargeOf(db, e, link), now); }
      DrivePaysNoOther(Recorded(db, e, link, now), k, e, ChargeOf(db, e, link), now);
    }
  }

  lemma MatchTermsIf(k: LinkKey, link: Link, e: Event)
    ensures Matches(k, link, e) ==> e.amount == Some(link.amount) && e.currency == link.currency
  {}

  lemma FindNeedsId(links: map<LinkKey, Link>, id: string)
    ensures Find(links, id).Some? ==> id != ""
  {}

  lemma PaidDriveKeeps(db: Tables, k: LinkKey, e: Event, charge: Option<Charge>, now: int)
    requires k in db.links && IsPaid(db.requests, k.request)
    ensures Drive(db, k, e, charge, now).db.requests == db.requests
  {}

  // ---------------------------------------------------------------- the captured flag

  /** A stored charge never changes its captured flag. */
  ghost predicate FlagsKept(a: map<string, Charge>, b: map<string, Charge>) {
    forall c :: c in a ==> c in b && b[c].captured == a[c].captured
  }

  lemma FlagsTrans(a: map<string, Charge>, b: map<string, Charge>, c: map<string, Charge>)
    requires FlagsKept(a, b) && FlagsKept(b, c)
    ensures FlagsKept(a, c)
  {}

  lemma MoveCharges()
    ensures forall db: Tables, p: nat, target: Status, now: int :: p in db.requests ==> Move(db, p, target, now).db.charges == db.charges
  {}

  lemma DriveCharges(db: Tables, k: LinkKey, e: Event, charge: Option<Charge>, now: int)
    requires k in db.links && k.request in db.requests
    ensures Drive(db, k, e, charge, now).db.charges == db.charges
    ensures Review(db, k, NeedsReview, now).db.charges == db.charges
    ensures Review(db, k, UnknownOutcome, now).db.charges == db.charges
  {
    hide Move;
    MoveCharges();
  }

  lemma ObserveFlags(db: Tables, stored: map<LinkKey, Link>, e: Event, now: int)
    ensures FlagsKept(db.charges, Observe(db, stored, e, now).db.charges)
  {
    hide Find, Matches, Drive, Review;
    var link := Find(stored, e.linkId);
    if link.Some? && link.value in db.links && link.value.request in db.requests {
      DriveCharges(Recorded(db, e, link, now), link.value, e, ChargeOf(db, e, link), now);
    }
  }

  lemma AdoptCharges(db: Tables, key: EventKey, k: LinkKey, now: int)
    requires key in db.observations && k in db.links && k.request in db.requests
    ensures Adopt(db, key, k, now).db.charges == db.charges
  {
    hide Move;
    MoveCharges();
  }

  lemma AssociateFlags(db: Tables, key: EventKey, k: LinkKey)
    requires key in db.observations
    ensures FlagsKept(db.charges, Associate(db, key, k).charges)
  {}

  lemma ReplayOneFlags(db: Tables, key: EventKey, now: int)
    ensures FlagsKept(db.charges, ReplayOne(db, key, now).db.charges)
  {
    hide Owner, Adopt, Associate, IsExact;
    if key in db.observations && db.observations[key].state == Unmatched {
      var owner := Owner(db.links, db.observations[key].event);
      if owner.Some? && owner.value in db.links && owner.value.request in db.requests {
        AssociatedHere(db, key, owner.value);
        AssociateFlags(db, key, owner.value);
        AdoptCharges(Associate(db, key, owner.value), key, owner.value, now);
      }
    }
  }

  lemma {:induction false} ReplayFlags(db: Tables, batch: seq<EventKey>, now: int)
    ensures FlagsKept(db.charges, Replay(db, batch, now).db.charges)
  {
    hide ReplayOne;
    if batch != [] {
      ReplayFlags(db, batch[..|batch| - 1], now);
      ReplayOneFlags(Replay(db, batch[..|batch| - 1], now).db, batch[|batch| - 1], now);
    }
  }

  lemma IdentifyCharges(db: Tables, k: LinkKey, found: seq<Found>, now: int)
    requires k in db.links && k.request in db.requests
    ensures Identify(db, k, found, now).db.charges == db.charges
  {
    hide Review, LastMatch, IsFree;
    ReviewCharges(db, k, now);
  }

  lemma ReviewCharges(db: Tables, k: LinkKey, now: int)
    requires k in db.links && k.request in db.requests
    ensures Review(db, k, UnknownOutcome, now).db.charges == db.charges
    ensures Review(db, k, NeedsReview, now).db.charges == db.charges
  {}

  lemma ReconcileFlags(db: Tables, p: nat, account: string, found: seq<Found>, fetched: Option<Fetched>, flushes: bool, now: int)
    ensures FlagsKept(db.charges, Reconcile(db, p, account, found, fetched, flushes, now).db.charges)
  {
    hide Observe, Identify, Reconciled;
    var k := LinkKey(p, MaxOf(NumbersOf(db.links, p)));
    if p in db.requests && k in db.links {
      IdentifyCharges(db, k, found, now);
      var b := Identify(db, k, found, now).db;
      if fetched.Some? { ObserveFlags(b, if flushes then b.links else db.links, Reconciled(fetched.value, account, db.requests[p].total), now); }
    }
  }

  lemma LinkCallsCharges(db: Tables, p: nat, expected: nat, account: string, now: int)
    ensures Prepare(db, p, account).db.charges == db.charges
    ensures Replace(db, p, expected, account, now).db.charges == db.charges
  {
    hide Move, MaxOf;
    MoveCharges();
  }

  lemma FailCharges(db: Tables, k: LinkKey, s: LinkStatus, op: Actions.Op, now: int)
    requires k in db.actions && k in db.links && k.request in db.requests
    ensures Fail(db, k, s, op, now).db.charges == db.charges
  {
    hide Move, Actions.Apply;
    MoveCharges();
  }

  lemma SettleCharges(before: Tables, db: Tables, k: LinkKey, answer: Answer, now: int)
    requires k in db.actions && k in db.links && k.request in db.requests && before.charges == db.charges
    ensures Settle(before, db, k, answer, now).db.charges == db.charges
  {
    hide Move, Fail, Valid, IsFree, Actions.Apply;
    MoveCharges();
    FailCharges(db, k, UnknownOutcome, Actions.MarkUnknown, now);
    FailCharges(db, k, NeedsReview, Actions.MarkReview, now);
  }

  lemma DispatchCharges(db: Tables, k: LinkKey, account: string, answer: Answer, now: int)
    ensures Dispatch(db, k, account, answer, now).db.charges == db.charges
  {
    hide Settle, Actions.Apply;
    if k in db.actions && k in db.links && k.request in db.requests {
      SettleCharges(db, WithActionRow(db, k, Actions.Apply(db.actions[k], Actions.Begin).row), k, answer, now);
    }
  }

  lemma StepFlags(db: Tables, step: Step, commitsFailure: bool)
    ensures FlagsKept(db.charges, After(db, step, commitsFailure).charges)
  {
    hide Prepare, Replace, Dispatch, Observe, Replay, Reconcile;
    match step
    case RequestStep(p, total) =>
    case PrepareStep(p, account) => LinkCallsCharges(db, p, 0, account, 0);
    case ReplaceStep(p, e, account, now) => LinkCallsCharges(db, p, e, account, now);
    case DispatchStep(k, account, answer, now) => DispatchCharges(db, k, account, answer, now);
    case ActionStep(k, op) =>
    case ObserveStep(e, now) => ObserveFlags(db, db.links, e, now);
    case ReplayStep(batch, now) => ReplayFlags(db, batch, now);
    case ReconcileStep(p, account, found, fetched, flushes, now) => ReconcileFlags(db, p, account, found, fetched, flushes, now);
  }

  lemma {:induction false} FlagsStay(run: seq<Tables>, calls: seq<Call>, i: nat, j: nat)
    requires IsRun(run, calls) && i <= j < |run|
    ensures FlagsKept(run[i].charges, run[j].charges)
  {
    hide After;
    if i < j {
      FlagsStay(run, calls, i, j - 1);
      StepFlags(run[j - 1], calls[j - 1].step, calls[j - 1].commitsFailure);
      FlagsTrans(run[i].charges, run[j - 1].charges, run[j].charges);
    }
  }

  /** The order of events matters: once a provider payment was recorded before its capture, no
      event that names it pays a request directly any more. */
  lemma UncapturedNeverPaysDirectly(run: seq<Tables>, calls: seq<Call>, i: nat, j: nat, e: Event, p: nat, now: int)
    requires IsRun(run, calls) && i <= j < |run|
    requires e.paymentId in run[i].charges && !run[i].charges[e.paymentId].captured
    ensures IsPaid(Observe(run[j], run[j].links, e, now).db.requests, p) ==> IsPaid(run[j].requests, p)
  {
    hide IsRun, Observe, Inv;
    FlagsStay(run, calls, i, j);
    ReachableInv(run, calls, j);
    if !IsPaid(run[j].requests, p) { ObservationPaysIff(run[j], e, p, now); }
  }

  // ---------------------------------------------------------------- exactly when a replay pays

  ghost predicate ReplayWillPay(db: Tables, key: EventKey, p: nat) {
    && key in db.observations && db.observations[key].state == Unmatched
    && p in db.requests && db.requests[p].status in {Pending, ReviewRequired, Expired}
    && var e := db.observations[key].event;
       && IsPaying(e.kind) && e.paymentId != "" && e.orderId != ""
       && (exists k :: k in db.links && k.request == p && Owner(db.links, e) == Some(k) && IsExact(k, db.links[k], e)
                       && (db.links[k].providerOrder.Some? ==> db.links[k].providerOrder == Some(e.orderId)))
  }

  /** Replaying one orphan pays a request exactly under that condition, which unlike the one for
      a direct event does not mention the captured flag. */
  lemma ReplayPaysIff(db: Tables, key: EventKey, p: nat, now: int)
    requires Inv(db) && !IsPaid(db.requests, p)
    ensures IsPaid(ReplayOne(db, key, now).db.requests, p) <==> ReplayWillPay(db, key, p)
    ensures ReplayWillPay(db, key, p) ==> ReplayOne(db, key, now).Done?
  {
    hide Inv, Owner, Adopt, Associate, IsExact;
    if key in db.observations && db.observations[key].state == Unmatched {
      var row := db.observations[key];
      var owner := Owner(db.links, row.event);
      if owner.Some? && owner.value in db.links && owner.value.request in db.requests && IsExact(owner.value, db.links[owner.value], row.event) {
        var k := owner.value;
        AssociatedHere(db, key, k);
        AssociatedCharge(db, key, k);
        LinkIsSound(db, k);
        NoChargeWithoutId(db, key);
        AdoptPaysIff(Associate(db, key, k), key, k, now);
        ExactTerms(k, db.links[k], row.event);
      }
    }
  }

  lemma ExactTerms(k: LinkKey, link: Link, e: Event)
    requires IsExact(k, link, e)
    ensures e.amount == Some(link.amount)
  {}

  lemma NoChargeWithoutId(db: Tables, key: EventKey)
    requires Inv(db) && key in db.observations
    ensures db.observations[key].event.paymentId == "" ==> db.observations[key].charge.None?
  {
    assert ObservationOk(db.links, db.charges, key, db.observations[key]);
  }

  lemma AssociatedCharge(db: Tables, key: EventKey, k: LinkKey)
    requires key in db.observations
    ensures var row := db.observations[key];
            Associate(db, key, k).observations[key].charge == if row.event.paymentId != "" then Some(row.event.paymentId) else row.charge
  {}

  lemma AdoptPaysIff(db: Tables, key: EventKey, k: LinkKey, now: int)
    requires key in db.observations && k in db.links && k.request in db.requests
    ensures forall p :: !IsPaid(db.requests, p) ==>
              (IsPaid(Adopt(db, key, k, now).db.requests, p) <==>
                 var e := db.observations[key].event;
                 && p == k.request && IsPaying(e.kind) && db.observations[key].charge.Some?
                 && e.amount == Some(db.requests[p].total) && e.orderId != ""
                 && (db.links[k].providerOrder.Some? ==> db.links[k].providerOrder == Some(e.orderId))
                 && db.requests[p].status in {Pending, ReviewRequired, Expired})
    ensures !IsPaid(db.requests, k.request) && IsPaid(Adopt(db, key, k, now).db.requests, k.request) ==> Adopt(db, key, k, now).Done?
  {}

  /** So a replay can pay a request on a charge recorded as not captured, where a direct
      observation of the same event would have put it under review. */
  lemma ReplayPaysUncaptured(db: Tables, key: EventKey, p: nat, now: int)
    requires Inv(db) && ReplayWillPay(db, key, p)
    requires var id := db.observations[key].event.paymentId; id in db.charges && !db.charges[id].captured
    ensures ReplayOne(db, key, now).Done?
    ensures var after := ReplayOne(db, key, now).db; var id := db.observations[key].event.paymentId;
            IsPaid(after.requests, p) && id in after.charges && !after.charges[id].captured
  {
    hide Inv, ReplayOne, Owner, IsExact;
    ReplayPaysIff(db, key, p, now);
    ReplayOneFlags(db, key, now);
  }
}
