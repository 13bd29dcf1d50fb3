/** Payment collection: payment requests, their provider links, the provider's observations,
    and the commands that drive one payment status.

    A reference is a digest of the request and attempt number, identified here with that pair. */
module Payments {
  import opened Common
  import Actions

  // ---------------------------------------------------------------- rows

  datatype Status = CreationPending | Pending | Paid | Expired | Cancelled | ReviewRequired | Reversed
  datatype LinkStatus = Ready | Created | UnknownOutcome | NeedsReview | Lapsed | Closed

  datatype LinkKey = LinkKey(request: nat, number: nat)
  datatype Reference = Own(key: LinkKey) | Foreign(text: string)

  datatype Request = Request(total: int, status: Status, paidAt: Option<int>, rowVersion: nat)
  datatype Link = Link(
    account: string, amount: int, currency: string, status: LinkStatus,
    providerLink: Option<string>, providerOrder: Option<string>)

  /** A provider payment, keyed by the provider's payment id. */
  datatype Charge = Charge(link: Option<LinkKey>, captured: bool)

  datatype EventKey = EventKey(account: string, environment: string, id: string)
  datatype Kind = LinkPaid | PaymentCaptured | PaymentAuthorized | LinkExpired | LinkCancelled | OtherKind

  /** A provider event as parsed: absent texts are empty, and `captured` says whether the
      observed status is captured or paid. */
  datatype Event = Event(
    key: EventKey, kind: Kind, verified: bool, linkId: string, paymentId: string, orderId: string,
    reference: Option<Reference>, amount: Option<int>, currency: string, captured: bool)

  datatype Association = Associated | Unmatched | ManualReview
  datatype Observation = Observation(
    event: Event, link: Option<LinkKey>, charge: Option<string>, state: Association, retryAt: Option<int>)

  datatype Tables = Tables(
    requests: map<nat, Request>, links: map<LinkKey, Link>, actions: map<LinkKey, Actions.Action>,
    charges: map<string, Charge>, observations: map<EventKey, Observation>)

  const EMPTY := Tables(map[], map[], map[], map[], map[])

  /** A call returns, or raises with the rows as the session then holds them. */
  datatype Outcome = Done(db: Tables) | Raised(db: Tables)

  const TEST: string := "test"
  const INR: string := "INR"
  const MAX_LINKS: nat := 3
  const MAX_AMOUNT: int := 100_000_000
  const RETRY_FOR: int := 86400

  // ---------------------------------------------------------------- the status machine

  const MOVES: set<(Status, Status)> :=
    {(CreationPending, Pending), (Pending, Paid), (ReviewRequired, Paid), (Pending, Expired), (Pending, Cancelled),
     (Expired, Pending), (Cancelled, Pending), (Expired, Paid), (Paid, Reversed)}

  predicate MayMove(from: Status, to: Status) {
    if to == ReviewRequired then from in {CreationPending, Pending, ReviewRequired} else (from, to) in MOVES
  }

  /** The new row, or nothing if the move is refused. Moves out of a collected payment are
      ignored rather than refused. */
  function Transition(p: Request, target: Status, now: int): Option<Request> {
    if p.status == target || p.status == Reversed || (p.status == Paid && target != Reversed) then Some(p)
    else if !MayMove(p.status, target) then None
    else Some(p.(status := target, rowVersion := p.rowVersion + 1,
                 paidAt := if target == Paid && p.paidAt.None? then Some(now) else p.paidAt))
  }

  /** Moves a request's status in the tables. */
  function Move(db: Tables, p: nat, target: Status, now: int): Outcome
    requires p in db.requests
  {
    var moved := Transition(db.requests[p], target, now);
    if moved.None? then Raised(db) else Done(db.(requests := db.requests[p := moved.value]))
  }

  function WithLink(db: Tables, k: LinkKey, row: Link): Tables { db.(links := db.links[k := row]) }

  function WithLinkStatus(db: Tables, k: LinkKey, s: LinkStatus): Tables
    requires k in db.links
  {
    WithLink(db, k, db.links[k].(status := s))
  }

  /** Puts a link and its request under review. */
  function Review(db: Tables, k: LinkKey, s: LinkStatus, now: int): Outcome
    requires k in db.links && k.request in db.requests
  {
    Move(WithLinkStatus(db, k, s), k.request, ReviewRequired, now)
  }

  // ---------------------------------------------------------------- link preparation

  function NumbersOf(links: map<LinkKey, Link>, p: nat): set<nat> {
    set k | k in links && k.request == p :: k.number
  }

  function ActiveNumbers(links: map<LinkKey, Link>, p: nat): set<nat> {
    set k | k in links && k.request == p && links[k].status == Created :: k.number
  }

  ghost function Prepare(db: Tables, p: nat, account: string): Outcome {
    if p !in db.requests || db.requests[p].status !in {CreationPending, Pending} then Raised(db)
    else if LinkKey(p, MaxOf(ActiveNumbers(db.links, p))) in db.actions && ActiveNumbers(db.links, p) != {} then Done(db)
    else
      var k := LinkKey(p, MaxOf(NumbersOf(db.links, p)) + 1);
      if k.number > MAX_LINKS then Raised(db)
      else Done(db.(
        actions := if k in db.actions then db.actions else db.actions[k := Actions.NEW_ACTION],
        links := db.links[k := Link(account, db.requests[p].total, INR, Ready, None, None)]))
  }

  /** Replaces a link its provider has closed. */
  ghost function Replace(db: Tables, p: nat, expected: nat, account: string, now: int): Outcome {
    if p !in db.requests || db.requests[p].rowVersion != expected then Raised(db)
    else if db.requests[p].status in {Paid, Reversed} then Raised(db)
    else
      var latest := LinkKey(p, MaxOf(NumbersOf(db.links, p)));
      if latest !in db.links || db.links[latest].status !in {Lapsed, Closed} then Raised(db)
      else if db.requests[p].status in {Expired, Cancelled} then
        var pending := Move(db, p, Pending, now);
        if pending.Raised? then pending else Prepare(pending.db, p, account)
      else Prepare(db, p, account)
  }

  // ---------------------------------------------------------------- dispatch

  /** The provider's answer to a creation request. */
  datatype Answer =
    | Answered(id: string, url: string, amount: Option<int>, currency: string, reference: Reference, order: string)
    | Refused
    | Uncertain

  function Clean(s: string): Option<string> { if s == "" then None else Some(s) }

  predicate Valid(k: LinkKey, link: Link, a: Answer)
    requires a.Answered?
  {
    a.id != "" && a.url != "" && a.amount == Some(link.amount) && a.currency == link.currency && a.reference == Own(k)
  }

  /** Provider link ids are unique in the table. */
  predicate IsFree(links: map<LinkKey, Link>, k: LinkKey, id: string) {
    forall j :: j in links && links[j].providerLink == Some(id) ==> j == k
  }

  function WithActionRow(db: Tables, k: LinkKey, a: Actions.Action): Tables { db.(actions := db.actions[k := a]) }

  ghost function Dispatch(db: Tables, k: LinkKey, account: string, answer: Answer, now: int): Outcome {
    if k !in db.actions || k !in db.links || k.request !in db.requests then Raised(db)
    else if db.actions[k].state == Actions.Succeeded && db.links[k].providerLink.Some? then Done(db)
    else if db.requests[k.request].status !in {CreationPending, Pending} then Raised(db)
    else if account != db.links[k].account then Raised(db)
    else
      var begun := Actions.Apply(db.actions[k], Actions.Begin);
      if begun.Raised? then Raised(WithActionRow(db, k, begun.row))
      else Settle(db, WithActionRow(db, k, begun.row), k, answer, now)
  }

  /** Books the provider's answer; `before` is what a refused database write returns to. */
  ghost function Settle(before: Tables, db: Tables, k: LinkKey, answer: Answer, now: int): Outcome
    requires k in db.actions && k in db.links && k.request in db.requests
  {
    if answer.Uncertain? then Fail(db, k, UnknownOutcome, Actions.MarkUnknown, now)
    else if answer.Refused? || !Valid(k, db.links[k], answer) then Fail(db, k, NeedsReview, Actions.MarkReview, now)
    else if !IsFree(db.links, k, answer.id) then Raised(before)
    else
      var linked := WithLink(db, k, db.links[k].(status := Created, providerLink := Some(answer.id), providerOrder := Clean(answer.order)));
      var moved := Move(linked, k.request, Pending, now);
      if moved.Raised? then moved
      else
        var completed := Actions.Apply(moved.db.actions[k], Actions.Complete);
        var after := WithActionRow(moved.db, k, completed.row);
        if completed.Raised? then Raised(after) else Done(after)
  }

  /** A provider failure: link and request go under review and the call raises. */
  ghost function Fail(db: Tables, k: LinkKey, s: LinkStatus, op: Actions.Op, now: int): Outcome
    requires k in db.actions && k in db.links && k.request in db.requests
  {
    var reviewed := Review(db, k, s, now);
    if reviewed.Raised? then reviewed
    else Raised(WithActionRow(reviewed.db, k, Actions.Apply(reviewed.db.actions[k], op).row))
  }

  /** Any other call on a link's action: an operator's decision, or recovery. */
  ghost function ActionCall(db: Tables, k: LinkKey, op: Actions.Op): Outcome {
    if k !in db.actions || op.Begin? then Raised(db)
    else
      var r := Actions.Apply(db.actions[k], op);
      if r.Done? then Done(WithActionRow(db, k, r.row)) else Raised(WithActionRow(db, k, r.row))
  }

  // ---------------------------------------------------------------- observation

  predicate IsCapture(kind: Kind) { kind in {LinkPaid, PaymentCaptured, PaymentAuthorized} }
  predicate IsPaying(kind: Kind) { kind in {LinkPaid, PaymentCaptured} }

  /** The link with this provider id. */
  ghost function Find(links: map<LinkKey, Link>, id: string): Option<LinkKey> {
    if id != "" && exists k :: k in links && links[k].providerLink == Some(id) then
      var k :| k in links && links[k].providerLink == Some(id);
      Some(k)
    else None
  }

  /** The event speaks for this link: same account, reference, amount, currency and order. */
  predicate Matches(k: LinkKey, link: Link, e: Event) {
    && e.key.account == link.account && e.key.environment == TEST
    && e.reference == Some(Own(k)) && e.amount == Some(link.amount) && e.currency == link.currency
    && (IsCapture(e.kind) ==> e.orderId != "")
    && (link.providerOrder.Some? ==> link.providerOrder == Clean(e.orderId))
  }

  /** The stored or new charge of an event, or nothing if it names none or has no usable
      amount. */
  function ChargeOf(db: Tables, e: Event, link: Option<LinkKey>): Option<Charge> {
    if e.paymentId == "" then None
    else if e.paymentId in db.charges then Some(db.charges[e.paymentId])
    else if e.amount.Some? && 0 < e.amount.value <= MAX_AMOUNT then Some(Charge(link, e.captured))
    else None
  }

  /** The table refuses a charge in another currency. */
  predicate ChargeRefused(db: Tables, e: Event) {
    && e.paymentId != "" && e.paymentId !in db.charges
    && e.amount.Some? && 0 < e.amount.value <= MAX_AMOUNT
    && e.currency != "" && e.currency != INR
  }

  function Recorded(db: Tables, e: Event, link: Option<LinkKey>, now: int): Tables {
    var charge := ChargeOf(db, e, link);
    db.(
      charges := if charge.Some? then db.charges[e.paymentId := charge.value] else db.charges,
      observations := db.observations[e.key := Observation(
        e, link, if charge.Some? then Some(e.paymentId) else None,
        if link.Some? then Associated else Unmatched, if link.Some? then None else Some(now + RETRY_FOR))])
  }

  /** Records one provider event and lets it drive the payment. Links are looked up among the
      stored rows, which may lag behind the session's. */
  ghost function Observe(db: Tables, stored: map<LinkKey, Link>, e: Event, now: int): Outcome {
    if e.key.environment != TEST || !e.verified then Raised(db)
    else if e.key in db.observations then Done(db)
    else
      var link := Find(stored, e.linkId);
      if link.Some? && (link.value !in db.links || link.value.request !in db.requests) then Raised(db)
      else if ChargeRefused(db, e) then Raised(db)
      else
        var recorded := Recorded(db, e, link, now);
        if link.None? then Done(recorded)
        else if !Matches(link.value, db.links[link.value], e) then Review(recorded, link.value, NeedsReview, now)
        else Drive(recorded, link.value, e, ChargeOf(db, e, link), now)
  }

  /** A matching event drives the link and the payment. */
  function Drive(db: Tables, k: LinkKey, e: Event, charge: Option<Charge>, now: int): Outcome
    requires k in db.links && k.request in db.requests
  {
    var db := if IsCapture(e.kind) && db.links[k].providerOrder.None?
              then WithLink(db, k, db.links[k].(providerOrder := Clean(e.orderId))) else db;
    if IsCapture(e.kind) && (charge.None? || !charge.value.captured) then Review(db, k, NeedsReview, now)
    else if IsPaying(e.kind) then Move(db, k.request, Paid, now)
    else if e.kind == LinkExpired then Close(db, k, Lapsed, Expired, now)
    else if e.kind == LinkCancelled then Close(db, k, Closed, Cancelled, now)
    else Done(db)
  }

  function Close(db: Tables, k: LinkKey, s: LinkStatus, target: Status, now: int): Outcome
    requires k in db.links && k.request in db.requests
  {
    var closed := WithLinkStatus(db, k, s);
    if db.requests[k.request].status == Pending then Move(closed, k.request, target, now) else Done(closed)
  }

  // ---------------------------------------------------------------- replay of orphans

  /** An orphan's link, by provider id or else by reference, on the same account. */
  ghost function Owner(links: map<LinkKey, Link>, e: Event): Option<LinkKey> {
    var byId := Find(links, e.linkId);
    if byId.Some? && byId.value in links && links[byId.value].account == e.key.account && e.key.environment == TEST then byId
    else if e.reference.Some? && e.reference.value.Own? && e.reference.value.key in links
            && links[e.reference.value.key].account == e.key.account && e.key.environment == TEST
    then Some(e.reference.value.key)
    else None
  }

  predicate IsExact(k: LinkKey, link: Link, e: Event) {
    e.reference == Some(Own(k)) && e.amount == Some(link.amount) && e.currency == link.currency
  }

  ghost function ReplayOne(db: Tables, key: EventKey, now: int): Outcome {
    if key !in db.observations || db.observations[key].state != Unmatched then Done(db)
    else
      var row := db.observations[key];
      var owner := Owner(db.links, row.event);
      if owner.Some? && owner.value in db.links && owner.value.request in db.requests && IsExact(owner.value, db.links[owner.value], row.event)
      then Adopt(Associate(db, key, owner.value), key, owner.value, now)
      else if row.retryAt.Some? && now >= row.retryAt.value
      then Done(db.(observations := db.observations[key := row.(state := ManualReview, retryAt := None)]))
      else Done(db)
  }

  /** The orphan and its charge now belong to the link. */
  function Associate(db: Tables, key: EventKey, k: LinkKey): Tables
    requires key in db.observations
  {
    var row := db.observations[key];
    var id := row.event.paymentId;
    var charge := if id in db.charges then db.charges[id].(link := Some(k)) else Charge(Some(k), row.event.captured);
    db.(
      charges := if id != "" then db.charges[id := charge] else db.charges,
      observations := db.observations[key := row.(link := Some(k), charge := if id != "" then Some(id) else row.charge,
                                                  state := Associated, retryAt := None)])
  }

  /** An adopted capture pays the request if the amount is its total and the orders agree.
      Unlike a direct observation it does not ask whether the charge was captured. */
  function Adopt(db: Tables, key: EventKey, k: LinkKey, now: int): Outcome
    requires key in db.observations && k in db.links && k.request in db.requests
  {
    var row := db.observations[key];
    var e := row.event;
    if !IsPaying(e.kind) then Done(db)
    else if row.charge.Some? && e.amount == Some(db.requests[k.request].total) then
      var db := if db.links[k].providerOrder.None? then WithLink(db, k, db.links[k].(providerOrder := Clean(e.orderId))) else db;
      if e.orderId != "" && db.links[k].providerOrder == Some(e.orderId)
      then Move(WithLinkStatus(db, k, Created), k.request, Paid, now)
      else Done(db)
    else Review(db, k, NeedsReview, now)
  }

  /** One pass over a batch of orphans; the first failure ends it. */
  ghost function Replay(db: Tables, batch: seq<EventKey>, now: int): Outcome {
    if batch == [] then Done(db)
    else
      var earlier := Replay(db, batch[..|batch| - 1], now);
      if earlier.Raised? then earlier else ReplayOne(earlier.db, batch[|batch| - 1], now)
  }

  // ---------------------------------------------------------------- reconciliation

  datatype Found = Found(id: string, order: string, reference: Reference, amount: Option<int>, currency: string)

  datatype Fetched = Fetched(
    paid: bool, expired: bool, cancelled: bool, amountPaid: int, eventId: string, linkId: string, paymentId: string,
    orderId: string, reference: Option<Reference>, amount: Option<int>, currency: string, captured: bool)

  function LastMatch(found: seq<Found>, k: LinkKey, link: Link): Option<Found> {
    if found == [] then None
    else
      var f := found[|found| - 1];
      if f.reference == Own(k) && f.amount == Some(link.amount) && f.currency == link.currency then Some(f)
      else LastMatch(found[..|found| - 1], k, link)
  }

  function KindOf(f: Fetched, total: int): Kind {
    if f.paid || f.amountPaid == total then LinkPaid
    else if f.expired then LinkExpired
    else if f.cancelled then LinkCancelled
    else OtherKind
  }

  function Reconciled(f: Fetched, account: string, total: int): Event {
    Event(EventKey(account, TEST, f.eventId), KindOf(f, total), true, f.linkId, f.paymentId, f.orderId,
          f.reference, f.amount, f.currency, f.captured)
  }

  /** Asks the provider about the latest link. `flushes` says whether queries see the session's
      unsaved rows. */
  ghost function Reconcile(db: Tables, p: nat, account: string, found: seq<Found>, fetched: Option<Fetched>, flushes: bool, now: int): Outcome {
    var k := LinkKey(p, MaxOf(NumbersOf(db.links, p)));
    if p !in db.requests || k !in db.links || account != db.links[k].account then Raised(db)
    else
      var identified := Identify(db, k, found, now);
      if identified.Raised? then identified
      else if fetched.None? then Raised(identified.db)
      else Observe(identified.db, if flushes then identified.db.links else db.links,
                   Reconciled(fetched.value, account, db.requests[p].total), now)
  }

  /** Recovers the provider id of a link whose creation answer was lost. */
  function Identify(db: Tables, k: LinkKey, found: seq<Found>, now: int): Outcome
    requires k in db.links && k.request in db.requests
  {
    var link := db.links[k];
    if link.providerLink.Some? then Done(db)
    else
      var f := LastMatch(found, k, link);
      if f.None? then Raised(Review(db, k, UnknownOutcome, now).db)
      else if f.value.id != "" && !IsFree(db.links, k, f.value.id) then Raised(db)
      else
        var linked := WithLink(db, k, link.(providerLink := Clean(f.value.id), providerOrder := Clean(f.value.order)));
        if f.value.id == "" then Raised(linked) else Done(linked)
  }
}
