/** What every run of the payment commands keeps, and why a payment may be called paid. */
module PaymentRules {
  import opened Common
  import opened Payments
  import Actions

  // ---------------------------------------------------------------- invariant

  ghost predicate LinksOk(requests: map<nat, Request>, links: map<LinkKey, Link>) {
    forall k :: k in links ==>
      && k.request in requests && 1 <= k.number <= MAX_LINKS
      && links[k].amount == requests[k.request].total && links[k].currency == INR
  }

  /** Attempts of one request are numbered without gaps. */
  ghost predicate NumberedOk(links: map<LinkKey, Link>) {
    forall k, j: nat :: k in links && 1 <= j <= k.number ==> LinkKey(k.request, j) in links
  }

  ghost predicate ActionsOk(links: map<LinkKey, Link>, actions: map<LinkKey, Actions.Action>) {
    && (forall k :: k in links <==> k in actions)
    && (forall k :: k in actions ==> Actions.RowOk(actions[k]))
  }

  ghost predicate UniqueOk(links: map<LinkKey, Link>) {
    && (forall j, k :: j in links && k in links && links[j].providerLink.Some? && links[j].providerLink == links[k].providerLink ==> j == k)
    && (forall k :: k in links ==> links[k].providerLink != Some("") && links[k].providerOrder != Some(""))
  }

  ghost predicate ObservationsOk(links: map<LinkKey, Link>, charges: map<string, Charge>, observations: map<EventKey, Observation>) {
    forall e :: e in observations ==> ObservationOk(links, charges, e, observations[e])
  }

  /** A row keeps a verified event under its own key; it is associated exactly when it names a
      link, waits for a retry exactly when it is unmatched, and any charge it names exists. */
  predicate ObservationOk(links: map<LinkKey, Link>, charges: map<string, Charge>, e: EventKey, row: Observation) {
    && row.event.key == e && row.event.verified && e.environment == TEST
    && (row.state == Associated <==> row.link.Some?)
    && (row.state == Unmatched <==> row.retryAt.Some?)
    && (row.link.Some? ==> row.link.value in links)
    && (row.charge.Some? ==> row.charge.value == row.event.paymentId != "" && row.charge.value in charges)
  }

  ghost predicate PaidOk(requests: map<nat, Request>) {
    forall p :: p in requests ==> (requests[p].status == Paid ==> requests[p].paidAt.Some?) && requests[p].status != Reversed
  }

  ghost predicate Inv(db: Tables) {
    && LinksOk(db.requests, db.links) && NumberedOk(db.links) && ActionsOk(db.links, db.actions) && UniqueOk(db.links)
    && ObservationsOk(db.links, db.charges, db.observations) && PaidOk(db.requests)
  }

  // ---------------------------------------------------------------- evidence

  /** A verified, associated capture of exactly this link, for the whole total, with the
      link's own non-empty order. */
  predicate Justifies(row: Observation, k: LinkKey, link: Link, total: int) {
    && row.event.verified && row.state == Associated && row.link == Some(k)
    && IsPaying(row.event.kind)
    && IsExact(k, link, row.event)
    && row.event.amount == Some(total)
    && row.event.orderId != "" && link.providerOrder == Some(row.event.orderId)
  }

  ghost predicate Justified(db: Tables, p: nat) {
    exists e, k ::
      && e in db.observations && k in db.links && k.request == p && p in db.requests
      && Justifies(db.observations[e], k, db.links[k], db.requests[p].total)
  }

  /** Under review or collected: no link call is allowed any more. */
  predicate IsHeld(s: Status) { s in {ReviewRequired, Paid} }

  /** A request row keeps its total, a paid row does not change at all, and a row under review
      can only become paid. */
  predicate RowKept(a: Request, b: Request) {
    b.total == a.total && (a.status == Paid ==> b == a) && (IsHeld(a.status) ==> IsHeld(b.status))
  }

  ghost predicate RequestsKept(a: map<nat, Request>, b: map<nat, Request>) {
    forall p :: p in a ==> p in b && RowKept(a[p], b[p])
  }

  /** Recorded events stay recorded as they came. */
  ghost predicate EventsKept(a: map<EventKey, Observation>, b: map<EventKey, Observation>) {
    forall e :: e in a ==> e in b && b[e].event == a[e].event
  }

  predicate IsPaid(requests: map<nat, Request>, p: nat) { p in requests && requests[p].status == Paid }

  /** The request became paid between the two states. */
  predicate PaidNow(a: map<nat, Request>, b: map<nat, Request>, p: nat) { !IsPaid(a, p) && IsPaid(b, p) }

  /** A change of the tables that keeps the rules and pays nothing without evidence. */
  ghost predicate Keeps(a: Tables, b: Tables) {
    && Inv(b) && RequestsKept(a.requests, b.requests) && EventsKept(a.observations, b.observations)
    && (forall p :: PaidNow(a.requests, b.requests, p) ==> Justified(b, p))
  }

  /** A change that pays nothing. */
  ghost predicate Quiet(a: Tables, b: Tables) {
    && Inv(b) && RequestsKept(a.requests, b.requests) && EventsKept(a.observations, b.observations)
    && (forall p :: !PaidNow(a.requests, b.requests, p))
  }

  lemma QuietKeeps(a: Tables, b: Tables)
    requires Quiet(a, b)
    ensures Keeps(a, b)
  {}

  /** A request paid between a and c was paid on one side of b. */
  lemma PaidOnce(a: map<nat, Request>, b: map<nat, Request>, c: map<nat, Request>)
    requires RequestsKept(a, b)
    ensures forall p :: PaidNow(a, c, p) && !PaidNow(b, c, p) ==> PaidNow(a, b, p)
  {}

  lemma KeepsAfterQuiet(a: Tables, b: Tables, c: Tables)
    requires Quiet(a, b) && Keeps(b, c)
    ensures Keeps(a, c)
  {
    hide Inv, Justified, PaidNow;
    PaidOnce(a.requests, b.requests, c.requests);
  }

  lemma QuietTrans(a: Tables, b: Tables, c: Tables)
    requires Quiet(a, b) && Quiet(b, c)
    ensures Quiet(a, c)
  {
    hide Inv, PaidNow;
    PaidOnce(a.requests, b.requests, c.requests);
  }

  lemma SameIsQuiet(db: Tables)
    requires Inv(db)
    ensures Quiet(db, db)
  {
    hide Inv;
  }

  // ---------------------------------------------------------------- small changes

  lemma MoveRow(p: Request, target: Status, now: int)
    requires p.status == Paid ==> p.paidAt.Some?
    requires p.status != Reversed && target != Reversed
    ensures var t := Transition(p, target, now);
            t.Some? ==> RowKept(p, t.value) && (t.value.status == Paid ==> t.value.paidAt.Some?) && t.value.status != Reversed
                        && t.value.status in {p.status, target}
  {}

  lemma MoveRequests(requests: map<nat, Request>, p: nat, row: Request)
    requires p in requests && PaidOk(requests) && RowKept(requests[p], row)
    requires (row.status == Paid ==> row.paidAt.Some?) && row.status != Reversed
    ensures PaidOk(requests[p := row]) && RequestsKept(requests, requests[p := row])
  {}

  lemma MoveLinks(requests: map<nat, Request>, links: map<LinkKey, Link>, p: nat, row: Request)
    requires p in requests && LinksOk(requests, links) && row.total == requests[p].total
    ensures LinksOk(requests[p := row], links)
  {}

  lemma EventsSame(a: map<EventKey, Observation>)
    ensures EventsKept(a, a)
  {}

  /** A status move keeps the rules; only a move to Paid pays, and only its own request. */
  lemma MoveKeeps(db: Tables, p: nat, target: Status, now: int)
    requires Inv(db) && p in db.requests && target != Reversed
    ensures Move(db, p, target, now).Raised? ==> Move(db, p, target, now).db == db
    ensures var b := Move(db, p, target, now).db;
            && Inv(b) && RequestsKept(db.requests, b.requests) && EventsKept(db.observations, b.observations)
            && (forall q :: PaidNow(db.requests, b.requests, q) ==> q == p && target == Paid)
            && b.links == db.links && b.observations == db.observations
  {
    hide NumberedOk, ActionsOk, UniqueOk, ObservationsOk, LinksOk, EventsKept, MayMove;
    EventsSame(db.observations);
    if db.requests[p].status == Paid { assert db.requests[p].paidAt.Some?; }
    MoveRow(db.requests[p], target, now);
    var t := Transition(db.requests[p], target, now);
    if t.Some? {
      MoveRequests(db.requests, p, t.value);
      MoveLinks(db.requests, db.links, p, t.value);
    }
  }

  /** Rewriting a link row keeps the rules if its terms stay and its provider id is free. */
  lemma LinkRowKeeps(db: Tables, k: LinkKey, row: Link)
    requires Inv(db) && k in db.links
    requires row.amount == db.links[k].amount && row.currency == db.links[k].currency
    requires row.providerLink != Some("") && row.providerOrder != Some("")
    requires row.providerLink.Some? ==> IsFree(db.links, k, row.providerLink.value)
    ensures Quiet(db, WithLink(db, k, row))
  {
    hide PaidOk, ObservationsOk, UniqueOk, IsFree, Actions.RowOk;
    UniqueRow(db.links, k, row);
    GrowObservations(db.links, WithLink(db, k, row).links, db.charges, db.charges, db.observations);
  }

  lemma UniqueRow(links: map<LinkKey, Link>, k: LinkKey, row: Link)
    requires UniqueOk(links) && k in links
    requires row.providerLink != Some("") && row.providerOrder != Some("")
    requires row.providerLink.Some? ==> IsFree(links, k, row.providerLink.value)
    ensures UniqueOk(links[k := row])
  {}

  lemma GrowObservations(links: map<LinkKey, Link>, links': map<LinkKey, Link>, charges: map<string, Charge>, charges': map<string, Charge>,
                         observations: map<EventKey, Observation>)
    requires ObservationsOk(links, charges, observations)
    requires links.Keys <= links'.Keys && charges.Keys <= charges'.Keys
    ensures ObservationsOk(links', charges', observations)
  {
    forall e | e in observations ensures ObservationOk(links', charges', e, observations[e]) {
      assert ObservationOk(links, charges, e, observations[e]);
    }
  }

  lemma OwnIdIsFree(links: map<LinkKey, Link>, k: LinkKey)
    requires UniqueOk(links) && k in links && links[k].providerLink.Some?
    ensures IsFree(links, k, links[k].providerLink.value)
  {}

  lemma LinkStatusKeeps(db: Tables, k: LinkKey, s: LinkStatus)
    requires Inv(db) && k in db.links
    ensures Quiet(db, WithLinkStatus(db, k, s))
  {
    hide LinksOk, NumberedOk, ActionsOk, ObservationsOk, PaidOk, Quiet, IsFree;
    if db.links[k].providerLink.Some? { OwnIdIsFree(db.links, k); }
    LinkRowKeeps(db, k, db.links[k].(status := s));
  }

  lemma LinkOrderKeeps(db: Tables, k: LinkKey, order: Option<string>)
    requires Inv(db) && k in db.links && order != Some("")
    ensures Quiet(db, WithLink(db, k, db.links[k].(providerOrder := order)))
  {
    hide LinksOk, NumberedOk, ActionsOk, ObservationsOk, PaidOk, Quiet, IsFree;
    if db.links[k].providerLink.Some? { OwnIdIsFree(db.links, k); }
    LinkRowKeeps(db, k, db.links[k].(providerOrder := order));
  }

  lemma ActionRowKeeps(db: Tables, k: LinkKey, a: Actions.Action)
    requires Inv(db) && k in db.actions && Actions.RowOk(a)
    ensures Quiet(db, WithActionRow(db, k, a))
  {
    hide LinksOk, NumberedOk, UniqueOk, ObservationsOk, PaidOk, Actions.RowOk;
  }

  lemma CallRowKeeps(db: Tables, k: LinkKey, op: Actions.Op)
    requires Inv(db) && k in db.actions
    ensures Quiet(db, WithActionRow(db, k, Actions.Apply(db.actions[k], op).row))
  {
    hide LinksOk, NumberedOk, UniqueOk, ObservationsOk, PaidOk, Quiet, Actions.RowOk, Actions.Apply;
    Actions.CallKeepsRow(db.actions[k], op);
    ActionRowKeeps(db, k, Actions.Apply(db.actions[k], op).row);
  }

  /** A move that is not to Paid is quiet. */
  lemma MoveIsQuiet(db: Tables, p: nat, target: Status, now: int)
    requires Inv(db) && p in db.requests && target != Reversed && target != Paid
    ensures Quiet(db, Move(db, p, target, now).db)
  {
    hide Inv, Move;
    MoveKeeps(db, p, target, now);
  }

  lemma LinkHasRequest(db: Tables, k: LinkKey)
    requires Inv(db) && k in db.links
    ensures k.request in db.requests && k in db.actions && db.links[k].amount == db.requests[k.request].total
  {}

  lemma ReviewIsQuiet(db: Tables, k: LinkKey, s: LinkStatus, now: int)
    requires Inv(db) && k in db.links && k.request in db.requests
    ensures Quiet(db, Review(db, k, s, now).db)
  {
    hide Inv, Move, Quiet, WithLinkStatus;
    LinkStatusKeeps(db, k, s);
    QuietInv(db, WithLinkStatus(db, k, s));
    MoveIsQuiet(WithLinkStatus(db, k, s), k.request, ReviewRequired, now);
    QuietTrans(db, WithLinkStatus(db, k, s), Review(db, k, s, now).db);
  }

  lemma QuietInv(a: Tables, b: Tables)
    requires Quiet(a, b)
    ensures Inv(b) && forall p :: p in a.requests ==> p in b.requests && b.requests[p].total == a.requests[p].total
  {
    hide Inv;
  }
}
