/** What each payment command leaves behind, table by table: which event moves which status, what
    a provider's answer does to a link, and where an orphan ends up. */
module PaymentOutcomes {
  import opened Common
  import opened Payments
  import opened PaymentRules
  import opened PaymentSteps
  import opened PaymentRuns
  import Actions

  // ---------------------------------------------------------------- changes of one table

  /** One request has a new status, one row version on, and its time of payment if it is paid. */
  predicate RequestMoved(a: map<nat, Request>, b: map<nat, Request>, p: nat, status: Status, now: int) {
    && p in a
    && b == a[p := Request(a[p].total, status, if status == Paid && a[p].paidAt.None? then Some(now) else a[p].paidAt, a[p].rowVersion + 1)]
  }

  /** One link has this status and order; its terms and its provider id are as they were. */
  predicate LinkMoved(a: map<LinkKey, Link>, b: map<LinkKey, Link>, k: LinkKey, status: LinkStatus, order: Option<string>) {
    k in a && b == a[k := Link(a[k].account, a[k].amount, a[k].currency, status, a[k].providerLink, order)]
  }

  lemma MoveOutcome(db: Tables, p: nat, target: Status, now: int)
    requires p in db.requests && db.requests[p].status != Reversed
    ensures var r := Move(db, p, target, now); var was := db.requests[p].status;
            && (target == ReviewRequired ==> (r.Done? <==> was in {CreationPending, Pending, ReviewRequired, Paid}))
            && (target == Paid ==> (r.Done? <==> was in {Pending, ReviewRequired, Expired, Paid}))
            && (target == Pending ==> (r.Done? <==> was in {CreationPending, Pending, Expired, Cancelled, Paid}))
            && (target in {Expired, Cancelled} && was == Pending ==> r.Done?)
            && (r.Done? && was !in {target, Paid} && target != Reversed ==> RequestMoved(db.requests, r.db.requests, p, target, now))
            && (r.Raised? || (was in {target, Paid} && target != Reversed) ==> r.db == db)
            && r.db == db.(requests := r.db.requests)
  {}

  // ---------------------------------------------------------------- a provider event

  /** The stored link with the event's link id. */
  predicate Names(links: map<LinkKey, Link>, e: Event, k: LinkKey) {
    k in links && e.linkId != "" && links[k].providerLink == Some(e.linkId)
  }

  predicate MayCapture(kind: Kind) { kind == LinkPaid || kind == PaymentCaptured || kind == PaymentAuthorized }

  /** The event says about the link what the link says about itself. */
  predicate Agrees(k: LinkKey, link: Link, e: Event) {
    && e.key.account == link.account && e.reference == Some(Own(k)) && e.amount == Some(link.amount) && e.currency == link.currency
    && (MayCapture(e.kind) ==> e.orderId != "")
    && (link.providerOrder.Some? ==> link.providerOrder == Some(e.orderId))
  }

  predicate IsUsable(amount: Option<int>) { amount.Some? && 0 < amount.value <= 100_000_000 }

  /** The event names a provider payment whose stored row says captured, or which is new and says
      so itself. */
  predicate IsCaptured(db: Tables, e: Event) {
    && e.paymentId != ""
    && if e.paymentId in db.charges then db.charges[e.paymentId].captured else IsUsable(e.amount) && e.captured
  }

  /** A new provider payment the table refuses: not in rupees. */
  predicate IsForeign(db: Tables, e: Event) {
    e.paymentId != "" && e.paymentId !in db.charges && IsUsable(e.amount) && e.currency != "" && e.currency != "INR"
  }

  predicate IsNews(db: Tables, e: Event) { e.key.environment == "test" && e.verified && e.key !in db.observations && !IsForeign(db, e) }

  /** The event is on record, with its provider payment if it names a usable one. */
  predicate Noted(a: Tables, b: Tables, e: Event, link: Option<LinkKey>, now: int) {
    && b.charges == (if e.paymentId != "" && e.paymentId !in a.charges && IsUsable(e.amount)
                     then a.charges[e.paymentId := Charge(link, e.captured)] else a.charges)
    && b.observations == a.observations[e.key := Observation(
         e, link, if e.paymentId != "" && e.paymentId in b.charges then Some(e.paymentId) else None,
         if link.Some? then Associated else Unmatched, if link.Some? then None else Some(now + 86400))]
    && b.actions == a.actions
  }

  /** The order id a capture teaches a link that has none. */
  predicate IsLearned(was: Option<string>, after: Option<string>, orderId: string) {
    after == if was.Some? || orderId == "" then was else Some(orderId)
  }

  /** Link and request go under review; an expired or cancelled request refuses that. */
  predicate UnderReview(a: Tables, r: Outcome, k: LinkKey, order: Option<string>, now: int) {
    && k.request in a.requests
    && LinkMoved(a.links, r.db.links, k, NeedsReview, order)
    && (r.Raised? <==> a.requests[k.request].status in {Expired, Cancelled})
    && if a.requests[k.request].status in {CreationPending, Pending} then RequestMoved(a.requests, r.db.requests, k.request, ReviewRequired, now)
       else r.db.requests == a.requests
  }

  /** The request is paid; one not yet asked for, or cancelled, refuses that. */
  predicate Pays(a: Tables, r: Outcome, k: LinkKey, now: int) {
    && k.request in a.requests
    && (r.Raised? <==> a.requests[k.request].status in {CreationPending, Cancelled})
    && if a.requests[k.request].status in {Pending, ReviewRequired, Expired} then RequestMoved(a.requests, r.db.requests, k.request, Paid, now)
       else r.db.requests == a.requests
  }

  /** The provider closed the link; a pending request closes with it, any other one stays. */
  predicate Closes(a: Tables, r: Outcome, k: LinkKey, link: LinkStatus, status: Status, now: int) {
    && k in a.links && k.request in a.requests
    && r.Done? && LinkMoved(a.links, r.db.links, k, link, a.links[k].providerOrder)
    && if a.requests[k.request].status == Pending then RequestMoved(a.requests, r.db.requests, k.request, status, now)
       else r.db.requests == a.requests
  }

  /** What a verified event for a known link does, kind by kind. */
  predicate Follows(a: Tables, r: Outcome, k: LinkKey, e: Event, now: int)
    requires k in a.links && k in r.db.links
  {
    var link, after := a.links[k], r.db.links[k];
    && (!Agrees(k, link, e) ==> UnderReview(a, r, k, link.providerOrder, now))
    && (Agrees(k, link, e) && MayCapture(e.kind) && !IsCaptured(a, e) ==>
          UnderReview(a, r, k, after.providerOrder, now) && after.providerOrder == Some(e.orderId))
    && (Agrees(k, link, e) && MayCapture(e.kind) && IsCaptured(a, e) ==>
          && LinkMoved(a.links, r.db.links, k, link.status, Some(e.orderId))
          && if e.kind == PaymentAuthorized then r.Done? && r.db.requests == a.requests else Pays(a, r, k, now))
    && (Agrees(k, link, e) && e.kind == LinkExpired ==> Closes(a, r, k, Lapsed, Expired, now))
    && (Agrees(k, link, e) && e.kind == LinkCancelled ==> Closes(a, r, k, Closed, Cancelled, now))
    && (Agrees(k, link, e) && e.kind == OtherKind ==> r.Done? && r.db.links == a.links && r.db.requests == a.requests)
  }

  lemma AgreesIsMatch(k: LinkKey, link: Link, e: Event)
    requires e.key.environment == TEST && link.providerOrder != Some("")
    ensures Matches(k, link, e) <==> Agrees(k, link, e)
  {}

  lemma NotedOutcome(db: Tables, e: Event, link: Option<LinkKey>, now: int)
    ensures var b := Recorded(db, e, link, now);
            Noted(db, b, e, link, now) && b.links == db.links && b.requests == db.requests
    ensures var c := ChargeOf(db, e, link); IsCaptured(db, e) <==> c.Some? && c.value.captured
  {}

  lemma DriveRecords(db: Tables, k: LinkKey, e: Event, charge: Option<Charge>, now: int)
    requires k in db.links && k.request in db.requests
    ensures var b := Drive(db, k, e, charge, now).db;
            b == db.(links := b.links, requests := b.requests)
    ensures var b := Review(db, k, NeedsReview, now).db;
            b == db.(links := b.links, requests := b.requests)
  {}

  /** A new verified event for a known link is recorded with it, and does to link and request what
      its kind says: exactly an agreeing expiry expires, exactly an agreeing cancellation cancels,
      exactly an agreeing, captured payment pays, and whatever disagrees goes under review. */
  lemma EventOutcome(db: Tables, e: Event, k: LinkKey, now: int)
    requires Inv(db) && IsNews(db, e) && Names(db.links, e, k)
    ensures var r := Observe(db, db.links, e, now);
            Noted(db, r.db, e, Some(k), now) && k in r.db.links && Follows(db, r, k, e, now)
  {
    hide Inv, Find, Matches, Drive, Recorded, Review, Agrees, Noted, Follows;
    LinkIsSound(db, k);
    Sound(db, k);
    FoundHere(db.links, e.linkId, k);
    AgreesIsMatch(k, db.links[k], e);
    NotedOutcome(db, e, Some(k), now);
    var b, charge := Recorded(db, e, Some(k), now), ChargeOf(db, e, Some(k));
    DriveRecords(b, k, e, charge, now);
    SameNoted(db, b, Observe(db, db.links, e, now).db, e, Some(k), now);
    if Agrees(k, db.links[k], e) { DriveOutcome(db, b, k, e, charge, now); } else { MismatchOutcome(db, b, k, e, now); }
  }

  lemma SameNoted(a: Tables, b: Tables, c: Tables, e: Event, link: Option<LinkKey>, now: int)
    requires Noted(a, b, e, link, now)
    ensures c == b.(links := c.links, requests := c.requests) ==> Noted(a, c, e, link, now)
  {}

  lemma Sound(db: Tables, k: LinkKey)
    requires Inv(db) && k in db.links
    ensures db.links[k].providerOrder != Some("") && k.request in db.requests && db.requests[k.request].status != Reversed
  {}

  lemma MismatchOutcome(db: Tables, b: Tables, k: LinkKey, e: Event, now: int)
    requires k in db.links && k.request in db.requests && db.requests[k.request].status != Reversed && !Agrees(k, db.links[k], e)
    requires b.links == db.links && b.requests == db.requests
    ensures k in Review(b, k, NeedsReview, now).db.links && Follows(db, Review(b, k, NeedsReview, now), k, e, now)
  {
    hide Move, Agrees;
    MoveOutcome(WithLinkStatus(b, k, NeedsReview), k.request, ReviewRequired, now);
  }

  lemma DriveOutcome(db: Tables, b: Tables, k: LinkKey, e: Event, charge: Option<Charge>, now: int)
    requires k in db.links && k.request in db.requests && db.requests[k.request].status != Reversed && Agrees(k, db.links[k], e)
    requires b.links == db.links && b.requests == db.requests
    requires IsCaptured(db, e) <==> charge.Some? && charge.value.captured
    ensures k in Drive(b, k, e, charge, now).db.links && Follows(db, Drive(b, k, e, charge, now), k, e, now)
  {
    hide Agrees, IsCaptured, Drive, UnderReview, Pays, Closes;
    AgreesTerms(k, db.links[k], e);
    if MayCapture(e.kind) { CaptureOutcome(db, b, k, e, charge, now); } else { CloseOutcome(db, b, k, e, charge, now); }
  }

  lemma AgreesTerms(k: LinkKey, link: Link, e: Event)
    requires Agrees(k, link, e)
    ensures MayCapture(e.kind) ==> e.orderId != "" && (link.providerOrder.Some? ==> link.providerOrder == Some(e.orderId))
  {}

  lemma CaptureOutcome(db: Tables, b: Tables, k: LinkKey, e: Event, charge: Option<Charge>, now: int)
    requires k in db.links && k.request in db.requests && db.requests[k.request].status != Reversed && MayCapture(e.kind)
    requires e.orderId != "" && (db.links[k].providerOrder.Some? ==> db.links[k].providerOrder == Some(e.orderId))
    requires b.links == db.links && b.requests == db.requests
    ensures var r := Drive(b, k, e, charge, now);
            && k in r.db.links && r.db.links[k].providerOrder == Some(e.orderId)
            && if charge.Some? && charge.value.captured
               then
                 && LinkMoved(db.links, r.db.links, k, db.links[k].status, Some(e.orderId))
                 && if e.kind == PaymentAuthorized then r.Done? && r.db.requests == db.requests else Pays(db, r, k, now)
               else UnderReview(db, r, k, Some(e.orderId), now)
  {
    hide Move;
    var learned := if b.links[k].providerOrder.None? then WithLink(b, k, b.links[k].(providerOrder := Clean(e.orderId))) else b;
    MoveOutcome(WithLinkStatus(learned, k, NeedsReview), k.request, ReviewRequired, now);
    MoveOutcome(learned, k.request, Paid, now);
  }

  lemma CloseOutcome(db: Tables, b: Tables, k: LinkKey, e: Event, charge: Option<Charge>, now: int)
    requires k in db.links && k.request in db.requests && db.requests[k.request].status != Reversed && !MayCapture(e.kind)
    requires b.links == db.links && b.requests == db.requests
    ensures var r := Drive(b, k, e, charge, now);
            && k in r.db.links
            && (e.kind == LinkExpired ==> Closes(db, r, k, Lapsed, Expired, now))
            && (e.kind == LinkCancelled ==> Closes(db, r, k, Closed, Cancelled, now))
            && (e.kind == OtherKind ==> r.Done? && r.db.links == db.links && r.db.requests == db.requests)
  {
    hide Move;
    MoveOutcome(WithLinkStatus(b, k, Lapsed), k.request, Expired, now);
    MoveOutcome(WithLinkStatus(b, k, Closed), k.request, Cancelled, now);
  }

  /** An event without a known link is recorded as an orphan, to be settled within a day; one that
      is not verified, not of the test mode or in another currency is refused and leaves nothing. */
  lemma OrphanOutcome(db: Tables, e: Event, now: int)
    requires forall k :: !Names(db.links, e, k)
    ensures var r := Observe(db, db.links, e, now);
            && (IsNews(db, e) ==> r.Done? && Noted(db, r.db, e, None, now) && r.db.links == db.links && r.db.requests == db.requests)
            && (!IsNews(db, e) ==> r.db == db)
            && (r.Raised? <==> e.key.environment != "test" || !e.verified || (e.key !in db.observations && IsForeign(db, e)))
  {
    hide Noted, Recorded;
    NotedOutcome(db, e, None, now);
    FindIsLink(db.links, e.linkId);
    FindNeedsId(db.links, e.linkId);
    assert Find(db.links, e.linkId).Some? ==> Names(db.links, e, Find(db.links, e.linkId).value);
  }
}
