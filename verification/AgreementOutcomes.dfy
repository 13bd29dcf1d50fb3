/** What each decision on an offer leaves behind, table by table, and exactly when it goes
    through: stated on the tables before and after, field by field. */
module AgreementOutcomes {
  import opened Common
  import opened ChangeOrders
  import opened AgreementRules
  import opened AgreementSteps
  import Actions

  // ---------------------------------------------------------------- changes of one table

  /** One order row has a new status, one row version on; the other rows are as they were. */
  predicate OrderMoved(a: Db, b: Db, o: nat, status: OrderStatus) {
    o in a.orders && b.orders == a.orders[o := a.orders[o].(status := status, rowVersion := a.orders[o].rowVersion + 1)]
  }

  /** So for the order's request, if it exists. */
  predicate RequestMoved(a: Db, b: Db, o: nat, status: RequestStatus) {
    && o in a.orders
    && var q := a.orders[o].request;
       b.requests == if q in a.requests then a.requests[q := a.requests[q].(status := status, rowVersion := a.requests[q].rowVersion + 1)]
                     else a.requests
  }

  /** One approval row is new. */
  predicate ApprovalAdded(a: Db, b: Db, k: ApprovalKey, row: Approval) {
    k !in a.approvals && b.approvals == a.approvals[k := row]
  }

  /** Every link of the order that was live is revoked now; `spent`, if any, is also consumed. */
  predicate LinksClosed(a: map<nat, Capability>, b: map<nat, Capability>, o: nat, spent: Option<nat>, now: int) {
    b.Keys == a.Keys && forall c :: c in a ==> LinkClosed(a[c], b[c], o, spent == Some(c), now)
  }

  predicate LinkClosed(a: Capability, b: Capability, o: nat, spent: bool, now: int) {
    && b.order == a.order && b.revision == a.revision && b.purpose == a.purpose
    && b.activatedAt == a.activatedAt && b.expiresAt == a.expiresAt
    && b.consumedAt == (if spent then Some(now) else a.consumedAt)
    && b.revokedAt == if a.order == o && a.revokedAt.None? then Some(now) else a.revokedAt
  }

  predicate IsLatestSend(sends: map<nat, Send>, o: nat, s: nat) {
    s in sends && sends[s].order == o && forall t :: t in sends && sends[t].order == o ==> t <= s
  }

  /** The order's latest email is cancelled if it has not left; every other one is as it was. */
  ghost predicate PendingCancelled(a: map<nat, Send>, b: map<nat, Send>, o: nat) {
    && b.Keys == a.Keys
    && forall s :: s in a ==>
         b[s] == if IsLatestSend(a, o, s) && a[s].action.state in {Actions.Ready, Actions.RetryWait}
                 then a[s].(action := Actions.Action(Actions.Cancelled, a[s].action.attempts)) else a[s]
  }

  lemma CancelOutcome(sends: map<nat, Send>, o: nat)
    ensures PendingCancelled(sends, CancelPendingSend(sends, o), o)
  {
    hide MaxOf, IsLatestSend;
    LatestIsMax(sends, o);
  }

  /** The live session s with this token speaks for link c. */
  predicate SpeaksFor(db: Db, s: nat, csrf: nat, now: int, c: nat) {
    && s in db.sessions && db.sessions[s].capability == c && db.sessions[s].csrf == csrf
    && db.sessions[s].revokedAt.None? && now < db.sessions[s].expiresAt
    && c in db.capabilities && db.capabilities[c].revokedAt.None?
  }

  lemma ScopeIsSession(db: Db, s: nat, csrf: nat, now: int)
    requires Inv(db)
    ensures forall c: nat :: SessionScope(db, s, Some(csrf), now) == Some(c) <==> SpeaksFor(db, s, csrf, now, c)
  {
    hide Inv;
    if s in db.sessions && db.sessions[s].capability in db.capabilities && IsLive(db.capabilities[db.sessions[s].capability]) {
      ScopeIsCurrent(db, db.sessions[s].capability);
    }
  }

  // ---------------------------------------------------------------- the client's decision

  /** The caller's offer is the one on the table: order, revision, content and row version. */
  ghost predicate ClientMayDecide(db: Db, s: nat, csrf: nat, o: nat, expected: nat, r: nat, hash: Artifact, now: int) {
    exists c ::
      && SpeaksFor(db, s, csrf, now, c)
      && db.capabilities[c].purpose == Review && db.capabilities[c].consumedAt.None?
      && db.capabilities[c].order == o && db.capabilities[c].revision == r
      && r in db.revisions && db.revisions[r].hash == hash
      && o in db.orders && db.orders[o].status == AwaitingClient && db.orders[o].rowVersion == expected
  }

  predicate ClientDecided(a: Db, b: Db, s: nat, o: nat, r: nat, hash: Artifact, decision: Decision, now: int) {
    && s in a.sessions
    && OrderMoved(a, b, o, if decision == RequestChanges then RevisionRequested else RejectedByClient)
    && RequestMoved(a, b, o, if decision == RequestChanges then ProposalOpen else Declined)
    && ApprovalAdded(a, b, ApprovalKey(r, Client, decision), Approval(o, hash, None, now))
    && LinksClosed(a.capabilities, b.capabilities, o, Some(a.sessions[s].capability), now)
    && b == a.(orders := b.orders, requests := b.requests, approvals := b.approvals, capabilities := b.capabilities)
  }

  /** A request for changes or a rejection goes through exactly on a live, unspent review session
      for the offer as the caller read it. Changes reopen the proposal, a rejection declines it. */
  lemma ClientDecisionIff(db: Db, s: nat, csrf: nat, o: nat, expected: nat, r: nat, hash: Artifact, decision: Decision, now: int)
    requires Inv(db)
    ensures var reply := ClientDecide(db, s, csrf, o, expected, r, hash, decision, now);
            && (reply.error.None? <==> decision in {RequestChanges, Rejected} && ClientMayDecide(db, s, csrf, o, expected, r, hash, now))
            && (reply.error.None? ==> ClientDecided(db, reply.db, s, o, r, hash, decision, now))
            && (reply.error.Some? ==> reply.db == db && reply.error.value in {Invalid, Conflict})
            && (reply.error == Some(Invalid) <==> decision !in {RequestChanges, Rejected} || !exists c :: SpeaksFor(db, s, csrf, now, c))
  {
    hide Inv, Revoke, LinksClosed, SessionScope, SpeaksFor;
    ScopeIsSession(db, s, csrf, now);
    var scope := SessionScope(db, s, Some(csrf), now);
    if scope.Some? {
      var c := scope.value;
      SessionKnows(db, s, csrf, now, c);
      ScopeIsCurrent(db, c);
      NoClientAnswer(db, db.capabilities[c].order, decision);
      SpentAndClosed(db.capabilities, c, now);
    }
  }

  lemma SessionKnows(db: Db, s: nat, csrf: nat, now: int, c: nat)
    requires SpeaksFor(db, s, csrf, now, c)
    ensures s in db.sessions && db.sessions[s].capability == c && c in db.capabilities && IsLive(db.capabilities[c])
  {}

  lemma NoClientAnswer(db: Db, o: nat, decision: Decision)
    requires Inv(db) && o in db.orders && db.orders[o].current.Some?
    ensures db.orders[o].project in db.projects
    ensures db.orders[o].status == AwaitingClient ==> ApprovalKey(db.orders[o].current.value, Client, decision) !in db.approvals
    ensures db.orders[o].status == AwaitingFreelancer ==> forall actor :: ApprovalKey(db.orders[o].current.value, actor, decision) !in db.approvals
  {
    hide DealsOk, ScopeOk, SealedOk, LinksOk, OneReview, ApprovedOk, SendsOk;
    assert HasCurrent(db.orders, db.revisions, o);
  }

  lemma SpentAndClosed(caps: map<nat, Capability>, c: nat, now: int)
    requires c in caps
    ensures LinksClosed(caps, Revoke(caps[c := caps[c].(consumedAt := Some(now))], caps[c].order, now, false), caps[c].order, Some(c), now)
  {}

  // ---------------------------------------------------------------- the freelancer's decisions

  predicate FreelancerDecided(a: Db, b: Db, o: nat, decision: Decision, now: int) {
    && o in a.orders && a.orders[o].current.Some? && a.orders[o].current.value in a.revisions
    && var r := a.orders[o].current.value;
    && OrderMoved(a, b, o, if decision == Waive then Withdrawn else RejectedByFreelancer)
    && RequestMoved(a, b, o, if decision == Waive then Waived else Declined)
    && ApprovalAdded(a, b, ApprovalKey(r, Freelancer, decision), Approval(o, a.revisions[r].hash, None, now))
    && LinksClosed(a.capabilities, b.capabilities, o, None, now)
    && b == a.(orders := b.orders, requests := b.requests, approvals := b.approvals, capabilities := b.capabilities)
  }

  /** The freelancer can reject or waive exactly an order that awaits its decision. */
  lemma FreelancerDecisionIff(db: Db, o: nat, decision: Decision, now: int)
    requires Inv(db)
    ensures var reply := FreelancerDecide(db, o, decision, now);
            && (reply.error.None? <==> decision in {Rejected, Waive} && o in db.orders && db.orders[o].status == AwaitingFreelancer)
            && (reply.error.None? ==> FreelancerDecided(db, reply.db, o, decision, now))
            && (reply.error.Some? ==> reply.db == db && reply.error.value in {Invalid, NotFound, Conflict})
            && (reply.error == Some(Invalid) <==> decision !in {Rejected, Waive})
            && (reply.error == Some(NotFound) <==> decision in {Rejected, Waive} && o !in db.orders)
  {
    hide Inv, Revoke, LinksClosed;
    if o in db.orders {
      CurrentExists(db, o);
      NoClientAnswer(db, o, decision);
      Closed(db.capabilities, o, now);
    }
  }

  lemma Closed(caps: map<nat, Capability>, o: nat, now: int)
    ensures LinksClosed(caps, Revoke(caps, o, now, false), o, None, now)
  {}

  ghost predicate WithdrawnNow(a: Db, b: Db, o: nat, now: int) {
    && OrderMoved(a, b, o, Withdrawn)
    && RequestMoved(a, b, o, Declined)
    && LinksClosed(a.capabilities, b.capabilities, o, None, now)
    && PendingCancelled(a.sends, b.sends, o)
    && b == a.(orders := b.orders, requests := b.requests, capabilities := b.capabilities, sends := b.sends)
  }

  /** An order can be withdrawn exactly while it is under way and its latest email is not out with
      an open outcome. */
  lemma WithdrawalIff(db: Db, o: nat, now: int)
    requires Inv(db)
    ensures var reply := Withdraw(db, o, now);
            && (reply.error.None? <==>
                  && o in db.orders && db.orders[o].status in {AwaitingFreelancer, SendPending, AwaitingClient, RevisionRequested}
                  && (forall s :: IsLatestSend(db.sends, o, s) ==> db.sends[s].action.state !in {Actions.Dispatching, Actions.UnknownOutcome}))
            && (reply.error.None? ==> WithdrawnNow(db, reply.db, o, now))
            && (reply.error.Some? ==> reply.db == db && reply.error.value == if o in db.orders then Conflict else NotFound)
  {
    hide Inv, Withdraw, WithdrawnNow, IsLatestSend;
    WithdrawalGuard(db, o, now);
    if Withdraw(db, o, now).error.None? { WithdrawalOutcome(db, o, now); }
  }

  lemma WithdrawalGuard(db: Db, o: nat, now: int)
    requires Inv(db)
    ensures Withdraw(db, o, now).error.None? <==>
              && o in db.orders && db.orders[o].status in {AwaitingFreelancer, SendPending, AwaitingClient, RevisionRequested}
              && (forall s :: IsLatestSend(db.sends, o, s) ==> db.sends[s].action.state !in {Actions.Dispatching, Actions.UnknownOutcome})
    ensures Withdraw(db, o, now).error.Some? ==>
              Withdraw(db, o, now).db == db && Withdraw(db, o, now).error.value == if o in db.orders then Conflict else NotFound
  {
    hide Inv, Revoke, CancelPendingSend, IsLatestSend, SendsOf, MaxOf, WithRequest;
    NotDraft(db, o);
    LatestIsMax(db.sends, o);
  }

  lemma WithdrawalOutcome(db: Db, o: nat, now: int)
    requires Withdraw(db, o, now).error.None?
    ensures WithdrawnNow(db, Withdraw(db, o, now).db, o, now)
  {
    hide Revoke, LinksClosed, CancelPendingSend, PendingCancelled, SendsOf, MaxOf, WithRequest;
    Closed(db.capabilities, o, now);
    CancelOutcome(db.sends, o);
    RequestOutcome(db.(orders := db.orders[o := Moved(db.orders[o], Withdrawn)], sends := CancelPendingSend(db.sends, o),
                       capabilities := Revoke(db.capabilities, o, now, false)), db.orders[o].request, Declined);
  }

  lemma RequestOutcome(db: Db, q: nat, status: RequestStatus)
    ensures WithRequest(db, q, status) == db.(requests :=
              if q in db.requests then db.requests[q := db.requests[q].(status := status, rowVersion := db.requests[q].rowVersion + 1)]
              else db.requests)
  {}

  lemma NotDraft(db: Db, o: nat)
    requires Inv(db)
    ensures o in db.orders ==> db.orders[o].status != Draft
  {}

  lemma LatestIsMax(sends: map<nat, Send>, o: nat)
    ensures forall s :: IsLatestSend(sends, o, s) <==> s in SendsOf(sends, o) && s == MaxOf(SendsOf(sends, o))
  {
    forall s ensures IsLatestSend(sends, o, s) <==> s in SendsOf(sends, o) && s == MaxOf(SendsOf(sends, o)) {
      assert forall t :: t in SendsOf(sends, o) <==> t in sends && sends[t].order == o;
      if IsLatestSend(sends, o, s) { MaxIs(SendsOf(sends, o), s); }
    }
  }

  // ---------------------------------------------------------------- the freelancer's approval

  /** The caller's revision is the order's current one, against the request and the scope it was
      written for, with fresh evidence and a live link. */
  predicate FreelancerMayApprove(db: Db, o: nat, expected: nat, r: nat, hash: Artifact, evidenceStale: bool, pick: nat) {
    && o in db.orders && db.orders[o].status == AwaitingFreelancer && db.orders[o].rowVersion == expected
    && db.orders[o].current == Some(r) && r in db.revisions && db.revisions[r].hash == hash
    && db.orders[o].request in db.requests && db.requests[db.orders[o].request].version == db.revisions[r].requestVersion
    && db.orders[o].project in db.projects && db.projects[db.orders[o].project].current == Some(db.revisions[r].baseline)
    && !evidenceStale
    && pick in db.capabilities && db.capabilities[pick].revision == r && db.capabilities[pick].revokedAt.None?
  }

  /** The email is addressed, worded and sealed as the revision says. */
  predicate IsEmailOf(e: Email, o: nat, r: nat, revision: Revision) {
    && e.order == o && e.revision == r
    && e.recipient == revision.content.recipient && e.subject == revision.content.subject
    && e.plainText == revision.content.plainText && e.html == revision.content.html
    && e.attachments == revision.content.attachments && e.hash == revision.hash
  }

  predicate FreelancerApproved(a: Db, b: Db, o: nat, r: nat, pick: nat, now: int) {
    && r in a.revisions && pick in a.capabilities
    && OrderMoved(a, b, o, SendPending)
    && ApprovalAdded(a, b, ApprovalKey(r, Freelancer, Approved), Approval(o, a.revisions[r].hash, None, now))
    && b.capabilities == a.capabilities[pick := a.capabilities[pick].(activatedAt := Some(now), expiresAt := Some(now + 7 * 86400))]
    && a.nextId !in a.sends && b.sends.Keys == a.sends.Keys + {a.nextId} && b.nextId == a.nextId + 1
    && (forall s :: s in a.sends ==> b.sends[s] == a.sends[s])
    && var send := b.sends[a.nextId];
    && send.order == o && send.revision == r && IsEmailOf(send.payload, o, r, a.revisions[r])
    && send.action == Actions.Action(Actions.Ready, map[])
    && b == a.(orders := b.orders, approvals := b.approvals, capabilities := b.capabilities, sends := b.sends, nextId := b.nextId)
  }

  /** The freelancer's approval goes through exactly for the current revision as the caller read
      it; it opens the link for a week and queues one email with the revision's own words. */
  lemma ApprovalIff(db: Db, o: nat, expected: nat, r: nat, hash: Artifact, evidenceStale: bool, pick: nat, now: int)
    requires Inv(db)
    ensures var reply := ApproveFreelancer(db, o, expected, r, hash, evidenceStale, pick, now);
            && (reply.error.None? <==> FreelancerMayApprove(db, o, expected, r, hash, evidenceStale, pick))
            && (reply.error.None? ==> FreelancerApproved(db, reply.db, o, r, pick, now))
            && (reply.error.Some? ==> reply.db == db && reply.error.value == if o in db.orders then Conflict else NotFound)
  {
    hide Inv, SendsFor;
    if o in db.orders {
      CurrentExists(db, o);
      NoClientAnswer(db, o, Approved);
      FreshSendId(db);
    }
    if FreelancerMayApprove(db, o, expected, r, hash, evidenceStale, pick) { NoSendYet(db, o, r); }
  }

  lemma FreshSendId(db: Db)
    requires Inv(db)
    ensures db.nextId !in db.sends
  {}

  /** An email says what its revision says, and carries the hash its freelancer approved. */
  lemma EmailSaysTheRevision(db: Db, s: nat)
    requires Inv(db) && s in db.sends
    ensures var send := db.sends[s];
            && send.revision in db.revisions && db.revisions[send.revision].order == send.order
            && IsEmailOf(send.payload, send.order, send.revision, db.revisions[send.revision])
            && var k := ApprovalKey(send.revision, Freelancer, Approved);
               k in db.approvals && db.approvals[k].hash == send.payload.hash
  {
    hide IdsOk, DealsOk, ScopeOk, RevisionsOk, SealedOk, LinksOk, OneReview, ApprovedOk;
  }
}
