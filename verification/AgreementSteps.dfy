/** Every command of the agreement keeps every rule. */
module AgreementSteps {
  import opened Common
  import opened ChangeOrders
  import opened AgreementRules
  import Actions

  lemma RequestKeepsInv(db: Db, q: nat, s: RequestStatus)
    requires Inv(db)
    ensures Inv(WithRequest(db, q, s))
  {
    hide RevisionsOk, SealedOk, LinksOk, OneReview, ApprovalsOk, ApprovedOk, SendsOk, PaymentsOk, FactsOk, AmendmentsOk,
      BookedOk, NumberedOk, ParentsOk, BaselinesOk, ProvenanceOk, ItemsOk;
  }

  /** A status move outside approval, with its capability and send effects. */
  lemma MoveKeepsInv(db: Db, o: nat, s: OrderStatus, caps: map<nat, Capability>, sends: map<nat, Send>)
    requires Inv(db) && o in db.orders
    requires s != Draft && s != ClientApproved && db.orders[o].status != ClientApproved && s != AwaitingFreelancer
    requires s in {SendPending, AwaitingClient} ==> db.orders[o].status in {SendPending, AwaitingClient}
    requires caps.Keys == db.capabilities.Keys && sends.Keys == db.sends.Keys
    requires LinksOk(db.orders[o := Moved(db.orders[o], s)], caps) && OneReview(caps)
    requires SendsOk(db.revisions, db.approvals, sends)
    ensures Inv(db.(orders := db.orders[o := Moved(db.orders[o], s)], capabilities := caps, sends := sends))
  {
    hide RevisionsOk, SealedOk, LinksOk, OneReview, ApprovalsOk, ApprovedOk, SendsOk, PaymentsOk, FactsOk, AmendmentsOk,
      BookedOk, NumberedOk, ParentsOk, BaselinesOk, ProvenanceOk, ItemsOk;
    MoveKeepsRevisions(db.orders, db.revisions, o, s);
    MoveKeepsApprovals(db.orders, db.revisions, db.approvals, o, s);
    MoveKeepsApproved(db.orders, db.approvals, o, s);
    MoveKeepsDeals(db.orders, db.revisions, db.payments, db.facts, db.amendments, o, s);
  }

  /** A recorded decision on the current revision together with the move it causes, short of
      the client's approval. */
  lemma DecisionKeepsInv(db: Db, o: nat, s: OrderStatus, k: ApprovalKey, a: Approval, caps: map<nat, Capability>)
    requires Inv(db) && o in db.orders && s != Draft && s != ClientApproved
    requires db.orders[o].status != ClientApproved && db.orders[o].current == Some(k.revision)
    requires k.revision in db.revisions && db.revisions[k.revision].order == o
    requires a.order == o && a.hash == db.revisions[k.revision].hash
    requires Allowed(s, k.actor, k.decision)
    requires forall actor, d :: Allowed(db.orders[o].status, actor, d) ==> Allowed(s, actor, d)
    requires IsOffered(s) ==> IsOffered(db.orders[o].status) || (k.actor == Freelancer && k.decision == Approved)
    requires caps.Keys == db.capabilities.Keys
    requires LinksOk(db.orders[o := Moved(db.orders[o], s)], caps) && OneReview(caps)
    ensures Inv(db.(approvals := db.approvals[k := a], orders := db.orders[o := Moved(db.orders[o], s)], capabilities := caps))
  {
    hide RevisionsOk, SealedOk, LinksOk, OneReview, ApprovalsOk, ApprovedOk, SendsOk, PaymentsOk, FactsOk, AmendmentsOk,
      BookedOk, NumberedOk, ParentsOk, BaselinesOk, ProvenanceOk, ItemsOk;
    MoveKeepsRevisions(db.orders, db.revisions, o, s);
    DecideKeepsApprovals(db.orders, db.revisions, db.approvals, o, s, k, a);
    DecideKeepsApproved(db.orders, db.approvals, o, s, k, a);
    GrowKeepsSends(db.revisions, db.approvals, db.sends, k, a);
    MoveKeepsDeals(db.orders, db.revisions, db.payments, db.facts, db.amendments, o, s);
  }

  // ---------------------------------------------------------------- revisions

  lemma BaselineIsCurrent(db: Db, p: nat)
    requires Inv(db) && p in db.projects && db.projects[p].current.Some?
    ensures db.projects[p].current.value in db.versions && db.projects[p].current.value.project == p
  {
    assert NumberedOk(db.projects, db.versions);
  }

  lemma InstallKeepsInv(db: Db, o: nat, artifact: Artifact, now: int)
    requires Inv(db) && o in db.orders && db.orders[o].status != ClientApproved
    requires db.orders[o].current.Some? && db.orders[o].current.value in db.revisions
    requires Complete(artifact.content)
    requires artifact.baseline in db.versions && artifact.baseline.project == db.orders[o].project
    ensures Inv(InstallRevision(db, o, artifact, now))
  {
    hide IdsOk, RevisionsOk, SealedOk, LinksOk, OneReview, ApprovalsOk, ApprovedOk, SendsOk, PaymentsOk, FactsOk, AmendmentsOk,
      BookedOk, NumberedOk, ParentsOk, BaselinesOk, ProvenanceOk, ItemsOk;
    var r, c, prior := db.nextId, db.nextId + 1, db.orders[o].current.value;
    var revision := Drafted(o, db.orders[o].project, db.revisions[prior].number + 1, artifact);
    InstallKeepsIds(db, o, artifact, now);
    InstallKeepsSealed(db.revisions, prior, r, revision);
    InstallKeepsRevisions(db.orders, db.revisions, o, r, revision);
    InstallKeepsLinks(db.orders, db.capabilities, o, r, c, now);
    InstallKeepsApprovals(db.orders, db.revisions, db.approvals, o, r, revision);
    InstallKeepsSends(db.revisions, db.approvals, db.sends, prior, r, revision);
    InstallKeepsDeals(db.orders, db.revisions, db.payments, db.facts, db.amendments, o, r, revision);
    InstallKeepsBaselines(db.revisions, db.versions, prior, r, revision);
  }

  lemma InstallKeepsIds(db: Db, o: nat, artifact: Artifact, now: int)
    requires IdsOk(db) && o in db.orders
    requires db.orders[o].current.Some? && db.orders[o].current.value in db.revisions
    ensures IdsOk(InstallRevision(db, o, artifact, now))
    ensures forall n :: n >= db.nextId ==> n !in db.revisions && n !in db.capabilities
  {}

  lemma InstallKeepsSealed(revisions: map<nat, Revision>, prior: nat, r: nat, revision: Revision)
    requires SealedOk(revisions) && prior in revisions && IsSealed(revision)
    ensures SealedOk(revisions[prior := revisions[prior].(superseded := true)][r := revision])
  {}

  /** A fresh order's first revision. */
  lemma OpenKeepsInv(db: Db, p: nat, q: nat, artifact: Artifact, now: int)
    requires Inv(db) && p in db.projects && Complete(artifact.content)
    requires artifact.baseline in db.versions && artifact.baseline.project == p
    ensures var o := db.nextId;
            var base := WithDraft(db, p, q);
            Inv(InstallRevision(base, o, artifact, now))
  {
    hide IdsOk, RevisionsOk, SealedOk, LinksOk, OneReview, ApprovalsOk, ApprovedOk, SendsOk, PaymentsOk, FactsOk, AmendmentsOk,
      BookedOk, NumberedOk, ParentsOk, BaselinesOk, ProvenanceOk, ItemsOk;
    var o := db.nextId;
    var r, c := o + 1, o + 2;
    var base := WithDraft(db, p, q);
    var order := Order(p, q, Some(r), AwaitingFreelancer, 2);
    var revision := Drafted(o, p, 1, artifact);
    var db' := InstallRevision(base, o, artifact, now);
    assert db'.orders == db.orders[o := order];
    DraftKeepsIds(db, p, q, artifact, now);
    OpenKeepsProposals(db, o, order, r, revision, c);
    OpenKeepsDeals(db.orders, db.revisions, db.payments, db.facts, db.amendments, o, order, r, revision);
    OpenKeepsBaselines(db.revisions, db.versions, r, revision);
  }

  lemma DraftKeepsIds(db: Db, p: nat, q: nat, artifact: Artifact, now: int)
    requires IdsOk(db) && p in db.projects
    ensures IdsOk(InstallRevision(WithDraft(db, p, q), db.nextId, artifact, now))
    ensures forall n :: n >= db.nextId ==> n !in db.orders && n !in db.revisions && n !in db.capabilities
  {}

  lemma OpenKeepsBaselines(revisions: map<nat, Revision>, versions: map<ScopeKey, ScopeVersion>, r: nat, revision: Revision)
    requires BaselinesOk(revisions, versions)
    requires revision.baseline in versions && revision.baseline.project == revision.project
    ensures BaselinesOk(revisions[r := revision], versions)
  {}

  lemma CurrentExists(db: Db, o: nat)
    requires Inv(db) && o in db.orders
    ensures HasCurrent(db.orders, db.revisions, o)
  {}

  lemma NewRevisionKeepsInv(db: Db, o: nat, contact: nat, content: Content, now: int)
    requires Inv(db) && o in db.orders && db.orders[o].status != ClientApproved
    ensures Inv(NewRevision(db, o, contact, content, now).db)
  {
    hide Inv;
    var reply := NewRevision(db, o, contact, content, now);
    if reply.error.None? {
      BaselineIsCurrent(db, db.orders[o].project);
      CurrentExists(db, o);
      var order := db.orders[o];
      InstallKeepsInv(db, o, Artifact(db.projects[order.project].current.value, db.requests[order.request].version, contact, content), now);
    }
  }

  lemma CreateRevisionKeepsInv(db: Db, o: nat, edits: Edits, now: int)
    requires Inv(db)
    ensures Inv(CreateRevision(db, o, edits, now).db)
  {
    hide Inv;
    if CreateRevision(db, o, edits, now).error.None? {
      var current := db.revisions[db.orders[o].current.value];
      NewRevisionKeepsInv(db, o, current.contact, Edited(current.content, edits), now);
    }
  }

  lemma AssembleKeepsInv(db: Db, p: Proposal, pick: nat, now: int)
    requires Inv(db)
    ensures Inv(Assemble(db, p, pick, now).db)
  {
    hide Inv;
    var reply := Assemble(db, p, pick, now);
    if reply.error.None? {
      if Matches(db.orders, p.project, p.request) != {} {
        assert Reusable(db.orders[pick], p.project, p.request);
        NewRevisionKeepsInv(db, pick, p.contact.value, p.draft.value, now);
        RequestKeepsInv(NewRevision(db, pick, p.contact.value, p.draft.value, now).db, p.request, ProposalOpen);
      } else {
        var base := WithDraft(db, p.project, p.request);
        var artifact := Artifact(db.projects[p.project].current.value, db.requests[p.request].version, p.contact.value, p.draft.value);
        BaselineIsCurrent(db, p.project);
        OpenKeepsInv(db, p.project, p.request, artifact, now);
        RequestKeepsInv(InstallRevision(base, db.nextId, artifact, now), p.request, ProposalOpen);
      }
    }
  }

  // ---------------------------------------------------------------- freelancer decisions

  lemma NewSendKeepsInv(db: Db, s: nat, send: Send)
    requires Inv(db) && s >= db.nextId
    requires send.revision in db.revisions && send.order == db.revisions[send.revision].order
    requires send.payload == Projection(send.order, send.revision, db.revisions[send.revision])
    requires ApprovalKey(send.revision, Freelancer, Approved) in db.approvals
    requires SendsFor(db.sends, send.order, send.revision) == {}
    ensures Inv(db.(sends := db.sends[s := send], nextId := s + 1))
  {
    hide RevisionsOk, SealedOk, LinksOk, OneReview, ApprovalsOk, ApprovedOk, SendsOk, PaymentsOk, FactsOk, AmendmentsOk,
      BookedOk, NumberedOk, ParentsOk, BaselinesOk, ProvenanceOk, ItemsOk;
    NewSendKeepsSends(db.revisions, db.approvals, db.sends, s, send);
  }

  /** A revision nobody approved has no send action yet, so preparing one cannot clash. */
  lemma NoSendYet(db: Db, o: nat, r: nat)
    requires Inv(db) && ApprovalKey(r, Freelancer, Approved) !in db.approvals
    ensures SendsFor(db.sends, o, r) == {}
  {}

  /** A live link of a revision whose order awaits the freelancer belongs to that order. */
  lemma LiveLinkOwner(db: Db, o: nat, r: nat, c: nat)
    requires Inv(db) && o in db.orders && db.orders[o].current == Some(r)
    requires c in LiveFor(db.capabilities, r)
    ensures db.capabilities[c].order == o
  {
    var p := db.capabilities[c].order;
    assert LinkAgrees(db.orders[p], db.capabilities[c]);
    assert HasCurrent(db.orders, db.revisions, p) && HasCurrent(db.orders, db.revisions, o);
  }

  lemma ApproveLinks(db: Db, o: nat, c: nat, active: Option<int>, expires: Option<int>)
    requires Inv(db) && o in db.orders && db.orders[o].status == AwaitingFreelancer && c in db.capabilities
    ensures var caps := db.capabilities[c := db.capabilities[c].(activatedAt := active, expiresAt := expires)];
            LinksOk(db.orders[o := Moved(db.orders[o], SendPending)], caps) && OneReview(caps)
  {
    hide RevisionsOk, SealedOk, LinksOk, OneReview, ApprovalsOk, ApprovedOk, SendsOk, PaymentsOk, FactsOk, AmendmentsOk,
      BookedOk, NumberedOk, ParentsOk, BaselinesOk, ProvenanceOk, ItemsOk;
    MoveKeepsLinks(db.orders, db.capabilities, o, SendPending);
    ActivateKeepsLinks(db.orders[o := Moved(db.orders[o], SendPending)], db.capabilities, c, active, expires);
  }

  lemma ApproveKeepsInv(db: Db, o: nat, expected: nat, r: nat, hash: Artifact, evidenceStale: bool, pick: nat, now: int)
    requires Inv(db)
    ensures Inv(ApproveFreelancer(db, o, expected, r, hash, evidenceStale, pick, now).db)
  {
    hide Inv;
    if ApproveFreelancer(db, o, expected, r, hash, evidenceStale, pick, now).error.None? {
      var caps := db.capabilities[pick := db.capabilities[pick].(activatedAt := Some(now), expiresAt := Some(now + 7 * DAY))];
      var k, a := ApprovalKey(r, Freelancer, Approved), Approval(o, hash, None, now);
      NoSendYet(db, o, r);
      ApproveLinks(db, o, pick, Some(now), Some(now + 7 * DAY));
      DecisionKeepsInv(db, o, SendPending, k, a, caps);
      var decided := db.(approvals := db.approvals[k := a], orders := db.orders[o := Moved(db.orders[o], SendPending)], capabilities := caps);
      NewSendKeepsInv(decided, db.nextId, Send(o, r, Projection(o, r, db.revisions[r]), Actions.NEW_ACTION));
    }
  }

  lemma CloseLinks(db: Db, o: nat, s: OrderStatus, now: int)
    requires Inv(db) && o in db.orders
    ensures LinksOk(db.orders[o := Moved(db.orders[o], s)], Revoke(db.capabilities, o, now, false))
    ensures OneReview(Revoke(db.capabilities, o, now, false))
  {
    hide RevisionsOk, SealedOk, LinksOk, OneReview, ApprovalsOk, ApprovedOk, SendsOk, PaymentsOk, FactsOk, AmendmentsOk,
      BookedOk, NumberedOk, ParentsOk, BaselinesOk, ProvenanceOk, ItemsOk;
    CloseKeepsLinks(db.orders, db.capabilities, o, s, now);
  }

  lemma FreelancerDecideKeepsInv(db: Db, o: nat, decision: Decision, now: int)
    requires Inv(db)
    ensures Inv(FreelancerDecide(db, o, decision, now).db)
  {
    hide Inv;
    if FreelancerDecide(db, o, decision, now).error.None? {
      var r := db.orders[o].current.value;
      var s := if decision == Rejected then RejectedByFreelancer else Withdrawn;
      var k, a := ApprovalKey(r, Freelancer, decision), Approval(o, db.revisions[r].hash, None, now);
      var caps := Revoke(db.capabilities, o, now, false);
      CloseLinks(db, o, s, now);
      DecisionKeepsInv(db, o, s, k, a, caps);
      RequestKeepsInv(db.(approvals := db.approvals[k := a], orders := db.orders[o := Moved(db.orders[o], s)], capabilities := caps),
                      db.orders[o].request, if decision == Rejected then Declined else Waived);
    }
  }

  lemma CancelKeepsSends(db: Db, o: nat)
    requires Inv(db)
    ensures SendsOk(db.revisions, db.approvals, CancelPendingSend(db.sends, o))
    ensures CancelPendingSend(db.sends, o).Keys == db.sends.Keys
  {
    hide RevisionsOk, SealedOk, LinksOk, OneReview, ApprovalsOk, ApprovedOk, SendsOk, PaymentsOk, FactsOk, AmendmentsOk,
      BookedOk, NumberedOk, ParentsOk, BaselinesOk, ProvenanceOk, ItemsOk, Actions.Apply;
    var s := MaxOf(SendsOf(db.sends, o));
    if s in SendsOf(db.sends, o) {
      ActionKeepsSends(db.revisions, db.approvals, db.sends, s, Actions.Apply(db.sends[s].action, Actions.Cancel).row);
    }
  }

  lemma WithdrawKeepsInv(db: Db, o: nat, now: int)
    requires Inv(db)
    ensures Inv(Withdraw(db, o, now).db)
  {
    hide Inv, Actions.Apply;
    if Withdraw(db, o, now).error.None? {
      var caps, sends := Revoke(db.capabilities, o, now, false), CancelPendingSend(db.sends, o);
      CloseLinks(db, o, Withdrawn, now);
      CancelKeepsSends(db, o);
      MoveKeepsInv(db, o, Withdrawn, caps, sends);
      RequestKeepsInv(db.(orders := db.orders[o := Moved(db.orders[o], Withdrawn)], capabilities := caps, sends := sends),
                      db.orders[o].request, Declined);
    }
  }

  // ---------------------------------------------------------------- client sessions

  lemma SessionKeepsInv(db: Db, c: nat, csrf: nat, now: int)
    requires Inv(db)
    ensures Inv(OpenSession(db, c, csrf, now))
  {
    hide RevisionsOk, SealedOk, LinksOk, OneReview, ApprovalsOk, ApprovedOk, SendsOk, PaymentsOk, FactsOk, AmendmentsOk,
      BookedOk, NumberedOk, ParentsOk, BaselinesOk, ProvenanceOk, ItemsOk;
  }

  lemma ExchangeKeepsInv(db: Db, c: nat, csrf: nat, now: int)
    requires Inv(db)
    ensures Inv(Exchange(db, c, csrf, now).db)
  {
    hide Inv;
    forall k { SessionKeepsInv(db, k, csrf, now); }
  }

  lemma RevokeSessionKeepsInv(db: Db, sessions: map<nat, Session>)
    requires Inv(db) && sessions.Keys == db.sessions.Keys
    ensures Inv(db.(sessions := sessions))
  {
    hide RevisionsOk, SealedOk, LinksOk, OneReview, ApprovalsOk, ApprovedOk, SendsOk, PaymentsOk, FactsOk, AmendmentsOk,
      BookedOk, NumberedOk, ParentsOk, BaselinesOk, ProvenanceOk, ItemsOk;
  }

  lemma RefreshKeepsInv(db: Db, s: nat, csrf: nat, now: int)
    requires Inv(db)
    ensures Inv(Refresh(db, s, csrf, now).db)
  {
    hide Inv;
    if Refresh(db, s, csrf, now).error.None? {
      var revoked := db.sessions[s := db.sessions[s].(revokedAt := Some(now))];
      RevokeSessionKeepsInv(db, revoked);
      SessionKeepsInv(db.(sessions := revoked), SessionScope(db, s, None, now).value, csrf, now);
    }
  }

  /** A live session of a live link stands on the order's current revision. */
  lemma ScopeIsCurrent(db: Db, c: nat)
    requires Inv(db) && c in db.capabilities && IsLive(db.capabilities[c])
    ensures var cap := db.capabilities[c];
            && cap.order in db.orders && db.orders[cap.order].current == Some(cap.revision)
            && cap.revision in db.revisions && db.revisions[cap.revision].order == cap.order
            && db.revisions[cap.revision].project == db.orders[cap.order].project
  {
    var o := db.capabilities[c].order;
    assert LinkAgrees(db.orders[o], db.capabilities[c]);
    assert HasCurrent(db.orders, db.revisions, o);
  }

  lemma ClientDecideLinks(db: Db, o: nat, c: nat, s: OrderStatus, now: int)
    requires Inv(db) && o in db.orders && c in db.capabilities && db.capabilities[c].order == o
    ensures var caps := Revoke(db.capabilities[c := db.capabilities[c].(consumedAt := Some(now))], o, now, false);
            LinksOk(db.orders[o := Moved(db.orders[o], s)], caps) && OneReview(caps)
  {
    hide RevisionsOk, SealedOk, LinksOk, OneReview, ApprovalsOk, ApprovedOk, SendsOk, PaymentsOk, FactsOk, AmendmentsOk,
      BookedOk, NumberedOk, ParentsOk, BaselinesOk, ProvenanceOk, ItemsOk;
    AnswerKeepsLinks(db.orders, db.capabilities, o, c, s, now);
  }

  lemma ClientDecideKeepsInv(db: Db, s: nat, csrf: nat, o: nat, expected: nat, r: nat, hash: Artifact, decision: Decision, now: int)
    requires Inv(db)
    ensures Inv(ClientDecide(db, s, csrf, o, expected, r, hash, decision, now).db)
  {
    hide Inv;
    if ClientDecide(db, s, csrf, o, expected, r, hash, decision, now).error.None? {
      var c := SessionScope(db, s, Some(csrf), now).value;
      var target := if decision == RequestChanges then RevisionRequested else RejectedByClient;
      var k, a := ApprovalKey(r, Client, decision), Approval(o, hash, None, now);
      var caps := Revoke(db.capabilities[c := db.capabilities[c].(consumedAt := Some(now))], o, now, false);
      ScopeIsCurrent(db, c);
      ClientDecideLinks(db, o, c, target, now);
      DecisionKeepsInv(db, o, target, k, a, caps);
      RequestKeepsInv(db.(approvals := db.approvals[k := a], orders := db.orders[o := Moved(db.orders[o], target)], capabilities := caps),
                      db.orders[o].request, if decision == RequestChanges then ProposalOpen else Declined);
    }
  }

  // ---------------------------------------------------------------- acceptance

  lemma ReceiptKeepsInv(db: Db, c: nat, csrf: nat, now: int)
    requires Inv(db) && c in db.capabilities
    requires db.capabilities[c].order in db.orders && db.orders[db.capabilities[c].order].status == ClientApproved
    requires db.orders[db.capabilities[c].order].current == Some(db.capabilities[c].revision)
    ensures Inv(IssueReceipt(db, c, csrf, now))
  {
    hide RevisionsOk, SealedOk, LinksOk, OneReview, ApprovalsOk, ApprovedOk, SendsOk, PaymentsOk, FactsOk, AmendmentsOk,
      BookedOk, NumberedOk, ParentsOk, BaselinesOk, ProvenanceOk, ItemsOk;
    var source := db.capabilities[c];
    var receipt := Capability(source.order, source.revision, Receipt, Some(now), Some(now + 30 * DAY), None, None);
    ReceiptKeepsLinks(db.orders, db.capabilities, db.nextId, receipt);
  }

  /** What the checks before an acceptance establish, given the rules: the link is the order's
      one live review link and the project's head is the offer's baseline. */
  ghost predicate Ready(db: Db, c: nat) {
    && Acceptable(db, c)
    && IsLiveReview(db.capabilities[c])
    && var o, r := db.capabilities[c].order, db.capabilities[c].revision;
       && db.orders[o].status in {SendPending, AwaitingClient}
       && db.orders[o].current == Some(r)
       && db.revisions[r].order == o && db.revisions[r].project == db.orders[o].project
       && db.projects[db.orders[o].project].current == Some(db.revisions[r].baseline)
  }

  lemma ReceiptSendKeepsSends(db: Db, o: nat, r: nat)
    requires SendsOk(db.revisions, db.approvals, db.sends)
    ensures SendsOk(db.revisions, db.approvals, ConfirmByReceipt(db.sends, o, r))
    ensures ConfirmByReceipt(db.sends, o, r).Keys == db.sends.Keys
  {
    hide SendsOk, Actions.Apply;
    var found := SendsFor(db.sends, o, r);
    var a := MaxOf(found);
    if a in found {
      ActionKeepsSends(db.revisions, db.approvals, db.sends, a, Actions.Apply(db.sends[a].action, Actions.ClientReceipt).row);
    }
  }

  lemma BookKeepsProposals(db: Db, c: nat, key: string, now: int)
    requires Inv(db) && Ready(db, c)
    ensures ProposalsOk(Book(db, c, key, now))
  {
    hide RevisionsOk, SealedOk, LinksOk, OneReview, ApprovalsOk, ApprovedOk, SendsOk, PaymentsOk, FactsOk, AmendmentsOk,
      BookedOk, NumberedOk, ParentsOk, BaselinesOk, ProvenanceOk, ItemsOk;
    var o, r := db.capabilities[c].order, db.capabilities[c].revision;
    var k, a := ApprovalKey(r, Client, Approved), Approval(o, db.revisions[r].hash, Some(key), now);
    MoveKeepsRevisions(db.orders, db.revisions, o, ClientApproved);
    ConsumeKeepsLinks(db.orders, db.capabilities, c, now, now + 30 * DAY);
    DecideKeepsApprovals(db.orders, db.revisions, db.approvals, o, ClientApproved, k, a);
    DecideKeepsApproved(db.orders, db.approvals, o, ClientApproved, k, a);
    ReceiptSendKeepsSends(db, o, r);
    GrowKeepsSends(db.revisions, db.approvals, ConfirmByReceipt(db.sends, o, r), k, a);
  }

  /** The version an acceptance appends is the child of the head. */
  lemma NextIsFresh(db: Db, c: nat)
    requires Inv(db) && Ready(db, c)
    ensures var rev := db.revisions[db.capabilities[c].revision];
            var p := db.orders[db.capabilities[c].order].project;
            && NextVersion(db.versions, rev.baseline, p) == ScopeKey(p, Head(db.projects[p]) + 1)
            && NextVersion(db.versions, rev.baseline, p) !in db.versions
            && rev.baseline in db.versions
  {
    NextIsHead(db.projects, db.versions, db.orders[db.capabilities[c].order].project);
  }

  lemma NextIsHead(projects: map<nat, Project>, versions: map<ScopeKey, ScopeVersion>, p: nat)
    requires HistoryOk(projects, versions) && p in projects && projects[p].current.Some?
    ensures NextVersion(versions, projects[p].current.value, p) == ScopeKey(p, Head(projects[p]) + 1)
    ensures ScopeKey(p, Head(projects[p]) + 1) !in versions
    ensures projects[p].current.value in versions
  {
    NumbersAreHead(projects, versions, p);
  }

  /** No amendment exists before the order is approved. */
  lemma NoDealYet(db: Db, c: nat)
    requires Inv(db) && Ready(db, c)
    ensures var r := db.capabilities[c].revision; r !in db.payments && r !in db.facts && r !in db.amendments
    ensures ApprovalKey(db.capabilities[c].revision, Client, Approved) !in db.approvals
  {
    hide IdsOk, ScopeOk, RevisionsOk, SealedOk, LinksOk, OneReview, ApprovedOk, SendsOk, BookedOk;
    var r := db.capabilities[c].revision;
    assert !ApprovedWith(db.orders[db.revisions[r].order], r);
    assert !Allowed(db.orders[db.revisions[r].order].status, Client, Approved);
  }

  lemma BookKeepsDeals(db: Db, c: nat, key: string, now: int)
    requires Inv(db) && Ready(db, c)
    ensures DealsOk(Book(db, c, key, now))
  {
    hide RevisionsOk, SealedOk, LinksOk, OneReview, ApprovalsOk, ApprovedOk, SendsOk, PaymentsOk, FactsOk, AmendmentsOk,
      BookedOk, NumberedOk, ParentsOk, BaselinesOk, ProvenanceOk, ItemsOk;
    var o, r := db.capabilities[c].order, db.capabilities[c].revision;
    var p, rev := db.orders[o].project, db.revisions[r];
    var next := NextVersion(db.versions, rev.baseline, p);
    AgreeKeepsDeals(db.orders, db.revisions, db.payments, db.facts, db.amendments, o, r,
                    Payment(db.nextId, p, rev.total, rev.tax), Fact(p, o, rev.total, rev.tax), Amendment(p, rev.baseline, next));
  }

  lemma BookKeepsScope(db: Db, c: nat, key: string, now: int)
    requires Inv(db) && Ready(db, c)
    ensures ScopeOk(Book(db, c, key, now))
  {
    hide RevisionsOk, SealedOk, LinksOk, OneReview, ApprovalsOk, ApprovedOk, SendsOk, PaymentsOk, FactsOk, AmendmentsOk,
      BookedOk, NumberedOk, ParentsOk, BaselinesOk, ProvenanceOk, ItemsOk;
    var o, r := db.capabilities[c].order, db.capabilities[c].revision;
    var p, rev := db.orders[o].project, db.revisions[r];
    var next := NextVersion(db.versions, rev.baseline, p);
    var v := ScopeVersion(Some(rev.baseline), Some(r));
    NextIsFresh(db, c);
    NoDealYet(db, c);
    AppendKeepsHistory(db.projects, db.versions, p, db.projects[p].(current := Some(next)), v);
    AppendKeepsBaselines(db.revisions, db.versions, next, v);
    AgreeKeepsProvenance(db.versions, db.amendments, r, Amendment(p, rev.baseline, next));
    AgreeKeepsItems(db.projects, db.versions, db.links, rev.baseline, next, r);
  }

  lemma AgreeKeepsInv(db: Db, c: nat, key: string, csrf: nat, now: int)
    requires Inv(db) && Ready(db, c)
    ensures Inv(Agree(db, c, key, csrf, now))
  {
    hide RevisionsOk, SealedOk, LinksOk, OneReview, ApprovalsOk, ApprovedOk, SendsOk, PaymentsOk, FactsOk, AmendmentsOk,
      BookedOk, NumberedOk, ParentsOk, BaselinesOk, ProvenanceOk, ItemsOk;
    var booked := Book(db, c, key, now);
    BookKeepsProposals(db, c, key, now);
    BookKeepsDeals(db, c, key, now);
    BookKeepsScope(db, c, key, now);
    ReceiptSendKeepsSends(db, db.capabilities[c].order, db.capabilities[c].revision);
    assert Inv(booked);
    var q := db.orders[db.capabilities[c].order].request;
    RequestKeepsInv(booked, q, Resolved);
    ReceiptKeepsInv(WithRequest(booked, q, Resolved), c, csrf, now);
  }

  /** A live link that is consumed, or is a receipt, belongs to an approved order; a live,
      unconsumed link of an order still on offer is its review link. */
  lemma LinkStage(db: Db, c: nat)
    requires Inv(db) && c in db.capabilities && IsLive(db.capabilities[c])
    ensures var cap := db.capabilities[c];
            && cap.order in db.orders
            && (cap.consumedAt.Some? ==> db.orders[cap.order].status == ClientApproved)
            && (db.orders[cap.order].status in {SendPending, AwaitingClient} ==> cap.purpose == Review && cap.consumedAt.None?)
  {
    hide IdsOk, DealsOk, ScopeOk, RevisionsOk, SealedOk, OneReview, ApprovalsOk, ApprovedOk, SendsOk;
    assert LinkAgrees(db.orders[db.capabilities[c].order], db.capabilities[c]);
  }

  /** Which answer an acceptance gives: a receipt again for a consumed link, or exactly one new
      agreement. The branch for an already booked payment and the unique-constraint failures
      are never taken. */
  lemma AcceptAnswer(db: Db, s: nat, csrf: nat, o: nat, expected: nat, r: nat, hash: Artifact, key: string,
                     linkReady: bool, newCsrf: nat, now: int)
    requires Inv(db)
    ensures var reply := AcceptClient(db, s, csrf, o, expected, r, hash, key, linkReady, newCsrf, now);
            && (reply.error.Some? ==> reply.db == db && reply.error != Some(Integrity))
            && (reply.error.None? ==>
                  SessionScope(db, s, Some(csrf), now).Some? &&
                  var c := SessionScope(db, s, Some(csrf), now).value;
                  && c in db.capabilities && o in db.orders && db.capabilities[c].order == o && db.capabilities[c].revision == r
                  && if db.capabilities[c].consumedAt.Some?
                     then db.orders[o].status == ClientApproved && reply.db == ReopenReceipt(db, c, newCsrf, now)
                     else Ready(db, c) && db.orders[o].rowVersion == expected && reply.db == Agree(db, c, key, newCsrf, now))
  {
    hide Inv, Actions.Apply, Agree, ReopenReceipt, IssueReceipt;
    var scope := SessionScope(db, s, Some(csrf), now);
    if scope.Some? {
      var c := scope.value;
      ScopeIsCurrent(db, c);
      LinkStage(db, c);
      if Ready(db, c) {
        NoDealYet(db, c);
        NextIsFresh(db, c);
      }
    }
  }

  lemma ReopenKeepsInv(db: Db, c: nat, csrf: nat, now: int)
    requires Inv(db) && c in db.capabilities && IsLive(db.capabilities[c])
    requires db.capabilities[c].order in db.orders && db.orders[db.capabilities[c].order].status == ClientApproved
    ensures Inv(ReopenReceipt(db, c, csrf, now))
  {
    hide Inv;
    ScopeIsCurrent(db, c);
    forall k { SessionKeepsInv(db, k, csrf, now); }
    ReceiptKeepsInv(db, c, csrf, now);
  }

  lemma AcceptKeepsInv(db: Db, s: nat, csrf: nat, o: nat, expected: nat, r: nat, hash: Artifact, key: string,
                       linkReady: bool, newCsrf: nat, now: int)
    requires Inv(db)
    ensures Inv(AcceptClient(db, s, csrf, o, expected, r, hash, key, linkReady, newCsrf, now).db)
  {
    hide Inv, Agree, ReopenReceipt;
    AcceptAnswer(db, s, csrf, o, expected, r, hash, key, linkReady, newCsrf, now);
    var scope := SessionScope(db, s, Some(csrf), now);
    if AcceptClient(db, s, csrf, o, expected, r, hash, key, linkReady, newCsrf, now).error.None? {
      if db.capabilities[scope.value].consumedAt.Some? {
        ReopenKeepsInv(db, scope.value, newCsrf, now);
      } else {
        AgreeKeepsInv(db, scope.value, key, newCsrf, now);
      }
    }
  }

  // ---------------------------------------------------------------- expiry

  lemma ExpireOfferLinks(db: Db, o: nat, c: nat, now: int)
    requires Inv(db) && o in db.orders && db.orders[o].status in {SendPending, AwaitingClient}
    requires c in LiveReviews(db.capabilities, o)
    ensures var caps := db.capabilities[c := db.capabilities[c].(revokedAt := Some(now))];
            LinksOk(db.orders[o := Moved(db.orders[o], Expired)], caps) && OneReview(caps)
  {
    hide RevisionsOk, SealedOk, LinksOk, OneReview, ApprovalsOk, ApprovedOk, SendsOk, PaymentsOk, FactsOk, AmendmentsOk,
      BookedOk, NumberedOk, ParentsOk, BaselinesOk, ProvenanceOk, ItemsOk;
    ExpireKeepsLinks(db.orders, db.capabilities, o, c, now);
  }

  lemma ExpireOfferKeepsInv(db: Db, o: nat, now: int)
    requires Inv(db)
    ensures Inv(ExpireOffer(db, o, now))
  {
    hide Inv, Actions.Apply;
    if ExpireOffer(db, o, now) != db {
      var c := MaxOf(LiveReviews(db.capabilities, o));
      ExpireOfferLinks(db, o, c, now);
      CancelKeepsSends(db, o);
      MoveKeepsInv(db, o, Expired, db.capabilities[c := db.capabilities[c].(revokedAt := Some(now))], CancelPendingSend(db.sends, o));
    }
  }

  lemma ExpireUnsentKeepsInv(db: Db, o: nat, now: int)
    requires Inv(db)
    ensures Inv(ExpireUnsent(db, o, now))
  {
    hide Inv, Actions.Apply;
    if ExpireUnsent(db, o, now) != db {
      CloseLinks(db, o, Expired, now);
      CancelKeepsSends(db, o);
      MoveKeepsInv(db, o, Expired, Revoke(db.capabilities, o, now, false), CancelPendingSend(db.sends, o));
    }
  }

  lemma {:induction false} SweepKeepsInv(db: Db, offers: seq<nat>, unsent: seq<nat>, now: int)
    requires Inv(db)
    ensures Inv(ExpireOffers(db, offers, now))
    ensures Inv(ExpireUnsents(ExpireOffers(db, offers, now), unsent, now))
    decreases |offers| + |unsent|
  {
    hide Inv;
    if unsent != [] {
      SweepKeepsInv(db, offers, unsent[..|unsent| - 1], now);
      ExpireUnsentKeepsInv(ExpireUnsents(ExpireOffers(db, offers, now), unsent[..|unsent| - 1], now), unsent[|unsent| - 1], now);
    } else if offers != [] {
      SweepKeepsInv(db, offers[..|offers| - 1], [], now);
      ExpireOfferKeepsInv(ExpireOffers(db, offers[..|offers| - 1], now), offers[|offers| - 1], now);
    }
  }

  // ---------------------------------------------------------------- sending

  lemma ActionKeepsInv(db: Db, s: nat, a: Actions.Action)
    requires Inv(db) && s in db.sends
    ensures Inv(WithAction(db, s, a))
  {
    hide RevisionsOk, SealedOk, LinksOk, OneReview, ApprovalsOk, ApprovedOk, SendsOk, PaymentsOk, FactsOk, AmendmentsOk,
      BookedOk, NumberedOk, ParentsOk, BaselinesOk, ProvenanceOk, ItemsOk;
    ActionKeepsSends(db.revisions, db.approvals, db.sends, s, a);
  }

  lemma BeginSendKeepsInv(db: Db, s: nat, commitsFailure: bool)
    requires Inv(db)
    ensures Inv(BeginSend(db, s, commitsFailure).db)
  {
    hide Inv, Actions.Apply;
    if s in db.sends { ActionKeepsInv(db, s, Actions.Apply(db.sends[s].action, Actions.Begin).row); }
  }

  lemma SendOpKeepsInv(db: Db, s: nat, op: Actions.Op, commitsFailure: bool)
    requires Inv(db)
    ensures Inv(SendOp(db, s, op, commitsFailure).db)
  {
    hide Inv, Actions.Apply;
    if s in db.sends { ActionKeepsInv(db, s, Actions.Apply(db.sends[s].action, op).row); }
  }

  lemma SentLinks(db: Db, o: nat)
    requires Inv(db) && o in db.orders && db.orders[o].status == SendPending
    ensures LinksOk(db.orders[o := Moved(db.orders[o], AwaitingClient)], db.capabilities) && OneReview(db.capabilities)
    ensures SendsOk(db.revisions, db.approvals, db.sends)
  {
    hide RevisionsOk, SealedOk, LinksOk, OneReview, ApprovalsOk, ApprovedOk, SendsOk, PaymentsOk, FactsOk, AmendmentsOk,
      BookedOk, NumberedOk, ParentsOk, BaselinesOk, ProvenanceOk, ItemsOk;
    MoveKeepsLinks(db.orders, db.capabilities, o, AwaitingClient);
  }

  lemma DeliveredKeepsInv(db: Db, o: nat)
    requires Inv(db)
    ensures Inv(Delivered(db, o))
  {
    hide Inv;
    if o in db.orders && db.orders[o].status == SendPending {
      SentLinks(db, o);
      MoveKeepsInv(db, o, AwaitingClient, db.capabilities, db.sends);
    }
  }

  lemma RecordSentKeepsInv(db: Db, s: nat, contentMatches: bool, commitsFailure: bool)
    requires Inv(db)
    ensures Inv(RecordSent(db, s, contentMatches, commitsFailure).db)
  {
    hide Inv, Actions.Apply, Delivered;
    if s in db.sends {
      var op := if db.sends[s].action.state == Actions.UnknownOutcome then Actions.LateGmailSuccess else Actions.Complete;
      var row := Actions.Apply(db.sends[s].action, op).row;
      ActionKeepsInv(db, s, row);
      DeliveredKeepsInv(WithAction(db, s, row), db.sends[s].payload.order);
    }
  }

  // ---------------------------------------------------------------- scope confirmation

  lemma ConfirmKeepsScope(db: Db, p: nat, ids: set<nat>)
    requires Inv(db) && p in db.projects
    ensures var next := ScopeKey(p, MaxOf(NumbersOf(db.versions, p)) + 1);
            var v := ScopeVersion(db.projects[p].current, None);
            ScopeOk(db.(versions := db.versions[next := v], links := db.links + NewLinks(next, ids),
                        projects := db.projects[p := Project(Some(next), true)]))
  {
    hide RevisionsOk, SealedOk, LinksOk, OneReview, ApprovalsOk, ApprovedOk, SendsOk, PaymentsOk, FactsOk, AmendmentsOk,
      BookedOk, NumberedOk, ParentsOk, BaselinesOk, ProvenanceOk, ItemsOk;
    var next := ScopeKey(p, Head(db.projects[p]) + 1);
    var v := ScopeVersion(db.projects[p].current, None);
    NumbersAreHead(db.projects, db.versions, p);
    HeadIsLast(db.projects, db.versions, p);
    AppendKeepsHistory(db.projects, db.versions, p, Project(Some(next), true), v);
    AppendKeepsBaselines(db.revisions, db.versions, next, v);
    ConfirmKeepsProvenance(db.versions, db.amendments, next, db.projects[p].current);
    ConfirmKeepsItems(db.projects, db.versions, db.links, next, db.projects[p].current, ids);
  }

  lemma HeadIsLast(projects: map<nat, Project>, versions: map<ScopeKey, ScopeVersion>, p: nat)
    requires HistoryOk(projects, versions) && p in projects
    ensures ScopeKey(p, Head(projects[p]) + 1) !in versions
  {}

  lemma ConfirmScopeKeepsInv(db: Db, p: nat, chosen: set<nat>)
    requires Inv(db)
    ensures Inv(ConfirmScope(db, p, chosen).db)
  {
    hide RevisionsOk, SealedOk, LinksOk, OneReview, ApprovalsOk, ApprovedOk, SendsOk, PaymentsOk, FactsOk, AmendmentsOk,
      BookedOk, NumberedOk, ParentsOk, BaselinesOk, ProvenanceOk, ItemsOk;
    if ConfirmScope(db, p, chosen).error.None? {
      ConfirmKeepsScope(db, p, ItemIds(chosen, db.nextId));
    }
  }
}
