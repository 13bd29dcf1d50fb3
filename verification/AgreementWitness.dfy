/** A run that reaches an approved order: what is said about all runs is not said about none. */
module AgreementWitness {
  import opened Common
  import opened ChangeOrders
  import opened AgreementRules
  import opened AgreementRuns
  import opened AgreementTheorems
  import opened AgreementReplay
  import Actions

  const SCOPE: ScopeKey := ScopeKey(0, 1)
  const OFFER: Content := Content("t", "c", ["d"], [], [], "e", "s", "p", "h", "client", [], [0], Terms(100, 18, 0))
  const SEALED: Artifact := Artifact(SCOPE, 1, 0, OFFER)
  const PROPOSAL: Proposal := Proposal(true, Some(OFFER), 0, 0, Some(0), "owner")

  /** A confirmed project with one open request and nothing else, and an id n to go on with. */
  ghost predicate Confirmed(db: Db) {
    && 0 in db.projects && db.projects[0].current == Some(SCOPE)
    && 0 in db.requests && db.requests[0] == Request(0, Open, 1, 1)
    && db.orders == map[] && db.revisions == map[] && db.capabilities == map[] && db.sends == map[] && db.approvals == map[]
  }

  lemma ConfirmedScope() returns (a: Db, b: Db, c: Db, db: Db)
    ensures a == Apply(EMPTY, ProjectStep(0)) && b == Apply(a, CandidateStep(0, Candidate(0, "k", "included", "x", false, false)))
    ensures c == Apply(b, ConfirmScopeStep(0, {0})) && db == Apply(c, RequestStep(0, Request(0, Open, 1, 1)))
    ensures Confirmed(db)
  {
    hide Apply;
    a := Apply(EMPTY, ProjectStep(0));
    b := Apply(a, CandidateStep(0, Candidate(0, "k", "included", "x", false, false)));
    FirstRows(a, b);
    c := Apply(b, ConfirmScopeStep(0, {0}));
    FirstScope(b, c);
    db := Apply(c, RequestStep(0, Request(0, Open, 1, 1)));
    FirstRequest(c, db);
  }

  lemma FirstRows(a: Db, b: Db)
    requires a == Apply(EMPTY, ProjectStep(0)) && b == Apply(a, CandidateStep(0, Candidate(0, "k", "included", "x", false, false)))
    ensures b == EMPTY.(projects := map[0 := Project(None, false)], candidates := map[0 := Candidate(0, "k", "included", "x", false, false)])
  {}

  lemma FirstScope(b: Db, c: Db)
    requires b == EMPTY.(projects := map[0 := Project(None, false)], candidates := map[0 := Candidate(0, "k", "included", "x", false, false)])
    requires c == Apply(b, ConfirmScopeStep(0, {0}))
    ensures 0 in c.projects && c.projects[0].current == Some(SCOPE)
    ensures c.orders == map[] && c.revisions == map[] && c.capabilities == map[] && c.sends == map[] && c.approvals == map[]
  {
    hide ChangeOrders.Confirmed, NewItems, NewLinks, ItemIds;
    assert NumbersOf(b.versions, 0) == {};
    assert 0 in b.candidates;
    assert ConfirmScope(b, 0, {0}).error.None?;
  }

  lemma FirstRequest(c: Db, db: Db)
    requires 0 in c.projects && c.projects[0].current == Some(SCOPE) && db == Apply(c, RequestStep(0, Request(0, Open, 1, 1)))
    requires c.orders == map[] && c.revisions == map[] && c.capabilities == map[] && c.sends == map[] && c.approvals == map[]
    ensures Confirmed(db)
  {}

  /** The rows of one offer. */
  datatype Ids = Ids(order: nat, revision: nat, link: nat, send: nat)

  ghost predicate HasOffer(db: Db, i: Ids, status: OrderStatus, rowVersion: nat) {
    && i.order in db.orders && db.orders[i.order] == Order(0, 0, Some(i.revision), status, rowVersion)
    && db.revisions == map[i.revision := Drafted(i.order, 0, 1, SEALED)]
    && 0 in db.projects && db.projects[0].current == Some(SCOPE)
    && i.link in db.capabilities && db.capabilities[i.link].order == i.order && db.capabilities[i.link].revision == i.revision
    && db.capabilities[i.link].purpose == Review && db.capabilities[i.link].consumedAt.None? && db.capabilities[i.link].revokedAt.None?
  }

  ghost predicate Assembled(db: Db, i: Ids) {
    && HasOffer(db, i, AwaitingFreelancer, 2) && 0 in db.requests && db.requests[0].version == 1
    && db.approvals == map[] && db.sends == map[]
  }

  lemma AssembleOffer(db: Db) returns (i: Ids)
    requires Confirmed(db)
    ensures Assembled(Assemble(db, PROPOSAL, 0, 0).db, i)
  {
    hide Revoke;
    i := Ids(db.nextId, db.nextId + 1, db.nextId + 2, 0);
    assert Matches(db.orders, 0, 0) == {};
    assert Complete(OFFER);
  }

  ghost predicate Approved(db: Db, i: Ids) {
    && HasOffer(db, i, SendPending, 3)
    && db.capabilities[i.link].activatedAt.Some? && db.capabilities[i.link].expiresAt == Some(7 * DAY)
    && i.send in db.sends && db.sends[i.send].payload.order == i.order && db.sends[i.send].action == Actions.NEW_ACTION
    && db.sends[i.send].order == i.order && db.sends[i.send].revision == i.revision && db.sends.Keys == {i.send}
    && 0 in db.requests && db.requests[0].version == 1
    && db.approvals.Keys == {ApprovalKey(i.revision, Freelancer, ChangeOrders.Approved)}
  }

  lemma ApproveOffer(db: Db, i: Ids) returns (j: Ids)
    requires Assembled(db, i)
    ensures j == i.(send := j.send) && Approved(ApproveFreelancer(db, i.order, 2, i.revision, SEALED, false, i.link, 0).db, j)
  {
    hide Projection;
    j := i.(send := db.nextId);
    assert ApprovalFault(db, i.order, 2, i.revision, SEALED, false).None?;
    assert i.link in LiveFor(db.capabilities, i.revision);
    var offered := WithOffer(db, i.order, i.revision, SEALED, i.link, 0);
    assert SendsFor(offered.sends, i.order, i.revision) == {};
    assert ApproveFreelancer(db, i.order, 2, i.revision, SEALED, false, i.link, 0).db
        == WithSend(offered, i.order, i.revision, Projection(i.order, i.revision, db.revisions[i.revision]));
    ProjectionNames(i.order, i.revision, db.revisions[i.revision]);
  }

  lemma ProjectionNames(o: nat, r: nat, revision: Revision)
    ensures Projection(o, r, revision).order == o
  {}

  lemma FirstAttempt()
    ensures Actions.Apply(Actions.NEW_ACTION, Actions.Begin).Done?
    ensures Actions.Apply(Actions.NEW_ACTION, Actions.Begin).row.state == Actions.Dispatching
    ensures Actions.Apply(Actions.Apply(Actions.NEW_ACTION, Actions.Begin).row, Actions.Complete).Done?
  {
    assert MaxKey(Actions.NEW_ACTION.attempts) == 0;
    assert 1 in Actions.Apply(Actions.NEW_ACTION, Actions.Begin).row.attempts;
  }

  ghost predicate Sent(db: Db, i: Ids) {
    && HasOffer(db, i, AwaitingClient, 4)
    && db.capabilities[i.link].activatedAt.Some? && db.capabilities[i.link].expiresAt == Some(7 * DAY)
  }

  lemma SendOffer(db: Db, i: Ids)
    requires Approved(db, i)
    ensures Sent(RecordSent(BeginSend(db, i.send, false).db, i.send, true, false).db, i)
  {
    hide Actions.Apply;
    FirstAttempt();
  }

  ghost predicate Opened(db: Db, i: Ids, s: nat) {
    && HasOffer(db, i, AwaitingClient, 4) && SessionScope(db, s, Some(1), 0) == Some(i.link)
  }

  lemma OpenOffer(db: Db, i: Ids)
    requires Sent(db, i)
    ensures Opened(Exchange(db, i.link, 1, 0).db, i, db.nextId)
  {
    hide ReceiptsFor, MaxOf;
  }

  /** Confirm, propose, approve, send, open and accept lead to an approved order. */
  lemma AnOfferCanBeAccepted() returns (run: seq<Db>, steps: seq<Step>, o: nat)
    ensures IsRun(run, steps) && o in run[|run| - 1].orders && run[|run| - 1].orders[o].status == ClientApproved
  {
    hide Assemble, ApproveFreelancer, AcceptClient, RecordSent, BeginSend, Exchange, ConfirmScope, CreateRevision, FreelancerDecide,
      Withdraw, Refresh, ClientDecide, ExpireOffers, ExpireUnsents, SendOp, Inv, Assembled, Approved, Sent, HasOffer, Confirmed, MayAccept, SessionScope;
    var a, b, c, d := ConfirmedScope();
    var i := AssembleOffer(d);
    var e := Assemble(d, PROPOSAL, 0, 0).db;
    var j := ApproveOffer(e, i);
    var f := ApproveFreelancer(e, i.order, 2, i.revision, SEALED, false, i.link, 0).db;
    SendOffer(f, j);
    var g := BeginSend(f, j.send, false).db;
    var h := RecordSent(g, j.send, true, false).db;
    OpenOffer(h, j);
    var k := Exchange(h, j.link, 1, 0).db;
    o := j.order;
    var accept := AcceptStep(h.nextId, 1, o, 4, j.revision, SEALED, "key", true, 2, 0);
    steps := [ProjectStep(0), CandidateStep(0, Candidate(0, "k", "included", "x", false, false)), ConfirmScopeStep(0, {0}),
              RequestStep(0, Request(0, Open, 1, 1)), AssembleStep(PROPOSAL, 0, 0),
              ApproveStep(i.order, 2, i.revision, SEALED, false, i.link, 0), BeginSendStep(j.send, false),
              RecordSentStep(j.send, true, false), ExchangeStep(j.link, 1, 0), accept];
    run := [EMPTY, a, b, c, d, e, f, g, h, k, Apply(k, accept)];
    ReachableInv(run, steps, 9);
    AcceptOpened(k, j, h.nextId);
  }

  lemma AcceptOpened(db: Db, i: Ids, s: nat)
    requires Inv(db) && Opened(db, i, s)
    ensures var after := AcceptClient(db, s, 1, i.order, 4, i.revision, SEALED, "key", true, 2, 0).db;
            i.order in after.orders && after.orders[i.order].status == ClientApproved
  {
    hide Inv, AcceptClient;
    AcceptanceGoesThroughIff(db, s, 1, i.order, 4, i.revision, SEALED, "key", true, 2, 0);
    AcceptRecords(db, s, 1, i.order, 4, i.revision, SEALED, "key", true, 2, 0);
  }

  // ---------------------------------------------------------------- an email that is not the current offer

  /** The order was edited after its approval; the first email is still waiting. */
  ghost predicate Revised(db: Db, i: Ids, r: nat, c: nat) {
    && i.order in db.orders && db.orders[i.order] == Order(0, 0, Some(r), AwaitingFreelancer, 4)
    && r != i.revision && r in db.revisions && db.revisions[r] == Drafted(i.order, 0, 2, SEALED)
    && 0 in db.projects && db.projects[0].current == Some(SCOPE) && 0 in db.requests && db.requests[0].version == 1
    && c in LiveFor(db.capabilities, r)
    && db.approvals.Keys == {ApprovalKey(i.revision, Freelancer, ChangeOrders.Approved)}
    && db.sends.Keys == {i.send} && i.send < db.nextId && db.sends[i.send].action == Actions.NEW_ACTION
    && db.sends[i.send].payload.order == i.order && db.sends[i.send].order == i.order && db.sends[i.send].revision == i.revision
  }

  lemma ReviseOffer(db: Db, i: Ids)
    requires Inv(db) && Approved(db, i)
    ensures Revised(CreateRevision(db, i.order, NO_EDITS, 0).db, i, db.nextId, db.nextId + 1)
  {
    hide Inv, Revoke;
    IdsAreOld(db, i);
    assert Edited(OFFER, NO_EDITS) == OFFER;
    assert CreateRevision(db, i.order, NO_EDITS, 0).db == InstallRevision(db, i.order, SEALED, 0);
  }

  lemma IdsAreOld(db: Db, i: Ids)
    requires Inv(db) && i.revision in db.revisions && i.send in db.sends
    ensures i.revision < db.nextId && i.send < db.nextId
  {
    hide ProposalsOk, DealsOk, ScopeOk;
  }

  ghost predicate Outdated(db: Db, i: Ids) {
    && i.order in db.orders && db.orders[i.order].status == SendPending && db.orders[i.order].current.Some?
    && db.orders[i.order].current.value != i.revision
    && i.send in db.sends && db.sends[i.send].action == Actions.NEW_ACTION
    && db.sends[i.send].payload.order == i.order && db.sends[i.send].order == i.order && db.sends[i.send].revision == i.revision
  }

  lemma ApproveAgain(db: Db, i: Ids, r: nat, c: nat)
    requires Revised(db, i, r, c)
    ensures Outdated(ApproveFreelancer(db, i.order, 4, r, SEALED, false, c, 0).db, i)
  {
    hide Projection;
    assert ApprovalFault(db, i.order, 4, r, SEALED, false).None?;
    var offered := WithOffer(db, i.order, r, SEALED, c, 0);
    assert SendsFor(offered.sends, i.order, r) == {};
    assert ApproveFreelancer(db, i.order, 4, r, SEALED, false, c, 0).db == WithSend(offered, i.order, r, Projection(i.order, r, db.revisions[r]));
  }

  /** Approve, edit and approve again: the email of the first revision may still leave, while the
      order's current revision is the second. */
  lemma AnOutdatedEmailCanLeave() returns (run: seq<Db>, steps: seq<Step>, s: nat)
    ensures IsRun(run, steps) && |run| == 9 && BeginSend(run[8], s, false).error.None?
    ensures s in run[8].sends && run[8].sends[s].order in run[8].orders
    ensures run[8].orders[run[8].sends[s].order].current != Some(run[8].sends[s].revision)
  {
    hide Assemble, ApproveFreelancer, AcceptClient, RecordSent, BeginSend, Exchange, ConfirmScope, CreateRevision, FreelancerDecide,
      Withdraw, Refresh, ClientDecide, ExpireOffers, ExpireUnsents, SendOp, Inv, Assembled, Approved, Revised, HasOffer, Confirmed, Outdated;
    var a, b, c, d := ConfirmedScope();
    var i := AssembleOffer(d);
    var e := Assemble(d, PROPOSAL, 0, 0).db;
    var j := ApproveOffer(e, i);
    var f := ApproveFreelancer(e, i.order, 2, i.revision, SEALED, false, i.link, 0).db;
    var g := CreateRevision(f, j.order, NO_EDITS, 0).db;
    var h := ApproveFreelancer(g, j.order, 4, f.nextId, SEALED, false, f.nextId + 1, 0).db;
    steps := [ProjectStep(0), CandidateStep(0, Candidate(0, "k", "included", "x", false, false)), ConfirmScopeStep(0, {0}),
              RequestStep(0, Request(0, Open, 1, 1)), AssembleStep(PROPOSAL, 0, 0),
              ApproveStep(i.order, 2, i.revision, SEALED, false, i.link, 0), ReviseStep(j.order, NO_EDITS, 0),
              ApproveStep(j.order, 4, f.nextId, SEALED, false, f.nextId + 1, 0)];
    run := [EMPTY, a, b, c, d, e, f, g, h];
    ReachableInv(run, steps, 6);
    ReviseOffer(f, j);
    ApproveAgain(g, j, f.nextId, f.nextId + 1);
    OutdatedLeaves(h, j);
    s := j.send;
  }

  lemma OutdatedLeaves(db: Db, i: Ids)
    requires Outdated(db, i)
    ensures BeginSend(db, i.send, false).error.None?
    ensures i.send in db.sends && db.sends[i.send].order in db.orders
    ensures db.orders[db.sends[i.send].order].current != Some(db.sends[i.send].revision)
  {
    hide Actions.Apply;
    FirstAttempt();
  }
}
