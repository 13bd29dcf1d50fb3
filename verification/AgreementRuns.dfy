/** Whole runs of the agreement: any interleaving of the commands, and what holds in every
    state such a run reaches. */
module AgreementRuns {
  import opened Common
  import opened ChangeOrders
  import opened AgreementRules
  import opened AgreementSteps
  import Actions

  datatype Step =
    | AssembleStep(proposal: Proposal, pick: nat, now: int)
    | ReviseStep(order: nat, edits: Edits, now: int)
    | ApproveStep(order: nat, expected: nat, revision: nat, hash: Artifact, evidenceStale: bool, pick: nat, now: int)
    | FreelancerStep(order: nat, decision: Decision, now: int)
    | WithdrawStep(order: nat, now: int)
    | ExchangeStep(capability: nat, csrf: nat, now: int)
    | RefreshStep(session: nat, csrf: nat, now: int)
    | ClientStep(session: nat, csrf: nat, order: nat, expected: nat, revision: nat, hash: Artifact, decision: Decision, now: int)
    | AcceptStep(session: nat, csrf: nat, order: nat, expected: nat, revision: nat, hash: Artifact, key: string,
                 linkReady: bool, newCsrf: nat, now: int)
    | ExpireStep(offers: seq<nat>, unsent: seq<nat>, now: int)
    | BeginSendStep(send: nat, commitsFailure: bool)
    | RecordSentStep(send: nat, contentMatches: bool, commitsFailure: bool)
    | SendOpStep(send: nat, op: Actions.Op, commitsFailure: bool)
    | ConfirmScopeStep(project: nat, chosen: set<nat>)
    // rows other services own
    | ProjectStep(project: nat)
    | RequestStep(requestId: nat, row: Request)
    | CandidateStep(candidate: nat, content: Candidate)

  ghost function Apply(db: Db, step: Step): Db {
    match step
    case AssembleStep(p, pick, now) => Assemble(db, p, pick, now).db
    case ReviseStep(o, edits, now) => CreateRevision(db, o, edits, now).db
    case ApproveStep(o, e, r, h, stale, pick, now) => ApproveFreelancer(db, o, e, r, h, stale, pick, now).db
    case FreelancerStep(o, d, now) => FreelancerDecide(db, o, d, now).db
    case WithdrawStep(o, now) => Withdraw(db, o, now).db
    case ExchangeStep(c, csrf, now) => Exchange(db, c, csrf, now).db
    case RefreshStep(s, csrf, now) => Refresh(db, s, csrf, now).db
    case ClientStep(s, csrf, o, e, r, h, d, now) => ClientDecide(db, s, csrf, o, e, r, h, d, now).db
    case AcceptStep(s, csrf, o, e, r, h, key, ready, csrf', now) => AcceptClient(db, s, csrf, o, e, r, h, key, ready, csrf', now).db
    case ExpireStep(offers, unsent, now) => ExpireUnsents(ExpireOffers(db, offers, now), unsent, now)
    case BeginSendStep(s, commits) => BeginSend(db, s, commits).db
    case RecordSentStep(s, matches, commits) => RecordSent(db, s, matches, commits).db
    case SendOpStep(s, op, commits) => SendOp(db, s, op, commits).db
    case ConfirmScopeStep(p, chosen) => ConfirmScope(db, p, chosen).db
    case ProjectStep(p) => if p in db.projects then db else db.(projects := db.projects[p := Project(None, false)])
    case RequestStep(q, row) => db.(requests := db.requests[q := row])
    case CandidateStep(i, row) => db.(candidates := db.candidates[i := row])
  }

  ghost predicate IsRun(run: seq<Db>, steps: seq<Step>) {
    && |run| == |steps| + 1
    && run[0] == EMPTY
    && forall i :: 0 <= i < |steps| ==> run[i + 1] == Apply(run[i], steps[i])
  }

  lemma OtherRowsKeepInv(db: Db, requests: map<nat, Request>, candidates: map<nat, Candidate>)
    requires Inv(db)
    ensures Inv(db.(requests := requests, candidates := candidates))
  {
    hide RevisionsOk, SealedOk, LinksOk, OneReview, ApprovalsOk, ApprovedOk, SendsOk, PaymentsOk, FactsOk, AmendmentsOk,
      BookedOk, NumberedOk, ParentsOk, BaselinesOk, ProvenanceOk, ItemsOk;
  }

  lemma NewProjectKeepsHistory(projects: map<nat, Project>, versions: map<ScopeKey, ScopeVersion>, p: nat)
    requires HistoryOk(projects, versions) && p !in projects
    ensures HistoryOk(projects[p := Project(None, false)], versions)
  {}

  lemma NewProjectKeepsInv(db: Db, p: nat)
    requires Inv(db) && p !in db.projects
    ensures Inv(db.(projects := db.projects[p := Project(None, false)]))
  {
    hide RevisionsOk, SealedOk, LinksOk, OneReview, ApprovalsOk, ApprovedOk, SendsOk, PaymentsOk, FactsOk, AmendmentsOk,
      BookedOk, NumberedOk, ParentsOk, BaselinesOk, ProvenanceOk, ItemsOk;
    NewProjectKeepsHistory(db.projects, db.versions, p);
  }

  lemma StepKeepsInv(db: Db, step: Step)
    requires Inv(db)
    ensures Inv(Apply(db, step))
  {
    hide Inv, Assemble, CreateRevision, ApproveFreelancer, FreelancerDecide, Withdraw, Exchange, Refresh, ClientDecide,
      AcceptClient, BeginSend, RecordSent, SendOp, ConfirmScope, ExpireOffers, ExpireUnsents;
    match step
    case AssembleStep(p, pick, now) => AssembleKeepsInv(db, p, pick, now);
    case ReviseStep(o, edits, now) => CreateRevisionKeepsInv(db, o, edits, now);
    case ApproveStep(o, e, r, h, stale, pick, now) => ApproveKeepsInv(db, o, e, r, h, stale, pick, now);
    case FreelancerStep(o, d, now) => FreelancerDecideKeepsInv(db, o, d, now);
    case WithdrawStep(o, now) => WithdrawKeepsInv(db, o, now);
    case ExchangeStep(c, csrf, now) => ExchangeKeepsInv(db, c, csrf, now);
    case RefreshStep(s, csrf, now) => RefreshKeepsInv(db, s, csrf, now);
    case ClientStep(s, csrf, o, e, r, h, d, now) => ClientDecideKeepsInv(db, s, csrf, o, e, r, h, d, now);
    case AcceptStep(s, csrf, o, e, r, h, key, ready, csrf', now) => AcceptKeepsInv(db, s, csrf, o, e, r, h, key, ready, csrf', now);
    case ExpireStep(offers, unsent, now) => SweepKeepsInv(db, offers, unsent, now);
    case BeginSendStep(s, commits) => BeginSendKeepsInv(db, s, commits);
    case RecordSentStep(s, matches, commits) => RecordSentKeepsInv(db, s, matches, commits);
    case SendOpStep(s, op, commits) => SendOpKeepsInv(db, s, op, commits);
    case ConfirmScopeStep(p, chosen) => ConfirmScopeKeepsInv(db, p, chosen);
    case ProjectStep(p) => if p !in db.projects { NewProjectKeepsInv(db, p); }
    case RequestStep(q, row) => OtherRowsKeepInv(db, db.requests[q := row], db.candidates);
    case CandidateStep(i, row) => OtherRowsKeepInv(db, db.requests, db.candidates[i := row]);
  }

  lemma EmptyInv()
    ensures Inv(EMPTY)
  {}

  lemma {:induction false} ReachableInv(run: seq<Db>, steps: seq<Step>, i: nat)
    requires IsRun(run, steps) && i < |run|
    ensures Inv(run[i])
  {
    hide Inv, Apply;
    if i == 0 {
      EmptyInv();
    } else {
      ReachableInv(run, steps, i - 1);
      StepKeepsInv(run[i - 1], steps[i - 1]);
    }
  }

  // ---------------------------------------------------------------- exactly-once acceptance

  function ClientApprovals(db: Db, o: nat): set<ApprovalKey> {
    set k | k in db.approvals && db.approvals[k].order == o && k.actor == Client && k.decision == Approved
  }

  /** Revisions of an order for which a table keyed by revision has a row. */
  function RowsOf(db: Db, o: nat, table: set<nat>): set<nat> {
    set r | r in table && r in db.revisions && db.revisions[r].order == o
  }

  /** One row of each kind, all for revision r and with its amounts. */
  ghost predicate AgreedOn(db: Db, o: nat, r: nat) {
    && r in db.revisions && r in db.payments && r in db.facts && r in db.amendments
    && ClientApprovals(db, o) == {ApprovalKey(r, Client, Approved)}
    && RowsOf(db, o, db.payments.Keys) == {r}
    && RowsOf(db, o, db.facts.Keys) == {r}
    && RowsOf(db, o, db.amendments.Keys) == {r}
    && db.payments[r].total == db.facts[r].amount == db.revisions[r].total
    && db.payments[r].tax == db.facts[r].tax == db.revisions[r].tax
  }

  lemma ApprovalCount(db: Db, o: nat)
    requires RevisionsOk(db.orders, db.revisions) && o in db.orders
    requires ApprovalsOk(db.orders, db.revisions, db.approvals) && ApprovedOk(db.orders, db.approvals)
    ensures HasCurrent(db.orders, db.revisions, o)
    ensures ClientApprovals(db, o) ==
              if db.orders[o].status == ClientApproved then {ApprovalKey(db.orders[o].current.value, Client, Approved)} else {}
  {
    assert HasCurrent(db.orders, db.revisions, o);
    var r := db.orders[o].current.value;
    forall k | k in ClientApprovals(db, o) ensures k == ApprovalKey(r, Client, Approved) && Allowed(db.orders[o].status, Client, Approved) {
    }
    if db.orders[o].status == ClientApproved {
      assert ApprovalKey(r, Client, Approved) in ClientApprovals(db, o);
    }
  }

  /** Rows that exist only for approved current revisions, and exist for each of those. */
  lemma RowCount(db: Db, o: nat, table: set<nat>)
    requires o in db.orders && HasCurrent(db.orders, db.revisions, o)
    requires forall r :: r in table && r in db.revisions && db.revisions[r].order == o ==> ApprovedWith(db.orders[o], r)
    requires db.orders[o].status == ClientApproved ==> db.orders[o].current.value in table
    ensures RowsOf(db, o, table) == if db.orders[o].status == ClientApproved then {db.orders[o].current.value} else {}
  {
    forall q | q in RowsOf(db, o, table) ensures ApprovedWith(db.orders[o], q) {}
  }

  lemma DealCount(db: Db, o: nat)
    requires DealsOk(db) && o in db.orders && HasCurrent(db.orders, db.revisions, o)
    ensures var rows := if db.orders[o].status == ClientApproved then {db.orders[o].current.value} else {};
            && RowsOf(db, o, db.payments.Keys) == rows
            && RowsOf(db, o, db.facts.Keys) == rows
            && RowsOf(db, o, db.amendments.Keys) == rows
  {
    RowCount(db, o, db.payments.Keys);
    RowCount(db, o, db.facts.Keys);
    RowCount(db, o, db.amendments.Keys);
  }

  lemma ApprovedRowAmounts(db: Db, o: nat)
    requires DealsOk(db) && o in db.orders && HasCurrent(db.orders, db.revisions, o) && db.orders[o].status == ClientApproved
    ensures var r := db.orders[o].current.value;
            && r in db.payments && r in db.facts && r in db.amendments
            && db.payments[r].total == db.facts[r].amount == db.revisions[r].total
            && db.payments[r].tax == db.facts[r].tax == db.revisions[r].tax
  {}

  /** In every reachable state an order is approved exactly when it has one client approval,
      one payment request, one revenue fact and one amendment, all for its current revision
      and with that revision's amounts; otherwise it has none of them. */
  lemma ExactlyOnce(run: seq<Db>, steps: seq<Step>, i: nat, o: nat)
    requires IsRun(run, steps) && i < |run| && o in run[i].orders
    ensures var db := run[i];
            && db.orders[o].current.Some?
            && (db.orders[o].status == ClientApproved <==> AgreedOn(db, o, db.orders[o].current.value))
            && (db.orders[o].status != ClientApproved ==>
                  && ClientApprovals(db, o) == {} && RowsOf(db, o, db.payments.Keys) == {}
                  && RowsOf(db, o, db.facts.Keys) == {} && RowsOf(db, o, db.amendments.Keys) == {})
  {
    hide RevisionsOk, SealedOk, LinksOk, OneReview, ApprovalsOk, ApprovedOk, SendsOk, PaymentsOk, FactsOk, AmendmentsOk,
      BookedOk, NumberedOk, ParentsOk, BaselinesOk, ProvenanceOk, ItemsOk;
    hide Apply;
    ReachableInv(run, steps, i);
    ApprovalCount(run[i], o);
    DealCount(run[i], o);
    if run[i].orders[o].status == ClientApproved { ApprovedRowAmounts(run[i], o); }
  }
}
