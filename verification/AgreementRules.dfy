/** What the agreement tables guarantee in every reachable state, one predicate per group of
    tables, and how each kind of change keeps them. */
module AgreementRules {
  import opened Common
  import opened ChangeOrders
  import Actions

  // ---------------------------------------------------------------- the rules

  function Seal(r: Revision): Artifact { Artifact(r.baseline, r.requestVersion, r.contact, r.content) }

  /** Every order has exactly one unsuperseded revision, its current one, and every stored
      content hash is the digest of the revision's own fields. */
  ghost predicate RevisionsOk(orders: map<nat, Order>, revisions: map<nat, Revision>) {
    && (forall o :: o in orders ==> HasCurrent(orders, revisions, o) && orders[o].status != Draft)
    && (forall r :: r in revisions ==>
          && revisions[r].order in orders
          && revisions[r].project == orders[revisions[r].order].project
          && (revisions[r].superseded <==> orders[revisions[r].order].current != Some(r))
          && IsOlder(orders[revisions[r].order], revisions, r))
    && DistinctOk(revisions)
  }

  ghost predicate DistinctOk(revisions: map<nat, Revision>) {
    forall r, q :: r in revisions && q in revisions && SameNumber(revisions[r], revisions[q]) ==> r == q
  }

  predicate SameNumber(a: Revision, b: Revision) { a.order == b.order && a.number == b.number }

  /** The current revision has the highest number of its order, and the others lower ones. */
  predicate IsOlder(order: Order, revisions: map<nat, Revision>, r: nat)
    requires r in revisions
  {
    && 1 <= revisions[r].number && order.current.Some? && order.current.value in revisions
    && (r == order.current.value || revisions[r].number < revisions[order.current.value].number)
  }

  /** The stored hash and amounts are those of the frozen content. */
  predicate IsSealed(r: Revision) {
    && r.hash == Seal(r)
    && r.total == r.content.terms.total
    && r.tax == r.content.terms.tax
    && Complete(r.content)
  }

  ghost predicate SealedOk(revisions: map<nat, Revision>) {
    forall r :: r in revisions ==> IsSealed(revisions[r])
  }

  predicate IsClosed(s: OrderStatus) {
    s in {RevisionRequested, RejectedByFreelancer, RejectedByClient, Withdrawn, Expired}
  }

  predicate IsLive(c: Capability) { c.revokedAt.None? }

  predicate IsLiveReview(c: Capability) { IsLive(c) && c.purpose == Review }

  /** A live link points at its order's current revision and its order is not closed; receipts
      belong to approved orders; a review link is consumed exactly on approval. */
  predicate LinkAgrees(order: Order, c: Capability) {
    && order.current == Some(c.revision)
    && !IsClosed(order.status)
    && (c.purpose == Receipt ==> order.status == ClientApproved)
    && (c.purpose == Review ==> (c.consumedAt.Some? <==> order.status == ClientApproved))
  }

  ghost predicate LinksOk(orders: map<nat, Order>, caps: map<nat, Capability>) {
    && (forall c :: c in caps ==> caps[c].order in orders)
    && (forall c :: c in caps && IsLive(caps[c]) ==> LinkAgrees(orders[caps[c].order], caps[c]))
  }

  ghost predicate OneReview(caps: map<nat, Capability>) {
    forall c, d :: c in caps && d in caps && IsLiveReview(caps[c]) && IsLiveReview(caps[d]) && caps[c].order == caps[d].order ==> c == d
  }

  /** The approvals a status allows for the order's current revision. */
  predicate Allowed(s: OrderStatus, actor: Actor, d: Decision) {
    match s
    case AwaitingFreelancer => false
    case SendPending => actor == Freelancer && d == Approved
    case AwaitingClient => actor == Freelancer && d == Approved
    case ClientApproved => d == Approved
    case _ => !(actor == Client && d == Approved)
  }

  ghost predicate ApprovalsOk(orders: map<nat, Order>, revisions: map<nat, Revision>, approvals: map<ApprovalKey, Approval>) {
    forall k :: k in approvals ==>
      && k.revision in revisions
      && approvals[k].order == revisions[k.revision].order && approvals[k].order in orders
      && approvals[k].hash == revisions[k.revision].hash
      && (orders[approvals[k].order].current == Some(k.revision) ==> Allowed(orders[approvals[k].order].status, k.actor, k.decision))
      && (k.actor == Client && k.decision == Approved ==> orders[approvals[k].order].current == Some(k.revision))
  }

  /** The freelancer has approved the current revision. */
  predicate IsOffered(s: OrderStatus) { s in {SendPending, AwaitingClient, ClientApproved} }

  /** The approvals a status needs for the order's current revision. */
  ghost predicate ApprovedOk(orders: map<nat, Order>, approvals: map<ApprovalKey, Approval>) {
    forall o :: o in orders && orders[o].current.Some? ==>
      && (IsOffered(orders[o].status) ==> ApprovalKey(orders[o].current.value, Freelancer, Approved) in approvals)
      && (orders[o].status == ClientApproved ==> ApprovalKey(orders[o].current.value, Client, Approved) in approvals)
  }

  /** Every send action carries the projection of a revision the freelancer approved, and there
      is one action per revision. */
  ghost predicate SendsOk(revisions: map<nat, Revision>, approvals: map<ApprovalKey, Approval>, sends: map<nat, Send>) {
    && (forall s :: s in sends ==>
          && sends[s].revision in revisions
          && sends[s].order == revisions[sends[s].revision].order
          && sends[s].payload == Projection(sends[s].order, sends[s].revision, revisions[sends[s].revision])
          && ApprovalKey(sends[s].revision, Freelancer, Approved) in approvals)
    && (forall s, t :: s in sends && t in sends && sends[s].revision == sends[t].revision ==> s == t)
  }

  ghost predicate PaymentsOk(orders: map<nat, Order>, revisions: map<nat, Revision>, payments: map<nat, Payment>) {
    forall r :: r in payments ==>
      && r in revisions && revisions[r].order in orders
      && ApprovedWith(orders[revisions[r].order], r)
      && payments[r].project == revisions[r].project
      && payments[r].total == revisions[r].total && payments[r].tax == revisions[r].tax
  }

  predicate ApprovedWith(order: Order, r: nat) { order.status == ClientApproved && order.current == Some(r) }

  ghost predicate FactsOk(orders: map<nat, Order>, revisions: map<nat, Revision>, facts: map<nat, Fact>) {
    forall r :: r in facts ==>
      && r in revisions && revisions[r].order in orders
      && ApprovedWith(orders[revisions[r].order], r)
      && facts[r].project == revisions[r].project && facts[r].order == revisions[r].order
      && facts[r].amount == revisions[r].total && facts[r].tax == revisions[r].tax
  }

  ghost predicate AmendmentsOk(orders: map<nat, Order>, revisions: map<nat, Revision>, amendments: map<nat, Amendment>) {
    forall r :: r in amendments ==>
      && r in revisions && revisions[r].order in orders
      && ApprovedWith(orders[revisions[r].order], r)
      && amendments[r].project == revisions[r].project
      && amendments[r].previous == revisions[r].baseline
  }

  /** Approval leaves one row of each kind. */
  ghost predicate BookedOk(orders: map<nat, Order>, payments: map<nat, Payment>, facts: map<nat, Fact>, amendments: map<nat, Amendment>) {
    forall o :: o in orders && orders[o].status == ClientApproved && orders[o].current.Some? ==>
      orders[o].current.value in payments && orders[o].current.value in facts && orders[o].current.value in amendments
  }

  /** Version number of the project's effective scope, 0 before the first confirmation. */
  function Head(p: Project): nat { if p.current.Some? then p.current.value.number else 0 }

  /** The version a numbered version grew from. */
  function ParentOf(k: ScopeKey): Option<ScopeKey> {
    if k.number <= 1 then None else Some(ScopeKey(k.project, k.number - 1))
  }

  /** The versions of a project are exactly those numbered 1..Head. */
  ghost predicate NumberedOk(projects: map<nat, Project>, versions: map<ScopeKey, ScopeVersion>) {
    && (forall p :: p in projects && projects[p].current.Some? ==>
          projects[p].current.value.project == p && 1 <= projects[p].current.value.number)
    && (forall k :: k in versions <==> k.project in projects && 1 <= k.number <= Head(projects[k.project]))
  }

  ghost predicate ParentsOk(versions: map<ScopeKey, ScopeVersion>) {
    forall k :: k in versions ==> versions[k].parent == ParentOf(k)
  }

  /** Versions of a project are numbered 1..Head, each the child of the one before. */
  ghost predicate HistoryOk(projects: map<nat, Project>, versions: map<ScopeKey, ScopeVersion>) {
    NumberedOk(projects, versions) && ParentsOk(versions)
  }

  ghost predicate BaselinesOk(revisions: map<nat, Revision>, versions: map<ScopeKey, ScopeVersion>) {
    forall r :: r in revisions ==> revisions[r].baseline in versions && revisions[r].baseline.project == revisions[r].project
  }

  /** Amendments and the versions they produced name each other. */
  ghost predicate ProvenanceOk(versions: map<ScopeKey, ScopeVersion>, amendments: map<nat, Amendment>) {
    && (forall r :: r in amendments ==>
          && amendments[r].resulting in versions
          && versions[amendments[r].resulting] == ScopeVersion(Some(amendments[r].previous), Some(r)))
    && (forall k :: k in versions && versions[k].source.Some? ==>
          versions[k].source.value in amendments && amendments[versions[k].source.value].resulting == k)
  }

  /** An accepted version has exactly its parent's items. */
  ghost predicate ItemsOk(versions: map<ScopeKey, ScopeVersion>, links: set<(ScopeKey, nat)>) {
    && (forall l :: l in links ==> l.0 in versions)
    && (forall k, i: nat :: k in versions && versions[k].source.Some? && versions[k].parent.Some? ==>
          ((k, i) in links <==> (versions[k].parent.value, i) in links))
  }

  ghost predicate IdsOk(db: Db) {
    && (forall o :: o in db.orders ==> o < db.nextId)
    && (forall r :: r in db.revisions ==> r < db.nextId)
    && (forall c :: c in db.capabilities ==> c < db.nextId)
    && (forall s :: s in db.sends ==> s < db.nextId)
    && (forall s :: s in db.sessions ==> s < db.nextId)
    && (forall i :: i in db.items ==> i < db.nextId)
    && (forall o :: o in db.orders ==> db.orders[o].project in db.projects)
  }

  ghost predicate ProposalsOk(db: Db) {
    && RevisionsOk(db.orders, db.revisions)
    && SealedOk(db.revisions)
    && LinksOk(db.orders, db.capabilities)
    && OneReview(db.capabilities)
    && ApprovalsOk(db.orders, db.revisions, db.approvals)
    && ApprovedOk(db.orders, db.approvals)
    && SendsOk(db.revisions, db.approvals, db.sends)
  }

  ghost predicate DealsOk(db: Db) {
    && PaymentsOk(db.orders, db.revisions, db.payments)
    && FactsOk(db.orders, db.revisions, db.facts)
    && AmendmentsOk(db.orders, db.revisions, db.amendments)
    && BookedOk(db.orders, db.payments, db.facts, db.amendments)
  }

  ghost predicate ScopeOk(db: Db) {
    && HistoryOk(db.projects, db.versions)
    && BaselinesOk(db.revisions, db.versions)
    && ProvenanceOk(db.versions, db.amendments)
    && ItemsOk(db.versions, db.links)
  }

  ghost predicate Inv(db: Db) {
    IdsOk(db) && ProposalsOk(db) && DealsOk(db) && ScopeOk(db)
  }

  // ---------------------------------------------------------------- status moves

  lemma MoveKeepsRevisions(orders: map<nat, Order>, revisions: map<nat, Revision>, o: nat, s: OrderStatus)
    requires o in orders && s != Draft
    requires RevisionsOk(orders, revisions)
    ensures RevisionsOk(orders[o := Moved(orders[o], s)], revisions)
  {}

  /** Neither status is closed or approved: every link still agrees. */
  lemma MoveKeepsLinks(orders: map<nat, Order>, caps: map<nat, Capability>, o: nat, s: OrderStatus)
    requires o in orders && !IsClosed(s)
    requires s != ClientApproved && orders[o].status != ClientApproved
    requires LinksOk(orders, caps)
    ensures LinksOk(orders[o := Moved(orders[o], s)], caps)
  {}

  /** Activating a link changes nothing the rules look at. */
  lemma ActivateKeepsLinks(orders: map<nat, Order>, caps: map<nat, Capability>, c: nat, active: Option<int>, expires: Option<int>)
    requires c in caps
    requires LinksOk(orders, caps) && OneReview(caps)
    ensures LinksOk(orders, caps[c := caps[c].(activatedAt := active, expiresAt := expires)])
    ensures OneReview(caps[c := caps[c].(activatedAt := active, expiresAt := expires)])
  {}

  lemma CloseKeepsLinks(orders: map<nat, Order>, caps: map<nat, Capability>, o: nat, s: OrderStatus, now: int)
    requires o in orders
    requires LinksOk(orders, caps) && OneReview(caps)
    ensures LinksOk(orders[o := Moved(orders[o], s)], Revoke(caps, o, now, false))
    ensures OneReview(Revoke(caps, o, now, false))
  {}

  lemma MoveKeepsApprovals(orders: map<nat, Order>, revisions: map<nat, Revision>, approvals: map<ApprovalKey, Approval>,
                           o: nat, s: OrderStatus)
    requires o in orders && orders[o].status != ClientApproved && s != ClientApproved
    requires s != AwaitingFreelancer && (s in {SendPending, AwaitingClient} ==> orders[o].status in {SendPending, AwaitingClient})
    requires ApprovalsOk(orders, revisions, approvals)
    ensures ApprovalsOk(orders[o := Moved(orders[o], s)], revisions, approvals)
  {}

  /** Records a decision on the current revision together with the status it leads to. */
  lemma DecideKeepsApprovals(orders: map<nat, Order>, revisions: map<nat, Revision>, approvals: map<ApprovalKey, Approval>,
                             o: nat, s: OrderStatus, k: ApprovalKey, a: Approval)
    requires o in orders && orders[o].current == Some(k.revision)
    requires k.revision in revisions && revisions[k.revision].order == o
    requires a.order == o && a.hash == revisions[k.revision].hash
    requires Allowed(s, k.actor, k.decision)
    requires forall actor, d :: Allowed(orders[o].status, actor, d) ==> Allowed(s, actor, d)
    requires ApprovalsOk(orders, revisions, approvals)
    ensures ApprovalsOk(orders[o := Moved(orders[o], s)], revisions, approvals[k := a])
  {}

  lemma DecideKeepsApproved(orders: map<nat, Order>, approvals: map<ApprovalKey, Approval>,
                            o: nat, s: OrderStatus, k: ApprovalKey, a: Approval)
    requires o in orders && orders[o].current == Some(k.revision)
    requires IsOffered(s) ==> IsOffered(orders[o].status) || (k.actor == Freelancer && k.decision == Approved)
    requires s == ClientApproved ==> k.actor == Client && k.decision == Approved
    requires ApprovedOk(orders, approvals)
    ensures ApprovedOk(orders[o := Moved(orders[o], s)], approvals[k := a])
  {}

  lemma MoveKeepsApproved(orders: map<nat, Order>, approvals: map<ApprovalKey, Approval>, o: nat, s: OrderStatus)
    requires o in orders && s != ClientApproved
    requires s in {SendPending, AwaitingClient} ==> orders[o].status in {SendPending, AwaitingClient}
    requires ApprovedOk(orders, approvals)
    ensures ApprovedOk(orders[o := Moved(orders[o], s)], approvals)
  {}

  lemma GrowKeepsSends(revisions: map<nat, Revision>, approvals: map<ApprovalKey, Approval>, sends: map<nat, Send>,
                       k: ApprovalKey, a: Approval)
    requires SendsOk(revisions, approvals, sends)
    ensures SendsOk(revisions, approvals[k := a], sends)
  {}

  /** An action call changes neither the payload nor the revision of a send. */
  lemma ActionKeepsSends(revisions: map<nat, Revision>, approvals: map<ApprovalKey, Approval>, sends: map<nat, Send>,
                         s: nat, a: Actions.Action)
    requires s in sends
    requires SendsOk(revisions, approvals, sends)
    ensures SendsOk(revisions, approvals, sends[s := sends[s].(action := a)])
  {}

  lemma NewSendKeepsSends(revisions: map<nat, Revision>, approvals: map<ApprovalKey, Approval>, sends: map<nat, Send>,
                          s: nat, send: Send)
    requires SendsOk(revisions, approvals, sends)
    requires s !in sends
    requires send.revision in revisions && send.order == revisions[send.revision].order
    requires send.payload == Projection(send.order, send.revision, revisions[send.revision])
    requires ApprovalKey(send.revision, Freelancer, Approved) in approvals
    requires SendsFor(sends, send.order, send.revision) == {}
    ensures SendsOk(revisions, approvals, sends[s := send])
  {
    forall t | t in sends ensures sends[t].revision != send.revision {
      assert t !in SendsFor(sends, send.order, send.revision);
    }
  }

  /** A move that neither enters nor leaves approval keeps every deal row. */
  lemma MoveKeepsDeals(orders: map<nat, Order>, revisions: map<nat, Revision>, payments: map<nat, Payment>,
                       facts: map<nat, Fact>, amendments: map<nat, Amendment>, o: nat, s: OrderStatus)
    requires o in orders && s != ClientApproved && orders[o].status != ClientApproved
    requires PaymentsOk(orders, revisions, payments) && FactsOk(orders, revisions, facts)
    requires AmendmentsOk(orders, revisions, amendments) && BookedOk(orders, payments, facts, amendments)
    ensures var moved := orders[o := Moved(orders[o], s)];
            && PaymentsOk(moved, revisions, payments) && FactsOk(moved, revisions, facts)
            && AmendmentsOk(moved, revisions, amendments) && BookedOk(moved, payments, facts, amendments)
  {}

  /** The client's answer consumes its link before every link of the order is revoked. */
  lemma AnswerKeepsLinks(orders: map<nat, Order>, caps: map<nat, Capability>, o: nat, c: nat, s: OrderStatus, now: int)
    requires o in orders && c in caps && caps[c].order == o
    requires LinksOk(orders, caps) && OneReview(caps)
    ensures var caps' := Revoke(caps[c := caps[c].(consumedAt := Some(now))], o, now, false);
            LinksOk(orders[o := Moved(orders[o], s)], caps') && OneReview(caps')
  {}

  /** The expiry sweep revokes a single row: with one live review link per order and no
      receipt before approval, nothing else is left to revoke. */
  lemma ExpireKeepsLinks(orders: map<nat, Order>, caps: map<nat, Capability>, o: nat, c: nat, now: int)
    requires o in orders && orders[o].status in {SendPending, AwaitingClient}
    requires c in caps && IsLiveReview(caps[c]) && caps[c].order == o
    requires LinksOk(orders, caps) && OneReview(caps)
    ensures var caps' := caps[c := caps[c].(revokedAt := Some(now))];
            LinksOk(orders[o := Moved(orders[o], Expired)], caps') && OneReview(caps')
  {}

  // ---------------------------------------------------------------- a new revision

  /** The tables a new current revision r of order o leaves behind. */
  function Reissued(orders: map<nat, Order>, o: nat, r: nat): map<nat, Order>
    requires o in orders
  {
    orders[o := orders[o].(current := Some(r), status := AwaitingFreelancer, rowVersion := orders[o].rowVersion + 1)]
  }

  lemma InstallKeepsRevisions(orders: map<nat, Order>, revisions: map<nat, Revision>, o: nat, r: nat, revision: Revision)
    requires o in orders && orders[o].current.Some?
    requires RevisionsOk(orders, revisions)
    requires r !in revisions && revision.order == o && revision.project == orders[o].project && !revision.superseded
    requires orders[o].current.value in revisions && revision.number == revisions[orders[o].current.value].number + 1
    ensures var old' := orders[o].current.value;
            RevisionsOk(Reissued(orders, o, r), revisions[old' := revisions[old'].(superseded := true)][r := revision])
  {
    hide DistinctOk;
    var old' := orders[o].current.value;
    forall q | q in revisions && revisions[q].order == o ensures revisions[q].number < revision.number {
      assert IsOlder(orders[revisions[q].order], revisions, q);
    }
    SupersedeKeepsDistinct(revisions, old');
    AddKeepsDistinct(revisions[old' := revisions[old'].(superseded := true)], r, revision);
  }

  lemma SupersedeKeepsDistinct(revisions: map<nat, Revision>, r: nat)
    requires DistinctOk(revisions) && r in revisions
    ensures DistinctOk(revisions[r := revisions[r].(superseded := true)])
  {}

  lemma AddKeepsDistinct(revisions: map<nat, Revision>, r: nat, revision: Revision)
    requires DistinctOk(revisions) && r !in revisions
    requires forall q :: q in revisions && revisions[q].order == revision.order ==> revisions[q].number < revision.number
    ensures DistinctOk(revisions[r := revision])
  {}

  lemma InstallKeepsLinks(orders: map<nat, Order>, caps: map<nat, Capability>, o: nat, r: nat, c: nat, now: int)
    requires o in orders && orders[o].status != ClientApproved && c !in caps
    requires LinksOk(orders, caps) && OneReview(caps)
    ensures var caps' := Revoke(caps, o, now, true)[c := Capability(o, r, Review, None, None, None, None)];
            LinksOk(Reissued(orders, o, r), caps') && OneReview(caps')
  {}

  lemma InstallKeepsApprovals(orders: map<nat, Order>, revisions: map<nat, Revision>, approvals: map<ApprovalKey, Approval>,
                              o: nat, r: nat, revision: Revision)
    requires o in orders && orders[o].status != ClientApproved
    requires orders[o].current.Some? && orders[o].current.value in revisions
    requires r !in revisions
    requires ApprovalsOk(orders, revisions, approvals) && ApprovedOk(orders, approvals)
    ensures var old' := orders[o].current.value;
            ApprovalsOk(Reissued(orders, o, r), revisions[old' := revisions[old'].(superseded := true)][r := revision], approvals)
    ensures ApprovedOk(Reissued(orders, o, r), approvals)
  {}

  lemma InstallKeepsSends(revisions: map<nat, Revision>, approvals: map<ApprovalKey, Approval>, sends: map<nat, Send>,
                          old': nat, r: nat, revision: Revision)
    requires old' in revisions && r !in revisions
    requires SendsOk(revisions, approvals, sends)
    ensures SendsOk(revisions[old' := revisions[old'].(superseded := true)][r := revision], approvals, sends)
  {}

  lemma InstallKeepsDeals(orders: map<nat, Order>, revisions: map<nat, Revision>, payments: map<nat, Payment>,
                          facts: map<nat, Fact>, amendments: map<nat, Amendment>, o: nat, r: nat, revision: Revision)
    requires o in orders && orders[o].status != ClientApproved
    requires orders[o].current.Some? && orders[o].current.value in revisions && r !in revisions
    requires PaymentsOk(orders, revisions, payments) && FactsOk(orders, revisions, facts)
    requires AmendmentsOk(orders, revisions, amendments) && BookedOk(orders, payments, facts, amendments)
    ensures var orders' := Reissued(orders, o, r);
            var old' := orders[o].current.value;
            var revisions' := revisions[old' := revisions[old'].(superseded := true)][r := revision];
            && PaymentsOk(orders', revisions', payments) && FactsOk(orders', revisions', facts)
            && AmendmentsOk(orders', revisions', amendments) && BookedOk(orders', payments, facts, amendments)
  {}

  lemma InstallKeepsBaselines(revisions: map<nat, Revision>, versions: map<ScopeKey, ScopeVersion>, old': nat, r: nat, revision: Revision)
    requires old' in revisions
    requires revision.baseline in versions && revision.baseline.project == revision.project
    requires BaselinesOk(revisions, versions)
    ensures BaselinesOk(revisions[old' := revisions[old'].(superseded := true)][r := revision], versions)
  {}

  // ---------------------------------------------------------------- a new order

  /** A fresh order with its first revision and review link. */
  lemma OpenKeepsProposals(db: Db, o: nat, order: Order, r: nat, revision: Revision, c: nat)
    requires IdsOk(db) && ProposalsOk(db)
    requires o >= db.nextId && r >= db.nextId && c >= db.nextId
    requires order.current == Some(r) && order.status == AwaitingFreelancer
    requires revision.order == o && revision.project == order.project && !revision.superseded && revision.number == 1
    requires IsSealed(revision)
    ensures ProposalsOk(db.(orders := db.orders[o := order], revisions := db.revisions[r := revision],
                            capabilities := db.capabilities[c := Capability(o, r, Review, None, None, None, None)]))
  {
    OpenKeepsRevisions(db.orders, db.revisions, o, order, r, revision);
    OpenKeepsSealed(db.revisions, r, revision);
    OpenKeepsLinks(db.orders, db.capabilities, o, order, c, Capability(o, r, Review, None, None, None, None));
    OpenKeepsApprovals(db.orders, db.revisions, db.approvals, o, order, r, revision);
    OpenKeepsSends(db.revisions, db.approvals, db.sends, r, revision);
  }

  lemma OpenKeepsRevisions(orders: map<nat, Order>, revisions: map<nat, Revision>, o: nat, order: Order, r: nat, revision: Revision)
    requires RevisionsOk(orders, revisions)
    requires o !in orders && r !in revisions
    requires order.current == Some(r) && order.status == AwaitingFreelancer
    requires revision.order == o && revision.project == order.project && !revision.superseded && revision.number == 1
    ensures RevisionsOk(orders[o := order], revisions[r := revision])
  {
    hide DistinctOk;
    AddKeepsDistinct(revisions, r, revision);
  }

  lemma OpenKeepsSealed(revisions: map<nat, Revision>, r: nat, revision: Revision)
    requires SealedOk(revisions) && IsSealed(revision)
    ensures SealedOk(revisions[r := revision])
  {}

  lemma OpenKeepsLinks(orders: map<nat, Order>, caps: map<nat, Capability>, o: nat, order: Order, c: nat, cap: Capability)
    requires LinksOk(orders, caps) && OneReview(caps)
    requires o !in orders && c !in caps && cap.order == o
    requires cap.purpose == Review && LinkAgrees(order, cap)
    ensures LinksOk(orders[o := order], caps[c := cap]) && OneReview(caps[c := cap])
  {}

  lemma OpenKeepsApprovals(orders: map<nat, Order>, revisions: map<nat, Revision>, approvals: map<ApprovalKey, Approval>,
                           o: nat, order: Order, r: nat, revision: Revision)
    requires ApprovalsOk(orders, revisions, approvals) && ApprovedOk(orders, approvals)
    requires o !in orders && r !in revisions && order.status == AwaitingFreelancer
    ensures ApprovalsOk(orders[o := order], revisions[r := revision], approvals)
    ensures ApprovedOk(orders[o := order], approvals)
  {}

  lemma OpenKeepsSends(revisions: map<nat, Revision>, approvals: map<ApprovalKey, Approval>, sends: map<nat, Send>,
                       r: nat, revision: Revision)
    requires SendsOk(revisions, approvals, sends) && r !in revisions
    ensures SendsOk(revisions[r := revision], approvals, sends)
  {}

  lemma OpenKeepsDeals(orders: map<nat, Order>, revisions: map<nat, Revision>, payments: map<nat, Payment>,
                       facts: map<nat, Fact>, amendments: map<nat, Amendment>, o: nat, order: Order, r: nat, revision: Revision)
    requires o !in orders && r !in revisions && order.status == AwaitingFreelancer
    requires PaymentsOk(orders, revisions, payments) && FactsOk(orders, revisions, facts)
    requires AmendmentsOk(orders, revisions, amendments) && BookedOk(orders, payments, facts, amendments)
    ensures var orders', revisions' := orders[o := order], revisions[r := revision];
            && PaymentsOk(orders', revisions', payments) && FactsOk(orders', revisions', facts)
            && AmendmentsOk(orders', revisions', amendments) && BookedOk(orders', payments, facts, amendments)
  {}

  // ---------------------------------------------------------------- acceptance

  /** The review link is consumed as the order becomes approved. */
  lemma ConsumeKeepsLinks(orders: map<nat, Order>, caps: map<nat, Capability>, c: nat, now: int, until: int)
    requires LinksOk(orders, caps) && OneReview(caps)
    requires c in caps && IsLiveReview(caps[c])
    ensures var o := caps[c].order;
            var caps' := caps[c := caps[c].(consumedAt := Some(now), expiresAt := Some(until))];
            LinksOk(orders[o := Moved(orders[o], ClientApproved)], caps') && OneReview(caps')
  {}

  /** A further receipt link for an approved order. */
  lemma ReceiptKeepsLinks(orders: map<nat, Order>, caps: map<nat, Capability>, k: nat, receipt: Capability)
    requires LinksOk(orders, caps) && OneReview(caps) && k !in caps
    requires receipt.order in orders && orders[receipt.order].status == ClientApproved
    requires receipt.purpose == Receipt && orders[receipt.order].current == Some(receipt.revision)
    ensures LinksOk(orders, caps[k := receipt]) && OneReview(caps[k := receipt])
  {}

  lemma AgreeKeepsDeals(orders: map<nat, Order>, revisions: map<nat, Revision>, payments: map<nat, Payment>,
                        facts: map<nat, Fact>, amendments: map<nat, Amendment>, o: nat, r: nat, payment: Payment, fact: Fact, amendment: Amendment)
    requires o in orders && orders[o].current == Some(r) && r in revisions && revisions[r].order == o
    requires payment.project == fact.project == amendment.project == revisions[r].project
    requires payment.total == fact.amount == revisions[r].total && payment.tax == fact.tax == revisions[r].tax
    requires fact.order == o && amendment.previous == revisions[r].baseline
    requires PaymentsOk(orders, revisions, payments) && FactsOk(orders, revisions, facts)
    requires AmendmentsOk(orders, revisions, amendments) && BookedOk(orders, payments, facts, amendments)
    ensures var orders' := orders[o := Moved(orders[o], ClientApproved)];
            && PaymentsOk(orders', revisions, payments[r := payment]) && FactsOk(orders', revisions, facts[r := fact])
            && AmendmentsOk(orders', revisions, amendments[r := amendment])
            && BookedOk(orders', payments[r := payment], facts[r := fact], amendments[r := amendment])
  {
    hide PaymentsOk, FactsOk, AmendmentsOk, BookedOk;
    AgreeKeepsPayments(orders, revisions, payments, o, r, payment);
    AgreeKeepsFacts(orders, revisions, facts, o, r, fact);
    AgreeKeepsAmendments(orders, revisions, amendments, o, r, amendment);
    AgreeKeepsBooked(orders, payments, facts, amendments, o, r, payment, fact, amendment);
  }

  lemma AgreeKeepsPayments(orders: map<nat, Order>, revisions: map<nat, Revision>, payments: map<nat, Payment>, o: nat, r: nat, payment: Payment)
    requires o in orders && orders[o].current == Some(r) && r in revisions && revisions[r].order == o && PaymentsOk(orders, revisions, payments)
    requires payment.project == revisions[r].project && payment.total == revisions[r].total && payment.tax == revisions[r].tax
    ensures PaymentsOk(orders[o := Moved(orders[o], ClientApproved)], revisions, payments[r := payment])
  {}

  lemma AgreeKeepsFacts(orders: map<nat, Order>, revisions: map<nat, Revision>, facts: map<nat, Fact>, o: nat, r: nat, fact: Fact)
    requires o in orders && orders[o].current == Some(r) && r in revisions && revisions[r].order == o && FactsOk(orders, revisions, facts)
    requires fact.project == revisions[r].project && fact.order == o && fact.amount == revisions[r].total && fact.tax == revisions[r].tax
    ensures FactsOk(orders[o := Moved(orders[o], ClientApproved)], revisions, facts[r := fact])
  {}

  lemma AgreeKeepsAmendments(orders: map<nat, Order>, revisions: map<nat, Revision>, amendments: map<nat, Amendment>, o: nat, r: nat, amendment: Amendment)
    requires o in orders && orders[o].current == Some(r) && r in revisions && revisions[r].order == o && AmendmentsOk(orders, revisions, amendments)
    requires amendment.project == revisions[r].project && amendment.previous == revisions[r].baseline
    ensures AmendmentsOk(orders[o := Moved(orders[o], ClientApproved)], revisions, amendments[r := amendment])
  {}

  lemma AgreeKeepsBooked(orders: map<nat, Order>, payments: map<nat, Payment>, facts: map<nat, Fact>, amendments: map<nat, Amendment>,
                         o: nat, r: nat, payment: Payment, fact: Fact, amendment: Amendment)
    requires o in orders && orders[o].current == Some(r) && BookedOk(orders, payments, facts, amendments)
    ensures BookedOk(orders[o := Moved(orders[o], ClientApproved)], payments[r := payment], facts[r := fact], amendments[r := amendment])
  {}

  // ---------------------------------------------------------------- scope history

  /** Linear history makes the next number the head plus one. */
  lemma NumbersAreHead(projects: map<nat, Project>, versions: map<ScopeKey, ScopeVersion>, p: nat)
    requires HistoryOk(projects, versions) && p in projects
    ensures MaxOf(NumbersOf(versions, p)) == Head(projects[p])
  {
    var numbers := NumbersOf(versions, p);
    var head := Head(projects[p]);
    if head == 0 {
      assert numbers == {};
    } else {
      assert ScopeKey(p, head) in versions;
      MaxIs(numbers, head);
    }
  }

  lemma AppendKeepsNumbered(projects: map<nat, Project>, versions: map<ScopeKey, ScopeVersion>, p: nat, project: Project, v: ScopeVersion)
    requires NumberedOk(projects, versions) && p in projects
    requires project.current == Some(ScopeKey(p, Head(projects[p]) + 1))
    ensures NumberedOk(projects[p := project], versions[project.current.value := v])
  {}

  /** Appending the child of the head keeps the history linear. */
  lemma AppendKeepsHistory(projects: map<nat, Project>, versions: map<ScopeKey, ScopeVersion>, p: nat, project: Project, v: ScopeVersion)
    requires HistoryOk(projects, versions) && p in projects
    requires v.parent == projects[p].current
    requires project.current == Some(ScopeKey(p, Head(projects[p]) + 1))
    ensures HistoryOk(projects[p := project], versions[project.current.value := v])
  {
    AppendKeepsNumbered(projects, versions, p, project, v);
  }

  lemma AppendKeepsBaselines(revisions: map<nat, Revision>, versions: map<ScopeKey, ScopeVersion>, k: ScopeKey, v: ScopeVersion)
    requires BaselinesOk(revisions, versions)
    ensures BaselinesOk(revisions, versions[k := v])
  {}

  lemma AgreeKeepsProvenance(versions: map<ScopeKey, ScopeVersion>, amendments: map<nat, Amendment>, r: nat, a: Amendment)
    requires ProvenanceOk(versions, amendments)
    requires a.resulting !in versions && r !in amendments
    ensures ProvenanceOk(versions[a.resulting := ScopeVersion(Some(a.previous), Some(r))], amendments[r := a])
  {}

  lemma ConfirmKeepsProvenance(versions: map<ScopeKey, ScopeVersion>, amendments: map<nat, Amendment>, k: ScopeKey, parent: Option<ScopeKey>)
    requires ProvenanceOk(versions, amendments) && k !in versions
    ensures ProvenanceOk(versions[k := ScopeVersion(parent, None)], amendments)
  {}

  /** The parent of every version exists. */
  lemma ParentExists(projects: map<nat, Project>, versions: map<ScopeKey, ScopeVersion>, k: ScopeKey)
    requires HistoryOk(projects, versions) && k in versions && versions[k].parent.Some?
    ensures versions[k].parent.value in versions && versions[k].parent.value != k
  {}

  lemma AgreeKeepsItems(projects: map<nat, Project>, versions: map<ScopeKey, ScopeVersion>, links: set<(ScopeKey, nat)>,
                        from: ScopeKey, to: ScopeKey, source: nat)
    requires HistoryOk(projects, versions) && ItemsOk(versions, links)
    requires from in versions && to !in versions
    ensures ItemsOk(versions[to := ScopeVersion(Some(from), Some(source))], CopyLinks(links, from, to))
  {
    var versions' := versions[to := ScopeVersion(Some(from), Some(source))];
    var links' := CopyLinks(links, from, to);
    forall k, i: nat | k in versions ensures (k, i) in links' <==> (k, i) in links {}
    forall i: nat ensures (to, i) in links' <==> (from, i) in links {
      assert (to, i) in links' <==> i in ItemsOf(links, from);
    }
    forall k, i: nat | k in versions' && versions'[k].source.Some? && versions'[k].parent.Some?
      ensures (k, i) in links' <==> (versions'[k].parent.value, i) in links'
    {
      if k != to { ParentExists(projects, versions, k); }
    }
  }

  lemma ConfirmKeepsItems(projects: map<nat, Project>, versions: map<ScopeKey, ScopeVersion>, links: set<(ScopeKey, nat)>,
                          to: ScopeKey, parent: Option<ScopeKey>, ids: set<nat>)
    requires HistoryOk(projects, versions) && ItemsOk(versions, links) && to !in versions
    ensures ItemsOk(versions[to := ScopeVersion(parent, None)], links + NewLinks(to, ids))
  {
    var versions' := versions[to := ScopeVersion(parent, None)];
    var links' := links + NewLinks(to, ids);
    forall k, i: nat | k in versions ensures (k, i) in links' <==> (k, i) in links {}
    forall k, i: nat | k in versions' && versions'[k].source.Some? && versions'[k].parent.Some?
      ensures (k, i) in links' <==> (versions'[k].parent.value, i) in links'
    {
      ParentExists(projects, versions, k);
    }
  }
}
