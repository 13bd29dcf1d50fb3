/** What every run of the agreement guarantees. */
module AgreementTheorems {
  import opened Common
  import opened ChangeOrders
  import opened AgreementRules
  import opened AgreementSteps
  import opened AgreementOutcomes
  import opened AgreementRuns
  import opened Sums

  // ---------------------------------------------------------------- equal sums

  function PaymentColumn(db: Db, p: nat): map<nat, int> {
    map r | r in db.payments && db.payments[r].project == p :: db.payments[r].total
  }

  function FactColumn(db: Db, p: nat): map<nat, int> {
    map r | r in db.facts && db.facts[r].project == p :: db.facts[r].amount
  }

  /** Totals of the current revisions of the project's approved orders. */
  function ApprovedColumn(db: Db, p: nat): map<nat, int> {
    map o | o in db.orders && db.orders[o].project == p && db.orders[o].status == ClientApproved
            && db.orders[o].current.Some? && db.orders[o].current.value in db.revisions ::
      db.revisions[db.orders[o].current.value].total
  }

  lemma DealRowsMatch(db: Db, r: nat)
    requires RevisionsOk(db.orders, db.revisions) && DealsOk(db)
    ensures r in db.payments <==> r in db.facts
    ensures r in db.payments ==>
              && r in db.revisions && db.revisions[r].order in db.orders
              && ApprovedWith(db.orders[db.revisions[r].order], r)
              && db.payments[r].project == db.facts[r].project == db.orders[db.revisions[r].order].project
              && db.payments[r].total == db.facts[r].amount == db.revisions[r].total
  {
    if r in db.payments { assert ApprovedWith(db.orders[db.revisions[r].order], r); }
    if r in db.facts { assert ApprovedWith(db.orders[db.revisions[r].order], r); }
  }

  lemma ColumnsMatch(db: Db, p: nat)
    requires RevisionsOk(db.orders, db.revisions) && DealsOk(db)
    ensures PaymentColumn(db, p) == FactColumn(db, p)
    ensures Total(ApprovedColumn(db, p)) == Total(PaymentColumn(db, p))
  {
    hide RevisionsOk, DealsOk;
    forall r { DealRowsMatch(db, r); }
    assert PaymentColumn(db, p) == FactColumn(db, p);
    var a, b := ApprovedColumn(db, p), PaymentColumn(db, p);
    var to := map o | o in a :: db.orders[o].current.value;
    forall o | o in a ensures to[o] in b && b[to[o]] == a[o] && db.revisions[to[o]].order == o { ApprovedOrderPays(db, o); }
    forall r | r in b ensures exists o :: o in a && to[o] == r {
      var o := db.revisions[r].order;
      assert o in a && to[o] == r;
    }
    TotalRenamed(a, b, to);
  }

  lemma ApprovedOrderPays(db: Db, o: nat)
    requires RevisionsOk(db.orders, db.revisions) && DealsOk(db)
    requires o in db.orders && db.orders[o].status == ClientApproved
    ensures db.orders[o].current.Some?
    ensures var r := db.orders[o].current.value;
            && r in db.revisions && db.revisions[r].order == o && r in db.payments
            && db.payments[r].project == db.orders[o].project && db.payments[r].total == db.revisions[r].total
  {
    assert HasCurrent(db.orders, db.revisions, o);
  }

  /** Approved totals, requested payments and recognised revenue agree project by project. */
  lemma EqualSums(run: seq<Db>, steps: seq<Step>, i: nat, p: nat)
    requires IsRun(run, steps) && i < |run|
    ensures Total(FactColumn(run[i], p)) == Total(PaymentColumn(run[i], p)) == Total(ApprovedColumn(run[i], p))
  {
    hide Apply, RevisionsOk, DealsOk, IdsOk, ScopeOk;
    hide SealedOk, LinksOk, OneReview, ApprovalsOk, ApprovedOk, SendsOk;
    ReachableInv(run, steps, i);
    ColumnsMatch(run[i], p);
  }

  // ---------------------------------------------------------------- linear scope history

  /** A project's versions are numbered 1..n, each the child of the one before, and the
      current one is n. */
  ghost predicate Linear(projects: map<nat, Project>, versions: map<ScopeKey, ScopeVersion>, p: nat, n: nat)
    requires p in projects
  {
    && (forall k: nat :: ScopeKey(p, k) in versions <==> 1 <= k <= n)
    && projects[p].current == (if n == 0 then None else Some(ScopeKey(p, n)))
    && (forall k: nat :: ScopeKey(p, k) in versions ==> IsChildOfPrevious(versions[ScopeKey(p, k)], p, k))
  }

  predicate IsChildOfPrevious(v: ScopeVersion, p: nat, k: nat) {
    v.parent == if k <= 1 then None else Some(ScopeKey(p, k - 1))
  }

  lemma HistoryIsLinear(projects: map<nat, Project>, versions: map<ScopeKey, ScopeVersion>, p: nat)
    requires HistoryOk(projects, versions) && p in projects
    ensures Linear(projects, versions, p, Head(projects[p]))
  {
    hide NumberedOk, ParentsOk, IsChildOfPrevious;
    NumbersAreLinear(projects, versions, p);
    ParentsAreLinear(versions, p);
  }

  lemma NumbersAreLinear(projects: map<nat, Project>, versions: map<ScopeKey, ScopeVersion>, p: nat)
    requires NumberedOk(projects, versions) && p in projects
    ensures forall k: nat :: ScopeKey(p, k) in versions <==> 1 <= k <= Head(projects[p])
    ensures projects[p].current == if Head(projects[p]) == 0 then None else Some(ScopeKey(p, Head(projects[p])))
  {
    forall k: nat ensures ScopeKey(p, k) in versions <==> 1 <= k <= Head(projects[p]) {
      assert ScopeKey(p, k).project == p && ScopeKey(p, k).number == k;
    }
  }

  lemma ParentsAreLinear(versions: map<ScopeKey, ScopeVersion>, p: nat)
    requires ParentsOk(versions)
    ensures forall k: nat :: ScopeKey(p, k) in versions ==> IsChildOfPrevious(versions[ScopeKey(p, k)], p, k)
  {
    forall k: nat | ScopeKey(p, k) in versions ensures IsChildOfPrevious(versions[ScopeKey(p, k)], p, k) {
      assert versions[ScopeKey(p, k)].parent == ParentOf(ScopeKey(p, k));
    }
  }

  /** Both ways of appending a version, in any interleaving, leave one line of versions. */
  lemma LinearHistory(run: seq<Db>, steps: seq<Step>, i: nat, p: nat)
    requires IsRun(run, steps) && i < |run| && p in run[i].projects
    ensures exists n: nat :: Linear(run[i].projects, run[i].versions, p, n)
  {
    hide RevisionsOk, SealedOk, LinksOk, OneReview, ApprovalsOk, ApprovedOk, SendsOk, PaymentsOk, FactsOk, AmendmentsOk,
      BookedOk, NumberedOk, ParentsOk, BaselinesOk, ProvenanceOk, ItemsOk;
    hide Apply, Linear;
    ReachableInv(run, steps, i);
    HistoryIsLinear(run[i].projects, run[i].versions, p);
  }

  /** An accepted version carries exactly the items of the version it grew from. */
  lemma AcceptedKeepsItems(run: seq<Db>, steps: seq<Step>, i: nat, k: ScopeKey)
    requires IsRun(run, steps) && i < |run|
    requires k in run[i].versions && run[i].versions[k].source.Some?
    ensures run[i].versions[k].parent.Some?
    ensures ItemsOf(run[i].links, k) == ItemsOf(run[i].links, run[i].versions[k].parent.value)
  {
    hide RevisionsOk, SealedOk, LinksOk, OneReview, ApprovalsOk, ApprovedOk, SendsOk, PaymentsOk, FactsOk, AmendmentsOk,
      BookedOk, NumberedOk, ParentsOk, BaselinesOk, ProvenanceOk, ItemsOk;
    hide Apply;
    ReachableInv(run, steps, i);
    SameItems(run[i].versions, run[i].links, run[i].amendments, k);
  }

  lemma SameItems(versions: map<ScopeKey, ScopeVersion>, links: set<(ScopeKey, nat)>, amendments: map<nat, Amendment>, k: ScopeKey)
    requires ItemsOk(versions, links) && ProvenanceOk(versions, amendments)
    requires k in versions && versions[k].source.Some?
    ensures versions[k].parent.Some?
    ensures ItemsOf(links, k) == ItemsOf(links, versions[k].parent.value)
  {
    var r := versions[k].source.value;
    assert versions[amendments[r].resulting] == ScopeVersion(Some(amendments[r].previous), Some(r));
    var parent := versions[k].parent.value;
    forall x: nat ensures x in ItemsOf(links, k) <==> x in ItemsOf(links, parent) {
      assert x in ItemsOf(links, k) <==> (k, x) in links;
      assert x in ItemsOf(links, parent) <==> (parent, x) in links;
    }
  }

  /** No two accepted revisions, of one order or of two, were made against the same version. */
  lemma BaselineAcceptedOnce(run: seq<Db>, steps: seq<Step>, i: nat, r: nat, q: nat)
    requires IsRun(run, steps) && i < |run|
    requires r in run[i].amendments && q in run[i].amendments
    requires r in run[i].revisions && q in run[i].revisions
    requires run[i].revisions[r].baseline == run[i].revisions[q].baseline
    ensures r == q
  {
    hide RevisionsOk, SealedOk, LinksOk, OneReview, ApprovalsOk, ApprovedOk, SendsOk, PaymentsOk, FactsOk, AmendmentsOk,
      BookedOk, NumberedOk, ParentsOk, BaselinesOk, ProvenanceOk, ItemsOk;
    hide Apply;
    ReachableInv(run, steps, i);
    OneChildPerBaseline(run[i], r, q);
  }

  lemma OneChildPerBaseline(db: Db, r: nat, q: nat)
    requires ParentsOk(db.versions) && ProvenanceOk(db.versions, db.amendments)
    requires AmendmentsOk(db.orders, db.revisions, db.amendments)
    requires BaselinesOk(db.revisions, db.versions) && NumberedOk(db.projects, db.versions)
    requires r in db.amendments && q in db.amendments
    requires db.revisions[r].baseline == db.revisions[q].baseline
    ensures r == q
  {
    var x, y := db.amendments[r].resulting, db.amendments[q].resulting;
    assert db.versions[x].parent == Some(db.revisions[r].baseline) == ParentOf(x);
    assert db.versions[y].parent == Some(db.revisions[q].baseline) == ParentOf(y);
    assert x == y;
    assert db.versions[x].source == Some(r) && db.versions[y].source == Some(q);
  }

  // ---------------------------------------------------------------- links

  /** Every live link of an order points at its current revision, there is at most one live
      review link, and a closed order has no live link at all. */
  lemma NoOldLinkWorks(run: seq<Db>, steps: seq<Step>, i: nat, o: nat)
    requires IsRun(run, steps) && i < |run| && o in run[i].orders
    ensures var db := run[i];
            && (forall c :: c in db.capabilities && db.capabilities[c].order == o && IsLive(db.capabilities[c]) ==>
                  db.orders[o].current == Some(db.capabilities[c].revision) && !IsClosed(db.orders[o].status))
            && (forall c, d :: c in LiveReviews(db.capabilities, o) && d in LiveReviews(db.capabilities, o) ==> c == d)
  {
    hide RevisionsOk, SealedOk, LinksOk, OneReview, ApprovalsOk, ApprovedOk, SendsOk, PaymentsOk, FactsOk, AmendmentsOk,
      BookedOk, NumberedOk, ParentsOk, BaselinesOk, ProvenanceOk, ItemsOk;
    hide Apply;
    ReachableInv(run, steps, i);
    LiveLinksAgree(run[i].orders, run[i].capabilities, o);
  }

  lemma LiveLinksAgree(orders: map<nat, Order>, caps: map<nat, Capability>, o: nat)
    requires LinksOk(orders, caps) && OneReview(caps) && o in orders
    ensures forall c :: c in caps && caps[c].order == o && IsLive(caps[c]) ==>
              orders[o].current == Some(caps[c].revision) && !IsClosed(orders[o].status)
    ensures forall c, d :: c in LiveReviews(caps, o) && d in LiveReviews(caps, o) ==> c == d
  {
    forall c | c in caps && caps[c].order == o && IsLive(caps[c])
      ensures orders[o].current == Some(caps[c].revision) && !IsClosed(orders[o].status)
    {
      assert LinkAgrees(orders[o], caps[c]);
    }
  }

  // ---------------------------------------------------------------- the same content on both sides

  /** What the freelancer approved, what the client accepted and what was queued for sending
      are all the frozen content of the same revision. */
  lemma SameContent(run: seq<Db>, steps: seq<Step>, i: nat, o: nat)
    requires IsRun(run, steps) && i < |run| && o in run[i].orders && IsOffered(run[i].orders[o].status)
    ensures var db := run[i];
            && HasCurrent(db.orders, db.revisions, o)
            && var r := db.orders[o].current.value;
               var k, c := ApprovalKey(r, Freelancer, Approved), ApprovalKey(r, Client, Approved);
               && k in db.approvals && db.approvals[k].hash == db.revisions[r].hash == Seal(db.revisions[r])
               && (db.orders[o].status == ClientApproved ==> c in db.approvals && db.approvals[c].hash == db.approvals[k].hash)
  {
    hide RevisionsOk, SealedOk, LinksOk, OneReview, ApprovalsOk, ApprovedOk, SendsOk, PaymentsOk, FactsOk, AmendmentsOk,
      BookedOk, NumberedOk, ParentsOk, BaselinesOk, ProvenanceOk, ItemsOk;
    hide Apply;
    ReachableInv(run, steps, i);
    OfferIsSealed(run[i], o);
  }

  lemma OfferIsSealed(db: Db, o: nat)
    requires RevisionsOk(db.orders, db.revisions) && SealedOk(db.revisions)
    requires ApprovalsOk(db.orders, db.revisions, db.approvals) && ApprovedOk(db.orders, db.approvals)
    requires o in db.orders && IsOffered(db.orders[o].status)
    ensures HasCurrent(db.orders, db.revisions, o)
    ensures var r := db.orders[o].current.value;
            var k, c := ApprovalKey(r, Freelancer, Approved), ApprovalKey(r, Client, Approved);
            && k in db.approvals && db.approvals[k].hash == db.revisions[r].hash == Seal(db.revisions[r])
            && (db.orders[o].status == ClientApproved ==> c in db.approvals && db.approvals[c].hash == db.approvals[k].hash)
  {
    assert HasCurrent(db.orders, db.revisions, o);
    assert IsSealed(db.revisions[db.orders[o].current.value]);
  }

  /** Nothing but a revision its freelancer approved is ever queued for sending: to the recipient
      it names, in its own words, with its attachments and under the hash that was approved. */
  lemma OnlyApprovedContentIsSent(run: seq<Db>, steps: seq<Step>, i: nat, s: nat)
    requires IsRun(run, steps) && i < |run| && s in run[i].sends
    ensures var db, send := run[i], run[i].sends[s];
            && send.revision in db.revisions && db.revisions[send.revision].order == send.order
            && var content := db.revisions[send.revision].content;
            && send.payload.order == send.order && send.payload.revision == send.revision
            && send.payload.recipient == content.recipient && send.payload.subject == content.subject
            && send.payload.plainText == content.plainText && send.payload.html == content.html
            && send.payload.attachments == content.attachments
            && var k := ApprovalKey(send.revision, Freelancer, Approved);
               k in db.approvals && db.approvals[k].hash == send.payload.hash == db.revisions[send.revision].hash
  {
    hide Inv;
    hide Apply;
    ReachableInv(run, steps, i);
    EmailSaysTheRevision(run[i], s);
  }

  /** An email that starts to leave says what its order's current revision says exactly if it was
      prepared for that revision: the code checks the order's status and no more. */
  lemma DispatchedEmailIsCurrentIff(run: seq<Db>, steps: seq<Step>, i: nat, s: nat, commits: bool)
    requires IsRun(run, steps) && i < |run| && BeginSend(run[i], s, commits).error.None?
    ensures s in run[i].sends
    ensures var db := run[i]; var send := db.sends[s]; var o := send.order;
            && o in db.orders && db.orders[o].current.Some? && db.orders[o].current.value in db.revisions
            && var r := db.orders[o].current.value;
               IsEmailOf(send.payload, o, r, db.revisions[r]) <==> send.revision == r
  {
    hide SealedOk, LinksOk, OneReview, ApprovalsOk, ApprovedOk, PaymentsOk, FactsOk, AmendmentsOk,
      BookedOk, NumberedOk, ParentsOk, BaselinesOk, ProvenanceOk, ItemsOk;
    hide IsRun, Apply;
    ReachableInv(run, steps, i);
    var db := run[i];
    assert db.sends[s].payload.order == db.sends[s].order;
    assert HasCurrent(db.orders, db.revisions, db.sends[s].order);
  }

  // ---------------------------------------------------------------- exactly when an acceptance goes through

  /** On a link not yet spent, an acceptance goes through exactly when it names the offered
      revision and content at the current row version with a key, the offer is out with the
      client, its baseline is still the project's scope, and the payment link can be prepared. */
  lemma AcceptanceGoesThroughIff(db: Db, s: nat, csrf: nat, o: nat, expected: nat, r: nat, h: Artifact, key: string,
                                 ready: bool, csrf': nat, now: int)
    requires Inv(db) && SessionScope(db, s, Some(csrf), now).Some?
    requires db.capabilities[SessionScope(db, s, Some(csrf), now).value].consumedAt.None?
    ensures var cap := db.capabilities[SessionScope(db, s, Some(csrf), now).value];
            cap.order in db.orders && cap.revision in db.revisions &&
            (AcceptClient(db, s, csrf, o, expected, r, h, key, ready, csrf', now).error.None? <==>
               && cap.order == o && cap.revision == r && h == db.revisions[r].hash && key != ""
               && db.orders[o].rowVersion == expected && MayAccept(db, o, r) && ready
               && db.orders[o].project in db.projects
               && db.projects[db.orders[o].project].current == Some(db.revisions[r].baseline))
  {
    hide Inv, Agree, ReopenReceipt, IssueReceipt, PriorAnswer;
    var c := SessionScope(db, s, Some(csrf), now).value;
    ScopeIsCurrent(db, c);
    LinkStage(db, c);
    if Ready(db, c) {
      NoDealYet(db, c);
      NextIsFresh(db, c);
    }
  }

  // ---------------------------------------------------------------- revision numbers

  /** In every run an order's revisions have distinct numbers, and exactly the current one has
      the highest. */
  lemma CurrentIsNewest(run: seq<Db>, steps: seq<Step>, i: nat, r: nat, q: nat)
    requires IsRun(run, steps) && i < |run| && r in run[i].revisions && q in run[i].revisions
    requires run[i].revisions[r].order == run[i].revisions[q].order && r != q
    ensures run[i].revisions[r].number != run[i].revisions[q].number
    ensures run[i].revisions[r].order in run[i].orders
    ensures run[i].orders[run[i].revisions[r].order].current == Some(r) ==> run[i].revisions[q].number < run[i].revisions[r].number
  {
    hide SealedOk, LinksOk, OneReview, ApprovalsOk, ApprovedOk, SendsOk, PaymentsOk, FactsOk, AmendmentsOk,
      BookedOk, NumberedOk, ParentsOk, BaselinesOk, ProvenanceOk, ItemsOk;
    hide IsRun, Apply;
    ReachableInv(run, steps, i);
    assert IsOlder(run[i].orders[run[i].revisions[q].order], run[i].revisions, q);
    assert SameNumber(run[i].revisions[r], run[i].revisions[q]) ==> r == q;
  }

  /** A revision of an existing order counts one past the one it replaces. */
  lemma RevisionsCountUp(db: Db, o: nat, contact: nat, content: Content, now: int)
    requires Inv(db) && o in db.orders && NewRevision(db, o, contact, content, now).error.None?
    ensures var after := NewRevision(db, o, contact, content, now).db;
            var was := db.orders[o].current;
            && was.Some? && was.value in db.revisions && o in after.orders
            && after.orders[o].current.Some? && after.orders[o].current.value in after.revisions
            && after.revisions[after.orders[o].current.value].number == db.revisions[was.value].number + 1
  {
    hide IdsOk, DealsOk, ScopeOk, SealedOk, LinksOk, OneReview, ApprovalsOk, ApprovedOk, SendsOk, Complete, Revoke;
    assert HasCurrent(db.orders, db.revisions, o);
  }

  // ---------------------------------------------------------------- times and edits

  /** An approved offer's link opens a client session for exactly seven days. */
  lemma LinkOpensForAWeek(db: Db, o: nat, e: nat, r: nat, h: Artifact, stale: bool, pick: nat, now: int, csrf: nat, t: int)
    requires Inv(db) && ApproveFreelancer(db, o, e, r, h, stale, pick, now).error.None?
    ensures var after := ApproveFreelancer(db, o, e, r, h, stale, pick, now).db;
            Exchange(after, pick, csrf, t).error.None? <==> t < now + 7 * DAY
  {
    hide Inv, SendsFor, Projection, MaxOf, WithSend, ReceiptsFor, OpenSession, Moved;
    LiveLinkOwner(db, o, r, pick);
    PickIsFreshReview(db, r, pick);
    SendLeavesLinks(WithOffer(db, o, r, h, pick, now), o, r, Projection(o, r, db.revisions[r]));
  }

  lemma SendLeavesLinks(db: Db, o: nat, r: nat, payload: Email)
    ensures WithSend(db, o, r, payload).capabilities == db.capabilities
  {
    hide SendsFor;
  }

  /** The live link of a revision nobody accepted yet is its unspent review link. */
  lemma PickIsFreshReview(db: Db, r: nat, pick: nat)
    requires Inv(db) && pick in LiveFor(db.capabilities, r) && db.orders[db.capabilities[pick].order].status == AwaitingFreelancer
    ensures db.capabilities[pick].purpose == Review && db.capabilities[pick].consumedAt.None?
  {
    hide IdsOk, DealsOk, ScopeOk, RevisionsOk, SealedOk, OneReview, ApprovalsOk, ApprovedOk, SendsOk;
    assert LinkAgrees(db.orders[db.capabilities[pick].order], db.capabilities[pick]);
  }

  const NO_EDITS := Edits(None, None, None, None, None, None, None, None, None)

  /** An edit that names no field keeps the content exactly if there were no attachments: those
      are not carried over. */
  lemma EmptyEditKeepsContentIff(c: Content)
    ensures Edited(c, NO_EDITS) == c <==> c.attachments == []
  {}
}
