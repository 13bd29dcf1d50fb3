/** What a proposal, an edit, a scope confirmation and a delivered email leave behind. */
module AgreementRevisions {
  import opened Common
  import opened ChangeOrders
  import opened AgreementRules
  import opened AgreementSteps
  import opened AgreementOutcomes
  import Actions

  // ---------------------------------------------------------------- a new revision

  predicate HasTerms(c: Content) { 0 < c.terms.total <= 100_000_000 && 0 <= c.terms.tax <= c.terms.total }

  predicate HasWords(c: Content) {
    && c.title != "" && c.requestedChange != "" && c.deliverables != [] && c.clientExplanation != ""
    && c.subject != "" && c.plainText != "" && c.html != "" && c.recipient != "" && c.evidence != []
  }

  /** The revision freezes the content with the project's scope and the request's version, under
      a hash of exactly these. */
  predicate Freezes(a: Db, revision: Revision, o: nat, number: nat, project: nat, request: nat, contact: nat, content: Content) {
    && project in a.projects && a.projects[project].current == Some(revision.baseline)
    && request in a.requests && a.requests[request].version == revision.requestVersion
    && revision.order == o && revision.project == project && revision.number == number && !revision.superseded
    && revision.contact == contact && revision.content == content
    && revision.total == content.terms.total && revision.tax == content.terms.tax
    && revision.hash == Artifact(revision.baseline, revision.requestVersion, contact, content)
  }

  /** Every live link of the order is revoked and spent, and one inactive review link is new. */
  predicate LinkRenewed(a: map<nat, Capability>, b: map<nat, Capability>, o: nat, r: nat, c: nat, now: int) {
    && c !in a && b.Keys == a.Keys + {c}
    && b[c] == Capability(o, r, Review, None, None, None, None)
    && forall k :: k in a ==>
         b[k] == if a[k].order == o && a[k].revokedAt.None? then a[k].(revokedAt := Some(now), consumedAt := Some(now)) else a[k]
  }

  /** The order's current revision is replaced: the old one is superseded, the order awaits the
      freelancer again. */
  predicate Revised(a: Db, b: Db, o: nat, contact: nat, content: Content, now: int) {
    var r := a.nextId;
    && o in a.orders && a.orders[o].current.Some? && a.orders[o].current.value in a.revisions
    && var old' := a.orders[o].current.value;
    && r !in a.revisions && b.revisions.Keys == a.revisions.Keys + {r}
    && Freezes(a, b.revisions[r], o, a.revisions[old'].number + 1, a.orders[o].project, a.orders[o].request, contact, content)
    && (forall q :: q in a.revisions ==> b.revisions[q] == if q == old' then a.revisions[q].(superseded := true) else a.revisions[q])
    && b.orders == a.orders[o := a.orders[o].(current := Some(r), status := AwaitingFreelancer, rowVersion := a.orders[o].rowVersion + 1)]
    && LinkRenewed(a.capabilities, b.capabilities, o, r, a.nextId + 1, now)
    && b.nextId == a.nextId + 2
  }

  lemma InstallOutcome(db: Db, o: nat, contact: nat, content: Content, now: int)
    requires Inv(db) && o in db.orders && NewRevision(db, o, contact, content, now).error.None?
    ensures var b := NewRevision(db, o, contact, content, now).db;
            && Revised(db, b, o, contact, content, now)
            && b == db.(revisions := b.revisions, orders := b.orders, capabilities := b.capabilities, nextId := b.nextId)
  {
    hide Inv, Revoke, Complete, LinkRenewed;
    CurrentExists(db, o);
    RevisionIds(db);
    LinksRenewed(db.capabilities, o, db.nextId, db.nextId + 1, now);
  }

  lemma RevisionIds(db: Db)
    requires Inv(db)
    ensures forall n :: n >= db.nextId ==> n !in db.orders && n !in db.revisions && n !in db.capabilities
  {}

  lemma LinksRenewed(caps: map<nat, Capability>, o: nat, r: nat, c: nat, now: int)
    requires c !in caps
    ensures LinkRenewed(caps, Revoke(caps, o, now, true)[c := Capability(o, r, Review, None, None, None, None)], o, r, c, now)
  {}

  // ---------------------------------------------------------------- editing

  /** A field is what the edit says, or what it was. */
  predicate IsSet<T(==)>(edit: Option<T>, was: T, after: T) { after == match edit case Some(v) => v case None => was }

  /** Words follow the edit; the recipient, the evidence and the terms stay; attachments go. */
  predicate IsEdited(was: Content, after: Content, e: Edits) {
    && IsSet(e.title, was.title, after.title) && IsSet(e.requestedChange, was.requestedChange, after.requestedChange)
    && IsSet(e.deliverables, was.deliverables, after.deliverables) && IsSet(e.exclusions, was.exclusions, after.exclusions)
    && IsSet(e.assumptions, was.assumptions, after.assumptions) && IsSet(e.clientExplanation, was.clientExplanation, after.clientExplanation)
    && IsSet(e.subject, was.subject, after.subject) && IsSet(e.plainText, was.plainText, after.plainText) && IsSet(e.html, was.html, after.html)
    && after.recipient == was.recipient && after.evidence == was.evidence && after.terms == was.terms && after.attachments == []
  }

  /** The edit empties no required field. */
  predicate KeepsWords(e: Edits) {
    && e.title != Some("") && e.requestedChange != Some("") && e.deliverables != Some([]) && e.clientExplanation != Some("")
    && e.subject != Some("") && e.plainText != Some("") && e.html != Some("")
  }

  /** An order can be edited exactly until it is approved or withdrawn, by an edit that empties no
      required field; the new revision differs from the old one as the edit says. */
  lemma EditIff(db: Db, o: nat, edits: Edits, now: int)
    requires Inv(db)
    ensures var reply := CreateRevision(db, o, edits, now);
            && (reply.error.None? <==>
                  && o in db.orders && db.orders[o].status !in {ClientApproved, Withdrawn} && db.orders[o].request in db.requests
                  && KeepsWords(edits))
            && (reply.error.None? ==>
                  && var was := db.revisions[db.orders[o].current.value];
                  && db.nextId in reply.db.revisions && IsEdited(was.content, reply.db.revisions[db.nextId].content, edits)
                  && Revised(db, reply.db, o, was.contact, reply.db.revisions[db.nextId].content, now)
                  && reply.db == db.(revisions := reply.db.revisions, orders := reply.db.orders, capabilities := reply.db.capabilities,
                                     nextId := reply.db.nextId))
            && (reply.error.Some? ==> reply.db == db && reply.error.value in {NotFound, Invalid, Conflict})
            && (reply.error == Some(NotFound) <==> o !in db.orders)
            && (reply.error == Some(Invalid) <==>
                  && o in db.orders && db.orders[o].status !in {ClientApproved, Withdrawn} && db.orders[o].request in db.requests
                  && !KeepsWords(edits))
  {
    hide Inv, InstallRevision, Revised, Complete, Edited;
    if o in db.orders {
      CurrentExists(db, o);
      CurrentIsComplete(db, o);
      var was := db.revisions[db.orders[o].current.value];
      EditKeepsWords(was.content, edits);
      EditedOutcome(was.content, edits);
      var content := Edited(was.content, edits);
      if CreateRevision(db, o, edits, now).error.None? {
        InstallOutcome(db, o, was.contact, content, now);
        NewContent(db, CreateRevision(db, o, edits, now).db, o, was.contact, content, now);
      }
    }
  }

  lemma NewContent(a: Db, b: Db, o: nat, contact: nat, content: Content, now: int)
    requires Revised(a, b, o, contact, content, now)
    ensures a.nextId in b.revisions && b.revisions[a.nextId].content == content
  {}

  lemma CurrentIsComplete(db: Db, o: nat)
    requires Inv(db) && o in db.orders && HasCurrent(db.orders, db.revisions, o)
    ensures Complete(db.revisions[db.orders[o].current.value].content)
    ensures db.orders[o].project in db.projects && db.projects[db.orders[o].project].current.Some?
  {
    hide DealsOk, LinksOk, OneReview, ApprovalsOk, ApprovedOk, SendsOk, ParentsOk, ProvenanceOk, ItemsOk, Complete;
    var r := db.orders[o].current.value;
    assert IsSealed(db.revisions[r]) && db.revisions[r].baseline in db.versions;
  }

  lemma EditKeepsWords(c: Content, e: Edits)
    requires Complete(c)
    ensures Complete(Edited(c, e)) <==> KeepsWords(e)
  {}

  lemma EditedOutcome(c: Content, e: Edits)
    ensures IsEdited(c, Edited(c, e), e)
  {}

  // ---------------------------------------------------------------- proposing

  /** Orders of the request that are still open to a proposal. */
  predicate IsOpenFor(db: Db, o: nat, p: nat, q: nat) {
    o in db.orders && db.orders[o].project == p && db.orders[o].request == q && db.orders[o].status !in {ClientApproved, Withdrawn, Expired}
  }

  predicate RequestIsOpen(db: Db, p: Proposal) {
    p.request in db.requests && db.requests[p.request].project == p.project && db.requests[p.request].status in {Open, ProposalOpen}
  }

  predicate MayPropose(db: Db, p: Proposal) {
    && p.reviewable && p.draft.Some? && HasTerms(p.draft.value) && HasWords(p.draft.value) && p.contact.Some? && p.notify != ""
    && p.project in db.projects && db.projects[p.project].current.Some?
    && RequestIsOpen(db, p)
  }

  /** A fresh order with its first revision and an inactive review link. */
  predicate Proposed(a: Db, b: Db, p: Proposal) {
    var o, r, c := a.nextId, a.nextId + 1, a.nextId + 2;
    && p.contact.Some? && p.draft.Some?
    && o !in a.orders && b.orders == a.orders[o := Order(p.project, p.request, Some(r), AwaitingFreelancer, 2)]
    && r !in a.revisions && r in b.revisions && b.revisions == a.revisions[r := b.revisions[r]]
    && Freezes(a, b.revisions[r], o, 1, p.project, p.request, p.contact.value, p.draft.value)
    && c !in a.capabilities && b.capabilities == a.capabilities[c := Capability(o, r, Review, None, None, None, None)]
    && b.nextId == a.nextId + 3
  }

  /** The request is now under proposal, and only the tables of a proposal changed. */
  predicate RequestProposed(a: Db, b: Db, q: nat) {
    && q in a.requests && b.requests == a.requests[q := a.requests[q].(status := ProposalOpen, rowVersion := a.requests[q].rowVersion + 1)]
    && b == a.(requests := b.requests, revisions := b.revisions, orders := b.orders, capabilities := b.capabilities, nextId := b.nextId)
  }

  /** A reviewed draft becomes an offer exactly if it is complete and its request and scope are in
      place: a new revision of the order that is still open for the request, or a new order. */
  lemma ProposalIff(db: Db, p: Proposal, pick: nat, now: int)
    requires Inv(db)
    ensures var reply := Assemble(db, p, pick, now);
            && (reply.error.None? <==>
                  MayPropose(db, p) && ((exists o :: IsOpenFor(db, o, p.project, p.request)) ==> IsOpenFor(db, pick, p.project, p.request)))
            && (reply.error.None? ==>
                  && RequestProposed(db, reply.db, p.request)
                  && (if exists o :: IsOpenFor(db, o, p.project, p.request)
                      then Revised(db, reply.db, pick, p.contact.value, p.draft.value, now)
                      else Proposed(db, reply.db, p)))
            && (reply.error.Some? ==> reply.db == db && reply.error.value in {NotFound, Invalid, Conflict})
            && (reply.error == Some(Conflict) <==>
                  p.reviewable && (p.draft.None? || (p.project in db.projects && !(RequestIsOpen(db, p) && db.projects[p.project].current.Some?))))
            && (p.project in db.projects && reply.error == Some(NotFound) ==> !IsOpenFor(db, pick, p.project, p.request))
            && (p.project !in db.projects && p.reviewable && p.draft.Some? ==> reply.error == Some(NotFound))
  {
    hide Inv, Propose, Revised, Proposed, Matches, IsOpenFor, Complete;
    OpenMatches(db, p.project, p.request);
    OpenIs(db, pick, p.project, p.request);
    if AssemblyFault(db, p).None? {
      if Matches(db.orders, p.project, p.request) == {} {
        FirstProposal(db, p, now);
      } else if pick in Matches(db.orders, p.project, p.request) {
        NextProposal(db, p, pick, now);
      }
    }
  }

  lemma OpenMatches(db: Db, p: nat, q: nat)
    ensures forall o :: o in Matches(db.orders, p, q) <==> IsOpenFor(db, o, p, q)
    ensures Matches(db.orders, p, q) == {} <==> !exists o :: IsOpenFor(db, o, p, q)
  {
    assert forall o :: o in Matches(db.orders, p, q) <==> IsOpenFor(db, o, p, q);
  }

  lemma OpenIs(db: Db, o: nat, p: nat, q: nat)
    ensures IsOpenFor(db, o, p, q) ==> o in db.orders && db.orders[o].project == p && db.orders[o].request == q
  {}

  lemma CompleteMeans(c: Content)
    ensures Complete(c) <==> HasTerms(c) && HasWords(c)
  {}

  lemma FirstProposal(db: Db, p: Proposal, now: int)
    requires Inv(db) && AssemblyFault(db, p).None? && p.contact.Some? && p.draft.Some?
    ensures var reply := Propose(WithDraft(db, p.project, p.request), db, db.nextId, p, now);
            && (reply.error.None? <==> HasTerms(p.draft.value) && HasWords(p.draft.value) && p.notify != "")
            && (reply.error.None? ==> RequestProposed(db, reply.db, p.request) && Proposed(db, reply.db, p))
            && (reply.error.Some? ==> reply == Reply(db, Some(Invalid)))
  {
    hide Inv, Complete, HasTerms, HasWords, Revoke;
    CompleteMeans(p.draft.value);
    RevisionIds(db);
  }

  lemma NextProposal(db: Db, p: Proposal, pick: nat, now: int)
    requires Inv(db) && p.contact.Some? && p.draft.Some?
    requires pick in db.orders && db.orders[pick].project == p.project && db.orders[pick].request == p.request
    requires p.request in db.requests && p.project in db.projects && db.projects[p.project].current.Some?
    ensures Propose(db, db, pick, p, now).error.None? <==> HasTerms(p.draft.value) && HasWords(p.draft.value) && p.notify != ""
    ensures Propose(db, db, pick, p, now).error.Some? ==> Propose(db, db, pick, p, now) == Reply(db, Some(Invalid))
    ensures Propose(db, db, pick, p, now).error.None? ==>
              && RequestProposed(db, Propose(db, db, pick, p, now).db, p.request)
              && Revised(db, Propose(db, db, pick, p, now).db, pick, p.contact.value, p.draft.value, now)
  {
    hide Inv, Complete, HasTerms, HasWords, InstallRevision;
    CompleteMeans(p.draft.value);
    CurrentExists(db, pick);
    var revised := NewRevision(db, pick, p.contact.value, p.draft.value, now);
    if revised.error.None? {
      InstallOutcome(db, pick, p.contact.value, p.draft.value, now);
      RequestOutcome(revised.db, p.request, ProposalOpen);
    }
  }

  // ---------------------------------------------------------------- scope confirmation

  /** The new items: one for each chosen candidate, in its own words. */
  ghost predicate ItemsAdded(a: map<nat, ScopeItem>, b: map<nat, ScopeItem>, candidates: map<nat, Candidate>, p: nat, chosen: set<nat>, base: nat) {
    && (forall j :: j in a ==> j in b && b[j] == a[j])
    && (forall i :: i in chosen ==> i in candidates && CandidateAdded(a, b, p, i, candidates[i], base + i))
    && (forall j :: j in b && j !in a ==> b[j].candidate in chosen && j == base + b[j].candidate)
  }

  predicate CandidateAdded(a: map<nat, ScopeItem>, b: map<nat, ScopeItem>, p: nat, i: nat, c: Candidate, j: nat) {
    j !in a && j in b && b[j] == ScopeItem(p, i, c.itemKey, c.itemType, c.text)
  }

  /** The next version holds exactly the new items. */
  ghost predicate LinksAdded(a: Db, b: Db, next: ScopeKey) {
    forall l :: l in b.links <==> l in a.links || (l.0 == next && l.1 in b.items && l.1 !in a.items)
  }

  ghost predicate ScopeConfirmed(a: Db, b: Db, p: nat, chosen: set<nat>) {
    && p in a.projects
    && var current := a.projects[p].current;
    && var next := ScopeKey(p, if current.None? then 1 else current.value.number + 1);
    && next !in a.versions && b.versions == a.versions[next := ScopeVersion(current, None)]
    && b.projects == a.projects[p := Project(Some(next), true)]
    && ItemsAdded(a.items, b.items, a.candidates, p, chosen, a.nextId) && LinksAdded(a, b, next)
    && b.candidates.Keys == a.candidates.Keys
    && (forall i :: i in a.candidates ==> b.candidates[i] == if i in chosen then a.candidates[i].(confirmed := true) else a.candidates[i])
  }

  /** Candidates are confirmed exactly if there are some, all of the project and none rejected.
      They become the next version's own items; no other version's items change. */
  lemma ConfirmationIff(db: Db, p: nat, chosen: set<nat>)
    requires Inv(db)
    ensures var reply := ConfirmScope(db, p, chosen);
            && (reply.error.None? <==>
                  && p in db.projects && chosen != {}
                  && (forall i :: i in chosen ==> i in db.candidates && db.candidates[i].project == p && !db.candidates[i].rejected))
            && (reply.error.None? ==> ScopeConfirmed(db, reply.db, p, chosen))
            && (reply.error.None? ==> reply.db == db.(items := reply.db.items, versions := reply.db.versions, links := reply.db.links,
                                                      candidates := reply.db.candidates, projects := reply.db.projects, nextId := reply.db.nextId))
            && (reply.error.Some? ==> reply.db == db && reply.error.value in {NotFound, Invalid, Unauthorized, Conflict})
            && (reply.error == Some(NotFound) <==> p !in db.projects)
            && (reply.error == Some(Invalid) <==> p in db.projects && chosen == {})
            && (reply.error == Some(Unauthorized) <==>
                  p in db.projects && exists i :: i in chosen && (i !in db.candidates || db.candidates[i].project != p))
  {
    hide Inv, ScopeConfirmed, WithScope;
    if ConfirmScope(db, p, chosen).error.None? { ScopeOutcome(db, p, chosen); }
  }

  lemma ScopeOutcome(db: Db, p: nat, chosen: set<nat>)
    requires Inv(db) && p in db.projects && forall i :: i in chosen ==> i in db.candidates
    ensures ScopeConfirmed(db, WithScope(db, p, chosen), p, chosen)
    ensures var b := WithScope(db, p, chosen);
            b == db.(items := b.items, versions := b.versions, links := b.links, candidates := b.candidates, projects := b.projects, nextId := b.nextId)
  {
    hide Inv, ItemsAdded, LinksAdded, MaxOf, NumbersOf, NewItems, NewLinks, ItemIds, HistoryOk, Confirmed;
    ConfirmedAre(db.candidates, chosen);
    History(db);
    NumbersAreHead(db.projects, db.versions, p);
    HeadIsLast(db.projects, db.versions, p);
    ItemIdsAre(db, chosen);
    ItemsOutcome(db.items, db.candidates, p, chosen, db.nextId);
    LinksOutcome(db, WithScope(db, p, chosen), p, chosen, ScopeKey(p, Head(db.projects[p]) + 1));
  }

  lemma ConfirmedAre(candidates: map<nat, Candidate>, chosen: set<nat>)
    ensures Confirmed(candidates, chosen).Keys == candidates.Keys
    ensures forall i :: i in candidates ==>
              Confirmed(candidates, chosen)[i] == if i in chosen then candidates[i].(confirmed := true) else candidates[i]
  {}

  lemma History(db: Db)
    requires Inv(db)
    ensures HistoryOk(db.projects, db.versions)
  {}

  lemma ItemIdsAre(db: Db, chosen: set<nat>)
    requires Inv(db)
    ensures forall j :: j in db.items ==> j < db.nextId
  {}

  lemma ItemsOutcome(items: map<nat, ScopeItem>, candidates: map<nat, Candidate>, p: nat, chosen: set<nat>, base: nat)
    requires (forall i :: i in chosen ==> i in candidates) && (forall j :: j in items ==> j < base)
    ensures ItemsAdded(items, items + NewItems(candidates, p, chosen, base), candidates, p, chosen, base)
  {
    hide NewItems, ItemIds;
    NewItemsAre(candidates, p, chosen, base);
    var b := items + NewItems(candidates, p, chosen, base);
    forall i | i in chosen ensures CandidateAdded(items, b, p, i, candidates[i], base + i) {}
  }

  lemma NewItemsAre(candidates: map<nat, Candidate>, p: nat, chosen: set<nat>, base: nat)
    requires forall i :: i in chosen ==> i in candidates
    ensures NewItems(candidates, p, chosen, base).Keys == ItemIds(chosen, base)
    ensures forall j :: j in ItemIds(chosen, base) <==> j >= base && j - base in chosen
    ensures forall j :: j in ItemIds(chosen, base) ==>
              NewItems(candidates, p, chosen, base)[j]
                == ScopeItem(p, j - base, candidates[j - base].itemKey, candidates[j - base].itemType, candidates[j - base].text)
  {
    IdsAre(chosen, base);
  }

  lemma IdsAre(chosen: set<nat>, base: nat)
    ensures forall j :: j in ItemIds(chosen, base) <==> j >= base && j - base in chosen
  {}

  lemma LinksOutcome(db: Db, b: Db, p: nat, chosen: set<nat>, next: ScopeKey)
    requires (forall i :: i in chosen ==> i in db.candidates) && (forall j :: j in db.items ==> j < db.nextId)
    requires b.items == db.items + NewItems(db.candidates, p, chosen, db.nextId)
    requires b.links == db.links + NewLinks(next, ItemIds(chosen, db.nextId))
    ensures LinksAdded(db, b, next)
  {
    forall l: (ScopeKey, nat) ensures l in b.links <==> l in db.links || (l.0 == next && l.1 in b.items && l.1 !in db.items) {
      assert l in NewLinks(next, ItemIds(chosen, db.nextId)) <==> l.0 == next && l.1 in ItemIds(chosen, db.nextId);
    }
  }
}
