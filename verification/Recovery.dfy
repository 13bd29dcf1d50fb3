/** Recovery of provider actions whose worker died while dispatching. */
module Recovery {
  import opened Common
  import Actions

  const STALE: int := 60

  /** A dispatching action nobody touched for a minute. */
  predicate IsOrphan(a: Actions.Action, updatedAt: int, now: int) {
    a.state == Actions.Dispatching && updatedAt <= now - STALE
  }

  ghost function Recovered(actions: map<nat, Actions.Action>, done: set<nat>): map<nat, Actions.Action> {
    map k | k in actions :: if k in done then Actions.Apply(actions[k], Actions.MarkUnknown).row else actions[k]
  }

  function Orphans(actions: map<nat, Actions.Action>, updatedAt: map<nat, int>, now: int): set<nat> {
    set k | k in actions && k in updatedAt && IsOrphan(actions[k], updatedAt[k], now)
  }

  /** The sweep cannot fail: every dispatch untouched for a minute becomes unknown with its latest
      attempt, none is left, and no other action changes. */
  lemma SweepLeavesNoOrphan(actions: map<nat, Actions.Action>, updatedAt: map<nat, int>, now: int)
    ensures var after := Recovered(actions, Orphans(actions, updatedAt, now));
            && Orphans(after, updatedAt, now) == {}
            && after.Keys == actions.Keys
            && forall k :: k in actions ==>
                 if actions[k].state == Actions.Dispatching && k in updatedAt && updatedAt[k] <= now - 60 then
                   && Actions.Apply(actions[k], Actions.MarkUnknown).Done? && after[k].state == Actions.UnknownOutcome
                   && Actions.AttemptsFollow(actions[k].attempts, after[k].attempts, Actions.MarkUnknown)
                 else after[k] == actions[k]
  {
    hide Actions.Apply, Actions.AttemptsFollow;
    forall k | k in actions && actions[k].state == Actions.Dispatching { UnknownFollows(actions[k]); }
  }

  lemma UnknownFollows(a: Actions.Action)
    requires a.state == Actions.Dispatching
    ensures var r := Actions.Apply(a, Actions.MarkUnknown);
            r.Done? && r.row.state == Actions.UnknownOutcome && Actions.AttemptsFollow(a.attempts, r.row.attempts, Actions.MarkUnknown)
  {
    hide MaxKey;
  }

  /** In every run whose dispatchers mark retries only while dispatching, an orphan the sweep
      marked starts no further attempt before an operator acknowledged the one that was lost. */
  lemma SweptOrphanWaits(run: seq<Actions.History>, calls: seq<Actions.Call>, i: nat, j: nat, updatedAt: int, now: int)
    requires Actions.IsRun(run, calls) && Actions.Disciplined(run, calls) && i < j < |run|
    requires IsOrphan(run[i].row, updatedAt, now) && calls[i].op == Actions.MarkUnknown
    ensures var n := MaxKey(run[i].row.attempts);
            MaxKey(run[j].row.attempts) > n ==> Actions.AckedBetween(run[j].log, n)
  {
    hide Actions.AckedBetween, Actions.Disciplined;
    var n := MaxKey(run[i].row.attempts);
    assert run[i + 1].log == run[i].log + [Actions.Uncertain(n)];
    if MaxKey(run[j].row.attempts) > n { Actions.UncertainWaitsForAcknowledgement(run, calls, i + 1, j, n); }
  }

  class ActionTable {
    var actions: map<nat, Actions.Action>
    var updatedAt: map<nat, int>

    constructor ()
      ensures actions == map[] && updatedAt == map[]
    {
      actions, updatedAt := map[], map[];
    }

    /** Reads the stale dispatches, then marks them one after the other. */
    method RecoverOrphans(now: int) returns (count: nat)
      requires forall k :: k in actions ==> k in updatedAt
      modifies this
      ensures actions == Recovered(old(actions), Orphans(old(actions), old(updatedAt), now))
      ensures count == |Orphans(old(actions), old(updatedAt), now)|
      ensures updatedAt == map k | k in old(updatedAt) ::
                if k in Orphans(old(actions), old(updatedAt), now) then now else old(updatedAt)[k]
    {
      hide Actions.Apply, IsOrphan;
      var found := StaleDispatches(now);
      ghost var was, times := actions, updatedAt;
      var left := found;
      count := 0;
      while left != {}
        invariant left <= found && count + |left| == |found|
        invariant actions == Recovered(was, found - left)
        invariant updatedAt == map k | k in times :: if k in found - left then now else times[k]
      {
        var k :| k in left;
        var ok, row := Actions.Perform(actions[k], Actions.MarkUnknown);
        actions := actions[k := row];
        updatedAt := updatedAt[k := now];
        left := left - {k};
        count := count + 1;
      }
      assert found - left == found;
    }

    /** The query, row by row. */
    method StaleDispatches(now: int) returns (found: set<nat>)
      requires forall k :: k in actions ==> k in updatedAt
      ensures found == Orphans(actions, updatedAt, now)
    {
      found := {};
      var left := actions.Keys;
      while left != {}
        invariant left <= actions.Keys
        invariant forall k :: k in found <==> k in Orphans(actions, updatedAt, now) && k !in left
      {
        var k :| k in left;
        left := left - {k};
        if actions[k].state == Actions.Dispatching && updatedAt[k] <= now - STALE { found := found + {k}; }
      }
    }
  }
}
