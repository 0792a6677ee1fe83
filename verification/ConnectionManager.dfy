/** Convergence of the loaded MCP servers (McpConnectionManager.reconcile_loaded, apply, revoke).

A pass compares the locally loaded revisions with the active snapshot, plans an apply or a
revoke for each server that differs, and runs the operations concurrently, each under its
server's own lock. An operation touches the local state of its own server only.
*/
module ConnectionManager {
  import opened Wrappers

  type ServerId = string

  /** Revisions of the servers that should be loaded. */
  type Snapshot = map<ServerId, int>

  datatype Local = Local(
    generations: map<ServerId, int>, connectors: set<ServerId>,
    pending: map<ServerId, Option<int>>, closing: set<ServerId>)

  datatype Operation = Apply(id: ServerId, revision: int) | Revoke(id: ServerId)

  // ---------------------------------------------------------------- planning

  function LocalIds(l: Local): set<ServerId> {
    l.generations.Keys + l.connectors + l.pending.Keys
  }

  /** What a server needs, judged on its own. */
  function Needed(l: Local, snapshot: Snapshot, id: ServerId): Option<Operation> {
    if id in snapshot then
      if Get(l.generations, id) != Some(snapshot[id]) || id in l.pending
      then Some(Apply(id, snapshot[id])) else None
    else if id in LocalIds(l) then Some(Revoke(id))
    else None
  }

  /** The plan has what each server needs, once. */
  ghost predicate IsPlan(l: Local, snapshot: Snapshot, plan: seq<Operation>) {
    && (forall i, j :: 0 <= i < j < |plan| ==> plan[i].id != plan[j].id)
    && (forall i :: 0 <= i < |plan| ==> Needed(l, snapshot, plan[i].id) == Some(plan[i]))
    && (forall id :: Needed(l, snapshot, id).Some? ==> exists i :: 0 <= i < |plan| && plan[i].id == id)
  }

  /** The servers considered so far have their operation. */
  ghost predicate Partial(l: Local, snapshot: Snapshot, plan: seq<Operation>, done: set<ServerId>) {
    && (forall i, j :: 0 <= i < j < |plan| ==> plan[i].id != plan[j].id)
    && (forall i :: 0 <= i < |plan| ==> plan[i].id in done && Needed(l, snapshot, plan[i].id) == Some(plan[i]))
    && (forall id :: id in done && Needed(l, snapshot, id).Some? ==> exists i :: 0 <= i < |plan| && plan[i].id == id)
  }

  lemma PartialGrows(l: Local, snapshot: Snapshot, plan: seq<Operation>, done: set<ServerId>, id: ServerId)
    requires Partial(l, snapshot, plan, done)
    ensures Needed(l, snapshot, id).None? ==> Partial(l, snapshot, plan, done + {id})
    ensures id in done ==> Partial(l, snapshot, plan, done + {id})
    ensures id !in done && Needed(l, snapshot, id).Some? ==>
      Partial(l, snapshot, plan + [Needed(l, snapshot, id).value], done + {id})
  {
    hide LocalIds;
    if id in done {
      assert done + {id} == done;
    } else if Needed(l, snapshot, id).Some? {
      var longer := plan + [Needed(l, snapshot, id).value];
      forall k | k in done + {id} && Needed(l, snapshot, k).Some?
        ensures exists i :: 0 <= i < |longer| && longer[i].id == k
      {
        if k == id {
          assert longer[|plan|].id == id;
        } else {
          var i :| 0 <= i < |plan| && plan[i].id == k;
          assert longer[i].id == k;
        }
      }
    }
  }

  datatype ApplyProgress = FailedEarly | FailedLate | Applied

  datatype RevokeProgress = FailedBeforeDrain | FailedAfterDrain | Revoked

  /** An apply whose server is active at this revision when it starts and when it ends. A failure
      before the connector is replaced leaves everything, a later one leaves the new revision. */
  function AfterApply(l: Local, id: ServerId, revision: int, progress: ApplyProgress): Local {
    match progress
    case FailedEarly => l
    case FailedLate => l.(generations := l.generations[id := revision], connectors := l.connectors + {id})
    case Applied =>
      Local(l.generations[id := revision], l.connectors + {id}, l.pending - {id}, l.closing - {id})
  }

  /** A revoke of a server that is not active. The pending entry survives every failure. */
  function AfterRevoke(l: Local, id: ServerId, progress: RevokeProgress): Local {
    var marked := if id in l.pending then l.pending else l.pending[id := Get(l.generations, id)];
    match progress
    case FailedBeforeDrain =>
      Local(l.generations, l.connectors - {id}, marked,
            if id in l.connectors then l.closing + {id} else l.closing)
    case FailedAfterDrain => Local(l.generations, l.connectors - {id}, marked, l.closing - {id})
    case Revoked => Local(l.generations - {id}, l.connectors - {id}, l.pending - {id}, l.closing - {id})
  }

  /** An apply that ran through although the active snapshot had moved on. */
  function Superseded(l: Local, id: ServerId, revision: int): Local {
    Local(l.generations[id := revision], l.connectors + {id}, l.pending[id := Some(revision)], l.closing)
  }

  /** What an apply does, with the active snapshots it sees at its start and at its end. */
  function ApplyRan(l: Local, id: ServerId, revision: int, before: Snapshot, after: Snapshot, progress: ApplyProgress)
    : Local
  {
    if Get(before, id) != Some(revision) then l
    else if progress.Applied? && Get(after, id) != Some(revision) then Superseded(l, id, revision)
    else AfterApply(l, id, revision, progress)
  }

  /** What a revoke does, with the active snapshot it sees. */
  function RevokeRan(l: Local, id: ServerId, desired: Snapshot, progress: RevokeProgress): Local {
    if id in desired then l else AfterRevoke(l, id, progress)
  }

  /** A loaded revision is connected or still pending, and so is a connector being closed. */
  ghost predicate Backed(l: Local) {
    l.generations.Keys <= l.connectors + l.pending.Keys && l.closing <= l.pending.Keys
  }

  class Manager {
    var generations: map<ServerId, int>
    var connectors: set<ServerId>
    var pending: map<ServerId, Option<int>>
    var closing: set<ServerId>

    function View(): Local
      reads this
    {
      Local(generations, connectors, pending, closing)
    }

    constructor ()
      ensures View() == Local(map[], {}, map[], {})
    {
      generations, connectors, pending, closing := map[], {}, map[], {};
    }

    /** The two planning loops: over the local servers, then over the snapshot. */
    method Plan(snapshot: Snapshot) returns (plan: seq<Operation>)
      ensures IsPlan(View(), snapshot, plan)
    {
      hide Partial;
      plan := [];
      var scheduled: set<ServerId> := {};
      var todo := LocalIds(View());
      ghost var done: set<ServerId> := {};
      PartialStart(View(), snapshot);
      while todo != {}
        invariant todo + done == LocalIds(View()) && todo !! done
        invariant Partial(View(), snapshot, plan, done)
        invariant forall id :: id in scheduled <==> id in done && Needed(View(), snapshot, id).Some?
        decreases todo
      {
        var id :| id in todo;
        PartialGrows(View(), snapshot, plan, done, id);
        todo, done := todo - {id}, done + {id};
        var revision := Get(generations, id);
        if id !in snapshot {
          plan := plan + [Revoke(id)];
          scheduled := scheduled + {id};
        } else if revision != Some(snapshot[id]) || id in pending {
          plan := plan + [Apply(id, snapshot[id])];
          scheduled := scheduled + {id};
        }
      }
      var entries := snapshot.Keys;
      while entries != {}
        invariant entries <= snapshot.Keys && done == LocalIds(View()) + (snapshot.Keys - entries)
        invariant Partial(View(), snapshot, plan, done)
        decreases entries
      {
        var id :| id in entries;
        PartialGrows(View(), snapshot, plan, done, id);
        entries, done := entries - {id}, done + {id};
        if id !in scheduled && Get(generations, id) != Some(snapshot[id]) {
          plan := plan + [Apply(id, snapshot[id])];
        }
      }
      PartialEnd(View(), snapshot, plan, done);
    }

    method ApplyEntry(id: ServerId, revision: int, before: Snapshot, after: Snapshot, progress: ApplyProgress)
      returns (ok: bool)
      modifies this
      ensures ok == (Get(before, id) == Some(revision) && progress.Applied? && Get(after, id) == Some(revision))
      ensures View() == ApplyRan(old(View()), id, revision, before, after, progress)
    {
      if Get(before, id) != Some(revision) || progress.FailedEarly? {
        return false;
      }
      connectors := connectors + {id};
      generations := generations[id := revision];
      if progress.FailedLate? {
        return false;
      }
      if Get(after, id) != Some(revision) {
        pending := pending[id := Some(revision)];
        return false;
      }
      pending := pending - {id};
      closing := closing - {id};
      return true;
    }

    method RevokeServer(id: ServerId, desired: Snapshot, progress: RevokeProgress) returns (ok: bool)
      modifies this
      ensures ok == (id in desired || progress.Revoked?)
      ensures View() == RevokeRan(old(View()), id, desired, progress)
    {
      if id in desired {
        return true;
      }
      if id !in pending {
        pending := pending[id := Get(generations, id)];
      }
      if id in connectors {
        connectors := connectors - {id};
        closing := closing + {id};
      }
      if progress.FailedBeforeDrain? {
        return false;
      }
      closing := closing - {id};
      if progress.FailedAfterDrain? {
        return false;
      }
      generations := generations - {id};
      pending := pending - {id};
      return true;
    }
  }

  lemma PartialStart(l: Local, snapshot: Snapshot)
    ensures Partial(l, snapshot, [], {})
  {
  }

  lemma PartialEnd(l: Local, snapshot: Snapshot, plan: seq<Operation>, done: set<ServerId>)
    requires Partial(l, snapshot, plan, done) && done == LocalIds(l) + snapshot.Keys
    ensures IsPlan(l, snapshot, plan)
  {
    hide LocalIds;
  }

  // ---------------------------------------------------------------- running a plan

  datatype Outcome = Succeeded | ApplyFailed(apply: ApplyProgress) | RevokeFailed(revoke: RevokeProgress)

  predicate FitsOutcome(op: Operation, outcome: Outcome) {
    match outcome
    case Succeeded => true
    case ApplyFailed(progress) => op.Apply? && progress != Applied
    case RevokeFailed(progress) => op.Revoke? && progress != Revoked
  }

  /** One operation while the active snapshot stays what it was when the plan was made. */
  function Ran(l: Local, op: Operation, outcome: Outcome): Local
    requires FitsOutcome(op, outcome)
  {
    match op
    case Apply(id, revision) => AfterApply(l, id, revision, if outcome.Succeeded? then Applied else outcome.apply)
    case Revoke(id) => AfterRevoke(l, id, if outcome.Succeeded? then Revoked else outcome.revoke)
  }

  ghost predicate Fits(plan: seq<Operation>, outcomes: seq<Outcome>) {
    |outcomes| == |plan| && forall i :: 0 <= i < |plan| ==> FitsOutcome(plan[i], outcomes[i])
  }

  ghost function RanAll(l: Local, plan: seq<Operation>, outcomes: seq<Outcome>): Local
    requires Fits(plan, outcomes)
  {
    if plan == [] then l
    else Ran(RanAll(l, plan[..|plan| - 1], outcomes[..|plan| - 1]), plan[|plan| - 1], outcomes[|plan| - 1])
  }

  /** The local state of one server. */
  ghost predicate SameFor(a: Local, b: Local, id: ServerId) {
    && Get(a.generations, id) == Get(b.generations, id) && Get(a.pending, id) == Get(b.pending, id)
    && (id in a.connectors <==> id in b.connectors) && (id in a.closing <==> id in b.closing)
  }

  /** A server with no operation keeps its state, and one with an operation ends up as if only
      that operation had run: the order of the operations does not matter. */
  lemma {:induction false} RanOnItsOwn(l: Local, plan: seq<Operation>, outcomes: seq<Outcome>, id: ServerId)
    requires Fits(plan, outcomes) && forall i, j :: 0 <= i < j < |plan| ==> plan[i].id != plan[j].id
    ensures (forall i :: 0 <= i < |plan| ==> plan[i].id != id) ==> SameFor(RanAll(l, plan, outcomes), l, id)
    ensures forall i :: 0 <= i < |plan| && plan[i].id == id ==>
      SameFor(RanAll(l, plan, outcomes), Ran(l, plan[i], outcomes[i]), id)
  {
    if plan != [] {
      var n := |plan| - 1;
      RanOnItsOwn(l, plan[..n], outcomes[..n], id);
      RanLocal(RanAll(l, plan[..n], outcomes[..n]), l, plan[n], outcomes[n], id);
      forall i | 0 <= i < |plan| && plan[i].id == id
        ensures SameFor(RanAll(l, plan, outcomes), Ran(l, plan[i], outcomes[i]), id)
      {
        if i < n { assert plan[..n][i] == plan[i] && outcomes[..n][i] == outcomes[i]; }
      }
    }
  }

  /** What an operation does to a server depends on that server's state alone. */
  lemma RanLocal(a: Local, b: Local, op: Operation, outcome: Outcome, id: ServerId)
    requires FitsOutcome(op, outcome)
    ensures op.id != id ==> SameFor(Ran(a, op, outcome), a, id)
    ensures op.id == id && SameFor(a, b, id) ==> SameFor(Ran(a, op, outcome), Ran(b, op, outcome), id)
  {
  }

  lemma NeededDepends(a: Local, b: Local, snapshot: Snapshot, id: ServerId)
    requires SameFor(a, b, id)
    ensures Needed(a, snapshot, id) == Needed(b, snapshot, id)
  {
  }

  /** If every operation succeeds, the loaded revisions are exactly the snapshot, no revoke is
      pending, no other server is connected, and the next pass has nothing to do. From a backed
      state exactly the servers of the snapshot are connected and nothing is left closing. */
  lemma ConvergesInOnePass(l: Local, snapshot: Snapshot, plan: seq<Operation>, outcomes: seq<Outcome>)
    requires IsPlan(l, snapshot, plan) && Fits(plan, outcomes)
    requires forall i :: 0 <= i < |outcomes| ==> outcomes[i] == Succeeded
    ensures var after := RanAll(l, plan, outcomes);
            && after.generations == snapshot && after.pending == map[] && after.connectors <= snapshot.Keys
            && (Backed(l) ==> after == Local(snapshot, snapshot.Keys, map[], {}))
            && (forall next :: IsPlan(after, snapshot, next) ==> next == [])
  {
    hide RanAll;
    var after := RanAll(l, plan, outcomes);
    forall id
      ensures Get(after.generations, id) == Get(snapshot, id) && id !in after.pending
      ensures id in after.connectors ==> id in snapshot
      ensures Backed(l) ==> (id in snapshot ==> id in after.connectors) && id !in after.closing
      ensures Needed(after, snapshot, id).None?
    {
      SettledFor(l, snapshot, plan, outcomes, id);
    }
    assert forall id: ServerId :: id in after.generations <==> Get(after.generations, id).Some?;
    assert forall id: ServerId :: id in snapshot <==> Get(snapshot, id).Some?;
    assert after.generations.Keys == snapshot.Keys;
    forall id | id in snapshot ensures after.generations[id] == snapshot[id] {
      assert Get(after.generations, id) == Get(snapshot, id);
    }
    forall next: seq<Operation> | IsPlan(after, snapshot, next) ensures next == [] {
      NothingNeeded(after, snapshot, next);
    }
  }

  lemma NothingNeeded(l: Local, snapshot: Snapshot, plan: seq<Operation>)
    requires IsPlan(l, snapshot, plan) && forall id :: Needed(l, snapshot, id).None?
    ensures plan == []
  {
    hide Needed;
    if plan != [] {
      FirstNeeded(l, snapshot, plan);
    }
  }

  lemma FirstNeeded(l: Local, snapshot: Snapshot, plan: seq<Operation>)
    requires IsPlan(l, snapshot, plan) && plan != []
    ensures Needed(l, snapshot, plan[0].id) == Some(plan[0])
  {
    hide Needed;
  }

  lemma SettledFor(l: Local, snapshot: Snapshot, plan: seq<Operation>, outcomes: seq<Outcome>, id: ServerId)
    requires IsPlan(l, snapshot, plan) && Fits(plan, outcomes)
    requires forall i :: 0 <= i < |plan| && plan[i].id == id ==> outcomes[i] == Succeeded
    ensures var after := RanAll(l, plan, outcomes);
            && Get(after.generations, id) == Get(snapshot, id) && id !in after.pending
            && (id in after.connectors ==> id in snapshot)
            && (Backed(l) ==> (id in snapshot ==> id in after.connectors) && id !in after.closing)
            && Needed(after, snapshot, id).None?
  {
    hide RanAll;
    RanOnItsOwn(l, plan, outcomes, id);
    if Needed(l, snapshot, id).Some? {
      var i :| 0 <= i < |plan| && plan[i].id == id;
      assert SameFor(RanAll(l, plan, outcomes), Ran(l, plan[i], outcomes[i]), id);
    } else {
      assert forall i :: 0 <= i < |plan| ==> plan[i].id != id;
    }
  }

  /** One apply or revoke under any snapshots, with any progress. */
  datatype Step =
    | ApplyStep(id: ServerId, revision: int, before: Snapshot, after: Snapshot, apply: ApplyProgress)
    | RevokeStep(id: ServerId, desired: Snapshot, revoke: RevokeProgress)

  function Stepped(l: Local, step: Step): Local {
    match step
    case ApplyStep(id, revision, before, after, progress) => ApplyRan(l, id, revision, before, after, progress)
    case RevokeStep(id, desired, progress) => RevokeRan(l, id, desired, progress)
  }

  function SteppedAll(l: Local, steps: seq<Step>): Local {
    if steps == [] then l else Stepped(SteppedAll(l, steps[..|steps| - 1]), steps[|steps| - 1])
  }

  lemma StepKeepsBacked(l: Local, step: Step)
    requires Backed(l)
    ensures Backed(Stepped(l, step))
  {
  }

  lemma {:induction false} StepsKeepBacked(l: Local, steps: seq<Step>)
    requires Backed(l)
    ensures Backed(SteppedAll(l, steps))
  {
    hide Backed, Stepped;
    if steps != [] {
      StepsKeepBacked(l, steps[..|steps| - 1]);
      StepKeepsBacked(SteppedAll(l, steps[..|steps| - 1]), steps[|steps| - 1]);
    }
  }

  /** Whatever applies and revokes did while the snapshot moved, one pass during which it stays
      and nothing fails leaves exactly the snapshot loaded and connected. */
  lemma QuietPassRecovers(connectors: set<ServerId>, steps: seq<Step>, snapshot: Snapshot,
                          plan: seq<Operation>, outcomes: seq<Outcome>)
    requires var l := SteppedAll(Local(map[], connectors, map[], {}), steps);
             IsPlan(l, snapshot, plan) && Fits(plan, outcomes)
    requires forall i :: 0 <= i < |outcomes| ==> outcomes[i] == Succeeded
    ensures RanAll(SteppedAll(Local(map[], connectors, map[], {}), steps), plan, outcomes) ==
            Local(snapshot, snapshot.Keys, map[], {})
  {
    hide SteppedAll, IsPlan, RanAll, Fits;
    var start := Local(map[], connectors, map[], {});
    StepsKeepBacked(start, steps);
    ConvergesInOnePass(SteppedAll(start, steps), snapshot, plan, outcomes);
  }

  /** An apply that the snapshot overtook is planned again, whatever the next snapshot says: as
      an apply when the server is in it, as a revoke when it is not. */
  lemma OvertakenIsPlanned(l: Local, id: ServerId, revision: int, before: Snapshot, after: Snapshot, next: Snapshot)
    requires Get(before, id) == Some(revision) && Get(after, id) != Some(revision)
    ensures Needed(ApplyRan(l, id, revision, before, after, Applied), next, id) ==
            Some(if id in next then Apply(id, next[id]) else Revoke(id))
  {
  }

  /** Whatever fails, the next pass plans only servers whose operation failed. */
  lemma OnlyFailuresRemain(
    l: Local, snapshot: Snapshot, plan: seq<Operation>, outcomes: seq<Outcome>, next: seq<Operation>, k: nat)
    requires IsPlan(l, snapshot, plan) && Fits(plan, outcomes)
    requires IsPlan(RanAll(l, plan, outcomes), snapshot, next) && k < |next|
    ensures exists i :: 0 <= i < |plan| && plan[i].id == next[k].id && outcomes[i] != Succeeded
  {
    hide RanAll;
    if forall i :: 0 <= i < |plan| && plan[i].id == next[k].id ==> outcomes[i] == Succeeded {
      SettledFor(l, snapshot, plan, outcomes, next[k].id);
    }
  }

  /** A failed revoke is planned again. A failed apply is planned again exactly when it failed
      early or a revoke of the server was pending: a late failure leaves the new revision, so
      the next pass takes the server for loaded. */
  lemma RetriedIff(l: Local, snapshot: Snapshot, plan: seq<Operation>, outcomes: seq<Outcome>, i: nat)
    requires IsPlan(l, snapshot, plan) && Fits(plan, outcomes) && i < |plan| && outcomes[i] != Succeeded
    ensures var after := RanAll(l, plan, outcomes);
            Needed(after, snapshot, plan[i].id).Some? <==>
              plan[i].Revoke? || outcomes[i].apply == FailedEarly || plan[i].id in l.pending
  {
    hide RanAll;
    RanOnItsOwn(l, plan, outcomes, plan[i].id);
    assert Needed(l, snapshot, plan[i].id) == Some(plan[i]);
    NeededDepends(RanAll(l, plan, outcomes), Ran(l, plan[i], outcomes[i]), snapshot, plan[i].id);
  }

  /** Such a server exists: its only apply fails late, and the next pass has nothing to do. */
  lemma LateFailureForgotten(next: seq<Operation>)
    requires IsPlan(RanAll(Local(map[], {}, map[], {}), [Apply("a", 1)], [ApplyFailed(FailedLate)]),
                    map["a" := 1], next)
    ensures IsPlan(Local(map[], {}, map[], {}), map["a" := 1], [Apply("a", 1)])
    ensures next == []
  {
    var l, snapshot: Snapshot, plan := Local(map[], {}, map[], {}), map["a" := 1], [Apply("a", 1)];
    assert plan[0].id == "a";
    var after := RanAll(l, plan, [ApplyFailed(FailedLate)]);
    assert after == Local(map["a" := 1], {"a"}, map[], {});
    NothingNeeded(after, snapshot, next);
  }

  // ---------------------------------------------------------------- what one operation leaves

  /** An operation leaves the local state of every other server alone. */
  lemma OnlyItsOwn(l: Local, step: Step, other: ServerId)
    requires other != step.id
    ensures SameFor(Stepped(l, step), l, other)
  {
  }

  /** An apply of a revision that is not active does nothing, nor does one that fails before its
      connector is there. Any other one leaves the revision loaded and connected. It ends with
      nothing pending or closing if the revision is still active then; if not, a revoke of the
      revision is pending; after a late failure both are as before. */
  lemma ApplyLeaves(
    l: Local, id: ServerId, revision: int, before: Snapshot, after: Snapshot, progress: ApplyProgress)
    ensures var l' := Stepped(l, ApplyStep(id, revision, before, after, progress));
            if Get(before, id) != Some(revision) || progress == FailedEarly then l' == l
            else
              && Get(l'.generations, id) == Some(revision) && id in l'.connectors
              && (progress == FailedLate ==>
                    Get(l'.pending, id) == Get(l.pending, id) && (id in l'.closing <==> id in l.closing))
              && (progress == Applied && Get(after, id) == Some(revision) ==> id !in l'.pending && id !in l'.closing)
              && (progress == Applied && Get(after, id) != Some(revision) ==>
                    Get(l'.pending, id) == Some(Some(revision)) && (id in l'.closing <==> id in l.closing))
  {
  }

  /** A revoke of a server that is active does nothing. Any other one disconnects the server; until
      it is through, the loaded revision stays and a revoke is pending, for the revision it was
      first pending for; the connector is closing until it is drained; in the end nothing of the
      server is left. */
  lemma RevokeLeaves(l: Local, id: ServerId, desired: Snapshot, progress: RevokeProgress)
    ensures var l' := Stepped(l, RevokeStep(id, desired, progress));
            if id in desired then l' == l
            else
              && id !in l'.connectors
              && (if progress == Revoked
                  then id !in l'.generations && id !in l'.pending && id !in l'.closing
                  else && Get(l'.generations, id) == Get(l.generations, id)
                       && Get(l'.pending, id) ==
                            Some(if id in l.pending then l.pending[id] else Get(l.generations, id))
                       && (id in l'.closing <==>
                             progress == FailedBeforeDrain && (id in l.connectors || id in l.closing)))
  {
  }
}
