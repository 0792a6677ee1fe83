/** Where the results of tool calls come from, over whole runs: a recorded result is the one the
dispatch or the policy denial gave, and a replayed one is that of an earlier call of the same
action. */
module ToolResults {
  import opened Wrappers
  import opened ToolGateway

  /** The step that gives a call this outcome. */
  predicate Decides(e: Event, task: TaskId, outcome: Outcome) {
    match outcome
    case Recorded(result) => e == Complete(task, result) || e == Deny(task, result)
    case Unrecorded => e == Refuse(task) || e == Raise(task)
    case TimedOut => e == TimeOut(task)
    case _ => e == Check(task)
  }

  /** The step records a result of the call's action under the call's key. */
  predicate Records(s: State, e: Event, key: Key, digest: string, result: ToolResult) {
    && (e.Complete? || e.Deny?) && e.result == result
    && e.task in s.calls && s.calls[e.task].cached
    && s.calls[e.task].key == key && s.calls[e.task].digest == digest
  }

  lemma FrameStep(s: State, e: Event, task: TaskId)
    requires Enabled(s, e) && task in Next(s, e).calls
    ensures var c := Next(s, e).calls[task];
            if task in s.calls
            then (c.key, c.digest, c.cached) == (s.calls[task].key, s.calls[task].digest, s.calls[task].cached)
            else e == Enter(task, c.key, c.digest, c.cached) && c.outcome.None?
  {
  }

  lemma OutcomeStep(s: State, e: Event, task: TaskId)
    requires Enabled(s, e) && task in s.calls
    ensures task in Next(s, e).calls
    ensures forall outcome :: Decides(e, task, outcome) && !outcome.Replayed? && !outcome.Conflict? ==>
      Next(s, e).calls[task].outcome == Some(outcome)
    ensures Next(s, e).calls[task].outcome != s.calls[task].outcome ==>
      Next(s, e).calls[task].outcome.Some? && Decides(e, task, Next(s, e).calls[task].outcome.value)
  {
  }

  lemma LedgerStep(s: State, e: Event, key: Key)
    requires Enabled(s, e)
    ensures forall digest, result :: Records(s, e, key, digest, result) ==>
      key in Next(s, e).ledger && Next(s, e).ledger[key] == (digest, result)
    ensures Get(Next(s, e).ledger, key) != Get(s.ledger, key) ==>
      && key in Next(s, e).ledger
      && Records(s, e, key, Next(s, e).ledger[key].0, Next(s, e).ledger[key].1)
  {
  }

  /** A call is what entered. */
  lemma {:induction false} CallIsItsEnter(states: seq<State>, events: seq<Event>, n: nat, task: TaskId)
    requires Run(states, events) && n < |states| && task in states[n].calls
    ensures var c := states[n].calls[task];
            exists j :: 0 <= j < n && events[j] == Enter(task, c.key, c.digest, c.cached)
  {
    hide Next, Enabled;
    NothingYet(states, events);
    FrameStep(states[n - 1], events[n - 1], task);
    if task in states[n - 1].calls {
      CallIsItsEnter(states, events, n - 1, task);
    }
  }

  lemma NothingYet(states: seq<State>, events: seq<Event>)
    requires Run(states, events)
    ensures states[0].calls == map[] && states[0].ledger == map[]
  {
    hide Next, Enabled;
  }

  /** A call keeps its key, its action and its mode. */
  lemma {:induction false} FrameStays(states: seq<State>, events: seq<Event>, i: nat, n: nat, task: TaskId)
    requires Run(states, events) && i <= n < |states| && task in states[i].calls
    ensures task in states[n].calls
    ensures var a, b := states[i].calls[task], states[n].calls[task];
            (a.key, a.digest, a.cached) == (b.key, b.digest, b.cached)
    decreases n
  {
    hide Next, Enabled;
    if i < n {
      FrameStays(states, events, i, n - 1, task);
      OutcomeStep(states[n - 1], events[n - 1], task);
      FrameStep(states[n - 1], events[n - 1], task);
    }
  }

  /** What a dispatch returns or a denial says is what the call returns for the rest of the run, and
      for a result-caching tool what the ledger says about its key and action. */
  lemma ResultReturned(states: seq<State>, events: seq<Event>, j: nat, n: nat)
    requires Run(states, events) && j < n < |states| && (events[j].Complete? || events[j].Deny?)
    ensures var task, result := events[j].task, events[j].result;
            && task in states[n].calls && states[n].calls[task].outcome == Some(Recorded(result))
            && var c := states[n].calls[task];
               c.cached ==> c.key in states[n].ledger && states[n].ledger[c.key] == (c.digest, result)
  {
    hide Next, Inv;
    var task, result := events[j].task, events[j].result;
    assert Enabled(states[j], events[j]);
    OutcomeStep(states[j], events[j], task);
    assert Decides(events[j], task, Recorded(result));
    OutcomeStays(states, events, j + 1, n, task);
    RunInv(states, events, n);
    OutcomeAt(states[n], task);
  }

  lemma OutcomeAt(s: State, task: TaskId)
    requires Inv(s) && task in s.calls
    ensures OutcomeTrue(s.ledger, s.calls[task])
  {
    hide OutcomeTrue;
  }

  /** Every outcome was given by its own step. */
  lemma {:induction false} OutcomeHasOrigin(states: seq<State>, events: seq<Event>, n: nat, task: TaskId)
    requires Run(states, events) && n < |states| && task in states[n].calls
    requires states[n].calls[task].outcome.Some?
    ensures exists j :: 0 <= j < n && Decides(events[j], task, states[n].calls[task].outcome.value)
  {
    hide Next, Enabled, Decides;
    NothingYet(states, events);
    var s, e := states[n - 1], events[n - 1];
    FrameStep(s, e, task);
    if task in s.calls {
      OutcomeStep(s, e, task);
      if s.calls[task].outcome == states[n].calls[task].outcome {
        OutcomeHasOrigin(states, events, n - 1, task);
      }
    }
  }

  /** Every ledger row is the result that a dispatch or denial of that key and action gave. */
  lemma {:induction false} LedgerHasOrigin(states: seq<State>, events: seq<Event>, n: nat, key: Key)
    requires Run(states, events) && n < |states| && key in states[n].ledger
    ensures var (digest, result) := states[n].ledger[key];
            exists j :: 0 <= j < n && Records(states[j], events[j], key, digest, result)
  {
    hide Next, Enabled, Records;
    NothingYet(states, events);
    LedgerStep(states[n - 1], events[n - 1], key);
    if Get(states[n].ledger, key) == Get(states[n - 1].ledger, key) {
      LedgerHasOrigin(states, events, n - 1, key);
    }
  }

  /** So a result that a call returns without dispatching is one that an earlier call of the same
      key and action was given. */
  lemma ReplayHasOrigin(states: seq<State>, events: seq<Event>, n: nat, task: TaskId)
    requires Run(states, events) && n < |states| && task in states[n].calls
    requires states[n].calls[task].outcome.Some? && states[n].calls[task].outcome.value.Replayed?
    ensures var c := states[n].calls[task];
            exists j :: 0 <= j < n && Records(states[j], events[j], c.key, c.digest, c.outcome.value.result)
  {
    hide Inv, Next, Enabled, Records;
    RunInv(states, events, n);
    OutcomeAt(states[n], task);
    LedgerHasOrigin(states, events, n, states[n].calls[task].key);
  }

  // ---------------------------------------------------------------- progress

  /** How far a call has come. */
  function Rank(stage: Stage): nat {
    match stage
    case Waiting => 0
    case Acquired => 1
    case Ready => 2
    case Dispatching => 3
    case Releasing => 4
    case Leaving => 5
    case Finished => 6
  }

  /** Every step of a call takes it further, and no other call moves, so a call takes at most six
      steps after it entered. */
  lemma CallsAdvance(s: State, e: Event)
    requires Enabled(s, e)
    ensures e.task in Next(s, e).calls
    ensures e.task in s.calls ==> Rank(s.calls[e.task].stage) < Rank(Next(s, e).calls[e.task].stage)
    ensures forall t :: t != e.task ==> Get(Next(s, e).calls, t) == Get(s.calls, t)
  {
  }

  /** In every state of every run each unfinished call can go on: it can always give up waiting, and
      it is never held up by the bookkeeping of the locks. */
  lemma CallsCanFinish(states: seq<State>, events: seq<Event>, i: nat, task: TaskId)
    requires Run(states, events) && i < |states| && task in states[i].calls
    ensures var s := states[i];
            match s.calls[task].stage
            case Waiting => Enabled(s, TimeOut(task))
            case Acquired => Enabled(s, Check(task))
            case Ready => Enabled(s, Dispatch(task)) && Enabled(s, Refuse(task))
            case Dispatching => Enabled(s, Raise(task)) && forall r :: Enabled(s, Complete(task, r))
            case Releasing => Enabled(s, ToolGateway.Release(task))
            case Leaving => Enabled(s, Leave(task))
            case Finished => true
  {
    hide Run, Inv, Next, ReferencesExact;
    RunInv(states, events, i);
    if states[i].calls[task].stage == Leaving {
      EntryStands(states[i], task);
    }
  }

  lemma EntryStands(s: State, task: TaskId)
    requires Inv(s) && At(s, task, Leaving)
    ensures s.calls[task].key in s.locks.entries && s.locks.entries[s.calls[task].key].references >= 1
  {
    hide OwnersExact, OutcomeTrue;
  }

  /** A waiting call can take its lock exactly when no call on its key is between taking and
      releasing it. */
  lemma LockIsFreeIff(states: seq<State>, events: seq<Event>, i: nat, task: TaskId)
    requires Run(states, events) && i < |states| && At(states[i], task, Waiting)
    ensures Enabled(states[i], ToolGateway.Acquire(task)) <==>
      forall t :: t in states[i].calls && states[i].calls[t].key == states[i].calls[task].key ==>
        states[i].calls[t].stage !in {Stage.Acquired, Ready, Dispatching, Releasing}
  {
    RunInv(states, events, i);
  }
}
