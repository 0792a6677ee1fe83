/** Coalescing tenant rebuilds (SkillStateRebuilder.rebuild_tenant, _run_tenant_rebuild).

A request raises the tenant's requested generation and waits for the registered rebuild
task, creating it when there is none. It captures the generation, runs a pass, and
returns the pass's result only if the generation has not moved; otherwise it runs another
pass. Generations and registrations are deleted when a task returns or fails and start
afresh with the next request.
*/
module SkillRebuild {
  import opened Wrappers

  type TaskId = nat
  type CallerId = nat

  datatype Shared = Shared(requested: map<string, nat>, tasks: map<string, TaskId>)

  // ---------------------------------------------------------------- sections under the state lock

  function Requested(sh: Shared, tenant: string, newTask: TaskId): Shared {
    Shared(
      sh.requested[tenant := (if tenant in sh.requested then sh.requested[tenant] else 0) + 1],
      if tenant in sh.tasks then sh.tasks else sh.tasks[tenant := newTask])
  }

  /** Deregistration, which only the registered task performs. */
  function Deregistered(sh: Shared, tenant: string, task: TaskId): Shared {
    if tenant in sh.tasks && sh.tasks[tenant] == task
    then Shared(sh.requested - {tenant}, sh.tasks - {tenant}) else sh
  }

  predicate Unmoved(sh: Shared, tenant: string, generation: nat) {
    tenant in sh.requested && sh.requested[tenant] == generation
  }

  class Rebuilder {
    var requested: map<string, nat>
    var tasks: map<string, TaskId>

    function View(): Shared
      reads this
    {
      Shared(requested, tasks)
    }

    constructor ()
      ensures View() == Shared(map[], map[])
    {
      requested, tasks := map[], map[];
    }

    method Request(tenant: string, newTask: TaskId) returns (task: TaskId)
      modifies this
      ensures View() == Requested(old(View()), tenant, newTask)
      ensures tenant in tasks && task == tasks[tenant]
    {
      var previous := if tenant in requested then requested[tenant] else 0;
      requested := requested[tenant := previous + 1];
      if tenant !in tasks {
        tasks := tasks[tenant := newTask];
      }
      task := tasks[tenant];
    }

    /** The section after a pass; `final` says to return the pass's result. */
    method Check(tenant: string, task: TaskId, generation: nat) returns (final: bool)
      modifies this
      ensures final == Unmoved(old(View()), tenant, generation)
      ensures View() == if final then Deregistered(old(View()), tenant, task) else old(View())
    {
      if tenant in requested && requested[tenant] == generation {
        Forget(tenant, task);
        return true;
      }
      return false;
    }

    method Forget(tenant: string, task: TaskId)
      modifies this
      ensures View() == Deregistered(old(View()), tenant, task)
    {
      if tenant in tasks && tasks[tenant] == task {
        tasks := tasks - {tenant};
        requested := requested - {tenant};
      }
    }
  }

  // ---------------------------------------------------------------- the state machine

  datatype Outcome = Returned(started: nat) | Raised

  datatype Stage =
    | Top                                                        // about to capture the generation
    | Captured(generation: nat, at: nat)
    | Passing(generation: nat, at: nat, started: nat)
    | Checking(generation: nat, at: nat, started: nat)           // pass finished
    | Closing(outcome: Outcome)                                  // the finally section is left
    | Done(outcome: Outcome)

  datatype Task = Task(tenant: string, stage: Stage)

  datatype Caller = Caller(tenant: string, task: TaskId, at: nat)

  /** `clock` counts the steps of the run; `at` and `started` are clock values. */
  datatype State = State(
    shared: Shared, clock: nat, tasks: map<TaskId, Task>, callers: map<CallerId, Caller>)

  datatype Event =
    | Request(caller: CallerId, tenant: string, newTask: TaskId)
    | Capture(task: TaskId)
    | BeginPass(task: TaskId)
    | EndPass(task: TaskId)
    | Fail(task: TaskId)
    | Check(task: TaskId)
    | Finally(task: TaskId)

  predicate Enabled(s: State, e: Event) {
    match e
    case Request(caller, tenant, newTask) => caller !in s.callers && newTask !in s.tasks
    case Capture(task) =>
      task in s.tasks && s.tasks[task].stage.Top? && s.tasks[task].tenant in s.shared.requested
    case BeginPass(task) => task in s.tasks && s.tasks[task].stage.Captured?
    case EndPass(task) => task in s.tasks && s.tasks[task].stage.Passing?
    case Fail(task) => task in s.tasks && s.tasks[task].stage.Passing?
    case Check(task) => task in s.tasks && s.tasks[task].stage.Checking?
    case Finally(task) => task in s.tasks && s.tasks[task].stage.Closing?
  }

  function Moved(s: State, task: TaskId, stage: Stage): map<TaskId, Task>
    requires task in s.tasks
  {
    s.tasks[task := s.tasks[task].(stage := stage)]
  }

  function RequestBy(s: State, caller: CallerId, tenant: string, newTask: TaskId): State {
    var created := tenant !in s.shared.tasks;
    var task := if created then newTask else s.shared.tasks[tenant];
    s.(shared := Requested(s.shared, tenant, newTask),
       tasks := if created then s.tasks[newTask := Task(tenant, Top)] else s.tasks,
       callers := s.callers[caller := Caller(tenant, task, s.clock)])
  }

  function CheckBy(s: State, task: TaskId): State
    requires task in s.tasks && s.tasks[task].stage.Checking?
  {
    var t := s.tasks[task];
    if Unmoved(s.shared, t.tenant, t.stage.generation) then
      s.(shared := Deregistered(s.shared, t.tenant, task),
         tasks := Moved(s, task, Closing(Returned(t.stage.started))))
    else s.(tasks := Moved(s, task, Top))
  }

  function FinallyBy(s: State, task: TaskId): State
    requires task in s.tasks && s.tasks[task].stage.Closing?
  {
    var t := s.tasks[task];
    s.(shared := Deregistered(s.shared, t.tenant, task), tasks := Moved(s, task, Done(t.stage.outcome)))
  }

  function Effect(s: State, e: Event): State
    requires Enabled(s, e)
  {
    match e
    case Request(caller, tenant, newTask) => RequestBy(s, caller, tenant, newTask)
    case Capture(task) =>
      s.(tasks := Moved(s, task, Captured(s.shared.requested[s.tasks[task].tenant], s.clock)))
    case BeginPass(task) =>
      var st := s.tasks[task].stage;
      s.(tasks := Moved(s, task, Passing(st.generation, st.at, s.clock)))
    case EndPass(task) =>
      var st := s.tasks[task].stage;
      s.(tasks := Moved(s, task, Checking(st.generation, st.at, st.started)))
    case Fail(task) => s.(tasks := Moved(s, task, Closing(Raised)))
    case Check(task) => CheckBy(s, task)
    case Finally(task) => FinallyBy(s, task)
  }

  function Next(s: State, e: Event): State
    requires Enabled(s, e)
  {
    Effect(s, e).(clock := s.clock + 1)
  }

  const Initial := State(Shared(map[], map[]), 0, map[], map[])

  // ---------------------------------------------------------------- invariants

  predicate Looping(t: Task) {
    t.stage.Top? || t.stage.Captured? || t.stage.Passing? || t.stage.Checking?
  }

  predicate HasCaptured(t: Task) {
    t.stage.Captured? || t.stage.Passing? || t.stage.Checking?
  }

  /** A task that may still run a pass is the registered task of its tenant. */
  ghost predicate Registered(s: State) {
    && (forall x :: x in s.shared.tasks <==> x in s.shared.requested)
    && (forall x :: x in s.shared.tasks ==>
          s.shared.tasks[x] in s.tasks && s.tasks[s.shared.tasks[x]].tenant == x
          && !s.tasks[s.shared.tasks[x]].stage.Done?)
    && (forall id :: id in s.tasks && Looping(s.tasks[id]) ==>
          s.tasks[id].tenant in s.shared.tasks && s.shared.tasks[s.tasks[id].tenant] == id)
  }

  predicate Stamped(s: State) {
    && (forall c :: c in s.callers ==>
          s.callers[c].at < s.clock && s.callers[c].task in s.tasks
          && s.tasks[s.callers[c].task].tenant == s.callers[c].tenant)
    && (forall id :: id in s.tasks && HasCaptured(s.tasks[id]) ==> s.tasks[id].stage.at < s.clock)
    && (forall id :: id in s.tasks && (s.tasks[id].stage.Passing? || s.tasks[id].stage.Checking?) ==>
          s.tasks[id].stage.at < s.tasks[id].stage.started < s.clock)
  }

  /** Some caller of this rebuild made its request after clock value `at`. */
  ghost predicate JoinedAfter(s: State, task: TaskId, at: nat) {
    exists c :: c in s.callers && s.callers[c].task == task && s.callers[c].at > at
  }

  /** The requested generation has moved past the captured one iff a request came since. */
  ghost predicate GenerationsTell(s: State) {
    forall id :: id in s.tasks && HasCaptured(s.tasks[id]) && s.tasks[id].tenant in s.shared.requested ==>
      && s.tasks[id].stage.generation <= s.shared.requested[s.tasks[id].tenant]
      && (s.tasks[id].stage.generation < s.shared.requested[s.tasks[id].tenant]
          <==> JoinedAfter(s, id, s.tasks[id].stage.at))
  }

  function ResultOf(t: Task): Option<nat> {
    if (t.stage.Closing? || t.stage.Done?) && t.stage.outcome.Returned?
    then Some(t.stage.outcome.started) else None
  }

  /** Every caller of a task that returned made its request before the returned pass began. */
  predicate ResultsFresh(s: State) {
    forall c :: c in s.callers && s.callers[c].task in s.tasks
                && ResultOf(s.tasks[s.callers[c].task]).Some? ==>
      s.callers[c].at < ResultOf(s.tasks[s.callers[c].task]).value
  }

  /** A task that returned is no longer registered. */
  predicate ReturnedUnregistered(s: State) {
    forall x :: x in s.shared.tasks && s.shared.tasks[x] in s.tasks ==>
      ResultOf(s.tasks[s.shared.tasks[x]]).None?
  }

  ghost predicate Inv(s: State) {
    && Registered(s) && Stamped(s) && GenerationsTell(s) && ResultsFresh(s) && ReturnedUnregistered(s)
  }

  lemma RequestKeeps(s: State, caller: CallerId, tenant: string, newTask: TaskId)
    requires Inv(s) && Enabled(s, Request(caller, tenant, newTask))
    ensures Inv(Next(s, Request(caller, tenant, newTask)))
  {
    hide GenerationsTell, Registered, Stamped, ResultsFresh, ReturnedUnregistered;
    RequestRegisters(s, caller, tenant, newTask);
    RequestTells(s, caller, tenant, newTask);
    RequestStamps(s, caller, tenant, newTask);
    RequestResults(s, caller, tenant, newTask);
  }

  lemma RequestStamps(s: State, caller: CallerId, tenant: string, newTask: TaskId)
    requires Registered(s) && Stamped(s) && Enabled(s, Request(caller, tenant, newTask))
    ensures Stamped(Next(s, Request(caller, tenant, newTask)))
  {
  }

  /** A request never joins a task that already returned. */
  lemma RequestResults(s: State, caller: CallerId, tenant: string, newTask: TaskId)
    requires Registered(s) && ResultsFresh(s) && ReturnedUnregistered(s)
    requires Enabled(s, Request(caller, tenant, newTask))
    ensures ResultsFresh(Next(s, Request(caller, tenant, newTask)))
    ensures ReturnedUnregistered(Next(s, Request(caller, tenant, newTask)))
  {
  }

  lemma RequestRegisters(s: State, caller: CallerId, tenant: string, newTask: TaskId)
    requires Registered(s) && Enabled(s, Request(caller, tenant, newTask))
    ensures Registered(Next(s, Request(caller, tenant, newTask)))
  {
  }

  lemma RequestTells(s: State, caller: CallerId, tenant: string, newTask: TaskId)
    requires Registered(s) && Stamped(s) && GenerationsTell(s)
    requires Enabled(s, Request(caller, tenant, newTask))
    ensures GenerationsTell(Next(s, Request(caller, tenant, newTask)))
  {
    var s' := Next(s, Request(caller, tenant, newTask));
    forall id | id in s'.tasks && HasCaptured(s'.tasks[id]) && s'.tasks[id].tenant in s'.shared.requested
      ensures s'.tasks[id].stage.generation <= s'.shared.requested[s'.tasks[id].tenant]
      ensures s'.tasks[id].stage.generation < s'.shared.requested[s'.tasks[id].tenant]
              <==> JoinedAfter(s', id, s'.tasks[id].stage.at)
    {
      assert id in s.tasks && s.tasks[id] == s'.tasks[id];
      var at := s.tasks[id].stage.at;
      if s.tasks[id].tenant == tenant {
        assert s'.callers[caller].task == id && s'.callers[caller].at > at;
      } else if JoinedAfter(s, id, at) {
        var c :| c in s.callers && s.callers[c].task == id && s.callers[c].at > at;
        assert c in s'.callers && s'.callers[c] == s.callers[c];
      }
    }
  }

  /** Steps of one task that leave the shared maps and its captured generation alone. */
  lemma MoveKeeps(s: State, s': State, task: TaskId)
    requires Inv(s) && task in s.tasks && task in s'.tasks
    requires s'.shared == s.shared && s'.callers == s.callers && s'.clock == s.clock + 1
    requires s'.tasks == s.tasks[task := s'.tasks[task]]
    requires s'.tasks[task].tenant == s.tasks[task].tenant && Looping(s.tasks[task])
    requires !s'.tasks[task].stage.Done? && ResultOf(s'.tasks[task]).None?
    requires HasCaptured(s.tasks[task]) && HasCaptured(s'.tasks[task]) ==>
               s'.tasks[task].stage.at == s.tasks[task].stage.at
               && s'.tasks[task].stage.generation == s.tasks[task].stage.generation
    requires !HasCaptured(s.tasks[task]) && HasCaptured(s'.tasks[task]) ==>
               s'.tasks[task].stage ==
                 Captured(s.shared.requested[s.tasks[task].tenant], s.clock)
    requires s'.tasks[task].stage.Passing? ==> s'.tasks[task].stage.started == s.clock
    requires s'.tasks[task].stage.Checking? ==>
               s.tasks[task].stage.Passing? && s'.tasks[task].stage.started == s.tasks[task].stage.started
    ensures Inv(s')
  {
    forall id | id in s'.tasks && HasCaptured(s'.tasks[id]) && s'.tasks[id].tenant in s'.shared.requested
      ensures JoinedAfter(s', id, s'.tasks[id].stage.at) == JoinedAfter(s, id, s'.tasks[id].stage.at)
    {
    }
  }

  /** Deregistering a task keeps what the other tasks rely on. */
  lemma LeaveKeeps(s: State, s': State, task: TaskId, outcome: Outcome)
    requires Inv(s) && task in s.tasks && s'.clock == s.clock + 1 && s'.callers == s.callers
    requires s'.shared == Deregistered(s.shared, s.tasks[task].tenant, task)
    requires task in s'.tasks && s'.tasks == s.tasks[task := s'.tasks[task]]
    requires s'.tasks[task].tenant == s.tasks[task].tenant
    requires s'.tasks[task].stage == Closing(outcome) || s'.tasks[task].stage == Done(outcome)
    requires outcome.Returned? ==>
      forall c :: c in s.callers && s.callers[c].task == task ==> s.callers[c].at < outcome.started
    ensures Inv(s')
  {
    hide Registered, GenerationsTell;
    LeaveRegisters(s, s', task);
    LeaveTells(s, s', task);
    assert Stamped(s') && ReturnedUnregistered(s') && ResultsFresh(s');
  }

  lemma LeaveRegisters(s: State, s': State, task: TaskId)
    requires Registered(s) && task in s.tasks
    requires s'.shared == Deregistered(s.shared, s.tasks[task].tenant, task)
    requires task in s'.tasks && s'.tasks == s.tasks[task := s'.tasks[task]]
    requires s'.tasks[task].tenant == s.tasks[task].tenant && !Looping(s'.tasks[task])
    ensures Registered(s')
  {
  }

  lemma LeaveTells(s: State, s': State, task: TaskId)
    requires GenerationsTell(s) && Registered(s) && task in s.tasks && s'.callers == s.callers
    requires s'.shared == Deregistered(s.shared, s.tasks[task].tenant, task)
    requires task in s'.tasks && s'.tasks == s.tasks[task := s'.tasks[task]]
    requires !Looping(s'.tasks[task])
    ensures GenerationsTell(s')
  {
  }

  lemma CheckKeeps(s: State, task: TaskId)
    requires Inv(s) && Enabled(s, Check(task))
    ensures Inv(Next(s, Check(task)))
  {
    hide GenerationsTell, ResultsFresh, ReturnedUnregistered;
    var t := s.tasks[task];
    if Unmoved(s.shared, t.tenant, t.stage.generation) {
      UnmovedMeansNoneJoined(s, task);
      LeaveKeeps(s, Next(s, Check(task)), task, Returned(t.stage.started));
    } else {
      MoveKeeps(s, Next(s, Check(task)), task);
    }
  }

  lemma UnmovedMeansNoneJoined(s: State, task: TaskId)
    requires Inv(s) && Enabled(s, Check(task))
    requires Unmoved(s.shared, s.tasks[task].tenant, s.tasks[task].stage.generation)
    ensures forall c :: c in s.callers && s.callers[c].task == task ==>
      s.callers[c].at < s.tasks[task].stage.started
  {
    assert !JoinedAfter(s, task, s.tasks[task].stage.at);
  }

  lemma FinallyKeeps(s: State, task: TaskId)
    requires Inv(s) && Enabled(s, Finally(task))
    ensures Inv(Next(s, Finally(task)))
  {
    hide GenerationsTell, Registered, Stamped;
    LeaveKeeps(s, Next(s, Finally(task)), task, s.tasks[task].stage.outcome);
  }

  lemma StepKeeps(s: State, e: Event)
    requires Inv(s) && Enabled(s, e)
    ensures Inv(Next(s, e))
  {
    hide GenerationsTell, Registered, Stamped, ResultsFresh, ReturnedUnregistered;
    match e
    case Request(caller, tenant, newTask) => RequestKeeps(s, caller, tenant, newTask);
    case Check(task) => CheckKeeps(s, task);
    case Finally(task) => FinallyKeeps(s, task);
    case _ => MoveKeeps(s, Next(s, e), e.task);
  }

  // ---------------------------------------------------------------- whole runs

  ghost predicate Run(states: seq<State>, events: seq<Event>) {
    && |states| == |events| + 1
    && states[0] == Initial
    && forall i :: 0 <= i < |events| ==>
         Enabled(states[i], events[i]) && states[i + 1] == Next(states[i], events[i])
  }

  lemma {:induction false} RunInv(states: seq<State>, events: seq<Event>, i: nat)
    requires Run(states, events) && i < |states|
    ensures Inv(states[i]) && states[i].clock == i
  {
    if i > 0 {
      hide GenerationsTell, Registered, Stamped, ResultsFresh, ReturnedUnregistered;
      RunInv(states, events, i - 1);
      StepKeeps(states[i - 1], events[i - 1]);
    }
  }

  /** Main result: a caller that gets a result gets one from a pass that began after its own
      request, however requests coalesce and whenever they arrive. */
  lemma ResultsComeFromLaterPasses(states: seq<State>, events: seq<Event>, i: nat, c: CallerId)
    requires Run(states, events) && i < |states| && c in states[i].callers
    ensures states[i].callers[c].task in states[i].tasks
    ensures var result := ResultOf(states[i].tasks[states[i].callers[c].task]);
            result.Some? ==> states[i].callers[c].at < result.value
  {
    hide GenerationsTell, Registered;
    RunInv(states, events, i);
  }

  /** The stamps mean what they say: a caller's request is the event at its stamp. */
  lemma {:induction false} CallerStampIsItsRequest(
    states: seq<State>, events: seq<Event>, i: nat, c: CallerId)
    requires Run(states, events) && i < |states| && c in states[i].callers
    ensures var caller := states[i].callers[c];
            && caller.at < i && events[caller.at].Request?
            && events[caller.at].caller == c && events[caller.at].tenant == caller.tenant
  {
    hide Inv;
    RunInv(states, events, i - 1);
    if c in states[i - 1].callers {
      CallerStampIsItsRequest(states, events, i - 1, c);
      CallerKept(states[i - 1], events[i - 1], c);
    }
  }

  lemma CallerKept(s: State, e: Event, c: CallerId)
    requires Enabled(s, e) && c in s.callers
    ensures c in Next(s, e).callers && Next(s, e).callers[c] == s.callers[c]
  {
  }

  function PassStart(t: Task): Option<nat> {
    if t.stage.Passing? || t.stage.Checking? then Some(t.stage.started) else ResultOf(t)
  }

  /** A running or returned pass began with the event at its stamp. */
  lemma {:induction false} PassStampIsItsStart(
    states: seq<State>, events: seq<Event>, i: nat, id: TaskId)
    requires Run(states, events) && i < |states| && id in states[i].tasks
    requires PassStart(states[i].tasks[id]).Some?
    ensures var started := PassStart(states[i].tasks[id]).value;
            started < i && events[started] == BeginPass(id)
  {
    hide Inv;
    RunInv(states, events, i - 1);
    PassStartStep(states[i - 1], events[i - 1], id);
    if events[i - 1] != BeginPass(id) {
      PassStampIsItsStart(states, events, i - 1, id);
    }
  }

  lemma PassStartStep(s: State, e: Event, id: TaskId)
    requires Enabled(s, e) && id in Next(s, e).tasks && PassStart(Next(s, e).tasks[id]).Some?
    ensures if e == BeginPass(id) then PassStart(Next(s, e).tasks[id]) == Some(s.clock)
            else id in s.tasks && PassStart(Next(s, e).tasks[id]) == PassStart(s.tasks[id])
  {
  }

  /** At most one task of a tenant can still run passes, so a tenant's passes never overlap,
      and such a task is the registered one, so later requests join it. */
  lemma OneLoopingTaskPerTenant(
    states: seq<State>, events: seq<Event>, i: nat, a: TaskId, b: TaskId)
    requires Run(states, events) && i < |states| && a in states[i].tasks && b in states[i].tasks
    requires Looping(states[i].tasks[a]) && Looping(states[i].tasks[b])
    requires states[i].tasks[a].tenant == states[i].tasks[b].tenant
    ensures a == b && states[i].tasks[a].tenant in states[i].shared.tasks
    ensures states[i].shared.tasks[states[i].tasks[a].tenant] == a
  {
    hide GenerationsTell;
    RunInv(states, events, i);
  }

  /** A task loops for another pass exactly when a request joined it after its capture, and
      the generation it reads at the top of the loop is always there. */
  lemma LoopsIffJoined(states: seq<State>, events: seq<Event>, i: nat, task: TaskId)
    requires Run(states, events) && i < |states| && task in states[i].tasks
    ensures states[i].tasks[task].stage.Top? ==> Enabled(states[i], Capture(task))
    ensures states[i].tasks[task].stage.Checking? ==>
      (CheckBy(states[i], task).tasks[task].stage.Top?
       <==> JoinedAfter(states[i], task, states[i].tasks[task].stage.at))
  {
    RunInv(states, events, i);
  }

  // ---------------------------------------------------------------- progress

  /** How far a task is in its round, or past its last one. */
  function Rank(stage: Stage): nat {
    match stage
    case Top => 0
    case Captured(_, _) => 1
    case Passing(_, _, _) => 2
    case Checking(_, _, _) => 3
    case Closing(_) => 4
    case Done(_) => 5
  }

  /** Every step of a task takes it further, except that a check may begin another round; no step
      moves another task. */
  lemma TasksAdvance(s: State, e: Event)
    requires Enabled(s, e) && !e.Request?
    ensures e.task in Next(s, e).tasks
    ensures var before, after := s.tasks[e.task].stage, Next(s, e).tasks[e.task].stage;
            Rank(after) == Rank(before) + 1 || (e.Check? && after == Top) || (e.Fail? && after == Closing(Raised))
    ensures Next(s, e).tasks[e.task].tenant == s.tasks[e.task].tenant
    ensures forall t :: t != e.task ==> Get(Next(s, e).tasks, t) == Get(s.tasks, t)
  {
  }

  /** In every state each task that is not done has a step: it is never held up by the bookkeeping. */
  lemma TasksCanGoOn(states: seq<State>, events: seq<Event>, i: nat, task: TaskId)
    requires Run(states, events) && i < |states| && task in states[i].tasks
    ensures var s := states[i];
            match s.tasks[task].stage
            case Top => Enabled(s, Capture(task))
            case Captured(_, _) => Enabled(s, BeginPass(task))
            case Passing(_, _, _) => Enabled(s, EndPass(task)) && Enabled(s, Fail(task))
            case Checking(_, _, _) => Enabled(s, Check(task))
            case Closing(_) => Enabled(s, Finally(task))
            case Done(_) => true
  {
    hide GenerationsTell;
    RunInv(states, events, i);
  }

  /** A request joins the registered task of its tenant, and begins one otherwise. */
  lemma RequestJoins(s: State, e: Event)
    requires Enabled(s, e) && e.Request?
    ensures var s' := Next(s, e);
            && e.caller in s'.callers
            && (if e.tenant in s.shared.tasks
                then s'.callers[e.caller].task == s.shared.tasks[e.tenant] && s'.tasks == s.tasks
                else s'.callers[e.caller].task == e.newTask && s'.tasks == s.tasks[e.newTask := Task(e.tenant, Top)])
  {
  }
}
