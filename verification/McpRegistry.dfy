/** Claims on MCP lifecycle operations (InMemoryMcpServerRegistryStore and
McpServerRegistryService._lifecycle).

A lifecycle command claims its operation once and holds the claim by renewing it in time.
Under a running claim it may set the desired state and complete the operation. A repeated
command finds the operation; if the claim has run out meanwhile, it records that the side
effects are unknown. Operations of other kinds are written without a claim.
*/
module McpRegistry {
  import opened Wrappers

  type OperationId = string
  type ServerId = string

  datatype Status = Accepted | Running | Succeeded | Failed | Reconciling | UnknownSideEffect

  datatype DesiredState = DesiredDisabled | DesiredEnabled | DesiredRetired

  datatype CommandKey = CommandKey(tenant: string, command: string)

  datatype Operation = Operation(id: OperationId, key: CommandKey, status: Status, detail: string)

  datatype Server = Server(latestRevision: int, desired: DesiredState, activeRevision: Option<int>)

  datatype Claim = Claim(holder: string, token: string, expiresAt: int)

  datatype Store = Store(
    servers: map<ServerId, Server>, operations: map<OperationId, Operation>,
    byCommand: map<CommandKey, OperationId>, claims: map<OperationId, Claim>, digests: map<OperationId, string>)

  const EMPTY: Store := Store(map[], map[], map[], map[], map[])

  datatype Error = CommandReused | ClaimLost | NotFound | RevisionConflict

  // ---------------------------------------------------------------- store operations

  function Saved(st: Store, op: Operation): Store {
    st.(operations := st.operations[op.id := op], byCommand := st.byCommand[op.key := op.id])
  }

  predicate ClaimActive(st: Store, id: OperationId, token: string, now: int) {
    id in st.claims && st.claims[id].token == token && st.claims[id].expiresAt > now
  }

  /** The operation a command already has. */
  function Existing(st: Store, key: CommandKey): Option<Operation> {
    if key in st.byCommand && st.byCommand[key] in st.operations
    then Some(st.operations[st.byCommand[key]]) else None
  }

  function Unknown(op: Operation): Operation {
    op.(status := UnknownSideEffect, detail := "mcp_operation_recovery_required")
  }

  predicate RanOut(st: Store, op: Operation, now: int) {
    op.status == Running && op.id in st.claims && st.claims[op.id].expiresAt <= now
  }

  datatype ClaimResult = Granted(operation: Operation, token: string) | Refused(operation: Operation)

  function ClaimAnswer(st: Store, op: Operation, digest: string, token: string, now: int)
    : Result<ClaimResult, Error>
  {
    var existing := Existing(st, op.key);
    if existing.None? then Ok(Granted(op.(status := Running), token))
    else if !(existing.value.id in st.digests && st.digests[existing.value.id] == digest) then Err(CommandReused)
    else if RanOut(st, existing.value, now) then Ok(Refused(Unknown(existing.value)))
    else Ok(Refused(existing.value))
  }

  function AfterClaim(
    st: Store, op: Operation, digest: string, holder: string, token: string, now: int, ttl: int): Store
  {
    var answer := ClaimAnswer(st, op, digest, token, now);
    if answer.Err? then st
    else if answer.value.Refused? then
      (if RanOut(st, Existing(st, op.key).value, now) then Saved(st, answer.value.operation) else st)
    else
      var running := answer.value.operation;
      Saved(st, running).(
        digests := st.digests[running.id := digest],
        claims := st.claims[running.id := Claim(holder, token, now + ttl)])
  }

  predicate MayRenew(st: Store, id: OperationId, holder: string, token: string, now: int) {
    ClaimActive(st, id, token, now) && st.claims[id].holder == holder
  }

  function AfterRenew(st: Store, id: OperationId, holder: string, token: string, now: int, ttl: int): Store {
    if MayRenew(st, id, holder, token, now)
    then st.(claims := st.claims[id := Claim(holder, token, now + ttl)]) else st
  }

  function DesiredError(st: Store, server: ServerId, expected: int, op: Operation, token: Option<string>, now: int)
    : Option<Error>
  {
    if token.Some? && !ClaimActive(st, op.id, token.value, now) then Some(ClaimLost)
    else if server !in st.servers then Some(NotFound)
    else if st.servers[server].latestRevision != expected then Some(RevisionConflict)
    else None
  }

  function AfterDesired(st: Store, server: ServerId, expected: int, desired: DesiredState, active: Option<int>,
                        op: Operation, token: Option<string>, now: int): Store
  {
    if DesiredError(st, server, expected, op, token, now).Some? then st
    else Saved(st, op).(
      servers := st.servers[server := st.servers[server].(desired := desired, activeRevision := active)])
  }

  predicate MayComplete(st: Store, op: Operation, token: Option<string>, now: int) {
    token.None? || ClaimActive(st, op.id, token.value, now)
  }

  function AfterComplete(st: Store, op: Operation, token: Option<string>, now: int): Store {
    if !MayComplete(st, op, token, now) then st
    else if token.Some? then Saved(st, op).(claims := st.claims - {op.id})
    else Saved(st, op)
  }

  function CompleteAnswer(st: Store, op: Operation, token: Option<string>, now: int): Operation {
    if !MayComplete(st, op, token, now) && op.id in st.operations then st.operations[op.id] else op
  }

  class RegistryStore {
    var servers: map<ServerId, Server>
    var operations: map<OperationId, Operation>
    var byCommand: map<CommandKey, OperationId>
    var claims: map<OperationId, Claim>
    var digests: map<OperationId, string>

    function View(): Store
      reads this
    {
      Store(servers, operations, byCommand, claims, digests)
    }

    constructor ()
      ensures View() == EMPTY
    {
      servers, operations, byCommand, claims, digests := map[], map[], map[], map[], map[];
    }

    method SaveOperation(op: Operation)
      modifies this`operations, this`byCommand
      ensures View() == Saved(old(View()), op)
    {
      operations := operations[op.id := op];
      byCommand := byCommand[op.key := op.id];
    }

    method ClaimOperation(op: Operation, digest: string, holder: string, token: string, now: int, ttl: int)
      returns (answer: Result<ClaimResult, Error>)
      modifies this
      ensures answer == ClaimAnswer(old(View()), op, digest, token, now)
      ensures View() == AfterClaim(old(View()), op, digest, holder, token, now, ttl)
    {
      if op.key in byCommand && byCommand[op.key] in operations {
        var existing := operations[byCommand[op.key]];
        if !(existing.id in digests && digests[existing.id] == digest) {
          return Err(CommandReused);
        }
        if existing.status == Running && existing.id in claims && claims[existing.id].expiresAt <= now {
          var unknown := existing.(status := UnknownSideEffect, detail := "mcp_operation_recovery_required");
          SaveOperation(unknown);
          return Ok(Refused(unknown));
        }
        return Ok(Refused(existing));
      }
      var running := op.(status := Running);
      SaveOperation(running);
      digests := digests[running.id := digest];
      claims := claims[running.id := Claim(holder, token, now + ttl)];
      return Ok(Granted(running, token));
    }

    method RenewOperation(id: OperationId, holder: string, token: string, now: int, ttl: int) returns (renewed: bool)
      modifies this`claims
      ensures renewed == MayRenew(old(View()), id, holder, token, now)
      ensures View() == AfterRenew(old(View()), id, holder, token, now, ttl)
    {
      if id !in claims || claims[id].holder != holder || claims[id].token != token || claims[id].expiresAt <= now {
        return false;
      }
      claims := claims[id := Claim(holder, token, now + ttl)];
      return true;
    }

    method SetDesiredState(server: ServerId, expected: int, desired: DesiredState, active: Option<int>,
                           op: Operation, token: Option<string>, now: int)
      returns (error: Option<Error>)
      modifies this
      ensures error == DesiredError(old(View()), server, expected, op, token, now)
      ensures View() == AfterDesired(old(View()), server, expected, desired, active, op, token, now)
    {
      if token.Some? && !ClaimActive(View(), op.id, token.value, now) {
        return Some(ClaimLost);
      }
      if server !in servers {
        return Some(NotFound);
      }
      if servers[server].latestRevision != expected {
        return Some(RevisionConflict);
      }
      servers := servers[server := servers[server].(desired := desired, activeRevision := active)];
      SaveOperation(op);
      return None;
    }

    method CompleteOperation(op: Operation, token: Option<string>, now: int) returns (answer: Operation)
      modifies this
      ensures answer == CompleteAnswer(old(View()), op, token, now)
      ensures View() == AfterComplete(old(View()), op, token, now)
    {
      if token.Some? && !ClaimActive(View(), op.id, token.value, now) {
        return if op.id in operations then operations[op.id] else op;
      }
      SaveOperation(op);
      if token.Some? {
        claims := claims - {op.id};
      }
      return op;
    }
  }

  // ---------------------------------------------------------------- the state machine

  datatype Grant = Grant(record: Operation, token: string)

  /** `granted` keeps what each successful claim handed out; `now` is the latest time seen. */
  datatype State = State(store: Store, now: int, granted: map<OperationId, Grant>)

  datatype Event =
    | ClaimIt(now: int, op: Operation, digest: string, holder: string, token: string, ttl: int)
    | Renew(now: int, id: OperationId, holder: string, token: string, ttl: int)
    | SetDesired(now: int, server: ServerId, expected: int, desired: DesiredState, active: Option<int>,
                 held: OperationId)
    | Complete(now: int, held: OperationId, status: Status, detail: string)
    | WriteUnclaimed(now: int, op: Operation)
    | PutServer(now: int, server: ServerId, record: Server)

  /** Times do not decrease and operation ids are fresh. A holder acts on the record it was
      granted; an operation without a claim is not one that was granted. */
  predicate Enabled(s: State, e: Event) {
    && s.now <= e.now
    && match e
       case ClaimIt(_, op, _, _, _, _) => op.id !in s.store.operations
       case SetDesired(_, _, _, _, _, held) => held in s.granted
       case Complete(_, held, status, _) => held in s.granted && status != Running
       case WriteUnclaimed(_, op) => op.id !in s.granted
       case _ => true
  }

  predicate Grants(s: State, e: Event) {
    e.ClaimIt? && Existing(s.store, e.op.key).None?
  }

  function NextStore(s: State, e: Event): Store
    requires Enabled(s, e)
  {
    match e
    case ClaimIt(now, op, digest, holder, token, ttl) => AfterClaim(s.store, op, digest, holder, token, now, ttl)
    case Renew(now, id, holder, token, ttl) => AfterRenew(s.store, id, holder, token, now, ttl)
    case SetDesired(now, server, expected, desired, active, held) =>
      AfterDesired(s.store, server, expected, desired, active, s.granted[held].record,
                   Some(s.granted[held].token), now)
    case Complete(now, held, status, detail) =>
      AfterComplete(s.store, s.granted[held].record.(status := status, detail := detail),
                    Some(s.granted[held].token), now)
    case WriteUnclaimed(_, op) => Saved(s.store, op)
    case PutServer(_, server, record) => s.store.(servers := s.store.servers[server := record])
  }

  function Next(s: State, e: Event): State
    requires Enabled(s, e)
  {
    State(NextStore(s, e), e.now,
          if Grants(s, e) then s.granted[e.op.id := Grant(e.op.(status := Running), e.token)] else s.granted)
  }

  ghost predicate Run(states: seq<State>, events: seq<Event>) {
    && |states| == |events| + 1 && states[0].store == EMPTY && states[0].granted == map[]
    && forall i :: 0 <= i < |events| ==>
         Enabled(states[i], events[i]) && states[i + 1] == Next(states[i], events[i])
  }

  // ---------------------------------------------------------------- invariants

  /** Commands name stored operations, and operations are stored under their own id. */
  ghost predicate Indexed(st: Store) {
    && (forall k :: k in st.byCommand ==> st.byCommand[k] in st.operations)
    && (forall id :: id in st.operations ==> st.operations[id].id == id && st.operations[id].key in st.byCommand)
  }

  /** A granted operation is stored under its command; while it runs its record is the granted
      one, and once it has ended its claim no longer holds. */
  ghost predicate GrantKept(s: State, id: OperationId)
    requires id in s.granted
  {
    var g := s.granted[id];
    && g.record.id == id && g.record.status == Running
    && id in s.store.operations && s.store.operations[id].key == g.record.key
    && (if s.store.operations[id].status == Running then s.store.operations[id] == g.record
        else id in s.store.claims ==> s.store.claims[id].expiresAt <= s.now)
  }

  ghost predicate ClaimsGranted(s: State) {
    forall id :: id in s.store.claims ==>
      id in s.granted && s.store.claims[id].token == s.granted[id].token
  }

  ghost predicate Inv(s: State) {
    && Indexed(s.store)
    && (forall id :: id in s.granted ==> GrantKept(s, id))
    && ClaimsGranted(s)
  }

  lemma SavedIndexed(st: Store, op: Operation)
    requires Indexed(st)
    ensures Indexed(Saved(st, op))
  {
  }

  lemma StepIndexed(s: State, e: Event)
    requires Indexed(s.store) && Enabled(s, e)
    ensures Indexed(Next(s, e).store)
  {
    hide Indexed, Saved, DesiredError, MayComplete, MayRenew, RanOut;
    var st := s.store;
    match e
    case ClaimIt(now, op, digest, holder, token, ttl) =>
      var answer := ClaimAnswer(st, op, digest, token, now);
      if answer.Ok? {
        SavedIndexed(st, answer.value.operation);
        SameIndexed(Saved(st, answer.value.operation), NextStore(s, e));
        SameIndexed(st, NextStore(s, e));
      }
    case Renew(_, _, _, _, _) => SameIndexed(st, NextStore(s, e));
    case SetDesired(_, _, _, _, _, held) =>
      SavedIndexed(st, s.granted[held].record);
      SameIndexed(Saved(st, s.granted[held].record), NextStore(s, e));
    case Complete(_, held, status, detail) =>
      var op := s.granted[held].record.(status := status, detail := detail);
      SavedIndexed(st, op);
      SameIndexed(Saved(st, op), NextStore(s, e));
    case WriteUnclaimed(_, op) => SavedIndexed(st, op);
    case PutServer(_, _, _) => SameIndexed(st, NextStore(s, e));
  }

  lemma SameIndexed(st: Store, st': Store)
    ensures st'.operations == st.operations && st'.byCommand == st.byCommand && Indexed(st) ==> Indexed(st')
  {
  }

  lemma StepClaims(s: State, e: Event)
    requires ClaimsGranted(s) && Enabled(s, e)
    ensures ClaimsGranted(Next(s, e))
  {
    hide DesiredError, MayComplete;
  }

  /** How a step may change one stored operation and its claim. */
  ghost predicate OperationStep(s: State, e: Event, id: OperationId)
    requires Enabled(s, e)
  {
    var st := s.store;
    var op, claim := Get(st.operations, id), Get(st.claims, id);
    var op', claim' := Get(Next(s, e).store.operations, id), Get(Next(s, e).store.claims, id);
    || (op' == op && claim' == claim)
    || match e
       case ClaimIt(now, begun, _, holder, token, ttl) =>
         || (id == begun.id && Grants(s, e)
             && op' == Some(begun.(status := Running)) && claim' == Some(Claim(holder, token, now + ttl)))
         || (op.Some? && RanOut(st, op.value, now) && op' == Some(Unknown(op.value)) && claim' == claim)
       case Renew(now, _, holder, token, ttl) =>
         ClaimActive(st, id, token, now) && claim' == Some(Claim(holder, token, now + ttl)) && op' == op
       case SetDesired(now, _, _, _, _, held) =>
         id == held && ClaimActive(st, id, s.granted[id].token, now)
         && op' == Some(s.granted[id].record) && claim' == claim
       case Complete(now, held, status, detail) =>
         id == held && ClaimActive(st, id, s.granted[id].token, now)
         && op' == Some(s.granted[id].record.(status := status, detail := detail)) && claim' == None
       case WriteUnclaimed(_, written) => id == written.id
       case PutServer(_, _, _) => false
  }

  lemma ClaimStepOf(s: State, e: Event, id: OperationId)
    requires Indexed(s.store) && Enabled(s, e) && e.ClaimIt?
    ensures OperationStep(s, e, id)
  {
    hide RanOut;
    var existing := Existing(s.store, e.op.key);
    if existing.Some? {
      assert existing.value.id == s.store.byCommand[e.op.key];
    }
  }

  lemma StepOf(s: State, e: Event, id: OperationId)
    requires Indexed(s.store) && Enabled(s, e)
    requires forall h :: h in s.granted ==> s.granted[h].record.id == h
    ensures OperationStep(s, e, id)
  {
    hide Indexed, AfterClaim, Unknown, RanOut;
    if e.ClaimIt? {
      ClaimStepOf(s, e, id);
    }
  }

  lemma InvIds(s: State)
    requires Inv(s)
    ensures Indexed(s.store) && forall h :: h in s.granted ==> s.granted[h].record.id == h
  {
    forall h | h in s.granted ensures s.granted[h].record.id == h { assert GrantKept(s, h); }
  }

  lemma InvGrant(s: State, id: OperationId)
    requires Inv(s) && id in s.granted
    ensures GrantKept(s, id)
  {
  }

  lemma OldGrantKept(s: State, e: Event, id: OperationId)
    requires Inv(s) && Enabled(s, e) && id in s.granted && id in Next(s, e).granted
    ensures GrantKept(Next(s, e), id)
  {
    hide Inv, Indexed, NextStore;
    InvIds(s);
    InvGrant(s, id);
    StepOf(s, e, id);
  }

  lemma NewGrantKept(s: State, e: Event, id: OperationId)
    requires Inv(s) && Enabled(s, e) && id !in s.granted && id in Next(s, e).granted
    ensures GrantKept(Next(s, e), id)
  {
    hide Inv, Indexed, NextStore;
    InvIds(s);
    NewGrant(s, e);
    StepOf(s, e, id);
  }

  lemma NewGrant(s: State, e: Event)
    requires Enabled(s, e) && Grants(s, e)
    ensures Get(Next(s, e).store.operations, e.op.id) == Some(e.op.(status := Running))
  {
  }

  lemma StepKeeps(s: State, e: Event)
    requires Inv(s) && Enabled(s, e)
    ensures Inv(Next(s, e))
  {
    hide Indexed, GrantKept, ClaimsGranted, Next, Enabled;
    StepIndexed(s, e);
    StepClaims(s, e);
    forall id | id in Next(s, e).granted ensures GrantKept(Next(s, e), id) {
      if id in s.granted {
        OldGrantKept(s, e, id);
      } else {
        NewGrantKept(s, e, id);
      }
    }
  }

  lemma {:induction false} RunInv(states: seq<State>, events: seq<Event>, i: nat)
    requires Run(states, events) && i < |states|
    ensures Inv(states[i])
  {
    if i > 0 {
      hide Inv, Next, Enabled;
      RunInv(states, events, i - 1);
      StepKeeps(states[i - 1], events[i - 1]);
    }
  }

  // ---------------------------------------------------------------- whole runs

  lemma StepKeepsCommand(s: State, e: Event, key: CommandKey)
    requires Enabled(s, e) && key in s.store.byCommand
    ensures key in Next(s, e).store.byCommand
  {
  }

  lemma {:induction false} CommandStays(states: seq<State>, events: seq<Event>, key: CommandKey, i: nat, j: nat)
    requires Run(states, events) && i <= j < |states| && key in states[i].store.byCommand
    ensures key in states[j].store.byCommand
    decreases j
  {
    hide Next, Enabled;
    if i < j {
      CommandStays(states, events, key, i, j - 1);
      StepKeepsCommand(states[j - 1], events[j - 1], key);
    }
  }

  /** For each tenant and command at most one execution is ever granted. */
  lemma OneGrantPerCommand(states: seq<State>, events: seq<Event>, i: nat, j: nat)
    requires Run(states, events) && i < j < |events|
    requires Grants(states[i], events[i]) && Grants(states[j], events[j])
    ensures events[i].op.key != events[j].op.key
  {
    RunInv(states, events, j);
    var key := events[i].op.key;
    assert key in Next(states[i], events[i]).store.byCommand;
    CommandStays(states, events, key, i + 1, j);
  }

  /** Once an operation has left Running its record never changes again. */
  lemma StepKeepsTerminal(s: State, e: Event, id: OperationId)
    requires Inv(s) && Enabled(s, e) && id in s.granted && s.store.operations[id].status != Running
    ensures id in Next(s, e).granted && id in Next(s, e).store.operations
    ensures Next(s, e).store.operations[id] == s.store.operations[id]
  {
    hide Inv, Indexed, NextStore;
    InvIds(s);
    InvGrant(s, id);
    StepOf(s, e, id);
  }

  lemma {:induction false} TerminalStays(states: seq<State>, events: seq<Event>, id: OperationId, i: nat, j: nat)
    requires Run(states, events) && i <= j < |states| && id in states[i].granted
    requires id in states[i].store.operations && states[i].store.operations[id].status != Running
    ensures id in states[j].granted && id in states[j].store.operations
    ensures states[j].store.operations[id] == states[i].store.operations[id]
    decreases j
  {
    hide Inv, Next, Enabled;
    if i < j {
      TerminalStays(states, events, id, i, j - 1);
      RunInv(states, events, j - 1);
      StepKeepsTerminal(states[j - 1], events[j - 1], id);
    }
  }

  /** The claim of a granted operation no longer holds. */
  predicate Lost(s: State, id: OperationId) {
    id in s.granted && !ClaimActive(s.store, id, s.granted[id].token, s.now)
  }

  lemma StepKeepsLost(s: State, e: Event, id: OperationId)
    requires Inv(s) && Enabled(s, e) && Lost(s, id)
    ensures Lost(Next(s, e), id) && Next(s, e).granted[id] == s.granted[id]
  {
    hide Inv, Indexed, NextStore;
    InvIds(s);
    InvGrant(s, id);
    StepOf(s, e, id);
  }

  lemma {:induction false} LostStaysLost(states: seq<State>, events: seq<Event>, id: OperationId, i: nat, j: nat)
    requires Run(states, events) && i <= j < |states| && Lost(states[i], id)
    ensures Lost(states[j], id) && states[j].granted[id] == states[i].granted[id]
    decreases j
  {
    hide Inv, Next, Enabled, ClaimActive;
    if i < j {
      LostStaysLost(states, events, id, i, j - 1);
      RunInv(states, events, j - 1);
      StepKeepsLost(states[j - 1], events[j - 1], id);
    }
  }

  /** A holder whose claim has run out, or has ended, can neither renew it nor set the desired
      state, and completing late returns the stored record and changes nothing. */
  lemma LateHolderIsPowerless(
    states: seq<State>, events: seq<Event>, id: OperationId, i: nat, j: nat, now: int,
    holder: string, server: ServerId, expected: int, op: Operation)
    requires Run(states, events) && i <= j < |states| && Lost(states[i], id)
    requires states[j].now <= now && op.id == id
    ensures var st, token := states[j].store, states[i].granted[id].token;
            && !MayRenew(st, id, holder, token, now)
            && DesiredError(st, server, expected, op, Some(token), now) == Some(ClaimLost)
            && AfterComplete(st, op, Some(token), now) == st
            && id in st.operations && CompleteAnswer(st, op, Some(token), now) == st.operations[id]
  {
    hide Next, Enabled;
    LostStaysLost(states, events, id, i, j);
    RunInv(states, events, j);
    assert GrantKept(states[j], id);
  }
}
