/** What each step of the MCP registry leaves of a server, an operation and its claim, and what a
repeated command is answered. */
module McpClaims {
  import opened Wrappers
  import opened McpRegistry

  /** The operation's claim was granted with the token this holder has, and still runs. */
  predicate Claimed(s: State, id: OperationId, now: int) {
    && id in s.granted && id in s.store.claims
    && s.store.claims[id].token == s.granted[id].token && now < s.store.claims[id].expiresAt
  }

  /** The record of an operation whose holder was lost. */
  function Abandoned(op: Operation): Operation {
    Operation(op.id, op.key, UnknownSideEffect, "mcp_operation_recovery_required")
  }

  /** A repeated command finds its operation still running although its claim has run out. */
  predicate FindsAbandoned(s: State, e: Event, id: OperationId) {
    && e.ClaimIt? && e.op.key in s.store.byCommand && s.store.byCommand[e.op.key] == id
    && Get(s.store.digests, id) == Some(e.digest)
    && id in s.store.operations && s.store.operations[id].status == Running
    && id in s.store.claims && s.store.claims[id].expiresAt <= e.now
  }

  /** What a claim leaves. */
  lemma ClaimLeaves(s: State, e: Event)
    requires Inv(s) && Enabled(s, e) && e.ClaimIt?
    ensures var st := s.store;
            NextStore(s, e) ==
              if e.op.key !in st.byCommand
              then Store(st.servers, st.operations[e.op.id := e.op.(status := Running)],
                         st.byCommand[e.op.key := e.op.id],
                         st.claims[e.op.id := Claim(e.holder, e.token, e.now + e.ttl)],
                         st.digests[e.op.id := e.digest])
              else
                var id := st.byCommand[e.op.key];
                if FindsAbandoned(s, e, id) then Saved(st, Abandoned(st.operations[id])) else st
  {
    hide ClaimsGranted, GrantKept;
  }

  /** What a change of the desired state leaves: a running claim means that the record is the
      granted one. */
  lemma DesiredLeaves(s: State, e: Event)
    requires Inv(s) && Enabled(s, e) && e.SetDesired?
    ensures var st := s.store;
            NextStore(s, e) ==
              if Claimed(s, e.held, e.now) && e.server in st.servers
                 && st.servers[e.server].latestRevision == e.expected
              then st.(servers := st.servers[e.server := Server(e.expected, e.desired, e.active)],
                       byCommand := st.byCommand[s.granted[e.held].record.key := e.held])
              else st
  {
    hide Indexed, ClaimsGranted;
    InvGrant(s, e.held);
  }

  /** What a completion leaves. */
  lemma CompleteLeaves(s: State, e: Event)
    requires Inv(s) && Enabled(s, e) && e.Complete?
    ensures s.granted[e.held].record.id == e.held
    ensures var st, op := s.store, s.granted[e.held].record.(status := e.status, detail := e.detail);
            NextStore(s, e) ==
              if Claimed(s, e.held, e.now)
              then st.(operations := st.operations[e.held := op], byCommand := st.byCommand[op.key := e.held],
                       claims := st.claims - {e.held})
              else st
  {
    hide Indexed, ClaimsGranted;
    InvGrant(s, e.held);
  }

  /** Under its running claim a holder sets the desired state and active revision of a server that
      is at the expected revision; besides that only a configuration write changes a server. */
  lemma ServerStep(s: State, e: Event, server: ServerId)
    requires Inv(s) && Enabled(s, e)
    ensures Get(Next(s, e).store.servers, server) ==
      if e.PutServer? && e.server == server then Some(e.record)
      else if e.SetDesired? && e.server == server && Claimed(s, e.held, e.now)
              && server in s.store.servers && s.store.servers[server].latestRevision == e.expected
      then Some(Server(e.expected, e.desired, e.active))
      else Get(s.store.servers, server)
  {
    hide Inv, AfterClaim, AfterDesired, AfterComplete, FindsAbandoned, Claimed;
    match e
    case ClaimIt(_, _, _, _, _, _) => ClaimLeaves(s, e);
    case SetDesired(_, _, _, _, _, _) => DesiredLeaves(s, e);
    case Complete(_, _, _, _) => CompleteLeaves(s, e);
    case _ =>
  }

  /** A claim comes with its grant, is extended by its holder while it runs, and ends with the
      completion; nothing else touches it. */
  lemma ClaimStep(s: State, e: Event, id: OperationId)
    requires Inv(s) && Enabled(s, e)
    ensures Get(Next(s, e).store.claims, id) ==
      if e.ClaimIt? && e.op.id == id && e.op.key !in s.store.byCommand
      then Some(Claim(e.holder, e.token, e.now + e.ttl))
      else if e.Renew? && e.id == id && id in s.store.claims && s.store.claims[id].holder == e.holder
              && s.store.claims[id].token == e.token && e.now < s.store.claims[id].expiresAt
      then Some(Claim(e.holder, e.token, e.now + e.ttl))
      else if e.Complete? && e.held == id && Claimed(s, id, e.now) then None
      else Get(s.store.claims, id)
  {
    hide Inv, AfterClaim, AfterDesired, AfterComplete, FindsAbandoned, Claimed;
    match e
    case ClaimIt(_, _, _, _, _, _) => ClaimLeaves(s, e);
    case SetDesired(_, _, _, _, _, _) => DesiredLeaves(s, e);
    case Complete(_, _, _, _) => CompleteLeaves(s, e);
    case _ =>
  }

  /** A granted operation is stored as running, its holder completes it while its claim runs, and a
      repeated command marks it abandoned once the claim has run out; other operations are
      written without a claim. */
  lemma OperationStepIs(s: State, e: Event, id: OperationId)
    requires Inv(s) && Enabled(s, e)
    ensures Get(Next(s, e).store.operations, id) ==
      if e.ClaimIt? && e.op.id == id && e.op.key !in s.store.byCommand then Some(e.op.(status := Running))
      else if FindsAbandoned(s, e, id) then Some(Abandoned(s.store.operations[id]))
      else if e.Complete? && e.held == id && Claimed(s, id, e.now)
      then Some(s.granted[id].record.(status := e.status, detail := e.detail))
      else if e.WriteUnclaimed? && e.op.id == id then Some(e.op)
      else Get(s.store.operations, id)
  {
    hide Inv, AfterClaim, AfterDesired, AfterComplete, Claimed;
    match e
    case ClaimIt(_, _, _, _, _, _) => 
      ClaimLeaves(s, e);
      if e.op.key in s.store.byCommand {
        ExistingIsStored(s, e);
      }
    case SetDesired(_, _, _, _, _, _) => DesiredLeaves(s, e);
    case Complete(_, _, _, _) => CompleteLeaves(s, e);
    case _ =>
  }

  lemma ExistingIsStored(s: State, e: Event)
    requires Inv(s) && e.ClaimIt? && e.op.key in s.store.byCommand
    ensures var id := s.store.byCommand[e.op.key]; id in s.store.operations && s.store.operations[id].id == id
  {
  }

  /** A command is granted exactly the first time; after that its content must be the same, and it
      is shown its operation, marked abandoned if it runs although its claim has run out. */
  lemma ClaimAnswerIs(s: State, e: Event)
    requires Inv(s) && Enabled(s, e) && e.ClaimIt?
    ensures var st := s.store;
            ClaimAnswer(st, e.op, e.digest, e.token, e.now) ==
              if e.op.key !in st.byCommand then Ok(Granted(e.op.(status := Running), e.token))
              else
                var id := st.byCommand[e.op.key];
                if Get(st.digests, id) != Some(e.digest) then Err(CommandReused)
                else if FindsAbandoned(s, e, id) then Ok(Refused(Abandoned(st.operations[id])))
                else Ok(Refused(st.operations[id]))
  {
    hide ClaimsGranted, GrantKept;
  }

  lemma DigestStep(s: State, e: Event, id: OperationId)
    requires Inv(s) && Enabled(s, e)
    ensures Get(Next(s, e).store.digests, id) ==
      if e.ClaimIt? && e.op.id == id && e.op.key !in s.store.byCommand then Some(e.digest)
      else Get(s.store.digests, id)
  {
    hide Inv, AfterClaim, AfterDesired, AfterComplete, FindsAbandoned, Claimed;
    match e
    case ClaimIt(_, _, _, _, _, _) => ClaimLeaves(s, e);
    case SetDesired(_, _, _, _, _, _) => DesiredLeaves(s, e);
    case Complete(_, _, _, _) => CompleteLeaves(s, e);
    case _ =>
  }

  /** The operation is the only one of its command. */
  ghost predicate Sole(s: State, key: CommandKey, id: OperationId) {
    && Get(s.store.byCommand, key) == Some(id) && id in s.granted && s.granted[id].record.key == key
    && forall x :: x in s.store.operations && s.store.operations[x].key == key ==> x == id
  }

  /** A command keeps naming its granted operation unless another one is written for it. */
  lemma CommandStep(s: State, e: Event, key: CommandKey, id: OperationId)
    requires Inv(s) && Enabled(s, e) && Sole(s, key, id) && !(e.WriteUnclaimed? && e.op.key == key)
    ensures Get(Next(s, e).store.byCommand, key) == Some(id)
    ensures id in Next(s, e).granted && Next(s, e).granted[id] == s.granted[id]
  {
    hide Inv, AfterClaim, AfterDesired, AfterComplete, FindsAbandoned, Claimed, GrantKept;
    match e
    case ClaimIt(_, _, _, _, _, _) =>
      ClaimLeaves(s, e);
      if e.op.key in s.store.byCommand {
        ExistingIsStored(s, e);
      } else {
        GrantedKey(s, id);
      }
    case SetDesired(_, _, _, _, _, held) =>
      DesiredLeaves(s, e);
      GrantedKey(s, held);
    case Complete(_, held, _, _) =>
      CompleteLeaves(s, e);
      GrantedKey(s, held);
    case _ =>
  }

  lemma SoleStep(s: State, e: Event, key: CommandKey, id: OperationId)
    requires Inv(s) && Enabled(s, e) && Sole(s, key, id) && !(e.WriteUnclaimed? && e.op.key == key)
    ensures Sole(Next(s, e), key, id)
  {
    hide Inv, Next;
    CommandStep(s, e, key, id);
    var s' := Next(s, e);
    forall x | x in s'.store.operations && s'.store.operations[x].key == key ensures x == id {
      OperationStepIs(s, e, x);
      if e.Complete? && e.held == x {
        GrantedKey(s, x);
      }
    }
  }

  ghost predicate Unwritten(events: seq<Event>, key: CommandKey, i: nat, j: nat)
    requires j <= |events|
  {
    forall n :: i <= n < j ==> !(events[n].WriteUnclaimed? && events[n].op.key == key)
  }

  lemma {:induction false} GrantStays(states: seq<State>, events: seq<Event>, i: nat, j: nat)
    requires Run(states, events) && i < j < |states| && Grants(states[i], events[i])
    requires Unwritten(events, events[i].op.key, i + 1, j)
    ensures Sole(states[j], events[i].op.key, events[i].op.id)
    ensures Get(states[j].store.digests, events[i].op.id) == Some(events[i].digest)
    decreases j
  {
    hide Inv, Next, Sole;
    assert Enabled(states[j - 1], events[j - 1]);
    RunInv(states, events, j - 1);
    if i == j - 1 {
      GrantStep(states[i], events[i]);
    } else {
      GrantStays(states, events, i, j - 1);
      SoleStep(states[j - 1], events[j - 1], events[i].op.key, events[i].op.id);
      DigestStep(states[j - 1], events[j - 1], events[i].op.id);
      SoleIsStored(states[j - 1], events[i].op.key, events[i].op.id);
    }
  }

  lemma GrantStep(s: State, e: Event)
    requires Inv(s) && Enabled(s, e) && Grants(s, e)
    ensures Sole(Next(s, e), e.op.key, e.op.id) && Get(Next(s, e).store.digests, e.op.id) == Some(e.digest)
  {
    hide ClaimsGranted, GrantKept;
  }

  lemma SoleIsStored(s: State, key: CommandKey, id: OperationId)
    requires Inv(s) && Sole(s, key, id)
    ensures id in s.store.operations
  {
    hide Inv;
    GrantedKey(s, id);
  }

  lemma GrantedKey(s: State, id: OperationId)
    requires Inv(s) && id in s.granted
    ensures id in s.store.operations && s.store.operations[id].key == s.granted[id].record.key
  {
    InvGrant(s, id);
  }

  /** A command that was granted is never granted again: repeated with the same content it is shown
      its own operation, with other content it is refused. */
  lemma RepeatedCommand(states: seq<State>, events: seq<Event>, i: nat, j: nat)
    requires Run(states, events) && i < j < |events| && Grants(states[i], events[i])
    requires events[j].ClaimIt? && events[j].op.key == events[i].op.key
    requires Unwritten(events, events[i].op.key, i + 1, j)
    ensures var e, st := events[j], states[j].store;
            var answer := ClaimAnswer(st, e.op, e.digest, e.token, e.now);
            if e.digest != events[i].digest then answer == Err(CommandReused)
            else answer.Ok? && answer.value.Refused? && answer.value.operation.id == events[i].op.id
  {
    hide Next, GrantKept, ClaimsGranted;
    assert Enabled(states[j], events[j]);
    RunInv(states, events, j);
    GrantStays(states, events, i, j);
    ClaimAnswerIs(states[j], events[j]);
  }
}
