/** Epoch fencing of local installation (CapabilityCatalogReconciler and ToolRegistry).

A reconcile or hydrate pass captures the server's local epoch and connector, then waits on
the network and the store. When it comes back it installs tools, routes and the snapshot
only if both are still the ones it captured. Blocking a server raises its epoch and takes
everything down; revoking it also removes the connector.
*/
module CatalogReconciler {
  import opened Wrappers

  type ServerId = string
  type PassId = nat
  /** The identity of a connector object. */
  type ConnectorId = nat

  datatype ToolKey = ToolKey(name: string, version: string)

  /** MCP connectors are named after their server, so the server stands for the owner. */
  datatype Tool = Tool(key: ToolKey, owner: ServerId, definition: string)

  type Tools = map<ToolKey, Tool>

  datatype Error = WrongOwner | Collision | ChangedWithoutBump

  // ---------------------------------------------------------------- the tool registry

  function OfOthers(tools: Tools, owner: ServerId): Tools {
    map k | k in tools && tools[k].owner != owner :: tools[k]
  }

  function ToolError(tools: Tools, owner: ServerId, prepared: Tools, tool: Tool): Option<Error> {
    if tool.owner != owner then Some(WrongOwner)
    else if tool.key in prepared then Some(Collision)
    else if tool.key in tools && tools[tool.key] != tool then Some(ChangedWithoutBump)
    else None
  }

  /** The registry with the owner's tools replaced, or the first error. */
  function Prepared(tools: Tools, owner: ServerId, update: seq<Tool>): Result<Tools, Error> {
    if update == [] then Ok(OfOthers(tools, owner))
    else
      var before := Prepared(tools, owner, update[..|update| - 1]);
      if before.Err? then before
      else
        var last := update[|update| - 1];
        var error := ToolError(tools, owner, before.value, last);
        if error.Some? then Err(error.value) else Ok(before.value[last.key := last])
  }

  class ToolRegistry {
    var tools: Tools

    constructor ()
      ensures tools == map[]
    {
      tools := map[];
    }

    method PrepareOwner(owner: ServerId, update: seq<Tool>) returns (prepared: Result<Tools, Error>)
      ensures prepared == Prepared(tools, owner, update)
    {
      var result := map k | k in tools && tools[k].owner != owner :: tools[k];
      for i := 0 to |update|
        invariant Prepared(tools, owner, update[..i]) == Ok(result)
      {
        assert update[..i + 1][..i] == update[..i];
        var error := ToolError(tools, owner, result, update[i]);
        if error.Some? {
          PreparedStops(tools, owner, update, i + 1);
          return Err(error.value);
        }
        result := result[update[i].key := update[i]];
      }
      assert update[..|update|] == update;
      return Ok(result);
    }

    /** Validates first, so a refused update leaves the registry as it was. */
    method ReplaceOwner(owner: ServerId, update: seq<Tool>) returns (error: Option<Error>)
      modifies this
      ensures match Prepared(old(tools), owner, update)
              case Ok(prepared) => error == None && tools == prepared
              case Err(e) => error == Some(e) && tools == old(tools)
    {
      var prepared := PrepareOwner(owner, update);
      if prepared.Err? {
        return Some(prepared.error);
      }
      tools := prepared.value;
      return None;
    }

    method RevokeOwner(owner: ServerId)
      modifies this
      ensures tools == OfOthers(old(tools), owner)
    {
      var removed := set k | k in tools && tools[k].owner == owner;
      tools := map k | k in tools && k !in removed :: tools[k];
    }
  }

  /** An error in a prefix is the answer for the whole update. */
  lemma {:induction false} PreparedStops(tools: Tools, owner: ServerId, update: seq<Tool>, n: nat)
    requires n <= |update| && Prepared(tools, owner, update[..n]).Err?
    ensures Prepared(tools, owner, update) == Prepared(tools, owner, update[..n])
    decreases |update|
  {
    if n == |update| {
      assert update[..n] == update;
    } else {
      assert update[..|update| - 1][..n] == update[..n];
      PreparedStops(tools, owner, update[..|update| - 1], n);
    }
  }

  /** What an update must satisfy, tool by tool. */
  ghost predicate Acceptable(tools: Tools, owner: ServerId, update: seq<Tool>) {
    && (forall i :: 0 <= i < |update| ==> update[i].owner == owner)
    && (forall i, j :: 0 <= i < j < |update| ==> update[i].key != update[j].key)
    && (forall i :: 0 <= i < |update| && update[i].key in tools ==> tools[update[i].key] == update[i])
  }

  function ByKey(update: seq<Tool>): Tools {
    if update == [] then map[] else ByKey(update[..|update| - 1])[update[|update| - 1].key := update[|update| - 1]]
  }

  lemma {:induction false} ByKeyHolds(update: seq<Tool>, k: ToolKey)
    ensures k in ByKey(update) <==> exists i :: 0 <= i < |update| && update[i].key == k
  {
    if update != [] {
      var n := |update| - 1;
      ByKeyHolds(update[..n], k);
      if i :| 0 <= i < n && update[..n][i].key == k { assert update[i].key == k; }
    }
  }

  lemma AcceptableLast(tools: Tools, owner: ServerId, update: seq<Tool>)
    requires update != []
    ensures var n := |update| - 1;
            Acceptable(tools, owner, update) <==>
              && Acceptable(tools, owner, update[..n]) && update[n].owner == owner
              && update[n].key !in ByKey(update[..n])
              && (update[n].key in tools ==> tools[update[n].key] == update[n])
  {
    hide ByKey;
    var n := |update| - 1;
    ByKeyHolds(update[..n], update[n].key);
    assert forall i :: 0 <= i < n ==> update[..n][i] == update[i];
  }

  /** An update is accepted exactly when its tools are the owner's, have distinct keys and change
      no registered tool; then the owner has exactly these tools and no other tool is touched. */
  lemma {:induction false} PreparedIff(tools: Tools, owner: ServerId, update: seq<Tool>)
    ensures Prepared(tools, owner, update).Ok? <==> Acceptable(tools, owner, update)
    ensures Prepared(tools, owner, update).Ok? ==>
      Prepared(tools, owner, update).value == OfOthers(tools, owner) + ByKey(update)
  {
    if update != [] {
      hide Acceptable;
      PreparedIff(tools, owner, update[..|update| - 1]);
      AcceptableLast(tools, owner, update);
    } else {
      assert OfOthers(tools, owner) + ByKey([]) == OfOthers(tools, owner);
    }
  }

  // ---------------------------------------------------------------- local installation

  datatype Route = Route(server: ServerId, connector: ConnectorId)

  datatype Local = Local(
    epochs: map<ServerId, nat>, connectors: map<ServerId, ConnectorId>,
    snapshots: map<ServerId, int>, tools: Tools, routes: map<string, Route>)

  function Epoch(l: Local, server: ServerId): nat {
    if server in l.epochs then l.epochs[server] else 0
  }

  function RoutesOfOthers(routes: map<string, Route>, server: ServerId): map<string, Route> {
    map n | n in routes && routes[n].server != server :: routes[n]
  }

  function Blocked(l: Local, server: ServerId): Local {
    l.(epochs := l.epochs[server := Epoch(l, server) + 1],
       snapshots := l.snapshots - {server},
       tools := OfOthers(l.tools, server),
       routes := RoutesOfOthers(l.routes, server))
  }

  function ToolNames(update: seq<Tool>): set<string> {
    set i | 0 <= i < |update| :: update[i].key.name
  }

  function RoutesTo(update: seq<Tool>, route: Route): map<string, Route> {
    map n | n in ToolNames(update) :: route
  }

  datatype Pass = Pass(server: ServerId, connector: ConnectorId, epoch: nat, hydrating: bool, live: bool)

  /** The fence: the captured epoch and connector are still the current ones. */
  predicate Current(l: Local, p: Pass) {
    Epoch(l, p.server) == p.epoch && p.server in l.connectors && l.connectors[p.server] == p.connector
  }

  predicate Installs(l: Local, p: Pass, update: seq<Tool>) {
    Current(l, p) && Prepared(l.tools, p.server, update).Ok?
  }

  /** The end of a pass. One that may not install leaves everything as it is, except that a
      hydrating pass takes the server down while the epoch is still its own. */
  function Installed(l: Local, p: Pass, update: seq<Tool>, generation: int): Local {
    if !Installs(l, p, update) then
      (if p.hydrating && Epoch(l, p.server) == p.epoch then Blocked(l, p.server) else l)
    else l.(tools := Prepared(l.tools, p.server, update).value,
            routes := RoutesOfOthers(l.routes, p.server) + RoutesTo(update, Route(p.server, p.connector)),
            snapshots := l.snapshots[p.server := generation])
  }

  /** Nothing of the server is installed locally. */
  ghost predicate Down(l: Local, server: ServerId) {
    && server !in l.snapshots
    && (forall k :: k in l.tools ==> l.tools[k].owner != server)
    && (forall n :: n in l.routes ==> l.routes[n].server != server)
  }

  /** The two states agree on everything of the server. */
  ghost predicate SameFor(l: Local, l': Local, server: ServerId) {
    && Epoch(l, server) == Epoch(l', server)
    && Get(l.connectors, server) == Get(l'.connectors, server)
    && Get(l.snapshots, server) == Get(l'.snapshots, server)
    && (forall k :: k in l.tools && l.tools[k].owner == server ==> Get(l'.tools, k) == Get(l.tools, k))
    && (forall k :: k in l'.tools && l'.tools[k].owner == server ==> Get(l.tools, k) == Get(l'.tools, k))
    && (forall n :: n in l.routes && l.routes[n].server == server ==> Get(l'.routes, n) == Get(l.routes, n))
    && (forall n :: n in l'.routes && l'.routes[n].server == server ==> Get(l.routes, n) == Get(l'.routes, n))
  }

  lemma {:induction false} ByKeyPuts(update: seq<Tool>, i: nat)
    requires i < |update| && forall a, b :: 0 <= a < b < |update| ==> update[a].key != update[b].key
    ensures Get(ByKey(update), update[i].key) == Some(update[i])
  {
    var n := |update| - 1;
    if i < n {
      assert update[..n][i] == update[i] && update[i].key != update[n].key;
      ByKeyPuts(update[..n], i);
    }
  }

  /** A pass installs exactly when the epoch and the connector it captured are still current and the
      update is acceptable. */
  lemma InstallsIff(l: Local, p: Pass, update: seq<Tool>)
    ensures Installs(l, p, update) <==>
      && (if p.server in l.epochs then l.epochs[p.server] else 0) == p.epoch
      && Get(l.connectors, p.server) == Some(p.connector)
      && Acceptable(l.tools, p.server, update)
  {
    hide Acceptable, Prepared;
    PreparedIff(l.tools, p.server, update);
  }

  lemma SameUnderBlock(l: Local, server: ServerId, v: ServerId)
    requires v != server
    ensures SameFor(l, Blocked(l, server), v)
  {
  }

  /** Blocking takes the server down under a new epoch and touches no other server. */
  lemma BlockTakesDown(l: Local, server: ServerId)
    ensures Down(Blocked(l, server), server) && Epoch(Blocked(l, server), server) == Epoch(l, server) + 1
    ensures forall v :: v != server ==> SameFor(l, Blocked(l, server), v)
  {
    forall v | v != server ensures SameFor(l, Blocked(l, server), v) {
      hide SameFor;
      SameUnderBlock(l, server, v);
    }
  }

  class Reconciler {
    var epochs: map<ServerId, nat>
    var connectors: map<ServerId, ConnectorId>
    var snapshots: map<ServerId, int>
    var tools: Tools
    var routes: map<string, Route>

    function View(): Local
      reads this
    {
      Local(epochs, connectors, snapshots, tools, routes)
    }

    constructor ()
      ensures View() == Local(map[], map[], map[], map[], map[])
    {
      epochs, connectors, snapshots, tools, routes := map[], map[], map[], map[], map[];
    }

    method BlockServer(server: ServerId)
      modifies this
      ensures View() == Blocked(old(View()), server)
      ensures Down(View(), server) && Epoch(View(), server) == Epoch(old(View()), server) + 1
      ensures forall v :: v != server ==> SameFor(old(View()), View(), v)
    {
      hide Down, SameFor, OfOthers, RoutesOfOthers;
      BlockTakesDown(View(), server);
      var epoch := 0;
      if server in epochs {
        epoch := epochs[server];
      }
      epochs := epochs[server := epoch + 1];
      snapshots := snapshots - {server};
      RevokeTools(server);
      DropRoutes(server);
    }

    method RevokeTools(server: ServerId)
      modifies this`tools
      ensures tools == OfOthers(old(tools), server)
    {
      var revoked := set k | k in tools && tools[k].owner == server;
      tools := map k | k in tools && k !in revoked :: tools[k];
    }

    method DropRoutes(server: ServerId)
      modifies this`routes
      ensures routes == RoutesOfOthers(old(routes), server)
    {
      var dropped := set n | n in routes && routes[n].server == server;
      routes := map n | n in routes && n !in dropped :: routes[n];
    }

    method Install(p: Pass, update: seq<Tool>, generation: int) returns (installed: bool)
      modifies this
      ensures View() == Installed(old(View()), p, update, generation)
      ensures installed == Installs(old(View()), p, update)
    {
      hide Prepared, RoutesTo, RoutesOfOthers, OfOthers;
      var current := (if p.server in epochs then epochs[p.server] else 0) == p.epoch;
      var prepared := Prepared(tools, p.server, update);
      if !current || p.server !in connectors || connectors[p.server] != p.connector || prepared.Err? {
        if p.hydrating && current {
          BlockServer(p.server);
        }
        return false;
      }
      tools := prepared.value;
      routes := RoutesOfOthers(routes, p.server) + RoutesTo(update, Route(p.server, p.connector));
      snapshots := snapshots[p.server := generation];
      return true;
    }
  }

  // ---------------------------------------------------------------- the state machine

  /** `unused` is above every connector identity so far. */
  datatype State = State(local: Local, passes: map<PassId, Pass>, unused: ConnectorId)

  datatype Event =
    | Begin(pass: PassId, server: ServerId, hydrating: bool)
    | Install(pass: PassId, update: seq<Tool>, generation: int)
    | Block(server: ServerId)
    | Revoke(server: ServerId)
    | Register(server: ServerId)

  predicate Enabled(s: State, e: Event) {
    match e
    case Begin(pass, server, _) => pass !in s.passes && server in s.local.connectors
    case Install(pass, _, _) => pass in s.passes && s.passes[pass].live
    case _ => true
  }

  function Next(s: State, e: Event): State
    requires Enabled(s, e)
  {
    var l := s.local;
    match e
    case Begin(pass, server, hydrating) =>
      s.(passes := s.passes[pass := Pass(server, l.connectors[server], Epoch(l, server), hydrating, true)])
    case Install(pass, update, generation) =>
      s.(local := Installed(l, s.passes[pass], update, generation),
         passes := s.passes[pass := s.passes[pass].(live := false)])
    case Block(server) => s.(local := Blocked(l, server))
    case Revoke(server) =>
      s.(local := Blocked(l, server).(connectors := l.connectors - {server}))
    case Register(server) =>
      s.(local := l.(connectors := l.connectors[server := s.unused]), unused := s.unused + 1)
  }

  predicate Initial(s: State) {
    s == State(Local(map[], map[], map[], map[], map[]), map[], 0)
  }

  ghost predicate Run(states: seq<State>, events: seq<Event>) {
    && |states| == |events| + 1 && Initial(states[0])
    && forall i :: 0 <= i < |events| ==>
         Enabled(states[i], events[i]) && states[i + 1] == Next(states[i], events[i])
  }

  // ---------------------------------------------------------------- invariants

  ghost predicate Inv(s: State) {
    && (forall v :: v !in s.local.connectors ==> Down(s.local, v))
    && (forall v :: v in s.local.connectors ==> s.local.connectors[v] < s.unused)
    && (forall p :: p in s.passes ==> s.passes[p].connector < s.unused)
  }

  lemma InstallTouches(l: Local, p: Pass, update: seq<Tool>, generation: int, server: ServerId)
    requires Down(l, server) && (p.server != server || server !in l.connectors)
    ensures Down(Installed(l, p, update, generation), server)
  {
    hide Prepared, ByKey;
    if Installs(l, p, update) {
      PreparedIff(l.tools, p.server, update);
      forall k ensures k in ByKey(update) ==> ByKey(update)[k].owner == p.server {
        ByKeyOwner(l.tools, p.server, update, k);
      }
    }
  }

  lemma {:induction false} ByKeyOwner(tools: Tools, owner: ServerId, update: seq<Tool>, k: ToolKey)
    requires forall i :: 0 <= i < |update| ==> update[i].owner == owner
    ensures k in ByKey(update) ==> ByKey(update)[k].owner == owner
  {
    if update != [] {
      ByKeyOwner(tools, owner, update[..|update| - 1], k);
    }
  }

  lemma StepKeeps(s: State, e: Event)
    requires Inv(s) && Enabled(s, e)
    ensures Inv(Next(s, e))
  {
    var s' := Next(s, e);
    if e.Install? {
      hide Installed, Down;
      InstallKeepsConnectors(s.local, s.passes[e.pass], e.update, e.generation);
      forall v | v !in s'.local.connectors ensures Down(s'.local, v) {
        InstallTouches(s.local, s.passes[e.pass], e.update, e.generation, v);
      }
    }
  }

  lemma InstallKeepsConnectors(l: Local, p: Pass, update: seq<Tool>, generation: int)
    ensures Installed(l, p, update, generation).connectors == l.connectors
    ensures forall v :: Epoch(l, v) <= Epoch(Installed(l, p, update, generation), v)
  {
    hide Prepared;
  }

  lemma {:induction false} RunInv(states: seq<State>, events: seq<Event>, i: nat)
    requires Run(states, events) && i < |states|
    ensures Inv(states[i])
  {
    if i > 0 {
      hide Inv, Next, Enabled;
      RunInv(states, events, i - 1);
      StepKeeps(states[i - 1], events[i - 1]);
    }
  }

  // ---------------------------------------------------------------- whole runs

  predicate TakesDown(e: Event, server: ServerId) {
    (e.Block? || e.Revoke?) && e.server == server
  }

  lemma StepEpoch(s: State, e: Event, server: ServerId)
    requires Enabled(s, e)
    ensures Epoch(s.local, server) <= Epoch(Next(s, e).local, server)
    ensures TakesDown(e, server) ==>
      Epoch(s.local, server) < Epoch(Next(s, e).local, server) && Down(Next(s, e).local, server)
  {
  }

  lemma {:induction false} EpochNeverFalls(states: seq<State>, events: seq<Event>, server: ServerId, i: nat, j: nat)
    requires Run(states, events) && i <= j < |states|
    ensures Epoch(states[i].local, server) <= Epoch(states[j].local, server)
    decreases j
  {
    hide Next, Enabled, Epoch;
    if i < j {
      EpochNeverFalls(states, events, server, i, j - 1);
      StepEpoch(states[j - 1], events[j - 1], server);
    }
  }

  predicate Connected(l: Local, server: ServerId, connector: ConnectorId) {
    server in l.connectors && l.connectors[server] == connector
  }

  /** A connector that was replaced or removed never comes back. */
  lemma {:induction false} ConnectorsNeverReturn(
    states: seq<State>, events: seq<Event>, server: ServerId, connector: ConnectorId, i: nat, j: nat)
    requires Run(states, events) && i <= j < |states|
    requires connector < states[i].unused && !Connected(states[i].local, server, connector)
    ensures connector < states[j].unused && !Connected(states[j].local, server, connector)
    decreases j
  {
    if i < j {
      ConnectorsNeverReturn(states, events, server, connector, i, j - 1);
      var s, e := states[j - 1], events[j - 1];
      if e.Install? {
        hide Installed;
        InstallKeepsConnectors(s.local, s.passes[e.pass], e.update, e.generation);
      }
    }
  }

  lemma {:induction false} PassKept(states: seq<State>, events: seq<Event>, pass: PassId, i: nat, j: nat)
    requires Run(states, events) && i <= j < |states| && pass in states[i].passes
    ensures pass in states[j].passes
    ensures states[j].passes[pass] == states[i].passes[pass].(live := states[j].passes[pass].live)
    decreases j
  {
    hide Installed, Blocked;
    if i < j {
      PassKept(states, events, pass, i, j - 1);
    }
  }

  ghost predicate Effective(s: State, e: Event) {
    e.Install? && e.pass in s.passes && s.passes[e.pass].live && Installs(s.local, s.passes[e.pass], e.update)
  }

  /** When an install takes effect, the epoch and the connector have been the captured ones in
      every state since the pass began. */
  lemma InstallIsCurrentThroughout(
    states: seq<State>, events: seq<Event>, i: nat, k: nat, j: nat)
    requires Run(states, events) && i < k <= j < |events|
    requires events[i].Begin? && Effective(states[j], events[j]) && events[j].pass == events[i].pass
    ensures var server := events[i].server;
            && server in states[i].local.connectors
            && Epoch(states[k].local, server) == Epoch(states[i].local, server)
            && Connected(states[k].local, server, states[i].local.connectors[server])
  {
    hide Prepared;
    var pass, server := events[i].pass, events[i].server;
    assert Enabled(states[i], events[i]) && states[i + 1] == Next(states[i], events[i]);
    var connector := states[i].local.connectors[server];
    PassKept(states, events, pass, i + 1, j);
    RunInv(states, events, i);
    EpochNeverFalls(states, events, server, i, k);
    EpochNeverFalls(states, events, server, k, j);
    UnusedGrows(states, events, i, k);
    if !Connected(states[k].local, server, connector) {
      ConnectorsNeverReturn(states, events, server, connector, k, j);
    }
  }

  lemma {:induction false} UnusedGrows(states: seq<State>, events: seq<Event>, i: nat, j: nat)
    requires Run(states, events) && i <= j < |states|
    ensures states[i].unused <= states[j].unused
    decreases j
  {
    hide Installed, Blocked;
    if i < j {
      UnusedGrows(states, events, i, j - 1);
    }
  }

  /** A pass that began before its server was blocked or revoked never installs anything, even
      after a new connector is registered. */
  lemma BlockedPassNeverInstalls(states: seq<State>, events: seq<Event>, i: nat, k: nat, j: nat)
    requires Run(states, events) && i < k < j < |events|
    requires events[i].Begin? && TakesDown(events[k], events[i].server)
    requires events[j].Install? && events[j].pass == events[i].pass
    ensures !Effective(states[j], events[j])
  {
    hide Next, Enabled, Installs, Epoch;
    if Effective(states[j], events[j]) {
      InstallIsCurrentThroughout(states, events, i, k, j);
      InstallIsCurrentThroughout(states, events, i, k + 1, j);
      StepEpoch(states[k], events[k], events[i].server);
    }
  }

  /** After a server is revoked, nothing of it is installed until a connector is registered. */
  lemma {:induction false} RevokedStaysDown(
    states: seq<State>, events: seq<Event>, server: ServerId, i: nat, j: nat)
    requires Run(states, events) && i < j < |states| && events[i] == Revoke(server)
    requires forall k :: i < k < j ==> events[k] != Register(server)
    ensures server !in states[j].local.connectors && Down(states[j].local, server)
    decreases j
  {
    if i < j - 1 {
      hide Down;
      RevokedStaysDown(states, events, server, i, j - 1);
      var s, e := states[j - 1], events[j - 1];
      if e.Install? {
        hide Installed;
        InstallKeepsConnectors(s.local, s.passes[e.pass], e.update, e.generation);
        InstallTouches(s.local, s.passes[e.pass], e.update, e.generation, server);
      } else {
        OtherStepsKeepDown(s, e, server);
      }
    } else {
      StepEpoch(states[i], events[i], server);
    }
  }

  lemma OtherStepsKeepDown(s: State, e: Event, server: ServerId)
    requires Enabled(s, e) && !e.Install? && Down(s.local, server)
    ensures Down(Next(s, e).local, server)
  {
  }

  // ---------------------------------------------------------------- what a step leaves

  /** What an effective install leaves under a tool key: the update's tool, or another server's. */
  lemma InstalledTool(s: State, e: Event, k: ToolKey)
    requires Effective(s, e)
    ensures var p, after := s.passes[e.pass], Next(s, e).local.tools;
            && (forall i :: 0 <= i < |e.update| && e.update[i].key == k ==> Get(after, k) == Some(e.update[i]))
            && ((forall i :: 0 <= i < |e.update| ==> e.update[i].key != k) ==>
                  Get(after, k) ==
                    if k in s.local.tools && s.local.tools[k].owner != p.server then Some(s.local.tools[k]) else None)
  {
    hide Prepared, RoutesTo, RoutesOfOthers;
    var server, update := s.passes[e.pass].server, e.update;
    PreparedIff(s.local.tools, server, update);
    ByKeyHolds(update, k);
    forall i | 0 <= i < |update| && update[i].key == k ensures Get(ByKey(update), k) == Some(update[i]) {
      ByKeyPuts(update, i);
    }
  }

  /** What it leaves under a route name, and of the snapshots; nothing else changes. */
  lemma InstalledRoute(s: State, e: Event, name: string)
    requires Effective(s, e)
    ensures var p, l, after := s.passes[e.pass], s.local, Next(s, e).local;
            && Get(after.routes, name) ==
                 (if exists i :: 0 <= i < |e.update| && e.update[i].key.name == name
                  then Some(Route(p.server, p.connector))
                  else if name in l.routes && l.routes[name].server != p.server then Some(l.routes[name])
                  else None)
            && after.snapshots == l.snapshots[p.server := e.generation]
            && after.epochs == l.epochs && after.connectors == l.connectors
  {
    hide Prepared;
  }

  /** A pass that may not install leaves everything, except that a hydrating one takes its server
      down while the epoch is still its own. */
  lemma RefusedInstall(s: State, e: Event, server: ServerId)
    requires Enabled(s, e) && e.Install? && !Effective(s, e)
    ensures var p, l, after := s.passes[e.pass], s.local, Next(s, e).local;
            if p.hydrating && (if p.server in l.epochs then l.epochs[p.server] else 0) == p.epoch
            then && Down(after, p.server) && Epoch(after, p.server) == p.epoch + 1
                 && (server != p.server ==> SameFor(l, after, server))
            else after == l
  {
    hide Prepared, SameFor;
    BlockTakesDown(s.local, s.passes[e.pass].server);
  }

  /** A pass captures the current epoch and connector; done at once, it installs every acceptable
      update. */
  lemma BeginCaptures(s: State, e: Event, update: seq<Tool>, generation: int)
    requires Enabled(s, e) && e.Begin?
    ensures var s', install := Next(s, e), Install(e.pass, update, generation);
            && s'.local == s.local && Enabled(s', install)
            && (Effective(s', install) <==> Acceptable(s.local.tools, e.server, update))
  {
    hide Acceptable, Prepared;
    InstallsIff(s.local, Next(s, e).passes[e.pass], update);
  }

  /** A pass ends with its install. */
  lemma {:induction false} PassInstallsOnce(states: seq<State>, events: seq<Event>, i: nat, j: nat)
    requires Run(states, events) && i < j < |events| && events[i].Install? && events[j].Install?
    ensures events[i].pass != events[j].pass
  {
    hide Installed;
    assert Enabled(states[i], events[i]) && Enabled(states[j], events[j]);
    SpentStays(states, events, events[i].pass, i + 1, j);
  }

  lemma {:induction false} SpentStays(states: seq<State>, events: seq<Event>, pass: PassId, i: nat, j: nat)
    requires Run(states, events) && i <= j < |states| && pass in states[i].passes && !states[i].passes[pass].live
    ensures pass in states[j].passes && !states[j].passes[pass].live
    decreases j
  {
    hide Installed, Blocked;
    if i < j {
      SpentStays(states, events, pass, i, j - 1);
    }
  }

  /** Registering gives a server a connector that no server or pass had before; revoking takes it
      away; no other step touches a connector. */
  lemma ConnectorStep(s: State, e: Event, server: ServerId)
    requires Inv(s) && Enabled(s, e)
    ensures Get(Next(s, e).local.connectors, server) ==
      if e == Register(server) then Some(s.unused)
      else if e == Revoke(server) then None
      else Get(s.local.connectors, server)
    ensures forall v :: v in s.local.connectors ==> s.local.connectors[v] != s.unused
    ensures forall p :: p in s.passes ==> s.passes[p].connector != s.unused
    ensures Next(s, e).unused == if e.Register? then s.unused + 1 else s.unused
  {
    hide Prepared;
  }
}
