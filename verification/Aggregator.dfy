/** The tool aggregator as a value: its state, its operations, and what they keep. */
module Aggregator {
  import opened Base
  import opened Names
  import opened Manifest
  import opened Policy
  import opened Broker

  const CONFIRMATION_TTL_SECS: u64 := 30

  /** A JSON value in printed form. */
  type Value = string

  /** A tool definition object: its members, each in printed form. */
  type Definition = map<string, Value>

  /** The identity of a spawned child process. */
  type Handle = nat

  datatype ToolDef = ToolDef(name: string, definition: Definition)

  datatype ChildError = Io | Protocol | Rpc(code: int, message: string) | Exited | Timeout {
    /** The errors of a crashed or hung child, as against one that answered. */
    predicate IsFault() { Exited? || Io? || Timeout? }
  }

  datatype AggregatorError = InvalidServerId(id: string) | UnknownServer(id: string) | UnknownTool(name: string)
                           | NotExposed(name: string) | NotConfirmed(name: string) | Child(error: ChildError)

  /** A child that launched and answered `tools/list`. */
  datatype Spawned = Spawned(handle: Handle, listing: seq<ToolDef>)

  /** What the spawner and the first `tools/list` yield. */
  type SpawnOutcome = Result<Spawned, ChildError>

  datatype Confirmation = Confirmation(server: string, tool: string, approvedAt: u64) {
    predicate Usable(now: u64) {
      SatSub(now, approvedAt) <= CONFIRMATION_TTL_SECS
    }
  }

  datatype Agg = Agg(manifest: seq<ServerManifest>, servers: seq<Slot>, children: map<string, Handle>,
                     toolDefs: map<string, map<string, Definition>>, confirmations: seq<Confirmation>)

  function UsableAt(now: u64): Confirmation -> bool {
    (c: Confirmation) => c.Usable(now)
  }

  function Approves(server: string, tool: string, now: u64): Confirmation -> bool {
    (c: Confirmation) => c.server == server && c.tool == tool && c.Usable(now)
  }

  /** Names in advertised order. */
  function NamesOf(listing: seq<ToolDef>): (r: seq<string>)
    ensures |r| == |listing|
    ensures forall i :: 0 <= i < |r| ==> r[i] == listing[i].name
  {
    seq(|listing|, i requires 0 <= i < |listing| => listing[i].name)
  }

  /** The definition map a listing collects to; a repeated name keeps its last definition. */
  function DefsOf(listing: seq<ToolDef>): (m: map<string, Definition>)
    ensures forall n :: n in m <==> exists i :: 0 <= i < |listing| && listing[i].name == n
  {
    if listing == [] then map[]
    else
      var last := listing[|listing| - 1];
      DefsOf(listing[..|listing| - 1])[last.name := last.definition]
  }

  /** The last definition of this name in the listing is at `i`. */
  ghost predicate LastNamed(listing: seq<ToolDef>, name: string, i: nat) {
    i < |listing| && listing[i].name == name && forall j :: i < j < |listing| ==> listing[j].name != name
  }

  lemma {:induction false} DefsAreLast(listing: seq<ToolDef>, name: string, i: nat)
    requires LastNamed(listing, name, i)
    ensures name in DefsOf(listing) && DefsOf(listing)[name] == listing[i].definition
  {
    if i < |listing| - 1 {
      DefsAreLast(listing[..|listing| - 1], name, i);
    }
  }

  lemma {:induction false} FindLast(listing: seq<ToolDef>, name: string) returns (i: nat)
    requires name in DefsOf(listing)
    ensures LastNamed(listing, name, i)
  {
    var front, last := listing[..|listing| - 1], listing[|listing| - 1];
    if last.name == name {
      i := |front|;
    } else {
      i := FindLast(front, name);
      hide DefsOf;
    }
  }

  // ----- Operations -----

  function ApproveAction(a: Agg, server: string, tool: string, now: u64): Agg {
    a.(confirmations := Retain(a.confirmations, UsableAt(now)) + [Confirmation(server, tool, now)])
  }

  function SetState(a: Agg, id: string, state: ServerState): (Agg, Result<(), AggregatorError>) {
    match SlotOf(a.servers, id)
    case None => (a, Err(UnknownServer(id)))
    case Some(slot) => (a.(servers := PutSlot(a.servers, slot.(state := state))), Ok(()))
  }

  function Stop(a: Agg, id: string): (Agg, Result<(), AggregatorError>) {
    var (stopped, r) := SetState(a, id, Stopped);
    if r.Err? then (a, r) else (stopped.(children := stopped.children - {id}), r)
  }

  /** The state after a fresh child of `server` has been installed. */
  function Install(a: Agg, server: ServerManifest, id: string, child: Spawned): Agg {
    var tools := ClassifyAdvertised(server.tools, NamesOf(child.listing));
    a.(children := a.children[id := child.handle],
       toolDefs := a.toolDefs[id := DefsOf(child.listing)],
       servers := match SlotOf(a.servers, id)
                  case None => a.servers
                  case Some(slot) => PutSlot(a.servers, slot.(tools := tools)))
  }

  /** `start`; `spawn` is what the spawner would yield, and is not consulted while a child handle is held. */
  function Start(a: Agg, id: string, spawn: SpawnOutcome): (Agg, Result<(), AggregatorError>) {
    match FindServer(a.manifest, id)
    case None => (a, Err(UnknownServer(id)))
    case Some(server) =>
      if id in a.children then SetState(a, id, Running)
      else
        match spawn
        case Err(e) => (a, Err(Child(e)))
        case Ok(child) => SetState(Install(a, server, id, child), id, Running)
  }

  /** Stop exposing a faulted server and drop its elevation. */
  function FailClosed(servers: seq<Slot>, id: string): seq<Slot> {
    match SlotOf(servers, id)
    case None => servers
    case Some(slot) => PutSlot(servers, slot.(state := Stopped, elevation := None))
  }

  /** A request handed to a child. */
  datatype Dispatch = Dispatch(handle: Handle, tool: string, arguments: Value)

  /** The result of a call, and the request it handed to a child, if it came to that. */
  datatype CallReport = CallReport(agg: Agg, result: Result<Value, AggregatorError>, sent: Option<Dispatch>)

  /** Hand the call to the server's child; `reply` is what the child would answer. */
  function Route(a: Agg, name: string, server: string, tool: string, arguments: Value, reply: Result<Value, ChildError>)
    : CallReport
  {
    if server !in a.children then CallReport(a, Err(UnknownTool(name)), None)
    else
      var sent := Some(Dispatch(a.children[server], tool, arguments));
      match reply
      case Ok(v) => CallReport(a, Ok(v), sent)
      case Err(e) =>
        CallReport(if e.IsFault() then a.(servers := FailClosed(a.servers, server)) else a, Err(Child(e)), sent)
  }

  /** The checks before routing: the name splits, the server is known, the tool is exposed at `now`, and a
      confirm tool has a usable confirmation, which is taken out. */
  function Admit(a: Agg, name: string, now: u64): (r: Result<Agg, AggregatorError>)
    ensures r.Ok? ==> SplitOnce(name).Some? && r.value == a.(confirmations := r.value.confirmations)
  {
    match SplitOnce(name)
    case None => Err(UnknownTool(name))
    case Some((server, tool)) =>
      match SlotOf(a.servers, server)
      case None => Err(UnknownTool(name))
      case Some(slot) =>
        if tool !in slot.Exposed(now) then Err(NotExposed(name))
        else if ClassIn(slot.tools, tool) == Some(ToolClass.Confirm) then
          var i := Position(a.confirmations, Approves(server, tool, now));
          if i == |a.confirmations| then Err(NotConfirmed(name))
          else Ok(a.(confirmations := SwapRemove(a.confirmations, i)))
        else Ok(a)
  }

  function Call(a: Agg, name: string, arguments: Value, now: u64, reply: Result<Value, ChildError>): CallReport {
    match Admit(a, name, now)
    case Err(e) => CallReport(a, Err(e), None)
    case Ok(a') =>
      var (server, tool) := SplitOnce(name).value;
      Route(a', name, server, tool, arguments, reply)
  }

  /** The listing of one slot: each exposed name that has a definition, renamed. */
  function ListSlot(defs: map<string, Definition>, id: string, names: seq<string>): seq<Definition> {
    if names == [] then []
    else
      var front, last := names[..|names| - 1], names[|names| - 1];
      ListSlot(defs, id, front) + if last in defs then [defs[last]["name" := ExternalName(id, last)]] else []
  }

  function ListSlots(servers: seq<Slot>, toolDefs: map<string, map<string, Definition>>, now: u64): seq<Definition> {
    if servers == [] then []
    else
      var front, last := servers[..|servers| - 1], servers[|servers| - 1];
      ListSlots(front, toolDefs, now)
      + if last.id in toolDefs then ListSlot(toolDefs[last.id], last.id, last.Exposed(now)) else []
  }

  function AggregatedTools(a: Agg, now: u64): seq<Definition> {
    ListSlots(a.servers, a.toolDefs, now)
  }

  // ----- Building -----

  /** The aggregator that a manifest and the spawn outcomes, one per server, give. A server that failed to
      come up has a stopped slot without tools. */
  ghost predicate Built(a: Agg, manifest: seq<ServerManifest>, outcomes: seq<SpawnOutcome>) {
    && |outcomes| == |manifest| == |a.servers|
    && a.manifest == manifest
    && a.confirmations == []
    && (forall i :: 0 <= i < |manifest| ==> NAMESPACE_SEP !in manifest[i].id)
    && (forall i :: 0 <= i < |manifest| ==> a.servers[i] == BuiltSlot(manifest[i], outcomes[i]))
    && BuiltToolDefs(manifest, outcomes, |manifest|, a.toolDefs)
    && BuiltChildren(manifest, outcomes, |manifest|, a.children)
  }

  /** The definitions that the first `n` servers give. */
  ghost predicate BuiltToolDefs(manifest: seq<ServerManifest>, outcomes: seq<SpawnOutcome>, n: nat,
                                toolDefs: map<string, map<string, Definition>>)
    requires n <= |manifest| == |outcomes|
  {
    && (forall i :: 0 <= i < n ==> manifest[i].id in toolDefs && toolDefs[manifest[i].id] == BuiltDefs(outcomes[i]))
    && (forall id :: id in toolDefs ==> exists i :: 0 <= i < n && manifest[i].id == id)
  }

  /** The child handles that the first `n` servers give. */
  ghost predicate BuiltChildren(manifest: seq<ServerManifest>, outcomes: seq<SpawnOutcome>, n: nat,
                                children: map<string, Handle>)
    requires n <= |manifest| == |outcomes|
  {
    && (forall i :: 0 <= i < n && outcomes[i].Ok? ==>
          manifest[i].id in children && children[manifest[i].id] == outcomes[i].value.handle)
    && (forall id :: id in children ==> exists i :: 0 <= i < n && manifest[i].id == id && outcomes[i].Ok?)
  }

  /** The maps as `build` accumulates them. */
  function DefsFor(manifest: seq<ServerManifest>, outcomes: seq<SpawnOutcome>, n: nat)
    : map<string, map<string, Definition>>
    requires n <= |manifest| == |outcomes|
  {
    if n == 0 then map[] else DefsFor(manifest, outcomes, n - 1)[manifest[n - 1].id := BuiltDefs(outcomes[n - 1])]
  }

  function HandlesFor(manifest: seq<ServerManifest>, outcomes: seq<SpawnOutcome>, n: nat): map<string, Handle>
    requires n <= |manifest| == |outcomes|
  {
    if n == 0 then map[]
    else
      var before := HandlesFor(manifest, outcomes, n - 1);
      if outcomes[n - 1].Ok? then before[manifest[n - 1].id := outcomes[n - 1].value.handle] else before
  }

  lemma DefsExtend(manifest: seq<ServerManifest>, outcomes: seq<SpawnOutcome>, n: nat,
                   toolDefs: map<string, map<string, Definition>>)
    requires n < |manifest| == |outcomes| && DistinctIds(manifest) && BuiltToolDefs(manifest, outcomes, n, toolDefs)
    ensures BuiltToolDefs(manifest, outcomes, n + 1, toolDefs[manifest[n].id := BuiltDefs(outcomes[n])])
  {
    hide BuiltDefs;
    forall x | x in toolDefs ensures exists i :: 0 <= i < n + 1 && manifest[i].id == x {
      var i :| 0 <= i < n && manifest[i].id == x;
    }
  }

  lemma NoDefsBuilt(manifest: seq<ServerManifest>, outcomes: seq<SpawnOutcome>)
    requires |manifest| == |outcomes|
    ensures BuiltToolDefs(manifest, outcomes, 0, map[])
  {
  }

  lemma {:induction false} DefsForBuilt(manifest: seq<ServerManifest>, outcomes: seq<SpawnOutcome>, n: nat)
    requires n <= |manifest| == |outcomes| && DistinctIds(manifest)
    ensures BuiltToolDefs(manifest, outcomes, n, DefsFor(manifest, outcomes, n))
  {
    hide BuiltDefs;
    hide BuiltToolDefs;
    hide DistinctIds;
    if n == 0 {
      NoDefsBuilt(manifest, outcomes);
    } else {
      DefsForBuilt(manifest, outcomes, n - 1);
      DefsExtend(manifest, outcomes, n - 1, DefsFor(manifest, outcomes, n - 1));
    }
  }

  lemma NoChildrenBuilt(manifest: seq<ServerManifest>, outcomes: seq<SpawnOutcome>)
    requires |manifest| == |outcomes|
    ensures BuiltChildren(manifest, outcomes, 0, map[])
  {
  }

  lemma HandlesExtend(manifest: seq<ServerManifest>, outcomes: seq<SpawnOutcome>, n: nat, children: map<string, Handle>)
    requires n < |manifest| == |outcomes| && DistinctIds(manifest) && BuiltChildren(manifest, outcomes, n, children)
    ensures BuiltChildren(manifest, outcomes, n + 1,
                          if outcomes[n].Ok? then children[manifest[n].id := outcomes[n].value.handle] else children)
  {
    forall x | x in children ensures exists i :: 0 <= i < n + 1 && manifest[i].id == x && outcomes[i].Ok? {
      var i :| 0 <= i < n && manifest[i].id == x && outcomes[i].Ok?;
    }
  }

  lemma {:induction false} HandlesForBuilt(manifest: seq<ServerManifest>, outcomes: seq<SpawnOutcome>, n: nat)
    requires n <= |manifest| == |outcomes| && DistinctIds(manifest)
    ensures BuiltChildren(manifest, outcomes, n, HandlesFor(manifest, outcomes, n))
  {
    hide BuiltChildren;
    hide DistinctIds;
    if n == 0 {
      NoChildrenBuilt(manifest, outcomes);
    } else {
      HandlesForBuilt(manifest, outcomes, n - 1);
      HandlesExtend(manifest, outcomes, n - 1, HandlesFor(manifest, outcomes, n - 1));
    }
  }

  function BuiltSlot(server: ServerManifest, outcome: SpawnOutcome): Slot {
    match outcome
    case Ok(child) => Slot(server.id, ClassifyAdvertised(server.tools, NamesOf(child.listing)), Running, None)
    case Err(_) => Slot(server.id, [], Stopped, None)
  }

  function BuiltDefs(outcome: SpawnOutcome): map<string, Definition> {
    match outcome
    case Ok(child) => DefsOf(child.listing)
    case Err(_) => map[]
  }

  /** What a cold start leaves of each server: a child that came up is held and its server runs, not elevated, with the
      tools it advertised in their order and the operator's classes; a server without one is stopped, without tools and
      without a child. */
  lemma ColdStartSlots(a: Agg, manifest: seq<ServerManifest>, outcomes: seq<SpawnOutcome>, i: nat)
    requires DistinctIds(manifest) && Built(a, manifest, outcomes) && i < |manifest|
    ensures var id, slot := manifest[i].id, a.servers[i];
            && slot.id == id && slot.elevation == None
            && match outcomes[i]
               case Ok(child) =>
                 && slot.state == Running && id in a.children && a.children[id] == child.handle
                 && |slot.tools| == |child.listing|
                 && forall j :: 0 <= j < |child.listing| ==>
                      slot.tools[j] == ClassifiedTool(child.listing[j].name,
                                                      if child.listing[j].name in manifest[i].tools then
                                                        manifest[i].tools[child.listing[j].name]
                                                      else ToolClass.Write)
               case Err(_) => slot.state == Stopped && slot.tools == [] && id !in a.children
  {
    hide BuiltToolDefs;
    hide DefsOf;
    if outcomes[i].Err? && manifest[i].id in a.children {
      var j :| 0 <= j < |manifest| && manifest[j].id == manifest[i].id && outcomes[j].Ok?;
    }
  }

  // ----- The invariant -----

  /** A slot agrees with its manifest entry: same id, same tool names as the stored definitions, and every
      tool classed as the operator says. */
  ghost predicate SlotMatches(slot: Slot, server: ServerManifest, defs: map<string, Definition>) {
    && slot.id == server.id
    && (forall t :: t in slot.tools ==>
          t.name in defs && t.cls == if t.name in server.tools then server.tools[t.name] else ToolClass.Write)
    && (forall n :: n in defs ==> exists t :: t in slot.tools && t.name == n)
  }

  ghost predicate ManifestOk(manifest: seq<ServerManifest>) {
    && DistinctIds(manifest)
    && forall i :: 0 <= i < |manifest| ==> NAMESPACE_SEP !in manifest[i].id
  }

  ghost predicate SlotsOk(servers: seq<Slot>, manifest: seq<ServerManifest>,
                          toolDefs: map<string, map<string, Definition>>) {
    && |servers| == |manifest|
    && forall i :: 0 <= i < |servers| ==>
         servers[i].id == manifest[i].id && servers[i].id in toolDefs
         && SlotMatches(servers[i], manifest[i], toolDefs[servers[i].id])
  }

  ghost predicate Inv(a: Agg) {
    && ManifestOk(a.manifest)
    && SlotsOk(a.servers, a.manifest, a.toolDefs)
    && (forall id :: id in a.toolDefs ==> SlotOf(a.servers, id).Some?)
    && (forall id :: id in a.children ==> SlotOf(a.servers, id).Some?)
  }

  lemma InvSlots(a: Agg)
    requires Inv(a)
    ensures DistinctSlotIds(a.servers)
    ensures forall id :: SlotIndex(a.servers, id) == Position(a.manifest, (s: ServerManifest) => s.id == id)
  {
    forall id ensures SlotIndex(a.servers, id) == Position(a.manifest, (s: ServerManifest) => s.id == id) {
      PositionUnique(a.manifest, (s: ServerManifest) => s.id == id, SlotIndex(a.servers, id));
    }
  }

  lemma SomeSlot(a: Agg, i: nat)
    requires i < |a.servers|
    ensures SlotOf(a.servers, a.servers[i].id).Some?
  {
    assert SlotIndex(a.servers, a.servers[i].id) <= i;
  }

  lemma FreshListingMatches(server: ServerManifest, listing: seq<ToolDef>, state: ServerState,
                            elevation: Option<Elevation>)
    ensures SlotMatches(Slot(server.id, ClassifyAdvertised(server.tools, NamesOf(listing)), state, elevation), server,
                        DefsOf(listing))
  {
    var tools := ClassifyAdvertised(server.tools, NamesOf(listing));
    forall n | n in DefsOf(listing) ensures exists t :: t in tools && t.name == n {
      var i :| 0 <= i < |listing| && listing[i].name == n;
      assert tools[i] in tools;
    }
  }

  /** The invariant holds from the start, whatever each child advertises and whichever fail to come up. */
  lemma BuildEstablishesInv(a: Agg, manifest: seq<ServerManifest>, outcomes: seq<SpawnOutcome>)
    requires DistinctIds(manifest) && Built(a, manifest, outcomes)
    ensures Inv(a)
  {
    forall i | 0 <= i < |manifest|
      ensures SlotMatches(a.servers[i], manifest[i], a.toolDefs[manifest[i].id])
    {
      match outcomes[i]
      case Ok(child) => FreshListingMatches(manifest[i], child.listing, Running, None);
      case Err(_) =>
    }
    forall id | id in a.toolDefs || id in a.children ensures SlotOf(a.servers, id).Some? {
      var i :| 0 <= i < |manifest| && manifest[i].id == id;
      SomeSlot(a, i);
    }
  }

  lemma SameToolsMatch(slot: Slot, slot': Slot, server: ServerManifest, defs: map<string, Definition>)
    requires SlotMatches(slot, server, defs) && slot'.id == slot.id && slot'.tools == slot.tools
    ensures SlotMatches(slot', server, defs)
  {
  }

  lemma PutKeepsSlotsOk(servers: seq<Slot>, manifest: seq<ServerManifest>,
                        toolDefs: map<string, map<string, Definition>>, slot: Slot, slot': Slot)
    requires SlotsOk(servers, manifest, toolDefs) && SlotOf(servers, slot.id) == Some(slot)
    requires slot'.id == slot.id && slot'.tools == slot.tools
    ensures SlotsOk(PutSlot(servers, slot'), manifest, toolDefs)
  {
    hide SlotMatches;
    var i := SlotIndex(servers, slot.id);
    SameToolsMatch(slot, slot', manifest[i], toolDefs[slot.id]);
  }

  /** Replacing a slot's state or elevation keeps the invariant. */
  lemma PutKeepsInv(a: Agg, slot: Slot, slot': Slot)
    requires Inv(a) && SlotOf(a.servers, slot.id) == Some(slot)
    requires slot'.id == slot.id && slot'.tools == slot.tools
    ensures Inv(a.(servers := PutSlot(a.servers, slot')))
  {
    hide ManifestOk;
    hide SlotsOk;
    hide PutSlot;
    hide SlotOf;
    PutKeepsSlotsOk(a.servers, a.manifest, a.toolDefs, slot, slot');
    forall id ensures SlotOf(PutSlot(a.servers, slot'), id).Some? == SlotOf(a.servers, id).Some? {
      PutSlotFrame(a.servers, slot', id);
    }
  }

  lemma SetStateKeepsInv(a: Agg, id: string, state: ServerState)
    requires Inv(a)
    ensures Inv(SetState(a, id, state).0)
  {
    match SlotOf(a.servers, id)
    case None =>
    case Some(slot) => PutKeepsInv(a, slot, slot.(state := state));
  }

  /** Reinstalling a child reclassifies whatever it now advertises and keeps the invariant. */
  lemma InstallKeepsInv(a: Agg, id: string, child: Spawned)
    requires Inv(a) && FindServer(a.manifest, id).Some?
    ensures Inv(Install(a, FindServer(a.manifest, id).value, id, child))
    ensures SlotOf(a.servers, id).Some?
  {
    InvSlots(a);
    var server := FindServer(a.manifest, id).value;
    var i := SlotIndex(a.servers, id);
    var slot := a.servers[i];
    var a' := Install(a, server, id, child);
    FreshListingMatches(server, child.listing, slot.state, slot.elevation);
    forall x ensures SlotOf(a'.servers, x).Some? == SlotOf(a.servers, x).Some? {
      PutSlotFrame(a.servers, a'.servers[i], x);
    }
  }

  lemma StartKeepsInv(a: Agg, id: string, spawn: SpawnOutcome)
    requires Inv(a)
    ensures Inv(Start(a, id, spawn).0)
    ensures Start(a, id, spawn).1.Err? ==> Start(a, id, spawn).0 == a
  {
    InvSlots(a);
    match FindServer(a.manifest, id)
    case None =>
    case Some(server) =>
      if id in a.children {
        SetStateKeepsInv(a, id, Running);
      } else if spawn.Ok? {
        InstallKeepsInv(a, id, spawn.value);
        var installed := Install(a, server, id, spawn.value);
        SetStateKeepsInv(installed, id, Running);
        InvSlots(installed);
      }
  }

  lemma StopKeepsInv(a: Agg, id: string)
    requires Inv(a)
    ensures Inv(Stop(a, id).0)
  {
    SetStateKeepsInv(a, id, Stopped);
  }

  lemma FailClosedKeepsInv(a: Agg, id: string)
    requires Inv(a)
    ensures Inv(a.(servers := FailClosed(a.servers, id)))
  {
    match SlotOf(a.servers, id)
    case None =>
    case Some(slot) => PutKeepsInv(a, slot, slot.(state := Stopped, elevation := None));
  }

  lemma ConfirmationsKeepInv(a: Agg, confirmations: seq<Confirmation>)
    requires Inv(a)
    ensures Inv(a.(confirmations := confirmations))
  {
  }

  lemma RouteKeepsInv(a: Agg, confirmations: seq<Confirmation>, name: string, server: string, tool: string,
                      arguments: Value, reply: Result<Value, ChildError>)
    requires Inv(a)
    ensures var a' := Route(a.(confirmations := confirmations), name, server, tool, arguments, reply).agg;
            Inv(a') && a'.manifest == a.manifest
  {
    hide Inv;
    hide FailClosed;
    ConfirmationsKeepInv(a, confirmations);
    FailClosedKeepsInv(a.(confirmations := confirmations), server);
  }

  lemma CallKeepsInv(a: Agg, name: string, arguments: Value, now: u64, reply: Result<Value, ChildError>)
    requires Inv(a)
    ensures Inv(Call(a, name, arguments, now, reply).agg)
    ensures Call(a, name, arguments, now, reply).agg.manifest == a.manifest
  {
    hide Inv;
    hide Admit;
    hide Route;
    match Admit(a, name, now)
    case Err(_) =>
    case Ok(a') =>
      var (server, tool) := SplitOnce(name).value;
      RouteKeepsInv(a, a'.confirmations, name, server, tool, arguments, reply);
  }

  lemma ApproveKeepsInv(a: Agg, server: string, tool: string, now: u64)
    requires Inv(a)
    ensures Inv(ApproveAction(a, server, tool, now)) && ApproveAction(a, server, tool, now).manifest == a.manifest
  {
  }

  // ----- What the invariant gives -----

  /** Every tool of every slot has the operator's class for its name, or write if the operator gave none. */
  lemma ClassIsOperators(a: Agg, id: string, tool: string)
    requires Inv(a) && SlotOf(a.servers, id).Some?
    ensures FindServer(a.manifest, id).Some?
    ensures var tools, declared := SlotOf(a.servers, id).value.tools, FindServer(a.manifest, id).value.tools;
            && (forall t :: t in tools ==> t.cls == if t.name in declared then declared[t.name] else ToolClass.Write)
            && (ClassIn(tools, tool).Some? ==>
                  ClassIn(tools, tool).value == if tool in declared then declared[tool] else ToolClass.Write)
            && (forall t :: t in tools && t.name == tool ==> ClassIn(tools, tool) == Some(t.cls))
  {
    InvSlots(a);
    var i := SlotIndex(a.servers, id);
    var tools := a.servers[i].tools;
    var p := Position(tools, (t: ClassifiedTool) => t.name == tool);
    if p < |tools| {
      assert tools[p] in tools;
    }
  }

  /** The call gate: the name splits, the server is known and the tool is exposed at `now`. */
  predicate PassesGate(a: Agg, name: string, now: u64) {
    match SplitOnce(name)
    case None => false
    case Some((server, tool)) => SlotOf(a.servers, server).Some? && tool in SlotOf(a.servers, server).value.Exposed(now)
  }

  lemma {:induction false} ListSlotNames(defs: map<string, Definition>, id: string, names: seq<string>, name: string)
    ensures (exists d :: d in ListSlot(defs, id, names) && "name" in d && d["name"] == name) <==>
            exists tool :: tool in names && tool in defs && ExternalName(id, tool) == name
    ensures forall d :: d in ListSlot(defs, id, names) ==> "name" in d
  {
    if names != [] {
      var front, last := names[..|names| - 1], names[|names| - 1];
      ListSlotNames(defs, id, front, name);
      assert names == front + [last];
      if last in defs && ExternalName(id, last) == name {
        var d := defs[last]["name" := name];
        assert d in ListSlot(defs, id, names) && d["name"] == name;
      }
    }
  }

  ghost predicate Lists(definitions: seq<Definition>, name: string) {
    exists d :: d in definitions && "name" in d && d["name"] == name
  }

  /** Slot `i` exposes a tool of this aggregated name. */
  ghost predicate OfferedBy(a: Agg, name: string, now: u64, i: nat)
    requires i < |a.servers|
  {
    exists tool :: tool in a.servers[i].Exposed(now) && ExternalName(a.servers[i].id, tool) == name
  }

  lemma ExposedHasDefinition(a: Agg, i: nat, tool: string, now: u64)
    requires Inv(a) && i < |a.servers| && tool in a.servers[i].Exposed(now)
    ensures tool in a.toolDefs[a.servers[i].id]
  {
    var slot := a.servers[i];
    ExposureRule(slot.tools, slot.state, slot.elevation, now, tool);
  }

  lemma SlotListingOffers(a: Agg, name: string, now: u64, i: nat)
    requires Inv(a) && i < |a.servers|
    ensures a.servers[i].id in a.toolDefs
    ensures var slot := a.servers[i];
            Lists(ListSlot(a.toolDefs[slot.id], slot.id, slot.Exposed(now)), name) <==> OfferedBy(a, name, now, i)
  {
    var slot := a.servers[i];
    ListSlotNames(a.toolDefs[slot.id], slot.id, slot.Exposed(now), name);
    if tool :| tool in slot.Exposed(now) && ExternalName(slot.id, tool) == name {
      ExposedHasDefinition(a, i, tool, now);
    }
  }

  lemma ListsConcat(ds: seq<Definition>, es: seq<Definition>, name: string)
    ensures Lists(ds + es, name) <==> Lists(ds, name) || Lists(es, name)
  {
  }

  lemma {:induction false} ListingOffers(a: Agg, name: string, now: u64, k: nat)
    requires Inv(a) && k <= |a.servers|
    ensures Lists(ListSlots(a.servers[..k], a.toolDefs, now), name) <==>
            exists i :: 0 <= i < k && OfferedBy(a, name, now, i)
  {
    hide Inv;
    hide Lists;
    hide OfferedBy;
    hide ListSlot;
    if k == 0 {
      assert !Lists([], name) by { EmptyListsNothing(name); }
    } else {
      ListingOffers(a, name, now, k - 1);
      SlotListingOffers(a, name, now, k - 1);
      var slot := a.servers[k - 1];
      assert a.servers[..k][..k - 1] == a.servers[..k - 1];
      ListsConcat(ListSlots(a.servers[..k - 1], a.toolDefs, now),
                  ListSlot(a.toolDefs[slot.id], slot.id, slot.Exposed(now)), name);
    }
  }

  lemma EmptyListsNothing(name: string)
    ensures !Lists([], name)
  {
  }

  lemma OfferPassesGate(a: Agg, name: string, now: u64, i: nat)
    requires DistinctSlotIds(a.servers) && i < |a.servers| && NAMESPACE_SEP !in a.servers[i].id
    requires OfferedBy(a, name, now, i)
    ensures PassesGate(a, name, now)
  {
    var tool :| tool in a.servers[i].Exposed(now) && ExternalName(a.servers[i].id, tool) == name;
    SplitOfExternalName(a.servers[i].id, tool);
    SlotAtIndex(a.servers, i);
  }

  lemma GatePassesOffer(a: Agg, name: string, now: u64) returns (i: nat)
    requires PassesGate(a, name, now)
    ensures i < |a.servers| && OfferedBy(a, name, now, i)
  {
    ExternalNameOfSplit(name);
    i := SlotIndex(a.servers, SplitOnce(name).value.0);
  }

  /** The listing gate and the call gate agree: a name is in `tools/list` at a reading exactly when a call
      by that name passes the server lookup and the exposure check at that reading. */
  lemma ListedExactlyWhenCallable(a: Agg, name: string, now: u64)
    requires Inv(a)
    ensures Lists(AggregatedTools(a, now), name) <==> PassesGate(a, name, now)
  {
    hide PassesGate;
    hide OfferedBy;
    hide Lists;
    hide ListSlots;
    hide SlotMatches;
    InvSlots(a);
    assert a.servers[..|a.servers|] == a.servers;
    ListingOffers(a, name, now, |a.servers|);
    if i :| 0 <= i < |a.servers| && OfferedBy(a, name, now, i) {
      OfferPassesGate(a, name, now, i);
    }
    if PassesGate(a, name, now) {
      var i := GatePassesOffer(a, name, now);
    }
  }

  /** Failing the gate is the only reason a call is refused as unknown or unexposed before confirmation and
      routing are considered. */
  lemma GateDecidesRefusal(a: Agg, name: string, arguments: Value, now: u64, reply: Result<Value, ChildError>)
    requires Inv(a)
    ensures var r := Call(a, name, arguments, now, reply);
            && (!PassesGate(a, name, now) ==> r.sent.None? && r.agg == a && r.result.Err?
                                              && (r.result.error.UnknownTool? || r.result.error.NotExposed?))
            && (PassesGate(a, name, now) && r.sent.None? ==>
                  r.result == Err(NotConfirmed(name)) || SplitOnce(name).value.0 !in a.children)
  {
  }

  /** A request is handed over exactly when a child handle is held, to that child, under the tool's own name. */
  lemma RouteSends(a: Agg, name: string, server: string, tool: string, arguments: Value,
                   reply: Result<Value, ChildError>)
    ensures var report := Route(a, name, server, tool, arguments, reply);
            && (report.sent.Some? <==> server in a.children)
            && (report.sent.Some? ==> report.sent.value == Dispatch(a.children[server], tool, arguments)
                                      && report.result ==
                                         (match reply case Ok(v) => Ok(v) case Err(e) => Err(Child(e))))
            && (report.sent.None? ==> report.result == Err(UnknownTool(name)))
  {
  }

  /** A call hands its request to a child exactly when it passes the gate, has the confirmation it needs, and its
      server's child handle is held. The request then goes to the handle of the server that the call's name splits
      to, under the tool's own name, and the child's answer is the result. */
  lemma CallSends(a: Agg, name: string, arguments: Value, now: u64, reply: Result<Value, ChildError>)
    ensures var r := Call(a, name, arguments, now, reply);
            && (r.sent.Some? <==> PassesGate(a, name, now)
                                  && (NeedsConfirmation(a, name, now) ==>
                                      exists c :: c in a.confirmations && ConfirmedBy(c, name, now))
                                  && SplitOnce(name).value.0 in a.children)
            && (r.sent.Some? ==> SplitOnce(name).Some?
                                 && var (server, tool) := SplitOnce(name).value;
                                    && server in a.children
                                    && r.sent.value == Dispatch(a.children[server], tool, arguments)
                                    && r.result == (match reply case Ok(v) => Ok(v) case Err(e) => Err(Child(e))))
            && (r.sent.None? ==> r.result.Err? && !r.result.error.Child? && r.agg.servers == a.servers)
  {
    hide ResolveExposure;
    hide FailClosed;
    if NeedsConfirmation(a, name, now) {
      UsableIffConfirmed(a.confirmations, name, now);
    }
  }

  /** Looking for a usable confirmation finds one exactly when one is held. */
  lemma UsableIffConfirmed(confirmations: seq<Confirmation>, name: string, now: u64)
    requires SplitOnce(name).Some?
    ensures var (server, tool) := SplitOnce(name).value;
            Position(confirmations, Approves(server, tool, now)) < |confirmations| <==>
            exists c :: c in confirmations && ConfirmedBy(c, name, now)
  {
    var (server, tool) := SplitOnce(name).value;
    var i := Position(confirmations, Approves(server, tool, now));
    if i < |confirmations| {
      assert confirmations[i] in confirmations && ConfirmedBy(confirmations[i], name, now);
    } else {
      forall c | c in confirmations ensures !ConfirmedBy(c, name, now) {
        assert !Approves(server, tool, now)(c);
      }
    }
  }

  /** Why a call is refused: as unknown exactly when its name does not split, its server is unknown, or it is admitted
      but its server has no child; as not exposed exactly when the server is known and the tool not exposed; as not
      confirmed exactly when only a usable confirmation is missing. There is no other refusal but the child's own. */
  lemma CallRefuses(a: Agg, name: string, arguments: Value, now: u64, reply: Result<Value, ChildError>)
    ensures var r := Call(a, name, arguments, now, reply).result;
            var known := SplitOnce(name).Some? && SlotOf(a.servers, SplitOnce(name).value.0).Some?;
            var confirmed := NeedsConfirmation(a, name, now) ==>
              exists c :: c in a.confirmations && ConfirmedBy(c, name, now);
            && (r == Err(UnknownTool(name)) <==>
                  !known || (PassesGate(a, name, now) && confirmed && SplitOnce(name).value.0 !in a.children))
            && (r == Err(NotExposed(name)) <==> known && !PassesGate(a, name, now))
            && (r == Err(NotConfirmed(name)) <==> !confirmed)
            && (r.Ok? || r.error.Child? <==>
                PassesGate(a, name, now) && confirmed && SplitOnce(name).value.0 in a.children)
            && (r.Ok? || r.error.Child? || r.error in {UnknownTool(name), NotExposed(name), NotConfirmed(name)})
  {
    hide ResolveExposure;
    hide FailClosed;
    if NeedsConfirmation(a, name, now) {
      UsableIffConfirmed(a.confirmations, name, now);
    }
  }

  /** A call that reaches a child stops its server and drops its elevation exactly when the child's stream breaks, the
      child exits or it does not answer in time; a result, a remote error and a protocol error leave every slot. */
  lemma CallFailsClosed(a: Agg, name: string, arguments: Value, now: u64, reply: Result<Value, ChildError>)
    ensures var r := Call(a, name, arguments, now, reply);
            && (r.sent.Some? && (reply == Err(Io) || reply == Err(Exited) || reply == Err(Timeout)) ==>
                  var server := SplitOnce(name).value.0;
                  && SlotOf(a.servers, server).Some?
                  && var closed := SlotOf(a.servers, server).value.(state := Stopped, elevation := None);
                     r.agg.servers == PutSlot(a.servers, closed))
            && (!(r.sent.Some? && (reply == Err(Io) || reply == Err(Exited) || reply == Err(Timeout))) ==>
                  r.agg.servers == a.servers)
  {
    hide ResolveExposure;
    hide PutSlot;
    hide Position;
  }

  // ----- Reaping -----

  /** These servers stopped and without elevation, the others as they are. */
  function ReapSlots(servers: seq<Slot>, ids: set<string>): (r: seq<Slot>)
    ensures |r| == |servers|
    ensures forall i :: 0 <= i < |r| ==>
              r[i] == if servers[i].id in ids then servers[i].(state := Stopped, elevation := None) else servers[i]
  {
    seq(|servers|, i requires 0 <= i < |servers| =>
      if servers[i].id in ids then servers[i].(state := Stopped, elevation := None) else servers[i])
  }

  /** `reap_exited_children`: stop the servers whose held child is among the dead, and drop their elevations. */
  function Reap(a: Agg, dead: set<string>): Agg {
    a.(servers := ReapSlots(a.servers, a.children.Keys * dead))
  }

  /** Failing one more server closed. */
  lemma ReapOneMore(servers: seq<Slot>, ids: set<string>, id: string)
    requires DistinctSlotIds(servers)
    ensures FailClosed(ReapSlots(servers, ids), id) == ReapSlots(servers, ids + {id})
  {
    PositionUnique(ReapSlots(servers, ids), (s: Slot) => s.id == id, SlotIndex(servers, id));
  }

  lemma ReapedSlot(a: Agg, dead: set<string>, id: string)
    ensures SlotOf(Reap(a, dead).servers, id) ==
            match SlotOf(a.servers, id)
            case None => None
            case Some(slot) =>
              Some(if id in a.children && id in dead then slot.(state := Stopped, elevation := None) else slot)
  {
    PositionUnique(Reap(a, dead).servers, (s: Slot) => s.id == id, SlotIndex(a.servers, id));
  }

  /** Reaping keeps the invariant, and reaping again changes nothing. */
  lemma ReapKeepsInv(a: Agg, dead: set<string>)
    requires Inv(a)
    ensures Inv(Reap(a, dead)) && Reap(Reap(a, dead), dead) == Reap(a, dead)
  {
    ReapKeepsSlotsOk(a, dead);
    forall id ensures SlotOf(Reap(a, dead).servers, id).Some? == SlotOf(a.servers, id).Some? {
      ReapedSlot(a, dead, id);
    }
    hide SlotsOk;
    hide ManifestOk;
    hide SlotOf;
    assert Reap(Reap(a, dead), dead).servers == Reap(a, dead).servers;
  }

  /** After reaping, exactly the names of servers that were not reaped still pass the gate. */
  lemma ReapClosesDead(a: Agg, dead: set<string>, name: string, now: u64)
    ensures PassesGate(Reap(a, dead), name, now) <==>
            PassesGate(a, name, now) && !(SplitOnce(name).value.0 in a.children && SplitOnce(name).value.0 in dead)
  {
    hide SlotOf;
    hide Reap;
    if SplitOnce(name).Some? {
      ReapedSlot(a, dead, SplitOnce(name).value.0);
    }
  }

  lemma ReapKeepsSlotsOk(a: Agg, dead: set<string>)
    requires Inv(a)
    ensures SlotsOk(Reap(a, dead).servers, a.manifest, a.toolDefs)
  {
    hide SlotMatches;
    forall i | 0 <= i < |a.servers|
      ensures SlotMatches(Reap(a, dead).servers[i], a.manifest[i], a.toolDefs[a.servers[i].id]) {
      SameToolsMatch(a.servers[i], Reap(a, dead).servers[i], a.manifest[i], a.toolDefs[a.servers[i].id]);
    }
  }

  // ----- Confirmations as a multiset -----

  /** The call has passed the gate and its tool needs a fresh confirmation. */
  predicate NeedsConfirmation(a: Agg, name: string, now: u64) {
    PassesGate(a, name, now)
    && var (server, tool) := SplitOnce(name).value;
       ClassIn(SlotOf(a.servers, server).value.tools, tool) == Some(ToolClass.Confirm)
  }

  /** The index of the confirmation that the call takes out, if it takes one. */
  function TakenIndex(a: Agg, name: string, now: u64): (r: Option<nat>)
    ensures r.Some? ==> SplitOnce(name).Some? && r.value < |a.confirmations|
                        && Approves(SplitOnce(name).value.0, SplitOnce(name).value.1, now)(a.confirmations[r.value])
  {
    if !NeedsConfirmation(a, name, now) then None
    else
      var (server, tool) := SplitOnce(name).value;
      var i := Position(a.confirmations, Approves(server, tool, now));
      if i < |a.confirmations| then Some(i) else None
  }

  lemma CallTakesIndex(a: Agg, name: string, arguments: Value, now: u64, reply: Result<Value, ChildError>)
    ensures Call(a, name, arguments, now, reply).agg.confirmations ==
            match TakenIndex(a, name, now)
            case None => a.confirmations
            case Some(i) => SwapRemove(a.confirmations, i)
  {
    hide ResolveExposure;
    hide FailClosed;
  }

  ghost predicate ConfirmedBy(c: Confirmation, name: string, now: u64) {
    SplitOnce(name) == Some((c.server, c.tool)) && c.Usable(now)
  }

  /** Admission takes the first usable confirmation if the call needs one, and is refused for want of one exactly
      when none is usable. */
  lemma AdmitTakes(a: Agg, name: string, now: u64)
    ensures var r := Admit(a, name, now);
            && (r == Err(NotConfirmed(name)) <==>
                  NeedsConfirmation(a, name, now) && !exists c :: c in a.confirmations && ConfirmedBy(c, name, now))
            && (r.Err? && r.error.NotConfirmed? ==> r.error.name == name)
            && (r.Ok? && NeedsConfirmation(a, name, now) ==>
                  exists c :: c in a.confirmations && ConfirmedBy(c, name, now)
                              && multiset(r.value.confirmations) + multiset{c} == multiset(a.confirmations))
            && (r.Ok? && !NeedsConfirmation(a, name, now) ==> r.value.confirmations == a.confirmations)
            && (NeedsConfirmation(a, name, now) ==> r.Ok? || r == Err(NotConfirmed(name)))
  {
    hide ResolveExposure;
    if NeedsConfirmation(a, name, now) {
      var (server, tool) := SplitOnce(name).value;
      UsableIffConfirmed(a.confirmations, name, now);
      TakenIsUsable(a.confirmations, server, tool, now);
    }
  }

  lemma TakenIsUsable(confirmations: seq<Confirmation>, server: string, tool: string, now: u64)
    ensures var i := Position(confirmations, Approves(server, tool, now));
            i < |confirmations| ==>
              && confirmations[i] in confirmations && confirmations[i].server == server && confirmations[i].tool == tool
              && confirmations[i].Usable(now)
              && multiset(SwapRemove(confirmations, i)) + multiset{confirmations[i]} == multiset(confirmations)
  {
    var i := Position(confirmations, Approves(server, tool, now));
    if i < |confirmations| {
      SwapRemoveMultiset(confirmations, i);
    }
  }

  lemma CallFollowsAdmit(a: Agg, name: string, arguments: Value, now: u64, reply: Result<Value, ChildError>)
    ensures var r, admitted := Call(a, name, arguments, now, reply), Admit(a, name, now);
            && (r.result == Err(NotConfirmed(name)) <==> admitted == Err(NotConfirmed(name)))
            && r.agg.confirmations == if admitted.Ok? then admitted.value.confirmations else a.confirmations
  {
    hide Admit;
    hide FailClosed;
  }

  /** A call that needs a confirmation takes exactly one usable confirmation of that very server and tool, or
      is refused when there is none; every other call leaves the confirmations as they are. Confirmations
      of other tools, and expired ones, never enable a call and are never used up by one. */
  lemma CallTakesOneConfirmation(a: Agg, name: string, arguments: Value, now: u64, reply: Result<Value, ChildError>)
    ensures var r := Call(a, name, arguments, now, reply);
            && (r.result == Err(NotConfirmed(name)) <==>
                  NeedsConfirmation(a, name, now) && !exists c :: c in a.confirmations && ConfirmedBy(c, name, now))
            && (NeedsConfirmation(a, name, now) && r.result != Err(NotConfirmed(name)) ==>
                  exists c :: c in a.confirmations && ConfirmedBy(c, name, now)
                              && multiset(r.agg.confirmations) + multiset{c} == multiset(a.confirmations))
            && (!NeedsConfirmation(a, name, now) || r.result == Err(NotConfirmed(name)) ==>
                  r.agg.confirmations == a.confirmations)
  {
    hide Admit;
    hide Call;
    hide NeedsConfirmation;
    hide ConfirmedBy;
    AdmitTakes(a, name, now);
    CallFollowsAdmit(a, name, arguments, now, reply);
  }

  /** A call uses up a confirmation and reaches nobody exactly when it passes the gate, a usable confirmation of its
      tool is held, and its server runs without a child. */
  lemma CallWastesConfirmation(a: Agg, name: string, arguments: Value, now: u64, reply: Result<Value, ChildError>)
    ensures var r := Call(a, name, arguments, now, reply);
            (r.agg.confirmations != a.confirmations && r.sent.None?) <==>
            NeedsConfirmation(a, name, now) && (exists c :: c in a.confirmations && ConfirmedBy(c, name, now))
            && SplitOnce(name).value.0 !in a.children
  {
    hide Call;
    hide NeedsConfirmation;
    hide ConfirmedBy;
    hide PassesGate;
    CallTakesOneConfirmation(a, name, arguments, now, reply);
    CallSends(a, name, arguments, now, reply);
    NeedsPassesGate(a, name, now);
    var after := Call(a, name, arguments, now, reply).agg.confirmations;
    forall c ensures multiset(after) + multiset{c} == multiset(a.confirmations) ==> after != a.confirmations {
      if after == a.confirmations {
        assert (multiset(after) + multiset{c})[c] == multiset(after)[c] + 1;
      }
    }
  }

  lemma NeedsPassesGate(a: Agg, name: string, now: u64)
    ensures NeedsConfirmation(a, name, now) ==> PassesGate(a, name, now) && SplitOnce(name).Some?
  {
    hide ResolveExposure;
  }

  /** Approving an action adds one confirmation of it at `now`, keeps every usable confirmation as often as it
      was held, and drops exactly the expired ones. */
  lemma ApprovalAddsOne(a: Agg, server: string, tool: string, now: u64, c: Confirmation)
    ensures multiset(ApproveAction(a, server, tool, now).confirmations)[c] ==
            (if now <= c.approvedAt + 30 then multiset(a.confirmations)[c] else 0)
            + (if c == Confirmation(server, tool, now) then 1 else 0)
  {
    RetainCounts(a.confirmations, UsableAt(now), c);
  }
}
