/** The aggregator as an object: its methods update slots, children, definitions and confirmations in place, and
    each is proved equal to the corresponding operation on values. */
module ToolAggregators {
  import opened Base
  import opened Names
  import opened Manifest
  import opened Policy
  import opened Broker
  import opened Aggregator
  import opened Handlers

  lemma BuiltFromParts(a: Agg, manifest: seq<ServerManifest>, outcomes: seq<SpawnOutcome>)
    requires |outcomes| == |manifest| == |a.servers| && a.manifest == manifest && a.confirmations == []
    requires forall i :: 0 <= i < |manifest| ==> NAMESPACE_SEP !in manifest[i].id
    requires forall i :: 0 <= i < |manifest| ==> a.servers[i] == BuiltSlot(manifest[i], outcomes[i])
    requires BuiltToolDefs(manifest, outcomes, |manifest|, a.toolDefs)
             && BuiltChildren(manifest, outcomes, |manifest|, a.children)
    ensures Built(a, manifest, outcomes)
  {
  }

  lemma PartsExtend(manifest: seq<ServerManifest>, outcomes: seq<SpawnOutcome>, n: nat)
    requires n < |manifest| == |outcomes|
    ensures DefsFor(manifest, outcomes, n + 1) ==
            DefsFor(manifest, outcomes, n)[manifest[n].id := BuiltDefs(outcomes[n])]
    ensures HandlesFor(manifest, outcomes, n + 1) ==
            match outcomes[n]
            case Ok(child) => HandlesFor(manifest, outcomes, n)[manifest[n].id := child.handle]
            case Err(_) => HandlesFor(manifest, outcomes, n)
  {
  }

  class ToolAggregator {
    const manifest: seq<ServerManifest>
    const state: BrokerState
    var children: map<string, Handle>
    var toolDefs: map<string, map<string, Definition>>
    var confirmations: seq<Confirmation>

    ghost predicate Valid() {
      state.Valid()
    }

    ghost function View(): Agg
      reads this, state.servers
    {
      Agg(manifest, state.View(), children, toolDefs, confirmations)
    }

    constructor FromParts(manifest: seq<ServerManifest>, state: BrokerState, children: map<string, Handle>,
                          toolDefs: map<string, map<string, Definition>>)
      requires state.Valid()
      ensures Valid() && this.state == state
      ensures View() == Agg(manifest, state.View(), children, toolDefs, [])
    {
      this.manifest, this.state, this.children, this.toolDefs, this.confirmations := manifest, state, children,
        toolDefs, [];
    }

    /** A server's first slot: running with its classified tools, or stopped and empty if its child failed. */
    static method NewSlot(server: ServerManifest, outcome: SpawnOutcome) returns (slot: ServerSlot)
      ensures fresh(slot) && slot.id == server.id && slot.View() == BuiltSlot(server, outcome)
    {
      var advertised := if outcome.Ok? then NamesOf(outcome.value.listing) else [];
      slot := new ServerSlot.NewRunning(server.id, ClassifyAdvertised(server.tools, advertised));
      if outcome.Err? {
        slot.SetState(Stopped);
      }
    }

    /** These are the first slots of the first `|slots|` servers, as separate objects. */
    static ghost predicate FirstSlots(manifest: seq<ServerManifest>, outcomes: seq<SpawnOutcome>,
                                      slots: seq<ServerSlot>)
      requires |outcomes| == |manifest|
      reads slots
    {
      && |slots| <= |manifest| && BrokerState.Separate(slots)
      && forall i :: 0 <= i < |slots| ==> slots[i].View() == BuiltSlot(manifest[i], outcomes[i])
    }

    static lemma FirstSlotsExtend(manifest: seq<ServerManifest>, outcomes: seq<SpawnOutcome>, slots: seq<ServerSlot>,
                                  slot: ServerSlot)
      requires |slots| < |manifest| == |outcomes| && slot !in slots
      requires FirstSlots(manifest, outcomes, slots) && slot.View() == BuiltSlot(manifest[|slots|], outcomes[|slots|])
      ensures FirstSlots(manifest, outcomes, slots + [slot])
    {
      hide BuiltSlot;
    }

    /** The loop of `build`: slots, definitions and child handles, server by server, up to the first server id
        that holds the separator, if there is one. */
    static method BuildParts(manifest: seq<ServerManifest>, outcomes: seq<SpawnOutcome>)
      returns (built: nat, slots: seq<ServerSlot>, toolDefs: map<string, map<string, Definition>>,
               children: map<string, Handle>)
      requires |outcomes| == |manifest|
      ensures built <= |manifest| && |slots| == built && fresh(slots) && FirstSlots(manifest, outcomes, slots)
      ensures forall i :: 0 <= i < built ==> NAMESPACE_SEP !in manifest[i].id
      ensures built < |manifest| ==> NAMESPACE_SEP in manifest[built].id
      ensures toolDefs == DefsFor(manifest, outcomes, built) && children == HandlesFor(manifest, outcomes, built)
    {
      built, slots, toolDefs, children := 0, [], map[], map[];
      assert FirstSlots(manifest, outcomes, slots);
      hide FirstSlots;
      hide BuiltSlot;
      hide BuiltDefs;
      while built < |manifest| && NAMESPACE_SEP !in manifest[built].id
        invariant built <= |manifest| && |slots| == built && fresh(slots) && FirstSlots(manifest, outcomes, slots)
        invariant forall i :: 0 <= i < built ==> NAMESPACE_SEP !in manifest[i].id
        invariant toolDefs == DefsFor(manifest, outcomes, built) && children == HandlesFor(manifest, outcomes, built)
      {
        PartsExtend(manifest, outcomes, built);
        hide DefsFor;
        hide HandlesFor;
        var server, outcome := manifest[built], outcomes[built];
        var slot := NewSlot(server, outcome);
        FirstSlotsExtend(manifest, outcomes, slots, slot);
        slots := slots + [slot];
        toolDefs := toolDefs[server.id := BuiltDefs(outcome)];
        if outcome.Ok? {
          children := children[server.id := outcome.value.handle];
        }
        built := built + 1;
      }
    }

    /** `build`: fails on the first server id that holds the separator; otherwise every server gets a slot, and
        one whose child does not come up gets a stopped one. */
    static method Build(manifest: seq<ServerManifest>, outcomes: seq<SpawnOutcome>)
      returns (r: Result<ToolAggregator, AggregatorError>)
      requires DistinctIds(manifest) && |outcomes| == |manifest|
      ensures r.Err? <==> exists i :: 0 <= i < |manifest| && NAMESPACE_SEP in manifest[i].id
      ensures r.Err? ==> exists i :: 0 <= i < |manifest| && r.error == InvalidServerId(manifest[i].id)
                                     && NAMESPACE_SEP in manifest[i].id
                                     && forall j :: 0 <= j < i ==> NAMESPACE_SEP !in manifest[j].id
      ensures r.Ok? ==> fresh(r.value) && fresh(r.value.state.servers)
      ensures r.Ok? ==> r.value.Valid() && Built(r.value.View(), manifest, outcomes)
    {
      var built, slots, toolDefs, children := BuildParts(manifest, outcomes);
      if built < |manifest| {
        return Err(InvalidServerId(manifest[built].id));
      }
      hide BuiltToolDefs;
      hide BuiltChildren;
      hide BuiltSlot;
      hide Built;
      hide DefsFor;
      hide HandlesFor;
      DefsForBuilt(manifest, outcomes, built);
      HandlesForBuilt(manifest, outcomes, built);
      var state := new BrokerState.ColdStart(slots);
      var aggregator := new ToolAggregator.FromParts(manifest, state, children, toolDefs);
      BuiltFromParts(aggregator.View(), manifest, outcomes);
      return Ok(aggregator);
    }

    method ToolClass(server: string, tool: string) returns (cls: Option<ToolClass>)
      requires Valid()
      ensures cls == match SlotOf(View().servers, server) case None => None case Some(slot) => ClassIn(slot.tools, tool)
    {
      var slot := state.Server(server);
      if slot == null {
        return None;
      }
      return ClassIn(slot.tools, tool);
    }

    method ApproveAction(server: string, tool: string, now: u64)
      requires Valid()
      modifies this
      ensures View() == Aggregator.ApproveAction(old(View()), server, tool, now)
    {
      confirmations := Retain(confirmations, UsableAt(now));
      confirmations := confirmations + [Confirmation(server, tool, now)];
    }

    method SetState(id: string, newState: ServerState) returns (r: Result<(), AggregatorError>)
      requires Valid()
      modifies state.servers
      ensures (View(), r) == Aggregator.SetState(old(View()), id, newState)
    {
      var slot := state.Server(id);
      if slot == null {
        return Err(UnknownServer(id));
      }
      slot.SetState(newState);
      state.SlotChanged(slot);
      return Ok(());
    }

    method Pause(id: string) returns (r: Result<(), AggregatorError>)
      requires Valid()
      modifies state.servers
      ensures (View(), r) == Aggregator.SetState(old(View()), id, Paused)
    {
      r := SetState(id, Paused);
    }

    method Resume(id: string) returns (r: Result<(), AggregatorError>)
      requires Valid()
      modifies state.servers
      ensures (View(), r) == Aggregator.SetState(old(View()), id, Running)
    {
      r := SetState(id, Running);
    }

    method Stop(id: string) returns (r: Result<(), AggregatorError>)
      requires Valid()
      modifies this, state.servers
      ensures (View(), r) == Aggregator.Stop(old(View()), id)
    {
      r := SetState(id, Stopped);
      if r.Err? {
        return;
      }
      children := children - {id};
    }

    /** Replace the tools of the slot with this id, if there is one. */
    method Reclassify(id: string, tools: seq<ClassifiedTool>)
      requires Valid()
      modifies state.servers
      ensures View() == old(View()).(servers := match SlotOf(old(View()).servers, id)
                                                case None => old(View()).servers
                                                case Some(slot) => PutSlot(old(View()).servers, slot.(tools := tools)))
    {
      var slot := state.Server(id);
      if slot != null {
        slot.SetTools(tools);
        state.SlotChanged(slot);
      }
    }

    method Start(id: string, spawn: SpawnOutcome) returns (r: Result<(), AggregatorError>)
      requires Valid()
      modifies this, state.servers
      ensures (View(), r) == Aggregator.Start(old(View()), id, spawn)
    {
      var server := FindServer(manifest, id);
      if server.None? {
        return Err(UnknownServer(id));
      }
      if id !in children {
        if spawn.Err? {
          return Err(Child(spawn.error));
        }
        var child := spawn.value;
        children := children[id := child.handle];
        toolDefs := toolDefs[id := DefsOf(child.listing)];
        Reclassify(id, ClassifyAdvertised(server.value.tools, NamesOf(child.listing)));
      }
      r := SetState(id, Running);
    }

    method AggregatedTools(now: u64) returns (out: seq<Definition>)
      requires Valid()
      ensures out == Aggregator.AggregatedTools(View(), now)
    {
      out := [];
      for i := 0 to |state.servers|
        invariant out == ListSlots(state.View()[..i], toolDefs, now)
      {
        var slot := state.servers[i];
        assert state.View()[..i + 1][..i] == state.View()[..i];
        if slot.id !in toolDefs {
          continue;
        }
        var defs := toolDefs[slot.id];
        var names := slot.Exposed(now);
        ghost var before := out;
        for j := 0 to |names|
          invariant out == before + ListSlot(defs, slot.id, names[..j])
        {
          assert names[..j + 1][..j] == names[..j];
          if names[j] in defs {
            out := out + [defs[names[j]]["name" := ExternalName(slot.id, names[j])]];
          }
        }
        assert names[..|names|] == names;
      }
      assert state.View()[..|state.servers|] == state.View();
    }

    /** `call`; `reply` is what the child answers if it is asked, and `sent` is the request it is handed. */
    method Call(name: string, arguments: Value, now: u64, reply: Result<Value, ChildError>)
      returns (r: Result<Value, AggregatorError>, sent: Option<Dispatch>)
      requires Valid()
      modifies this, state.servers
      ensures CallReport(View(), r, sent) == Aggregator.Call(old(View()), name, arguments, now, reply)
    {
      sent := None;
      var parts := SplitOnce(name);
      if parts.None? {
        return Err(UnknownTool(name)), None;
      }
      var (server, tool) := parts.value;
      var slot := state.Server(server);
      if slot == null {
        return Err(UnknownTool(name)), None;
      }
      var exposed := slot.Exposed(now);
      var cls := ClassIn(slot.tools, tool);
      if tool !in exposed {
        return Err(NotExposed(name)), None;
      }
      if cls.Some? && cls.value.RequiresPerActionPresence() {
        var position := Position(confirmations, Approves(server, tool, now));
        if position == |confirmations| {
          return Err(NotConfirmed(name)), None;
        }
        confirmations := SwapRemove(confirmations, position);
      }
      assert Ok(View()) == Admit(old(View()), name, now);
      if server !in children {
        return Err(UnknownTool(name)), None;
      }
      sent := Some(Dispatch(children[server], tool, arguments));
      match reply
      case Ok(value) => return Ok(value), sent;
      case Err(e) =>
        if e.IsFault() {
          FailServerClosed(server);
        }
        return Err(Child(e)), sent;
    }

    /** Stop exposing a server and drop its elevation. */
    method FailServerClosed(id: string)
      requires Valid()
      modifies state.servers
      ensures View() == old(View()).(servers := Aggregator.FailClosed(old(View()).servers, id))
    {
      var slot := state.Server(id);
      if slot != null {
        slot.SetState(Stopped);
        slot.FailClosed();
        state.SlotChanged(slot);
      }
    }

    /** `reap_exited_children`; `dead` are the servers whose child reports that it is no longer alive. */
    method ReapExitedChildren(dead: set<string>)
      requires Valid() && DistinctSlotIds(View().servers)
      modifies state.servers
      ensures View() == Reap(old(View()), dead)
    {
      hide SlotOf;
      hide Aggregator.FailClosed;
      ghost var servers := state.View();
      var todo := children.Keys;
      assert ReapSlots(servers, {}) == servers;
      while todo != {}
        invariant todo <= children.Keys
        invariant View() == old(View()).(servers := ReapSlots(servers, (children.Keys - todo) * dead))
      {
        var id :| id in todo;
        ghost var done := (children.Keys - todo) * dead;
        todo := todo - {id};
        if id in dead {
          FailServerClosed(id);
          ReapOneMore(servers, done, id);
        }
        assert (children.Keys - todo) * dead == if id in dead then done + {id} else done;
      }
      assert children.Keys - todo == children.Keys;
    }

    /** The handlers' path to a slot's elevation: grant one, or clear it. */
    method SetElevation(id: string, elevation: Option<Elevation>) returns (found: bool)
      requires Valid()
      modifies state.servers
      ensures found <==> SlotOf(old(View()).servers, id).Some?
      ensures View() == old(View()).(servers := match SlotOf(old(View()).servers, id)
                                                case None => old(View()).servers
                                                case Some(slot) => PutSlot(old(View()).servers,
                                                                           slot.(elevation := elevation)))
    {
      var slot := state.Server(id);
      if slot == null {
        return false;
      }
      if elevation.Some? {
        slot.GrantElevation(elevation.value);
      } else {
        slot.RevokeElevation();
      }
      state.SlotChanged(slot);
      return true;
    }

    method ExposureSnapshot(now: u64) returns (snapshot: map<string, seq<string>>)
      requires Valid()
      ensures snapshot == Snapshot(View().servers, now)
    {
      snapshot := state.ExposureSnapshot(now);
    }
  }
}
