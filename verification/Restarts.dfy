/** Coming up read-only: what a cold start guarantees, what `start` and `resume` guarantee, and what they do not. */
module Restarts {
  import opened Base
  import opened Names
  import opened Manifest
  import opened Policy
  import opened Broker
  import opened Aggregator
  import opened Handlers

  /** Only tools that the operator classed as read are exposed by this server at `now`. */
  ghost predicate ReadOnly(a: Agg, id: string, now: u64)
    requires FindServer(a.manifest, id).Some? && SlotOf(a.servers, id).Some?
  {
    forall tool :: tool in SlotOf(a.servers, id).value.Exposed(now) ==>
      ClassOf(FindServer(a.manifest, id).value.tools, tool) == ToolClass.Read
  }

  lemma ReadOnlyUnlessElevated(a: Agg, id: string, now: u64)
    requires Inv(a) && SlotOf(a.servers, id).Some?
    ensures FindServer(a.manifest, id).Some?
    ensures var slot := SlotOf(a.servers, id).value;
            ReadOnly(a, id, now) <==> !(slot.state == Running && ActiveAt(slot.elevation, now) && HasGated(slot))
  {
    var slot := SlotOf(a.servers, id).value;
    ClassIsOperators(a, id, "");
    var declared := FindServer(a.manifest, id).value.tools;
    forall t | t in slot.tools ensures t.cls == ClassOf(declared, t.name) {
      ClassIsOperators(a, id, t.name);
    }
    hide Inv;
    forall tool
      ensures tool in slot.Exposed(now) <==>
              slot.state == Running
              && exists t :: t in slot.tools && t.name == tool
                             && (t.cls == ToolClass.Read || ActiveAt(slot.elevation, now))
    {
      ExposureRule(slot.tools, slot.state, slot.elevation, now, tool);
    }
    if slot.state == Running && ActiveAt(slot.elevation, now) && HasGated(slot) {
      var t :| t in slot.tools && t.cls != ToolClass.Read;
      assert t.name in slot.Exposed(now);
    }
  }

  /** A cold start is read-only: every server of a freshly built broker exposes only read tools, at every
      reading. */
  lemma ColdStartIsReadOnly(a: Agg, manifest: seq<ServerManifest>, outcomes: seq<SpawnOutcome>, id: string, now: u64)
    requires DistinctIds(manifest) && Built(a, manifest, outcomes) && SlotOf(a.servers, id).Some?
    ensures FindServer(a.manifest, id).Some? && ReadOnly(a, id, now)
  {
    BuildEstablishesInv(a, manifest, outcomes);
    ReadOnlyUnlessElevated(a, id, now);
  }

  /** What a successful `start` leaves in the slot: the server runs, its elevation is what it was, and its tools
      are those of the fresh listing if a child had to be spawned. */
  lemma StartedSlot(a: Agg, id: string, spawn: SpawnOutcome)
    requires Inv(a) && Start(a, id, spawn).1.Ok?
    ensures FindServer(a.manifest, id).Some? && SlotOf(a.servers, id).Some?
    ensures SlotOf(Start(a, id, spawn).0.servers, id) ==
            Some(SlotOf(a.servers, id).value.(
                   state := Running,
                   tools := if id !in a.children && spawn.Ok? then
                              ClassifyAdvertised(FindServer(a.manifest, id).value.tools, NamesOf(spawn.value.listing))
                            else SlotOf(a.servers, id).value.tools))
  {
    InvSlots(a);
    var slot := SlotOf(a.servers, id).value;
    PutSlotFrame(a.servers, slot.(state := Running), id);
    if id !in a.children && spawn.Ok? {
      var server := FindServer(a.manifest, id).value;
      var installed := Install(a, server, id, spawn.value);
      var tools := ClassifyAdvertised(server.tools, NamesOf(spawn.value.listing));
      PutSlotFrame(a.servers, slot.(tools := tools), id);
      PutSlotFrame(installed.servers, slot.(tools := tools, state := Running), id);
    }
  }

  /** The tools a server will come up with: those it has while a child is held, and else the fresh listing as the
      operator classifies it. */
  function StartingTools(a: Agg, id: string, listing: seq<ToolDef>): seq<ClassifiedTool>
    requires FindServer(a.manifest, id).Some? && SlotOf(a.servers, id).Some?
  {
    if id in a.children then SlotOf(a.servers, id).value.tools
    else ClassifyAdvertised(FindServer(a.manifest, id).value.tools, NamesOf(listing))
  }

  /** `start` with a child that advertises `listing`, if one has to be spawned, leaves the server read-only. */
  ghost predicate StartsReadOnly(a: Agg, id: string, handle: Handle, listing: seq<ToolDef>, now: u64)
    requires Inv(a) && FindServer(a.manifest, id).Some?
  {
    var spawn := Ok(Spawned(handle, listing));
    StartFailsOnlyOnSpawn(a, id, spawn);
    StartedSlot(a, id, spawn);
    ReadOnly(Start(a, id, spawn).0, id, now)
  }

  /** `start` brings a server up read-only exactly when no elevation granted before is open at the reading, or
      the tools it will come up with are all read tools; it neither clears an elevation nor grants one. */
  lemma StartIsReadOnlyExactlyWhen(a: Agg, id: string, handle: Handle, listing: seq<ToolDef>, now: u64)
    requires Inv(a) && FindServer(a.manifest, id).Some?
    ensures SlotOf(a.servers, id).Some?
    ensures StartsReadOnly(a, id, handle, listing, now) <==>
            !ActiveAt(SlotOf(a.servers, id).value.elevation, now)
            || forall t :: t in StartingTools(a, id, listing) ==> t.cls == ToolClass.Read
  {
    var spawn: SpawnOutcome := Ok(Spawned(handle, listing));
    StartFailsOnlyOnSpawn(a, id, spawn);
    StartedSlot(a, id, spawn);
    StartKeepsInv(a, id, spawn);
    hide Inv;
    hide Start;
    hide ReadOnly;
    ReadOnlyUnlessElevated(Start(a, id, spawn).0, id, now);
  }

  /** Some name is not among finitely many. */
  lemma {:induction false} UnusedName(names: set<string>) returns (name: string, bound: nat)
    ensures name !in names && |name| == bound && forall n :: n in names ==> |n| < bound
    decreases |names|
  {
    if names == {} {
      name, bound := "", 0;
    } else {
      var n :| n in names;
      name, bound := UnusedName(names - {n});
      bound := if |n| < bound then bound else |n| + 1;
      name := seq(bound, _ => 'x');
      forall m | m in names ensures |m| < bound {
        if m != n { assert m in names - {n}; }
      }
      assert |name| == bound;
    }
  }

  /** Where no child is held, `start` comes up read-only whatever the new child advertises exactly when no elevation
      is open at the reading. */
  lemma StartIsReadOnlyForEveryListing(a: Agg, id: string, now: u64)
    requires Inv(a) && FindServer(a.manifest, id).Some? && id !in a.children
    ensures SlotOf(a.servers, id).Some?
    ensures (forall handle, listing :: StartsReadOnly(a, id, handle, listing, now)) <==>
            !ActiveAt(SlotOf(a.servers, id).value.elevation, now)
  {
    StartIsReadOnlyExactlyWhen(a, id, 0, [], now);
    if ActiveAt(SlotOf(a.servers, id).value.elevation, now) {
      var name, _ := UnusedName(FindServer(a.manifest, id).value.tools.Keys);
      var listing := [ToolDef(name, map[])];
      StartIsReadOnlyExactlyWhen(a, id, 0, listing, now);
      assert StartingTools(a, id, listing)[0] in StartingTools(a, id, listing);
      assert !StartsReadOnly(a, id, 0, listing, now);
    } else {
      forall handle, listing ensures StartsReadOnly(a, id, handle, listing, now) {
        StartIsReadOnlyExactlyWhen(a, id, handle, listing, now);
      }
    }
  }

  /** `resume` of a known server sets it running from any state, with or without a child, and leaves the elevation: it
      leaves the server read-only exactly when no elevation held is open at the reading, or all its tools are read
      tools. */
  lemma ResumeIsReadOnlyExactlyWhen(a: Agg, id: string, now: u64)
    requires Inv(a) && SlotOf(a.servers, id).Some?
    ensures SetState(a, id, Running).1.Ok? && FindServer(SetState(a, id, Running).0.manifest, id).Some?
    ensures var (slot, a') := (SlotOf(a.servers, id).value, SetState(a, id, Running).0);
            && SlotOf(a'.servers, id) == Some(slot.(state := Running))
            && (ReadOnly(a', id, now) <==> !ActiveAt(slot.elevation, now) || !HasGated(slot))
  {
    hide ReadOnly;
    hide Inv;
    var slot := SlotOf(a.servers, id).value;
    PutSlotFrame(a.servers, slot.(state := Running), id);
    SetStateKeepsInv(a, id, Running);
    ReadOnlyUnlessElevated(SetState(a, id, Running).0, id, now);
  }
}
