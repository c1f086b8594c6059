/** The critical sections of the two request handlers, as functions of the aggregator state. Each runs under the
    aggregator's lock with a clock reading taken before the lock. */
module Handlers {
  import opened Base
  import opened Names
  import opened Manifest
  import opened Policy
  import opened Broker
  import opened Aggregator
  import opened Audit

  datatype LifecycleOp = StartServer | StopServer | PauseServer | ResumeServer

  function Target(op: LifecycleOp): ServerState {
    match op
    case StartServer => Running
    case StopServer => Stopped
    case PauseServer => Paused
    case ResumeServer => Running
  }

  /** A section's effect: the new state, whether the operation succeeded, and whether a `tools/list_changed`
      notification is now owed. */
  datatype Section = Section(agg: Agg, result: Result<(), AggregatorError>, changed: bool)

  function RunOp(a: Agg, op: LifecycleOp, id: string, spawn: SpawnOutcome): (Agg, Result<(), AggregatorError>) {
    match op
    case StartServer => Start(a, id, spawn)
    case StopServer => Stop(a, id)
    case PauseServer => SetState(a, id, Paused)
    case ResumeServer => SetState(a, id, Running)
  }

  function Lifecycle(a: Agg, op: LifecycleOp, id: string, now: u64, spawn: SpawnOutcome): Section {
    var (a', result) := RunOp(a, op, id, spawn);
    Section(a', result, result.Ok? && Snapshot(a'.servers, now) != Snapshot(a.servers, now))
  }

  /** Set or clear a server's elevation: the sections of `apply_elevation` and `revoke`. */
  function SetElevation(a: Agg, id: string, elevation: Option<Elevation>, now: u64): Section {
    match SlotOf(a.servers, id)
    case None => Section(a, Err(UnknownServer(id)), false)
    case Some(slot) =>
      var a' := a.(servers := PutSlot(a.servers, slot.(elevation := elevation)));
      Section(a', Ok(()), Snapshot(a'.servers, now) != Snapshot(a.servers, now))
  }

  function ModeName(elevation: Elevation): string {
    match elevation.Mode()
    case Duration => "duration"
    case UntilRevoked => "until_revoked"
  }

  /** The class of the tool an aggregated name stands for, as `tool_class` finds it. */
  function ToolClassOf(a: Agg, name: string): Option<ToolClass> {
    var (server, tool) :- SplitOnce(name);
    var slot :- SlotOf(a.servers, server);
    ClassIn(slot.tools, tool)
  }

  /** What `handle_tools_call` records, from the class it read before the call and the call's result. */
  function CallAudit(name: string, cls: Option<ToolClass>, result: Result<Value, AggregatorError>): Option<AuditEvent> {
    match result
    case Ok(_) =>
      if cls.Some? && cls.value.RequiresElevation() then
        var (server, tool) :- SplitOnce(name);
        Some(WriteToolInvoked(server, tool))
      else None
    case Err(NotConfirmed(_)) =>
      var (server, tool) :- SplitOnce(name);
      Some(ConfirmRejected(server, tool))
    case Err(_) => None
  }

  // ----- Notifications -----

  /** Some server's exposed names, counted with repetition, differ between the two states. */
  ghost predicate ExposureDiffers(before: Agg, after: Agg, now: u64) {
    exists id :: SlotOf(before.servers, id).Some? && SlotOf(after.servers, id).Some?
                 && multiset(SlotOf(before.servers, id).value.Exposed(now)) !=
                    multiset(SlotOf(after.servers, id).value.Exposed(now))
  }

  lemma SameNamesSameList(s: Slot, t: Slot, now: u64)
    ensures s.Exposed(now) == t.Exposed(now) <==> multiset(s.Exposed(now)) == multiset(t.Exposed(now))
  {
    var v, w := Visible(s.tools, ActiveAt(s.elevation, now)), Visible(t.tools, ActiveAt(t.elevation, now));
    SortCanonical(v, w);
    SortCorrect(v);
    SortCorrect(w);
    if s.state != Running || t.state != Running {
      assert multiset(s.Exposed(now)) == multiset(t.Exposed(now)) ==> |s.Exposed(now)| == |t.Exposed(now)| by {
        assert |multiset(s.Exposed(now))| == |s.Exposed(now)| && |multiset(t.Exposed(now))| == |t.Exposed(now)|;
      }
    }
  }

  lemma EqualSnapshots(before: seq<Slot>, after: seq<Slot>, now: u64)
    requires DistinctSlotIds(before) && DistinctSlotIds(after)
    requires forall id :: SlotOf(before, id).Some? <==> SlotOf(after, id).Some?
    ensures Snapshot(after, now) == Snapshot(before, now) <==>
            forall id :: SlotOf(before, id).Some? ==>
                           SlotOf(before, id).value.Exposed(now) == SlotOf(after, id).value.Exposed(now)
  {
    SnapshotEntries(before, now);
    SnapshotEntries(after, now);
    var b, a := Snapshot(before, now), Snapshot(after, now);
    if forall id :: SlotOf(before, id).Some? ==>
       SlotOf(before, id).value.Exposed(now) == SlotOf(after, id).value.Exposed(now) {
      forall id | id in b ensures id in a && a[id] == b[id] { }
    } else {
      var id :| SlotOf(before, id).Some?
        && SlotOf(before, id).value.Exposed(now) != SlotOf(after, id).value.Exposed(now);
      assert id in a && id in b && a[id] != b[id];
    }
  }

  /** Comparing snapshots detects exactly the changes in what some server exposes. */
  lemma SnapshotsDetectChange(before: Agg, after: Agg, now: u64)
    requires Inv(before) && Inv(after) && before.manifest == after.manifest
    ensures Snapshot(after.servers, now) != Snapshot(before.servers, now) <==> ExposureDiffers(before, after, now)
  {
    InvSlots(before);
    InvSlots(after);
    EqualSnapshots(before.servers, after.servers, now);
    forall id | SlotOf(before.servers, id).Some?
      ensures SlotOf(before.servers, id).value.Exposed(now) == SlotOf(after.servers, id).value.Exposed(now) <==>
              multiset(SlotOf(before.servers, id).value.Exposed(now)) ==
                multiset(SlotOf(after.servers, id).value.Exposed(now))
    {
      SameNamesSameList(SlotOf(before.servers, id).value, SlotOf(after.servers, id).value, now);
    }
  }

  lemma RunOpKeepsInv(a: Agg, op: LifecycleOp, id: string, spawn: SpawnOutcome)
    requires Inv(a)
    ensures Inv(RunOp(a, op, id, spawn).0) && RunOp(a, op, id, spawn).0.manifest == a.manifest
    ensures RunOp(a, op, id, spawn).1.Err? ==> RunOp(a, op, id, spawn).0 == a
  {
    match op
    case StartServer => StartKeepsInv(a, id, spawn);
    case StopServer => StopKeepsInv(a, id);
    case PauseServer => SetStateKeepsInv(a, id, Paused);
    case ResumeServer => SetStateKeepsInv(a, id, Running);
  }

  lemma SetElevationKeepsInv(a: Agg, id: string, elevation: Option<Elevation>, now: u64)
    requires Inv(a)
    ensures Inv(SetElevation(a, id, elevation, now).agg)
            && SetElevation(a, id, elevation, now).agg.manifest == a.manifest
  {
    match SlotOf(a.servers, id)
    case None =>
    case Some(slot) => PutKeepsInv(a, slot, slot.(elevation := elevation));
  }

  /** A lifecycle command owes a notification exactly when it changes what some server exposes at its
      reading. A failed command changes nothing at all, so requiring success loses no notification. */
  lemma LifecycleNotifiesExactly(a: Agg, op: LifecycleOp, id: string, now: u64, spawn: SpawnOutcome)
    requires Inv(a)
    ensures var s := Lifecycle(a, op, id, now, spawn);
            && (s.changed <==> ExposureDiffers(a, s.agg, now))
            && (s.result.Err? ==> s.agg == a)
  {
    RunOpKeepsInv(a, op, id, spawn);
    SnapshotsDetectChange(a, RunOp(a, op, id, spawn).0, now);
  }

  /** A grant or a revocation owes a notification exactly when it changes what some server exposes. */
  lemma SetElevationNotifiesExactly(a: Agg, id: string, elevation: Option<Elevation>, now: u64)
    requires Inv(a)
    ensures var s := SetElevation(a, id, elevation, now);
            && (s.changed <==> ExposureDiffers(a, s.agg, now))
            && (s.result.Err? ==> s.agg == a)
  {
    SetElevationKeepsInv(a, id, elevation, now);
    SnapshotsDetectChange(a, SetElevation(a, id, elevation, now).agg, now);
  }

  /** Why a lifecycle command fails: as unknown exactly for an id without a slot; a `start` besides with the very error
      of a spawn that was needed; and not otherwise. */
  lemma LifecycleErrors(a: Agg, op: LifecycleOp, id: string, spawn: SpawnOutcome)
    requires Inv(a)
    ensures var r := RunOp(a, op, id, spawn).1;
            && (r == Err(UnknownServer(id)) <==> SlotOf(a.servers, id).None?)
            && (forall e :: r == Err(Child(e)) <==>
                  SlotOf(a.servers, id).Some? && op == StartServer && id !in a.children && spawn == Err(e))
            && (r.Ok? || r.error == UnknownServer(id) || r.error.Child?)
  {
    hide DefsOf;
    hide ClassifyAdvertised;
    InvSlots(a);
    StartFailsOnlyOnSpawn(a, id, spawn);
    if op.StartServer? && FindServer(a.manifest, id).Some? && id !in a.children && spawn.Ok? {
      InstallKeepsInv(a, id, spawn.value);
    }
    hide Inv;
  }

  /** `start` of a server in the manifest fails only when a child must be spawned and does not come up. */
  lemma StartFailsOnlyOnSpawn(a: Agg, id: string, spawn: SpawnOutcome)
    requires Inv(a)
    ensures Start(a, id, spawn).1.Err? <==>
            FindServer(a.manifest, id).None? || (id !in a.children && spawn.Err?)
  {
    InvSlots(a);
    if FindServer(a.manifest, id).Some? && id !in a.children && spawn.Ok? {
      InstallKeepsInv(a, id, spawn.value);
      InvSlots(Install(a, FindServer(a.manifest, id).value, id, spawn.value));
    }
  }
}
