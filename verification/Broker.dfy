/** In-memory broker state: one slot per supervised server, and the transitions over slots. */
module Broker {
  import opened Base
  import opened Manifest
  import opened Policy

  // ----- Slots as values -----

  datatype Slot = Slot(id: string, tools: seq<ClassifiedTool>, state: ServerState, elevation: Option<Elevation>) {
    function Exposed(now: u64): seq<string> {
      ResolveExposure(tools, state, elevation, now)
    }
  }

  /** Some tool of the slot is not a read tool. */
  ghost predicate HasGated(slot: Slot) {
    exists t :: t in slot.tools && t.cls != ToolClass.Read
  }

  /** The index of the first slot with this id, or `|slots|`. */
  function SlotIndex(slots: seq<Slot>, id: string): (i: nat)
    ensures i <= |slots|
    ensures i < |slots| ==> slots[i].id == id
    ensures forall j :: 0 <= j < i ==> slots[j].id != id
  {
    Position(slots, (s: Slot) => s.id == id)
  }

  function SlotOf(slots: seq<Slot>, id: string): Option<Slot> {
    var i := SlotIndex(slots, id);
    if i == |slots| then None else Some(slots[i])
  }

  /** Replace the first slot with `slot`'s id, if there is one. */
  function PutSlot(slots: seq<Slot>, slot: Slot): (r: seq<Slot>)
    ensures |r| == |slots|
    ensures forall i :: 0 <= i < |r| ==> r[i].id == slots[i].id
  {
    var i := SlotIndex(slots, slot.id);
    if i == |slots| then slots else slots[i := slot]
  }

  /** Replacing a slot changes what is found under its id and under no other. */
  lemma PutSlotFrame(slots: seq<Slot>, slot: Slot, id: string)
    ensures SlotOf(PutSlot(slots, slot), id) ==
            if id == slot.id && SlotOf(slots, id).Some? then Some(slot) else SlotOf(slots, id)
  {
    PositionUnique(PutSlot(slots, slot), (s: Slot) => s.id == id, SlotIndex(slots, id));
  }

  ghost predicate DistinctSlotIds(slots: seq<Slot>) {
    forall i, j :: 0 <= i < j < |slots| ==> slots[i].id != slots[j].id
  }

  lemma SlotAtIndex(slots: seq<Slot>, i: nat)
    requires DistinctSlotIds(slots) && i < |slots|
    ensures SlotOf(slots, slots[i].id) == Some(slots[i])
  {
  }

  /** `exposure_snapshot`: server id to sorted exposed names. */
  function Snapshot(slots: seq<Slot>, now: u64): map<string, seq<string>> {
    if slots == [] then map[]
    else
      var last := slots[|slots| - 1];
      Snapshot(slots[..|slots| - 1], now)[last.id := last.Exposed(now)]
  }

  lemma {:induction false} SnapshotEntries(slots: seq<Slot>, now: u64)
    requires DistinctSlotIds(slots)
    ensures forall id :: id in Snapshot(slots, now) <==> SlotOf(slots, id).Some?
    ensures forall id :: id in Snapshot(slots, now) ==> Snapshot(slots, now)[id] == SlotOf(slots, id).value.Exposed(now)
  {
    if slots != [] {
      var front, last := slots[..|slots| - 1], slots[|slots| - 1];
      SnapshotEntries(front, now);
      forall id ensures SlotOf(slots, id) == if id == last.id then Some(last) else SlotOf(front, id) {
        var i := if id == last.id then |slots| - 1 else if SlotIndex(front, id) == |front| then |slots|
          else SlotIndex(front, id);
        PositionUnique(slots, (s: Slot) => s.id == id, i);
      }
    }
  }

  // ----- Slots and broker state as objects -----

  class ServerSlot {
    const id: string
    var tools: seq<ClassifiedTool>
    var state: ServerState
    var elevation: Option<Elevation>

    ghost function View(): Slot
      reads this
    {
      Slot(id, tools, state, elevation)
    }

    constructor NewRunning(id: string, tools: seq<ClassifiedTool>)
      ensures View() == Slot(id, tools, Running, None)
    {
      this.id, this.tools, this.state, this.elevation := id, tools, Running, None;
    }

    method Exposed(now: u64) returns (names: seq<string>)
      ensures names == View().Exposed(now)
    {
      names := ResolveExposure(tools, state, elevation, now);
    }

    method SetTools(tools: seq<ClassifiedTool>)
      modifies this
      ensures View() == old(View()).(tools := tools)
    {
      this.tools := tools;
    }

    method SetState(state: ServerState)
      modifies this
      ensures View() == old(View()).(state := state)
    {
      this.state := state;
    }

    method GrantElevation(elevation: Elevation)
      modifies this
      ensures View() == old(View()).(elevation := Some(elevation))
    {
      this.elevation := Some(elevation);
    }

    method RevokeElevation()
      modifies this
      ensures View() == old(View()).(elevation := None)
    {
      elevation := None;
    }

    method FailClosed()
      modifies this
      ensures View() == old(View()).(elevation := None)
    {
      elevation := None;
    }
  }

  class BrokerState {
    const servers: seq<ServerSlot>

    /** No two positions hold the same slot object. */
    ghost predicate Valid() {
      Separate(servers)
    }

    static ghost predicate Separate(slots: seq<ServerSlot>) {
      forall i, j :: 0 <= i < j < |slots| ==> slots[i] != slots[j]
    }

    ghost function View(): (v: seq<Slot>)
      reads servers
      ensures |v| == |servers|
      ensures forall i :: 0 <= i < |v| ==> v[i] == servers[i].View()
    {
      seq(|servers|, i requires 0 <= i < |servers| reads servers => servers[i].View())
    }

    constructor ColdStart(servers: seq<ServerSlot>)
      requires Separate(servers)
      ensures Valid() && this.servers == servers
    {
      this.servers := servers;
    }

    /** `server` and `server_mut`: the first slot with this id. */
    method Server(id: string) returns (slot: ServerSlot?)
      requires Valid()
      ensures slot == null <==> SlotOf(View(), id).None?
      ensures slot != null ==> SlotIndex(View(), id) < |servers| && slot == servers[SlotIndex(View(), id)]
      ensures slot != null ==> SlotOf(View(), id) == Some(slot.View()) && slot.id == id
    {
      for i := 0 to |servers|
        invariant forall j :: 0 <= j < i ==> servers[j].id != id
      {
        if servers[i].id == id {
          PositionUnique(View(), (s: Slot) => s.id == id, i);
          return servers[i];
        }
      }
      PositionUnique(View(), (s: Slot) => s.id == id, |servers|);
      return null;
    }

    /** Changing only the slot found for an id is the value-level replacement. */
    twostate lemma SlotChanged(slot: ServerSlot)
      requires Valid()
      requires old(SlotIndex(View(), slot.id)) < |servers| && slot == servers[old(SlotIndex(View(), slot.id))]
      requires forall s :: s in servers && s != slot ==> s.View() == old(s.View())
      ensures View() == PutSlot(old(View()), slot.View())
    {
    }

    method ExposureSnapshot(now: u64) returns (snapshot: map<string, seq<string>>)
      ensures snapshot == Snapshot(View(), now)
    {
      snapshot := map[];
      for i := 0 to |servers|
        invariant snapshot == Snapshot(View()[..i], now)
      {
        var names := servers[i].Exposed(now);
        snapshot := snapshot[servers[i].id := names];
        assert View()[..i + 1][..i] == View()[..i];
      }
      assert View()[..|servers|] == View();
    }
  }
}
