/** What `tools/list` says: each exposed tool's own definition, as its child last gave it, under the joined name. */
module Listings {
  import opened Base
  import opened Names
  import opened Manifest
  import opened Policy
  import opened Broker
  import opened Aggregator
  import opened Handlers
  import opened Nonces
  import opened Runs
  import opened History

  // ----- One listing -----

  /** The exposed tools, slot by slot and in exposure order, each with the place of its slot. */
  function Entries(servers: seq<Slot>, now: u64): seq<(nat, string)> {
    if servers == [] then []
    else
      var last := |servers| - 1;
      var names := servers[last].Exposed(now);
      Entries(servers[..last], now) + seq(|names|, j requires 0 <= j < |names| => (last, names[j]))
  }

  /** The definition with its name replaced and every other member kept. */
  ghost predicate RenamedFrom(d: Definition, stored: Definition, name: string) {
    && d.Keys == stored.Keys + {"name"} && d["name"] == name
    && forall key :: key in stored && key != "name" ==> d[key] == stored[key]
  }

  lemma {:induction false} SlotEntries(defs: map<string, Definition>, id: string, names: seq<string>)
    requires forall n :: n in names ==> n in defs
    ensures |ListSlot(defs, id, names)| == |names|
    ensures forall j :: 0 <= j < |names| ==>
              RenamedFrom(ListSlot(defs, id, names)[j], defs[names[j]], id + "." + names[j])
  {
    if names != [] {
      var front, last := names[..|names| - 1], names[|names| - 1];
      SlotEntries(defs, id, front);
      assert ExternalName(id, last) == id + "." + last;
    }
  }

  lemma {:induction false} EntriesInRange(servers: seq<Slot>, now: u64, n: nat)
    requires n < |Entries(servers, now)|
    ensures var (i, tool) := Entries(servers, now)[n]; i < |servers| && tool in servers[i].Exposed(now)
  {
    hide ResolveExposure;
    var last := |servers| - 1;
    var front, names := Entries(servers[..last], now), servers[last].Exposed(now);
    if n < |front| {
      EntriesInRange(servers[..last], now, n);
      assert Entries(servers, now)[n] == front[n];
      assert servers[..last][front[n].0] == servers[front[n].0];
    } else {
      assert Entries(servers, now)[n] == (last, names[n - |front|]);
    }
  }

  /** Every exposed tool of the first slots has a definition. */
  ghost predicate Defined(servers: seq<Slot>, toolDefs: map<string, map<string, Definition>>, now: u64) {
    forall i :: 0 <= i < |servers| ==>
      servers[i].id in toolDefs && forall tool :: tool in servers[i].Exposed(now) ==> tool in toolDefs[servers[i].id]
  }

  lemma {:induction false} SlotsEntries(servers: seq<Slot>, toolDefs: map<string, map<string, Definition>>, now: u64,
                                        n: nat)
    requires Defined(servers, toolDefs, now)
    ensures |ListSlots(servers, toolDefs, now)| == |Entries(servers, now)|
    ensures n < |Entries(servers, now)| ==>
              var (i, tool) := Entries(servers, now)[n];
              i < |servers| && tool in servers[i].Exposed(now)
              && RenamedFrom(ListSlots(servers, toolDefs, now)[n], toolDefs[servers[i].id][tool],
                             servers[i].id + "." + tool)
  {
    hide ResolveExposure;
    hide RenamedFrom;
    if servers != [] {
      var last := |servers| - 1;
      var front, slot := servers[..last], servers[last];
      SlotsEntries(front, toolDefs, now, n);
      SlotEntries(toolDefs[slot.id], slot.id, slot.Exposed(now));
      if n < |Entries(servers, now)| {
        EntriesInRange(servers, now, n);
        if n < |Entries(front, now)| {
          EntriesInRange(front, now, n);
          var i := Entries(front, now)[n].0;
          assert Entries(servers, now)[n] == Entries(front, now)[n] && front[i] == servers[i];
          assert ListSlots(servers, toolDefs, now)[n] == ListSlots(front, toolDefs, now)[n];
        } else {
          assert Entries(servers, now)[n] == (last, slot.Exposed(now)[n - |Entries(front, now)|]);
        }
      }
    }
  }

  lemma SlotDefined(a: Agg, i: nat)
    requires Inv(a) && i < |a.servers|
    ensures a.servers[i].id in a.toolDefs
  {
    hide SlotMatches;
  }

  lemma AllDefined(a: Agg, now: u64)
    requires Inv(a)
    ensures Defined(a.servers, a.toolDefs, now)
  {
    hide ResolveExposure;
    forall i | 0 <= i < |a.servers| ensures a.servers[i].id in a.toolDefs {
      SlotDefined(a, i);
    }
    forall i, tool | 0 <= i < |a.servers| && tool in a.servers[i].Exposed(now)
      ensures tool in a.toolDefs[a.servers[i].id] {
      ExposedHasDefinition(a, i, tool, now);
    }
  }

  /** The listing has one entry per exposed tool, slot by slot and in exposure order: the stored definition of that
      tool with `server.tool` for its name and every other member as it was. */
  lemma ListingIsFaithful(a: Agg, now: u64, n: nat)
    requires Inv(a)
    ensures |AggregatedTools(a, now)| == |Entries(a.servers, now)|
    ensures n < |AggregatedTools(a, now)| ==>
              var (i, tool) := Entries(a.servers, now)[n];
              && i < |a.servers| && tool in a.servers[i].Exposed(now)
              && a.servers[i].id in a.toolDefs && tool in a.toolDefs[a.servers[i].id]
              && RenamedFrom(AggregatedTools(a, now)[n], a.toolDefs[a.servers[i].id][tool],
                             a.servers[i].id + "." + tool)
  {
    hide ResolveExposure;
    hide RenamedFrom;
    hide Inv;
    hide Entries;
    AllDefined(a, now);
    SlotsEntries(a.servers, a.toolDefs, now, n);
    if n < |AggregatedTools(a, now)| {
      var (i, tool) := Entries(a.servers, now)[n];
      SlotDefined(a, i);
      ExposedHasDefinition(a, i, tool, now);
    }
  }

  // ----- Whose definitions -----

  /** What the child said that the server was last classified with; nothing if none came up. */
  function ListingAt(r: Run, k: nat, i: nat): seq<ToolDef>
    requires k <= |r.events| && i < |r.manifest| && |r.outcomes| == |r.manifest|
  {
    if k == 0 then if r.outcomes[i].Ok? then r.outcomes[i].value.listing else []
    else
      var e := r.events[k - 1];
      if Seen(r, k - 1) == Commanded(StartServer, r.manifest[i].id) && PastAt(r, k - 1, i).handle.None?
         && e.Command? && e.spawn.Ok? then
        e.spawn.value.listing
      else ListingAt(r, k - 1, i)
  }

  function DefsAt(a: Agg, id: string): Option<map<string, Definition>> {
    if id in a.toolDefs then Some(a.toolDefs[id]) else None
  }

  lemma StartDefs(a: Agg, id: string, spawn: SpawnOutcome, x: string)
    requires Inv(a)
    ensures var (a', r) := Start(a, id, spawn);
            DefsAt(a', x) == if r.Ok? && x == id && id !in a.children && spawn.Ok? then
                               Some(DefsOf(spawn.value.listing))
                             else DefsAt(a, x)
  {
    StartFailsOnlyOnSpawn(a, id, spawn);
    hide Inv;
    hide SlotOf;
    hide PutSlot;
    hide DefsOf;
    hide ClassifyAdvertised;
  }

  lemma CommandDefs(a: Agg, op: LifecycleOp, id: string, spawn: SpawnOutcome, x: string)
    requires Inv(a)
    ensures var (a', r) := RunOp(a, op, id, spawn);
            DefsAt(a', x) == if r.Ok? && op.StartServer? && x == id && id !in a.children && spawn.Ok? then
                               Some(DefsOf(spawn.value.listing))
                             else DefsAt(a, x)
  {
    hide Inv;
    hide Start;
    hide SlotOf;
    hide PutSlot;
    hide DefsOf;
    if op.StartServer? {
      StartDefs(a, id, spawn, x);
    }
  }

  /** Only a start that takes a new child changes a server's definitions. */
  lemma AggAfterDefs(auth: Authority, s: Sys, e: Event, x: string)
    requires Inv(s.agg)
    ensures DefsAt(AggAfter(s, e), x) ==
            if Observe(auth, s, e) == Commanded(StartServer, x) && x !in s.agg.children && e.Command?
               && e.spawn.Ok? then
              Some(DefsOf(e.spawn.value.listing))
            else DefsAt(s.agg, x)
  {
    hide Inv;
    hide RunOp;
    hide AfterAttempt;
    hide Snapshot;
    hide Admit;
    hide FailClosed;
    hide DefsOf;
    match e
    case Command(op, id, _, spawn) => CommandDefs(s.agg, op, id, spawn, x);
    case _ =>
  }

  lemma FirstDefs(r: Run, i: nat)
    requires Started(r) && i < |r.manifest|
    ensures |r.outcomes| == |r.manifest|
    ensures DefsAt(r.start.agg, r.manifest[i].id) ==
            Some(DefsOf(if r.outcomes[i].Ok? then r.outcomes[i].value.listing else []))
  {
    hide BuiltSlot;
    hide BuiltChildren;
  }

  lemma StepDefs(r: Run, k: nat, i: nat)
    requires Started(r) && k < |r.events| && i < |r.manifest|
    ensures |r.outcomes| == |r.manifest|
    ensures var id, e := r.manifest[i].id, r.events[k];
            DefsAt(At(r, k + 1).agg, id) ==
            if Seen(r, k) == Commanded(StartServer, id) && PastAt(r, k, i).handle.None? && e.Command?
               && e.spawn.Ok? then
              Some(DefsOf(e.spawn.value.listing))
            else DefsAt(At(r, k).agg, id)
  {
    hide At;
    hide Next;
    hide Started;
    hide Inv;
    hide AggAfter;
    hide Observe;
    hide PastAt;
    hide SlotOf;
    hide DefsOf;
    hide ResolveExposure;
    InvAlways(r, k);
    NextAgg(r.auth, At(r, k), r.events[k]);
    StepIsNext(r, k);
    SlotsFollowHistory(r, k, i, 0);
    OutcomePerServer(r);
    AggAfterDefs(r.auth, At(r, k), r.events[k], r.manifest[i].id);
  }

  /** At every point of every run, the stored definitions and the classified tools of a server are those of one and
      the same listing: the one its child gave when it was last taken. */
  lemma {:induction false} DefinitionsFollowListing(r: Run, k: nat, i: nat)
    requires Started(r) && k <= |r.events| && i < |r.manifest|
    ensures |r.outcomes| == |r.manifest|
    ensures DefsAt(At(r, k).agg, r.manifest[i].id) == Some(DefsOf(ListingAt(r, k, i)))
    ensures PastAt(r, k, i).tools == ClassifyAdvertised(r.manifest[i].tools, NamesOf(ListingAt(r, k, i)))
  {
    hide At;
    hide Started;
    hide Seen;
    hide DefsOf;
    hide DefsAt;
    hide ClassifyAdvertised;
    hide NamesOf;
    OutcomePerServer(r);
    if k == 0 {
      FirstDefs(r, i);
      FirstState(r);
      NothingClassified(r.manifest[i].tools);
    } else {
      DefinitionsFollowListing(r, k - 1, i);
      StepDefs(r, k - 1, i);
    }
  }

  lemma NothingClassified(declared: map<string, ToolClass>)
    ensures ClassifyAdvertised(declared, NamesOf([])) == []
  {
  }

  lemma SameIds(a: Agg, i: nat)
    requires Inv(a) && i < |a.servers|
    ensures i < |a.manifest| && a.servers[i].id == a.manifest[i].id
  {
    hide SlotMatches;
  }

  /** Each entry of a `tools/list` in a run is, renamed, the last definition of that name in what the server's child
      said when it was last taken. */
  lemma ListingShowsLastDefinitions(r: Run, k: nat, now: u64, n: nat) returns (i: nat, tool: string, j: nat)
    requires Started(r) && k <= |r.events| && n < |AggregatedTools(At(r, k).agg, now)|
    ensures |r.outcomes| == |r.manifest| && i < |r.manifest|
    ensures n < |Entries(At(r, k).agg.servers, now)| && (i, tool) == Entries(At(r, k).agg.servers, now)[n]
    ensures LastNamed(ListingAt(r, k, i), tool, j)
    ensures RenamedFrom(AggregatedTools(At(r, k).agg, now)[n], ListingAt(r, k, i)[j].definition,
                        r.manifest[i].id + "." + tool)
  {
    hide At;
    hide Started;
    hide AggregatedTools;
    hide ResolveExposure;
    hide RenamedFrom;
    hide ListingAt;
    hide PastAt;
    hide Entries;
    hide Inv;
    hide DefsOf;
    InvAlways(r, k);
    OutcomePerServer(r);
    var a := At(r, k).agg;
    ListingIsFaithful(a, now, n);
    var entry := Entries(a.servers, now)[n];
    i, tool := entry.0, entry.1;
    SameIds(a, i);
    DefinitionsFollowListing(r, k, i);
    j := FindLast(ListingAt(r, k, i), tool);
    DefsAreLast(ListingAt(r, k, i), tool, j);
  }
}
