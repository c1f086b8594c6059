/** What a step that owes no notification can reveal, whatever the order of the readings. */
module SilentSteps {
  import opened Base
  import opened Names
  import opened Manifest
  import opened Policy
  import opened Broker
  import opened Aggregator
  import opened Handlers
  import opened Runs
  import opened History
  import opened Staleness
  import opened Reach
  import opened AuditTrail

  // ----- One slot -----

  /** Every tool has the operator's class. */
  ghost predicate Classed(tools: seq<ClassifiedTool>, declared: map<string, ToolClass>) {
    forall t :: t in tools ==> t.cls == ClassOf(declared, t.name)
  }

  /** A tool outside the read class that the slot, running and elevated, did not already show at the listing. */
  ghost predicate NewlyShown(slot: Slot, tools: seq<ClassifiedTool>, listed: u64) {
    exists t :: t in tools && t.cls != ToolClass.Read
                && !(slot.state == Running && ActiveAt(slot.elevation, listed) && Offers(slot.tools, t.name))
  }

  lemma ShownByClass(slot: Slot, declared: map<string, ToolClass>, now: u64, tool: string)
    requires Classed(slot.tools, declared)
    ensures tool in slot.Exposed(now) <==>
            slot.state == Running && Offers(slot.tools, tool)
              && (ClassOf(declared, tool) == ToolClass.Read || ActiveAt(slot.elevation, now))
  {
    hide ResolveExposure;
    ExposureRule(slot.tools, slot.state, slot.elevation, now, tool);
  }

  /** If two slots show the same names at some reading, then what the second shows that the first did not is outside
      the read class: exactly a tool that only the second, elevated at `later`, can show. */
  lemma SameThenNew(slot: Slot, slot': Slot, declared: map<string, ToolClass>, now: u64, listed: u64, later: u64)
    requires Classed(slot.tools, declared) && Classed(slot'.tools, declared)
    requires multiset(slot'.Exposed(now)) == multiset(slot.Exposed(now)) || slot'.state != Running
    ensures (exists tool :: tool in slot'.Exposed(later) && tool !in slot.Exposed(listed)) <==>
            slot'.state == Running && ActiveAt(slot'.elevation, later) && NewlyShown(slot, slot'.tools, listed)
  {
    hide ResolveExposure;
    hide ClassOf;
    if tool :| tool in slot'.Exposed(later) && tool !in slot.Exposed(listed) {
      ShownByClass(slot', declared, later, tool);
      ShownByClass(slot', declared, now, tool);
      ShownByClass(slot, declared, now, tool);
      ShownByClass(slot, declared, listed, tool);
      SameMembers(slot'.Exposed(now), slot.Exposed(now), tool);
    }
    if slot'.state == Running && ActiveAt(slot'.elevation, later) && NewlyShown(slot, slot'.tools, listed) {
      var t :| t in slot'.tools && t.cls != ToolClass.Read
               && !(slot.state == Running && ActiveAt(slot.elevation, listed) && Offers(slot.tools, t.name));
      ShownByClass(slot', declared, later, t.name);
      ShownByClass(slot, declared, listed, t.name);
      assert t.name in slot'.Exposed(later) && t.name !in slot.Exposed(listed);
    }
  }

  lemma SameMembers(a: seq<string>, b: seq<string>, x: string)
    ensures multiset(a) == multiset(b) ==> (x in a <==> x in b)
  {
    assert x in a <==> x in multiset(a);
    assert x in b <==> x in multiset(b);
  }

  // ----- The guard, per kind of step -----

  /** Nothing happened to the server, and an elevation open at `later` was not open at the listing. */
  ghost predicate Aged(p: Past, id: string, listed: u64, later: u64) {
    p.state == Running && HasGated(SlotOfPast(id, p)) && ActiveAt(p.elevation, later) && !ActiveAt(p.elevation, listed)
  }

  /** The tools the server comes up with. */
  function ComesUpWith(p: Past, server: ServerManifest, e: Event, op: LifecycleOp): seq<ClassifiedTool> {
    if op.StartServer? && p.handle.None? && e.Command? && e.spawn.Ok? then
      ClassifyAdvertised(server.tools, NamesOf(e.spawn.value.listing))
    else p.tools
  }

  /** When a step that owes nothing shows, at `later`, a name of this server that a listing at `listed` just before
      it lacked. A revocation, a pause, a stop and a fault never do. A grant does if the server runs, has a tool
      outside the read class, and was not elevated at the listing but is by the new elevation later. A start or
      resume does if the elevation held is open later and the server comes up with a tool outside the read class
      that it was not already showing at the listing. */
  ghost predicate RevealGuard(p: Past, server: ServerManifest, e: Event, outcome: Outcome, listed: u64, later: u64) {
    match outcome
    case Granted(id, _, elevation) =>
      if id == server.id then
        p.state == Running && HasGated(SlotOfPast(id, p)) && elevation.IsActive(later) && !ActiveAt(p.elevation, listed)
      else Aged(p, server.id, listed, later)
    case Revoked(id) => id != server.id && Aged(p, server.id, listed, later)
    case Faulted(id, _) => id != server.id && Aged(p, server.id, listed, later)
    case Commanded(op, id) =>
      if id != server.id then Aged(p, server.id, listed, later)
      else if op.StopServer? || op.PauseServer? then false
      else ActiveAt(p.elevation, later) && NewlyShown(SlotOfPast(id, p), ComesUpWith(p, server, e, op), listed)
    case _ => Aged(p, server.id, listed, later)
  }

  lemma GatedOffered(tools: seq<ClassifiedTool>)
    ensures forall t :: t in tools ==> Offers(tools, t.name)
  {
  }

  /** The guard per kind of step is the one condition on the slot before and after. */
  lemma GuardIsComparison(p: Past, server: ServerManifest, e: Event, outcome: Outcome, listed: u64, later: u64)
    ensures var p' := Remember(p, server, e, outcome);
            RevealGuard(p, server, e, outcome, listed, later) <==>
            p'.state == Running && ActiveAt(p'.elevation, later)
              && NewlyShown(SlotOfPast(server.id, p), p'.tools, listed)
  {
    hide ClassifyAdvertised;
    hide Offers;
    GatedOffered(p.tools);
  }

  // ----- Over a run -----

  lemma ClassedByManifest(a: Agg, id: string)
    requires Inv(a) && SlotOf(a.servers, id).Some?
    ensures FindServer(a.manifest, id).Some?
            && Classed(SlotOf(a.servers, id).value.tools, FindServer(a.manifest, id).value.tools)
  {
    hide Inv;
    hide SlotOf;
    hide FindServer;
    hide ClassIn;
    ClassIsOperators(a, id, "");
    forall t | t in SlotOf(a.servers, id).value.tools
      ensures t.cls == ClassOf(FindServer(a.manifest, id).value.tools, t.name)
    {
      ClassIsOperators(a, id, t.name);
    }
  }

  /** The slots of a server before and after a step. */
  lemma SlotsAround(r: Run, k: nat, i: nat)
    requires Started(r) && k < |r.events| && i < |r.manifest|
    ensures var id := r.manifest[i].id;
            && NAMESPACE_SEP !in id
            && Inv(At(r, k).agg) && Inv(At(r, k + 1).agg)
            && At(r, k).agg.manifest == r.manifest == At(r, k + 1).agg.manifest
            && SlotOf(At(r, k).agg.servers, id) == Some(SlotOfPast(id, PastAt(r, k, i)))
            && SlotOf(At(r, k + 1).agg.servers, id) == Some(SlotOfPast(id, PastAt(r, k + 1, i)))
            && Classed(PastAt(r, k, i).tools, r.manifest[i].tools)
               && Classed(PastAt(r, k + 1, i).tools, r.manifest[i].tools)
  {
    hide At;
    hide PastAt;
    hide SlotOf;
    hide FindServer;
    hide Classed;
    hide Started;
    hide Inv;
    InvAlways(r, k);
    InvAlways(r, k + 1);
    SlotsFollowHistory(r, k, i, 0);
    SlotsFollowHistory(r, k + 1, i, 0);
    ManifestEntry(r, i);
    ClassedByManifest(At(r, k).agg, r.manifest[i].id);
    ClassedByManifest(At(r, k + 1).agg, r.manifest[i].id);
    DotFreeId(r, i);
  }

  /** What a step reveals of a server, exactly: for every step that does not control the server or owes no
      notification, and for all readings, some name of the server is listed at `later` after the step that a listing at
      `listed` before it lacked if and only if the guard for that kind of step holds. */
  lemma SilentRevealExactlyWhen(r: Run, k: nat, i: nat, listed: u64, later: u64)
    requires Started(r) && k < |r.events| && i < |r.manifest|
    requires Touches(Seen(r, k), r.manifest[i].id) ==> !Owes(r, k)
    ensures var id := r.manifest[i].id;
            (exists tool :: Listed(At(r, k + 1).agg, id, tool, later) && !Listed(At(r, k).agg, id, tool, listed)) <==>
            RevealGuard(PastAt(r, k, i), r.manifest[i], r.events[k], Seen(r, k), listed, later)
  {
    hide At;
    hide PastAt;
    hide Started;
    hide Inv;
    hide Seen;
    hide Owes;
    hide Listed;
    hide Classed;
    hide SlotOf;
    hide RevealGuard;
    hide Remember;
    hide NewlyShown;
    hide ResolveExposure;
    hide Touches;
    OutcomePerServer(r);
    var id, server, e, outcome := r.manifest[i].id, r.manifest[i], r.events[k], Seen(r, k);
    var p, p' := PastAt(r, k, i), PastAt(r, k + 1, i);
    SlotsAround(r, k, i);
    NextPast(r, k, i);
    GuardIsComparison(p, server, e, outcome, listed, later);
    var now: u64 := 0;
    if Touches(outcome, id) {
      TouchHasReading(r, k, id);
      now := Reading(At(r, k), e).value;
      SilentTouchKeepsShown(r, k, i, now);
    } else {
      UntouchedOrStopped(p, server, e, outcome);
    }
    SameThenNew(SlotOfPast(id, p), SlotOfPast(id, p'), server.tools, now, listed, later);
    forall tool
      ensures Listed(At(r, k + 1).agg, id, tool, later) <==> tool in SlotOfPast(id, p').Exposed(later)
      ensures Listed(At(r, k).agg, id, tool, listed) <==> tool in SlotOfPast(id, p).Exposed(listed)
    {
      ListedIsShown(At(r, k + 1).agg, id, tool, later);
      ListedIsShown(At(r, k).agg, id, tool, listed);
    }
  }

  /** It takes readings out of order: if the listing, the step, should it control the server, and the later point are
      read in that order, no guard holds. */
  lemma OrderedStepsRevealNothing(r: Run, k: nat, i: nat, listed: u64, now: u64, later: u64)
    requires Started(r) && k < |r.events| && i < |r.manifest| && listed <= now <= later
    requires Touches(Seen(r, k), r.manifest[i].id) ==> !Owes(r, k) && TouchedAt(r, k, i, now)
    ensures !RevealGuard(PastAt(r, k, i), r.manifest[i], r.events[k], Seen(r, k), listed, later)
  {
    hide At;
    hide PastAt;
    hide Started;
    hide Inv;
    hide Seen;
    hide Owes;
    hide Classed;
    hide SlotOf;
    hide RevealGuard;
    hide Listed;
    hide Touches;
    hide ResolveExposure;
    OutcomePerServer(r);
    SilentRevealExactlyWhen(r, k, i, listed, later);
    SlotsAround(r, k, i);
    var id, p := r.manifest[i].id, PastAt(r, k, i);
    var read := if Touches(Seen(r, k), id) then now else later;
    forall tool | Listed(At(r, k + 1).agg, id, tool, later) ensures Listed(At(r, k).agg, id, tool, listed) {
      ListedIsShown(At(r, k + 1).agg, id, tool, later);
      SilentStepShrinks(r, k, i, later, read, tool);
      ExposureShrinks(p.tools, p.state, p.elevation, listed, read, tool);
      ListedIsShown(At(r, k).agg, id, tool, listed);
    }
  }

  // ----- Owing, over the trace -----

  lemma UntouchedKeepsShown(r: Run, k: nat, i: nat, now: u64)
    requires Started(r) && k < |r.events| && i < |r.manifest|
    requires Controls(Seen(r, k)) && !Touches(Seen(r, k), r.manifest[i].id)
    ensures ShownAt(r, k + 1, i, now) == ShownAt(r, k, i, now)
  {
    hide At;
    hide Started;
    hide Seen;
    hide PastAt;
    hide ResolveExposure;
    OutcomePerServer(r);
    NextPast(r, k, i);
  }

  /** Owing is announcing, for a control step. */
  lemma OwesIsAnnouncing(r: Run, k: nat)
    requires Started(r) && k < |r.events| && Controls(Seen(r, k))
    ensures Reading(At(r, k), r.events[k]).Some?
    ensures Owes(r, k) <==> ExposureDiffers(At(r, k).agg, At(r, k + 1).agg, Reading(At(r, k), r.events[k]).value)
  {
    hide At;
    hide Started;
    hide Observe;
    hide Next;
    hide ExposureDiffers;
    ControlHasReading(r.auth, At(r, k), r.events[k]);
    StepIsNext(r, k);
    ReadingStepSendsNothing(r.auth, At(r, k), r.events[k]);
    StepOwes(r, k);
  }

  /** A control step on a server owes a notification exactly when the fold of the trace shows other names of that
      server, counted with repetition, after the step than before, at the step's own reading. */
  lemma OwesExactlyWhen(r: Run, k: nat, i: nat, now: u64)
    requires Started(r) && k < |r.events| && i < |r.manifest| && TouchedAt(r, k, i, now)
    ensures |r.outcomes| == |r.manifest|
    ensures var id, p := r.manifest[i].id, PastAt(r, k, i);
            var p' := Remember(p, r.manifest[i], r.events[k], Seen(r, k));
            Owes(r, k) <==> multiset(SlotOfPast(id, p').Exposed(now)) != multiset(SlotOfPast(id, p).Exposed(now))
  {
    hide At;
    hide Started;
    hide Seen;
    hide PastAt;
    hide Remember;
    hide Owes;
    hide ResolveExposure;
    hide SlotOf;
    hide Inv;
    OutcomePerServer(r);
    TouchesControls(Seen(r, k), r.manifest[i].id);
    OwesIsAnnouncing(r, k);
    NextPast(r, k, i);
    ShownIsExposed(r, k, i, now);
    ShownIsExposed(r, k + 1, i, now);
    var before, after := At(r, k).agg, At(r, k + 1).agg;
    forall id | id != r.manifest[i].id && SlotOf(before.servers, id).Some? && SlotOf(after.servers, id).Some?
      ensures SlotOf(after.servers, id).value.Exposed(now) == SlotOf(before.servers, id).value.Exposed(now)
    {
      var j := ServerOf(r, k, id);
      TouchesOne(Seen(r, k), r.manifest[i].id, id);
      UntouchedKeepsShown(r, k, j, now);
      ShownIsExposed(r, k, j, now);
      ShownIsExposed(r, k + 1, j, now);
    }
  }

  lemma TouchesOne(outcome: Outcome, id: string, id': string)
    requires Touches(outcome, id) && id' != id
    ensures !Touches(outcome, id')
  {
  }

  lemma ServerOf(r: Run, k: nat, id: string) returns (i: nat)
    requires Started(r) && k <= |r.events| && SlotOf(At(r, k).agg.servers, id).Some?
    ensures i < |r.manifest| && r.manifest[i].id == id
  {
    hide At;
    hide Started;
    InvAlways(r, k);
    InvSlots(At(r, k).agg);
    i := SlotIndex(At(r, k).agg.servers, id);
  }

  // ----- Several steps -----

  /** A listing followed by any number of steps, with readings in any order: if none of them owes a notification on the
      server, the listing itself was not out of date at `later`, and no step between reveals anything from `later` to
      `later`, then everything of the server listed at `later` was in the listing. */
  lemma {:induction false} NothingNewUnlessGuarded(r: Run, i: nat, k: nat, server: nat, later: u64, tool: string)
    requires Started(r) && i < k <= |r.events| && r.events[i].ListTools? && server < |r.manifest|
    requires |r.outcomes| == |r.manifest| && ControlsSilent(r, i, k, server)
    requires !Aged(PastAt(r, i, server), r.manifest[server].id, r.events[i].now, later)
    requires forall m :: i < m < k ==>
               !RevealGuard(PastAt(r, m, server), r.manifest[server], r.events[m], Seen(r, m), later, later)
    requires Listed(At(r, k).agg, r.manifest[server].id, tool, later)
    ensures Listed(At(r, i).agg, r.manifest[server].id, tool, r.events[i].now)
  {
    hide At;
    hide Started;
    hide Seen;
    hide Listed;
    hide PastAt;
    hide Owes;
    hide Aged;
    hide Touches;
    hide RevealGuard;
    if k == i + 1 {
      ListingOnlyAges(r, i, server, later);
    } else {
      SilentRevealExactlyWhen(r, k - 1, server, later, later);
      NothingNewUnlessGuarded(r, i, k - 1, server, later, tool);
    }
  }

  /** Across the listing itself nothing changes but the reading. */
  lemma ListingOnlyAges(r: Run, i: nat, server: nat, later: u64)
    requires Started(r) && i < |r.events| && r.events[i].ListTools? && server < |r.manifest|
             && |r.outcomes| == |r.manifest|
    requires !Aged(PastAt(r, i, server), r.manifest[server].id, r.events[i].now, later)
    ensures forall tool :: Listed(At(r, i + 1).agg, r.manifest[server].id, tool, later) ==>
                             Listed(At(r, i).agg, r.manifest[server].id, tool, r.events[i].now)
  {
    hide At;
    hide Started;
    hide Listed;
    hide PastAt;
    hide Owes;
    hide Aged;
    ListingIsQuiet(r.auth, At(r, i), r.events[i]);
    hide Observe;
    SilentRevealExactlyWhen(r, i, server, r.events[i].now, later);
  }
}
