/** The broker refines its history: a server's state, elevation, child and tools at any point of any run are
    determined by the visible outcomes so far. */
module History {
  import opened Base
  import opened Names
  import opened Manifest
  import opened Policy
  import opened Broker
  import opened Aggregator
  import opened Handlers
  import opened Nonces
  import opened Runs

  // ----- Last-event characterisations -----

  predicate SetsState(outcome: Outcome, id: string) {
    match outcome
    case Commanded(_, id') => id' == id
    case Faulted(id', _) => id' == id
    case _ => false
  }

  predicate SetsElevation(outcome: Outcome, id: string) {
    match outcome
    case Granted(id', _, _) => id' == id
    case Revoked(id') => id' == id
    case Faulted(id', _) => id' == id
    case _ => false
  }

  /** Step `j` granted `e` on the server and no grant, revocation or fault on it came after, before step `k`. */
  ghost predicate GrantStands(r: Run, j: nat, k: nat, id: string, e: Elevation)
    requires k <= |r.events|
  {
    && j < k
    && Seen(r, j).Granted? && Seen(r, j).id == id && Seen(r, j).elevation == e
    && forall m :: j < m < k ==> !SetsElevation(Seen(r, m), id)
  }

  /** Step `j` is the last lifecycle command or fault on the server before step `k`, and left it in `st`. */
  ghost predicate SettingStands(r: Run, j: nat, k: nat, id: string, st: ServerState)
    requires k <= |r.events|
  {
    && j < k
    && SetsState(Seen(r, j), id) && StateAfter(Seen(r, j), id, st) == st
    && forall m :: j < m < k ==> !SetsState(Seen(r, m), id)
  }

  lemma {:induction false} SlotsNeverVanish(r: Run, k: nat, id: string)
    requires k <= |r.events|
    ensures SlotOf(At(r, k).agg.servers, id).Some? <==> SlotOf(r.start.agg.servers, id).Some?
  {
    hide Next;
    if k > 0 {
      SlotsNeverVanish(r, k - 1, id);
      StepLights(r, k - 1, id);
    }
  }

  lemma SlotLights(a: Agg, id: string)
    requires SlotOf(a.servers, id).Some?
    ensures Lights(a, id) == Some((SlotOf(a.servers, id).value.state, SlotOf(a.servers, id).value.elevation))
  {
  }

  lemma ColdStart(r: Run, id: string)
    requires Started(r) && SlotOf(r.start.agg.servers, id).Some?
    ensures SlotOf(r.start.agg.servers, id).value.elevation == None
  {
  }

  lemma NothingStands(r: Run, id: string, e: Elevation)
    ensures At(r, 0) == r.start && forall j :: !GrantStands(r, j, 0, id, e)
  {
  }

  /** A grant stands after one more step if that step grants, or leaves the elevation alone and it stood before. */
  lemma GrantStandsStep(r: Run, j: nat, k: nat, id: string, e: Elevation)
    requires 0 < k <= |r.events|
    ensures GrantStands(r, j, k, id, e) <==>
            if SetsElevation(Seen(r, k - 1), id) then j == k - 1 && Seen(r, j).Granted? && Seen(r, j).elevation == e
            else GrantStands(r, j, k - 1, id, e)
  {
    hide Seen;
  }

  /** A server is elevated by `e` exactly when some step granted `e` on it and nothing has since granted,
      revoked or faulted it. Pausing, stopping and starting are not among these. */
  lemma {:induction false} ElevationHistory(r: Run, k: nat, id: string, e: Elevation)
    requires Started(r) && k <= |r.events| && SlotOf(r.start.agg.servers, id).Some?
    ensures SlotOf(At(r, k).agg.servers, id).Some?
    ensures SlotOf(At(r, k).agg.servers, id).value.elevation == Some(e) <==> exists j :: GrantStands(r, j, k, id, e)
  {
    hide At;
    hide Seen;
    hide Started;
    hide SlotOf;
    hide Lights;
    hide GrantStands;
    SlotsNeverVanish(r, k, id);
    if k == 0 {
      ColdStart(r, id);
      NothingStands(r, id, e);
    } else {
      ElevationHistory(r, k - 1, id, e);
      StepLights(r, k - 1, id);
      SlotLights(At(r, k - 1).agg, id);
      SlotLights(At(r, k).agg, id);
      forall j ensures GrantStands(r, j, k, id, e) <==>
                       if SetsElevation(Seen(r, k - 1), id) then
                          j == k - 1 && Seen(r, j).Granted? && Seen(r, j).elevation == e
                       else GrantStands(r, j, k - 1, id, e) {
        GrantStandsStep(r, j, k, id, e);
      }
      GrantStandsStep(r, k - 1, k, id, e);
      var prev := k - 1;
      if j :| GrantStands(r, j, prev, id, e) {
        GrantStandsStep(r, j, k, id, e);
      }
    }
  }

  lemma NothingSet(r: Run, id: string, st: ServerState)
    ensures At(r, 0) == r.start && forall j :: !SettingStands(r, j, 0, id, st)
  {
  }

  lemma SettingStandsStep(r: Run, j: nat, k: nat, id: string, st: ServerState)
    requires 0 < k <= |r.events|
    ensures SettingStands(r, j, k, id, st) <==>
            if SetsState(Seen(r, k - 1), id) then j == k - 1 && StateAfter(Seen(r, j), id, st) == st
            else SettingStands(r, j, k - 1, id, st)
  {
    hide Seen;
  }

  /** A server is in state `st` exactly when the last lifecycle command or fault on it left it there, or there
      has been none and it started there. */
  lemma {:induction false} StateHistory(r: Run, k: nat, id: string, st: ServerState)
    requires k <= |r.events| && SlotOf(r.start.agg.servers, id).Some?
    ensures SlotOf(At(r, k).agg.servers, id).Some?
    ensures SlotOf(At(r, k).agg.servers, id).value.state == st <==>
            || (exists j :: SettingStands(r, j, k, id, st))
            || ((forall m :: 0 <= m < k ==> !SetsState(Seen(r, m), id))
                && SlotOf(r.start.agg.servers, id).value.state == st)
  {
    hide At;
    hide Seen;
    hide SlotOf;
    hide Lights;
    hide SettingStands;
    SlotsNeverVanish(r, k, id);
    if k == 0 {
      NothingSet(r, id, st);
    } else {
      StateHistory(r, k - 1, id, st);
      StepLights(r, k - 1, id);
      SlotLights(At(r, k - 1).agg, id);
      SlotLights(At(r, k).agg, id);
      forall j ensures SettingStands(r, j, k, id, st) <==>
                       if SetsState(Seen(r, k - 1), id) then j == k - 1 && StateAfter(Seen(r, j), id, st) == st
                       else SettingStands(r, j, k - 1, id, st) {
        SettingStandsStep(r, j, k, id, st);
      }
      SettingStandsStep(r, k - 1, k, id, st);
      var prev := k - 1;
      if j :| SettingStands(r, j, prev, id, st) {
        SettingStandsStep(r, j, k, id, st);
      }
    }
  }

  // ----- The whole slot as a fold over the trace -----

  /** What the trace says about one server: its state and elevation, the child handle held, and the tools it was
      last classified with. */
  datatype Past = Past(state: ServerState, elevation: Option<Elevation>, handle: Option<Handle>,
                       tools: seq<ClassifiedTool>)

  /** One step of the fold, from the event and its visible outcome alone. A stop gives the handle up; a start
      takes a new one, with a freshly classified listing, only if none is held. */
  function Remember(p: Past, server: ServerManifest, e: Event, outcome: Outcome): Past {
    var p' := p.(state := StateAfter(outcome, server.id, p.state),
                 elevation := ElevationAfter(outcome, server.id, p.elevation));
    if outcome == Commanded(StopServer, server.id) then p'.(handle := None)
    else if outcome == Commanded(StartServer, server.id) && p.handle.None? && e.Command? && e.spawn.Ok? then
      p'.(handle := Some(e.spawn.value.handle),
          tools := ClassifyAdvertised(server.tools, NamesOf(e.spawn.value.listing)))
    else p'
  }

  function HandleOf(children: map<string, Handle>, id: string): Option<Handle> {
    if id in children then Some(children[id]) else None
  }

  function PastOf(a: Agg, id: string): Option<Past> {
    var slot :- SlotOf(a.servers, id);
    Some(Past(slot.state, slot.elevation, HandleOf(a.children, id), slot.tools))
  }

  function PastAt(r: Run, k: nat, i: nat): Past
    requires k <= |r.events| && i < |r.manifest| && i < |r.outcomes|
  {
    if k == 0 then
      var slot := BuiltSlot(r.manifest[i], r.outcomes[i]);
      Past(slot.state, slot.elevation, if r.outcomes[i].Ok? then Some(r.outcomes[i].value.handle) else None, slot.tools)
    else Remember(PastAt(r, k - 1, i), r.manifest[i], r.events[k - 1], Seen(r, k - 1))
  }

  /** Child handle and tools under an id. */
  function Kit(a: Agg, id: string): Option<(Option<Handle>, seq<ClassifiedTool>)> {
    var slot :- SlotOf(a.servers, id);
    Some((HandleOf(a.children, id), slot.tools))
  }

  lemma PutKeepsKit(a: Agg, slot: Slot, slot': Slot, x: string)
    requires SlotOf(a.servers, slot.id) == Some(slot) && slot'.id == slot.id && slot'.tools == slot.tools
    ensures Kit(a.(servers := PutSlot(a.servers, slot')), x) == Kit(a, x)
  {
    PutSlotFrame(a.servers, slot', x);
  }

  lemma SetStateKeepsKit(a: Agg, id: string, state: ServerState, x: string)
    ensures Kit(SetState(a, id, state).0, x) == Kit(a, x)
  {
    match SlotOf(a.servers, id)
    case None =>
    case Some(slot) => PutKeepsKit(a, slot, slot.(state := state), x);
  }

  lemma SetElevationKeepsKit(a: Agg, id: string, elevation: Option<Elevation>, now: u64, x: string)
    ensures Kit(SetElevation(a, id, elevation, now).agg, x) == Kit(a, x)
  {
    match SlotOf(a.servers, id)
    case None =>
    case Some(slot) => PutKeepsKit(a, slot, slot.(elevation := elevation), x);
  }

  lemma CallKeepsKit(a: Agg, name: string, arguments: Value, now: u64, reply: Result<Value, ChildError>, x: string)
    ensures Kit(Call(a, name, arguments, now, reply).agg, x) == Kit(a, x)
  {
    hide Admit;
    match Admit(a, name, now)
    case Err(_) =>
    case Ok(a') =>
      match SlotOf(a.servers, SplitOnce(name).value.0)
      case None =>
      case Some(slot) => PutKeepsKit(a', slot, slot.(state := Stopped, elevation := None), x);
  }

  lemma StopKit(a: Agg, id: string, x: string)
    ensures var (a', r) := Stop(a, id);
            Kit(a', x) == match Kit(a, x)
                          case None => None
                          case Some((handle, tools)) => Some((if r.Ok? && x == id then None else handle, tools))
  {
    SetStateKeepsKit(a, id, Stopped, x);
  }

  lemma InstallKit(a: Agg, server: ServerManifest, id: string, child: Spawned, x: string)
    ensures Kit(Install(a, server, id, child), x) ==
            match Kit(a, x)
            case None => None
            case Some((handle, tools)) =>
              Some(if x == id then (Some(child.handle), ClassifyAdvertised(server.tools, NamesOf(child.listing)))
                   else (handle, tools))
  {
    match SlotOf(a.servers, id)
    case None =>
    case Some(slot) => PutSlotFrame(a.servers,
                                    slot.(tools := ClassifyAdvertised(server.tools, NamesOf(child.listing))), x);
  }

  lemma StartKit(a: Agg, id: string, spawn: SpawnOutcome, x: string)
    requires Inv(a)
    ensures var (a', r) := Start(a, id, spawn);
            Kit(a', x) == match Kit(a, x)
                          case None => None
                          case Some((handle, tools)) =>
                            Some(if r.Ok? && x == id && id !in a.children && spawn.Ok? then
                                   (Some(spawn.value.handle),
                                    ClassifyAdvertised(FindServer(a.manifest, id).value.tools,
                                                       NamesOf(spawn.value.listing)))
                                 else (handle, tools))
  {
    StartFailsOnlyOnSpawn(a, id, spawn);
    SetStateKeepsKit(a, id, Running, x);
    if FindServer(a.manifest, id).Some? && id !in a.children && spawn.Ok? {
      var server := FindServer(a.manifest, id).value;
      InstallKit(a, server, id, spawn.value, x);
      SetStateKeepsKit(Install(a, server, id, spawn.value), id, Running, x);
    }
  }

  lemma CommandKit(a: Agg, server: ServerManifest, op: LifecycleOp, id: string, now: u64, spawn: SpawnOutcome)
    requires Inv(a) && FindServer(a.manifest, server.id) == Some(server) && Kit(a, server.id).Some?
    ensures var (handle, tools) := Kit(a, server.id).value;
            var (a', result) := RunOp(a, op, id, spawn);
            var outcome := if result.Ok? then Commanded(op, id) else Quiet;
            var p := Remember(Past(Running, None, handle, tools), server, Command(op, id, now, spawn), outcome);
            Kit(a', server.id) == Some((p.handle, p.tools))
  {
    hide Inv;
    hide Start;
    hide Stop;
    hide SetState;
    match op
    case StartServer =>
      StartKit(a, id, spawn, server.id);
      KitHolds(a, server.id);
    case StopServer => StopKit(a, id, server.id);
    case PauseServer => SetStateKeepsKit(a, id, Paused, server.id);
    case ResumeServer => SetStateKeepsKit(a, id, Running, server.id);
  }

  lemma KitHolds(a: Agg, id: string)
    requires Kit(a, id).Some?
    ensures Kit(a, id).value.0 == HandleOf(a.children, id)
  {
  }

  /** One step changes a server's handle and tools as the fold says. */
  lemma AggAfterKit(auth: Authority, s: Sys, e: Event, server: ServerManifest)
    requires Inv(s.agg) && FindServer(s.agg.manifest, server.id) == Some(server) && Kit(s.agg, server.id).Some?
    ensures var (handle, tools) := Kit(s.agg, server.id).value;
            var p := Remember(Past(Running, None, handle, tools), server, e, Observe(auth, s, e));
            Kit(AggAfter(s, e), server.id) == Some((p.handle, p.tools))
  {
    hide Inv;
    hide SetElevation;
    hide Call;
    hide RunOp;
    hide AfterAttempt;
    hide FindServer;
    hide ClassifyAdvertised;
    hide StateAfter;
    hide ElevationAfter;
    var a, id := s.agg, server.id;
    match e
    case Apply(tid) =>
      if tid in s.inflight {
        var f := s.inflight[tid];
        match f.verified
        case ElevationVerified(target, elevation) => SetElevationKeepsKit(a, target, Some(elevation), f.now, id);
        case ActionVerified(_, _) =>
      }
    case Command(op, id', now, spawn) => CommandKit(a, server, op, id', now, spawn);
    case Revoke(id', now) => SetElevationKeepsKit(a, id', None, now, id);
    case CallTool(name, arguments, now, reply) => CallKeepsKit(a, name, arguments, now, reply, id);
    case _ =>
  }

  lemma StepKit(r: Run, k: nat, i: nat)
    requires Started(r) && k < |r.events| && i < |r.manifest|
    requires Kit(At(r, k).agg, r.manifest[i].id).Some?
    ensures var id := r.manifest[i].id;
            var (handle, tools) := Kit(At(r, k).agg, id).value;
            var p := Remember(Past(Running, None, handle, tools), r.manifest[i], r.events[k], Seen(r, k));
            Kit(At(r, k + 1).agg, id) == Some((p.handle, p.tools))
  {
    hide Inv;
    hide Next;
    hide Observe;
    hide AggAfter;
    hide Kit;
    hide Remember;
    hide Built;
    InvAlways(r, k);
    NextAgg(r.auth, At(r, k), r.events[k]);
    PositionUnique(r.manifest, (s: ServerManifest) => s.id == r.manifest[i].id, i);
    AggAfterKit(r.auth, At(r, k), r.events[k], r.manifest[i]);
  }

  lemma PastParts(a: Agg, id: string)
    ensures PastOf(a, id).Some? <==> SlotOf(a.servers, id).Some?
    ensures Kit(a, id).Some? <==> SlotOf(a.servers, id).Some?
    ensures Lights(a, id).Some? <==> SlotOf(a.servers, id).Some?
    ensures PastOf(a, id).Some? ==>
              PastOf(a, id).value == Past(Lights(a, id).value.0, Lights(a, id).value.1, Kit(a, id).value.0,
                                          Kit(a, id).value.1)
  {
  }

  lemma BuiltSlotsDistinct(r: Run)
    requires Started(r)
    ensures DistinctSlotIds(r.start.agg.servers)
  {
  }

  lemma StartChildren(r: Run, i: nat)
    requires Started(r) && i < |r.manifest|
    ensures r.start.agg.servers[i] == BuiltSlot(r.manifest[i], r.outcomes[i])
    ensures r.manifest[i].id == r.start.agg.servers[i].id
    ensures HandleOf(r.start.agg.children, r.manifest[i].id) == if r.outcomes[i].Ok? then
            Some(r.outcomes[i].value.handle) else None
  {
    hide BuiltToolDefs;
    hide BuiltDefs;
    if r.manifest[i].id in r.start.agg.children {
      var j :| 0 <= j < |r.manifest| && r.manifest[j].id == r.manifest[i].id && r.outcomes[j].Ok?;
    }
  }

  lemma PastAtStart(r: Run, i: nat)
    requires Started(r) && i < |r.manifest|
    ensures PastOf(r.start.agg, r.manifest[i].id) == Some(PastAt(r, 0, i))
  {
    BuiltSlotsDistinct(r);
    SlotAtIndex(r.start.agg.servers, i);
    StartChildren(r, i);
    hide Built;
    hide BuiltSlot;
  }

  lemma RememberParts(p: Past, server: ServerManifest, e: Event, outcome: Outcome)
    ensures var q := Remember(Past(Running, None, p.handle, p.tools), server, e, outcome);
            Remember(p, server, e, outcome) ==
            Past(StateAfter(outcome, server.id, p.state), ElevationAfter(outcome, server.id, p.elevation), q.handle,
                 q.tools)
  {
  }

  /** The slots refine the history: at every point of every run, every server's state, elevation, child handle
      and tools, and so its exposure at every reading, are the fold of the trace. */
  lemma {:induction false} SlotsFollowHistory(r: Run, k: nat, i: nat, now: u64)
    requires Started(r) && k <= |r.events| && i < |r.manifest|
    ensures var id := r.manifest[i].id;
            var p := PastAt(r, k, i);
            && PastOf(At(r, k).agg, id) == Some(p)
            && SlotOf(At(r, k).agg.servers, id) == Some(Slot(id, p.tools, p.state, p.elevation))
            && SlotOf(At(r, k).agg.servers, id).value.Exposed(now) ==
               ResolveExposure(p.tools, p.state, p.elevation, now)
  {
    hide Next;
    hide Built;
    hide Remember;
    hide Observe;
    hide Kit;
    hide Lights;
    var id := r.manifest[i].id;
    if k == 0 {
      PastAtStart(r, i);
    } else {
      SlotsFollowHistory(r, k - 1, i, now);
      PastParts(At(r, k - 1).agg, id);
      StepKit(r, k - 1, i);
      StepLights(r, k - 1, id);
      PastParts(At(r, k).agg, id);
      RememberParts(PastAt(r, k - 1, i), r.manifest[i], r.events[k - 1], Seen(r, k - 1));
    }
  }

  // ----- After a fault -----

  predicate Reopens(outcome: Outcome, id: string) {
    outcome == Commanded(StartServer, id) || outcome == Commanded(ResumeServer, id)
  }

  /** After a call reports a crashed or hung child, no name of that server passes the gate, at any reading, until
      a start or resume of it succeeds. */
  lemma {:induction false} FaultClosesUntilReopened(r: Run, j: nat, k: nat, id: string, name: string, now: u64)
    requires j < k <= |r.events| && Seen(r, j).Faulted? && Seen(r, j).id == id
    requires forall m :: j < m < k ==> !Reopens(Seen(r, m), id)
    requires SplitOnce(name).Some? && SplitOnce(name).value.0 == id
    ensures Lights(At(r, k).agg, id).Some? ==> Lights(At(r, k).agg, id).value.0 != Running
    ensures !PassesGate(At(r, k).agg, name, now)
  {
    hide Next;
    hide Observe;
    StepLights(r, k - 1, id);
    if k > j + 1 {
      FaultClosesUntilReopened(r, j, k - 1, id, name, now);
    }
  }

  /** And it holds no elevation until a newly verified one is granted on it. */
  lemma {:induction false} FaultDropsElevation(r: Run, j: nat, k: nat, id: string)
    requires j < k <= |r.events| && Seen(r, j).Faulted? && Seen(r, j).id == id
    requires forall m :: j < m < k ==> !(Seen(r, m).Granted? && Seen(r, m).id == id)
    ensures Lights(At(r, k).agg, id).Some? ==> Lights(At(r, k).agg, id).value.1 == None
  {
    hide Next;
    hide Observe;
    StepLights(r, k - 1, id);
    if k > j + 1 {
      FaultDropsElevation(r, j, k - 1, id);
    }
  }

  /** One step of the fold. */
  lemma NextPast(r: Run, k: nat, i: nat)
    requires k < |r.events| && i < |r.manifest| && i < |r.outcomes|
    ensures PastAt(r, k + 1, i) == Remember(PastAt(r, k, i), r.manifest[i], r.events[k], Seen(r, k))
  {
    hide Remember;
    hide Observe;
    hide At;
  }

  /** A fault, like any other step, leaves every other server's slot and child alone: state, elevation, tools and
      the very handle held. */
  lemma FaultSparesOthers(r: Run, k: nat, i: nat)
    requires Started(r) && k < |r.events| && i < |r.manifest|
    requires Seen(r, k).Faulted? && Seen(r, k).id != r.manifest[i].id
    ensures PastOf(At(r, k + 1).agg, r.manifest[i].id) == PastOf(At(r, k).agg, r.manifest[i].id)
  {
    hide At;
    hide Seen;
    hide PastAt;
    hide SlotOf;
    hide ResolveExposure;
    SlotsFollowHistory(r, k, i, 0);
    SlotsFollowHistory(r, k + 1, i, 0);
    NextPast(r, k, i);
  }

  /** A handle once held is kept, with the tools its child was classified with, until a stop of the server
      succeeds: no start, pause, resume, grant, revocation or fault replaces it. */
  lemma {:induction false} HandleKeptUntilStop(r: Run, i: nat, j: nat, k: nat)
    requires Started(r) && j <= k <= |r.events| && i < |r.manifest| && PastAt(r, j, i).handle.Some?
    requires forall m :: j <= m < k ==> Seen(r, m) != Commanded(StopServer, r.manifest[i].id)
    ensures PastAt(r, k, i).handle == PastAt(r, j, i).handle && PastAt(r, k, i).tools == PastAt(r, j, i).tools
  {
    hide Built;
    hide Observe;
    hide At;
    hide StateAfter;
    hide ElevationAfter;
    if j < k {
      HandleKeptUntilStop(r, i, j, k - 1);
    }
  }

  lemma FaultNeedsHandle(a: Agg, name: string, arguments: Value, now: u64, reply: Result<Value, ChildError>)
    requires CallOutcome(a, name, arguments, now, reply).Faulted?
    ensures HandleOf(a.children, CallOutcome(a, name, arguments, now, reply).id).Some?
  {
    CallSends(a, name, arguments, now, reply);
    hide Call;
    hide PassesGate;
  }

  /** A faulted child is reused: as long as nobody stops the server, a later `start` does not spawn a new child but
      brings the very same handle, with the same tools, back into service. */
  lemma FaultedChildIsReused(r: Run, i: nat, j: nat, k: nat)
    requires Started(r) && j < k <= |r.events| && i < |r.manifest|
    requires Seen(r, j).Faulted? && Seen(r, j).id == r.manifest[i].id
    requires forall m :: j < m < k ==> Seen(r, m) != Commanded(StopServer, r.manifest[i].id)
    ensures var id := r.manifest[i].id;
            && HandleOf(At(r, j).agg.children, id).Some?
            && HandleOf(At(r, k).agg.children, id) == HandleOf(At(r, j).agg.children, id)
            && SlotOf(At(r, j).agg.servers, id).Some? && SlotOf(At(r, k).agg.servers, id).Some?
            && SlotOf(At(r, k).agg.servers, id).value.tools == SlotOf(At(r, j).agg.servers, id).value.tools
  {
    var e := r.events[j];
    FaultIsCall(r.auth, At(r, j), e);
    FaultNeedsHandle(At(r, j).agg, e.name, e.arguments, e.now, e.reply);
    hide At;
    hide Built;
    hide Observe;
    hide PastAt;
    SlotsFollowHistory(r, j, i, 0);
    SlotsFollowHistory(r, k, i, 0);
    HandleKeptUntilStop(r, i, j, k);
  }

  lemma FaultIsCall(auth: Authority, s: Sys, e: Event)
    requires Observe(auth, s, e).Faulted?
    ensures e.CallTool? && Observe(auth, s, e) == CallOutcome(s.agg, e.name, e.arguments, e.now, e.reply)
  {
    hide CallOutcome;
    hide AfterAttempt;
    hide RunOp;
  }
}
