/** Runs that show where a promise stops: each is a run of the broker from its start, for every server, tool, client
    and nonce, and without forged signatures. */
module Scenarios {
  import opened Base
  import opened Names
  import opened Manifest
  import opened Policy
  import opened Broker
  import opened Hex
  import opened Challenge
  import opened Nonces
  import opened NonceLaws
  import opened Aggregator
  import opened Handlers
  import opened Runs
  import opened WriteAuthority
  import opened Staleness
  import opened AuditTrail
  import opened SilentSteps
  import opened NonceRuns
  import opened Worlds

  // ----- One grant -----

  function ElevationOf(mode: RequestedMode, now: u64): Elevation {
    match mode
    case TimeBoxed(ttl) => ForDuration(now, ttl)
    case OpenEnded => UntilRevokedFrom(now)
  }

  /** The three steps by which a challenge is issued, verified and applied. */
  function Submitted(client: string, signature: seq<u8>, nonce: Nonce, purpose: Purpose, issued: u64,
                     now: u64): seq<Event> {
    [Issue(client, purpose, issued, Some(nonce)), Verify(0, client, nonce, signature, now), Apply(0)]
  }

  /** The world starts by granting an elevation on its server. */
  predicate Elevates(w: World, mode: RequestedMode, now: u64) {
    && w.Valid() && w.challenges != [] && w.challenges[0].1 == Elevate(w.server, mode)
    && Submitted(w.client, w.signature, w.challenges[0].0, w.challenges[0].1, now, now) <= w.steps
  }

  /** The same, for a write tool. */
  predicate Grants(w: World, mode: RequestedMode, now: u64) {
    w.cls == ToolClass.Write && Elevates(w, mode, now)
  }

  /** The server as the grant leaves it. */
  function Granted(w: World, mode: RequestedMode, now: u64): Agg {
    w.Single(Running, Some(ElevationOf(mode, now)), Some(1))
  }

  lemma SubmissionStep(w: World, n: nat, c: nat, mode: RequestedMode, now: u64, state: ServerState,
                       elevation: Option<Elevation>)
    requires w.Valid() && c < |w.challenges| && w.challenges[c].1 == Elevate(w.server, mode) && n + 3 <= |w.steps|
    requires w.steps[n..n + 3] == Submitted(w.client, w.signature, w.challenges[c].0, w.challenges[c].1, now, now)
    requires var s := At(w.AsRun(), w.After(n));
             s.agg == w.Single(state, elevation, Some(1)) && s.nonces == [] && s.inflight == map[]
    ensures var s := At(w.AsRun(), w.After(n + 3));
            s.agg == w.Single(state, Some(ElevationOf(mode, now)), Some(1)) && s.nonces == [] && s.inflight == map[]
    ensures At(w.AsRun(), w.After(n + 1)).agg == At(w.AsRun(), w.After(n + 2)).agg == At(w.AsRun(), w.After(n)).agg
    ensures At(w.AsRun(), w.After(n + 2)).inflight ==
            map[0 := Inflight(w.client, ElevationVerified(w.server, ElevationOf(mode, now)), now)]
  {
    hide At;
    hide Next;
    hide SetElevation;
    WorldStep(w, n);
    WorldStep(w, n + 1);
    WorldStep(w, n + 2);
    assert w.steps[n] == w.steps[n..n + 3][0] && w.steps[n + 1] == w.steps[n..n + 3][1]
           && w.steps[n + 2] == w.steps[n..n + 3][2];
    SubmissionApplied(w, At(w.AsRun(), w.After(n)), c, now, now);
    SingleElevates(w, state, elevation, Some(1), Some(ElevationOf(mode, now)), now);
  }

  lemma FirstGrant(w: World, mode: RequestedMode, now: u64)
    requires Elevates(w, mode, now)
    ensures var s := At(w.AsRun(), w.After(3)); s.agg == Granted(w, mode, now) && s.nonces == [] && s.inflight == map[]
    ensures |w.steps| >= 3
  {
    hide At;
    WorldBegins(w);
    assert w.steps[0..3] == Submitted(w.client, w.signature, w.challenges[0].0, w.challenges[0].1, now, now);
    SubmissionStep(w, 0, 0, mode, now, Running, None);
  }

  lemma InEveryWorld(w: World, k: nat)
    requires w.Valid() && k <= |w.AsRun().events|
    ensures Started(w.AsRun()) && Unforgeable(w.AsRun()) && Inv(At(w.AsRun(), k).agg)
  {
    hide At;
    hide Started;
    hide Unforgeable;
    hide Inv;
    WorldStarts(w);
    WorldUnforgeable(w);
    InvAlways(w.AsRun(), k);
  }

  /** The tool is listed exactly while the server runs with its elevation open. */
  lemma SingleLists(w: World, k: nat, state: ServerState, elevation: Option<Elevation>, child: Option<Handle>, now: u64)
    requires w.Valid() && w.cls == ToolClass.Write && k <= |w.AsRun().events|
             && At(w.AsRun(), k).agg == w.Single(state, elevation, child)
    ensures Listed(At(w.AsRun(), k).agg, w.server, w.tool, now) <==> state == Running && ActiveAt(elevation, now)
  {
    hide At;
    hide Started;
    hide Unforgeable;
    hide Inv;
    hide SlotOf;
    hide Listed;
    hide FindServer;
    hide ResolveExposure;
    InEveryWorld(w, k);
    SingleFinds(w, state, elevation, child, w.server);
    SingleShows(w, state, elevation, now);
    ListedIsShown(At(w.AsRun(), k).agg, w.server, w.tool, now);
  }

  /** A step on the one server that does not change what it shows owes nothing. */
  lemma SameShownOwesNothing(w: World, k: nat, state: ServerState, elevation: Option<Elevation>, child: Option<Handle>,
                             state': ServerState, elevation': Option<Elevation>, child': Option<Handle>, now: u64)
    requires w.Valid() && w.cls == ToolClass.Write && k < |w.AsRun().events|
    requires Reading(At(w.AsRun(), k), w.AsRun().events[k]) == Some(now)
    requires At(w.AsRun(), k).agg == w.Single(state, elevation, child)
    requires At(w.AsRun(), k + 1).agg == w.Single(state', elevation', child')
    requires (state == Running && ActiveAt(elevation, now)) <==> (state' == Running && ActiveAt(elevation', now))
    ensures !Owes(w.AsRun(), k)
  {
    hide At;
    hide Started;
    hide Unforgeable;
    hide Inv;
    hide Next;
    hide ExposureDiffers;
    InEveryWorld(w, k);
    StepOwes(w.AsRun(), k);
    StepIsNext(w.AsRun(), k);
    ReadingStepSendsNothing(w.Keys(), At(w.AsRun(), k), w.AsRun().events[k]);
    SameShown(w, state, elevation, child, state', elevation', child', now);
  }

  lemma SameShown(w: World, state: ServerState, elevation: Option<Elevation>, child: Option<Handle>,
                  state': ServerState, elevation': Option<Elevation>, child': Option<Handle>, now: u64)
    requires w.cls == ToolClass.Write
    requires (state == Running && ActiveAt(elevation, now)) <==> (state' == Running && ActiveAt(elevation', now))
    ensures !ExposureDiffers(w.Single(state, elevation, child), w.Single(state', elevation', child'), now)
  {
    hide SlotOf;
    hide ResolveExposure;
    hide FindServer;
    SingleShows(w, state, elevation, now);
    SingleShows(w, state', elevation', now);
    forall id
      ensures SlotOf(w.Single(state, elevation, child).servers, id).Some? ==> id == w.server
      ensures SlotOf(w.Single(state, elevation, child).servers, w.server) == Some(w.OneSlot(state, elevation))
      ensures SlotOf(w.Single(state', elevation', child').servers, w.server) == Some(w.OneSlot(state', elevation'))
    {
      SingleFinds(w, state, elevation, child, id);
      SingleFinds(w, state, elevation, child, w.server);
      SingleFinds(w, state', elevation', child', w.server);
    }
  }

  // ----- A start that does not come up read-only -----

  /** Granted until revoked, stopped, and started with a new child. */
  predicate Restarts(w: World, now: u64) {
    && Grants(w, OpenEnded, now) && |w.steps| == 5
    && w.steps[3] == Command(StopServer, w.server, now, Err(Io))
    && w.steps[4] == Command(StartServer, w.server, now, Ok(Spawned(2, w.Advertised())))
  }

  /** `start` brings a server up with a write tool listed, at every reading: nobody elevated it after the stop. */
  lemma StartComesUpElevated(w: World, now: u64, later: u64)
    requires Restarts(w, now)
    ensures Started(w.AsRun()) && Unforgeable(w.AsRun()) && |w.AsRun().events| == w.After(5)
    ensures Seen(w.AsRun(), w.After(3)) == Commanded(StopServer, w.server)
    ensures Seen(w.AsRun(), w.After(4)) == Commanded(StartServer, w.server)
    ensures !Listed(At(w.AsRun(), w.After(4)).agg, w.server, w.tool, later)
    ensures Listed(At(w.AsRun(), w.After(5)).agg, w.server, w.tool, later)
  {
    hide At;
    hide Next;
    hide Started;
    hide Unforgeable;
    hide Inv;
    hide Listed;
    hide Aggregator.Stop;
    hide Aggregator.Start;
    hide Snapshot;
    var el := Some(ElevationOf(OpenEnded, now));
    FirstGrant(w, OpenEnded, now);
    InEveryWorld(w, 0);
    CommandStep(w, 3);
    SingleStops(w, Running, el, Some(1));
    CommandStep(w, 4);
    SingleRestarts(w, Stopped, el, 2);
    SingleLists(w, w.After(4), Stopped, el, None, later);
    SingleLists(w, w.After(5), Running, el, Some(2), later);
  }

  lemma CommandStep(w: World, n: nat)
    requires n < |w.steps| && w.steps[n].Command?
    ensures var c, a := w.steps[n], At(w.AsRun(), w.After(n)).agg;
            && w.AsRun().events[w.After(n)] == c
            && At(w.AsRun(), w.After(n + 1)).agg == RunOp(a, c.op, c.id, c.spawn).0
            && Seen(w.AsRun(), w.After(n)) == if RunOp(a, c.op, c.id, c.spawn).1.Ok? then Commanded(c.op, c.id)
               else Quiet
  {
    hide At;
    hide Next;
    hide RunOp;
    WorldStep(w, n);
    NextAgg(w.Keys(), At(w.AsRun(), w.After(n)), w.steps[n]);
  }

  // ----- Silent reveals -----

  /** Granted for `ttl`, paused, listed, and resumed with a reading at which the window is over. */
  predicate PausesAndResumes(w: World, ttl: u64, now: u64, listed: u64, resumed: u64) {
    && Grants(w, TimeBoxed(ttl), now) && |w.steps| == 6
    && w.steps[3] == Command(PauseServer, w.server, now, Err(Io))
    && w.steps[4] == ListTools(listed)
    && w.steps[5] == Command(ResumeServer, w.server, resumed, Err(Io))
    && now + ttl <= resumed
  }

  /** A `resume` reveals a write tool and owes nothing: between a listing without the tool and a point at which it is
      listed, no notification has become owed. */
  lemma ResumeRevealsSilently(w: World, ttl: u64, now: u64, listed: u64, resumed: u64, later: u64)
    requires PausesAndResumes(w, ttl, now, listed, resumed) && later < now + ttl
    ensures Started(w.AsRun()) && Unforgeable(w.AsRun()) && |w.AsRun().events| == w.After(6)
    ensures w.AsRun().events[w.After(4)] == ListTools(listed)
    ensures !Listed(At(w.AsRun(), w.After(4)).agg, w.server, w.tool, listed)
    ensures Seen(w.AsRun(), w.After(5)) == Commanded(ResumeServer, w.server) && !Owes(w.AsRun(), w.After(5))
    ensures Listed(At(w.AsRun(), w.After(6)).agg, w.server, w.tool, later)
  {
    hide At;
    hide Next;
    hide Started;
    hide Unforgeable;
    hide Inv;
    hide Listed;
    hide SetState;
    hide Owes;
    hide Snapshot;
    var el := Some(ElevationOf(TimeBoxed(ttl), now));
    FirstGrant(w, TimeBoxed(ttl), now);
    InEveryWorld(w, 0);
    CommandStep(w, 3);
    SingleSets(w, Running, el, Some(1), Paused);
    ListStep(w, 4);
    CommandStep(w, 5);
    SingleSets(w, Paused, el, Some(1), Running);
    SingleLists(w, w.After(4), Paused, el, Some(1), listed);
    SingleLists(w, w.After(6), Running, el, Some(1), later);
    SameShownOwesNothing(w, w.After(5), Paused, el, Some(1), Running, el, Some(1), resumed);
  }

  lemma ListStep(w: World, n: nat)
    requires n < |w.steps| && w.steps[n].ListTools?
    ensures w.AsRun().events[w.After(n)] == w.steps[n] && At(w.AsRun(), w.After(n + 1)) == At(w.AsRun(), w.After(n))
  {
    hide At;
    WorldStep(w, n);
  }

  /** Granted for `ttl`, listed after the window, and granted anew with readings from within the window. */
  predicate GrantsLate(w: World, ttl: u64, now: u64, listed: u64, ttl': u64, late: u64) {
    && Grants(w, TimeBoxed(ttl), now) && |w.steps| == 7 && |w.challenges| == 2
    && w.challenges[1].1 == Elevate(w.server, TimeBoxed(ttl'))
    && w.steps[3] == ListTools(listed)
    && w.steps[4..7] == Submitted(w.client, w.signature, w.challenges[1].0, w.challenges[1].1, late, late)
    && late < now + ttl <= listed < late + ttl' && listed < U64_MAX
  }

  /** A grant reveals a write tool and owes nothing: the tool is missing from a listing, no notification becomes owed
      after it, and yet the same listing read at the same time now has the tool. */
  lemma GrantRevealsSilently(w: World, ttl: u64, now: u64, listed: u64, ttl': u64, late: u64)
    requires GrantsLate(w, ttl, now, listed, ttl', late)
    ensures Started(w.AsRun()) && Unforgeable(w.AsRun()) && |w.AsRun().events| == w.After(7)
    ensures w.AsRun().events[w.After(3)] == ListTools(listed)
    ensures !Listed(At(w.AsRun(), w.After(3)).agg, w.server, w.tool, listed)
    ensures forall m :: w.After(3) < m < w.After(7) ==> !Owes(w.AsRun(), m)
    ensures Listed(At(w.AsRun(), w.After(7)).agg, w.server, w.tool, listed)
  {
    hide At;
    hide Next;
    hide Started;
    hide Unforgeable;
    hide Inv;
    hide Listed;
    hide Owes;
    var el, el' := Some(ElevationOf(TimeBoxed(ttl), now)), Some(ElevationOf(TimeBoxed(ttl'), late));
    FirstGrant(w, TimeBoxed(ttl), now);
    InEveryWorld(w, 0);
    ListStep(w, 3);
    SubmissionStep(w, 4, 1, TimeBoxed(ttl'), late, Running, el);
    assert w.steps[4] == w.steps[4..7][0] && w.steps[5] == w.steps[4..7][1] && w.steps[6] == w.steps[4..7][2];
    SingleLists(w, w.After(3), Running, el, Some(1), listed);
    SingleLists(w, w.After(7), Running, el', Some(1), listed);
    WorldStep(w, 4);
    WorldStep(w, 5);
    WorldStep(w, 6);
    SameShownOwesNothing(w, w.After(4), Running, el, Some(1), Running, el, Some(1), late);
    SameShownOwesNothing(w, w.After(5), Running, el, Some(1), Running, el, Some(1), late);
    SameShownOwesNothing(w, w.After(6), Running, el, Some(1), Running, el', Some(1), late);
  }

  /** Both happen: windows of 20 and of 15 and 100 seconds, and readings between 0 and 30. */
  lemma SilentRevealsHappen(server: string, tool: string, client: string, first: Nonce, second: Nonce,
                            signature: seq<u8>)
    requires NAMESPACE_SEP !in server && |signature| == SIGNATURE_LENGTH
    ensures exists w: World :: PausesAndResumes(w, 20, 0, 5, 30) && w.server == server && w.tool == tool
    ensures exists w: World :: GrantsLate(w, 15, 0, 20, 100, 5) && w.server == server && w.tool == tool
  {
    var elevate := Elevate(server, TimeBoxed(20));
    var resuming := World(server, tool, ToolClass.Write, client, signature, [(first, elevate)],
                          Submitted(client, signature, first, elevate, 0, 0) +
                          [Command(PauseServer, server, 0, Err(Io)), ListTools(5),
                           Command(ResumeServer, server, 30, Err(Io))]);
    assert PausesAndResumes(resuming, 20, 0, 5, 30);
    var early, late := Elevate(server, TimeBoxed(15)), Elevate(server, TimeBoxed(100));
    var granting := World(server, tool, ToolClass.Write, client, signature, [(first, early), (second, late)],
                          Submitted(client, signature, first, early, 0, 0) + [ListTools(20)] +
                          Submitted(client, signature, second, late, 5, 5));
    assert GrantsLate(granting, 15, 0, 20, 100, 5);
  }

  // ----- Changes without a notification -----

  /** An expiry: with no step at all, a listed write tool is listed no more. */
  lemma ExpiryIsSilent(w: World, ttl: u64, now: u64, earlier: u64, later: u64)
    requires Grants(w, TimeBoxed(ttl), now) && |w.steps| == 3 && earlier < now + ttl <= later && earlier < U64_MAX
    ensures Started(w.AsRun()) && Unforgeable(w.AsRun()) && |w.AsRun().events| == w.After(3)
    ensures Listed(At(w.AsRun(), w.After(3)).agg, w.server, w.tool, earlier)
    ensures !Listed(At(w.AsRun(), w.After(3)).agg, w.server, w.tool, later)
  {
    hide At;
    hide Started;
    hide Unforgeable;
    hide Inv;
    hide Listed;
    var el := Some(ElevationOf(TimeBoxed(ttl), now));
    FirstGrant(w, TimeBoxed(ttl), now);
    InEveryWorld(w, 0);
    SingleLists(w, w.After(3), Running, el, Some(1), earlier);
    SingleLists(w, w.After(3), Running, el, Some(1), later);
  }

  /** A fault: a call whose child does not answer ends the listing of the tool and owes no notification; and although
      the child was asked to run a write tool, no audit entry is recorded or owed. */
  lemma FaultIsSilent(w: World, now: u64, arguments: Value, called: u64, error: ChildError, later: u64)
    requires Grants(w, OpenEnded, now) && |w.steps| == 4 && error.IsFault()
    requires w.steps[3] == CallTool(ExternalName(w.server, w.tool), arguments, called, Err(error))
    ensures Started(w.AsRun()) && Unforgeable(w.AsRun()) && |w.AsRun().events| == w.After(4)
    ensures Seen(w.AsRun(), w.After(3)) == Faulted(w.server, w.tool) && !Owes(w.AsRun(), w.After(3))
    ensures Listed(At(w.AsRun(), w.After(3)).agg, w.server, w.tool, called)
    ensures !Listed(At(w.AsRun(), w.After(4)).agg, w.server, w.tool, later)
    ensures Reaches(w.AsRun(), w.After(3))
    ensures At(w.AsRun(), w.After(4)).audit == At(w.AsRun(), w.After(3)).audit
    ensures At(w.AsRun(), w.After(4)).owedAudit == At(w.AsRun(), w.After(3)).owedAudit
  {
    hide At;
    hide Next;
    hide Started;
    hide Unforgeable;
    hide Inv;
    hide Listed;
    hide Owes;
    hide ExternalName;
    hide SplitOnce;
    hide Observe;
    hide ExposureDiffers;
    hide Call;
    hide OperatorClass;
    hide FindServer;
    FirstGrant(w, OpenEnded, now);
    InEveryWorld(w, 0);
    WorldStep(w, 3);
    SingleLists(w, w.After(3), Running, Some(ElevationOf(OpenEnded, now)), Some(1), called);
    SingleFaults(w, UntilRevokedFrom(now), arguments, called, error);
    ObserveCall(w.Keys(), At(w.AsRun(), w.After(3)), w.steps[3]);
    OnlyFaultsChangeSilently(w.AsRun(), w.After(3));
    NextAgg(w.Keys(), At(w.AsRun(), w.After(3)), w.steps[3]);
    SingleLists(w, w.After(4), Stopped, None, Some(1), later);
    WriteIsAuditedExactlyWhenAnswered(w.AsRun(), w.After(3));
    SplitOfExternalName(w.server, w.tool);
    SingleClass(w);
  }

  lemma SingleClass(w: World)
    ensures OperatorClass(w.AsRun().manifest, w.server, w.tool) == w.cls
  {
    hide FindServer;
    SingleFinds(w, Running, None, Some(1), w.server);
  }

  lemma ObserveCall(auth: Authority, s: Sys, e: Event)
    requires e.CallTool?
    ensures Observe(auth, s, e) == CallOutcome(s.agg, e.name, e.arguments, e.now, e.reply)
  {
    hide CallOutcome;
  }

  lemma SingleFaults(w: World, elevation: Elevation, arguments: Value, now: u64, error: ChildError)
    requires w.Valid() && w.cls == ToolClass.Write && error.IsFault() && elevation.IsActive(now)
    ensures var a, name := w.Single(Running, Some(elevation), Some(1)), ExternalName(w.server, w.tool);
            && Call(a, name, arguments, now, Err(error)).agg == w.Single(Stopped, None, Some(1))
            && CallOutcome(a, name, arguments, now, Err(error)) == Faulted(w.server, w.tool)
            && Call(a, name, arguments, now, Err(error)).sent.Some?
  {
    hide SlotOf;
    hide FindServer;
    hide ExternalName;
    hide SplitOnce;
    hide DefsOf;
    hide PutSlot;
    hide ResolveExposure;
    SplitOfExternalName(w.server, w.tool);
    SingleFinds(w, Running, Some(elevation), Some(1), w.server);
    SingleShows(w, Running, Some(elevation), now);
    PositionUnique(w.OneSlot(Running, None).tools, (t: ClassifiedTool) => t.name == w.tool, 0);
    SinglePut(w, Running, Some(elevation), Some(1), Stopped, None);
  }

  // ----- A confirmation used up for nothing -----

  /** Granted until revoked, stopped, resumed without a child, approved and called. */
  predicate ResumesWithoutChild(w: World, now: u64, arguments: Value, called: u64, reply: Result<Value, ChildError>) {
    && Elevates(w, OpenEnded, now) && w.cls == ToolClass.Confirm && |w.steps| == 9 && |w.challenges| == 2
    && w.challenges[1].1 == ConfirmAction(w.server, w.tool)
    && w.steps[3] == Command(StopServer, w.server, now, Err(Io))
    && w.steps[4] == Command(ResumeServer, w.server, now, Err(Io))
    && w.steps[5..8] == Submitted(w.client, w.signature, w.challenges[1].0, w.challenges[1].1, now, now)
    && w.steps[8] == CallTool(ExternalName(w.server, w.tool), arguments, called, reply)
    && called <= now + CONFIRMATION_TTL_SECS
  }

  lemma RunningWithoutChild(w: World, now: u64, arguments: Value, called: u64, reply: Result<Value, ChildError>)
    requires ResumesWithoutChild(w, now, arguments, called, reply)
    ensures var s := At(w.AsRun(), w.After(5));
            && s.agg == w.Single(Running, Some(UntilRevokedFrom(now)), None) && s.nonces == [] && s.inflight == map[]
  {
    hide At;
    hide Next;
    hide Aggregator.Stop;
    hide SetState;
    hide World.Single;
    var el := Some(ElevationOf(OpenEnded, now));
    FirstGrant(w, OpenEnded, now);
    CommandStep(w, 3);
    SingleStops(w, Running, el, Some(1));
    CommandKeepsQueues(w, 3);
    CommandStep(w, 4);
    SingleSets(w, Stopped, el, None, Running);
    CommandKeepsQueues(w, 4);
  }

  /** Where the run stands before its call. */
  lemma ApprovedWithoutChild(w: World, now: u64, arguments: Value, called: u64, reply: Result<Value, ChildError>)
    requires ResumesWithoutChild(w, now, arguments, called, reply)
    ensures At(w.AsRun(), w.After(8)).agg ==
            w.Single(Running, Some(UntilRevokedFrom(now)),
                     None).(confirmations := [Confirmation(w.server, w.tool, now)])
  {
    hide At;
    hide Next;
    hide World.Single;
    hide ApproveAction;
    RunningWithoutChild(w, now, arguments, called, reply);
    assert w.steps[5] == w.steps[5..8][0] && w.steps[6] == w.steps[5..8][1] && w.steps[7] == w.steps[5..8][2];
    WorldStep(w, 5);
    WorldStep(w, 6);
    WorldStep(w, 7);
    SubmissionApplied(w, At(w.AsRun(), w.After(5)), 1, now, now);
    SingleApproves(w, Running, Some(UntilRevokedFrom(now)), None, now);
  }

  /** `resume` runs a server whose child `stop` has given up; an approved call of its listed confirm tool then takes the
      confirmation, reaches no child and is refused as unknown. */
  lemma ApprovalIsWasted(w: World, now: u64, arguments: Value, called: u64, reply: Result<Value, ChildError>)
    requires ResumesWithoutChild(w, now, arguments, called, reply)
    ensures Started(w.AsRun()) && Unforgeable(w.AsRun()) && |w.AsRun().events| == w.After(9)
    ensures At(w.AsRun(), w.After(8)).agg.confirmations == [Confirmation(w.server, w.tool, now)]
    ensures At(w.AsRun(), w.After(9)).agg.confirmations == []
    ensures w.AsRun().events[w.After(8)] == w.steps[8]
    ensures Report(w.AsRun(), w.After(8)).sent.None?
    ensures Report(w.AsRun(), w.After(8)).result == Err(UnknownTool(ExternalName(w.server, w.tool)))
  {
    hide At;
    hide Next;
    hide Started;
    hide Unforgeable;
    hide Inv;
    hide ExternalName;
    hide Call;
    InEveryWorld(w, 0);
    ApprovedWithoutChild(w, now, arguments, called, reply);
    WorldStep(w, 8);
    NextAgg(w.Keys(), At(w.AsRun(), w.After(8)), w.steps[8]);
    SingleWastes(w, UntilRevokedFrom(now), now, arguments, called, reply);
  }

  lemma CommandKeepsQueues(w: World, n: nat)
    requires n < |w.steps| && w.steps[n].Command?
    ensures var s, s' := At(w.AsRun(), w.After(n)), At(w.AsRun(), w.After(n + 1));
            s'.nonces == s.nonces && s'.inflight == s.inflight
  {
    hide At;
    hide AfterCommand;
    WorldStep(w, n);
  }

  lemma SingleApproves(w: World, state: ServerState, elevation: Option<Elevation>, child: Option<Handle>, now: u64)
    ensures ApproveAction(w.Single(state, elevation, child), w.server, w.tool, now) ==
            w.Single(state, elevation, child).(confirmations := [Confirmation(w.server, w.tool, now)])
  {
    hide DefsOf;
    assert Retain([], UsableAt(now)) + [Confirmation(w.server, w.tool, now)] == [Confirmation(w.server, w.tool, now)];
  }

  lemma OnlyApprovalTaken(server: string, tool: string, approved: u64, now: u64)
    requires now <= approved + CONFIRMATION_TTL_SECS
    ensures var held := [Confirmation(server, tool, approved)];
            Position(held, Approves(server, tool, now)) == 0 && SwapRemove(held, 0) == []
  {
    PositionUnique([Confirmation(server, tool, approved)], Approves(server, tool, now), 0);
  }

  lemma SingleWastes(w: World, elevation: Elevation, approved: u64, arguments: Value, now: u64,
                     reply: Result<Value, ChildError>)
    requires w.Valid() && w.cls == ToolClass.Confirm && elevation.IsActive(now)
             && now <= approved + CONFIRMATION_TTL_SECS
    ensures var a, name := w.Single(Running, Some(elevation), None), ExternalName(w.server, w.tool);
            Call(a.(confirmations := [Confirmation(w.server, w.tool, approved)]), name, arguments, now, reply)
            == CallReport(a, Err(UnknownTool(name)), None)
  {
    hide SlotOf;
    hide FindServer;
    hide ExternalName;
    hide SplitOnce;
    hide DefsOf;
    hide ResolveExposure;
    hide Position;
    hide SwapRemove;
    SplitOfExternalName(w.server, w.tool);
    SingleFinds(w, Running, Some(elevation), None, w.server);
    SingleShows(w, Running, Some(elevation), now);
    SingleClassIn(w);
    OnlyApprovalTaken(w.server, w.tool, approved, now);
  }

  lemma SingleClassIn(w: World)
    ensures ClassIn(w.OneSlot(Running, None).tools, w.tool) == Some(w.cls)
  {
    PositionUnique(w.OneSlot(Running, None).tools, (t: ClassifiedTool) => t.name == w.tool, 0);
  }

  // ----- A pruned nonce -----

  /** A nonce is issued, another one is asked for more than 60 seconds later, and then the first is submitted. */
  predicate AsksAgain(w: World, issued: u64, again: u64, submitted: u64) {
    && w.Valid() && |w.challenges| == 2 && w.challenges[0].0 != w.challenges[1].0
    && w.steps == [Issue(w.client, w.challenges[0].1, issued, Some(w.challenges[0].0)),
                   Issue(w.client, w.challenges[1].1, again, Some(w.challenges[1].0)),
                   Verify(0, w.client, w.challenges[0].0, w.signature, submitted)]
    && issued + NONCE_TTL_SECS < again
  }

  lemma {:induction false} SigningAsksNothing(w: World, k: nat)
    requires k <= |w.challenges|
    ensures StoreOps(w.AsRun(), k) == []
  {
    hide At;
    if k > 0 {
      SigningAsksNothing(w, k - 1);
      assert w.AsRun().events[k - 1] == Sign(1, w.challenges[k - 1].0, w.client, w.challenges[k - 1].1);
    }
  }

  /** The submission is answered as of an unknown nonce; if it is read after both issues, a store that never prunes
      answers that the nonce has expired. */
  lemma PrunedIsUnknown(w: World, issued: u64, again: u64, submitted: u64)
    requires AsksAgain(w, issued, again, submitted)
    ensures Started(w.AsRun()) && Unforgeable(w.AsRun()) && |w.AsRun().events| == w.After(3)
    ensures Seen(w.AsRun(), w.After(2)) == Denied(w.client, UnknownOrUsedNonce)
    ensures var ops := StoreOps(w.AsRun(), w.After(2));
            issued + NONCE_TTL_SECS < submitted ==>
              MapStep(w.Keys(), MapAt(w.Keys(), ops, |ops|),
                      SubmitOp(w.client, w.challenges[0].0, w.signature, submitted)).1
              == Judged(Err(NonceExpired))
  {
    hide At;
    hide Next;
    hide Started;
    hide Unforgeable;
    hide Inv;
    hide Seen;
    hide MapStep;
    hide MapAt;
    InEveryWorld(w, 0);
    WorldStep(w, 2);
    PrunedIsDenied(w, issued, again, submitted);
    SigningAsksNothing(w, w.After(0));
    TwoOps(w);
    if issued + NONCE_TTL_SECS < submitted {
      MapAfterTwo(w, issued, again, submitted);
    }
  }

  lemma PrunedIsDenied(w: World, issued: u64, again: u64, submitted: u64)
    requires AsksAgain(w, issued, again, submitted)
    ensures w.After(2) < |w.AsRun().events|
    ensures Seen(w.AsRun(), w.After(2)) == Denied(w.client, UnknownOrUsedNonce)
  {
    hide At;
    hide Next;
    hide AfterIssue;
    hide AfterAttempt;
    hide World.Single;
    WorldBegins(w);
    WorldStep(w, 0);
    WorldStep(w, 1);
    WorldStep(w, 2);
    var r := w.AsRun();
    NoncesAfter(w.Keys(), At(r, w.After(0)), w.steps[0]);
    NoncesAfter(w.Keys(), At(r, w.After(1)), w.steps[1]);
    InflightAfter(w.Keys(), At(r, w.After(0)), w.steps[0]);
    InflightAfter(w.Keys(), At(r, w.After(1)), w.steps[1]);
    TwoIssues(w, issued, again, submitted);
  }

  /** The vector: the second issue drops the first entry, and the attempt on it finds nothing. */
  lemma TwoIssues(w: World, issued: u64, again: u64, submitted: u64)
    requires AsksAgain(w, issued, again, submitted)
    ensures var first := AfterIssue([], w.client, w.challenges[0].1, issued, Some(w.challenges[0].0)).0;
            var second := AfterIssue(first, w.client, w.challenges[1].1, again, Some(w.challenges[1].0)).0;
            AfterAttempt(w.Keys(), second, w.client, w.challenges[0].0, w.signature, submitted).1 ==
              Err(UnknownOrUsedNonce)
  {
    hide Judge;
    var (n1, p1) := w.challenges[0];
    var (n2, p2) := w.challenges[1];
    assert Retain([], FreshAt(issued)) == [];
    var first := [Pending(n1, w.client, p1, issued)];
    assert AfterIssue([], w.client, p1, issued, Some(n1)).0 == first;
    assert first[..0] == [];
    assert Retain(first, FreshAt(again)) == [];
    var second := [Pending(n2, w.client, p2, again)];
    assert AfterIssue(first, w.client, p2, again, Some(n2)).0 == second;
    PositionUnique(second, Matches(n1, w.client), 1);
  }

  lemma TwoOps(w: World)
    requires |w.steps| == 3 && w.steps[0].Issue? && w.steps[1].Issue?
    requires StoreOps(w.AsRun(), w.After(0)) == []
    ensures var (a, b) := (w.steps[0], w.steps[1]);
            StoreOps(w.AsRun(), w.After(2)) ==
              [IssueOp(a.client, a.purpose, a.now, a.rng), IssueOp(b.client, b.purpose, b.now, b.rng)]
  {
    hide At;
    WorldStep(w, 0);
    WorldStep(w, 1);
    var r := w.AsRun();
    assert StoreOps(r, w.After(1)) == StoreOps(r, w.After(0)) + OpOf(r, w.After(0));
    assert StoreOps(r, w.After(2)) == StoreOps(r, w.After(1)) + OpOf(r, w.After(1));
  }

  /** The map: both entries are there, and the first has expired. */
  lemma MapAfterTwo(w: World, issued: u64, again: u64, submitted: u64)
    requires AsksAgain(w, issued, again, submitted) && issued + NONCE_TTL_SECS < submitted
    ensures var ops := [IssueOp(w.client, w.challenges[0].1, issued, Some(w.challenges[0].0)),
                        IssueOp(w.client, w.challenges[1].1, again, Some(w.challenges[1].0))];
            MapStep(w.Keys(), MapAt(w.Keys(), ops, |ops|),
                    SubmitOp(w.client, w.challenges[0].0, w.signature, submitted)).1
            == Judged(Err(NonceExpired))
  {
    hide ChallengeMessage;
    var (n1, p1) := w.challenges[0];
    var (n2, p2) := w.challenges[1];
    var ops := [IssueOp(w.client, p1, issued, Some(n1)), IssueOp(w.client, p2, again, Some(n2))];
    var auth := w.Keys();
    assert MapAt(auth, ops, 0) == map[];
    IssueOnStaleMap(auth, map[], ops[0]);
    assert MapAt(auth, ops, 1) == map[n1 := Pending(n1, w.client, p1, issued)];
    IssueOnStaleMap(auth, MapAt(auth, ops, 1), ops[1]);
    assert MapAt(auth, ops, 2) == map[n1 := Pending(n1, w.client, p1, issued), n2 := Pending(n2, w.client, p2, again)];
  }

  lemma IssueOnStaleMap(auth: Authority, m: map<Nonce, Pending>, op: Op)
    requires op.IssueOp? && op.rng.Some? && forall n :: n in m ==> !m[n].Fresh(op.now)
    ensures MapStep(auth, m, op).0 == m[op.rng.value := Pending(op.rng.value, op.client, op.purpose, op.now)]
  {
    var live := set n | n in m && m[n].Fresh(op.now);
    assert live == {};
  }

  /** All of these runs exist, for every server, tool and client. */
  lemma ScenariosHappen(server: string, tool: string, client: string, first: Nonce, signature: seq<u8>)
    requires NAMESPACE_SEP !in server && |signature| == SIGNATURE_LENGTH
    ensures exists w: World :: Restarts(w, 0) && w.server == server && w.tool == tool
    ensures exists w: World :: Grants(w, TimeBoxed(10), 0) && |w.steps| == 3 && w.server == server && w.tool == tool
    ensures exists w: World :: Grants(w, OpenEnded, 0) && w.server == server && w.tool == tool
                               && w.steps[3..] == [CallTool(ExternalName(server, tool), "{}", 1, Err(Timeout))]
  {
    hide ExternalName;
    var elevate, short := Elevate(server, OpenEnded), Elevate(server, TimeBoxed(10));
    var granted := Submitted(client, signature, first, elevate, 0, 0);
    var restarting := World(server, tool, ToolClass.Write, client, signature, [(first, elevate)],
                            granted + [Command(StopServer, server, 0, Err(Io)),
                                       Command(StartServer, server, 0, Ok(Spawned(2, [ToolDef(tool, map[])])))]);
    assert Restarts(restarting, 0);
    var expiring := World(server, tool, ToolClass.Write, client, signature, [(first, short)],
                          Submitted(client, signature, first, short, 0, 0));
    assert Grants(expiring, TimeBoxed(10), 0);
    var faulting := World(server, tool, ToolClass.Write, client, signature, [(first, elevate)],
                          granted + [CallTool(ExternalName(server, tool), "{}", 1, Err(Timeout))]);
    assert Grants(faulting, OpenEnded, 0)
           && faulting.steps[3..] == [CallTool(ExternalName(server, tool), "{}", 1, Err(Timeout))];
  }

  /** And so does the one with a pruned nonce. */
  lemma PruningHappens(server: string, tool: string, client: string, first: Nonce, second: Nonce, signature: seq<u8>)
    requires NAMESPACE_SEP !in server && |signature| == SIGNATURE_LENGTH && first != second
    ensures exists w: World :: AsksAgain(w, 0, 61, 61) && w.server == server && w.tool == tool
  {
    var elevate := Elevate(server, OpenEnded);
    var asking := World(server, tool, ToolClass.Write, client, signature, [(first, elevate), (second, elevate)],
                        [Issue(client, elevate, 0, Some(first)), Issue(client, elevate, 61, Some(second)),
                         Verify(0, client, first, signature, 61)]);
    assert AsksAgain(asking, 0, 61, 61);
  }

  /** And the one with a wasted approval. */
  lemma WasteHappens(server: string, tool: string, client: string, first: Nonce, second: Nonce, signature: seq<u8>)
    requires NAMESPACE_SEP !in server && |signature| == SIGNATURE_LENGTH
    ensures exists w: World :: ResumesWithoutChild(w, 0, "{}", 1, Ok("null")) && w.server == server && w.tool == tool
  {
    hide ExternalName;
    var elevate, confirm := Elevate(server, OpenEnded), ConfirmAction(server, tool);
    var wasting := World(server, tool, ToolClass.Confirm, client, signature, [(first, elevate), (second, confirm)],
                         Submitted(client, signature, first, elevate, 0, 0) +
                         [Command(StopServer, server, 0, Err(Io)), Command(ResumeServer, server, 0, Err(Io))] +
                         Submitted(client, signature, second, confirm, 0, 0) +
                         [CallTool(ExternalName(server, tool), "{}", 1, Ok("null"))]);
    assert ResumesWithoutChild(wasting, 0, "{}", 1, Ok("null"));
  }
}
