/** Runs of the whole broker: the handlers' critical sections interleaved in any order, by any number of
    threads, with any clock readings and any behaviour of clients, children and the random generator. */
module Runs {
  import opened Base
  import opened Names
  import opened Manifest
  import opened Policy
  import opened Broker
  import opened Hex
  import opened Challenge
  import opened Nonces
  import opened Aggregator
  import opened Audit
  import opened Handlers

  /** A submission whose nonce has been consumed and whose effect has not yet been applied. */
  datatype Inflight = Inflight(client: string, verified: Verified, now: u64)

  datatype Sys = Sys(agg: Agg, nonces: seq<Pending>, inflight: map<nat, Inflight>, signed: set<(Key, string)>,
                     owedNotices: nat, sentNotices: nat, owedAudit: multiset<AuditEvent>, audit: seq<AuditEvent>)

  /** One atomic step. `Verify` and `Apply` are the two critical sections of one `submit` by thread `tid`.
      `Sign` is a client signing a challenge with its key. `Record` and `Notify` are the effects a handler has
      after it has released the aggregator's lock. */
  datatype Event =
    | Issue(client: string, purpose: Purpose, now: u64, rng: Option<Nonce>)
    | Sign(key: Key, nonce: Nonce, client: string, purpose: Purpose)
    | Verify(tid: nat, client: string, nonce: Nonce, signature: seq<u8>, now: u64)
    | Apply(tid: nat)
    | Command(op: LifecycleOp, id: string, now: u64, spawn: SpawnOutcome)
    | Revoke(id: string, now: u64)
    | CallTool(name: string, arguments: Value, now: u64, reply: Result<Value, ChildError>)
    | ListTools(now: u64)
    | Record(event: AuditEvent)
    | Notify

  function ErrorText(e: ElevationError): string {
    match e
    case Rng => "random number generation failed"
    case UnknownOrUsedNonce => "unknown or already-used nonce"
    case TooManyPending => "too many outstanding nonces"
    case NonceExpired => "nonce expired"
    case UnknownClient => "unknown client"
    case Malformed => "malformed key or signature"
    case BadSignature => "signature verification failed"
  }

  function Owing(s: Sys, changed: bool, event: AuditEvent): Sys {
    s.(owedNotices := s.owedNotices + (if changed then 1 else 0), owedAudit := s.owedAudit + multiset{event})
  }

  function AfterVerify(auth: Authority, s: Sys, tid: nat, client: string, nonce: Nonce, signature: seq<u8>, now: u64)
    : (s': Sys)
    ensures s'.agg == s.agg && s'.signed == s.signed
    ensures s'.nonces == AfterAttempt(auth, s.nonces, client, nonce, signature, now).0
    ensures s'.inflight == match AfterAttempt(auth, s.nonces, client, nonce, signature, now).1
                           case Ok(verified) => s.inflight[tid := Inflight(client, verified, now)]
                           case Err(_) => s.inflight
  {
    var (rest, r) := AfterAttempt(auth, s.nonces, client, nonce, signature, now);
    match r
    case Ok(verified) => s.(nonces := rest, inflight := s.inflight[tid := Inflight(client, verified, now)])
    case Err(e) => Owing(s.(nonces := rest), false, ElevationDenied("(unknown)", client, ErrorText(e)))
  }

  function AfterApply(s: Sys, tid: nat): (s': Sys)
    requires tid in s.inflight
    ensures s'.inflight == s.inflight - {tid} && s'.nonces == s.nonces && s'.signed == s.signed
  {
    var f := s.inflight[tid];
    var s' := s.(inflight := s.inflight - {tid});
    match f.verified
    case ElevationVerified(server, elevation) =>
      var section := SetElevation(s.agg, server, Some(elevation), f.now);
      if section.result.Err? then s'
      else Owing(s'.(agg := section.agg), section.changed, ElevationGranted(server, f.client, ModeName(elevation)))
    case ActionVerified(server, tool) =>
      Owing(s'.(agg := ApproveAction(s.agg, server, tool, f.now)), false, ConfirmApproved(server, tool))
  }

  function AfterRevoke(s: Sys, id: string, now: u64): (s': Sys)
    ensures s'.inflight == s.inflight && s'.nonces == s.nonces && s'.signed == s.signed
  {
    var section := SetElevation(s.agg, id, None, now);
    if section.result.Err? then s else Owing(s.(agg := section.agg), section.changed, ElevationRevoked(id, "operator"))
  }

  function AfterCommand(s: Sys, op: LifecycleOp, id: string, now: u64, spawn: SpawnOutcome): (s': Sys)
    ensures s'.inflight == s.inflight && s'.nonces == s.nonces && s'.signed == s.signed
  {
    var section := Lifecycle(s.agg, op, id, now, spawn);
    s.(agg := section.agg, owedNotices := s.owedNotices + (if section.changed then 1 else 0))
  }

  function AfterCall(s: Sys, name: string, arguments: Value, now: u64, reply: Result<Value, ChildError>): (s': Sys)
    ensures s'.inflight == s.inflight && s'.nonces == s.nonces && s'.signed == s.signed
  {
    var report := Call(s.agg, name, arguments, now, reply);
    var s' := s.(agg := report.agg);
    match CallAudit(name, ToolClassOf(s.agg, name), report.result)
    case None => s'
    case Some(event) => Owing(s', false, event)
  }

  /** The state after one step; a step that its thread or owed effect does not allow does nothing. */
  function Next(auth: Authority, s: Sys, e: Event): Sys {
    match e
    case Issue(client, purpose, now, rng) => s.(nonces := AfterIssue(s.nonces, client, purpose, now, rng).0)
    case Sign(key, nonce, client, purpose) =>
      s.(signed := s.signed + {(key, ChallengeMessage(nonce, client, purpose))})
    case Verify(tid, client, nonce, signature, now) =>
      if tid in s.inflight then s else AfterVerify(auth, s, tid, client, nonce, signature, now)
    case Apply(tid) => if tid in s.inflight then AfterApply(s, tid) else s
    case Command(op, id, now, spawn) => AfterCommand(s, op, id, now, spawn)
    case Revoke(id, now) => AfterRevoke(s, id, now)
    case CallTool(name, arguments, now, reply) => AfterCall(s, name, arguments, now, reply)
    case ListTools(_) => s
    case Record(event) =>
      if event in s.owedAudit then s.(owedAudit := s.owedAudit - multiset{event}, audit := s.audit + [event]) else s
    case Notify => if s.owedNotices > 0 then s.(owedNotices := s.owedNotices - 1, sentNotices := s.sentNotices + 1)
      else s
  }

  /** A run: the fixed keys and manifest, the outcomes of the first spawns, and the steps taken. */
  datatype Run = Run(auth: Authority, manifest: seq<ServerManifest>, outcomes: seq<SpawnOutcome>, start: Sys,
                     events: seq<Event>)

  /** The broker has just been built from a validated manifest. */
  ghost predicate Started(r: Run) {
    && DistinctIds(r.manifest) && |r.outcomes| == |r.manifest|
    && Built(r.start.agg, r.manifest, r.outcomes)
    && r.start.nonces == [] && r.start.inflight == map[] && r.start.signed == {}
    && r.start.owedNotices == 0 && r.start.sentNotices == 0
    && r.start.owedAudit == multiset{} && r.start.audit == []
  }

  /** The state after the first `k` steps. */
  function At(r: Run, k: nat): Sys
    requires k <= |r.events|
  {
    if k == 0 then r.start else Next(r.auth, At(r, k - 1), r.events[k - 1])
  }

  lemma StepIsNext(r: Run, k: nat)
    requires k < |r.events|
    ensures At(r, k + 1) == Next(r.auth, At(r, k), r.events[k])
  {
  }

  lemma FirstState(r: Run)
    ensures At(r, 0) == r.start
  {
  }

  lemma OutcomePerServer(r: Run)
    requires Started(r)
    ensures |r.outcomes| == |r.manifest|
  {
  }

  /** The clock reading a step acts on, if it has one. */
  function Reading(s: Sys, e: Event): Option<u64> {
    match e
    case Issue(_, _, now, _) => Some(now)
    case Verify(_, _, _, _, now) => Some(now)
    case Apply(tid) => if tid in s.inflight then Some(s.inflight[tid].now) else None
    case Command(_, _, now, _) => Some(now)
    case Revoke(_, now) => Some(now)
    case CallTool(_, _, now, _) => Some(now)
    case ListTools(now) => Some(now)
    case _ => None
  }

  // ----- What a step is seen to do -----

  /** The visible outcome of a step: what a handler reports, or what reaches a child. */
  datatype Outcome =
    | Commanded(op: LifecycleOp, id: string)
    | Granted(id: string, client: string, elevation: Elevation)
    | Revoked(id: string)
    | Approved(id: string, tool: string, now: u64)
    | Denied(client: string, error: ElevationError)
    | Invoked(id: string, tool: string)
    | Answered(id: string, tool: string)
    | Faulted(id: string, tool: string)
    | Refused(id: string, tool: string)
    | Quiet

  function CallOutcome(a: Agg, name: string, arguments: Value, now: u64, reply: Result<Value, ChildError>): Outcome {
    var report := Call(a, name, arguments, now, reply);
    match SplitOnce(name)
    case None => Quiet
    case Some((server, tool)) =>
      if report.sent.Some? then
        (match reply
         case Ok(_) => Invoked(server, tool)
         case Err(e) => if e.IsFault() then Faulted(server, tool) else Answered(server, tool))
      else if report.result == Err(NotConfirmed(name)) then Refused(server, tool)
      else Quiet
  }

  function Observe(auth: Authority, s: Sys, e: Event): Outcome {
    match e
    case Verify(tid, client, nonce, signature, now) =>
      if tid in s.inflight then Quiet
      else
        (match AfterAttempt(auth, s.nonces, client, nonce, signature, now).1
         case Ok(_) => Quiet
         case Err(error) => Denied(client, error))
    case Apply(tid) =>
      if tid !in s.inflight then Quiet
      else
        var f := s.inflight[tid];
        (match f.verified
         case ElevationVerified(server, elevation) =>
           if SlotOf(s.agg.servers, server).Some? then Granted(server, f.client, elevation) else Quiet
         case ActionVerified(server, tool) => Approved(server, tool, f.now))
    case Command(op, id, _, spawn) => if RunOp(s.agg, op, id, spawn).1.Ok? then Commanded(op, id) else Quiet
    case Revoke(id, _) => if SlotOf(s.agg.servers, id).Some? then Revoked(id) else Quiet
    case CallTool(name, arguments, now, reply) => CallOutcome(s.agg, name, arguments, now, reply)
    case _ => Quiet
  }

  function Seen(r: Run, k: nat): Outcome
    requires k < |r.events|
  {
    Observe(r.auth, At(r, k), r.events[k])
  }

  // ----- Every step keeps the aggregator invariant -----

  /** What a step does to the aggregator. */
  function AggAfter(s: Sys, e: Event): Agg {
    match e
    case Apply(tid) =>
      if tid !in s.inflight then s.agg
      else
        var f := s.inflight[tid];
        (match f.verified
         case ElevationVerified(server, elevation) => SetElevation(s.agg, server, Some(elevation), f.now).agg
         case ActionVerified(server, tool) => ApproveAction(s.agg, server, tool, f.now))
    case Command(op, id, _, spawn) => RunOp(s.agg, op, id, spawn).0
    case Revoke(id, now) => SetElevation(s.agg, id, None, now).agg
    case CallTool(name, arguments, now, reply) => Call(s.agg, name, arguments, now, reply).agg
    case _ => s.agg
  }

  lemma NextAgg(auth: Authority, s: Sys, e: Event)
    ensures Next(auth, s, e).agg == AggAfter(s, e)
  {
    hide Call;
    hide RunOp;
    hide AfterAttempt;
    hide AfterIssue;
  }

  lemma AggAfterKeepsInv(s: Sys, e: Event)
    requires Inv(s.agg)
    ensures Inv(AggAfter(s, e)) && AggAfter(s, e).manifest == s.agg.manifest
  {
    hide Inv;
    hide Call;
    hide RunOp;
    hide SetElevation;
    hide ApproveAction;
    match e
    case Apply(tid) =>
      if tid in s.inflight {
        var f := s.inflight[tid];
        match f.verified
        case ElevationVerified(server, elevation) => SetElevationKeepsInv(s.agg, server, Some(elevation), f.now);
        case ActionVerified(server, tool) => ApproveKeepsInv(s.agg, server, tool, f.now);
      }
    case Command(op, id, _, spawn) => RunOpKeepsInv(s.agg, op, id, spawn);
    case Revoke(id, now) => SetElevationKeepsInv(s.agg, id, None, now);
    case CallTool(name, arguments, now, reply) => CallKeepsInv(s.agg, name, arguments, now, reply);
    case _ =>
  }

  /** In every run, at every point: slots, children, definitions and manifest fit together, and every tool is
      classed as the operator says, or as write. */
  lemma {:induction false} InvAlways(r: Run, k: nat)
    requires Started(r) && k <= |r.events|
    ensures Inv(At(r, k).agg) && At(r, k).agg.manifest == r.manifest
  {
    hide Inv;
    hide Next;
    hide AggAfter;
    if k == 0 {
      BuildEstablishesInv(r.start.agg, r.manifest, r.outcomes);
    } else {
      InvAlways(r, k - 1);
      NextAgg(r.auth, At(r, k - 1), r.events[k - 1]);
      AggAfterKeepsInv(At(r, k - 1), r.events[k - 1]);
    }
  }

  // ----- What a step does to one slot -----

  function StateAfter(outcome: Outcome, id: string, state: ServerState): ServerState {
    match outcome
    case Commanded(op, id') => if id' == id then Target(op) else state
    case Faulted(id', _) => if id' == id then Stopped else state
    case _ => state
  }

  function ElevationAfter(outcome: Outcome, id: string, elevation: Option<Elevation>): Option<Elevation> {
    match outcome
    case Granted(id', _, e) => if id' == id then Some(e) else elevation
    case Revoked(id') => if id' == id then None else elevation
    case Faulted(id', _) => if id' == id then None else elevation
    case _ => elevation
  }

  /** State and elevation of the slot found under an id; an id without a slot has neither. */
  function Lights(a: Agg, id: string): Option<(ServerState, Option<Elevation>)> {
    var slot :- SlotOf(a.servers, id);
    Some((slot.state, slot.elevation))
  }

  lemma CommandLights(a: Agg, op: LifecycleOp, id: string, spawn: SpawnOutcome, x: string)
    ensures var (a', r) := RunOp(a, op, id, spawn);
            Lights(a', x) == match Lights(a, x)
                             case None => None
                             case Some((st, el)) => Some((if r.Ok? && x == id then Target(op) else st, el))
  {
    match SlotOf(a.servers, id)
    case None =>
    case Some(slot) =>
      PutSlotFrame(a.servers, slot.(state := Target(op)), x);
      if op.StartServer? && FindServer(a.manifest, id).Some? && id !in a.children && spawn.Ok? {
        var installed := Install(a, FindServer(a.manifest, id).value, id, spawn.value);
        var tools := ClassifyAdvertised(FindServer(a.manifest, id).value.tools, NamesOf(spawn.value.listing));
        PutSlotFrame(a.servers, slot.(tools := tools), x);
        PutSlotFrame(a.servers, slot.(tools := tools), id);
        PutSlotFrame(installed.servers, slot.(tools := tools, state := Running), x);
      }
  }

  lemma RouteLights(a: Agg, name: string, server: string, tool: string, arguments: Value,
                    reply: Result<Value, ChildError>, x: string)
    ensures var report := Route(a, name, server, tool, arguments, reply);
            Lights(report.agg, x) ==
            if report.sent.Some? && reply.Err? && reply.error.IsFault() && x == server && Lights(a, x).Some? then
              Some((Stopped, None))
            else Lights(a, x)
  {
    match SlotOf(a.servers, server)
    case None =>
    case Some(slot) => PutSlotFrame(a.servers, slot.(state := Stopped, elevation := None), x);
  }

  lemma CallLights(a: Agg, name: string, arguments: Value, now: u64, reply: Result<Value, ChildError>, x: string)
    ensures var outcome := CallOutcome(a, name, arguments, now, reply);
            Lights(Call(a, name, arguments, now, reply).agg, x) ==
            match Lights(a, x)
            case None => None
            case Some((st, el)) => Some((StateAfter(outcome, x, st), ElevationAfter(outcome, x, el)))
  {
    hide Admit;
    hide Route;
    hide Lights;
    match Admit(a, name, now)
    case Err(_) =>
    case Ok(a') =>
      var (server, tool) := SplitOnce(name).value;
      RouteLights(a', name, server, tool, arguments, reply, x);
      ConfirmationsDoNotLight(a, a'.confirmations, x);
      RouteSends(a', name, server, tool, arguments, reply);
  }

  lemma ConfirmationsDoNotLight(a: Agg, confirmations: seq<Confirmation>, x: string)
    ensures Lights(a.(confirmations := confirmations), x) == Lights(a, x)
  {
  }

  lemma UnknownIdIsDark(a: Agg, x: string)
    ensures Lights(a, x).None? <==> SlotOf(a.servers, x).None?
  {
  }

  lemma ElevationLights(a: Agg, id: string, elevation: Option<Elevation>, now: u64, x: string)
    ensures Lights(SetElevation(a, id, elevation, now).agg, x) ==
            match Lights(a, x)
            case None => None
            case Some((st, el)) => Some((st, if x == id then elevation else el))
  {
    match SlotOf(a.servers, id)
    case None =>
    case Some(slot) => PutSlotFrame(a.servers, slot.(elevation := elevation), x);
  }

  lemma AggAfterLights(auth: Authority, s: Sys, e: Event, x: string)
    ensures var outcome := Observe(auth, s, e);
            Lights(AggAfter(s, e), x) ==
            match Lights(s.agg, x)
            case None => None
            case Some((st, el)) => Some((StateAfter(outcome, x, st), ElevationAfter(outcome, x, el)))
  {
    hide Call;
    hide CallOutcome;
    hide RunOp;
    hide SetElevation;
    hide AfterAttempt;
    hide Lights;
    match e
    case Apply(tid) =>
      if tid in s.inflight {
        var f := s.inflight[tid];
        match f.verified
        case ElevationVerified(server, elevation) =>
          ElevationLights(s.agg, server, Some(elevation), f.now, x);
          UnknownIdIsDark(s.agg, server);
        case ActionVerified(server, tool) =>
          ConfirmationsDoNotLight(s.agg, ApproveAction(s.agg, server, tool, f.now).confirmations, x);
      }
    case Command(op, id, _, spawn) => CommandLights(s.agg, op, id, spawn, x);
    case Revoke(id, now) =>
      ElevationLights(s.agg, id, None, now, x);
      UnknownIdIsDark(s.agg, id);
    case CallTool(name, arguments, now, reply) => CallLights(s.agg, name, arguments, now, reply, x);
    case _ =>
  }

  /** One step changes a server's state and elevation just as its visible outcome says, and touches no other
      server. */
  lemma StepLights(r: Run, k: nat, x: string)
    requires k < |r.events|
    ensures Lights(At(r, k + 1).agg, x) ==
            match Lights(At(r, k).agg, x)
            case None => None
            case Some((st, el)) => Some((StateAfter(Seen(r, k), x, st), ElevationAfter(Seen(r, k), x, el)))
  {
    NextAgg(r.auth, At(r, k), r.events[k]);
    AggAfterLights(r.auth, At(r, k), r.events[k], x);
  }
}
