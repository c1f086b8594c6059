/** The audit tape and the notifications, as projections of the run. */
module AuditTrail {
  import opened Base
  import opened Names
  import opened Manifest
  import opened Policy
  import opened Broker
  import opened Hex
  import opened Nonces
  import opened Aggregator
  import opened Audit
  import opened Handlers
  import opened Runs
  import opened WriteAuthority
  import opened Staleness

  /** The one audit entry a visible outcome calls for: grants, revocations, approvals, failed verifications,
      refused confirm calls, and successful calls of tools the operator did not class as read. */
  function EntryFor(manifest: seq<ServerManifest>, outcome: Outcome): Option<AuditEvent> {
    match outcome
    case Granted(id, client, elevation) => Some(ElevationGranted(id, client, ModeName(elevation)))
    case Revoked(id) => Some(ElevationRevoked(id, "operator"))
    case Approved(id, tool, _) => Some(ConfirmApproved(id, tool))
    case Denied(client, error) => Some(ElevationDenied("(unknown)", client, ErrorText(error)))
    case Refused(id, tool) => Some(ConfirmRejected(id, tool))
    case Invoked(id, tool) =>
      if OperatorClass(manifest, id, tool) != ToolClass.Read then Some(WriteToolInvoked(id, tool)) else None
    case _ => None
  }

  function Entries(entry: Option<AuditEvent>): multiset<AuditEvent> {
    match entry
    case None => multiset{}
    case Some(event) => multiset{event}
  }

  /** The entries that the first `k` steps call for. */
  function Tape(r: Run, k: nat): multiset<AuditEvent>
    requires k <= |r.events|
  {
    if k == 0 then multiset{} else Tape(r, k - 1) + Entries(EntryFor(r.manifest, Seen(r, k - 1)))
  }

  /** A refused submission is put on the tape under its client with the reason in words. */
  lemma DenialText(auth: Authority, s: Sys, tid: nat, client: string, nonce: Nonce, signature: seq<u8>, now: u64)
    ensures var r := AfterAttempt(auth, s.nonces, client, nonce, signature, now).1;
            var owed := AfterVerify(auth, s, tid, client, nonce, signature, now).owedAudit;
            && (r.Ok? ==> owed == s.owedAudit)
            && (r == Err(UnknownOrUsedNonce) ==>
                  owed == s.owedAudit + multiset{ElevationDenied("(unknown)", client, "unknown or already-used nonce")})
            && (r == Err(NonceExpired) ==>
                owed == s.owedAudit + multiset{ElevationDenied("(unknown)", client, "nonce expired")})
            && (r == Err(UnknownClient) ==>
                owed == s.owedAudit + multiset{ElevationDenied("(unknown)", client, "unknown client")})
            && (r == Err(Malformed) ==>
                  owed == s.owedAudit + multiset{ElevationDenied("(unknown)", client, "malformed key or signature")})
            && (r == Err(BadSignature) ==>
                  owed == s.owedAudit + multiset{ElevationDenied("(unknown)", client, "signature verification failed")})
  {
    hide AfterAttempt;
  }

  /** A grant is put on the tape with its client and the kind of window it has. */
  lemma GrantText(s: Sys, tid: nat)
    requires tid in s.inflight && s.inflight[tid].verified.ElevationVerified?
    ensures var f := s.inflight[tid];
            var (server, window) := (f.verified.server, f.verified.elevation.expiresAt);
            AfterApply(s, tid).owedAudit ==
            if SlotOf(s.agg.servers, server).None? then s.owedAudit
            else
              var kind := if window.Some? then "duration" else "until_revoked";
              s.owedAudit + multiset{ElevationGranted(server, f.client, kind)}
  {
    hide SlotOf;
    hide Snapshot;
    hide PutSlot;
  }

  /** A call is audited as its outcome and the operator's classification say, although the handler reads the
      class before the call and judges by the call's result. */
  lemma CallIsAuditedRight(a: Agg, name: string, arguments: Value, now: u64, reply: Result<Value, ChildError>)
    requires Inv(a)
    ensures CallAudit(name, ToolClassOf(a, name), Call(a, name, arguments, now, reply).result) ==
            EntryFor(a.manifest, CallOutcome(a, name, arguments, now, reply))
  {
    hide Admit;
    hide Route;
    hide Inv;
    hide ToolClassOf;
    hide OperatorClass;
    match Admit(a, name, now)
    case Err(e) => RefusalAudit(a, name, arguments, now, reply);
    case Ok(a') =>
      var (server, tool) := SplitOnce(name).value;
      RouteSends(a', name, server, tool, arguments, reply);
      AdmittedTool(a, name, now);
  }

  lemma RefusalAudit(a: Agg, name: string, arguments: Value, now: u64, reply: Result<Value, ChildError>)
    requires Admit(a, name, now).Err?
    ensures CallAudit(name, ToolClassOf(a, name), Call(a, name, arguments, now, reply).result) ==
            EntryFor(a.manifest, CallOutcome(a, name, arguments, now, reply))
  {
  }

  /** An admitted call names a tool of a known server, and the class read for it is the operator's. */
  lemma AdmittedTool(a: Agg, name: string, now: u64)
    requires Inv(a) && Admit(a, name, now).Ok?
    ensures var (server, tool) := SplitOnce(name).value;
            ToolClassOf(a, name) == Some(OperatorClass(a.manifest, server, tool))
  {
    var (server, tool) := SplitOnce(name).value;
    var slot := SlotOf(a.servers, server).value;
    hide Inv;
    ExposureRule(slot.tools, slot.state, slot.elevation, now, tool);
    ClassIsOperators(a, server, tool);
  }

  /** Everything recorded or still owed to the tape. */
  function Recorded(s: Sys): multiset<AuditEvent> {
    multiset(s.audit) + s.owedAudit
  }

  lemma OwingRecords(s: Sys, changed: bool, event: AuditEvent)
    ensures Recorded(Owing(s, changed, event)) == Recorded(s) + multiset{event}
  {
  }

  lemma FlushRecords(s: Sys, event: AuditEvent)
    requires event in s.owedAudit
    ensures Recorded(s.(owedAudit := s.owedAudit - multiset{event}, audit := s.audit + [event])) == Recorded(s)
  {
  }

  lemma ApplyRecords(auth: Authority, s: Sys, tid: nat)
    requires tid in s.inflight
    ensures Recorded(AfterApply(s, tid)) ==
            Recorded(s) + Entries(EntryFor(s.agg.manifest, Observe(auth, s, Apply(tid))))
  {
    hide SetElevation;
    hide ApproveAction;
    hide Recorded;
    hide Owing;
    hide OperatorClass;
    hide ModeName;
    var f := s.inflight[tid];
    var s' := s.(inflight := s.inflight - {tid});
    match f.verified
    case ElevationVerified(server, elevation) =>
      var section := SetElevation(s.agg, server, Some(elevation), f.now);
      SectionSucceeds(s.agg, server, Some(elevation), f.now);
      SameTape(s, s');
      SameTape(s, s'.(agg := section.agg));
      OwingRecords(s'.(agg := section.agg), section.changed, ElevationGranted(server, f.client, ModeName(elevation)));
    case ActionVerified(server, tool) =>
      SameTape(s, s'.(agg := ApproveAction(s.agg, server, tool, f.now)));
      OwingRecords(s'.(agg := ApproveAction(s.agg, server, tool, f.now)), false, ConfirmApproved(server, tool));
  }

  lemma SameTape(s: Sys, s': Sys)
    requires s'.audit == s.audit && s'.owedAudit == s.owedAudit
    ensures Recorded(s') == Recorded(s)
  {
  }

  lemma SectionSucceeds(a: Agg, id: string, elevation: Option<Elevation>, now: u64)
    ensures SetElevation(a, id, elevation, now).result.Ok? <==> SlotOf(a.servers, id).Some?
  {
  }

  lemma VerifyRecords(auth: Authority, s: Sys, tid: nat, client: string, nonce: Nonce, signature: seq<u8>, now: u64)
    requires tid !in s.inflight
    ensures Recorded(AfterVerify(auth, s, tid, client, nonce, signature, now)) ==
            Recorded(s) + Entries(EntryFor(s.agg.manifest,
                                           Observe(auth, s, Verify(tid, client, nonce, signature, now))))
  {
    hide AfterAttempt;
    hide Recorded;
    hide Owing;
    var (rest, r) := AfterAttempt(auth, s.nonces, client, nonce, signature, now);
    SameTape(s, s.(nonces := rest));
    if r.Ok? {
      SameTape(s, s.(nonces := rest, inflight := s.inflight[tid := Inflight(client, r.value, now)]));
    } else {
      OwingRecords(s.(nonces := rest), false, ElevationDenied("(unknown)", client, ErrorText(r.error)));
    }
  }

  lemma RevokeRecords(auth: Authority, s: Sys, id: string, now: u64)
    ensures Recorded(AfterRevoke(s, id, now)) ==
            Recorded(s) + Entries(EntryFor(s.agg.manifest, Observe(auth, s, Revoke(id, now))))
  {
    hide SetElevation;
    hide Recorded;
    hide Owing;
    var section := SetElevation(s.agg, id, None, now);
    SectionSucceeds(s.agg, id, None, now);
    SameTape(s, s.(agg := section.agg));
    OwingRecords(s.(agg := section.agg), section.changed, ElevationRevoked(id, "operator"));
  }

  lemma CommandRecords(auth: Authority, s: Sys, op: LifecycleOp, id: string, now: u64, spawn: SpawnOutcome)
    ensures Recorded(AfterCommand(s, op, id, now, spawn)) ==
            Recorded(s) + Entries(EntryFor(s.agg.manifest, Observe(auth, s, Command(op, id, now, spawn))))
  {
    hide Lifecycle;
    hide RunOp;
  }

  lemma CallRecords(auth: Authority, s: Sys, name: string, arguments: Value, now: u64, reply: Result<Value, ChildError>)
    requires Inv(s.agg)
    ensures Recorded(AfterCall(s, name, arguments, now, reply)) ==
            Recorded(s) + Entries(EntryFor(s.agg.manifest, Observe(auth, s, CallTool(name, arguments, now, reply))))
  {
    hide Inv;
    hide Call;
    hide CallAudit;
    hide CallOutcome;
    hide EntryFor;
    hide Recorded;
    hide Owing;
    CallIsAuditedRight(s.agg, name, arguments, now, reply);
    var report := Call(s.agg, name, arguments, now, reply);
    var audit := CallAudit(name, ToolClassOf(s.agg, name), report.result);
    SameTape(s, s.(agg := report.agg));
    if audit.Some? { OwingRecords(s.(agg := report.agg), false, audit.value); }
  }

  /** A step of no concern to the tape: it issues, signs, lists or notifies, writes down an owed entry, or is
      one its thread does not allow. */
  predicate Idle(s: Sys, e: Event) {
    match e
    case Verify(tid, _, _, _, _) => tid in s.inflight
    case Apply(tid) => tid !in s.inflight
    case Command(_, _, _, _) => false
    case Revoke(_, _) => false
    case CallTool(_, _, _, _) => false
    case _ => true
  }

  lemma IdleRecords(auth: Authority, s: Sys, e: Event)
    requires Idle(s, e)
    ensures Observe(auth, s, e) == Quiet && Recorded(Next(auth, s, e)) == Recorded(s)
  {
    hide AfterIssue;
    match e
    case Record(event) => if event in s.owedAudit { FlushRecords(s, event); }
    case _ =>
  }

  lemma QuietHasNoEntry(manifest: seq<ServerManifest>)
    ensures Entries(EntryFor(manifest, Quiet)) == multiset{}
  {
  }

  lemma StepRecords(auth: Authority, s: Sys, e: Event)
    requires Inv(s.agg)
    ensures Recorded(Next(auth, s, e)) == Recorded(s) + Entries(EntryFor(s.agg.manifest, Observe(auth, s, e)))
  {
    hide Inv;
    hide Recorded;
    hide Entries;
    hide EntryFor;
    hide Observe;
    hide AfterVerify;
    hide AfterIssue;
    hide AfterApply;
    hide AfterRevoke;
    hide AfterCommand;
    hide AfterCall;
    if Idle(s, e) {
      IdleRecords(auth, s, e);
      QuietHasNoEntry(s.agg.manifest);
    } else {
      match e
      case Verify(tid, client, nonce, signature, now) => VerifyRecords(auth, s, tid, client, nonce, signature, now);
      case Apply(tid) => ApplyRecords(auth, s, tid);
      case Command(op, id, now, spawn) => CommandRecords(auth, s, op, id, now, spawn);
      case Revoke(id, now) => RevokeRecords(auth, s, id, now);
      case CallTool(name, arguments, now, reply) => CallRecords(auth, s, name, arguments, now, reply);
    }
  }

  /** The audit tape is the projection of the run: at every point, what has been recorded together with what
      handlers still owe is, entry for entry, what the visible outcomes so far call for. */
  lemma {:induction false} TapeIsProjection(r: Run, k: nat)
    requires Started(r) && k <= |r.events|
    ensures multiset(At(r, k).audit) + At(r, k).owedAudit == Tape(r, k)
  {
    hide Next;
    hide Built;
    hide Inv;
    hide Observe;
    hide EntryFor;
    if k > 0 {
      TapeIsProjection(r, k - 1);
      InvAlways(r, k - 1);
      StepRecords(r.auth, At(r, k - 1), r.events[k - 1]);
    }
  }

  /** Of the calls that reach a child for a tool that is not a read tool, exactly those are put on the tape whose child
      answers with a result: one that the child refuses, or during which it crashes or hangs, leaves no entry. */
  lemma WriteIsAuditedExactlyWhenAnswered(r: Run, k: nat)
    requires Started(r) && k < |r.events| && Reaches(r, k)
    ensures SplitOnce(r.events[k].name).Some?
    ensures var (server, tool) := SplitOnce(r.events[k].name).value;
            OperatorClass(r.manifest, server, tool) != ToolClass.Read ==>
              && At(r, k + 1).audit == At(r, k).audit
              && At(r, k + 1).owedAudit == At(r, k).owedAudit +
                   if r.events[k].reply.Ok? then multiset{WriteToolInvoked(server, tool)} else multiset{}
  {
    hide At;
    hide Started;
    hide Inv;
    hide Call;
    hide CallAudit;
    hide ToolClassOf;
    hide OperatorClass;
    hide PassesGate;
    hide SplitOnce;
    InvAlways(r, k);
    var s, e := At(r, k), r.events[k];
    StepIsNext(r, k);
    CallSends(s.agg, e.name, e.arguments, e.now, e.reply);
    CallIsAuditedRight(s.agg, e.name, e.arguments, e.now, e.reply);
  }

  // ----- Notifications -----

  /** Step `k` is a control command (lifecycle, grant or revocation) after which some server exposes different
      names at the command's own reading. */
  ghost predicate Announces(r: Run, k: nat)
    requires k < |r.events|
  {
    var s, e := At(r, k), r.events[k];
    && (e.Command? || e.Revoke? || (e.Apply? && e.tid in s.inflight && s.inflight[e.tid].verified.ElevationVerified?))
    && ExposureDiffers(s.agg, At(r, k + 1).agg, Reading(s, e).value)
  }

  ghost function Announcements(r: Run, k: nat): nat
    requires k <= |r.events|
  {
    if k == 0 then 0 else Announcements(r, k - 1) + if Announces(r, k - 1) then 1 else 0
  }

  /** The step's section finds its snapshots to differ. */
  predicate FindsChange(s: Sys, e: Event) {
    match e
    case Command(op, id, now, spawn) => Lifecycle(s.agg, op, id, now, spawn).changed
    case Revoke(id, now) => SetElevation(s.agg, id, None, now).changed
    case Apply(tid) =>
      tid in s.inflight && s.inflight[tid].verified.ElevationVerified?
      && SetElevation(s.agg, s.inflight[tid].verified.server, Some(s.inflight[tid].verified.elevation),
                      s.inflight[tid].now).changed
    case _ => false
  }

  lemma NoticesAfter(auth: Authority, s: Sys, e: Event)
    ensures var s' := Next(auth, s, e);
            s'.owedNotices + s'.sentNotices == s.owedNotices + s.sentNotices + if FindsChange(s, e) then 1 else 0
  {
    hide AfterAttempt;
    hide AfterIssue;
    hide Call;
    hide CallAudit;
    hide Lifecycle;
    hide Snapshot;
    hide ApproveAction;
  }

  lemma StepOwes(r: Run, k: nat)
    requires Started(r) && k < |r.events|
    ensures At(r, k + 1).owedNotices + At(r, k + 1).sentNotices ==
            At(r, k).owedNotices + At(r, k).sentNotices + if Announces(r, k) then 1 else 0
  {
    hide Next;
    hide Started;
    hide Inv;
    hide Call;
    hide RunOp;
    hide Snapshot;
    hide ExposureDiffers;
    InvAlways(r, k);
    var s, e := At(r, k), r.events[k];
    NoticesAfter(r.auth, s, e);
    NextAgg(r.auth, s, e);
    match e
    case Apply(tid) =>
      if tid in s.inflight && s.inflight[tid].verified.ElevationVerified? {
        var f := s.inflight[tid];
        SetElevationNotifiesExactly(s.agg, f.verified.server, Some(f.verified.elevation), f.now);
      }
    case Command(op, id, now, spawn) => LifecycleNotifiesExactly(s.agg, op, id, now, spawn);
    case Revoke(id, now) => SetElevationNotifiesExactly(s.agg, id, None, now);
    case _ =>
  }

  /** Notifications sent or owed are, one for one, the control commands that changed what is exposed. */
  lemma {:induction false} NoticesMatchChanges(r: Run, k: nat)
    requires Started(r) && k <= |r.events|
    ensures At(r, k).owedNotices + At(r, k).sentNotices == Announcements(r, k)
  {
    hide Next;
    hide Built;
    hide Announces;
    if k > 0 {
      NoticesMatchChanges(r, k - 1);
      StepOwes(r, k - 1);
    }
  }

  // ----- Changes nobody is told of -----

  lemma SameServersExposeSame(before: Agg, after: Agg, now: u64)
    requires after.servers == before.servers
    ensures !ExposureDiffers(before, after, now)
  {
  }

  /** A call that faults always changes what its server exposes: the called tool was exposed, and then nothing is. */
  lemma FaultChangesExposure(a: Agg, name: string, arguments: Value, now: u64, reply: Result<Value, ChildError>)
    requires CallOutcome(a, name, arguments, now, reply).Faulted?
    ensures ExposureDiffers(a, Call(a, name, arguments, now, reply).agg, now)
  {
    var a' := Call(a, name, arguments, now, reply).agg;
    var (server, tool) := SplitOnce(name).value;
    var slot := SlotOf(a.servers, server).value;
    PutSlotFrame(a.servers, slot.(state := Stopped, elevation := None), server);
    assert tool in multiset(slot.Exposed(now));
    assert SlotOf(a'.servers, server).value.Exposed(now) == [];
  }

  lemma QuietCallKeepsServers(a: Agg, name: string, arguments: Value, now: u64, reply: Result<Value, ChildError>)
    requires !CallOutcome(a, name, arguments, now, reply).Faulted?
    ensures Call(a, name, arguments, now, reply).agg.servers == a.servers
  {
    hide FailClosed;
  }

  /** The one kind of step that changes exposure at its own reading without owing a notification is a call whose
      child crashes or hangs, and every such call does. */
  lemma OnlyFaultsChangeSilently(r: Run, k: nat)
    requires Started(r) && k < |r.events| && Reading(At(r, k), r.events[k]).Some?
    ensures ExposureDiffers(At(r, k).agg, At(r, k + 1).agg, Reading(At(r, k), r.events[k]).value) && !Owes(r, k)
            <==> Seen(r, k).Faulted?
  {
    hide Built;
    hide Next;
    hide ExposureDiffers;
    hide Call;
    hide CallOutcome;
    hide AfterAttempt;
    hide RunOp;
    var s, e := At(r, k), r.events[k];
    NextAgg(r.auth, s, e);
    ReadingStepSendsNothing(r.auth, s, e);
    StepOwes(r, k);
    match e
    case CallTool(name, arguments, now, reply) =>
      if Seen(r, k).Faulted? {
        FaultChangesExposure(s.agg, name, arguments, now, reply);
      } else {
        QuietCallKeepsServers(s.agg, name, arguments, now, reply);
        SameServersExposeSame(s.agg, At(r, k + 1).agg, now);
      }
    case Apply(tid) =>
      if s.inflight[tid].verified.ActionVerified? {
        SameServersExposeSame(s.agg, At(r, k + 1).agg, s.inflight[tid].now);
      }
    case Issue(_, _, now, _) => SameServersExposeSame(s.agg, At(r, k + 1).agg, now);
    case Verify(_, _, _, _, now) => SameServersExposeSame(s.agg, At(r, k + 1).agg, now);
    case ListTools(now) => SameServersExposeSame(s.agg, At(r, k + 1).agg, now);
    case _ =>
  }

  /** A step with a reading sends nothing itself. */
  lemma ReadingStepSendsNothing(auth: Authority, s: Sys, e: Event)
    requires Reading(s, e).Some?
    ensures Next(auth, s, e).sentNotices == s.sentNotices
  {
    hide Call;
    hide CallAudit;
    hide RunOp;
    hide AfterAttempt;
    hide AfterIssue;
    hide Snapshot;
  }

  /** The names exposed by a slot change by the mere passing of time exactly when an elevation closes on a running
      server that has a tool outside the read class. No step happens then, so no notification is owed. */
  lemma ExpiryChangesExposure(slot: Slot, earlier: u64, later: u64)
    requires earlier <= later
    ensures multiset(slot.Exposed(earlier)) != multiset(slot.Exposed(later)) <==>
            slot.state == Running && ActiveAt(slot.elevation, earlier) && !ActiveAt(slot.elevation, later)
              && HasGated(slot)
  {
    var open, closed := Visible(slot.tools, true), Visible(slot.tools, false);
    SortCorrect(open);
    SortCorrect(closed);
    VisibleSizes(slot.tools);
    assert |multiset(open)| == |open| && |multiset(closed)| == |closed|;
  }

  lemma {:induction false} VisibleSizes(tools: seq<ClassifiedTool>)
    ensures |Visible(tools, false)| <= |Visible(tools, true)|
    ensures |Visible(tools, false)| == |Visible(tools, true)| <==> forall t :: t in tools ==> t.cls == ToolClass.Read
    ensures |Visible(tools, false)| == |Visible(tools, true)| ==> Visible(tools, false) == Visible(tools, true)
  {
    if tools != [] {
      VisibleSizes(tools[1..]);
      assert tools == [tools[0]] + tools[1..];
    }
  }
}
