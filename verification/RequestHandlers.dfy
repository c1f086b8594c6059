/** The control handler and the MCP handler as objects. Each method is one request run without interruption, and is
    proved to be the corresponding steps of a run followed by the effects it owes. */
module RequestHandlers {
  import opened Base
  import opened Names
  import opened Manifest
  import opened Policy
  import opened Broker
  import opened Hex
  import opened Challenge
  import opened Nonces
  import opened Aggregator
  import opened ToolAggregators
  import opened Audit
  import opened Handlers
  import opened Runs

  /** Counts the `tools/list_changed` notifications broadcast. */
  class Notifier {
    var sent: nat

    constructor ()
      ensures sent == 0
    {
      sent := 0;
    }

    method NotifyToolsListChanged()
      modifies this
      ensures sent == old(sent) + 1
    {
      sent := sent + 1;
    }
  }

  datatype Response = Done | NonceIssued(hex: string) | MalformedNonce | MalformedSignature
                    | Rejected(reason: ElevationError) | Failed(error: AggregatorError)

  /** What a client hears about a well-formed submission. */
  function ReplyTo(verdict: Result<Verified, ElevationError>, servers: seq<Slot>): Response {
    match verdict
    case Err(e) => Rejected(e)
    case Ok(ActionVerified(_, _)) => Done
    case Ok(ElevationVerified(server, _)) => if SlotOf(servers, server).Some? then Done
      else Failed(UnknownServer(server))
  }

  /** A client hears `Done` exactly when its submission was accepted and, for an elevation, its server is known; a
      refusal names its reason, and an unknown server its id. */
  lemma ReplyMeans(verdict: Result<Verified, ElevationError>, servers: seq<Slot>)
    ensures var r := ReplyTo(verdict, servers);
            && (r == Done <==> verdict.Ok? && (verdict.value.ElevationVerified? ==>
                                               SlotOf(servers, verdict.value.server).Some?))
            && (forall e :: r == Rejected(e) <==> verdict == Err(e))
            && (r.Failed? ==> verdict.Ok? && r.error == UnknownServer(verdict.value.server))
            && (r.Done? || r.Rejected? || r.Failed?)
  {
  }

  /** `s'` is `s` once everything owed has been done: the owed notifications sent and the owed entries recorded. */
  ghost predicate Settles(s: Sys, s': Sys) {
    && s'.agg == s.agg && s'.nonces == s.nonces && s'.inflight == s.inflight && s'.signed == s.signed
    && s'.owedNotices == 0 && s'.sentNotices == s.sentNotices + s.owedNotices
    && s'.owedAudit == multiset{}
    && s.audit <= s'.audit && multiset(s'.audit[|s.audit|..]) == s.owedAudit
  }

  /** Nothing owed but perhaps one notification: sending it settles. */
  lemma SettlesByNotifying(before: Sys, agg: Agg, changed: bool, after: Sys)
    requires before.owedNotices == 0 && before.owedAudit == multiset{}
    requires after == before.(agg := agg, sentNotices := before.sentNotices + if changed then 1 else 0)
    ensures Settles(before.(agg := agg, owedNotices := before.owedNotices + if changed then 1 else 0), after)
  {
    assert after.audit[|before.audit|..] == [];
  }

  /** One entry owed, and perhaps one notification: recording the one and sending the other settles. */
  lemma SettlesByRecording(before: Sys, changed: bool, event: AuditEvent, after: Sys)
    requires before.owedNotices == 0 && before.owedAudit == multiset{}
    requires after == before.(sentNotices := before.sentNotices + (if changed then 1 else 0),
                              audit := before.audit + [event])
    ensures Settles(Owing(before, changed, event), after)
  {
    assert after.audit[|before.audit|..] == [event];
  }

  lemma SectionResult(a: Agg, id: string, elevation: Option<Elevation>, now: u64)
    ensures var section := Handlers.SetElevation(a, id, elevation, now);
            if SlotOf(a.servers, id).Some? then section.result == Ok(())
            else section == Section(a, Err(UnknownServer(id)), false)
  {
  }

  lemma SettlesAlready(s: Sys)
    requires s.owedNotices == 0 && s.owedAudit == multiset{}
    ensures Settles(s, s)
  {
    assert s.audit[|s.audit|..] == [];
  }

  lemma GrantSettles(before: Sys, tid: nat, client: string, server: string, elevation: Elevation, now: u64, after: Sys)
    requires before.inflight == map[] && before.owedNotices == 0 && before.owedAudit == multiset{}
    requires var section := Handlers.SetElevation(before.agg, server, Some(elevation), now);
             after == if section.result.Err? then before
                      else before.(agg := section.agg,
                                   sentNotices := before.sentNotices + (if section.changed then 1 else 0),
                                   audit := before.audit + [ElevationGranted(server, client, ModeName(elevation))])
    ensures var inflight := map[tid := Inflight(client, ElevationVerified(server, elevation), now)];
            Settles(AfterApply(before.(inflight := inflight), tid), after)
  {
    hide Settles;
    hide Owing;
    hide ModeName;
    hide Handlers.SetElevation;
    assert map[tid := Inflight(client, ElevationVerified(server, elevation), now)] - {tid} == map[];
    var section := Handlers.SetElevation(before.agg, server, Some(elevation), now);
    if section.result.Err? {
      SettlesAlready(before);
    } else {
      SettlesByRecording(before.(agg := section.agg), section.changed,
                         ElevationGranted(server, client, ModeName(elevation)), after);
    }
  }

  lemma RevocationSettles(before: Sys, id: string, now: u64, after: Sys)
    requires before.owedNotices == 0 && before.owedAudit == multiset{}
    requires var section := Handlers.SetElevation(before.agg, id, None, now);
             after == if section.result.Err? then before
                      else before.(agg := section.agg,
                                   sentNotices := before.sentNotices + (if section.changed then 1 else 0),
                                   audit := before.audit + [ElevationRevoked(id, "operator")])
    ensures Settles(AfterRevoke(before, id, now), after)
  {
    hide Settles;
    hide Owing;
    hide Handlers.SetElevation;
    var section := Handlers.SetElevation(before.agg, id, None, now);
    if section.result.Err? {
      SettlesAlready(before);
    } else {
      SettlesByRecording(before.(agg := section.agg), section.changed, ElevationRevoked(id, "operator"), after);
    }
  }

  lemma DenialSettles(auth: Authority, before: Sys, tid: nat, client: string, nonce: Nonce, signature: seq<u8>,
                      now: u64,
                      after: Sys)
    requires before.inflight == map[] && before.owedNotices == 0 && before.owedAudit == multiset{}
    requires var (rest, r) := AfterAttempt(auth, before.nonces, client, nonce, signature, now);
             r.Err? && var event := ElevationDenied("(unknown)", client, ErrorText(r.error));
                       after == before.(nonces := rest, audit := before.audit + [event])
    ensures Settles(AfterVerify(auth, before, tid, client, nonce, signature, now), after)
  {
    hide Settles;
    hide Owing;
    hide AfterAttempt;
    hide ErrorText;
    var (rest, r) := AfterAttempt(auth, before.nonces, client, nonce, signature, now);
    SettlesByRecording(before.(nonces := rest), false, ElevationDenied("(unknown)", client, ErrorText(r.error)), after);
  }

  lemma VerifiedInFlight(auth: Authority, before: Sys, tid: nat, client: string, nonce: Nonce, signature: seq<u8>,
                         now: u64)
    requires before.inflight == map[] && AfterAttempt(auth, before.nonces, client, nonce, signature, now).1.Ok?
    ensures var (rest, r) := AfterAttempt(auth, before.nonces, client, nonce, signature, now);
            AfterVerify(auth, before, tid, client, nonce, signature, now) ==
            before.(nonces := rest, inflight := map[tid := Inflight(client, r.value, now)])
  {
    hide AfterAttempt;
  }

  class ControlHandler {
    const aggregator: ToolAggregator
    const nonces: NonceStore
    const audit: AuditLog
    const notifier: Notifier
    const auth: Authority

    ghost predicate Valid()
      reads audit
    {
      aggregator.Valid() && audit.Valid()
    }

    /** The broker's state between requests: nothing in flight and nothing owed. */
    ghost function View(): Sys
      reads aggregator, aggregator.state.servers, nonces, audit, notifier
    {
      Sys(aggregator.View(), nonces.pending, map[], {}, 0, notifier.sent, multiset{}, audit.history)
    }

    constructor (aggregator: ToolAggregator, audit: AuditLog, notifier: Notifier, auth: Authority)
      requires aggregator.Valid() && audit.Valid()
      ensures Valid() && this.aggregator == aggregator && this.audit == audit && this.notifier == notifier
      ensures this.auth == auth && fresh(nonces) && nonces.pending == []
    {
      this.aggregator, this.audit, this.notifier, this.auth := aggregator, audit, notifier, auth;
      nonces := new NonceStore();
    }

    method RunLifecycle(op: LifecycleOp, id: string, spawn: SpawnOutcome) returns (r: Result<(), AggregatorError>)
      requires aggregator.Valid()
      modifies aggregator, aggregator.state.servers
      ensures (aggregator.View(), r) == RunOp(old(aggregator.View()), op, id, spawn)
    {
      match op {
        case StartServer => r := aggregator.Start(id, spawn);
        case StopServer => r := aggregator.Stop(id);
        case PauseServer => r := aggregator.Pause(id);
        case ResumeServer => r := aggregator.Resume(id);
      }
    }

    /** The critical section of a lifecycle request. */
    method LifecycleSection(op: LifecycleOp, id: string, now: u64, spawn: SpawnOutcome)
      returns (changed: bool, result: Result<(), AggregatorError>)
      requires aggregator.Valid()
      modifies aggregator, aggregator.state.servers
      ensures Section(aggregator.View(), result, changed) ==
              Handlers.Lifecycle(old(aggregator.View()), op, id, now, spawn)
    {
      hide RunOp;
      hide Snapshot;
      var before := aggregator.ExposureSnapshot(now);
      result := RunLifecycle(op, id, spawn);
      var after := aggregator.ExposureSnapshot(now);
      changed := result.Ok? && after != before;
    }

    /** The critical section of a grant or a revocation. */
    method ElevationSection(id: string, elevation: Option<Elevation>, now: u64)
      returns (changed: bool, result: Result<(), AggregatorError>)
      requires aggregator.Valid()
      modifies aggregator.state.servers
      ensures Section(aggregator.View(), result, changed) ==
              Handlers.SetElevation(old(aggregator.View()), id, elevation, now)
    {
      hide Snapshot;
      hide PutSlot;
      var before := aggregator.ExposureSnapshot(now);
      var found := aggregator.SetElevation(id, elevation);
      if !found {
        return false, Err(UnknownServer(id));
      }
      var after := aggregator.ExposureSnapshot(now);
      return after != before, Ok(());
    }

    /** A lifecycle request is one `Command` step, with its notification sent if one is owed. */
    method Lifecycle(op: LifecycleOp, id: string, now: u64, spawn: SpawnOutcome) returns (response: Response)
      requires Valid()
      modifies aggregator, aggregator.state.servers, notifier
      ensures Valid() && Settles(AfterCommand(old(View()), op, id, now, spawn), View())
      ensures response == match RunOp(old(aggregator.View()), op, id, spawn).1
                          case Ok(_) => Done
                          case Err(e) => Failed(e)
    {
      hide RunOp;
      hide Snapshot;
      hide Settles;
      hide Last;
      hide SlotOf;
      var changed, result := LifecycleSection(op, id, now, spawn);
      if changed {
        notifier.NotifyToolsListChanged();
      }
      SettlesByNotifying(old(View()), aggregator.View(), changed, View());
      response := match result case Ok(_) => Done case Err(e) => Failed(e);
    }

    method Issue(client: string, purpose: Purpose, now: u64, rng: Option<Nonce>) returns (response: Response)
      requires Valid()
      modifies nonces
      ensures Valid() && Settles(Next(auth, old(View()), Runs.Issue(client, purpose, now, rng)), View())
      ensures response == match AfterIssue(old(nonces.pending), client, purpose, now, rng).1
                          case Ok(nonce) => NonceIssued(ToHex(nonce))
                          case Err(e) => Rejected(e)
    {
      var r := nonces.Issue(client, purpose, now, rng);
      if r.Err? {
        return Rejected(r.error);
      }
      var hex := EncodeNonce(r.value);
      return NonceIssued(hex);
    }

    /** The state in which thread `tid` has this one verified submission in flight. */
    ghost function InFlight(tid: nat, client: string, verified: Verified, now: u64): Sys
      reads aggregator, aggregator.state.servers, nonces, audit, notifier
    {
      View().(inflight := map[tid := Inflight(client, verified, now)])
    }

    method ApplyElevation(client: string, server: string, elevation: Elevation, now: u64, ghost tid: nat)
      returns (response: Response)
      requires Valid()
      modifies aggregator, aggregator.state.servers, audit, notifier
      ensures Valid() && aggregator.Valid()
      ensures Settles(AfterApply(old(InFlight(tid, client, ElevationVerified(server, elevation), now)), tid), View())
      ensures response == if SlotOf(old(aggregator.View()).servers, server).Some? then Done
              else Failed(UnknownServer(server))
    {
      hide Settles;
      hide AfterApply;
      hide Handlers.SetElevation;
      hide ModeName;
      hide SlotOf;
      hide Snapshot;
      hide Last;
      ghost var start := old(View());
      var changed, result := ElevationSection(server, Some(elevation), now);
      SectionResult(start.agg, server, Some(elevation), now);
      if result.Err? {
        response := Failed(result.error);
      } else {
        if changed {
          notifier.NotifyToolsListChanged();
        }
        audit.Record(ElevationGranted(server, client, ModeName(elevation)));
        response := Done;
      }
      GrantSettles(start, tid, client, server, elevation, now, View());
    }

    method ApplyConfirm(client: string, server: string, tool: string, now: u64, ghost tid: nat)
      returns (response: Response)
      requires Valid()
      modifies aggregator, audit
      ensures Valid() && response == Done
      ensures Settles(AfterApply(old(InFlight(tid, client, ActionVerified(server, tool), now)), tid), View())
    {
      hide Settles;
      hide Owing;
      assert map[tid := Inflight(client, ActionVerified(server, tool), now)] - {tid} == map[];
      aggregator.ApproveAction(server, tool, now);
      audit.Record(ConfirmApproved(server, tool));
      SettlesByRecording(old(View()).(agg := aggregator.View()), false, ConfirmApproved(server, tool), View());
      return Done;
    }

    /** A well-formed submission run without interruption is its `Verify` step followed by its `Apply` step. */
    method SubmitParsed(client: string, nonce: Nonce, signature: seq<u8>, now: u64, ghost tid: nat)
      returns (response: Response)
      requires Valid()
      modifies aggregator, aggregator.state.servers, nonces, audit, notifier
      ensures Valid()
      ensures var verified := AfterVerify(auth, old(View()), tid, client, nonce, signature, now);
              Settles(if tid in verified.inflight then AfterApply(verified, tid) else verified, View())
      ensures response == ReplyTo(AfterAttempt(auth, old(nonces.pending), client, nonce, signature, now).1,
                                  old(aggregator.View()).servers)
    {
      hide Settles;
      hide AfterApply;
      hide AfterVerify;
      hide AfterAttempt;
      hide SlotOf;
      hide ErrorText;
      ghost var start := old(View());
      var verdict := nonces.VerifyAndConsume(auth, client, nonce, signature, now);
      if verdict.Ok? {
        VerifiedInFlight(auth, start, tid, client, nonce, signature, now);
      }
      match verdict
      case Err(e) =>
        audit.Record(ElevationDenied("(unknown)", client, ErrorText(e)));
        DenialSettles(auth, start, tid, client, nonce, signature, now, View());
        response := Rejected(e);
      case Ok(ElevationVerified(server, elevation)) =>
        response := ApplyElevation(client, server, elevation, now, tid);
      case Ok(ActionVerified(server, tool)) =>
        response := ApplyConfirm(client, server, tool, now, tid);
    }

    /** A submission with a malformed nonce or signature is no step at all; the nonce is looked at first. */
    method Submit(client: string, nonceHex: string, signatureHex: string, now: u64, ghost tid: nat)
      returns (response: Response)
      requires Valid()
      modifies aggregator, aggregator.state.servers, nonces, audit, notifier
      ensures Valid()
      ensures FromHex(nonceHex).None? ==> response == MalformedNonce && View() == old(View())
      ensures FromHex(nonceHex).Some? && DecodeHex(signatureHex).None? ==>
              response == MalformedSignature && View() == old(View())
      ensures FromHex(nonceHex).Some? && DecodeHex(signatureHex).Some? ==>
                var verified := AfterVerify(auth, old(View()), tid, client, FromHex(nonceHex).value,
                                            DecodeHex(signatureHex).value, now);
                && Settles(if tid in verified.inflight then AfterApply(verified, tid) else verified, View())
                && response == ReplyTo(AfterAttempt(auth, old(nonces.pending), client, FromHex(nonceHex).value,
                                                    DecodeHex(signatureHex).value, now).1,
                                       old(aggregator.View()).servers)
    {
      hide Settles;
      hide AfterApply;
      hide AfterVerify;
      hide AfterAttempt;
      hide SlotOf;
      hide ReplyTo;
      var nonce := DecodeNonce(nonceHex);
      if nonce.None? {
        return MalformedNonce;
      }
      var signature := DecodeSignature(signatureHex);
      if signature.None? {
        return MalformedSignature;
      }
      response := SubmitParsed(client, nonce.value, signature.value, now, tid);
    }

    method Revoke(id: string, now: u64) returns (response: Response)
      requires Valid()
      modifies aggregator, aggregator.state.servers, audit, notifier
      ensures Valid() && Settles(AfterRevoke(old(View()), id, now), View())
      ensures response == if SlotOf(old(aggregator.View()).servers, id).Some? then Done else Failed(UnknownServer(id))
    {
      hide Settles;
      hide AfterRevoke;
      hide Handlers.SetElevation;
      hide SlotOf;
      hide Snapshot;
      hide Last;
      ghost var start := old(View());
      var changed, result := ElevationSection(id, None, now);
      SectionResult(start.agg, id, None, now);
      if result.Err? {
        response := Failed(result.error);
      } else {
        if changed {
          notifier.NotifyToolsListChanged();
        }
        audit.Record(ElevationRevoked(id, "operator"));
        response := Done;
      }
      RevocationSettles(start, id, now, View());
    }
  }

  class McpHandler {
    const aggregator: ToolAggregator
    const audit: AuditLog

    ghost predicate Valid()
      reads audit
    {
      aggregator.Valid() && audit.Valid()
    }

    /** The parts of the broker's state that this handler sees. */
    ghost function View(): Sys
      reads aggregator, aggregator.state.servers, audit
    {
      Sys(aggregator.View(), [], map[], {}, 0, 0, multiset{}, audit.history)
    }

    constructor (aggregator: ToolAggregator, audit: AuditLog)
      requires aggregator.Valid() && audit.Valid()
      ensures Valid() && this.aggregator == aggregator && this.audit == audit
    {
      this.aggregator, this.audit := aggregator, audit;
    }

    method ToolsList(now: u64) returns (tools: seq<Definition>)
      requires Valid()
      ensures tools == Aggregator.AggregatedTools(aggregator.View(), now)
    {
      tools := aggregator.AggregatedTools(now);
    }

    /** A call is one `CallTool` step, with its audit entry recorded if one is owed. */
    method ToolsCall(name: string, arguments: Value, now: u64, reply: Result<Value, ChildError>)
      returns (result: Result<Value, AggregatorError>)
      requires Valid()
      modifies aggregator, aggregator.state.servers, audit
      ensures Valid() && Settles(AfterCall(old(View()), name, arguments, now, reply), View())
      ensures result == Aggregator.Call(old(aggregator.View()), name, arguments, now, reply).result
    {
      hide Settles;
      hide Owing;
      hide Aggregator.Call;
      var cls: Option<ToolClass> := None;
      var parts := SplitOnce(name);
      if parts.Some? {
        cls := aggregator.ToolClass(parts.value.0, parts.value.1);
      }
      assert cls == ToolClassOf(old(aggregator.View()), name);
      var sent;
      result, sent := aggregator.Call(name, arguments, now, reply);
      ghost var called := old(View()).(agg := aggregator.View());
      var entry := CallAudit(name, cls, result);
      if entry.Some? {
        audit.Record(entry.value);
        SettlesByRecording(called, false, entry.value, View());
      } else {
        SettlesAlready(called);
      }
    }
  }
}
