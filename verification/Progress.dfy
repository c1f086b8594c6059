/** What honest use achieves: the checks that keep others out let a properly signed request through. */
module Progress {
  import opened Base
  import opened Names
  import opened Manifest
  import opened Policy
  import opened Broker
  import opened Hex
  import opened Challenge
  import opened Nonces
  import opened Aggregator
  import opened Handlers
  import opened Runs
  import opened WriteAuthority
  import opened Confirmations
  import opened Worlds

  /** An open elevation on a running server exposes every tool it has. */
  lemma ElevatedPassesGate(a: Agg, server: string, tool: string, now: u64)
    requires NAMESPACE_SEP !in server && SlotOf(a.servers, server).Some?
    requires var slot := SlotOf(a.servers, server).value;
             slot.state == Running && ActiveAt(slot.elevation, now) && ClassIn(slot.tools, tool).Some?
    ensures SplitOnce(ExternalName(server, tool)) == Some((server, tool))
    ensures PassesGate(a, ExternalName(server, tool), now)
  {
    SplitOfExternalName(server, tool);
    var slot := SlotOf(a.servers, server).value;
    var i := Position(slot.tools, (t: ClassifiedTool) => t.name == tool);
    assert slot.tools[i] in slot.tools;
    ExposureRule(slot.tools, slot.state, slot.elevation, now, tool);
  }

  /** A confirm call inside the gate goes through if its first usable confirmation is at `i`, and takes it. */
  lemma ConfirmCallGoes(a: Agg, server: string, tool: string, arguments: Value, now: u64, value: Value, i: nat)
    requires var name := ExternalName(server, tool); SplitOnce(name) == Some((server, tool)) && PassesGate(a, name, now)
    requires ClassIn(SlotOf(a.servers, server).value.tools, tool) == Some(ToolClass.Confirm) && server in a.children
    requires i == Position(a.confirmations, Approves(server, tool, now)) < |a.confirmations|
    ensures Call(a, ExternalName(server, tool), arguments, now, Ok(value)) ==
            CallReport(a.(confirmations := SwapRemove(a.confirmations, i)), Ok(value),
                       Some(Dispatch(a.children[server], tool, arguments)))
  {
    hide ResolveExposure;
  }

  lemma ConfirmCallStops(a: Agg, server: string, tool: string, arguments: Value, now: u64,
                         reply: Result<Value, ChildError>)
    requires var name := ExternalName(server, tool); SplitOnce(name) == Some((server, tool)) && PassesGate(a, name, now)
    requires ClassIn(SlotOf(a.servers, server).value.tools, tool) == Some(ToolClass.Confirm)
    requires Position(a.confirmations, Approves(server, tool, now)) == |a.confirmations|
    ensures Call(a, ExternalName(server, tool), arguments, now, reply).result ==
            Err(NotConfirmed(ExternalName(server, tool)))
  {
    hide ResolveExposure;
  }

  lemma NoOtherApproval(held: seq<Confirmation>, server: string, tool: string, approved: u64, now: u64, again: u64)
    requires forall c :: c in held ==> c.server != server || c.tool != tool
    requires now <= approved + CONFIRMATION_TTL_SECS
    ensures var kept := Retain(held, UsableAt(approved));
            var all := kept + [Confirmation(server, tool, approved)];
            && Position(all, Approves(server, tool, now)) == |kept| && SwapRemove(all, |kept|) == kept
            && Position(kept, Approves(server, tool, again)) == |kept|
  {
    var kept := Retain(held, UsableAt(approved));
    forall j | 0 <= j < |kept| ensures kept[j].server != server || kept[j].tool != tool {
      assert kept[j] in kept;
    }
    PositionUnique(kept + [Confirmation(server, tool, approved)], Approves(server, tool, now), |kept|);
    PositionUnique(kept, Approves(server, tool, again), |kept|);
    assert SwapRemove(kept + [Confirmation(server, tool, approved)], |kept|) == kept;
  }

  /** An approval opens an elevated confirm tool for one call within 30 seconds, and for one call only: unless
      another approval of the same tool was held, the next call is refused. */
  lemma ApprovalOpensOnce(a: Agg, server: string, tool: string, approved: u64, arguments: Value, now: u64,
                          value: Value, again: u64, reply: Result<Value, ChildError>)
    requires NAMESPACE_SEP !in server && SlotOf(a.servers, server).Some? && server in a.children
    requires SlotOf(a.servers, server).value.state == Running
    requires ActiveAt(SlotOf(a.servers, server).value.elevation, now)
             && ActiveAt(SlotOf(a.servers, server).value.elevation, again)
    requires ClassIn(SlotOf(a.servers, server).value.tools, tool) == Some(ToolClass.Confirm)
    requires now <= approved + CONFIRMATION_TTL_SECS
    requires forall c :: c in a.confirmations ==> c.server != server || c.tool != tool
    ensures var name := ExternalName(server, tool);
            var first := Call(ApproveAction(a, server, tool, approved), name, arguments, now, Ok(value));
            && first.sent == Some(Dispatch(a.children[server], tool, arguments)) && first.result == Ok(value)
            && Call(first.agg, name, arguments, again, reply).result == Err(NotConfirmed(name))
  {
    hide Call;
    hide Position;
    hide Retain;
    hide PassesGate;
    var a1, kept := ApproveAction(a, server, tool, approved), Retain(a.confirmations, UsableAt(approved));
    NoOtherApproval(a.confirmations, server, tool, approved, now, again);
    ElevatedPassesGate(a1, server, tool, now);
    ConfirmCallGoes(a1, server, tool, arguments, now, value, |kept|);
    var a2 := a.(confirmations := kept);
    ElevatedPassesGate(a2, server, tool, again);
    ConfirmCallStops(a2, server, tool, arguments, again, reply);
  }

  // ----- A whole run -----

  /** What one honest operator does, and with which nonces, signature and readings. */
  datatype Session = Session(server: string, tool: string, client: string, elevate: Nonce, confirm: Nonce,
                             signature: seq<u8>, granted: u64, called: u64, arguments: Value, value: Value)
  {
    predicate Valid() {
      AsWorld().Valid() && elevate != confirm && called <= granted + CONFIRMATION_TTL_SECS
    }

    /** Two challenges signed, one elevation and one approval submitted, one confirm call. */
    function AsWorld(): World {
      World(server, tool, ToolClass.Confirm, client, signature,
            [(elevate, Elevate(server, OpenEnded)), (confirm, ConfirmAction(server, tool))],
            [Issue(client, Elevate(server, OpenEnded), granted, Some(elevate)),
             Verify(0, client, elevate, signature, granted), Apply(0),
             Issue(client, ConfirmAction(server, tool), granted, Some(confirm)),
               Verify(0, client, confirm, signature, granted), Apply(0),
             CallTool(ExternalName(server, tool), arguments, called, Ok(value))])
    }

    function AsRun(): Run {
      AsWorld().AsRun()
    }

    function Elevated(): Agg {
      AsWorld().Single(Running, Some(UntilRevokedFrom(granted)), Some(1))
    }
  }

  /** Where the session stands before its call. */
  lemma SessionUnfolds(x: Session)
    requires x.Valid()
    ensures At(x.AsRun(), 8).agg == ApproveAction(x.Elevated(), x.server, x.tool, x.granted)
    ensures |x.AsRun().events| == 9
            && x.AsRun().events[8] == CallTool(ExternalName(x.server, x.tool), x.arguments, x.called, Ok(x.value))
  {
    hide At;
    hide Next;
    hide ApproveAction;
    hide SetElevation;
    hide ExternalName;
    var w := x.AsWorld();
    WorldBegins(w);
    SubmissionApplied(w, At(w.AsRun(), w.After(0)), 0, x.granted, x.granted);
    WorldStep(w, 0);
    WorldStep(w, 1);
    WorldStep(w, 2);
    SingleElevates(w, Running, None, Some(1), Some(UntilRevokedFrom(x.granted)), x.granted);
    SubmissionApplied(w, At(w.AsRun(), w.After(3)), 1, x.granted, x.granted);
    WorldStep(w, 3);
    WorldStep(w, 4);
    WorldStep(w, 5);
    WorldStep(w, 6);
  }

  lemma SessionCalls(x: Session)
    requires x.Valid()
    ensures var report := Call(ApproveAction(x.Elevated(), x.server, x.tool, x.granted),
                               ExternalName(x.server, x.tool), x.arguments,
                               x.called, Ok(x.value));
            report.sent == Some(Dispatch(1, x.tool, x.arguments)) && report.result == Ok(x.value)
  {
    hide Call;
    hide ApproveAction;
    hide SlotOf;
    hide FindServer;
    var w := x.AsWorld();
    SingleFinds(w, Running, Some(UntilRevokedFrom(x.granted)), Some(1), x.server);
    PositionUnique(w.OneSlot(Running, None).tools, (t: ClassifiedTool) => t.name == x.tool, 0);
    ApprovalOpensOnce(x.Elevated(), x.server, x.tool, x.granted, x.arguments, x.called, x.value, x.called, Ok(x.value));
  }

  lemma SessionToolIsConfirm(x: Session)
    ensures OperatorClass(x.AsRun().manifest, x.server, x.tool) == ToolClass.Confirm
  {
    hide FindServer;
    SingleFinds(x.AsWorld(), Running, None, Some(1), x.server);
  }

  /** The way through exists: for every dot-free server, every tool classed confirm, every client, arguments and
      child, the honest session is a run in which signatures are not forged, the confirm call reaches the
      child, and the child's answer is the result. */
  lemma HonestSessionReaches(x: Session)
    requires x.Valid()
    ensures Started(x.AsRun()) && Unforgeable(x.AsRun()) && |x.AsRun().events| == 9
    ensures ConfirmCall(x.AsRun(), 8)
    ensures Report(x.AsRun(), 8).sent == Some(Dispatch(1, x.tool, x.arguments))
            && Report(x.AsRun(), 8).result == Ok(x.value)
  {
    hide At;
    hide Started;
    hide Unforgeable;
    hide OperatorClass;
    hide Call;
    hide ApproveAction;
    hide SplitOnce;
    hide ExternalName;
    WorldStarts(x.AsWorld());
    WorldUnforgeable(x.AsWorld());
    SessionUnfolds(x);
    SessionCalls(x);
    SessionToolIsConfirm(x);
    SplitOfExternalName(x.server, x.tool);
  }
}
