/** When a call reaches a child: over the trace of events, visible outcomes and their folds, in both directions. */
module Reach {
  import opened Base
  import opened Names
  import opened Manifest
  import opened Policy
  import opened Broker
  import opened Aggregator
  import opened Handlers
  import opened Nonces
  import opened Runs
  import opened History
  import opened WriteAuthority
  import opened Confirmations

  // ----- The gate over the trace -----

  predicate Offers(tools: seq<ClassifiedTool>, tool: string) {
    exists t :: t in tools && t.name == tool
  }

  /** The gate, for a tool of a known class. */
  lemma GateByClass(a: Agg, name: string, now: u64)
    requires Inv(a) && SplitOnce(name).Some? && SlotOf(a.servers, SplitOnce(name).value.0).Some?
    ensures FindServer(a.manifest, SplitOnce(name).value.0).Some?
    ensures var (server, tool) := SplitOnce(name).value;
            var slot := SlotOf(a.servers, server).value;
            var cls := ClassOf(FindServer(a.manifest, server).value.tools, tool);
            && (PassesGate(a, name, now) <==>
                  slot.state == Running && Offers(slot.tools, tool)
                    && (cls == ToolClass.Read || ActiveAt(slot.elevation, now)))
            && (NeedsConfirmation(a, name, now) <==> PassesGate(a, name, now) && cls == ToolClass.Confirm)
  {
    hide ResolveExposure;
    hide Inv;
    hide SplitOnce;
    hide SlotOf;
    hide FindServer;
    var (server, tool) := SplitOnce(name).value;
    var slot := SlotOf(a.servers, server).value;
    ClassIsOperators(a, server, tool);
    ExposureRule(slot.tools, slot.state, slot.elevation, now, tool);
  }

  lemma ManifestEntry(r: Run, i: nat)
    requires Started(r) && i < |r.manifest|
    ensures FindServer(r.manifest, r.manifest[i].id) == Some(r.manifest[i])
  {
    hide Built;
    PositionUnique(r.manifest, (s: ServerManifest) => s.id == r.manifest[i].id, i);
  }

  /** Step `m` is a call by the name of a confirm tool that the trace shows running, offered and elevated. */
  ghost predicate CallsConfirm(r: Run, m: nat)
    requires m < |r.events| && |r.outcomes| == |r.manifest|
  {
    var e := r.events[m];
    && e.CallTool? && SplitOnce(e.name).Some?
    && var (server, tool) := SplitOnce(e.name).value;
       var i := Position(r.manifest, (s: ServerManifest) => s.id == server);
       && i < |r.manifest| && ClassOf(r.manifest[i].tools, tool) == ToolClass.Confirm
       && var p := PastAt(r, m, i);
          p.state == Running && Offers(p.tools, tool) && ActiveAt(p.elevation, e.now)
  }

  lemma FirstServer(r: Run, id: string)
    requires Started(r)
    ensures |r.outcomes| == |r.manifest|
    ensures var i := Position(r.manifest, (s: ServerManifest) => s.id == id);
            && (i < |r.manifest| ==> FindServer(r.manifest, id) == Some(r.manifest[i]) && r.manifest[i].id == id)
            && (i == |r.manifest| ==> FindServer(r.manifest, id) == None)
  {
    hide Built;
  }

  lemma NeedsWhenCallsConfirm(r: Run, m: nat)
    requires Started(r) && m < |r.events| && r.events[m].CallTool?
    ensures |r.outcomes| == |r.manifest|
    ensures CallsConfirm(r, m) <==> NeedsConfirmation(At(r, m).agg, r.events[m].name, r.events[m].now)
  {
    hide At;
    hide PastAt;
    hide Started;
    hide Inv;
    hide PassesGate;
    hide NeedsConfirmation;
    hide SplitOnce;
    hide SlotOf;
    hide FindServer;
    hide Offers;
    hide ClassOf;
    hide Position;
    var a, e := At(r, m).agg, r.events[m];
    InvAlways(r, m);
    NeedsASlot(a, e.name, e.now);
    if SplitOnce(e.name).Some? {
      var server := SplitOnce(e.name).value.0;
      var i := Position(r.manifest, (s: ServerManifest) => s.id == server);
      FirstServer(r, server);
      if i < |r.manifest| {
        SlotsFollowHistory(r, m, i, e.now);
        GateByClass(a, e.name, e.now);
      } else {
        NoServerNoSlot(a, server);
      }
    } else {
      FirstServer(r, "");
    }
  }

  lemma NeedsASlot(a: Agg, name: string, now: u64)
    ensures NeedsConfirmation(a, name, now) ==>
            SplitOnce(name).Some? && SlotOf(a.servers, SplitOnce(name).value.0).Some?
  {
    hide ResolveExposure;
  }

  lemma NoServerNoSlot(a: Agg, id: string)
    requires Inv(a) && FindServer(a.manifest, id).None?
    ensures SlotOf(a.servers, id).None?
  {
    InvSlots(a);
    hide Inv;
  }

  // ----- Approvals over the trace -----

  /** The approval at step `j` is of this server and tool, and at most 30 seconds old. */
  ghost function Covering(r: Run, server: string, tool: string, now: u64): nat -> bool {
    (j: nat) => j < |r.events| && Seen(r, j).Approved? && Seen(r, j).id == server && Seen(r, j).tool == tool
                && now <= Seen(r, j).now + 30
  }

  ghost function Fresh(r: Run, now: u64): nat -> bool {
    (j: nat) => j < |r.events| && Seen(r, j).Approved? && now <= Seen(r, j).now + 30
  }

  /** Which of the approvals held the step takes: a call of a confirm tool takes the first that covers it. */
  ghost function Chosen(r: Run, m: nat, held: seq<nat>): (place: Option<nat>)
    requires m < |r.events| && |r.outcomes| == |r.manifest|
    ensures place.Some? ==> place.value < |held|
  {
    if !CallsConfirm(r, m) then None
    else
      var (server, tool) := SplitOnce(r.events[m].name).value;
      var i := Position(held, Covering(r, server, tool, r.events[m].now));
      if i < |held| then Some(i) else None
  }

  /** The approvals held before step `k`, by their steps: a fold over events, visible outcomes and what the trace says
      of the servers. An approval drops those more than 30 seconds older and adds itself; a call takes its choice, and
      the last one held moves to its place. */
  ghost function Approvals(r: Run, k: nat): seq<nat>
    requires k <= |r.events| && |r.outcomes| == |r.manifest|
  {
    if k == 0 then []
    else
      var held := Approvals(r, k - 1);
      match Seen(r, k - 1)
      case Approved(_, _, now) => Retain<nat>(held, Fresh(r, now)) + [k - 1]
      case _ =>
        match Chosen(r, k - 1, held)
        case None => held
        case Some(i) => SwapRemove(held, i)
  }

  lemma PushedIs(r: Run, j: nat)
    requires j < |r.events| && Seen(r, j).Approved?
    ensures PushedAt(r)(j) == Confirmation(Seen(r, j).id, Seen(r, j).tool, Seen(r, j).now)
  {
    hide Observe;
    hide At;
  }

  lemma UsableWhile(r: Run, j: nat, now: u64)
    requires j < |r.events| && Seen(r, j).Approved?
    ensures UsableTag(r, now)(j) == Fresh(r, now)(j)
  {
    hide Observe;
    hide At;
    hide PushedAt;
    PushedIs(r, j);
    assert UsableTag(r, now)(j) == PushedAt(r)(j).Usable(now);
  }

  lemma LiveFacts(r: Run, k: nat)
    requires Started(r) && k <= |r.events|
    ensures Distinct(Live(r, k)) && |Live(r, k)| == |At(r, k).agg.confirmations|
    ensures forall j :: j in Live(r, k) ==> j < k && Seen(r, j).Approved?
    ensures forall i :: 0 <= i < |Live(r, k)| ==> At(r, k).agg.confirmations[i] == PushedAt(r)(Live(r, k)[i])
  {
    hide Live;
    hide At;
    hide Observe;
    hide PushedAt;
    hide Started;
    LiveTagged(r, k);
  }

  lemma CoveringIsApproving(r: Run, j: nat, server: string, tool: string, now: u64)
    requires j < |r.events| && Seen(r, j).Approved?
    ensures Covering(r, server, tool, now)(j) == Approves(server, tool, now)(PushedAt(r)(j))
  {
    hide Observe;
    hide At;
    hide PushedAt;
    PushedIs(r, j);
  }

  /** The trace's choice is the store's. */
  lemma ChosenIsTaken(r: Run, m: nat)
    requires Started(r) && m < |r.events|
    ensures |r.outcomes| == |r.manifest|
    ensures Chosen(r, m, Live(r, m)) ==
            if r.events[m].CallTool? then TakenIndex(At(r, m).agg, r.events[m].name, r.events[m].now) else None
  {
    hide At;
    hide Live;
    hide Seen;
    hide Started;
    hide NeedsConfirmation;
    hide PushedAt;
    hide SplitOnce;
    hide Covering;
    hide Approves;
    hide Position;
    OutcomePerServer(r);
    var e := r.events[m];
    if !e.CallTool? {
      OnlyCallsConfirm(r, m);
    } else {
      NeedsWhenCallsConfirm(r, m);
      hide CallsConfirm;
      if NeedsConfirmation(At(r, m).agg, e.name, e.now) {
        NeedsPassesGate(At(r, m).agg, e.name, e.now);
        var (server, tool) := SplitOnce(e.name).value;
        LiveFacts(r, m);
        var live, stored := Live(r, m), At(r, m).agg.confirmations;
        forall i | 0 <= i < |live|
          ensures Covering(r, server, tool, e.now)(live[i]) == Approves(server, tool, e.now)(stored[i]) {
          assert live[i] in Live(r, m);
          CoveringIsApproving(r, live[i], server, tool, e.now);
        }
        PositionMapped(live, stored, Covering(r, server, tool, e.now), Approves(server, tool, e.now));
      }
    }
  }

  lemma OnlyCallsConfirm(r: Run, m: nat)
    requires m < |r.events| && |r.outcomes| == |r.manifest|
    ensures CallsConfirm(r, m) ==> r.events[m].CallTool?
  {
    hide PastAt;
  }

  lemma LiveNext(r: Run, k: nat)
    requires k < |r.events|
    ensures var e := r.events[k];
            Live(r, k + 1) ==
            match Seen(r, k)
            case Approved(_, _, now) => Retain<nat>(Live(r, k), UsableTag(r, now)) + [k]
            case _ =>
              if !e.CallTool? then Live(r, k)
              else
                (match TakenIndex(At(r, k).agg, e.name, e.now)
                 case None => Live(r, k)
                 case Some(i) => if i < |Live(r, k)| then SwapRemove(Live(r, k), i) else Live(r, k))
  {
    hide At;
    hide Observe;
    hide TakenIndex;
    hide UsableTag;
  }

  /** The fold is the store's own bookkeeping, entry by entry. */
  lemma {:induction false} ApprovalsAreLive(r: Run, k: nat)
    requires Started(r) && k <= |r.events|
    ensures |r.outcomes| == |r.manifest|
    ensures Approvals(r, k) == Live(r, k)
  {
    hide At;
    hide Seen;
    hide Started;
    hide Live;
    hide TakenIndex;
    hide Chosen;
    hide UsableTag;
    hide Fresh;
    hide PushedAt;
    OutcomePerServer(r);
    if k == 0 {
      assert Live(r, 0) == [] by { NothingLive(r); }
    } else {
      ApprovalsAreLive(r, k - 1);
      LiveNext(r, k - 1);
      ChosenIsTaken(r, k - 1);
      LiveFacts(r, k - 1);
      if Seen(r, k - 1).Approved? {
        var now := Seen(r, k - 1).now;
        forall j | j in Live(r, k - 1) ensures UsableTag(r, now)(j) == Fresh(r, now)(j) {
          UsableWhile(r, j, now);
        }
        RetainAgrees<nat>(Live(r, k - 1), UsableTag(r, now), Fresh(r, now));
      }
    }
  }

  lemma NothingLive(r: Run)
    ensures Live(r, 0) == []
  {
  }

  /** The stored confirmations are, one for one and in order, those of the approvals that the fold of the trace holds,
      which are all different. */
  lemma ConfirmationsFollowTrace(r: Run, k: nat)
    requires Started(r) && k <= |r.events|
    ensures |r.outcomes| == |r.manifest|
    ensures var held, stored := Approvals(r, k), At(r, k).agg.confirmations;
            && |held| == |stored| && Distinct(held)
            && forall n :: 0 <= n < |held| ==>
                 held[n] < k && Seen(r, held[n]).Approved?
                 && stored[n] == Confirmation(Seen(r, held[n]).id, Seen(r, held[n]).tool, Seen(r, held[n]).now)
  {
    hide At;
    hide Seen;
    hide Started;
    hide Live;
    hide Approvals;
    hide PushedAt;
    ApprovalsAreLive(r, k);
    LiveFacts(r, k);
    var held := Approvals(r, k);
    forall n | 0 <= n < |held|
      ensures held[n] < k && Seen(r, held[n]).Approved?
      ensures PushedAt(r)(held[n]) == Confirmation(Seen(r, held[n]).id, Seen(r, held[n]).tool, Seen(r, held[n]).now)
    {
      assert held[n] in Live(r, k);
      PushedIs(r, held[n]);
    }
  }

  // ----- Approvals by their last event -----

  /** The approval step that step `m` takes, if it takes one. */
  ghost function TakenBy(r: Run, m: nat): Option<nat>
    requires m < |r.events| && |r.outcomes| == |r.manifest|
  {
    if Seen(r, m).Approved? then None
    else
      var i :- Chosen(r, m, Approvals(r, m));
      Some(Approvals(r, m)[i])
  }

  /** Step `m` puts an end to the approval at step `j`: a call takes it, or a later approval is read more than 30
      seconds after it. */
  ghost predicate EndsApproval(r: Run, j: nat, m: nat)
    requires j < |r.events| && m < |r.events| && Seen(r, j).Approved? && |r.outcomes| == |r.manifest|
  {
    TakenBy(r, m) == Some(j) || (Seen(r, m).Approved? && Seen(r, m).now > Seen(r, j).now + 30)
  }

  ghost predicate Outstanding(r: Run, j: nat, k: nat)
    requires k <= |r.events| && |r.outcomes| == |r.manifest|
  {
    j < k && Seen(r, j).Approved? && forall m :: j < m < k ==> !EndsApproval(r, j, m)
  }

  lemma HeldAfterApproval(r: Run, k: nat, j: nat)
    requires k < |r.events| && |r.outcomes| == |r.manifest| && Seen(r, k).Approved?
    ensures j in Approvals(r, k + 1) <==> j == k || (j in Approvals(r, k) && Fresh(r, Seen(r, k).now)(j))
  {
    hide Seen;
    hide Fresh;
    hide Chosen;
  }

  lemma HeldAfterOther(r: Run, k: nat, j: nat)
    requires k < |r.events| && |r.outcomes| == |r.manifest| && !Seen(r, k).Approved? && Distinct(Approvals(r, k))
    ensures j in Approvals(r, k + 1) <==> j in Approvals(r, k) && TakenBy(r, k) != Some(j)
  {
    hide Seen;
    hide Chosen;
    hide Fresh;
    var place := Chosen(r, k, Approvals(r, k));
    if place.Some? {
      SwapRemoveDistinct(Approvals(r, k), place.value);
    }
  }

  lemma OutstandingStep(r: Run, j: nat, k: nat)
    requires k < |r.events| && |r.outcomes| == |r.manifest| && j < k && Seen(r, j).Approved?
    ensures Outstanding(r, j, k + 1) <==> Outstanding(r, j, k) && !EndsApproval(r, j, k)
  {
    hide Seen;
    hide EndsApproval;
  }

  lemma JustApproved(r: Run, k: nat)
    requires k < |r.events| && |r.outcomes| == |r.manifest|
    ensures Outstanding(r, k, k + 1) <==> Seen(r, k).Approved?
  {
    hide Seen;
    hide EndsApproval;
  }

  lemma NotYetOutstanding(r: Run, j: nat, k: nat)
    requires k <= |r.events| && |r.outcomes| == |r.manifest|
    ensures Outstanding(r, j, k) ==> j < k && Seen(r, j).Approved?
  {
    hide Seen;
    hide EndsApproval;
  }

  lemma EndsWhen(r: Run, j: nat, m: nat)
    requires j < |r.events| && m < |r.events| && Seen(r, j).Approved? && |r.outcomes| == |r.manifest|
    ensures EndsApproval(r, j, m) <==>
            if Seen(r, m).Approved? then !Fresh(r, Seen(r, m).now)(j) else TakenBy(r, m) == Some(j)
  {
    hide Seen;
    hide Chosen;
    hide Approvals;
  }

  /** The approvals held are exactly those that nothing has put an end to. */
  lemma {:induction false} HeldIsOutstanding(r: Run, j: nat, k: nat)
    requires Started(r) && k <= |r.events|
    ensures |r.outcomes| == |r.manifest|
    ensures j in Approvals(r, k) <==> Outstanding(r, j, k)
  {
    hide At;
    hide Seen;
    hide Started;
    hide Approvals;
    hide TakenBy;
    hide Fresh;
    hide Outstanding;
    hide EndsApproval;
    ConfirmationsFollowTrace(r, k);
    NotYetOutstanding(r, j, k);
    if j < k && Seen(r, j).Approved? {
      ConfirmationsFollowTrace(r, k - 1);
      if j == k - 1 {
        HeldAfterApproval(r, j, j);
        JustApproved(r, j);
      } else {
        HeldIsOutstanding(r, j, k - 1);
        OutstandingStep(r, j, k - 1);
        EndsWhen(r, j, k - 1);
        if Seen(r, k - 1).Approved? {
          HeldAfterApproval(r, k - 1, j);
        } else {
          HeldAfterOther(r, k - 1, j);
        }
      }
    }
  }

  /** The approval at step `j` is outstanding, of this very server and tool, and at most 30 seconds old. */
  ghost predicate Covers(r: Run, j: nat, k: nat, server: string, tool: string, now: u64)
    requires k <= |r.events| && |r.outcomes| == |r.manifest|
  {
    Outstanding(r, j, k) && Seen(r, j).id == server && Seen(r, j).tool == tool
      && now <= Seen(r, j).now + 30
  }

  /** Some approval of this very server and tool is outstanding and at most 30 seconds old. */
  ghost predicate ApprovalOpen(r: Run, k: nat, server: string, tool: string, now: u64)
    requires k <= |r.events| && |r.outcomes| == |r.manifest|
  {
    exists j :: Covers(r, j, k, server, tool, now)
  }

  lemma HeldIffApproved(r: Run, k: nat, name: string, now: u64)
    requires Started(r) && k <= |r.events| && SplitOnce(name).Some?
    ensures |r.outcomes| == |r.manifest|
    ensures (exists c :: c in At(r, k).agg.confirmations && ConfirmedBy(c, name, now)) <==>
            ApprovalOpen(r, k, SplitOnce(name).value.0, SplitOnce(name).value.1, now)
  {
    hide At;
    hide Seen;
    hide Started;
    hide Approvals;
    hide Outstanding;
    hide SplitOnce;
    ConfirmationsFollowTrace(r, k);
    var held, stored := Approvals(r, k), At(r, k).agg.confirmations;
    var (server, tool) := SplitOnce(name).value;
    if c :| c in stored && ConfirmedBy(c, name, now) {
      var n :| 0 <= n < |stored| && stored[n] == c;
      HeldIsOutstanding(r, held[n], k);
      assert Covers(r, held[n], k, server, tool, now);
    }
    if j :| Covers(r, j, k, server, tool, now) {
      HeldIsOutstanding(r, j, k);
      var n :| 0 <= n < |held| && held[n] == j;
      assert stored[n] in stored && ConfirmedBy(stored[n], name, now);
    }
  }

  // ----- Calls over the trace -----

  /** Some grant on the server stands at step `k` and is open at the reading. */
  ghost predicate GrantOpen(r: Run, k: nat, server: string, now: u64)
    requires k <= |r.events|
  {
    exists j, elevation :: GrantStands(r, j, k, server, elevation) && elevation.IsActive(now)
  }

  lemma ElevatedIffGranted(r: Run, k: nat, server: string, now: u64)
    requires Started(r) && k <= |r.events| && SlotOf(r.start.agg.servers, server).Some?
    ensures SlotOf(At(r, k).agg.servers, server).Some?
    ensures ActiveAt(SlotOf(At(r, k).agg.servers, server).value.elevation, now) <==> GrantOpen(r, k, server, now)
  {
    hide At;
    hide Started;
    hide GrantStands;
    hide SlotOf;
    SlotsNeverVanish(r, k, server);
    var elevation := SlotOf(At(r, k).agg.servers, server).value.elevation;
    if elevation.Some? {
      ElevationHistory(r, k, server, elevation.value);
    }
    if j, e :| GrantStands(r, j, k, server, e) && e.IsActive(now) {
      ElevationHistory(r, k, server, e);
    }
  }

  /** What the trace requires of a call for its child to be asked: the server runs, a handle is held, the server
      offers the tool, a grant is open unless the operator classed the tool as read, and an approval is open
      if the operator classed it as confirm. */
  ghost predicate Allowed(r: Run, k: nat, i: nat, tool: string, now: u64)
    requires k <= |r.events| && i < |r.manifest| && |r.outcomes| == |r.manifest|
  {
    var p, id, cls := PastAt(r, k, i), r.manifest[i].id, ClassOf(r.manifest[i].tools, tool);
    && p.state == Running && p.handle.Some? && Offers(p.tools, tool)
    && (cls == ToolClass.Read || GrantOpen(r, k, id, now))
    && (cls == ToolClass.Confirm ==> ApprovalOpen(r, k, id, tool, now))
  }

  lemma SentIffAllowed(r: Run, k: nat, i: nat, name: string, arguments: Value, now: u64,
                       reply: Result<Value, ChildError>)
    requires Started(r) && k <= |r.events| && i < |r.manifest|
    requires SplitOnce(name).Some? && SplitOnce(name).value.0 == r.manifest[i].id
    ensures var tool := SplitOnce(name).value.1;
            Call(At(r, k).agg, name, arguments, now, reply).sent ==
            if Allowed(r, k, i, tool, now) then Some(Dispatch(PastAt(r, k, i).handle.value, tool, arguments)) else None
  {
    hide At;
    hide PastAt;
    hide Started;
    hide Call;
    hide Inv;
    hide PassesGate;
    hide NeedsConfirmation;
    hide ConfirmedBy;
    hide GrantOpen;
    hide ApprovalOpen;
    hide Offers;
    hide ClassOf;
    hide SplitOnce;
    hide SlotOf;
    hide FindServer;
    var a, id := At(r, k).agg, r.manifest[i].id;
    InvAlways(r, k);
    SlotsFollowHistory(r, k, i, now);
    PastHandle(a, id);
    ManifestEntry(r, i);
    CallSends(a, name, arguments, now, reply);
    GateByClass(a, name, now);
    HeldIffApproved(r, k, name, now);
    KnownFromStart(r, k, i);
    ElevatedIffGranted(r, k, id, now);
  }

  lemma PastHandle(a: Agg, id: string)
    requires PastOf(a, id).Some?
    ensures PastOf(a, id).value.handle == HandleOf(a.children, id)
  {
  }

  lemma KnownFromStart(r: Run, k: nat, i: nat)
    requires Started(r) && k <= |r.events| && i < |r.manifest|
    ensures SlotOf(r.start.agg.servers, r.manifest[i].id).Some?
  {
    hide Started;
    hide At;
    SlotsFollowHistory(r, 0, i, 0);
    assert At(r, 0) == r.start by { FirstState(r); }
  }

  /** A call reaches a child exactly when the trace allows it, and then the child whose handle the trace says is held,
      under the tool's own name; in every run, with readings in any order. So no guard of the broker lets more
      through than the trace justifies, and none refuses what it justifies. */
  lemma CallReachesExactlyWhen(r: Run, k: nat, i: nat)
    requires Started(r) && k < |r.events| && r.events[k].CallTool? && i < |r.manifest|
    requires SplitOnce(r.events[k].name).Some? && SplitOnce(r.events[k].name).value.0 == r.manifest[i].id
    ensures var e, tool := r.events[k], SplitOnce(r.events[k].name).value.1;
            Report(r, k).sent ==
            if Allowed(r, k, i, tool, e.now) then Some(Dispatch(PastAt(r, k, i).handle.value, tool, e.arguments))
               else None
  {
    hide At;
    hide Allowed;
    hide PastAt;
    hide Started;
    hide Call;
    hide SplitOnce;
    var e := r.events[k];
    SentIffAllowed(r, k, i, e.name, e.arguments, e.now, e.reply);
  }

  /** A call by a name that stands for no server of the manifest reaches no child. */
  lemma UnknownNeverReaches(r: Run, k: nat)
    requires Started(r) && k < |r.events| && r.events[k].CallTool?
    requires SplitOnce(r.events[k].name).Some? ==> FindServer(r.manifest, SplitOnce(r.events[k].name).value.0).None?
    ensures Report(r, k).sent.None?
  {
    hide At;
    hide Started;
    hide Call;
    hide SplitOnce;
    InvAlways(r, k);
    var a, e := At(r, k).agg, r.events[k];
    InvSlots(a);
    hide Inv;
    CallSends(a, e.name, e.arguments, e.now, e.reply);
  }

  /** A tool that the operator never declared is a write tool, whatever its child advertises: where its server runs with
      a handle, offers it and has a grant open, a call of it is sent and takes no approval; without an open grant it
      is not sent. */
  lemma UndeclaredToolIsWrite(r: Run, k: nat, i: nat)
    requires Started(r) && k < |r.events| && r.events[k].CallTool? && i < |r.manifest|
    requires SplitOnce(r.events[k].name).Some? && SplitOnce(r.events[k].name).value.0 == r.manifest[i].id
    requires SplitOnce(r.events[k].name).value.1 !in r.manifest[i].tools
    ensures |r.outcomes| == |r.manifest|
    ensures var e, tool, p := r.events[k], SplitOnce(r.events[k].name).value.1, PastAt(r, k, i);
            && (p.state == Running && p.handle.Some? && Offers(p.tools, tool)
                && GrantOpen(r, k, r.manifest[i].id, e.now) ==>
                  Report(r, k).sent == Some(Dispatch(p.handle.value, tool, e.arguments)))
            && (!GrantOpen(r, k, r.manifest[i].id, e.now) ==> Report(r, k).sent.None?)
            && At(r, k + 1).agg.confirmations == At(r, k).agg.confirmations
  {
    hide At;
    hide PastAt;
    hide Started;
    hide Call;
    hide SplitOnce;
    hide GrantOpen;
    hide ApprovalOpen;
    hide Offers;
    hide Next;
    OutcomePerServer(r);
    CallReachesExactlyWhen(r, k, i);
    UndeclaredTakesNothing(r, k, i);
  }

  lemma UndeclaredTakesNothing(r: Run, k: nat, i: nat)
    requires Started(r) && k < |r.events| && r.events[k].CallTool? && i < |r.manifest|
    requires SplitOnce(r.events[k].name).Some? && SplitOnce(r.events[k].name).value.0 == r.manifest[i].id
    requires SplitOnce(r.events[k].name).value.1 !in r.manifest[i].tools
    ensures At(r, k + 1).agg.confirmations == At(r, k).agg.confirmations
  {
    hide At;
    hide Started;
    hide Call;
    hide SplitOnce;
    hide Next;
    hide Inv;
    hide SlotOf;
    hide FindServer;
    hide NeedsConfirmation;
    hide PassesGate;
    var a, e := At(r, k).agg, r.events[k];
    InvAlways(r, k);
    NextAgg(r.auth, At(r, k), e);
    StepIsNext(r, k);
    ManifestEntry(r, i);
    CallTakesOneConfirmation(a, e.name, e.arguments, e.now, e.reply);
    NeedsASlot(a, e.name, e.now);
    if NeedsConfirmation(a, e.name, e.now) {
      GateByClass(a, e.name, e.now);
    }
  }
}
