/** Listings grow stale in one direction only: without a notification owed since, nothing new is exposed. */
module Staleness {
  import opened Base
  import opened Names
  import opened Manifest
  import opened Policy
  import opened Broker
  import opened Aggregator
  import opened Handlers
  import opened Nonces
  import opened Runs
  import opened History

  /** Step `k` makes a `tools/list_changed` notification owed. */
  predicate Owes(r: Run, k: nat)
    requires k < |r.events|
  {
    At(r, k + 1).owedNotices > At(r, k).owedNotices
  }

  // ----- Steps that owe nothing -----

  /** Equal snapshots show the same names. */
  lemma SameSnapshotSameNames(before: Agg, after: Agg, id: string, now: u64)
    requires Inv(before) && Inv(after) && before.manifest == after.manifest
    requires Snapshot(after.servers, now) == Snapshot(before.servers, now) && SlotOf(before.servers, id).Some?
    ensures SlotOf(after.servers, id).Some?
    ensures SlotOf(after.servers, id).value.Exposed(now) == SlotOf(before.servers, id).value.Exposed(now)
  {
    hide ResolveExposure;
    hide Snapshot;
    InvSlots(before);
    InvSlots(after);
    hide Inv;
    EqualSnapshots(before.servers, after.servers, now);
  }

  /** How many notices a step's section adds. */
  lemma OwesMeansChanged(r: Run, k: nat)
    requires k < |r.events| && !Owes(r, k)
    ensures var s, e := At(r, k), r.events[k];
            match e
            case Command(op, id, now, spawn) => !Lifecycle(s.agg, op, id, now, spawn).changed
            case Revoke(id, now) => !SetElevation(s.agg, id, None, now).changed
            case Apply(tid) =>
              tid in s.inflight && s.inflight[tid].verified.ElevationVerified? ==>
                !SetElevation(s.agg, s.inflight[tid].verified.server, Some(s.inflight[tid].verified.elevation),
                              s.inflight[tid].now).changed
            case _ => true
  {
    hide Lifecycle;
    hide AfterAttempt;
    hide AfterIssue;
    hide Call;
    hide Snapshot;
  }

  /** The step is a control step: its outcome is a lifecycle command, a grant or a revocation. */
  predicate Controls(outcome: Outcome) {
    outcome.Commanded? || outcome.Granted? || outcome.Revoked?
  }

  lemma ControlHasReading(auth: Nonces.Authority, s: Sys, e: Event)
    requires Controls(Observe(auth, s, e))
    ensures Reading(s, e).Some?
    ensures e.Command? || e.Revoke?
            || (e.Apply? && e.tid in s.inflight && s.inflight[e.tid].verified.ElevationVerified?)
    ensures e.Command? ==> RunOp(s.agg, e.op, e.id, e.spawn).1.Ok?
    ensures e.Revoke? ==> SlotOf(s.agg.servers, e.id).Some?
    ensures e.Apply? ==> SlotOf(s.agg.servers, s.inflight[e.tid].verified.server).Some?
  {
    hide Nonces.AfterAttempt;
    hide Call;
    hide RunOp;
  }

  lemma SectionWorks(a: Agg, id: string, elevation: Option<Elevation>, now: u64)
    requires SlotOf(a.servers, id).Some?
    ensures var s := SetElevation(a, id, elevation, now);
            s.result.Ok? && s.changed == (Snapshot(s.agg.servers, now) != Snapshot(a.servers, now))
  {
    hide Snapshot;
  }

  /** A control step that owes nothing leaves every snapshot at its reading as it was. */
  lemma SilentSnapshots(r: Run, k: nat)
    requires k < |r.events| && Controls(Seen(r, k)) && !Owes(r, k)
    ensures Reading(At(r, k), r.events[k]).Some?
    ensures var now := Reading(At(r, k), r.events[k]).value;
            Snapshot(At(r, k + 1).agg.servers, now) == Snapshot(At(r, k).agg.servers, now)
  {
    hide Next;
    hide Snapshot;
    hide RunOp;
    hide Call;
    hide Observe;
    hide SetElevation;
    hide SlotOf;
    hide Owes;
    var s, e := At(r, k), r.events[k];
    ControlHasReading(r.auth, s, e);
    OwesMeansChanged(r, k);
    NextAgg(r.auth, s, e);
    if e.Revoke? {
      SectionWorks(s.agg, e.id, None, e.now);
    } else if e.Apply? {
      var f := s.inflight[e.tid];
      SectionWorks(s.agg, f.verified.server, Some(f.verified.elevation), f.now);
    }
  }

  // ----- Servers over the trace -----

  function SlotOfPast(id: string, p: Past): Slot {
    Slot(id, p.tools, p.state, p.elevation)
  }

  /** The tool of this server is listed. */
  ghost predicate Listed(a: Agg, id: string, tool: string, now: u64) {
    Lists(AggregatedTools(a, now), ExternalName(id, tool))
  }

  lemma ListedIsShown(a: Agg, id: string, tool: string, now: u64)
    requires Inv(a) && NAMESPACE_SEP !in id && SlotOf(a.servers, id).Some?
    ensures Listed(a, id, tool, now) <==> tool in SlotOf(a.servers, id).value.Exposed(now)
  {
    hide Inv;
    hide SlotOf;
    hide AggregatedTools;
    hide Lists;
    hide ResolveExposure;
    hide SplitOnce;
    ListedExactlyWhenCallable(a, ExternalName(id, tool), now);
    SplitOfExternalName(id, tool);
  }

  /** The outcome is a control step on this server. */
  predicate Touches(outcome: Outcome, id: string) {
    match outcome
    case Commanded(_, id') => id' == id
    case Granted(id', _, _) => id' == id
    case Revoked(id') => id' == id
    case _ => false
  }

  lemma TouchesControls(outcome: Outcome, id: string)
    requires Touches(outcome, id)
    ensures Controls(outcome)
  {
  }

  /** A step that does not control the server leaves its slot as it is, unless it is a fault on it. */
  lemma UntouchedOrStopped(p: Past, server: ServerManifest, e: Event, outcome: Outcome)
    requires !Touches(outcome, server.id)
    ensures var p' := Remember(p, server, e, outcome);
            p'.state == Stopped || SlotOfPast(server.id, p') == SlotOfPast(server.id, p)
  {
  }

  /** A control step on the server, whose reading is `now`. */
  ghost predicate TouchedAt(r: Run, k: nat, server: nat, now: u64)
    requires k < |r.events| && server < |r.manifest|
  {
    Touches(Seen(r, k), r.manifest[server].id) && Reading(At(r, k), r.events[k]) == Some(now)
  }

  lemma TouchHasReading(r: Run, k: nat, id: string)
    requires k < |r.events| && Touches(Seen(r, k), id)
    ensures Reading(At(r, k), r.events[k]).Some?
  {
    hide At;
    hide Observe;
    TouchesControls(Seen(r, k), id);
    ControlHasReading(r.auth, At(r, k), r.events[k]);
  }

  /** What the slot of a server shows, at a point of a run. */
  ghost function ShownAt(r: Run, k: nat, server: nat, now: u64): seq<string>
    requires k <= |r.events| && server < |r.manifest| && server < |r.outcomes|
  {
    SlotOfPast(r.manifest[server].id, PastAt(r, k, server)).Exposed(now)
  }

  lemma ShownIsExposed(r: Run, k: nat, server: nat, now: u64)
    requires Started(r) && k <= |r.events| && server < |r.manifest|
    ensures var id := r.manifest[server].id;
            && SlotOf(At(r, k).agg.servers, id) == Some(SlotOfPast(id, PastAt(r, k, server)))
            && SlotOf(At(r, k).agg.servers, id).value.Exposed(now) == ShownAt(r, k, server, now)
  {
    hide At;
    hide PastAt;
    hide SlotOf;
    hide Started;
    hide ResolveExposure;
    SlotsFollowHistory(r, k, server, now);
  }

  /** A control step that owes nothing leaves what the server shows at the step's reading as it was. */
  lemma SilentTouchKeepsShown(r: Run, k: nat, server: nat, now: u64)
    requires Started(r) && k < |r.events| && server < |r.manifest| && TouchedAt(r, k, server, now) && !Owes(r, k)
    ensures ShownAt(r, k + 1, server, now) == ShownAt(r, k, server, now)
  {
    hide At;
    hide Started;
    hide Seen;
    hide Inv;
    hide Owes;
    hide SlotOf;
    hide ShownAt;
    hide Snapshot;
    TouchesControls(Seen(r, k), r.manifest[server].id);
    SilentSnapshots(r, k);
    InvAlways(r, k);
    InvAlways(r, k + 1);
    ShownIsExposed(r, k, server, now);
    ShownIsExposed(r, k + 1, server, now);
    SameSnapshotSameNames(At(r, k).agg, At(r, k + 1).agg, r.manifest[server].id, now);
  }

  /** What the server shows after a step it showed before: at the step's own reading if it controls the server, which
      must then owe nothing and be read no later, and else at any reading. */
  lemma SilentStepShrinks(r: Run, k: nat, server: nat, later: u64, now: u64, tool: string)
    requires Started(r) && k < |r.events| && server < |r.manifest| && tool in ShownAt(r, k + 1, server, later)
    requires if Touches(Seen(r, k), r.manifest[server].id) then
             TouchedAt(r, k, server, now) && !Owes(r, k) && now <= later
             else now == later
    ensures tool in ShownAt(r, k, server, now)
  {
    hide At;
    hide Started;
    hide Seen;
    hide Owes;
    hide PastAt;
    hide Touches;
    hide Remember;
    hide ResolveExposure;
    OutcomePerServer(r);
    NextPast(r, k, server);
    var p := PastAt(r, k + 1, server);
    if Touches(Seen(r, k), r.manifest[server].id) {
      SilentTouchKeepsShown(r, k, server, now);
      ExposureShrinks(p.tools, p.state, p.elevation, now, later, tool);
    } else {
      UntouchedOrStopped(PastAt(r, k, server), r.manifest[server], r.events[k], Seen(r, k));
      ExposureRule(p.tools, p.state, p.elevation, later, tool);
    }
  }

  // ----- Runs -----

  /** The listing at step `i`, the control steps on the server between it and step `k`, and the reading `latest` are
      read in that order. No other step counts: issues and verifications, under the nonce store's own lock, calls,
      approvals, and commands on other servers may be read at any time. */
  ghost predicate ControlsOrdered(r: Run, i: nat, k: nat, server: nat, latest: u64)
    requires i < k <= |r.events| && r.events[i].ListTools? && server < |r.manifest|
  {
    && r.events[i].now <= latest
    && (forall m, now: u64 :: i < m < k && TouchedAt(r, m, server, now) ==> r.events[i].now <= now <= latest)
    && (forall m, n, now: u64, now': u64 ::
          i < m < n < k && TouchedAt(r, m, server, now) && TouchedAt(r, n, server, now') ==> now <= now')
  }

  /** No control step on the server owes a notification. */
  ghost predicate ControlsSilent(r: Run, i: nat, k: nat, server: nat)
    requires k <= |r.events| && server < |r.manifest|
  {
    forall m :: i < m < k && Touches(Seen(r, m), r.manifest[server].id) ==> !Owes(r, m)
  }

  lemma {:induction false} SilentRunShrinks(r: Run, i: nat, k: nat, server: nat, latest: u64, tool: string)
    requires Started(r) && i < k <= |r.events| && r.events[i].ListTools? && server < |r.manifest|
    requires ControlsOrdered(r, i, k, server, latest) && ControlsSilent(r, i, k, server)
    requires tool in ShownAt(r, k, server, latest)
    ensures tool in ShownAt(r, i, server, r.events[i].now)
  {
    hide At;
    hide Started;
    hide Seen;
    hide Owes;
    hide PastAt;
    hide ResolveExposure;
    hide Touches;
    OutcomePerServer(r);
    if k == i + 1 {
      ListingKeepsPast(r, i, server);
      var p := PastAt(r, i, server);
      ExposureShrinks(p.tools, p.state, p.elevation, r.events[i].now, latest, tool);
    } else {
      var now := latest;
      if Touches(Seen(r, k - 1), r.manifest[server].id) {
        TouchHasReading(r, k - 1, r.manifest[server].id);
        now := Reading(At(r, k - 1), r.events[k - 1]).value;
        assert TouchedAt(r, k - 1, server, now);
      }
      SilentStepShrinks(r, k - 1, server, latest, now, tool);
      SilentRunShrinks(r, i, k - 1, server, now, tool);
    }
  }

  lemma ListingKeepsPast(r: Run, i: nat, server: nat)
    requires i < |r.events| && r.events[i].ListTools? && server < |r.manifest| && server < |r.outcomes|
    ensures PastAt(r, i + 1, server) == PastAt(r, i, server)
  {
    hide At;
    ListingIsQuiet(r.auth, At(r, i), r.events[i]);
    hide Observe;
  }

  lemma ListingIsQuiet(auth: Authority, s: Sys, e: Event)
    requires e.ListTools?
    ensures Observe(auth, s, e) == Quiet
  {
  }

  /** One-directional staleness: take a client's `tools/list` at step `i` and any later point of the run. If the
      control steps on a server since are read in lock order, between the listing and now, and none of them owes a
      notification, then every name of that server listed now was in that listing, across any mix of lifecycle
      commands, grants, revocations, expiry, faults and respawns. */
  lemma StaleListingOnlyShrinks(r: Run, i: nat, k: nat, server: nat, now: u64, tool: string)
    requires Started(r) && i < k <= |r.events| && r.events[i].ListTools? && server < |r.manifest|
    requires ControlsOrdered(r, i, k, server, now) && ControlsSilent(r, i, k, server)
    requires Listed(At(r, k).agg, r.manifest[server].id, tool, now)
    ensures Listed(At(r, i).agg, r.manifest[server].id, tool, r.events[i].now)
  {
    hide At;
    hide Started;
    hide Inv;
    hide Listed;
    hide ControlsOrdered;
    hide ControlsSilent;
    hide SlotOf;
    hide ShownAt;
    InvAlways(r, i);
    InvAlways(r, k);
    DotFreeId(r, server);
    ShownIsExposed(r, k, server, now);
    ShownIsExposed(r, i, server, r.events[i].now);
    ListedIsShown(At(r, k).agg, r.manifest[server].id, tool, now);
    ListedIsShown(At(r, i).agg, r.manifest[server].id, tool, r.events[i].now);
    SilentRunShrinks(r, i, k, server, now, tool);
  }

  lemma DotFreeId(r: Run, i: nat)
    requires Started(r) && i < |r.manifest|
    ensures NAMESPACE_SEP !in r.manifest[i].id
  {
  }

  /** Every listed name is some server's: nothing escapes the theorem above. */
  lemma ListedNamesAreServers(r: Run, k: nat, name: string, now: u64) returns (server: nat, tool: string)
    requires Started(r) && k <= |r.events| && Lists(AggregatedTools(At(r, k).agg, now), name)
    ensures server < |r.manifest| && name == ExternalName(r.manifest[server].id, tool)
    ensures Listed(At(r, k).agg, r.manifest[server].id, tool, now)
  {
    hide At;
    hide Started;
    hide AggregatedTools;
    hide Lists;
    hide ResolveExposure;
    InvAlways(r, k);
    var a := At(r, k).agg;
    ListedExactlyWhenCallable(a, name, now);
    InvSlots(a);
    ExternalNameOfSplit(name);
    server, tool := SlotIndex(a.servers, SplitOnce(name).value.0), SplitOnce(name).value.1;
  }
}
