/** Runs to exhibit: one server with one tool, one operator who signs a list of challenges, and then any steps. */
module Worlds {
  import opened Base
  import opened Names
  import opened Manifest
  import opened Policy
  import opened Broker
  import opened Hex
  import opened Challenge
  import opened Nonces
  import opened Aggregator
  import opened ToolAggregators
  import opened Handlers
  import opened Runs
  import opened WriteAuthority

  datatype World = World(server: string, tool: string, cls: ToolClass, client: string, signature: seq<u8>,
                         challenges: seq<(Nonce, Purpose)>, steps: seq<Event>)
  {
    predicate Valid() {
      NAMESPACE_SEP !in server && |signature| == SIGNATURE_LENGTH
    }

    predicate Signs(message: string) {
      exists i :: 0 <= i < |challenges| && message == ChallengeMessage(challenges[i].0, client, challenges[i].1)
    }

    /** The operator's key, and only it, verifies the signed challenges. */
    function Keys(): Authority {
      Authority(map[client := 1], (key, message, sig) => key == 1 && Signs(message))
    }

    function Advertised(): seq<ToolDef> {
      [ToolDef(tool, map[])]
    }

    /** The aggregator with the one server in this state, elevation and child. */
    function Single(state: ServerState, elevation: Option<Elevation>, child: Option<Handle>): Agg {
      Agg([ServerManifest(server, map[tool := cls])], [OneSlot(state, elevation)],
          if child.Some? then map[server := child.value] else map[], map[server := DefsOf(Advertised())], [])
    }

    function OneSlot(state: ServerState, elevation: Option<Elevation>): Slot {
      Slot(server, [ClassifiedTool(tool, cls)], state, elevation)
    }

    function Signing(): seq<Event> {
      seq(|challenges|, i requires 0 <= i < |challenges| => Sign(1, challenges[i].0, client, challenges[i].1))
    }

    function Outcomes(): seq<SpawnOutcome> {
      [Ok(Spawned(1, Advertised()))]
    }

    function AsRun(): Run {
      Run(Keys(), Single(Running, None, Some(1)).manifest, Outcomes(),
          Sys(Single(Running, None, Some(1)), [], map[], {}, 0, 0, multiset{}, []), Signing() + steps)
    }

    /** The index of step `n` in the run. */
    function After(n: nat): nat {
      |challenges| + n
    }
  }

  // ----- The run is one of the broker's -----

  lemma FirstSlot(w: World)
    ensures ClassifyAdvertised(map[w.tool := w.cls], NamesOf(w.Advertised())) == [ClassifiedTool(w.tool, w.cls)]
    ensures BuiltSlot(w.AsRun().manifest[0], w.AsRun().outcomes[0]) == w.OneSlot(Running, None)
  {
    assert ClassifyAdvertised(map[w.tool := w.cls], NamesOf(w.Advertised())) == [ClassifiedTool(w.tool, w.cls)];
  }

  lemma FirstMaps(w: World)
    ensures var a := w.Single(Running, None, Some(1));
            BuiltToolDefs(a.manifest, w.Outcomes(), 1, a.toolDefs)
              && BuiltChildren(a.manifest, w.Outcomes(), 1, a.children)
  {
    hide DefsOf;
    assert w.Single(Running, None, Some(1)).manifest[0].id == w.server;
  }

  lemma WorldStarts(w: World)
    requires w.Valid()
    ensures Started(w.AsRun())
  {
    hide BuiltSlot;
    hide BuiltToolDefs;
    hide BuiltChildren;
    hide DefsOf;
    hide Built;
    FirstSlot(w);
    FirstMaps(w);
    BuiltFromParts(w.Single(Running, None, Some(1)), w.AsRun().manifest, w.AsRun().outcomes);
  }

  /** After `k` signatures, nothing but the signatures has changed. */
  lemma {:induction false} WorldSigns(w: World, k: nat)
    requires k <= |w.challenges|
    ensures var s := At(w.AsRun(), k);
            && s == w.AsRun().start.(signed := s.signed)
            && forall i :: 0 <= i < k ==>
               (1, ChallengeMessage(w.challenges[i].0, w.client, w.challenges[i].1)) in s.signed
  {
    hide ChallengeMessage;
    if k > 0 {
      WorldSigns(w, k - 1);
      assert w.AsRun().events[k - 1] == Sign(1, w.challenges[k - 1].0, w.client, w.challenges[k - 1].1);
    }
  }

  lemma SignedGrows(auth: Authority, s: Sys, e: Event)
    ensures s.signed <= Next(auth, s, e).signed
  {
    hide AfterVerify;
    hide AfterApply;
    hide AfterRevoke;
    hide AfterCommand;
    hide AfterCall;
    hide AfterIssue;
    hide ChallengeMessage;
  }

  lemma {:induction false} StaysSigned(w: World, k: nat)
    requires |w.challenges| <= k <= |w.AsRun().events|
    ensures forall i :: 0 <= i < |w.challenges| ==>
                          (1, ChallengeMessage(w.challenges[i].0, w.client, w.challenges[i].1))
                          in At(w.AsRun(), k).signed
  {
    hide ChallengeMessage;
    hide Next;
    if k == |w.challenges| {
      WorldSigns(w, k);
    } else {
      StaysSigned(w, k - 1);
      SignedGrows(w.Keys(), At(w.AsRun(), k - 1), w.AsRun().events[k - 1]);
    }
  }

  lemma WorldUnforgeable(w: World)
    ensures Unforgeable(w.AsRun())
  {
    hide At;
    hide ChallengeMessage;
    var r := w.AsRun();
    forall v: nat, p: Pending | v < |r.events| && r.events[v].Verify? && Verifies(r.auth, p, r.events[v].signature)
      ensures (r.auth.registry[p.client], ChallengeMessage(p.nonce, p.client, p.purpose)) in At(r, v).signed
    {
      StaysSigned(w, v);
    }
  }

  lemma WorldBegins(w: World)
    ensures var s := At(w.AsRun(), w.After(0));
            s.agg == w.Single(Running, None, Some(1)) && s.nonces == [] && s.inflight == map[]
  {
    hide At;
    WorldSigns(w, |w.challenges|);
  }

  lemma WorldStep(w: World, n: nat)
    requires n < |w.steps|
    ensures w.After(n) < |w.AsRun().events| && w.AsRun().events[w.After(n)] == w.steps[n]
    ensures At(w.AsRun(), w.After(n + 1)) == Next(w.Keys(), At(w.AsRun(), w.After(n)), w.steps[n])
  {
    hide Next;
    assert w.AsRun().events[w.After(n)] == w.steps[n];
  }

  // ----- What each operation does to the one server -----

  lemma SingleFinds(w: World, state: ServerState, elevation: Option<Elevation>, child: Option<Handle>, id: string)
    ensures SlotOf(w.Single(state, elevation, child).servers, id) == if id == w.server then
            Some(w.OneSlot(state, elevation)) else None
    ensures FindServer(w.Single(state, elevation, child).manifest, w.server) ==
            Some(ServerManifest(w.server, map[w.tool := w.cls]))
  {
    var a := w.Single(state, elevation, child);
    PositionUnique(a.manifest, (s: ServerManifest) => s.id == w.server, 0);
    if id == w.server {
      PositionUnique(a.servers, (s: Slot) => s.id == id, 0);
    } else {
      PositionUnique(a.servers, (s: Slot) => s.id == id, 1);
    }
  }

  /** The one server shows its tool or nothing. */
  lemma SingleShows(w: World, state: ServerState, elevation: Option<Elevation>, now: u64)
    ensures w.OneSlot(state, elevation).Exposed(now) ==
            if state == Running && (w.cls == ToolClass.Read || ActiveAt(elevation, now)) then [w.tool] else []
  {
    var tools := [ClassifiedTool(w.tool, w.cls)];
    assert tools[1..] == [] && Visible(tools[1..], ActiveAt(elevation, now)) == [];
    assert Visible(tools, ActiveAt(elevation, now)) == if w.cls == ToolClass.Read || ActiveAt(elevation, now) then
           [w.tool]
           else [];
    assert [w.tool][1..] == [] && Sort([w.tool][1..]) == [];
  }

  lemma SinglePut(w: World, state: ServerState, elevation: Option<Elevation>, child: Option<Handle>,
                  state': ServerState,
                  elevation': Option<Elevation>)
    ensures PutSlot(w.Single(state, elevation, child).servers, w.OneSlot(state', elevation')) ==
            [w.OneSlot(state', elevation')]
  {
    PositionUnique(w.Single(state, elevation, child).servers, (s: Slot) => s.id == w.server, 0);
  }

  lemma SingleElevates(w: World, state: ServerState, elevation: Option<Elevation>, child: Option<Handle>,
                       elevation': Option<Elevation>, now: u64)
    ensures SetElevation(w.Single(state, elevation, child), w.server, elevation', now).agg ==
            w.Single(state, elevation', child)
  {
    hide Snapshot;
    hide SlotOf;
    hide PutSlot;
    hide DefsOf;
    SingleFinds(w, state, elevation, child, w.server);
    SinglePut(w, state, elevation, child, state, elevation');
  }

  lemma SingleSets(w: World, state: ServerState, elevation: Option<Elevation>, child: Option<Handle>,
                   state': ServerState)
    ensures SetState(w.Single(state, elevation, child), w.server, state') ==
            (w.Single(state', elevation, child), Ok(()))
  {
    hide SlotOf;
    hide PutSlot;
    hide DefsOf;
    SingleFinds(w, state, elevation, child, w.server);
    SinglePut(w, state, elevation, child, state', elevation);
  }

  lemma SingleStops(w: World, state: ServerState, elevation: Option<Elevation>, child: Option<Handle>)
    ensures Stop(w.Single(state, elevation, child), w.server) == (w.Single(Stopped, elevation, None), Ok(()))
  {
    hide SetState;
    hide DefsOf;
    SingleSets(w, state, elevation, child, Stopped);
    assert (if child.Some? then map[w.server := child.value] else map[]) - {w.server} == map[];
  }

  /** A start of the server without a child takes the new one. */
  lemma SingleRestarts(w: World, state: ServerState, elevation: Option<Elevation>, child: Handle)
    ensures Start(w.Single(state, elevation, None), w.server, Ok(Spawned(child, w.Advertised()))) ==
            (w.Single(Running, elevation, Some(child)), Ok(()))
  {
    hide SetState;
    hide DefsOf;
    hide SlotOf;
    hide PutSlot;
    hide FindServer;
    hide ClassifyAdvertised;
    SingleFinds(w, state, elevation, None, w.server);
    SingleFinds(w, state, elevation, Some(child), w.server);
    FirstSlot(w);
    SinglePut(w, state, elevation, None, state, elevation);
    var server := ServerManifest(w.server, map[w.tool := w.cls]);
    assert Install(w.Single(state, elevation, None), server, w.server, Spawned(child, w.Advertised())) ==
           w.Single(state, elevation, Some(child)) by { SingleInstalls(w, state, elevation, child); }
    SingleSets(w, state, elevation, Some(child), Running);
  }

  lemma SingleInstalls(w: World, state: ServerState, elevation: Option<Elevation>, child: Handle)
    ensures Install(w.Single(state, elevation, None), ServerManifest(w.server, map[w.tool := w.cls]), w.server,
                    Spawned(child, w.Advertised())) == w.Single(state, elevation, Some(child))
  {
    hide DefsOf;
    hide SlotOf;
    hide PutSlot;
    hide ClassifyAdvertised;
    SingleFinds(w, state, elevation, None, w.server);
    FirstSlot(w);
    SinglePut(w, state, elevation, None, state, elevation);
    assert map[][w.server := child] == map[w.server := child];
    assert map[w.server := DefsOf(w.Advertised())][w.server := DefsOf(w.Advertised())] ==
           map[w.server := DefsOf(w.Advertised())];
  }

  // ----- A whole submission -----

  /** What an accepted purpose does to the aggregator. */
  function Applied(a: Agg, verified: Verified, now: u64): Agg {
    match verified
    case ElevationVerified(server, elevation) => SetElevation(a, server, Some(elevation), now).agg
    case ActionVerified(server, tool) => ApproveAction(a, server, tool, now)
  }

  lemma EmptyStoreAccepts(w: World, c: nat, issued: u64, now: u64)
    requires w.Valid() && c < |w.challenges| && now <= issued + NONCE_TTL_SECS
    ensures var (nonce, purpose) := w.challenges[c];
            var stored := [Pending(nonce, w.client, purpose, issued)];
            && AfterIssue([], w.client, purpose, issued, Some(nonce)) == (stored, Ok(nonce))
            && AfterAttempt(w.Keys(), stored, w.client, nonce, w.signature, now) ==
               ([], Ok(Nonces.Outcome(purpose, now)))
  {
    hide ChallengeMessage;
    hide Position;
    hide SwapRemove;
    var (nonce, purpose) := w.challenges[c];
    var p := Pending(nonce, w.client, purpose, issued);
    OnlyEntry(p, issued);
    assert w.Signs(ChallengeMessage(nonce, w.client, purpose));
  }

  lemma OnlyEntry(p: Pending, now: u64)
    ensures Retain([], FreshAt(now)) + [p] == [p]
    ensures Position([p], Matches(p.nonce, p.client)) == 0 && SwapRemove([p], 0) == []
  {
    PositionUnique([p], Matches(p.nonce, p.client), 0);
  }

  /** Issue, verification and application of a signed challenge, where nothing else is under way. */
  lemma SubmissionApplied(w: World, s: Sys, c: nat, issued: u64, now: u64)
    requires w.Valid() && c < |w.challenges| && now <= issued + NONCE_TTL_SECS && s.nonces == [] && s.inflight == map[]
    ensures var (nonce, purpose) := w.challenges[c];
            var s1 := Next(w.Keys(), s, Issue(w.client, purpose, issued, Some(nonce)));
            var s2 := Next(w.Keys(), s1, Verify(0, w.client, nonce, w.signature, now));
            var s3 := Next(w.Keys(), s2, Apply(0));
            && s1.agg == s2.agg == s.agg
            && s2.inflight == map[0 := Inflight(w.client, Nonces.Outcome(purpose, now), now)]
            && s3.nonces == [] && s3.inflight == map[] && s3.agg == Applied(s.agg, Nonces.Outcome(purpose, now), now)
  {
    hide AfterAttempt;
    hide AfterIssue;
    hide AfterVerify;
    hide AfterApply;
    hide SetElevation;
    hide ApproveAction;
    hide Nonces.Outcome;
    hide ChallengeMessage;
    var (nonce, purpose) := w.challenges[c];
    EmptyStoreAccepts(w, c, issued, now);
    var s1 := Next(w.Keys(), s, Issue(w.client, purpose, issued, Some(nonce)));
    var s2 := Next(w.Keys(), s1, Verify(0, w.client, nonce, w.signature, now));
    NextAgg(w.Keys(), s1, Verify(0, w.client, nonce, w.signature, now));
    NextAgg(w.Keys(), s2, Apply(0));
  }
}
