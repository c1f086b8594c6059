/** Where authority comes from: every write call that reaches a child traces back, through one standing grant and
    one consumed nonce, to a challenge that a registered client signed. */
module WriteAuthority {
  import opened Base
  import opened Names
  import opened Manifest
  import opened Policy
  import opened Broker
  import opened Hex
  import opened Challenge
  import opened Nonces
  import opened Aggregator
  import opened Handlers
  import opened Runs
  import opened History

  /** A submission's signature verifies, under its client's registered key, for the challenge of this entry: the one
      check the store makes of a signature. */
  predicate Verifies(auth: Authority, p: Pending, signature: seq<u8>) {
    p.client in auth.registry
      && auth.verify(auth.registry[p.client], ChallengeMessage(p.nonce, p.client, p.purpose), signature)
  }

  /** Signatures cannot be forged: when a submission is checked against the entry it names, and its signature verifies
      for that entry's challenge, the client's key has signed that challenge before. Nothing is asked of other messages
      and keys, for which the same bytes may well verify. */
  ghost predicate Unforgeable(r: Run) {
    forall v: nat, p: Pending ::
      v < |r.events| && r.events[v].Verify? && p in At(r, v).nonces
      && p.nonce == r.events[v].nonce && p.client == r.events[v].client
      && Verifies(r.auth, p, r.events[v].signature) ==>
        (r.auth.registry[p.client], ChallengeMessage(p.nonce, p.client, p.purpose)) in At(r, v).signed
  }

  function Report(r: Run, k: nat): CallReport
    requires k < |r.events| && r.events[k].CallTool?
  {
    var e := r.events[k];
    Call(At(r, k).agg, e.name, e.arguments, e.now, e.reply)
  }

  /** Step `k` is a call that hands a request to a child. */
  predicate Reaches(r: Run, k: nat)
    requires k < |r.events|
  {
    r.events[k].CallTool? && Report(r, k).sent.Some?
  }

  /** The operator's class for a tool of a server; write if the operator declared none. */
  function OperatorClass(manifest: seq<ServerManifest>, server: string, tool: string): ToolClass {
    match FindServer(manifest, server)
    case None => ToolClass.Write
    case Some(s) => if tool in s.tools then s.tools[tool] else ToolClass.Write
  }

  /** Step `v` is a submission by `client` of `nonce` at reading `now` whose verification succeeds. */
  predicate Accepted(r: Run, v: nat, verified: Verified)
    requires v < |r.events|
  {
    r.events[v].Verify?
    && var e := r.events[v];
       e.tid !in At(r, v).inflight
       && AfterAttempt(r.auth, At(r, v).nonces, e.client, e.nonce, e.signature, e.now).1 == Ok(verified)
  }

  // ----- Origins -----

  /** A submission is put in flight by its successful verification and taken out by its application. */
  lemma InflightAfter(auth: Authority, s: Sys, e: Event)
    ensures Next(auth, s, e).inflight ==
            match e
            case Verify(tid, client, nonce, signature, now) =>
              if tid in s.inflight then s.inflight
              else
                (match AfterAttempt(auth, s.nonces, client, nonce, signature, now).1
                 case Ok(verified) => s.inflight[tid := Inflight(client, verified, now)]
                 case Err(_) => s.inflight)
            case Apply(tid) => s.inflight - {tid}
            case _ => s.inflight
  {
    hide AfterVerify;
    hide AfterApply;
    hide AfterRevoke;
    hide AfterCommand;
    hide AfterCall;
    hide AfterAttempt;
    hide AfterIssue;
    hide ChallengeMessage;
    match e
    case Verify(tid, client, nonce, signature, now) =>
    case Apply(tid) => RemoveAbsent(s.inflight, tid);
    case _ =>
  }

  lemma RemoveAbsent<T>(m: map<nat, T>, k: nat)
    ensures k !in m ==> m - {k} == m
  {
  }

  /** Only applying a verified elevation grants one. */
  lemma GrantIsApplied(auth: Authority, s: Sys, e: Event)
    requires Observe(auth, s, e).Granted?
    ensures e.Apply? && e.tid in s.inflight
    ensures s.inflight[e.tid].verified == ElevationVerified(Observe(auth, s, e).id, Observe(auth, s, e).elevation)
  {
  }

  /** A verified submission in flight was verified by its own thread, which has not applied it yet. */
  lemma {:induction false} InflightOrigin(r: Run, k: nat, tid: nat) returns (v: nat)
    requires Started(r) && k <= |r.events| && tid in At(r, k).inflight
    ensures v < k && Accepted(r, v, At(r, k).inflight[tid].verified) && r.events[v].tid == tid
    ensures At(r, k).inflight[tid] == Inflight(r.events[v].client, At(r, k).inflight[tid].verified, r.events[v].now)
    ensures forall m :: v < m < k ==> r.events[m] != Apply(tid)
  {
    hide AfterAttempt;
    hide Next;
    hide Built;
    InflightAfter(r.auth, At(r, k - 1), r.events[k - 1]);
    var e := r.events[k - 1];
    if e.Verify? && e.tid == tid && tid !in At(r, k - 1).inflight {
      v := k - 1;
    } else {
      v := InflightOrigin(r, k - 1, tid);
    }
  }

  /** A pending nonce was issued, to its client and for its purpose, at its issue time. */
  lemma {:induction false} NonceOrigin(r: Run, k: nat, p: Pending) returns (i: nat)
    requires Started(r) && k <= |r.events| && p in At(r, k).nonces
    ensures i < k && r.events[i] == Issue(p.client, p.purpose, p.issuedAt, Some(p.nonce))
  {
    hide Next;
    hide Built;
    NoncesAfter(r.auth, At(r, k - 1), r.events[k - 1]);
    if p in At(r, k - 1).nonces {
      i := NonceOrigin(r, k - 1, p);
    } else {
      i := k - 1;
    }
  }

  /** A step adds at most the nonce it issues. */
  lemma NoncesAfter(auth: Authority, s: Sys, e: Event)
    ensures forall p :: p in Next(auth, s, e).nonces ==>
                          p in s.nonces || (e.Issue? && e == Issue(p.client, p.purpose, p.issuedAt, Some(p.nonce)))
    ensures !e.Issue? && !e.Verify? ==> Next(auth, s, e).nonces == s.nonces
    ensures e.Issue? ==> Next(auth, s, e).nonces == AfterIssue(s.nonces, e.client, e.purpose, e.now, e.rng).0
    ensures e.Verify? ==> Next(auth, s, e).nonces ==
                          if e.tid in s.inflight then s.nonces
                          else AfterAttempt(auth, s.nonces, e.client, e.nonce, e.signature, e.now).0
  {
    hide AfterVerify;
    hide AfterApply;
    hide AfterRevoke;
    hide AfterCommand;
    hide AfterCall;
    hide Judge;
  }

  lemma {:induction false} SignatureOrigin(r: Run, k: nat, key: Key, message: string) returns (s: nat)
    requires Started(r) && k <= |r.events| && (key, message) in At(r, k).signed
    ensures s < k && r.events[s].Sign? && r.events[s].key == key
    ensures message == ChallengeMessage(r.events[s].nonce, r.events[s].client, r.events[s].purpose)
  {
    hide AfterVerify;
    hide AfterApply;
    hide AfterRevoke;
    hide AfterCommand;
    hide AfterCall;
    hide AfterIssue;
    hide ChallengeMessage;
    hide Built;
    if (key, message) in At(r, k - 1).signed {
      s := SignatureOrigin(r, k - 1, key, message);
    } else {
      s := k - 1;
    }
  }

  /** What an accepted submission consumed: a pending entry of its nonce and client, still fresh, whose purpose
      gives the outcome, and whose exact challenge verifies under the client's registered key. */
  lemma AcceptedEntry(r: Run, v: nat, verified: Verified) returns (p: Pending)
    requires v < |r.events| && Accepted(r, v, verified)
    ensures p in At(r, v).nonces && p.nonce == r.events[v].nonce && p.client == r.events[v].client
    ensures multiset(At(r, v + 1).nonces) + multiset{p} == multiset(At(r, v).nonces)
    ensures p.Fresh(r.events[v].now) && verified == Nonces.Outcome(p.purpose, r.events[v].now)
    ensures p.client in r.auth.registry
    ensures r.auth.verify(r.auth.registry[p.client], ChallengeMessage(p.nonce, p.client, p.purpose),
                          r.events[v].signature)
  {
    NoncesAfter(r.auth, At(r, v), r.events[v]);
    var e, pending := r.events[v], At(r, v).nonces;
    hide Next;
    var i := Position(pending, Matches(e.nonce, e.client));
    p := pending[i];
    SwapRemoveMultiset(pending, i);
  }

  /** The steps behind an accepted submission at `v`: the nonce was issued to this client for this purpose no
      more than 60 seconds of readings before, and this client's key signed the challenge for exactly this
      nonce, client and purpose. */
  ghost predicate Backed(r: Run, v: nat, purpose: Purpose, issue: nat, sign: nat)
    requires v < |r.events|
  {
    && issue < v && sign < v
    && r.events[v].Verify?
    && Accepted(r, v, Nonces.Outcome(purpose, r.events[v].now))
    && r.events[issue].Issue? && r.events[issue].client == r.events[v].client && r.events[issue].purpose == purpose
    && r.events[issue].rng == Some(r.events[v].nonce)
    && r.events[v].now <= r.events[issue].now + 60
    && r.events[v].client in r.auth.registry
    && r.events[sign] == Sign(r.auth.registry[r.events[v].client], r.events[v].nonce, r.events[v].client, purpose)
  }

  /** Every accepted submission is backed, in every interleaving and whatever else was signed: what the client
      signed can only be the stored purpose. */
  lemma AcceptedIsBacked(r: Run, v: nat, verified: Verified) returns (purpose: Purpose, issue: nat, sign: nat)
    requires Started(r) && Unforgeable(r) && v < |r.events| && Accepted(r, v, verified)
    ensures Backed(r, v, purpose, issue, sign) && verified == Nonces.Outcome(purpose, r.events[v].now)
  {
    hide At;
    hide ChallengeMessage;
    hide Started;
    hide AfterAttempt;
    var p := AcceptedEntry(r, v, verified);
    purpose := p.purpose;
    issue := NonceOrigin(r, v, p);
    var key, message := r.auth.registry[p.client], ChallengeMessage(p.nonce, p.client, p.purpose);
    assert (key, message) in At(r, v).signed;
    sign := SignatureOrigin(r, v, key, message);
    ChallengeInjective(p.nonce, p.client, p.purpose, r.events[sign].nonce, r.events[sign].client,
                       r.events[sign].purpose);
  }

  // ----- Write calls -----

  /** A call that reaches a child was exposed: its server runs, and the tool is a read tool by the operator's
      classification or the server's elevation is open at the reading. */
  lemma ReachingCallIsExposed(r: Run, k: nat)
    requires Started(r) && k < |r.events| && Reaches(r, k)
    ensures SplitOnce(r.events[k].name).Some?
    ensures var (server, tool) := SplitOnce(r.events[k].name).value;
            && SlotOf(At(r, k).agg.servers, server).Some?
            && SlotOf(At(r, k).agg.servers, server).value.state == Running
            && (OperatorClass(r.manifest, server, tool) == ToolClass.Read
                || ActiveAt(SlotOf(At(r, k).agg.servers, server).value.elevation, r.events[k].now))
  {
    hide At;
    hide Built;
    InvAlways(r, k);
    var a, e := At(r, k).agg, r.events[k];
    GateDecidesRefusal(a, e.name, e.arguments, e.now, e.reply);
    var (server, tool) := SplitOnce(e.name).value;
    var slot := SlotOf(a.servers, server).value;
    hide Inv;
    hide Call;
    ExposureRule(slot.tools, slot.state, slot.elevation, e.now, tool);
    ClassIsOperators(a, server, tool);
  }

  /** Steps `apply` and `v` are the two halves of the submission whose grant on `server` covers step `k`. */
  ghost predicate CoveredBy(r: Run, k: nat, server: string, elevation: Elevation, apply: nat, v: nat)
    requires k <= |r.events|
  {
    && v < apply < k
    && r.events[v].Verify?
    && Accepted(r, v, ElevationVerified(server, elevation))
    && r.events[apply] == Apply(r.events[v].tid)
    && GrantStands(r, apply, k, server, elevation)
  }

  lemma StandingGrantOrigin(r: Run, k: nat, server: string, elevation: Elevation, apply: nat) returns (v: nat)
    requires Started(r) && k <= |r.events| && GrantStands(r, apply, k, server, elevation)
    ensures CoveredBy(r, k, server, elevation, apply, v)
  {
    hide At;
    hide Built;
    hide AfterAttempt;
    hide Call;
    GrantIsApplied(r.auth, At(r, apply), r.events[apply]);
    hide Observe;
    var tid := r.events[apply].tid;
    v := InflightOrigin(r, apply, tid);
  }

  /** Authority: in every run, every call that reaches a child for a tool the operator did not class as read is
      covered by an elevation of that very server that was applied earlier, with no grant, revocation or fault
      on the server in between; that elevation came from a submission whose nonce, client and purpose were
      issued and signed; and a time-boxed one is called strictly before its reading plus its window, as
      unbounded integers. */
  lemma WriteCallIsAuthorised(r: Run, k: nat)
    returns (mode: RequestedMode, elevation: Elevation, apply: nat, v: nat, issue: nat, sign: nat)
    requires Started(r) && Unforgeable(r) && k < |r.events| && Reaches(r, k)
    requires SplitOnce(r.events[k].name).Some? ==>
               OperatorClass(r.manifest, SplitOnce(r.events[k].name).value.0,
                             SplitOnce(r.events[k].name).value.1) != ToolClass.Read
    ensures SplitOnce(r.events[k].name).Some?
    ensures var server := SplitOnce(r.events[k].name).value.0;
            && CoveredBy(r, k, server, elevation, apply, v)
            && Backed(r, v, Elevate(server, mode), issue, sign)
            && (mode.TimeBoxed? ==> r.events[k].now < r.events[v].now + mode.ttl)
  {
    hide At;
    hide Built;
    hide Observe;
    hide Call;
    hide AfterAttempt;
    ReachingCallIsExposed(r, k);
    var server := SplitOnce(r.events[k].name).value.0;
    elevation := SlotOf(At(r, k).agg.servers, server).value.elevation.value;
    SlotsNeverVanish(r, k, server);
    ElevationHistory(r, k, server, elevation);
    apply :| GrantStands(r, apply, k, server, elevation);
    v := StandingGrantOrigin(r, k, server, elevation, apply);
    var purpose;
    purpose, issue, sign := AcceptedIsBacked(r, v, ElevationVerified(server, elevation));
    mode := purpose.mode;
    if mode.TimeBoxed? {
      WindowBounds(r.events[v].now, mode.ttl, r.events[k].now);
    }
  }
}
