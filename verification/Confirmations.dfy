/** Confirm calls over whole runs: each one that reaches a child uses up a confirmation of its own, and with it a
    nonce of its own, within bounded readings. */
module Confirmations {
  import opened Base
  import opened Names
  import opened Manifest
  import opened Policy
  import opened Broker
  import opened Hex
  import opened Challenge
  import opened Nonces
  import opened NonceLaws
  import opened Aggregator
  import opened Handlers
  import opened Runs
  import opened WriteAuthority

  // ----- Which approval each stored confirmation came from -----

  /** The confirmation that the approval at step `j` put into the store. */
  ghost function PushedAt(r: Run): nat -> Confirmation {
    (j: nat) => if j < |r.events| && Seen(r, j).Approved? then
      Confirmation(Seen(r, j).id, Seen(r, j).tool, Seen(r, j).now)
                else Confirmation("", "", 0)
  }

  ghost function UsableTag(r: Run, now: u64): nat -> bool {
    (j: nat) => PushedAt(r)(j).Usable(now)
  }

  /** The steps of the approvals still stored before step `k`, in the order of the store. */
  ghost function Live(r: Run, k: nat): seq<nat>
    requires k <= |r.events|
  {
    if k == 0 then []
    else
      var live, e := Live(r, k - 1), r.events[k - 1];
      match Seen(r, k - 1)
      case Approved(_, _, now) => Retain<nat>(live, UsableTag(r, now)) + [k - 1]
      case _ =>
        if !e.CallTool? then live
        else
          match TakenIndex(At(r, k - 1).agg, e.name, e.now)
          case None => live
          case Some(i) => if i < |live| then SwapRemove(live, i) else live
  }

  /** `tags` names, entry by entry, the approval steps before `k` behind `confirmations`, all different. */
  ghost predicate Tagged(r: Run, k: nat, confirmations: seq<Confirmation>, tags: seq<nat>)
    requires k <= |r.events|
  {
    && |tags| == |confirmations| && Distinct(tags)
    && (forall j :: j in tags ==> j < k && Seen(r, j).Approved?)
    && (forall i :: 0 <= i < |tags| ==> confirmations[i] == PushedAt(r)(tags[i]))
  }

  lemma RetainTagged(r: Run, k: nat, confirmations: seq<Confirmation>, tags: seq<nat>, now: u64)
    requires k <= |r.events| && Tagged(r, k, confirmations, tags)
    ensures Tagged(r, k, Retain(confirmations, UsableAt(now)), Retain<nat>(tags, UsableTag(r, now)))
  {
    hide Seen;
    RetainDistinct<nat>(tags, UsableTag(r, now));
    RetainMapped<Confirmation, nat>(confirmations, tags, UsableAt(now), UsableTag(r, now), PushedAt(r));
  }

  lemma PushTagged(r: Run, k: nat, confirmations: seq<Confirmation>, tags: seq<nat>)
    requires k < |r.events| && Tagged(r, k, confirmations, tags) && Seen(r, k).Approved?
    ensures Tagged(r, k + 1, confirmations + [Confirmation(Seen(r, k).id, Seen(r, k).tool, Seen(r, k).now)], tags + [k])
  {
    hide Seen;
  }

  lemma SwapTagged(r: Run, k: nat, confirmations: seq<Confirmation>, tags: seq<nat>, i: nat)
    requires k <= |r.events| && Tagged(r, k, confirmations, tags) && i < |tags|
    ensures Tagged(r, k, SwapRemove(confirmations, i), SwapRemove(tags, i))
  {
    hide Seen;
    SwapRemoveDistinct(tags, i);
  }

  lemma LaterTagged(r: Run, k: nat, confirmations: seq<Confirmation>, tags: seq<nat>)
    requires k < |r.events| && Tagged(r, k, confirmations, tags)
    ensures Tagged(r, k + 1, confirmations, tags)
  {
    hide Seen;
  }

  /** How a step changes the stored confirmations. */
  lemma ConfirmationsAfter(auth: Authority, s: Sys, e: Event)
    ensures AggAfter(s, e).confirmations ==
            match Observe(auth, s, e)
            case Approved(server, tool, now) =>
              Retain(s.agg.confirmations, UsableAt(now)) + [Confirmation(server, tool, now)]
            case _ =>
              if !e.CallTool? then s.agg.confirmations
              else
                (match TakenIndex(s.agg, e.name, e.now)
                 case None => s.agg.confirmations
                 case Some(i) => SwapRemove(s.agg.confirmations, i))
  {
    hide AfterAttempt;
    hide TakenIndex;
    hide RunOp;
    hide Call;
    match e
    case CallTool(name, arguments, now, reply) => CallTakesIndex(s.agg, name, arguments, now, reply);
    case Command(op, id, _, spawn) => CommandsKeepConfirmations(s.agg, op, id, spawn);
    case _ =>
  }

  lemma CommandsKeepConfirmations(a: Agg, op: LifecycleOp, id: string, spawn: SpawnOutcome)
    ensures RunOp(a, op, id, spawn).0.confirmations == a.confirmations
  {
  }

  /** How a step changes the live tags, given how many there are. */
  lemma StepTagged(r: Run, k: nat)
    requires k < |r.events| && Tagged(r, k, At(r, k).agg.confirmations, Live(r, k))
    ensures Tagged(r, k + 1, At(r, k + 1).agg.confirmations, Live(r, k + 1))
  {
    hide Next;
    hide AggAfter;
    hide Observe;
    hide TakenIndex;
    hide Tagged;
    hide PushedAt;
    hide UsableTag;
    var s, e, live := At(r, k), r.events[k], Live(r, k);
    TaggedLengths(r, k, s.agg.confirmations, live);
    NextAgg(r.auth, s, e);
    ConfirmationsAfter(r.auth, s, e);
    if Seen(r, k).Approved? {
      var now := Seen(r, k).now;
      RetainTagged(r, k, s.agg.confirmations, live, now);
      PushTagged(r, k, Retain(s.agg.confirmations, UsableAt(now)), Retain<nat>(live, UsableTag(r, now)));
    } else {
      if e.CallTool? && TakenIndex(s.agg, e.name, e.now).Some? {
        SwapTagged(r, k, s.agg.confirmations, live, TakenIndex(s.agg, e.name, e.now).value);
      }
      LaterTagged(r, k, At(r, k + 1).agg.confirmations, Live(r, k + 1));
    }
  }

  lemma {:induction false} LiveTagged(r: Run, k: nat)
    requires Started(r) && k <= |r.events|
    ensures Tagged(r, k, At(r, k).agg.confirmations, Live(r, k))
  {
    hide *;
    if k == 0 {
      NothingTagged(r);
    } else {
      LiveTagged(r, k - 1);
      StepTagged(r, k - 1);
    }
  }

  lemma NothingTagged(r: Run)
    requires Started(r)
    ensures Tagged(r, 0, At(r, 0).agg.confirmations, Live(r, 0))
  {
  }

  lemma TaggedLengths(r: Run, k: nat, confirmations: seq<Confirmation>, tags: seq<nat>)
    requires k <= |r.events| && Tagged(r, k, confirmations, tags)
    ensures |tags| == |confirmations|
  {
  }

  /** A step adds no tag but its own. */
  lemma LiveGrowsByOwnStep(r: Run, k: nat, tag: nat)
    requires k < |r.events| && tag in Live(r, k + 1) && tag != k
    ensures tag in Live(r, k)
  {
    hide Observe;
    hide TakenIndex;
    hide At;
    hide PushedAt;
  }

  /** A tag that has left the store never comes back. */
  lemma {:induction false} TagNeverReturns(r: Run, tag: nat, j: nat, k: nat)
    requires tag < j <= k <= |r.events| && tag !in Live(r, j)
    ensures tag !in Live(r, k)
  {
    hide Live;
    if j < k {
      TagNeverReturns(r, tag, j, k - 1);
      if tag in Live(r, k) {
        LiveGrowsByOwnStep(r, k - 1, tag);
      }
    }
  }

  // ----- Confirm calls -----

  /** Step `k` is a call that reaches a child for a tool the operator classed as confirm. */
  ghost predicate ConfirmCall(r: Run, k: nat)
    requires k < |r.events|
  {
    && Reaches(r, k)
    && SplitOnce(r.events[k].name).Some?
    && OperatorClass(r.manifest, SplitOnce(r.events[k].name).value.0, SplitOnce(r.events[k].name).value.1) ==
       ToolClass.Confirm
  }

  lemma ConfirmCallTakes(r: Run, k: nat)
    requires Started(r) && k < |r.events| && ConfirmCall(r, k)
    ensures TakenIndex(At(r, k).agg, r.events[k].name, r.events[k].now).Some?
    ensures TakenIndex(At(r, k).agg, r.events[k].name, r.events[k].now).value < |Live(r, k)|
  {
    hide At;
    hide Started;
    hide Live;
    hide ResolveExposure;
    LiveTagged(r, k);
    InvAlways(r, k);
    TaggedLengths(r, k, At(r, k).agg.confirmations, Live(r, k));
    var a, e := At(r, k).agg, r.events[k];
    var (server, tool) := SplitOnce(e.name).value;
    var slot := SlotOf(a.servers, server).value;
    hide Inv;
    ExposureRule(slot.tools, slot.state, slot.elevation, e.now, tool);
    ClassIsOperators(a, server, tool);
  }

  /** The approval step whose confirmation the confirm call at `k` takes. */
  ghost function ApprovalOf(r: Run, k: nat): nat
    requires Started(r) && k < |r.events| && ConfirmCall(r, k)
  {
    ConfirmCallTakes(r, k);
    Live(r, k)[TakenIndex(At(r, k).agg, r.events[k].name, r.events[k].now).value]
  }

  /** The taken confirmation is of the call's own server and tool, approved before it, and at most 30 seconds
      of readings old. */
  lemma ApprovalCovers(r: Run, k: nat)
    requires Started(r) && k < |r.events| && ConfirmCall(r, k)
    ensures var a := ApprovalOf(r, k);
            && a < k && Seen(r, a).Approved?
            && SplitOnce(r.events[k].name) == Some((Seen(r, a).id, Seen(r, a).tool))
            && r.events[k].now <= Seen(r, a).now + 30
  {
    hide At;
    hide Live;
    hide Started;
    hide Report;
    hide OperatorClass;
    hide SplitOnce;
    hide Observe;
    hide Tagged;
    ConfirmCallTakes(r, k);
    LiveTagged(r, k);
    TagIsApproval(r, k, At(r, k).agg.confirmations, Live(r, k),
                  TakenIndex(At(r, k).agg, r.events[k].name, r.events[k].now).value);
  }

  lemma TagIsApproval(r: Run, k: nat, confirmations: seq<Confirmation>, tags: seq<nat>, i: nat)
    requires k <= |r.events| && Tagged(r, k, confirmations, tags) && i < |tags|
    ensures tags[i] < k && Seen(r, tags[i]).Approved?
    ensures confirmations[i] == Confirmation(Seen(r, tags[i]).id, Seen(r, tags[i]).tool, Seen(r, tags[i]).now)
  {
    hide Observe;
    assert tags[i] in tags;
  }

  lemma CallsAreNotApprovals(r: Run, k: nat)
    requires k < |r.events| && r.events[k].CallTool?
    ensures !Seen(r, k).Approved?
  {
  }

  lemma TakenTagLeaves(r: Run, k: nat)
    requires Started(r) && k < |r.events| && ConfirmCall(r, k)
    ensures ApprovalOf(r, k) !in Live(r, k + 1)
  {
    hide TakenIndex;
    hide Report;
    hide At;
    hide Built;
    hide OperatorClass;
    ConfirmCallTakes(r, k);
    LiveTagged(r, k);
    CallsAreNotApprovals(r, k);
    hide Seen;
    SwapRemoveDistinct(Live(r, k), TakenIndex(At(r, k).agg, r.events[k].name, r.events[k].now).value);
  }

  /** Different confirm calls use different approvals. */
  lemma ApprovalsAreNotShared(r: Run, j: nat, k: nat)
    requires Started(r) && j < k < |r.events| && ConfirmCall(r, j) && ConfirmCall(r, k)
    ensures ApprovalOf(r, j) != ApprovalOf(r, k)
  {
    hide At;
    hide Built;
    hide Live;
    hide ConfirmCall;
    hide Seen;
    hide TakenIndex;
    ApprovalCovers(r, j);
    TakenTagLeaves(r, j);
    TagNeverReturns(r, ApprovalOf(r, j), j + 1, k);
    ConfirmCallTakes(r, k);
  }

  // ----- Back to nonces -----

  /** Steps `v` and `apply` are the two halves of the submission that approved the call at `k`. */
  ghost predicate ConfirmedFrom(r: Run, k: nat, apply: nat, v: nat)
    requires Started(r) && k < |r.events| && ConfirmCall(r, k)
  {
    && v < apply < k && apply == ApprovalOf(r, k)
    && r.events[v].Verify?
    && Accepted(r, v, ActionVerified(SplitOnce(r.events[k].name).value.0, SplitOnce(r.events[k].name).value.1))
    && r.events[apply] == Apply(r.events[v].tid)
    && (forall m :: v < m < apply ==> r.events[m] != Apply(r.events[v].tid))
    && r.events[k].now <= r.events[v].now + 30
  }

  lemma ApprovalIsApplied(auth: Authority, s: Sys, e: Event)
    requires Observe(auth, s, e).Approved?
    ensures e.Apply? && e.tid in s.inflight
    ensures var o := Observe(auth, s, e);
            s.inflight[e.tid].verified == ActionVerified(o.id, o.tool) && s.inflight[e.tid].now == o.now
  {
    hide AfterAttempt;
    hide Call;
    hide RunOp;
  }

  /** Every confirm call that reaches a child goes back to a consumed nonce that was issued and signed for
      confirming that very tool; the call's reading is at most 30 seconds after the approval's and at most 90
      after the issue's, whatever the order of the readings. */
  lemma ConfirmCallIsBacked(r: Run, k: nat) returns (apply: nat, v: nat, issue: nat, sign: nat)
    requires Started(r) && Unforgeable(r) && k < |r.events| && ConfirmCall(r, k)
    ensures ConfirmedFrom(r, k, apply, v)
    ensures var (server, tool) := SplitOnce(r.events[k].name).value;
            Backed(r, v, ConfirmAction(server, tool), issue, sign)
    ensures r.events[k].now <= r.events[issue].now + 90
  {
    hide At;
    hide Built;
    hide Observe;
    hide Report;
    hide OperatorClass;
    hide Accepted;
    hide ApprovalOf;
    ApprovalCovers(r, k);
    apply := ApprovalOf(r, k);
    ApprovalIsApplied(r.auth, At(r, apply), r.events[apply]);
    v := InflightOrigin(r, apply, r.events[apply].tid);
    var (server, tool) := SplitOnce(r.events[k].name).value;
    var purpose;
    purpose, issue, sign := AcceptedIsBacked(r, v, ActionVerified(server, tool));
  }

  ghost predicate NoncesNeverRepeat(r: Run) {
    forall i, j :: 0 <= i < j < |r.events| && r.events[i].Issue? && r.events[j].Issue? && r.events[i].rng.Some? ==>
                     r.events[i].rng != r.events[j].rng
  }

  lemma IssueKeepsNoncesDistinct(pending: seq<Pending>, client: string, purpose: Purpose, now: u64, rng: Option<Nonce>)
    requires DistinctNonces(pending) && forall p :: p in pending ==> rng != Some(p.nonce)
    ensures DistinctNonces(AfterIssue(pending, client, purpose, now, rng).0)
  {
    RetainKeepsDistinctNonces(pending, now);
  }

  lemma AttemptKeepsNoncesDistinct(auth: Authority, pending: seq<Pending>, client: string, nonce: Nonce,
                                   signature: seq<u8>, now: u64)
    requires DistinctNonces(pending)
    ensures DistinctNonces(AfterAttempt(auth, pending, client, nonce, signature, now).0)
  {
    hide Judge;
  }

  lemma NoNoncesDistinct()
    ensures DistinctNonces([])
  {
  }

  lemma {:induction false} PendingNoncesDistinct(r: Run, k: nat)
    requires Started(r) && NoncesNeverRepeat(r) && k <= |r.events|
    ensures DistinctNonces(At(r, k).nonces)
  {
    hide Next;
    hide Built;
    hide AfterIssue;
    hide AfterAttempt;
    hide DistinctNonces;
    if k == 0 {
      assert DistinctNonces([]) by { NoNoncesDistinct(); }
    } else {
      PendingNoncesDistinct(r, k - 1);
      var s, e := At(r, k - 1), r.events[k - 1];
      NoncesAfter(r.auth, s, e);
      match e
      case Issue(client, purpose, now, rng) =>
        forall p | p in s.nonces ensures rng != Some(p.nonce) {
          var i := NonceOrigin(r, k - 1, p);
        }
        IssueKeepsNoncesDistinct(s.nonces, client, purpose, now, rng);
      case Verify(tid, client, nonce, signature, now) =>
        AttemptKeepsNoncesDistinct(r.auth, s.nonces, client, nonce, signature, now);
      case _ =>
    }
  }

  /** Once no pending entry carries a nonce that has been drawn, none ever does again. */
  lemma {:induction false} NonceStaysGone(r: Run, i: nat, j: nat, k: nat, nonce: Nonce)
    requires Started(r) && NoncesNeverRepeat(r) && i < j <= k <= |r.events|
    requires r.events[i].Issue? && r.events[i].rng == Some(nonce)
    requires forall p :: p in At(r, j).nonces ==> p.nonce != nonce
    ensures forall p :: p in At(r, k).nonces ==> p.nonce != nonce
  {
    hide Next;
    hide Built;
    if j < k {
      NonceStaysGone(r, i, j, k - 1, nonce);
      NoncesAfter(r.auth, At(r, k - 1), r.events[k - 1]);
    }
  }

  lemma AcceptedSteps(r: Run, v: nat, verified: Verified)
    requires v < |r.events| && Accepted(r, v, verified)
    ensures r.events[v].Verify?
  {
  }

  /** With generator outputs that never repeat, each nonce is accepted at most once in a run. */
  lemma AcceptedAtMostOnce(r: Run, v: nat, w: nat, verified: Verified, verified': Verified)
    requires Started(r) && NoncesNeverRepeat(r) && v < w < |r.events|
    requires Accepted(r, v, verified) && Accepted(r, w, verified')
    ensures r.events[v].Verify? && r.events[w].Verify? && r.events[v].nonce != r.events[w].nonce
  {
    hide At;
    hide Built;
    hide Accepted;
    hide ChallengeMessage;
    AcceptedSteps(r, v, verified);
    AcceptedSteps(r, w, verified');
    if r.events[v].nonce == r.events[w].nonce {
      var p := AcceptedEntry(r, v, verified);
      var q := AcceptedEntry(r, w, verified');
      var i := NonceOrigin(r, v, p);
      PendingNoncesDistinct(r, v);
      var before, after := At(r, v).nonces, At(r, v + 1).nonces;
      forall x | x in after ensures x.nonce != p.nonce {
        RemainingNonceDiffers(before, after, p, x);
      }
      NonceStaysGone(r, i, v + 1, w, p.nonce);
    }
  }

  lemma {:induction false} UniqueEntry(pending: seq<Pending>, p: Pending)
    requires DistinctNonces(pending)
    ensures multiset(pending)[p] <= 1
  {
    if pending != [] {
      var front, last := pending[..|pending| - 1], pending[|pending| - 1];
      UniqueEntry(front, p);
      assert pending == front + [last];
      assert last !in front;
    }
  }

  lemma RemainingNonceDiffers(before: seq<Pending>, after: seq<Pending>, p: Pending, x: Pending)
    requires DistinctNonces(before) && multiset(after) + multiset{p} == multiset(before) && x in after
    ensures x.nonce != p.nonce
  {
    assert x in multiset(before) && p in multiset(before);
    UniqueEntry(before, p);
    assert multiset(after)[p] + 1 == multiset(before)[p];
  }

  /** Two different confirm calls that reach a child go back to two different accepted submissions, and to two
      different nonces if the generator never repeats. */
  lemma ConfirmCallsUseDistinctNonces(r: Run, j: nat, applyJ: nat, v: nat, k: nat, applyK: nat, w: nat)
    requires Started(r) && j < k < |r.events| && ConfirmCall(r, j) && ConfirmCall(r, k)
    requires ConfirmedFrom(r, j, applyJ, v) && ConfirmedFrom(r, k, applyK, w)
    ensures v != w
    ensures NoncesNeverRepeat(r) ==> r.events[v].nonce != r.events[w].nonce
  {
    ApprovalsAreNotShared(r, j, k);
    hide At;
    hide ConfirmCall;
    hide Accepted;
    hide Built;
    var (s1, t1) := SplitOnce(r.events[j].name).value;
    var (s2, t2) := SplitOnce(r.events[k].name).value;
    if v != w && NoncesNeverRepeat(r) {
      if v < w {
        AcceptedAtMostOnce(r, v, w, ActionVerified(s1, t1), ActionVerified(s2, t2));
      } else {
        AcceptedAtMostOnce(r, w, v, ActionVerified(s2, t2), ActionVerified(s1, t1));
      }
    }
  }
}
