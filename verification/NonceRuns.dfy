/** The nonce store inside a run: its laws hold of every interleaving of the handlers, and a submission is accepted
    exactly when nothing came between it and its issue. */
module NonceRuns {
  import opened Base
  import opened Hex
  import opened Challenge
  import opened Nonces
  import opened NonceLaws
  import opened Runs
  import opened WriteAuthority
  import opened Confirmations

  // ----- The store of a run is the store of its projection -----

  /** Step `v` is a submission by a thread that has none in flight: it reaches the nonce store. */
  predicate Submits(r: Run, v: nat)
    requires v < |r.events|
  {
    r.events[v].Verify? && r.events[v].tid !in At(r, v).inflight
  }

  /** What a step asks of the nonce store, if anything. */
  function OpOf(r: Run, k: nat): seq<Op>
    requires k < |r.events|
  {
    match r.events[k]
    case Issue(client, purpose, now, rng) => [IssueOp(client, purpose, now, rng)]
    case Verify(_, client, nonce, signature, now) => if Submits(r, k) then [SubmitOp(client, nonce, signature, now)]
      else []
    case _ => []
  }

  function StoreOps(r: Run, k: nat): seq<Op>
    requires k <= |r.events|
  {
    if k == 0 then [] else StoreOps(r, k - 1) + OpOf(r, k - 1)
  }

  lemma {:induction false} StoreOfPrefix(auth: Authority, ops: seq<Op>, more: seq<Op>, k: nat)
    requires k <= |ops|
    ensures StoreAt(auth, ops + more, k) == StoreAt(auth, ops, k)
  {
    hide NonceLaws.Step;
    if k > 0 {
      StoreOfPrefix(auth, ops, more, k - 1);
    }
  }

  lemma NoncesAfterOp(r: Run, k: nat)
    requires k < |r.events|
    ensures At(r, k + 1).nonces ==
            if OpOf(r, k) == [] then At(r, k).nonces else NonceLaws.Step(r.auth, At(r, k).nonces, OpOf(r, k)[0]).0
    ensures |OpOf(r, k)| <= 1
  {
    hide Next;
    hide AfterIssue;
    hide AfterAttempt;
    NoncesAfter(r.auth, At(r, k), r.events[k]);
  }

  /** The store of a run, at any point, is what its issues and submissions alone make of an empty store. */
  lemma {:induction false} StoreIsProjection(r: Run, k: nat)
    requires Started(r) && k <= |r.events|
    ensures At(r, k).nonces == StoreAt(r.auth, StoreOps(r, k), |StoreOps(r, k)|)
  {
    hide At;
    hide OpOf;
    hide NonceLaws.Step;
    hide Started;
    if k == 0 {
      StartsWithoutNonces(r);
    } else {
      StoreIsProjection(r, k - 1);
      NoncesAfterOp(r, k - 1);
      var ops, op := StoreOps(r, k - 1), OpOf(r, k - 1);
      StoreOfPrefix(r.auth, ops, op, |ops|);
    }
  }

  lemma StartsWithoutNonces(r: Run)
    requires Started(r)
    ensures At(r, 0).nonces == []
  {
  }

  /** In every interleaved run: issued = pending + consumed by an attempt + pruned, as multisets, and never more than
      1024 are pending. */
  lemma RunNoncesConserved(r: Run, k: nat)
    requires Started(r) && k <= |r.events|
    ensures var ops := StoreOps(r, k);
            IssuedBy(r.auth, ops, |ops|) ==
              multiset(At(r, k).nonces) + ConsumedBy(r.auth, ops, |ops|) + PrunedBy(r.auth, ops, |ops|)
    ensures |At(r, k).nonces| <= 1024
  {
    hide At;
    hide IssuedBy;
    hide ConsumedBy;
    hide PrunedBy;
    hide StoreAt;
    hide StoreOps;
    hide Started;
    StoreIsProjection(r, k);
    var ops := StoreOps(r, k);
    NoncesConserved(r.auth, ops, |ops|);
    StoreBounded(r.auth, ops, |ops|);
  }

  /** Every operation is some step's. */
  lemma {:induction false} OpOrigin(r: Run, k: nat, j: nat) returns (m: nat)
    requires k <= |r.events| && j < |StoreOps(r, k)|
    ensures m < k && OpOf(r, m) == [StoreOps(r, k)[j]]
  {
    hide At;
    hide OpOf;
    NoncesAfterOp(r, k - 1);
    if j < |StoreOps(r, k - 1)| {
      m := OpOrigin(r, k - 1, j);
    } else {
      m := k - 1;
    }
  }

  lemma {:induction false} OpOrder(r: Run, k: nat, i: nat, j: nat) returns (m: nat, n: nat)
    requires k <= |r.events| && i < j < |StoreOps(r, k)|
    ensures m < n < k && OpOf(r, m) == [StoreOps(r, k)[i]] && OpOf(r, n) == [StoreOps(r, k)[j]]
  {
    hide At;
    hide OpOf;
    NoncesAfterOp(r, k - 1);
    if j < |StoreOps(r, k - 1)| {
      m, n := OpOrder(r, k - 1, i, j);
    } else {
      m := OpOrigin(r, k - 1, i);
      n := k - 1;
    }
  }

  /** The readings of the steps that reach the store never go back. */
  ghost predicate StoreReadingsOrdered(r: Run) {
    forall m, n :: 0 <= m < n < |r.events| && OpOf(r, m) != [] && OpOf(r, n) != [] ==>
      OpOf(r, m)[0].now <= OpOf(r, n)[0].now
  }

  lemma OpsWellBehaved(r: Run, k: nat)
    requires k <= |r.events| && Confirmations.NoncesNeverRepeat(r) && StoreReadingsOrdered(r)
    ensures NonceLaws.NoncesNeverRepeat(StoreOps(r, k)) && NonceLaws.ReadingsOrdered(StoreOps(r, k))
  {
    hide StoreOps;
    hide Submits;
    var ops := StoreOps(r, k);
    forall i, j | 0 <= i < j < |ops|
      ensures ops[i].now <= ops[j].now
      ensures ops[i].IssueOp? && ops[j].IssueOp? && ops[i].rng.Some? ==> ops[i].rng != ops[j].rng
    {
      var m, n := OpOrder(r, k, i, j);
      assert OpOf(r, m)[0] == ops[i] && OpOf(r, n)[0] == ops[j];
    }
  }

  /** In every run with a generator that never repeats and store readings in lock order, a submission is judged as by
      a map that never prunes, except that a nonce which had outlived its 60 seconds when some later nonce was asked
      for, and no other, is reported unknown instead of expired. */
  lemma RunStoreRefinesMap(r: Run, v: nat)
    requires Started(r) && Confirmations.NoncesNeverRepeat(r) && StoreReadingsOrdered(r) && v < |r.events|
             && Submits(r, v)
    ensures var e, ops := r.events[v], StoreOps(r, v);
            var m := MapAt(r.auth, ops, |ops|);
            var storeReply := AfterAttempt(r.auth, At(r, v).nonces, e.client, e.nonce, e.signature, e.now).1;
            var mapReply := MapStep(r.auth, m, SubmitOp(e.client, e.nonce, e.signature, e.now)).1;
            && (Judged(storeReply) != mapReply ==>
                mapReply == Judged(Err(NonceExpired)) && storeReply == Err(UnknownOrUsedNonce))
            && (Judged(storeReply) != mapReply <==>
                  e.nonce in m && m[e.nonce].client == e.client && Outlived(ops, |ops|, m[e.nonce]))
  {
    hide At;
    hide StoreAt;
    hide MapAt;
    hide AfterAttempt;
    hide MapStep;
    hide Outlived;
    hide Started;
    hide StoreReadingsOrdered;
    hide Confirmations.NoncesNeverRepeat;
    hide NonceLaws.NoncesNeverRepeat;
    hide NonceLaws.ReadingsOrdered;
    var e, ops := r.events[v], StoreOps(r, v);
    var op := SubmitOp(e.client, e.nonce, e.signature, e.now);
    assert StoreOps(r, v + 1) == ops + [op];
    OpsWellBehaved(r, v + 1);
    StoreIsProjection(r, v);
    NextReplyRefinesMap(r.auth, ops, op);
  }

  /** The refinement, for one more attempt after some operations. */
  lemma NextReplyRefinesMap(auth: Authority, ops: seq<Op>, op: Op)
    requires op.SubmitOp? && NonceLaws.NoncesNeverRepeat(ops + [op]) && NonceLaws.ReadingsOrdered(ops + [op])
    ensures var m := MapAt(auth, ops, |ops|);
            var storeReply := AfterAttempt(auth, StoreAt(auth, ops, |ops|), op.client, op.nonce, op.signature,
                                           op.now).1;
            var mapReply := MapStep(auth, m, op).1;
            && (Judged(storeReply) != mapReply ==>
                mapReply == Judged(Err(NonceExpired)) && storeReply == Err(UnknownOrUsedNonce))
            && (Judged(storeReply) != mapReply <==>
                  op.nonce in m && m[op.nonce].client == op.client && Outlived(ops, |ops|, m[op.nonce]))
  {
    hide StoreAt;
    hide MapAt;
    hide AfterAttempt;
    hide MapStep;
    hide Outlived;
    hide NonceLaws.NoncesNeverRepeat;
    hide NonceLaws.ReadingsOrdered;
    StoreRefinesMap(auth, ops + [op], |ops|);
    StoreOfPrefix(auth, ops, [op], |ops|);
    MapOfPrefix(auth, ops, [op], |ops|);
    var m := MapAt(auth, ops, |ops|);
    if op.nonce in m {
      OutlivedInPrefix(ops, [op], m[op.nonce]);
    }
  }

  lemma {:induction false} MapOfPrefix(auth: Authority, ops: seq<Op>, more: seq<Op>, k: nat)
    requires k <= |ops|
    ensures MapAt(auth, ops + more, k) == MapAt(auth, ops, k)
  {
    hide MapStep;
    if k > 0 {
      MapOfPrefix(auth, ops, more, k - 1);
    }
  }

  lemma OutlivedInPrefix(ops: seq<Op>, more: seq<Op>, p: Pending)
    ensures Outlived(ops + more, |ops|, p) <==> Outlived(ops, |ops|, p)
  {
    if i :| 0 <= i < |ops| && ops[i].IssueOp? && !p.Fresh(ops[i].now) {
      assert (ops + more)[i] == ops[i];
    }
  }

  // ----- From issue to submission -----

  /** Step `i` issues this entry. */
  ghost predicate IssuedAt(r: Run, i: nat, p: Pending)
    requires i < |r.events|
  {
    && r.events[i] == Issue(p.client, p.purpose, p.issuedAt, Some(p.nonce))
    && AfterIssue(At(r, i).nonces, p.client, p.purpose, p.issuedAt, Some(p.nonce)).1 == Ok(p.nonce)
  }

  /** Step `m` takes the entry out of the store: a submission of its nonce by its client, whatever the verdict, or an
      issue, refused or not, whose reading is more than 60 seconds after the entry's. */
  predicate Disturbs(r: Run, m: nat, p: Pending)
    requires m < |r.events|
  {
    var e := r.events[m];
    || (Submits(r, m) && e.nonce == p.nonce && e.client == p.client)
    || (e.Issue? && e.now > p.issuedAt + 60)
  }

  /** Among distinct entries, an attempt removes exactly the one with its nonce and client. */
  lemma AttemptRemoves(auth: Authority, pending: seq<Pending>, client: string, nonce: Nonce, signature: seq<u8>,
                       now: u64, p: Pending)
    requires DistinctNonces(pending)
    ensures p in AfterAttempt(auth, pending, client, nonce, signature, now).0 <==>
            p in pending && !(p.nonce == nonce && p.client == client)
  {
    hide Judge;
    var i := Position(pending, Matches(nonce, client));
    if i < |pending| {
      RemovalKeepsDistinct(pending, i);
      if p in pending && p.nonce == pending[i].nonce {
        var j :| 0 <= j < |pending| && pending[j] == p;
        assert j == i;
      }
    } else if p in pending {
      assert !Matches(nonce, client)(p);
    }
  }

  /** An issue removes exactly the entries that are too old, and adds its own. */
  lemma IssueRemoves(pending: seq<Pending>, client: string, purpose: Purpose, now: u64, rng: Option<Nonce>, p: Pending)
    requires rng != Some(p.nonce)
    ensures p in AfterIssue(pending, client, purpose, now, rng).0 <==>
            p in pending && now <= p.issuedAt + NONCE_TTL_SECS
  {
  }

  lemma DisturbsOneStep(r: Run, i: nat, m: nat, p: Pending)
    requires Started(r) && Confirmations.NoncesNeverRepeat(r) && i < m < |r.events| && IssuedAt(r, i, p)
    ensures p in At(r, m + 1).nonces <==> p in At(r, m).nonces && !Disturbs(r, m, p)
  {
    hide Next;
    hide AfterIssue;
    hide AfterAttempt;
    hide DistinctNonces;
    hide Started;
    var s, e := At(r, m), r.events[m];
    NoncesAfter(r.auth, s, e);
    PendingNoncesDistinct(r, m);
    if e.Issue? {
      IssueRemoves(s.nonces, e.client, e.purpose, e.now, e.rng, p);
    } else if e.Verify? {
      AttemptRemoves(r.auth, s.nonces, e.client, e.nonce, e.signature, e.now, p);
    }
  }

  lemma IssuedIsPending(r: Run, i: nat, p: Pending)
    requires i < |r.events| && IssuedAt(r, i, p)
    ensures p in At(r, i + 1).nonces
  {
    hide Next;
    NoncesAfter(r.auth, At(r, i), r.events[i]);
  }

  /** An issued entry is still pending exactly when no step since has disturbed it. */
  lemma {:induction false} PendingWhileUndisturbed(r: Run, i: nat, k: nat, p: Pending)
    requires Started(r) && Confirmations.NoncesNeverRepeat(r) && i < k <= |r.events| && IssuedAt(r, i, p)
    ensures p in At(r, k).nonces <==> forall m :: i < m < k ==> !Disturbs(r, m, p)
  {
    hide At;
    hide Disturbs;
    hide IssuedAt;
    hide Started;
    hide Confirmations.NoncesNeverRepeat;
    if k == i + 1 {
      IssuedIsPending(r, i, p);
    } else {
      PendingWhileUndisturbed(r, i, k - 1, p);
      DisturbsOneStep(r, i, k - 1, p);
    }
  }

  /** No other entry carries the nonce. */
  lemma OnlyEntryOfNonce(r: Run, i: nat, k: nat, p: Pending, q: Pending)
    requires Started(r) && Confirmations.NoncesNeverRepeat(r) && i < |r.events| && k <= |r.events| && IssuedAt(r, i, p)
    requires q in At(r, k).nonces && q.nonce == p.nonce
    ensures q == p
  {
    hide At;
    hide AfterIssue;
    hide Started;
    var j := NonceOrigin(r, k, q);
    assert i == j;
  }

  lemma JudgedFromStore(auth: Authority, pending: seq<Pending>, client: string, nonce: Nonce, signature: seq<u8>,
                        now: u64, p: Pending)
    requires p.nonce == nonce && p.client == client && forall q :: q in pending && q.nonce == nonce ==> q == p
    ensures AfterAttempt(auth, pending, client, nonce, signature, now).1 ==
            if p in pending then Judge(auth, p, client, signature, now) else Err(UnknownOrUsedNonce)
  {
    hide Judge;
    var i := Position(pending, Matches(nonce, client));
    if p in pending {
      var j :| 0 <= j < |pending| && pending[j] == p;
      assert Matches(nonce, client)(pending[j]);
    }
  }

  /** In every run with a generator that never repeats, and with readings in any order: a submission of an issued nonce
      by its client is accepted, for the purpose the nonce was issued for, exactly when it is read at most 60 seconds
      after the issue, the client is registered, the signature has its length and verifies for this very challenge,
      and no step between issue and submission disturbed the nonce: no other submission of it and no issue read more
      than 60 seconds after it. */
  lemma SubmissionAcceptedExactlyWhen(r: Run, i: nat, v: nat, p: Pending)
    requires Started(r) && Confirmations.NoncesNeverRepeat(r) && i < v < |r.events| && IssuedAt(r, i, p)
    requires Submits(r, v) && r.events[v].nonce == p.nonce && r.events[v].client == p.client
    ensures var e := r.events[v];
            Accepted(r, v, Nonces.Outcome(p.purpose, e.now)) <==>
            && e.now <= p.issuedAt + 60
            && p.client in r.auth.registry && |e.signature| == 64
            && r.auth.verify(r.auth.registry[p.client], ChallengeMessage(p.nonce, p.client, p.purpose), e.signature)
            && forall m :: i < m < v ==> !Disturbs(r, m, p)
  {
    hide At;
    hide AfterAttempt;
    hide AfterIssue;
    hide ChallengeMessage;
    hide Disturbs;
    hide Started;
    var e, pending := r.events[v], At(r, v).nonces;
    PendingWhileUndisturbed(r, i, v, p);
    forall q | q in pending && q.nonce == e.nonce ensures q == p {
      OnlyEntryOfNonce(r, i, v, p, q);
    }
    JudgedFromStore(r.auth, pending, e.client, e.nonce, e.signature, e.now, p);
  }
}
