/** Laws of the nonce store over whole runs: nonces are conserved and bounded, and the pruned vector behaves
    like a map that never prunes. */
module NonceLaws {
  import opened Base
  import opened Hex
  import opened Challenge
  import opened Policy
  import opened Nonces

  datatype Op = IssueOp(client: string, purpose: Purpose, now: u64, rng: Option<Nonce>)
              | SubmitOp(client: string, nonce: Nonce, signature: seq<u8>, now: u64)

  datatype Reply = Issued(nonce: Result<Nonce, ElevationError>) | Judged(verdict: Result<Verified, ElevationError>)

  function Step(auth: Authority, pending: seq<Pending>, op: Op): (seq<Pending>, Reply) {
    match op
    case IssueOp(client, purpose, now, rng) =>
      var (rest, r) := AfterIssue(pending, client, purpose, now, rng);
      (rest, Issued(r))
    case SubmitOp(client, nonce, signature, now) =>
      var (rest, r) := AfterAttempt(auth, pending, client, nonce, signature, now);
      (rest, Judged(r))
  }

  /** The store's vector after the first `k` operations on an empty store. */
  function StoreAt(auth: Authority, ops: seq<Op>, k: nat): seq<Pending>
    requires k <= |ops|
  {
    if k == 0 then [] else Step(auth, StoreAt(auth, ops, k - 1), ops[k - 1]).0
  }

  // ----- Conservation -----

  function IssuedIn(pending: seq<Pending>, op: Op): multiset<Pending> {
    match op
    case IssueOp(client, purpose, now, rng) =>
      (match AfterIssue(pending, client, purpose, now, rng).1
       case Ok(nonce) => multiset{Pending(nonce, client, purpose, now)}
       case Err(_) => multiset{})
    case SubmitOp(_, _, _, _) => multiset{}
  }

  /** The entry an attempt takes out of the store: the one with its nonce and client, whatever the verdict. */
  function ConsumedIn(pending: seq<Pending>, op: Op): multiset<Pending> {
    match op
    case IssueOp(_, _, _, _) => multiset{}
    case SubmitOp(client, nonce, _, _) =>
      var i := Position(pending, Matches(nonce, client));
      if i == |pending| then multiset{} else multiset{pending[i]}
  }

  /** The entries already too old when an `issue` runs. */
  function PrunedIn(pending: seq<Pending>, op: Op): multiset<Pending> {
    if op.IssueOp? then multiset(Retain(pending, StaleAt(op.now))) else multiset{}
  }

  function IssuedBy(auth: Authority, ops: seq<Op>, k: nat): multiset<Pending>
    requires k <= |ops|
  {
    if k == 0 then multiset{} else IssuedBy(auth, ops, k - 1) + IssuedIn(StoreAt(auth, ops, k - 1), ops[k - 1])
  }

  function ConsumedBy(auth: Authority, ops: seq<Op>, k: nat): multiset<Pending>
    requires k <= |ops|
  {
    if k == 0 then multiset{} else ConsumedBy(auth, ops, k - 1) + ConsumedIn(StoreAt(auth, ops, k - 1), ops[k - 1])
  }

  function PrunedBy(auth: Authority, ops: seq<Op>, k: nat): multiset<Pending>
    requires k <= |ops|
  {
    if k == 0 then multiset{} else PrunedBy(auth, ops, k - 1) + PrunedIn(StoreAt(auth, ops, k - 1), ops[k - 1])
  }

  lemma FreshAndStaleSplit(pending: seq<Pending>, now: u64)
    ensures multiset(pending) == multiset(Retain(pending, FreshAt(now))) + multiset(Retain(pending, StaleAt(now)))
  {
    forall p ensures multiset(pending)[p] ==
      (multiset(Retain(pending, FreshAt(now))) + multiset(Retain(pending, StaleAt(now))))[p] {
      RetainCounts(pending, FreshAt(now), p);
      RetainCounts(pending, StaleAt(now), p);
    }
  }

  lemma IssueConserves(pending: seq<Pending>, op: Op)
    requires op.IssueOp?
    ensures multiset(pending) + IssuedIn(pending, op) ==
            multiset(AfterIssue(pending, op.client, op.purpose, op.now, op.rng).0) + PrunedIn(pending, op)
  {
    FreshAndStaleSplit(pending, op.now);
  }

  lemma StepConserves(auth: Authority, pending: seq<Pending>, op: Op)
    ensures multiset(pending) + IssuedIn(pending, op) ==
            multiset(Step(auth, pending, op).0) + ConsumedIn(pending, op) + PrunedIn(pending, op)
  {
    if op.IssueOp? {
      IssueConserves(pending, op);
    } else {
      var i := Position(pending, Matches(op.nonce, op.client));
      if i < |pending| { SwapRemoveMultiset(pending, i); }
    }
  }

  datatype Ledger = Ledger(issued: multiset<Pending>, pending: multiset<Pending>, consumed: multiset<Pending>,
                           pruned: multiset<Pending>)
  {
    ghost predicate Balanced() {
      issued == pending + consumed + pruned
    }
  }

  /** Adding a balanced change to a balanced ledger leaves it balanced. */
  lemma Rebalance(before: Ledger, after: Ledger, issued: multiset<Pending>, consumed: multiset<Pending>,
                  pruned: multiset<Pending>)
    requires before.Balanced()
    requires before.pending + issued == after.pending + consumed + pruned
    requires after.issued == before.issued + issued
    requires after.consumed == before.consumed + consumed && after.pruned == before.pruned + pruned
    ensures after.Balanced()
  {
    forall x ensures after.issued[x] == (after.pending + after.consumed + after.pruned)[x] {
      assert before.issued[x] == (before.pending + before.consumed + before.pruned)[x];
      assert (before.pending + issued)[x] == (after.pending + consumed + pruned)[x];
    }
  }

  ghost function LedgerAt(auth: Authority, ops: seq<Op>, k: nat): Ledger
    requires k <= |ops|
  {
    Ledger(IssuedBy(auth, ops, k), multiset(StoreAt(auth, ops, k)), ConsumedBy(auth, ops, k), PrunedBy(auth, ops, k))
  }

  lemma LedgerStep(auth: Authority, ops: seq<Op>, k: nat)
    requires 0 < k <= |ops| && LedgerAt(auth, ops, k - 1).Balanced()
    ensures LedgerAt(auth, ops, k).Balanced()
  {
    var before, op := StoreAt(auth, ops, k - 1), ops[k - 1];
    StepConserves(auth, before, op);
    Rebalance(LedgerAt(auth, ops, k - 1), LedgerAt(auth, ops, k), IssuedIn(before, op), ConsumedIn(before, op),
              PrunedIn(before, op));
  }

  lemma EmptyLedgerBalanced(auth: Authority, ops: seq<Op>)
    ensures LedgerAt(auth, ops, 0).Balanced()
  {
  }

  /** In every run, with any readings: every nonce ever issued is pending, was taken by an attempt, or was
      pruned, and is so exactly once. */
  lemma {:induction false} NoncesConserved(auth: Authority, ops: seq<Op>, k: nat)
    requires k <= |ops|
    ensures LedgerAt(auth, ops, k).Balanced()
  {
    hide *;
    if k == 0 {
      EmptyLedgerBalanced(auth, ops);
    } else {
      NoncesConserved(auth, ops, k - 1);
      LedgerStep(auth, ops, k);
    }
  }

  lemma StepBounded(auth: Authority, pending: seq<Pending>, op: Op)
    requires |pending| <= MAX_PENDING_NONCES
    ensures |Step(auth, pending, op).0| <= MAX_PENDING_NONCES
  {
    hide Judge;
  }

  /** The store never holds more than the cap, in any run with any readings. */
  lemma {:induction false} StoreBounded(auth: Authority, ops: seq<Op>, k: nat)
    requires k <= |ops|
    ensures |StoreAt(auth, ops, k)| <= 1024
  {
    hide Step;
    if k > 0 {
      StoreBounded(auth, ops, k - 1);
      StepBounded(auth, StoreAt(auth, ops, k - 1), ops[k - 1]);
    }
  }

  lemma StaleRest(all: multiset<Pending>, kept: multiset<Pending>, gone: multiset<Pending>)
    requires all == kept + gone
    ensures kept == all - gone
  {
  }

  /** An issue is refused for lack of room exactly when at least 1024 entries are still fresh (stale ones
      never count), and a refusal of either kind only prunes. */
  lemma IssueRefusal(pending: seq<Pending>, client: string, purpose: Purpose, now: u64, rng: Option<Nonce>)
    ensures var (rest, r) := AfterIssue(pending, client, purpose, now, rng);
            && (r == Err(TooManyPending) <==> |Retain(pending, FreshAt(now))| >= 1024)
            && (r == Err(Rng) <==> |Retain(pending, FreshAt(now))| < 1024 && rng == None)
            && (forall n :: r == Ok(n) <==> |Retain(pending, FreshAt(now))| < 1024 && rng == Some(n))
            && (r.Ok? ==> multiset(rest) == multiset(pending) - multiset(Retain(pending, StaleAt(now)))
                                            + multiset{Pending(r.value, client, purpose, now)})
            && (r.Err? ==> multiset(rest) == multiset(pending) - multiset(Retain(pending, StaleAt(now))))
            && (forall p :: p in rest ==> now <= p.issuedAt + 60)
  {
    hide Retain;
    FreshAndStaleSplit(pending, now);
    StaleRest(multiset(pending), multiset(Retain(pending, FreshAt(now))), multiset(Retain(pending, StaleAt(now))));
  }

  /** An attempt takes out exactly one entry when some entry has its nonce and client, and otherwise changes
      nothing; it is the verdict's input either way that the entry carries that nonce and client. */
  lemma AttemptTakesOne(auth: Authority, pending: seq<Pending>, client: string, nonce: Nonce, signature: seq<u8>,
                        now: u64)
    ensures var (rest, r) := AfterAttempt(auth, pending, client, nonce, signature, now);
            if exists p :: p in pending && p.nonce == nonce && p.client == client then
              exists p :: p in pending && p.nonce == nonce && p.client == client
                          && multiset(rest) + multiset{p} == multiset(pending)
                          && r == Judge(auth, p, client, signature, now)
            else rest == pending && r == Err(UnknownOrUsedNonce)
  {
    var i := Position(pending, Matches(nonce, client));
    if i < |pending| { SwapRemoveMultiset(pending, i); }
  }

  /** The verdict on the one entry with the attempt's nonce and client, in the order of the checks: age, client,
      signature length, signature; and what an accepted purpose turns into. */
  lemma AttemptVerdict(auth: Authority, pending: seq<Pending>, client: string, nonce: Nonce, signature: seq<u8>,
                       now: u64,
                       p: Pending)
    requires p in pending && p.nonce == nonce && p.client == client
    requires forall q :: q in pending && q.nonce == nonce && q.client == client ==> q == p
    ensures var r := AfterAttempt(auth, pending, client, nonce, signature, now).1;
            var timely, known, sized := now <= p.issuedAt + 60, client in auth.registry, |signature| == 64;
            var signed := known && auth.verify(auth.registry[client], ChallengeMessage(nonce, client, p.purpose),
                                               signature);
            && (r == Err(NonceExpired) <==> !timely)
            && (r == Err(UnknownClient) <==> timely && !known)
            && (r == Err(Malformed) <==> timely && known && !sized)
            && (r == Err(BadSignature) <==> timely && known && sized && !signed)
            && (r.Ok? <==> timely && sized && signed)
            && (r.Ok? ==> r.value == match p.purpose
                          case Elevate(server, TimeBoxed(ttl)) =>
                            ElevationVerified(server,
                                              Elevation(now, Some(if now + ttl <= U64_MAX then now + ttl else U64_MAX)))
                          case Elevate(server, OpenEnded) => ElevationVerified(server, Elevation(now, None))
                          case ConfirmAction(server, tool) => ActionVerified(server, tool))
  {
    hide ChallengeMessage;
    var i := Position(pending, Matches(nonce, client));
    var j :| 0 <= j < |pending| && pending[j] == p;
    assert Matches(nonce, client)(pending[j]);
    assert pending[i] in pending;
  }

  // ----- Refinement of a map that never prunes -----

  /** The reference store: entries by nonce, removed only by an attempt on them. */
  function MapStep(auth: Authority, m: map<Nonce, Pending>, op: Op): (map<Nonce, Pending>, Reply) {
    match op
    case IssueOp(client, purpose, now, rng) =>
      var live := set n | n in m && m[n].Fresh(now);
      if |live| >= MAX_PENDING_NONCES then (m, Issued(Err(TooManyPending)))
      else if rng.None? then (m, Issued(Err(Rng)))
      else (m[rng.value := Pending(rng.value, client, purpose, now)], Issued(Ok(rng.value)))
    case SubmitOp(client, nonce, signature, now) =>
      if nonce !in m || m[nonce].client != client then (m, Judged(Err(UnknownOrUsedNonce)))
      else (m - {nonce}, Judged(Judge(auth, m[nonce], client, signature, now)))
  }

  function MapAt(auth: Authority, ops: seq<Op>, k: nat): map<Nonce, Pending>
    requires k <= |ops|
  {
    if k == 0 then map[] else MapStep(auth, MapAt(auth, ops, k - 1), ops[k - 1]).0
  }

  /** No nonce comes out of the generator twice. */
  ghost predicate NoncesNeverRepeat(ops: seq<Op>) {
    forall i, j :: 0 <= i < j < |ops| && ops[i].IssueOp? && ops[j].IssueOp? && ops[i].rng.Some? ==>
                     ops[i].rng != ops[j].rng
  }

  ghost predicate ReadingsOrdered(ops: seq<Op>) {
    forall i, j :: 0 <= i < j < |ops| ==> ops[i].now <= ops[j].now
  }

  ghost predicate Drawn(ops: seq<Op>, k: nat, nonce: Nonce)
    requires k <= |ops|
  {
    exists i :: 0 <= i < k && ops[i].IssueOp? && ops[i].rng == Some(nonce)
  }

  ghost predicate DistinctNonces(pending: seq<Pending>) {
    forall i, j :: 0 <= i < j < |pending| ==> pending[i].nonce != pending[j].nonce
  }

  /** The vector holds a part of the map, and what it lacks had already expired by the latest reading. */
  ghost predicate Agree(pending: seq<Pending>, m: map<Nonce, Pending>, latest: u64) {
    && DistinctNonces(pending)
    && (forall p :: p in pending ==> p.nonce in m && m[p.nonce] == p)
    && (forall n :: n in m ==> m[n].nonce == n && (m[n] in pending || !m[n].Fresh(latest)))
  }

  lemma {:induction false} NonceSetSize(pending: seq<Pending>)
    requires DistinctNonces(pending)
    ensures |set p | p in pending :: p.nonce| == |pending|
  {
    if pending != [] {
      var front, last := pending[..|pending| - 1], pending[|pending| - 1];
      NonceSetSize(front);
      assert pending == front + [last];
      assert (set p | p in pending :: p.nonce) == (set p | p in front :: p.nonce) + {last.nonce};
      assert last.nonce !in (set p | p in front :: p.nonce);
    }
  }

  lemma {:induction false} RetainKeepsDistinctNonces(pending: seq<Pending>, now: u64)
    requires DistinctNonces(pending)
    ensures DistinctNonces(Retain(pending, FreshAt(now)))
  {
    if pending != [] {
      var front := pending[..|pending| - 1];
      RetainKeepsDistinctNonces(front, now);
      forall p | p in Retain(front, FreshAt(now)) ensures p.nonce != pending[|pending| - 1].nonce {
        assert p in front;
      }
    }
  }

  /** Both stores count the same fresh entries. */
  lemma SameFreshCount(pending: seq<Pending>, m: map<Nonce, Pending>, latest: u64, now: u64)
    requires Agree(pending, m, latest) && latest <= now
    ensures |set n | n in m && m[n].Fresh(now)| == |Retain(pending, FreshAt(now))|
  {
    var kept := Retain(pending, FreshAt(now));
    RetainKeepsDistinctNonces(pending, now);
    NonceSetSize(kept);
    var live := set n | n in m && m[n].Fresh(now);
    var names := set p | p in kept :: p.nonce;
    forall n | n in live ensures n in names { assert m[n] in kept; }
    assert live == names;
  }

  lemma IssueKeepsAgreement(auth: Authority, pending: seq<Pending>, m: map<Nonce, Pending>, latest: u64, op: Op)
    requires op.IssueOp? && Agree(pending, m, latest) && latest <= op.now
    requires op.rng.Some? ==> op.rng.value !in m
    ensures Agree(Step(auth, pending, op).0, MapStep(auth, m, op).0, op.now)
    ensures Step(auth, pending, op).1 == MapStep(auth, m, op).1
  {
    hide Retain;
    SameFreshCount(pending, m, latest, op.now);
    RetainKeepsDistinctNonces(pending, op.now);
  }

  /** The vector finds an entry for an attempt exactly when the map finds it and it has not been pruned. */
  lemma SameEntryFound(pending: seq<Pending>, m: map<Nonce, Pending>, latest: u64, client: string, nonce: Nonce)
    requires Agree(pending, m, latest)
    ensures var i := Position(pending, Matches(nonce, client));
            if nonce in m && m[nonce].client == client && m[nonce] in pending then
              i < |pending| && pending[i] == m[nonce]
            else i == |pending|
  {
    var i := Position(pending, Matches(nonce, client));
    if i < |pending| {
      assert pending[i] in pending;
    } else {
      forall p | p in pending ensures !(p.nonce == nonce && p.client == client) {
        assert !Matches(nonce, client)(p);
      }
    }
  }

  lemma RemovalKeepsDistinct(pending: seq<Pending>, i: nat)
    requires DistinctNonces(pending) && i < |pending|
    ensures DistinctNonces(SwapRemove(pending, i))
    ensures forall p :: p in SwapRemove(pending, i) <==> p in pending && p.nonce != pending[i].nonce
  {
    SwapRemoveDistinct(pending, i);
  }

  lemma RemovalKeepsAgreement(pending: seq<Pending>, m: map<Nonce, Pending>, latest: u64, now: u64, i: nat)
    requires Agree(pending, m, latest) && latest <= now && i < |pending|
    ensures Agree(SwapRemove(pending, i), m - {pending[i].nonce}, now)
  {
    RemovalKeepsDistinct(pending, i);
    hide DistinctNonces;
    hide SwapRemove;
  }

  lemma SubmitKeepsAgreement(auth: Authority, pending: seq<Pending>, m: map<Nonce, Pending>, latest: u64, op: Op)
    requires op.SubmitOp? && Agree(pending, m, latest) && latest <= op.now
    ensures Agree(Step(auth, pending, op).0, MapStep(auth, m, op).0, op.now)
    ensures Step(auth, pending, op).1 == MapStep(auth, m, op).1
            || (MapStep(auth, m, op).1 == Judged(Err(NonceExpired))
                && Step(auth, pending, op).1 == Judged(Err(UnknownOrUsedNonce)))
    ensures Step(auth, pending, op).1 != MapStep(auth, m, op).1 <==>
            op.nonce in m && m[op.nonce].client == op.client && m[op.nonce] !in pending
  {
    SameEntryFound(pending, m, latest, op.client, op.nonce);
    var i := Position(pending, Matches(op.nonce, op.client));
    if i < |pending| {
      RemovalKeepsAgreement(pending, m, latest, op.now, i);
    }
  }

  ghost function LatestReading(ops: seq<Op>, k: nat): u64
    requires k <= |ops|
  {
    if k == 0 then 0 else ops[k - 1].now
  }

  lemma StepKeepsAgreement(auth: Authority, pending: seq<Pending>, m: map<Nonce, Pending>, latest: u64, op: Op)
    requires Agree(pending, m, latest) && latest <= op.now
    requires op.IssueOp? && op.rng.Some? ==> op.rng.value !in m
    ensures Agree(Step(auth, pending, op).0, MapStep(auth, m, op).0, op.now)
  {
    hide *;
    if op.IssueOp? {
      IssueKeepsAgreement(auth, pending, m, latest, op);
    } else {
      SubmitKeepsAgreement(auth, pending, m, latest, op);
    }
  }

  /** Every nonce of the map was drawn. */
  lemma {:induction false} MapHoldsDrawn(auth: Authority, ops: seq<Op>, k: nat, n: Nonce)
    requires k <= |ops| && n in MapAt(auth, ops, k)
    ensures Drawn(ops, k, n)
  {
    hide Judge;
    if n in MapAt(auth, ops, k - 1) {
      MapHoldsDrawn(auth, ops, k - 1, n);
      var i :| 0 <= i < k - 1 && ops[i].IssueOp? && ops[i].rng == Some(n);
    } else {
      assert ops[k - 1].rng == Some(n);
    }
  }

  lemma DrawIsNew(auth: Authority, ops: seq<Op>, k: nat)
    requires k < |ops| && NoncesNeverRepeat(ops) && ops[k].IssueOp? && ops[k].rng.Some?
    ensures ops[k].rng.value !in MapAt(auth, ops, k)
  {
    hide MapAt;
    if ops[k].rng.value in MapAt(auth, ops, k) {
      MapHoldsDrawn(auth, ops, k, ops[k].rng.value);
    }
  }

  lemma {:induction false} StoresAgree(auth: Authority, ops: seq<Op>, k: nat)
    requires k <= |ops| && NoncesNeverRepeat(ops) && ReadingsOrdered(ops)
    ensures Agree(StoreAt(auth, ops, k), MapAt(auth, ops, k), LatestReading(ops, k))
  {
    hide NoncesNeverRepeat;
    hide MapStep;
    hide Step;
    if k > 0 {
      StoresAgree(auth, ops, k - 1);
      if ops[k - 1].IssueOp? && ops[k - 1].rng.Some? {
        DrawIsNew(auth, ops, k - 1);
      }
      StepKeepsAgreement(auth, StoreAt(auth, ops, k - 1), MapAt(auth, ops, k - 1), LatestReading(ops, k - 1),
                         ops[k - 1]);
    }
  }

  /** Some nonce was asked for, within the first `k` operations, more than 60 seconds after this entry's issue. */
  ghost predicate Outlived(ops: seq<Op>, k: nat, p: Pending)
    requires k <= |ops|
  {
    exists i :: 0 <= i < k && ops[i].IssueOp? && !p.Fresh(ops[i].now)
  }

  lemma OutlivedStep(ops: seq<Op>, k: nat, p: Pending)
    requires 0 < k <= |ops|
    ensures Outlived(ops, k, p) <==> Outlived(ops, k - 1, p) || (ops[k - 1].IssueOp? && !p.Fresh(ops[k - 1].now))
  {
    if Outlived(ops, k - 1, p) {
      var i :| 0 <= i < k - 1 && ops[i].IssueOp? && !p.Fresh(ops[i].now);
    }
  }

  /** An entry issued by the last operation has not been outlived: no reading before was later. */
  lemma JustIssuedIsNotOutlived(ops: seq<Op>, k: nat, p: Pending)
    requires 0 < k <= |ops| && ReadingsOrdered(ops) && p.issuedAt == ops[k - 1].now
    ensures !Outlived(ops, k, p)
  {
  }

  /** One operation removes an entry from the vector, and not from the map, exactly when it is an issue that
      finds the entry stale. */
  lemma RemovedByStep(auth: Authority, pending: seq<Pending>, m: map<Nonce, Pending>, latest: u64, op: Op, n: Nonce)
    requires Agree(pending, m, latest) && n in m && n in MapStep(auth, m, op).0
    requires op.IssueOp? && op.rng.Some? ==> op.rng.value !in m
    ensures MapStep(auth, m, op).0[n] == m[n]
    ensures m[n] in Step(auth, pending, op).0 <==> m[n] in pending && !(op.IssueOp? && !m[n].Fresh(op.now))
  {
    if op.SubmitOp? {
      var i := Position(pending, Matches(op.nonce, op.client));
      SameEntryFound(pending, m, latest, op.client, op.nonce);
      if i < |pending| { SwapRemoveDistinct(pending, i); }
    }
  }

  /** What pruning has cost: with readings in order, an entry of the map is missing from the vector exactly when
      some nonce has since been asked for more than 60 seconds after the entry's issue. */
  lemma {:induction false} PrunedWhenOutlived(auth: Authority, ops: seq<Op>, k: nat, n: Nonce)
    requires k <= |ops| && NoncesNeverRepeat(ops) && ReadingsOrdered(ops) && n in MapAt(auth, ops, k)
    ensures MapAt(auth, ops, k)[n] in StoreAt(auth, ops, k) <==> !Outlived(ops, k, MapAt(auth, ops, k)[n])
  {
    hide Outlived;
    hide Agree;
    hide NoncesNeverRepeat;
    hide MapStep;
    hide Step;
    var pending, m, op := StoreAt(auth, ops, k - 1), MapAt(auth, ops, k - 1), ops[k - 1];
    NextDrawIsNew(auth, ops, k - 1);
    if n in m {
      RemovedByStep(auth, pending, m, LatestReading(ops, k - 1), op, n);
      OutlivedStep(ops, k, m[n]);
      PrunedWhenOutlived(auth, ops, k - 1, n);
    } else {
      IssuedIntoBoth(auth, pending, m, LatestReading(ops, k - 1), op, n);
      JustIssuedIsNotOutlived(ops, k, MapAt(auth, ops, k)[n]);
    }
  }

  lemma NextDrawIsNew(auth: Authority, ops: seq<Op>, k: nat)
    requires k < |ops| && NoncesNeverRepeat(ops) && ReadingsOrdered(ops)
    ensures Agree(StoreAt(auth, ops, k), MapAt(auth, ops, k), LatestReading(ops, k))
            && LatestReading(ops, k) <= ops[k].now
    ensures ops[k].IssueOp? && ops[k].rng.Some? ==> ops[k].rng.value !in MapAt(auth, ops, k)
  {
    hide StoreAt;
    hide MapAt;
    hide Agree;
    StoresAgree(auth, ops, k);
    if ops[k].IssueOp? && ops[k].rng.Some? {
      DrawIsNew(auth, ops, k);
    }
  }

  lemma IssuedIntoBoth(auth: Authority, pending: seq<Pending>, m: map<Nonce, Pending>, latest: u64, op: Op, n: Nonce)
    requires Agree(pending, m, latest) && latest <= op.now && n !in m && n in MapStep(auth, m, op).0
    ensures var p := MapStep(auth, m, op).0[n]; op.IssueOp? && p.issuedAt == op.now && p in Step(auth, pending, op).0
  {
    if op.IssueOp? {
      SameFreshCount(pending, m, latest, op.now);
    }
  }

  /** With generator outputs that never repeat and readings in order, the vector store and the never-pruning
      map give the same replies, issue refusals included, except in one case: an attempt by its own client on a
      nonce that had expired when some later nonce was asked for, and no other, is told the nonce is unknown
      where the map would say it expired. In particular the same attempts succeed, with the same outcome. */
  lemma StoreRefinesMap(auth: Authority, ops: seq<Op>, k: nat)
    requires k < |ops| && NoncesNeverRepeat(ops) && ReadingsOrdered(ops)
    ensures var m := MapAt(auth, ops, k);
            var storeReply, mapReply := Step(auth, StoreAt(auth, ops, k), ops[k]).1, MapStep(auth, m, ops[k]).1;
            && (storeReply != mapReply ==>
                  mapReply == Judged(Err(NonceExpired)) && storeReply == Judged(Err(UnknownOrUsedNonce)))
            && (storeReply != mapReply <==>
                  ops[k].SubmitOp? && ops[k].nonce in m && m[ops[k].nonce].client == ops[k].client
                  && Outlived(ops, k, m[ops[k].nonce]))
  {
    hide Outlived;
    NextDrawIsNew(auth, ops, k);
    var pending, m, op := StoreAt(auth, ops, k), MapAt(auth, ops, k), ops[k];
    if op.IssueOp? {
      IssueKeepsAgreement(auth, pending, m, LatestReading(ops, k), op);
    } else {
      SubmitKeepsAgreement(auth, pending, m, LatestReading(ops, k), op);
      if op.nonce in m {
        PrunedWhenOutlived(auth, ops, k, op.nonce);
      }
    }
  }
}
