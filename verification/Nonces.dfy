/** Single-use nonces and the verification of the signed assertions that consume them. */
module Nonces {
  import opened Base
  import opened Hex
  import opened Challenge
  import opened Policy

  const NONCE_TTL_SECS: u64 := 60
  const MAX_PENDING_NONCES: nat := 1024
  const SIGNATURE_LENGTH: nat := 64

  /** A registered verifying key, by identity. */
  type Key = nat

  /** The registered client keys, and the signature check as an uninterpreted predicate. */
  datatype Authority = Authority(registry: map<string, Key>, verify: (Key, string, seq<u8>) -> bool)

  datatype Pending = Pending(nonce: Nonce, client: string, purpose: Purpose, issuedAt: u64) {
    predicate Fresh(now: u64) {
      SatSub(now, issuedAt) <= NONCE_TTL_SECS
    }
  }

  datatype Verified = ElevationVerified(server: string, elevation: Elevation)
                    | ActionVerified(server: string, tool: string)

  datatype ElevationError = Rng | UnknownOrUsedNonce | TooManyPending | NonceExpired | UnknownClient | Malformed
                          | BadSignature

  function FreshAt(now: u64): Pending -> bool {
    (p: Pending) => p.Fresh(now)
  }

  function StaleAt(now: u64): Pending -> bool {
    (p: Pending) => !p.Fresh(now)
  }

  function Matches(nonce: Nonce, client: string): Pending -> bool {
    (p: Pending) => p.nonce == nonce && p.client == client
  }

  /** What a purpose becomes once its signature has been verified at `now`. */
  function Outcome(purpose: Purpose, now: u64): Verified {
    match purpose
    case Elevate(server, TimeBoxed(ttl)) => ElevationVerified(server, ForDuration(now, ttl))
    case Elevate(server, OpenEnded) => ElevationVerified(server, UntilRevokedFrom(now))
    case ConfirmAction(server, tool) => ActionVerified(server, tool)
  }

  /** The checks made on an entry after it has been taken out of the store. */
  function Judge(auth: Authority, p: Pending, client: string, signature: seq<u8>, now: u64)
    : Result<Verified, ElevationError>
  {
    if !p.Fresh(now) then Err(NonceExpired)
    else if client !in auth.registry then Err(UnknownClient)
    else if |signature| != SIGNATURE_LENGTH then Err(Malformed)
    else if !auth.verify(auth.registry[client], ChallengeMessage(p.nonce, client, p.purpose), signature) then
      Err(BadSignature)
    else Ok(Outcome(p.purpose, now))
  }

  /** `NonceStore::issue` on the vector of pending entries; `rng` is what the generator yields. */
  function AfterIssue(pending: seq<Pending>, client: string, purpose: Purpose, now: u64, rng: Option<Nonce>)
    : (seq<Pending>, Result<Nonce, ElevationError>)
  {
    var kept := Retain(pending, FreshAt(now));
    if |kept| >= MAX_PENDING_NONCES then (kept, Err(TooManyPending))
    else if rng.None? then (kept, Err(Rng))
    else (kept + [Pending(rng.value, client, purpose, now)], Ok(rng.value))
  }

  /** `NonceStore::verify_and_consume` on the vector of pending entries. */
  function AfterAttempt(auth: Authority, pending: seq<Pending>, client: string, nonce: Nonce,
                            signature: seq<u8>, now: u64): (seq<Pending>, Result<Verified, ElevationError>)
  {
    var i := Position(pending, Matches(nonce, client));
    if i == |pending| then (pending, Err(UnknownOrUsedNonce))
    else (SwapRemove(pending, i), Judge(auth, pending[i], client, signature, now))
  }

  class NonceStore {
    var pending: seq<Pending>

    constructor ()
      ensures pending == []
    {
      pending := [];
    }

    method Prune(now: u64)
      modifies this
      ensures InOrder(pending, old(pending))
      ensures forall p :: multiset(pending)[p] == if now <= p.issuedAt + 60 then multiset(old(pending))[p]
              else 0
      ensures pending == Retain(old(pending), FreshAt(now))
    {
      RetainInOrder(pending, FreshAt(now));
      forall p ensures multiset(Retain(pending, FreshAt(now)))[p] == if FreshAt(now)(p) then multiset(pending)[p]
        else 0 {
        RetainCounts(pending, FreshAt(now), p);
      }
      pending := Retain(pending, FreshAt(now));
    }

    method Issue(client: string, purpose: Purpose, now: u64, rng: Option<Nonce>)
      returns (r: Result<Nonce, ElevationError>)
      modifies this
      ensures (pending, r) == AfterIssue(old(pending), client, purpose, now, rng)
    {
      Prune(now);
      if |pending| >= MAX_PENDING_NONCES {
        return Err(TooManyPending);
      }
      if rng.None? {
        return Err(Rng);
      }
      pending := pending + [Pending(rng.value, client, purpose, now)];
      return Ok(rng.value);
    }

    method VerifyAndConsume(auth: Authority, client: string, nonce: Nonce, signature: seq<u8>, now: u64)
      returns (r: Result<Verified, ElevationError>)
      modifies this
      ensures (pending, r) == AfterAttempt(auth, old(pending), client, nonce, signature, now)
    {
      var position := Position(pending, Matches(nonce, client));
      if position == |pending| {
        return Err(UnknownOrUsedNonce);
      }
      var entry := pending[position];
      pending := SwapRemove(pending, position);
      if SatSub(now, entry.issuedAt) > NONCE_TTL_SECS {
        return Err(NonceExpired);
      }
      if client !in auth.registry {
        return Err(UnknownClient);
      }
      if |signature| != SIGNATURE_LENGTH {
        return Err(Malformed);
      }
      var message := ChallengeMessage(nonce, client, entry.purpose);
      if !auth.verify(auth.registry[client], message, signature) {
        return Err(BadSignature);
      }
      match entry.purpose
      case Elevate(server, mode) =>
        var elevation := match mode
          case TimeBoxed(ttl) => ForDuration(now, ttl)
          case OpenEnded => UntilRevokedFrom(now);
        return Ok(ElevationVerified(server, elevation));
      case ConfirmAction(server, tool) =>
        return Ok(ActionVerified(server, tool));
    }
  }
}
