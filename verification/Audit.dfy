/** The audit log: security events, kept for recall in a bounded ring. */
module Audit {
  import opened Base

  const RECENT_CAP: nat := 500

  datatype AuditEvent =
    | ElevationGranted(server: string, client: string, mode: string)
    | ElevationRevoked(server: string, reason: string)
    | ConfirmApproved(server: string, tool: string)
    | WriteToolInvoked(server: string, tool: string)
    | ConfirmRejected(server: string, tool: string)
    | ElevationDenied(server: string, client: string, reason: string)

  /** The last `n` elements, or all of them if there are fewer. */
  function Last<T>(s: seq<T>, n: nat): seq<T> {
    if |s| <= n then s else s[|s| - n..]
  }

  function Least(a: nat, b: nat): nat {
    if a < b then a else b
  }

  class AuditLog {
    /** Everything ever recorded, oldest first. */
    ghost var history: seq<AuditEvent>
    var ring: seq<AuditEvent>

    /** The ring is the newest part of the history. */
    ghost predicate Valid()
      reads this
    {
      ring == Last(history, RECENT_CAP)
    }

    constructor ()
      ensures Valid() && history == []
    {
      history, ring := [], [];
    }

    method Record(event: AuditEvent)
      requires Valid()
      modifies this
      ensures Valid() && history == old(history) + [event]
    {
      history := history + [event];
      ring := ring + [event];
      while |ring| > RECENT_CAP
        invariant history == old(history) + [event] && |ring| <= |history|
        invariant |ring| >= RECENT_CAP ==> ring == history[|history| - |ring|..]
        invariant |ring| <= RECENT_CAP ==> ring == Last(history, RECENT_CAP)
      {
        ring := ring[1..];
      }
    }

    /** The newest `limit` entries, but never more than the ring holds, oldest first. */
    method Recent(limit: nat) returns (entries: seq<AuditEvent>)
      requires Valid()
      ensures |entries| == Least(limit, Least(500, |history|)) && entries == history[|history| - |entries|..]
    {
      var n := if limit < |ring| then limit else |ring|;
      entries := ring[|ring| - n..];
    }
  }
}
