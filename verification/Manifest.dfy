/** The operator's manifest: which servers exist and how each of their tools is classified. */
module Manifest {
  import opened Base

  datatype ToolClass = Read | Write | Confirm {
    predicate IsRead() { Read? }

    predicate RequiresElevation() { !IsRead() }

    predicate RequiresPerActionPresence() { Confirm? }
  }

  /** One supervised server; what is needed to launch it is left to the spawner. */
  datatype ServerManifest = ServerManifest(id: string, tools: map<string, ToolClass>)

  ghost predicate DistinctIds(servers: seq<ServerManifest>) {
    forall i, j :: 0 <= i < j < |servers| ==> servers[i].id != servers[j].id
  }

  /** `Manifest::server`: the first server with this id. */
  function FindServer(servers: seq<ServerManifest>, id: string): Option<ServerManifest> {
    var i := Position(servers, (s: ServerManifest) => s.id == id);
    if i == |servers| then None else Some(servers[i])
  }

  /** The duplicate check of `Manifest::validate`: accepts exactly the manifests whose ids are distinct,
      and otherwise names the first id that repeats an earlier one. */
  method CheckUniqueIds(servers: seq<ServerManifest>) returns (duplicate: Option<string>)
    ensures duplicate.None? <==> DistinctIds(servers)
    ensures duplicate.Some? ==>
              exists i, j :: 0 <= i < j < |servers| && servers[i].id == duplicate.value == servers[j].id
                             && DistinctIds(servers[..j])
  {
    var seen: set<string> := {};
    for n := 0 to |servers|
      invariant DistinctIds(servers[..n])
      invariant forall i :: 0 <= i < n ==> servers[i].id in seen
      invariant forall id :: id in seen ==> exists i :: 0 <= i < n && servers[i].id == id
    {
      if servers[n].id in seen {
        return Some(servers[n].id);
      }
      seen := seen + {servers[n].id};
    }
    assert servers[..|servers|] == servers;
    return None;
  }
}
