/** Exposure resolution: which of a server's classified tools are offered, given its lifecycle state,
    its elevation and a clock reading. */
module Policy {
  import opened Base
  import opened Names
  import opened Manifest

  datatype ClassifiedTool = ClassifiedTool(name: string, cls: ToolClass)

  /** The operator's class for a tool; a tool the operator never declared is a write tool. */
  function ClassOf(declared: map<string, ToolClass>, name: string): ToolClass {
    if name in declared then declared[name] else ToolClass.Write
  }

  function ClassifyAdvertised(declared: map<string, ToolClass>, advertised: seq<string>): (r: seq<ClassifiedTool>)
    ensures |r| == |advertised|
    ensures forall i :: 0 <= i < |r| ==>
              r[i].name == advertised[i]
              && r[i].cls == if advertised[i] in declared then declared[advertised[i]] else ToolClass.Write
  {
    seq(|advertised|, i requires 0 <= i < |advertised| =>
        ClassifiedTool(advertised[i], ClassOf(declared, advertised[i])))
  }

  /** The class of the first tool with this name. */
  function ClassIn(tools: seq<ClassifiedTool>, name: string): Option<ToolClass> {
    var i := Position(tools, (t: ClassifiedTool) => t.name == name);
    if i == |tools| then None else Some(tools[i].cls)
  }

  datatype ElevationMode = Duration | UntilRevoked

  datatype Elevation = Elevation(grantedAt: u64, expiresAt: Option<u64>) {
    function Mode(): ElevationMode {
      if expiresAt.Some? then Duration else UntilRevoked
    }

    predicate IsActive(now: u64) {
      expiresAt.Some? ==> now < expiresAt.value
    }
  }

  function ForDuration(grantedAt: u64, ttl: u64): Elevation {
    Elevation(grantedAt, Some(SatAdd(grantedAt, ttl)))
  }

  function UntilRevokedFrom(grantedAt: u64): Elevation {
    Elevation(grantedAt, None)
  }

  /** A window is open at exactly the readings before `grantedAt + ttl`, except that saturation also closes
      it at the largest reading of all. In particular no window outlives its unbounded sum. */
  lemma WindowBounds(grantedAt: u64, ttl: u64, now: u64)
    ensures ForDuration(grantedAt, ttl).IsActive(now) <==> now < grantedAt + ttl && now < U64_MAX
  {
  }

  datatype ServerState = Running | Paused | Stopped

  predicate ActiveAt(elevation: Option<Elevation>, now: u64) {
    elevation.Some? && elevation.value.IsActive(now)
  }

  /** The names of the tools that pass the class filter, in slot order. */
  function Visible(tools: seq<ClassifiedTool>, elevated: bool): seq<string> {
    if tools == [] then []
    else
      var rest := Visible(tools[1..], elevated);
      if tools[0].cls.IsRead() || elevated then [tools[0].name] + rest else rest
  }

  function ResolveExposure(tools: seq<ClassifiedTool>, state: ServerState, elevation: Option<Elevation>, now: u64)
    : seq<string>
  {
    if state != Running then [] else Sort(Visible(tools, ActiveAt(elevation, now)))
  }

  lemma {:induction false} VisibleMembers(tools: seq<ClassifiedTool>, elevated: bool, name: string)
    ensures name in Visible(tools, elevated) <==>
            exists t :: t in tools && t.name == name && (t.cls == ToolClass.Read || elevated)
  {
    if tools != [] {
      VisibleMembers(tools[1..], elevated, name);
      assert tools == [tools[0]] + tools[1..];
    }
  }

  /** The exposure rule: a name is exposed exactly when the server runs and offers a tool of that name that
      is a read tool or is covered by an elevation still open at `now`. */
  lemma ExposureRule(tools: seq<ClassifiedTool>, state: ServerState, elevation: Option<Elevation>, now: u64,
                     name: string)
    ensures name in ResolveExposure(tools, state, elevation, now) <==>
            state == Running
            && exists t :: t in tools && t.name == name && (t.cls == ToolClass.Read || ActiveAt(elevation, now))
  {
    var v := Visible(tools, ActiveAt(elevation, now));
    VisibleMembers(tools, ActiveAt(elevation, now), name);
    SortCorrect(v);
    assert name in Sort(v) <==> name in multiset(Sort(v));
    assert name in v <==> name in multiset(v);
  }

  /** A child cannot widen its own surface: without an elevation, whatever it advertises, exactly those names
      are exposed that the operator declared as read tools and the child does advertise. */
  lemma UnelevatedSurface(declared: map<string, ToolClass>, advertised: seq<string>, now: u64, name: string)
    ensures name in ResolveExposure(ClassifyAdvertised(declared, advertised), Running, None, now) <==>
            name in advertised && name in declared && declared[name] == ToolClass.Read
  {
    var tools := ClassifyAdvertised(declared, advertised);
    ExposureRule(tools, Running, None, now, name);
    if name in advertised && name in declared && declared[name] == ToolClass.Read {
      var i :| 0 <= i < |advertised| && advertised[i] == name;
      assert tools[i] in tools;
    }
  }

  /** The exposed names are in order, and each as often as the slot has tools of that name to show. */
  lemma {:induction false} ExposureCounts(tools: seq<ClassifiedTool>, state: ServerState, elevation: Option<Elevation>,
                                          now: u64, name: string)
    ensures Sorted(ResolveExposure(tools, state, elevation, now))
    ensures multiset(ResolveExposure(tools, state, elevation, now))[name] ==
            if state != Running then 0
            else |Retain(tools, (t: ClassifiedTool) =>
                   t.name == name && (t.cls == ToolClass.Read || ActiveAt(elevation, now)))|
  {
    SortCorrect(Visible(tools, ActiveAt(elevation, now)));
    VisibleCounts(tools, ActiveAt(elevation, now), (t: ClassifiedTool) =>
                    t.name == name && (t.cls == ToolClass.Read || ActiveAt(elevation, now)), name);
  }

  lemma {:induction false} VisibleCounts(tools: seq<ClassifiedTool>, elevated: bool, p: ClassifiedTool -> bool,
                                         name: string)
    requires forall t :: p(t) <==> t.name == name && (t.cls == ToolClass.Read || elevated)
    ensures multiset(Visible(tools, elevated))[name] == |Retain(tools, p)|
  {
    if tools != [] {
      VisibleCounts(tools[1..], elevated, p, name);
      RetainHead(tools, p);
    }
  }

  /** An elevation without an expiry is open at every reading, one with an expiry strictly before it. */
  lemma WindowKinds(grantedAt: u64, expiresAt: u64, now: u64)
    ensures UntilRevokedFrom(grantedAt).IsActive(now) && UntilRevokedFrom(grantedAt).grantedAt == grantedAt
    ensures Elevation(grantedAt, Some(expiresAt)).IsActive(now) <==> now < expiresAt
    ensures !ActiveAt(None, now)
    ensures UntilRevokedFrom(grantedAt).Mode() == UntilRevoked
            && Elevation(grantedAt, Some(expiresAt)).Mode() == Duration
  {
  }

  /** Exposure never grows by the mere passing of time. */
  lemma ExposureShrinks(tools: seq<ClassifiedTool>, state: ServerState, elevation: Option<Elevation>,
                        earlier: u64, later: u64, name: string)
    requires earlier <= later
    requires name in ResolveExposure(tools, state, elevation, later)
    ensures name in ResolveExposure(tools, state, elevation, earlier)
  {
    ExposureRule(tools, state, elevation, earlier, name);
    ExposureRule(tools, state, elevation, later, name);
  }
}
