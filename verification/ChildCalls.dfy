/** The broker and a child together: the tool calls of a run that reach one child are that child's requests, and each
    call is answered by its own reply. */
module ChildCalls {
  import opened Base
  import opened Names
  import opened Policy
  import opened Broker
  import opened Aggregator
  import opened Runs
  import opened WriteAuthority
  import opened McpClient

  /** Step `k` hands a request to this child. */
  predicate ReachesChild(r: Run, k: nat, handle: Handle)
    requires k < |r.events|
  {
    Reaches(r, k) && Report(r, k).sent.value.handle == handle
  }

  /** The steps before step `k` that hand a request to this child, in order. */
  function CallsTo(r: Run, handle: Handle, k: nat): seq<nat>
    requires k <= |r.events|
  {
    if k == 0 then [] else CallsTo(r, handle, k - 1) + if ReachesChild(r, k - 1, handle) then [k - 1] else []
  }

  lemma {:induction false} CallsToReach(r: Run, handle: Handle, k: nat)
    requires k <= |r.events|
    ensures forall n :: 0 <= n < |CallsTo(r, handle, k)| ==>
            CallsTo(r, handle, k)[n] < k && ReachesChild(r, CallsTo(r, handle, k)[n], handle)
  {
    hide ReachesChild;
    if k > 0 {
      CallsToReach(r, handle, k - 1);
    }
  }

  /** What a call asks of the child it reaches. */
  function RequestOf(r: Run, step: nat): Request
    requires step < |r.events| && Reaches(r, step)
  {
    CallRequest(Report(r, step).sent.value.tool, Report(r, step).sent.value.arguments)
  }

  /** What the run says the child replied. */
  function ReplyOf(r: Run, step: nat): Result<Value, ChildError>
    requires step < |r.events| && Reaches(r, step)
  {
    r.events[step].reply
  }

  /** `life` is what passes between the broker and this child: the handshake, the listing, and then one exchange per
      call that reaches it, asking what the call asks. The reply of each such step is what its exchange yields. */
  ghost predicate Serves(r: Run, handle: Handle, life: seq<Exchange>) {
    CallsToReach(r, handle, |r.events|);
    var steps := CallsTo(r, handle, |r.events|);
    && |life| == 2 + |steps|
    && life[0].request == Initialize && life[1].request == Request.ListTools
    && forall n :: 0 <= n < |steps| ==>
         life[2 + n].request == RequestOf(r, steps[n]) && ReplyOf(r, steps[n]) == AwaitedAt(life, 2 + n).result
  }

  lemma {:induction false} EveryCallIsServed(r: Run, handle: Handle, k: nat, step: nat) returns (n: nat)
    requires step < k <= |r.events| && ReachesChild(r, step, handle)
    ensures n < |CallsTo(r, handle, k)| && CallsTo(r, handle, k)[n] == step
  {
    hide ReachesChild;
    if step == k - 1 {
      n := |CallsTo(r, handle, k - 1)|;
    } else {
      n := EveryCallIsServed(r, handle, k - 1, step);
    }
  }

  /** The handler's result is a value or an error that the child reported. */
  predicate ToldByChild(result: Result<Value, AggregatorError>) {
    result.Ok? || (result.error.Child? && result.error.error.Rpc?)
  }

  /** What a call that reached the child reports, from the child's own words. */
  function Reported(told: Result<Value, ChildError>): Result<Value, AggregatorError> {
    match told
    case Ok(v) => Ok(v)
    case Err(e) => Err(Child(e))
  }

  lemma CallReports(r: Run, step: nat)
    requires step < |r.events| && Reaches(r, step)
    ensures var e := r.events[step];
            && SplitOnce(e.name).Some?
            && Report(r, step).sent.value.tool == SplitOnce(e.name).value.1
               && Report(r, step).sent.value.arguments == e.arguments
            && Report(r, step).result == Reported(e.reply)
  {
    var e := r.events[step];
    CallSends(At(r, step).agg, e.name, e.arguments, e.now, e.reply);
    hide At;
    hide Call;
    hide PassesGate;
  }

  /** What an exchange yields is the child's word or else no remote error and no value. */
  lemma ToldMeansAnswered(life: seq<Exchange>, k: nat)
    requires k < |life| && ToldByChild(Reported(AwaitedAt(life, k).result))
    ensures AwaitedAt(life, k).answered
  {
    hide Await;
    AwaitSound(ClientAt(life, k).nextId, ClientAt(life, k).rx, life[k].polls);
  }

  /** Each call is answered by its own reply, in every run and every life of the child, with time-outs, late replies
      left queued, notifications, failed writes, faults and reuse of the handle after `start`: if the handler returns a
      value or a remote error for a call that reached a child, then some message of that child's output says exactly
      that; the message carries an id under which the broker has written one request only, a `tools/call` of this
      very tool with these very arguments; and no other call is answered by that message. */
  lemma ReplyBelongsToCall(r: Run, handle: Handle, life: seq<Exchange>, step: nat) returns (n: nat, at: nat)
    requires Serves(r, handle, life)
    requires step < |r.events| && ReachesChild(r, step, handle)
    requires ToldByChild(Report(r, step).result)
    ensures n < |CallsTo(r, handle, |r.events|)| && CallsTo(r, handle, |r.events|)[n] == step
    ensures var output, stdin, id := Stream(life, |life|), ClientAt(life, |life|).stdin, n + 3;
            && at < |output| && Carries(output[at], id) && Report(r, step).result == Reported(ResultOf(output[at].line))
            && SplitOnce(r.events[step].name).Some?
            && (forall o :: o in stdin && o.id == id <==>
                  o == Outgoing(id, CallRequest(SplitOnce(r.events[step].name).value.1, r.events[step].arguments)))
    ensures at == AnswerAt(life, n + 2)
    ensures forall m :: 0 <= m < |life| && m != n + 2 && AwaitedAt(life, m).answered ==> AnswerAt(life, m) != at
  {
    hide Reaches;
    hide Report;
    hide AwaitedAt;
    hide ClientAt;
    hide Stream;
    hide AnswerAt;
    n := EveryCallIsServed(r, handle, |r.events|, step);
    CallReports(r, step);
    ToldMeansAnswered(life, n + 2);
    ResponseBelongsToRequest(life, n + 2);
    IdsCount(life, n + 2);
    at := AnswerAt(life, n + 2);
  }

  // ----- Which calls fault -----

  /** The exchange is answered, or its child sends a line that is no message: the two endings that fault nothing. */
  ghost predicate ChildSpeaks(c: Client, x: Exchange) {
    x.written && exists m :: 0 <= m < |x.polls| &&
                   (FindsAnswer(c.nextId, c.rx, x.polls, m)
                    || DecidesOn(c.nextId, c.rx, x.polls, m, Some(Text(Garbage))))
  }

  lemma ExchangeFaults(c: Client, x: Exchange)
    ensures var r := AfterRequest(c, x).1.result;
            && (r == Err(Io) || r == Err(Exited) || r == Err(Timeout) <==> !ChildSpeaks(c, x))
            && (x.written && (exists m :: 0 <= m < |x.polls| && DecidesOn(c.nextId, c.rx, x.polls, m, Some(Broken))) ==>
                  r == Err(Io))
  {
    hide Await;
    hide FindsAnswer;
    hide DecidesOn;
    WaitEndings(c.nextId, c.rx, x.polls);
    AwaitSound(c.nextId, c.rx, x.polls);
    if Await(c.nextId, c.rx, x.polls).answered {
      AnsweredIsNoFault(c.nextId, c.rx, x.polls);
    }
  }

  lemma AnsweredIsNoFault(id: nat, rx: seq<Item>, polls: seq<Poll>)
    requires Await(id, rx, polls).answered
    ensures Await(id, rx, polls).result.Ok? || Await(id, rx, polls).result.error.Rpc?
  {
    hide Await;
    AwaitSound(id, rx, polls);
  }

  lemma ReachingCallFaults(r: Run, step: nat)
    requires step < |r.events| && Reaches(r, step)
    ensures var e := r.events[step];
            && (Seen(r, step).Faulted? <==> e.reply == Err(Io) || e.reply == Err(Exited) || e.reply == Err(Timeout))
            && (Seen(r, step).Faulted? ==>
                  && SplitOnce(e.name).Some?
                  && var after := SlotOf(At(r, step + 1).agg.servers, SplitOnce(e.name).value.0);
                     after.Some? && after.value.state == Stopped && after.value.elevation == None)
  {
    hide At;
    hide Call;
    hide PassesGate;
    hide SlotOf;
    hide PutSlot;
    hide Next;
    var s, e := At(r, step), r.events[step];
    CallSends(s.agg, e.name, e.arguments, e.now, e.reply);
    CallFailsClosed(s.agg, e.name, e.arguments, e.now, e.reply);
    NextAgg(r.auth, s, e);
    StepIsNext(r, step);
    if Seen(r, step).Faulted? {
      var server := SplitOnce(e.name).value.0;
      SlotHasId(s.agg.servers, server);
      PutSlotFrame(s.agg.servers, SlotOf(s.agg.servers, server).value.(state := Stopped, elevation := None), server);
    }
  }

  lemma SlotHasId(servers: seq<Slot>, id: string)
    requires SlotOf(servers, id).Some?
    ensures SlotOf(servers, id).value.id == id
  {
  }

  /** A call that reaches a child faults exactly when its exchange neither is answered nor meets a line that is no
      message: when it could not be written, when the stream breaks, an over-long line included, when the child is gone,
      or when the time is up. Its server is then stopped and not elevated. */
  lemma ServedCallFaults(r: Run, handle: Handle, life: seq<Exchange>, n: nat)
    requires Serves(r, handle, life) && n < |CallsTo(r, handle, |r.events|)|
    ensures var step, c, x := CallsTo(r, handle, |r.events|)[n], ClientAt(life, n + 2), life[n + 2];
            && step < |r.events| && Reaches(r, step)
            && (Seen(r, step).Faulted? <==> !ChildSpeaks(c, x))
            && (x.written && (exists m :: 0 <= m < |x.polls| && DecidesOn(c.nextId, c.rx, x.polls, m, Some(Broken))) ==>
                  r.events[step].reply == Err(Io) && Seen(r, step).Faulted?)
            && (Seen(r, step).Faulted? ==>
                  && SplitOnce(r.events[step].name).Some?
                  && var after := SlotOf(At(r, step + 1).agg.servers, SplitOnce(r.events[step].name).value.0);
                     after.Some? && after.value.state == Stopped && after.value.elevation == None)
  {
    hide At;
    hide Seen;
    hide Report;
    hide AfterRequest;
    hide ChildSpeaks;
    hide SlotOf;
    hide RequestOf;
    hide DecidesOn;
    CallsToReach(r, handle, |r.events|);
    var step := CallsTo(r, handle, |r.events|)[n];
    ReachesOfChild(r, step, handle);
    ReachingCallFaults(r, step);
    ExchangeFaults(ClientAt(life, n + 2), life[n + 2]);
  }

  // ----- Every run is some children's -----

  /** An exchange under this id that yields the reply, on an empty channel. */
  function Yielding(id: nat, request: Request, reply: Result<Value, ChildError>): Exchange {
    match reply
    case Ok(v) => Exchange(request, true, [Poll([Text(Message(Some(id), None, Some(v)))], false, false)])
    case Err(Rpc(code, message)) =>
      Exchange(request, true, [Poll([Text(Message(Some(id), Some(RpcError(code, message)), None))], false, false)])
    case Err(Io) => Exchange(request, false, [])
    case Err(Protocol) => Exchange(request, true, [Poll([Text(Garbage)], false, false)])
    case Err(Exited) => Exchange(request, true, [Poll([], false, true)])
    case Err(Timeout) => Exchange(request, true, [Poll([], true, false)])
  }

  lemma YieldingYields(c: Client, request: Request, reply: Result<Value, ChildError>)
    requires c.rx == []
    ensures var (c', w) := AfterRequest(c, Yielding(c.nextId, request, reply));
            w.result == reply && c'.rx == []
  {
    var polls := Yielding(c.nextId, request, reply).polls;
    if polls != [] {
      assert c.rx + polls[0].arrived == polls[0].arrived;
      if polls[0].arrived != [] {
        assert polls[0].arrived[1..] == [];
      }
    }
  }

  /** A life in which the child answers each call that reaches it just as the run says. */
  function LifeIn(r: Run, steps: seq<nat>): seq<Exchange>
    requires forall n :: 0 <= n < |steps| ==> steps[n] < |r.events| && Reaches(r, steps[n])
  {
    seq(2 + |steps|, n requires 0 <= n < 2 + |steps| =>
      if n == 0 then Yielding(1, Initialize, Ok("{}"))
      else if n == 1 then Yielding(2, Request.ListTools, Ok("{}"))
      else Yielding(n + 1, RequestOf(r, steps[n - 2]), ReplyOf(r, steps[n - 2])))
  }

  /** Each exchange of a life is a yielding one. */
  ghost predicate AllYield(life: seq<Exchange>, requests: seq<Request>, replies: seq<Result<Value, ChildError>>) {
    && |life| == |requests| == |replies|
    && forall n :: 0 <= n < |life| ==> life[n] == Yielding(n + 1, requests[n], replies[n])
  }

  lemma {:induction false} ChannelStaysEmpty(life: seq<Exchange>, requests: seq<Request>,
                                             replies: seq<Result<Value, ChildError>>, k: nat)
    requires AllYield(life, requests, replies) && k <= |life|
    ensures ClientAt(life, k).rx == []
    ensures k > 0 ==> AwaitedAt(life, k - 1).result == replies[k - 1]
  {
    hide Await;
    hide Yielding;
    if k > 0 {
      ChannelStaysEmpty(life, requests, replies, k - 1);
      IdsCount(life, k - 1);
      YieldingYields(ClientAt(life, k - 1), requests[k - 1], replies[k - 1]);
    }
  }

  /** What the child is assumed to do can always be done: every run, whatever its replies, is served by some life of
      each child. */
  lemma EveryRunIsServed(r: Run, handle: Handle) returns (life: seq<Exchange>)
    ensures Serves(r, handle, life)
  {
    hide ReachesChild;
    hide Reaches;
    hide RequestOf;
    hide ReplyOf;
    hide Yielding;
    hide AwaitedAt;
    CallsToReach(r, handle, |r.events|);
    var steps := CallsTo(r, handle, |r.events|);
    forall n | 0 <= n < |steps| ensures steps[n] < |r.events| && Reaches(r, steps[n]) {
      ReachesOfChild(r, steps[n], handle);
    }
    life := LifeIn(r, steps);
    var requests := seq(|life|, n requires 0 <= n < |life| =>
      if n == 0 then Initialize else if n == 1 then Request.ListTools else RequestOf(r, steps[n - 2]));
    var replies := seq(|life|, n requires 0 <= n < |life| => if n < 2 then Ok("{}") else ReplyOf(r, steps[n - 2]));
    forall n | 0 <= n < |steps|
      ensures life[2 + n].request == RequestOf(r, steps[n]) && ReplyOf(r, steps[n]) == AwaitedAt(life, 2 + n).result
    {
      RequestsKept(n + 3, RequestOf(r, steps[n]), ReplyOf(r, steps[n]));
      ChannelStaysEmpty(life, requests, replies, n + 3);
    }
    RequestsKept(1, Initialize, Ok("{}"));
    RequestsKept(2, Request.ListTools, Ok("{}"));
  }

  lemma ReachesOfChild(r: Run, step: nat, handle: Handle)
    requires step < |r.events| && ReachesChild(r, step, handle)
    ensures Reaches(r, step)
  {
    hide Report;
  }

  lemma RequestsKept(id: nat, request: Request, reply: Result<Value, ChildError>)
    ensures Yielding(id, request, reply).request == request
  {
  }
}
