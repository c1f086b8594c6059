/** The client side of one child: request ids matched over a first-in first-out line channel, and the reader loop
    that frames the child's output into lines. */
module McpClient {
  import opened Base
  import opened Aggregator

  // ----- Requests -----

  datatype RpcError = RpcError(code: int, message: string)

  /** A received line: white space, something that is not JSON, or a JSON message with the members that matter. */
  datatype Line = Blank | Garbage | Message(id: Option<nat>, error: Option<RpcError>, result: Option<Value>)

  /** What the reader thread pushes: a line, or the error that ended the stream. */
  datatype Item = Text(line: Line) | Broken

  /** One wait on the channel: what has arrived by then, whether the request's time is up before anything is
      taken, and whether the reader has gone when nothing is left to take. */
  datatype Poll = Poll(arrived: seq<Item>, expired: bool, hungUp: bool)

  /** The end of a wait: its result, the channel's remaining items, the items taken from it in order, all items
      that arrived meanwhile, and whether the result is read off the last item taken. */
  datatype Awaited = Awaited(result: Result<Value, ChildError>, rest: seq<Item>, taken: seq<Item>, arrived: seq<Item>,
                             answered: bool)

  /** The result a response message stands for; an error member wins over a result. */
  function ResultOf(m: Line): Result<Value, ChildError>
    requires m.Message?
  {
    match m.error
    case Some(e) => Err(Rpc(e.code, e.message))
    case None => Ok(match m.result case None => "null" case Some(v) => v)
  }

  /** The item does not end a wait for `id`: it is blank, or a message that does not carry that id. */
  predicate Skippable(item: Item, id: nat) {
    item.Text? && (item.line.Blank? || (item.line.Message? && item.line.id != Some(id)))
  }

  /** The item is a message with this id. */
  predicate Carries(item: Item, id: nat) {
    item.Text? && item.line.Message? && item.line.id == Some(id)
  }

  /** Waiting for the response to request `id`. After the last poll the time is up. */
  function Await(id: nat, rx: seq<Item>, polls: seq<Poll>): Awaited
    decreases polls
  {
    if polls == [] then Awaited(Err(Timeout), rx, [], [], false)
    else
      var q := rx + polls[0].arrived;
      if polls[0].expired then Awaited(Err(Timeout), q, [], polls[0].arrived, false)
      else if q == [] then Awaited(Err(if polls[0].hungUp then Exited else Timeout), q, [], polls[0].arrived, false)
      else if Skippable(q[0], id) then
        var w := Await(id, q[1..], polls[1..]);
        w.(taken := [q[0]] + w.taken, arrived := polls[0].arrived + w.arrived)
      else if q[0].Broken? then Awaited(Err(Io), q[1..], [q[0]], polls[0].arrived, false)
      else if q[0].line.Garbage? then Awaited(Err(Protocol), q[1..], [q[0]], polls[0].arrived, false)
      else Awaited(ResultOf(q[0].line), q[1..], [q[0]], polls[0].arrived, true)
  }

  lemma TakeFirst<T>(rx: seq<T>, now: seq<T>, later: seq<T>, taken: seq<T>, rest: seq<T>)
    requires rx + now != [] && (rx + now)[1..] + later == taken + rest
    ensures rx + (now + later) == ([(rx + now)[0]] + taken) + rest
  {
    var q := rx + now;
    calc {
      rx + (now + later);
      q + later;
      { assert q == [q[0]] + q[1..]; }
      [q[0]] + (q[1..] + later);
      [q[0]] + (taken + rest);
      ([q[0]] + taken) + rest;
    }
  }

  /** Nothing is lost or reordered, everything taken before the end was skippable, and an answer is exactly what
      the last item taken, a message carrying `id`, stands for. */
  lemma {:induction false} AwaitSound(id: nat, rx: seq<Item>, polls: seq<Poll>)
    ensures var w := Await(id, rx, polls);
            && rx + w.arrived == w.taken + w.rest
            && (forall i :: 0 <= i < |w.taken| - 1 ==> Skippable(w.taken[i], id))
            && (w.answered <==> w.taken != [] && var last := w.taken[|w.taken| - 1];
                                                 last.Text? && last.line.Message? && last.line.id == Some(id))
            && (w.answered ==> w.result == ResultOf(w.taken[|w.taken| - 1].line))
            && (!w.answered ==> w.result.Err? && !w.result.error.Rpc?)
    decreases polls
  {
    if polls != [] {
      var q := rx + polls[0].arrived;
      if !polls[0].expired && q != [] && Skippable(q[0], id) {
        var w := Await(id, q[1..], polls[1..]);
        AwaitSound(id, q[1..], polls[1..]);
        TakeFirst(rx, polls[0].arrived, w.arrived, w.taken, w.rest);
      }
    }
  }

  /** What the broker asks of a child. */
  datatype Request = Initialize | ListTools | CallRequest(tool: string, arguments: Value)

  /** A request as written to the child's standard input. */
  datatype Outgoing = Outgoing(id: nat, request: Request)

  /** The channel at poll `n` if nothing had been taken: what was queued and all that arrived up to then. */
  function Arrived(rx: seq<Item>, polls: seq<Poll>, n: nat): seq<Item>
    requires n < |polls|
  {
    if n == 0 then rx + polls[0].arrived else Arrived(rx, polls, n - 1) + polls[n].arrived
  }

  /** Poll `m` comes in time and finds an item that ends nothing: a blank line, or a message of another id or none. */
  ghost predicate PassesAt(id: nat, rx: seq<Item>, polls: seq<Poll>, m: nat)
    requires m < |polls|
  {
    && !polls[m].expired && m < |Arrived(rx, polls, m)|
    && var item := Arrived(rx, polls, m)[m];
       item == Text(Blank) || (item.Text? && item.line.Message? && item.line.id != Some(id))
  }

  /** Poll `n` is the first that does not pass. */
  ghost predicate Decides(id: nat, rx: seq<Item>, polls: seq<Poll>, n: nat)
    requires n < |polls|
  {
    !PassesAt(id, rx, polls, n) && forall m :: 0 <= m < n ==> PassesAt(id, rx, polls, m)
  }

  /** The item that poll `n` finds in time, if any. */
  ghost function Found(rx: seq<Item>, polls: seq<Poll>, n: nat): Option<Item>
    requires n < |polls|
  {
    if !polls[n].expired && n < |Arrived(rx, polls, n)| then Some(Arrived(rx, polls, n)[n]) else None
  }

  lemma HeadFirst<T>(q: seq<T>, more: seq<T>)
    requires q != []
    ensures q + more == [q[0]] + (q[1..] + more)
  {
  }

  lemma HeadStays<T>(head: T, front: seq<T>, more: seq<T>)
    ensures ([head] + front) + more == [head] + (front + more)
  {
  }

  lemma {:induction false} ArrivedShifts(rx: seq<Item>, polls: seq<Poll>, n: nat)
    requires n + 1 < |polls| && rx + polls[0].arrived != []
    ensures Arrived(rx, polls, n + 1) ==
            [(rx + polls[0].arrived)[0]] + Arrived((rx + polls[0].arrived)[1..], polls[1..], n)
  {
    var q := rx + polls[0].arrived;
    if n == 0 {
      assert Arrived(rx, polls, 1) == q + polls[1].arrived;
      HeadFirst(q, polls[1].arrived);
    } else {
      ArrivedShifts(rx, polls, n - 1);
      HeadStays(q[0], Arrived(q[1..], polls[1..], n - 1), polls[n + 1].arrived);
    }
  }

  lemma FirstArrived(rx: seq<Item>, polls: seq<Poll>)
    requires polls != []
    ensures Arrived(rx, polls, 0) == rx + polls[0].arrived
  {
  }

  lemma PassesShifts(id: nat, rx: seq<Item>, polls: seq<Poll>, m: nat)
    requires m + 1 < |polls| && rx + polls[0].arrived != []
    ensures PassesAt(id, rx, polls, m + 1) <==> PassesAt(id, (rx + polls[0].arrived)[1..], polls[1..], m)
    ensures Found(rx, polls, m + 1) == Found((rx + polls[0].arrived)[1..], polls[1..], m)
  {
    ArrivedShifts(rx, polls, m);
    var head, tail := (rx + polls[0].arrived)[0], Arrived((rx + polls[0].arrived)[1..], polls[1..], m);
    assert Arrived(rx, polls, m + 1) == [head] + tail;
    hide Arrived;
  }

  lemma DecidesShifts(id: nat, rx: seq<Item>, polls: seq<Poll>, n: nat)
    requires n + 1 < |polls| && Decides(id, rx, polls, n + 1)
    ensures PassesAt(id, rx, polls, 0) && rx + polls[0].arrived != []
    ensures Decides(id, (rx + polls[0].arrived)[1..], polls[1..], n)
  {
    FirstArrived(rx, polls);
    assert PassesAt(id, rx, polls, 0);
    assert 0 < |Arrived(rx, polls, 0)|;
    PassesShifts(id, rx, polls, n);
    forall m | 0 <= m < n ensures PassesAt(id, (rx + polls[0].arrived)[1..], polls[1..], m) {
      PassesShifts(id, rx, polls, m);
      assert PassesAt(id, rx, polls, m + 1);
    }
  }

  /** A wait whose first poll passes goes on with the rest. */
  lemma AwaitPasses(id: nat, rx: seq<Item>, polls: seq<Poll>)
    requires polls != [] && PassesAt(id, rx, polls, 0)
    ensures rx + polls[0].arrived != []
    ensures var w, rest := Await(id, rx, polls), Await(id, (rx + polls[0].arrived)[1..], polls[1..]);
            w.answered == rest.answered && w.result == rest.result
  {
    FirstArrived(rx, polls);
    assert 0 < |Arrived(rx, polls, 0)|;
  }

  /** How a wait ends at the poll that decides it: out of time if that poll is, or if it finds nothing while the reader
      is there; the child gone if it finds nothing and the reader has gone; a broken stream; a line that is no message;
      or the answer, whose error member wins over its result and whose missing result is null. */
  ghost function Verdict(poll: Poll, found: Option<Item>): (bool, Result<Value, ChildError>) {
    if poll.expired then (false, Err(Timeout))
    else
      match found
      case None => (false, Err(if poll.hungUp then Exited else Timeout))
      case Some(Broken) => (false, Err(Io))
      case Some(Text(Message(_, Some(RpcError(code, message)), _))) => (true, Err(Rpc(code, message)))
      case Some(Text(Message(_, None, Some(value)))) => (true, Ok(value))
      case Some(Text(Message(_, None, None))) => (true, Ok("null"))
      case Some(Text(_)) => (false, Err(Protocol))
  }

  lemma {:induction false} AwaitIsDecided(id: nat, rx: seq<Item>, polls: seq<Poll>, n: nat)
    requires n < |polls| && Decides(id, rx, polls, n)
    ensures (Await(id, rx, polls).answered, Await(id, rx, polls).result) == Verdict(polls[n], Found(rx, polls, n))
    decreases n
  {
    if n == 0 {
      FirstArrived(rx, polls);
      FirstDecides(id, rx, polls);
    } else {
      DecidesShifts(id, rx, polls, n - 1);
      AwaitPasses(id, rx, polls);
      PassesShifts(id, rx, polls, n - 1);
      AwaitIsDecided(id, (rx + polls[0].arrived)[1..], polls[1..], n - 1);
      hide Await;
      hide Arrived;
      hide Found;
      hide Decides;
      hide PassesAt;
    }
  }

  lemma FirstDecides(id: nat, rx: seq<Item>, polls: seq<Poll>)
    requires polls != [] && Arrived(rx, polls, 0) == rx + polls[0].arrived && !PassesAt(id, rx, polls, 0)
    ensures (Await(id, rx, polls).answered, Await(id, rx, polls).result) == Verdict(polls[0], Found(rx, polls, 0))
  {
    var q := rx + polls[0].arrived;
    assert q != [] ==> 0 < |Arrived(rx, polls, 0)|;
  }

  lemma {:induction false} AwaitUndecided(id: nat, rx: seq<Item>, polls: seq<Poll>)
    requires forall m :: 0 <= m < |polls| ==> PassesAt(id, rx, polls, m)
    ensures !Await(id, rx, polls).answered && Await(id, rx, polls).result == Err(Timeout)
    decreases polls
  {
    if polls != [] {
      AwaitPasses(id, rx, polls);
      forall m | 0 <= m < |polls| - 1 ensures PassesAt(id, (rx + polls[0].arrived)[1..], polls[1..], m) {
        PassesShifts(id, rx, polls, m);
        assert PassesAt(id, rx, polls, m + 1);
      }
      hide Arrived;
      hide PassesAt;
      AwaitUndecided(id, (rx + polls[0].arrived)[1..], polls[1..]);
    }
  }

  lemma {:induction false} FirstNotPassing(id: nat, rx: seq<Item>, polls: seq<Poll>, m: nat) returns (n: nat)
    requires m < |polls| && !PassesAt(id, rx, polls, m)
    ensures n <= m && Decides(id, rx, polls, n)
  {
    hide PassesAt;
    if j :| 0 <= j < m && !PassesAt(id, rx, polls, j) {
      n := FirstNotPassing(id, rx, polls, j);
    } else {
      n := m;
    }
  }

  /** One poll at most decides a wait. */
  lemma OneDecides(id: nat, rx: seq<Item>, polls: seq<Poll>, n: nat, n': nat)
    requires n < |polls| && n' < |polls| && Decides(id, rx, polls, n) && Decides(id, rx, polls, n')
    ensures n == n'
  {
    hide PassesAt;
  }

  /** The poll that decides finds this, in time. */
  ghost predicate DecidesOn(id: nat, rx: seq<Item>, polls: seq<Poll>, n: nat, found: Option<Item>)
    requires n < |polls|
  {
    Decides(id, rx, polls, n) && !polls[n].expired && Found(rx, polls, n) == found
  }

  /** Poll `n` finds the answer: the polls before it pass, and it finds in time a message with the id. */
  ghost predicate FindsAnswer(id: nat, rx: seq<Item>, polls: seq<Poll>, n: nat)
    requires n < |polls|
  {
    Decides(id, rx, polls, n) && Found(rx, polls, n).Some? && Found(rx, polls, n).value.Text?
    && Found(rx, polls, n).value.line.Message?
  }

  lemma DecidedMessageCarriesId(id: nat, rx: seq<Item>, polls: seq<Poll>, n: nat)
    requires n < |polls| && FindsAnswer(id, rx, polls, n)
    ensures Found(rx, polls, n).value.line.id == Some(id)
  {
    hide Arrived;
  }

  /** Every way a wait can end, each exactly when it does: with the answer when some poll finds it; with a broken stream
      or a line that is no message when the deciding poll finds that; with the child gone when it finds nothing and the
      reader has gone; and else out of time, with no polls left or none at all included. */
  lemma WaitEndings(id: nat, rx: seq<Item>, polls: seq<Poll>)
    ensures var w := Await(id, rx, polls);
            && (w.answered <==> exists n :: 0 <= n < |polls| && FindsAnswer(id, rx, polls, n))
            && (w.result == Err(Io) <==> exists n :: 0 <= n < |polls| && DecidesOn(id, rx, polls, n, Some(Broken)))
            && (w.result == Err(Protocol) <==>
                  exists n :: 0 <= n < |polls| && DecidesOn(id, rx, polls, n, Some(Text(Garbage))))
            && (w.result == Err(Exited) <==>
                  exists n :: 0 <= n < |polls| && DecidesOn(id, rx, polls, n, None) && polls[n].hungUp)
            && (w.result == Err(Timeout) <==>
                  !w.answered && w.result != Err(Io) && w.result != Err(Protocol) && w.result != Err(Exited))
  {
    hide Await;
    hide Arrived;
    hide PassesAt;
    if forall m :: 0 <= m < |polls| ==> PassesAt(id, rx, polls, m) {
      AwaitUndecided(id, rx, polls);
      NoneDecides(id, rx, polls);
    } else {
      var m :| 0 <= m < |polls| && !PassesAt(id, rx, polls, m);
      var n := FirstNotPassing(id, rx, polls, m);
      AwaitIsDecided(id, rx, polls, n);
      DecidedNotBlank(id, rx, polls, n);
      OnlyThisDecides(id, rx, polls, n);
      hide Decides;
      hide Found;
      assert FindsAnswer(id, rx, polls, n) <==> Await(id, rx, polls).answered;
      assert DecidesOn(id, rx, polls, n, Some(Broken)) <==> Await(id, rx, polls).result == Err(Io);
      assert DecidesOn(id, rx, polls, n, Some(Text(Garbage))) <==> Await(id, rx, polls).result == Err(Protocol);
      assert DecidesOn(id, rx, polls, n, None) && polls[n].hungUp <==> Await(id, rx, polls).result == Err(Exited);
    }
  }

  lemma NoneDecides(id: nat, rx: seq<Item>, polls: seq<Poll>)
    requires forall m :: 0 <= m < |polls| ==> PassesAt(id, rx, polls, m)
    ensures forall n :: 0 <= n < |polls| ==> !Decides(id, rx, polls, n)
  {
    hide PassesAt;
  }

  lemma OnlyThisDecides(id: nat, rx: seq<Item>, polls: seq<Poll>, n: nat)
    requires n < |polls| && Decides(id, rx, polls, n)
    ensures forall m :: 0 <= m < |polls| && Decides(id, rx, polls, m) ==> m == n
  {
    hide PassesAt;
    forall m | 0 <= m < |polls| && Decides(id, rx, polls, m) ensures m == n {
      OneDecides(id, rx, polls, m, n);
    }
  }

  /** What a deciding poll finds in time is no blank line. */
  lemma DecidedNotBlank(id: nat, rx: seq<Item>, polls: seq<Poll>, n: nat)
    requires n < |polls| && Decides(id, rx, polls, n)
    ensures Found(rx, polls, n) != Some(Text(Blank))
    ensures polls[n].expired ==> Found(rx, polls, n) == None
  {
    hide Arrived;
  }

  /** A wait is answered exactly when some poll finds the answer, and then with what that message says: a request
      whose answer reaches the front of the channel in time never fails. */
  lemma AnsweredExactlyWhen(id: nat, rx: seq<Item>, polls: seq<Poll>)
    ensures Await(id, rx, polls).answered <==> exists n :: 0 <= n < |polls| && FindsAnswer(id, rx, polls, n)
    ensures forall n :: 0 <= n < |polls| && FindsAnswer(id, rx, polls, n) ==>
                          var m := Found(rx, polls, n).value.line;
                          && m.id == Some(id)
                          && Await(id, rx, polls).result == match (m.error, m.result)
                                                            case (Some(e), _) => Err(Rpc(e.code, e.message))
                                                            case (None, Some(v)) => Ok(v)
                                                            case (None, None) => Ok("null")
  {
    hide Await;
    hide Arrived;
    hide PassesAt;
    WaitEndings(id, rx, polls);
    forall n | 0 <= n < |polls| && FindsAnswer(id, rx, polls, n)
      ensures Found(rx, polls, n).value.line.id == Some(id)
      ensures Await(id, rx, polls).result == Verdict(polls[n], Found(rx, polls, n)).1
      ensures !polls[n].expired
    {
      DecidedMessageCarriesId(id, rx, polls, n);
      AwaitIsDecided(id, rx, polls, n);
      DecidedNotBlank(id, rx, polls, n);
    }
  }

  /** A client of one child: the next request id, the items not yet taken from the channel, and the requests written
      to the child so far. */
  datatype Client = Client(nextId: nat, rx: seq<Item>, stdin: seq<Outgoing>)

  /** One request; `written` says whether it could be written to the child. */
  datatype Exchange = Exchange(request: Request, written: bool, polls: seq<Poll>)

  function AfterRequest(c: Client, x: Exchange): (Client, Awaited) {
    if !x.written then (c.(nextId := c.nextId + 1), Awaited(Err(Io), c.rx, [], [], false))
    else
      var w := Await(c.nextId, c.rx, x.polls);
      (Client(c.nextId + 1, w.rest, c.stdin + [Outgoing(c.nextId, x.request)]), w)
  }

  class StdioMcpClient {
    var nextId: nat
    var rx: seq<Item>
    var stdin: seq<Outgoing>

    ghost function View(): Client
      reads this
    {
      Client(nextId, rx, stdin)
    }

    constructor ()
      ensures View() == Client(1, [], [])
    {
      nextId, rx, stdin := 1, [], [];
    }

    method Request(x: Exchange) returns (r: Result<Value, ChildError>)
      modifies this
      ensures View() == AfterRequest(old(View()), x).0
      ensures r == AfterRequest(old(View()), x).1.result
    {
      var id := nextId;
      nextId := nextId + 1;
      if !x.written {
        return Err(Io);
      }
      stdin := stdin + [Outgoing(id, x.request)];
      var i := 0;
      ghost var whole := Await(id, rx, x.polls);
      assert x.polls[0..] == x.polls;
      while i < |x.polls|
        invariant 0 <= i <= |x.polls| && nextId == id + 1 && stdin == old(stdin) + [Outgoing(id, x.request)]
        invariant Await(id, rx, x.polls[i..]).rest == whole.rest && Await(id, rx, x.polls[i..]).result == whole.result
      {
        var poll := x.polls[i];
        assert x.polls[i..][0] == poll && x.polls[i..][1..] == x.polls[i + 1..];
        rx := rx + poll.arrived;
        i := i + 1;
        if poll.expired {
          return Err(Timeout);
        }
        if rx == [] {
          return Err(if poll.hungUp then Exited else Timeout);
        }
        var item := rx[0];
        rx := rx[1..];
        match item
        case Broken => return Err(Io);
        case Text(Blank) =>
        case Text(Garbage) => return Err(Protocol);
        case Text(Message(id', error, result)) =>
          if id' == Some(id) {
            if error.Some? {
              return Err(Rpc(error.value.code, error.value.message));
            }
            return Ok(match result case None => "null" case Some(v) => v);
          }
      }
      return Err(Timeout);
    }
  }

  // ----- The life of a handle -----

  /** The client after `k` requests on a fresh handle, whatever became of each. */
  function ClientAt(xs: seq<Exchange>, k: nat): Client
    requires k <= |xs|
  {
    if k == 0 then Client(1, [], []) else AfterRequest(ClientAt(xs, k - 1), xs[k - 1]).0
  }

  function AwaitedAt(xs: seq<Exchange>, k: nat): Awaited
    requires k < |xs|
  {
    AfterRequest(ClientAt(xs, k), xs[k]).1
  }

  /** Everything the child has put into the channel during the first `k` requests, in order. */
  function Stream(xs: seq<Exchange>, k: nat): seq<Item>
    requires k <= |xs|
  {
    if k == 0 then [] else Stream(xs, k - 1) + AwaitedAt(xs, k - 1).arrived
  }

  /** How many items the first `k` requests have taken from the channel. */
  function TakenBy(xs: seq<Exchange>, k: nat): nat
    requires k <= |xs|
  {
    if k == 0 then 0 else TakenBy(xs, k - 1) + |AwaitedAt(xs, k - 1).taken|
  }

  /** The place in the child's output of the response that the request at `k` returned. */
  function AnswerAt(xs: seq<Exchange>, k: nat): int
    requires k < |xs|
  {
    TakenBy(xs, k + 1) - 1
  }

  lemma {:induction false} IdsCount(xs: seq<Exchange>, k: nat)
    requires k <= |xs|
    ensures ClientAt(xs, k).nextId == k + 1
  {
    hide Await;
    if k > 0 { IdsCount(xs, k - 1); }
  }

  /** One request takes items from the front of the channel and leaves the rest, with what arrived behind. */
  lemma RequestKeepsOrder(c: Client, x: Exchange)
    ensures var (c', w) := AfterRequest(c, x);
            c.rx + w.arrived == w.taken + c'.rx
  {
    hide Await;
    AwaitSound(c.nextId, c.rx, x.polls);
  }

  lemma {:induction false} StreamInOrder(xs: seq<Exchange>, k: nat)
    requires k <= |xs|
    ensures TakenBy(xs, k) <= |Stream(xs, k)|
    ensures Stream(xs, k)[TakenBy(xs, k)..] == ClientAt(xs, k).rx
    ensures k > 0 ==>
              TakenBy(xs, k - 1) <= TakenBy(xs, k)
              && Stream(xs, k)[TakenBy(xs, k - 1)..TakenBy(xs, k)] == AwaitedAt(xs, k - 1).taken
  {
    hide AfterRequest;
    if k > 0 {
      StreamInOrder(xs, k - 1);
      RequestKeepsOrder(ClientAt(xs, k - 1), xs[k - 1]);
      QueueStep(Stream(xs, k - 1), TakenBy(xs, k - 1), ClientAt(xs, k - 1).rx, AwaitedAt(xs, k - 1).arrived,
                AwaitedAt(xs, k - 1).taken, ClientAt(xs, k).rx);
    }
  }

  lemma QueueStep<T>(stream: seq<T>, t: nat, rx: seq<T>, arrived: seq<T>, taken: seq<T>, rest: seq<T>)
    requires t <= |stream| && stream[t..] == rx && rx + arrived == taken + rest
    ensures var s := stream + arrived;
            t + |taken| <= |s| && s[t..t + |taken|] == taken && s[t + |taken|..] == rest
  {
    var s := stream + arrived;
    assert s[t..] == taken + rest;
    assert s[t..t + |taken|] == s[t..][..|taken|];
    assert s[t + |taken|..] == s[t..][|taken|..];
  }

  lemma {:induction false} StreamGrows(xs: seq<Exchange>, j: nat, k: nat)
    requires j <= k <= |xs|
    ensures Stream(xs, j) <= Stream(xs, k) && TakenBy(xs, j) <= TakenBy(xs, k)
  {
    hide AwaitedAt;
    if j < k { StreamGrows(xs, j, k - 1); }
  }

  /** The child answers no id more than once. */
  ghost predicate AnswersOnce(output: seq<Item>, id: nat) {
    forall i, j :: 0 <= i < j < |output| && Carries(output[i], id) ==> !Carries(output[j], id)
  }

  /** The requests that the first `k` exchanges wrote, each under its own number. */
  function Written(xs: seq<Exchange>, k: nat): seq<Outgoing>
    requires k <= |xs|
  {
    if k == 0 then [] else Written(xs, k - 1) + if xs[k - 1].written then [Outgoing(k, xs[k - 1].request)] else []
  }

  lemma {:induction false} StdinIsWritten(xs: seq<Exchange>, k: nat)
    requires k <= |xs|
    ensures ClientAt(xs, k).stdin == Written(xs, k)
  {
    hide Await;
    if k > 0 {
      StdinIsWritten(xs, k - 1);
      IdsCount(xs, k - 1);
    }
  }

  /** A request is written under an id exactly when it is that exchange's and could be written. */
  lemma {:induction false} WrittenIds(xs: seq<Exchange>, k: nat, o: Outgoing)
    requires k <= |xs|
    ensures o in Written(xs, k) <==> 1 <= o.id <= k && xs[o.id - 1].written && xs[o.id - 1].request == o.request
  {
    if k > 0 {
      WrittenIds(xs, k - 1, o);
    }
  }

  /** A response belongs to its request: in every life of a handle, with timeouts, late replies left queued,
      notifications in between and write failures, a result or error that a request returns from a reply is
      what one message of the child's output says. That message carries the id under which the broker wrote this
      very request and never wrote another, and it is taken by no other request. If the child answers each id at
      most once, every answer it ever gives to this request says what was returned. */
  lemma ResponseBelongsToRequest(xs: seq<Exchange>, k: nat)
    requires k < |xs| && AwaitedAt(xs, k).answered
    ensures var output, stdin := Stream(xs, |xs|), ClientAt(xs, |xs|).stdin;
            var id, at := ClientAt(xs, k).nextId, AnswerAt(xs, k);
            && 0 <= at < |output| && Carries(output[at], id)
            && AwaitedAt(xs, k).result == ResultOf(output[at].line)
            && (forall o :: o in stdin && o.id == id <==> o == Outgoing(id, xs[k].request))
            && (forall j :: 0 <= j < |xs| && j != k && AwaitedAt(xs, j).answered ==> AnswerAt(xs, j) != at)
            && (AnswersOnce(output, id) ==>
                  forall i :: 0 <= i < |output| && Carries(output[i], id) ==>
                    ResultOf(output[i].line) == AwaitedAt(xs, k).result)
  {
    hide AfterRequest;
    hide Stream;
    hide TakenBy;
    AnswerInStream(xs, k);
    IdsCount(xs, k);
    forall j | 0 <= j < |xs| && j != k && AwaitedAt(xs, j).answered ensures AnswerAt(xs, j) != AnswerAt(xs, k) {
      AnswerInStream(xs, j);
      IdsCount(xs, j);
    }
    StdinIsWritten(xs, |xs|);
    AnsweredWasWritten(ClientAt(xs, k), xs[k]);
    forall o ensures o in Written(xs, |xs|) && o.id == k + 1 <==> o == Outgoing(k + 1, xs[k].request) {
      WrittenIds(xs, |xs|, o);
    }
  }

  lemma AnsweredWasWritten(c: Client, x: Exchange)
    requires AfterRequest(c, x).1.answered
    ensures x.written
  {
    hide Await;
  }

  lemma AnswerIsLastTaken(c: Client, x: Exchange)
    requires AfterRequest(c, x).1.answered
    ensures var w := AfterRequest(c, x).1;
            && w.taken != [] && Carries(w.taken[|w.taken| - 1], c.nextId)
            && w.result == ResultOf(w.taken[|w.taken| - 1].line)
  {
    hide Await;
    AwaitSound(c.nextId, c.rx, x.polls);
  }

  lemma AnswerInStream(xs: seq<Exchange>, k: nat)
    requires k < |xs| && AwaitedAt(xs, k).answered
    ensures var output, at := Stream(xs, |xs|), AnswerAt(xs, k);
            && 0 <= at < |output| && Carries(output[at], ClientAt(xs, k).nextId)
            && AwaitedAt(xs, k).result == ResultOf(output[at].line)
  {
    hide AfterRequest;
    hide ClientAt;
    hide Stream;
    hide TakenBy;
    AnswerIsLastTaken(ClientAt(xs, k), xs[k]);
    StreamInOrder(xs, k + 1);
    StreamGrows(xs, k + 1, |xs|);
    var s, t, taken := Stream(xs, k + 1), TakenBy(xs, k), AwaitedAt(xs, k).taken;
    assert s[t..TakenBy(xs, k + 1)][|taken| - 1] == s[AnswerAt(xs, k)];
  }

  // ----- Framing -----

  const MAX_LINE_BYTES: nat := 8 * 1024 * 1024
  const NEWLINE: u8 := 10

  /** Why the reader stopped: end of output, a read error, a line over the cap, or nobody left to send to. */
  datatype Ending = EndOfOutput | ReadError | OverLong | HungUp

  /** `take(limit).read_until(newline)`: how many of the next bytes one read yields. */
  function LineLength(data: seq<u8>, limit: nat): (n: nat)
    ensures n <= limit && n <= |data|
    ensures forall j :: 0 <= j < n - 1 ==> data[j] != NEWLINE
    ensures n < limit && n < |data| ==> n > 0 && data[n - 1] == NEWLINE
  {
    if data == [] || limit == 0 then 0
    else if data[0] == NEWLINE then 1
    else 1 + LineLength(data[1..], limit - 1)
  }

  predicate Terminated(line: seq<u8>) {
    line != [] && line[|line| - 1] == NEWLINE
  }

  predicate NoNewlineBefore(data: seq<u8>, n: nat) {
    forall j :: 0 <= j < n && j < |data| ==> data[j] != 10
  }

  /** A line as emitted: within the cap, and without a newline except perhaps at its end. */
  predicate WellFormed(line: seq<u8>) {
    0 < |line| <= 8_388_608 && NoNewlineBefore(line, |line| - 1)
  }

  /** Exact framing. The lines are a prefix of the data, well formed, and all terminated except that a last one
      may lack its newline at the end of the output; and the ending is justified by what follows them. */
  predicate Framing(data: seq<u8>, fails: bool, lines: seq<seq<u8>>, ending: Ending) {
    && Concat(lines) <= data
    && (forall i :: 0 <= i < |lines| ==> WellFormed(lines[i]))
    && (forall i :: 0 <= i < |lines| ==> Terminated(lines[i]) || (ending == EndOfOutput && i == |lines| - 1))
    && var rest := data[|Concat(lines)|..];
       match ending
       case EndOfOutput => !fails && rest == []
       case ReadError => fails && |rest| <= 8_388_608 && NoNewlineBefore(rest, |rest|)
       case OverLong => |rest| > 8_388_608 && NoNewlineBefore(rest, 8_388_608)
       case HungUp => rest != []
  }

  lemma ConcatSnoc(lines: seq<seq<u8>>, line: seq<u8>)
    ensures Concat(lines + [line]) == Concat(lines) + line
  {
    assert (lines + [line])[..|lines|] == lines;
  }

  /** What the reads buffered, one sequence each: the lines and then, by the ending, nothing more to read, a broken
      line of at most the cap, one byte over the cap, or one more line. */
  ghost predicate Buffered(data: seq<u8>, lines: seq<seq<u8>>, ending: Ending, buffers: seq<seq<u8>>) {
    && |buffers| == |lines| + 1 && buffers[..|lines|] == lines
    && Concat(buffers) <= data
    && var last := buffers[|lines|];
       match ending
       case EndOfOutput => last == []
       case ReadError => |last| <= 8_388_608 && Concat(buffers) == data
       case OverLong => |last| == 8_388_609
       case HungUp => WellFormed(last)
  }

  /** The lines emitted so far are the first `pos` bytes of the data. */
  ghost predicate Framed(data: seq<u8>, fails: bool, lines: seq<seq<u8>>, pos: nat) {
    && pos <= |data| && Concat(lines) == data[..pos]
    && (forall i :: 0 <= i < |lines| ==> WellFormed(lines[i]))
    && (forall i :: 0 <= i < |lines| ==> Terminated(lines[i]) || (i == |lines| - 1 && pos == |data| && !fails))
  }

  lemma FramedGrows(data: seq<u8>, fails: bool, lines: seq<seq<u8>>, pos: nat, buf: seq<u8>)
    requires Framed(data, fails, lines, pos) && buf <= data[pos..] && WellFormed(buf)
    requires Terminated(buf) || (pos + |buf| == |data| && !fails)
    ensures Framed(data, fails, lines + [buf], pos + |buf|)
  {
    BufferOf(data, pos, lines, buf);
    hide Concat;
  }

  /** Where the loop ends, the lines are an exact framing. */
  lemma FramedEnds(data: seq<u8>, fails: bool, lines: seq<seq<u8>>, pos: nat, buf: seq<u8>, ending: Ending)
    requires Framed(data, fails, lines, pos) && buf <= data[pos..] && (buf != [] ==> NoNewlineBefore(buf, |buf| - 1))
    requires match ending
             case EndOfOutput => !fails && buf == [] && pos == |data|
             case ReadError => fails && pos + |buf| == |data| && |buf| <= MAX_LINE_BYTES && !Terminated(buf)
             case OverLong => |buf| == MAX_LINE_BYTES + 1
             case HungUp => buf != [] && |buf| <= MAX_LINE_BYTES
    ensures Framing(data, fails, lines, ending) && Buffered(data, lines, ending, lines + [buf])
  {
    BufferOf(data, pos, lines, buf);
    hide Concat;
    assert data[|Concat(lines)|..] == data[pos..];
    assert buf == data[pos..][..|buf|];
  }

  /** The reader loop on a child that outputs `data` and then, if `fails`, breaks; the receiver takes at most
      `room` lines before it goes away. No read ever buffers more than one byte over the cap. */
  method ReadLines(data: seq<u8>, fails: bool, room: nat)
    returns (lines: seq<seq<u8>>, ending: Ending, ghost buffers: seq<seq<u8>>)
    ensures Framing(data, fails, lines, ending)
    ensures |lines| <= room && (ending == HungUp ==> |lines| == room)
    ensures Buffered(data, lines, ending, buffers)
    ensures forall i :: 0 <= i < |buffers| ==> |buffers[i]| <= 8_388_609
  {
    hide Framing;
    hide Buffered;
    hide Framed;
    hide Concat;
    lines := [];
    var pos := 0;
    assert Framed(data, fails, lines, 0) by { NothingFramed(data, fails); }
    while true
      invariant pos <= |data| && Framed(data, fails, lines, pos)
      invariant |lines| <= room
      invariant forall i :: 0 <= i < |lines| ==> |lines[i]| <= MAX_LINE_BYTES
      decreases |data| - pos
    {
      var rest := data[pos..];
      var n := LineLength(rest, MAX_LINE_BYTES + 1);
      var buf := rest[..n];
      buffers := lines + [buf];
      if fails && n == |rest| && n <= MAX_LINE_BYTES && !Terminated(buf) {
        FramedEnds(data, fails, lines, pos, buf, ReadError);
        return lines, ReadError, buffers;
      }
      if n == 0 {
        FramedEnds(data, fails, lines, pos, buf, EndOfOutput);
        return lines, EndOfOutput, buffers;
      }
      if n > MAX_LINE_BYTES {
        FramedEnds(data, fails, lines, pos, buf, OverLong);
        return lines, OverLong, buffers;
      }
      if |lines| == room {
        FramedEnds(data, fails, lines, pos, buf, HungUp);
        return lines, HungUp, buffers;
      }
      FramedGrows(data, fails, lines, pos, buf);
      lines := lines + [buf];
      pos := pos + n;
    }
  }

  lemma NothingFramed(data: seq<u8>, fails: bool)
    ensures Framed(data, fails, [], 0)
  {
  }

  /** The bytes buffered so far are the next part of the data. */
  lemma BufferOf(data: seq<u8>, pos: nat, lines: seq<seq<u8>>, buf: seq<u8>)
    requires pos <= |data| && Concat(lines) == data[..pos] && buf <= data[pos..]
    ensures Concat(lines + [buf]) == data[..pos + |buf|] && (lines + [buf])[..|lines|] == lines
  {
    ConcatSnoc(lines, buf);
    SliceExtends(data, pos, buf);
    hide Concat;
  }

  lemma SliceExtends(data: seq<u8>, pos: nat, buf: seq<u8>)
    requires pos <= |data| && buf <= data[pos..]
    ensures data[..pos + |buf|] == data[..pos] + buf
  {
    assert data[pos..pos + |buf|] == data[pos..][..|buf|];
  }

  lemma {:induction false} ConcatPrefix(lines: seq<seq<u8>>, i: nat)
    requires i <= |lines|
    ensures |Concat(lines[..i])| <= |Concat(lines)| && Concat(lines[..i]) <= Concat(lines)
    ensures i < |lines| ==> |Concat(lines[..i])| + |lines[i]| <= |Concat(lines)|
    ensures i < |lines| ==> lines[i] == Concat(lines)[|Concat(lines[..i])|..|Concat(lines[..i])| + |lines[i]|]
  {
    if i == |lines| {
      assert lines[..i] == lines;
    } else {
      ConcatPrefix(lines[..|lines| - 1], i);
      assert lines[..|lines| - 1][..i] == lines[..i];
    }
  }

  /** Where line `i` lies in the data. */
  lemma LineInData(data: seq<u8>, fails: bool, lines: seq<seq<u8>>, ending: Ending, i: nat)
    requires Framing(data, fails, lines, ending) && i < |lines|
    ensures var at := |Concat(lines[..i])|;
            && at + |lines[i]| <= |data| && lines[i] == data[at..at + |lines[i]|]
            && (!Terminated(lines[i]) ==> at + |lines[i]| == |data| && !fails)
  {
    ConcatPrefix(lines, i);
    if !Terminated(lines[i]) {
      assert lines[..i + 1] == lines;
      assert lines == lines[..i] + [lines[i]];
      ConcatSnoc(lines[..i], lines[i]);
    }
  }

  /** The next `n` bytes can be emitted as a line: within the cap, and ended by a newline or by the output. */
  predicate LineFits(rest: seq<u8>, n: nat, fails: bool) {
    0 < n <= 8_388_608 && n <= |rest| && NoNewlineBefore(rest, n - 1)
      && (rest[n - 1] == 10 || (n == |rest| && !fails))
  }

  /** At most one length fits. */
  lemma OneLengthFits(rest: seq<u8>, n: nat, n': nat, fails: bool)
    requires LineFits(rest, n, fails) && LineFits(rest, n', fails)
    ensures n == n'
  {
  }

  lemma LineOfFramingFits(data: seq<u8>, fails: bool, lines: seq<seq<u8>>, ending: Ending, i: nat)
    requires Framing(data, fails, lines, ending) && i < |lines|
    ensures |Concat(lines[..i])| <= |data| && LineFits(data[|Concat(lines[..i])|..], |lines[i]|, fails)
    ensures lines[i] == data[|Concat(lines[..i])|..][..|lines[i]|]
  {
    LineInData(data, fails, lines, ending, i);
    var at, line := |Concat(lines[..i])|, lines[i];
    var rest := data[at..];
    assert line == rest[..|line|];
    assert WellFormed(line);
    assert rest[|line| - 1] == line[|line| - 1];
  }

  lemma EndingExcludesLine(data: seq<u8>, fails: bool, lines: seq<seq<u8>>, ending: Ending, n: nat)
    requires Framing(data, fails, lines, ending) && ending != HungUp
    ensures !LineFits(data[|Concat(lines)|..], n, fails)
  {
  }

  lemma {:induction false} SameLines(data: seq<u8>, fails: bool, lines: seq<seq<u8>>, ending: Ending,
                                     lines': seq<seq<u8>>, ending': Ending, i: nat)
    requires Framing(data, fails, lines, ending) && Framing(data, fails, lines', ending')
    requires i <= |lines| && i <= |lines'|
    ensures lines[..i] == lines'[..i]
  {
    hide Framing;
    hide LineFits;
    if i > 0 {
      SameLines(data, fails, lines, ending, lines', ending', i - 1);
      LineOfFramingFits(data, fails, lines, ending, i - 1);
      LineOfFramingFits(data, fails, lines', ending', i - 1);
      OneLengthFits(data[|Concat(lines[..i - 1])|..], |lines[i - 1]|, |lines'[i - 1]|, fails);
      assert lines[..i] == lines[..i - 1] + [lines[i - 1]];
      assert lines'[..i] == lines'[..i - 1] + [lines'[i - 1]];
    }
  }

  lemma NoMoreLines(data: seq<u8>, fails: bool, lines: seq<seq<u8>>, ending: Ending, lines': seq<seq<u8>>,
                    ending': Ending)
    requires Framing(data, fails, lines, ending) && Framing(data, fails, lines', ending') && ending != HungUp
    ensures |lines'| <= |lines|
  {
    hide LineFits;
    hide Framing;
    var n := |lines|;
    if n < |lines'| {
      SameLines(data, fails, lines, ending, lines', ending', n);
      assert lines[..n] == lines;
      EndingExcludesLine(data, fails, lines, ending, |lines'[n]|);
      LineOfFramingFits(data, fails, lines', ending', n);
    }
  }

  /** Framing leaves no choice: for every byte stream, the lines and the ending that satisfy it are the only ones
      that do, whatever the reader, as long as the receiver stays. */
  lemma FramingIsUnique(data: seq<u8>, fails: bool, lines: seq<seq<u8>>, ending: Ending, lines': seq<seq<u8>>,
                        ending': Ending)
    requires Framing(data, fails, lines, ending) && Framing(data, fails, lines', ending')
    requires ending != HungUp && ending' != HungUp
    ensures lines == lines' && ending == ending'
  {
    NoMoreLines(data, fails, lines, ending, lines', ending');
    NoMoreLines(data, fails, lines', ending', lines, ending);
    SameLines(data, fails, lines, ending, lines', ending', |lines|);
    assert lines[..|lines|] == lines && lines'[..|lines|] == lines';
  }
}
