/** The server-sent-events byte reader: notifications turned into frames and handed out in pieces of any size. */
module Sse {
  import opened Base

  /** What a wait on the notification channel yields. */
  datatype Signal = Notification(text: string) | Idle | Disconnected

  const CONNECTED: string := ": connected\n\n"

  function Frame(signal: Signal): string
    requires !signal.Disconnected?
  {
    match signal
    case Notification(text) => "data: " + text + "\n\n"
    case Idle => ": keepalive\n\n"
  }

  /** The frames of the signals up to the disconnect. */
  function Frames(signals: seq<Signal>): string {
    if signals == [] || signals[0].Disconnected? then "" else Frame(signals[0]) + Frames(signals[1..])
  }

  /** The reader: the frame being handed out, how much of it is out, and the signals to come. The end of the
      signals counts as a disconnect. */
  datatype Reader = Reader(buf: string, pos: nat, signals: seq<Signal>) {
    predicate Valid() { pos <= |buf| }

    /** Everything still to be handed out. */
    function Remaining(): string
      requires Valid()
    {
      buf[pos..] + Frames(signals)
    }
  }

  function Start(signals: seq<Signal>): Reader {
    Reader(CONNECTED, 0, signals)
  }

  function Refill(r: Reader): Reader {
    if r.pos < |r.buf| || r.signals == [] || r.signals[0].Disconnected? then r
    else Reader(Frame(r.signals[0]), 0, r.signals[1..])
  }

  /** One `read` into a buffer of `size` bytes: the new reader and the bytes handed out. */
  function AfterRead(r: Reader, size: nat): (p: (Reader, string))
    requires r.Valid()
    ensures p.0.Valid() && |p.1| <= size
  {
    var r' := Refill(r);
    var n := if size < |r'.buf| - r'.pos then size else |r'.buf| - r'.pos;
    (r'.(pos := r'.pos + n), r'.buf[r'.pos..r'.pos + n])
  }

  class SseReader {
    var rx: seq<Signal>
    var buf: string
    var pos: nat

    ghost predicate Valid()
      reads this
    {
      View().Valid()
    }

    ghost function View(): Reader
      reads this
    {
      Reader(buf, pos, rx)
    }

    constructor (rx: seq<Signal>)
      ensures Valid() && View() == Start(rx)
    {
      this.rx, buf, pos := rx, CONNECTED, 0;
    }

    method Read(out: array<char>) returns (n: nat)
      requires Valid()
      modifies this, out
      ensures Valid() && n <= out.Length
      ensures (View(), out[..n]) == AfterRead(old(View()), out.Length)
      ensures out[n..] == old(out[n..])
    {
      if pos >= |buf| {
        if rx == [] || rx[0].Disconnected? {
          assert out[..0] == buf[pos..pos];
          return 0;
        }
        buf := Frame(rx[0]);
        pos := 0;
        rx := rx[1..];
      }
      n := if out.Length < |buf| - pos then out.Length else |buf| - pos;
      forall i | 0 <= i < n {
        out[i] := buf[pos + i];
      }
      assert out[..n] == buf[pos..pos + n];
      pos := pos + n;
    }
  }

  /** The reads of a session, one per size: the bytes handed out, end to end. */
  function Deliver(r: Reader, sizes: seq<nat>): string
    requires r.Valid()
    decreases sizes
  {
    if sizes == [] then ""
    else
      var (r', bytes) := AfterRead(r, sizes[0]);
      bytes + Deliver(r', sizes[1..])
  }

  function After(r: Reader, sizes: seq<nat>): (r': Reader)
    requires r.Valid()
    ensures r'.Valid()
    decreases sizes
  {
    if sizes == [] then r else After(AfterRead(r, sizes[0]).0, sizes[1..])
  }

  lemma RefillKeepsRemaining(r: Reader)
    requires r.Valid()
    ensures Refill(r).Valid() && Refill(r).Remaining() == r.Remaining()
    ensures Refill(r).pos == |Refill(r).buf| ==> r.Remaining() == ""
  {
    var r' := Refill(r);
    if r' != r {
      assert r.buf[r.pos..] == "" && r'.buf[0..] == r'.buf;
    }
  }

  lemma HandOut(r: Reader, n: nat)
    requires r.Valid() && r.pos + n <= |r.buf|
    ensures r.buf[r.pos..r.pos + n] + r.(pos := r.pos + n).Remaining() == r.Remaining()
  {
    hide Frames;
    SplitSlice(r.buf, r.pos, n);
    Regroup(r.buf[r.pos..r.pos + n], r.buf[r.pos + n..], Frames(r.signals));
  }

  lemma SplitSlice(s: string, i: nat, n: nat)
    requires i + n <= |s|
    ensures s[i..i + n] + s[i + n..] == s[i..]
  {
  }

  lemma Regroup(a: string, b: string, c: string)
    ensures a + (b + c) == (a + b) + c
  {
  }

  /** A read moves bytes from what remains to what is out: none lost, none repeated, none reordered. */
  lemma ReadMovesBytes(r: Reader, size: nat)
    requires r.Valid()
    ensures var (r', bytes) := AfterRead(r, size);
            && bytes + r'.Remaining() == r.Remaining()
            && (size > 0 && r.Remaining() != "" ==> bytes != "")
  {
    hide Refill;
    hide Frames;
    RefillKeepsRemaining(r);
    var r1, n := Refill(r), if size < |Refill(r).buf| - Refill(r).pos then size else |Refill(r).buf| - Refill(r).pos;
    HandOut(r1, n);
    ReadTakes(r, size, n);
    hide Reader.Remaining;
    hide AfterRead;
  }

  lemma ReadTakes(r: Reader, size: nat, n: nat)
    requires r.Valid() && Refill(r).Valid()
    requires n == if size < |Refill(r).buf| - Refill(r).pos then size else |Refill(r).buf| - Refill(r).pos
    ensures var r1 := Refill(r); AfterRead(r, size) == (r1.(pos := r1.pos + n), r1.buf[r1.pos..r1.pos + n])
  {
    hide Refill;
  }

  /** For every sequence of buffer sizes, what has been handed out followed by what remains is the connected
      comment followed by the frames in order. */
  lemma {:induction false} DeliveryIsPrefix(r: Reader, sizes: seq<nat>)
    requires r.Valid()
    ensures Deliver(r, sizes) + After(r, sizes).Remaining() == r.Remaining()
    decreases sizes
  {
    if sizes != [] {
      var (r', bytes) := AfterRead(r, sizes[0]);
      ReadMovesBytes(r, sizes[0]);
      DeliveryIsPrefix(r', sizes[1..]);
      assert Deliver(r, sizes) + After(r, sizes).Remaining() ==
             bytes + (Deliver(r', sizes[1..]) + After(r', sizes[1..]).Remaining());
    }
  }

  /** Chunking does not matter: two clients reading the same signals with any buffers see the same bytes, as far
      as the shorter has read. */
  lemma ChunkingIrrelevant(signals: seq<Signal>, sizes: seq<nat>, sizes': seq<nat>)
    requires |Deliver(Start(signals), sizes)| <= |Deliver(Start(signals), sizes')|
    ensures Deliver(Start(signals), sizes) <= Deliver(Start(signals), sizes')
    ensures Deliver(Start(signals), sizes') <= CONNECTED + Frames(signals)
  {
    DeliveryIsPrefix(Start(signals), sizes);
    DeliveryIsPrefix(Start(signals), sizes');
    var all := Start(signals).Remaining();
    assert all == CONNECTED + Frames(signals);
    var d, d' := Deliver(Start(signals), sizes), Deliver(Start(signals), sizes');
    assert d == all[..|d|] && d' == all[..|d'|];
  }

  /** And with non-empty buffers, as many reads as there are bytes hand out everything. */
  lemma {:induction false} EverythingIsDelivered(r: Reader, sizes: seq<nat>)
    requires r.Valid() && |sizes| >= |r.Remaining()| && forall i :: 0 <= i < |sizes| ==> sizes[i] > 0
    ensures Deliver(r, sizes) == r.Remaining()
    decreases sizes
  {
    if sizes != [] {
      var (r', bytes) := AfterRead(r, sizes[0]);
      ReadMovesBytes(r, sizes[0]);
      EverythingIsDelivered(r', sizes[1..]);
    }
  }

  // ----- What a subscriber makes of the stream -----

  /** The place of the first blank line's first newline, or the end. */
  function BlankLine(s: string): (i: nat)
    ensures i <= |s|
  {
    if s == "" || "\n\n" <= s then 0 else 1 + BlankLine(s[1..])
  }

  /** A client of the stream: it cuts it at blank lines, keeps the data of each block and drops the comments. */
  function EventsIn(stream: string): seq<string>
    decreases |stream|
  {
    var i := BlankLine(stream);
    if i + 2 > |stream| then []
    else
      var rest := EventsIn(stream[i + 2..]);
      if "data: " <= stream[..i] then [stream[6..i]] + rest else rest
  }

  /** The texts of the notifications up to the disconnect. */
  function Messages(signals: seq<Signal>): seq<string> {
    if signals == [] || signals[0].Disconnected? then []
    else
      var rest := Messages(signals[1..]);
      if signals[0].Notification? then [signals[0].text] + rest else rest
  }

  lemma {:induction false} BlankLineAfter(block: string, rest: string)
    requires '\n' !in block && block != ""
    ensures BlankLine(block + "\n\n" + rest) == |block|
  {
    var s := block + "\n\n" + rest;
    assert s[0] == block[0] && s[0] != '\n';
    if |block| > 1 {
      BlankLineAfter(block[1..], rest);
      assert s[1..] == block[1..] + "\n\n" + rest;
    } else {
      assert s[1..] == "\n\n" + rest;
    }
  }

  /** A block of data yields its text, any other block nothing. */
  lemma BlockRead(block: string, rest: string)
    requires '\n' !in block && block != ""
    ensures EventsIn(block + "\n\n" + rest) == (if "data: " <= block then [block[6..]] else []) + EventsIn(rest)
  {
    var s := block + "\n\n" + rest;
    BlankLineAfter(block, rest);
    assert s[|block| + 2..] == rest && s[..|block|] == block;
    if "data: " <= block {
      assert s[6..|block|] == block[6..];
    }
  }

  lemma FrameRead(signal: Signal, rest: string)
    requires !signal.Disconnected? && (signal.Notification? ==> '\n' !in signal.text)
    ensures EventsIn(Frame(signal) + rest) == (if signal.Notification? then [signal.text] else []) + EventsIn(rest)
  {
    match signal
    case Notification(text) =>
      var block := "data: " + text;
      assert Frame(signal) + rest == block + "\n\n" + rest;
      BlockRead(block, rest);
      assert block[6..] == text;
    case Idle =>
      assert ": keepalive" + "\n\n" == ": keepalive\n\n";
      assert Frame(signal) + rest == ": keepalive" + "\n\n" + rest;
      assert ": keepalive"[0] != "data: "[0];
      BlockRead(": keepalive", rest);
  }

  lemma {:induction false} FramesRead(signals: seq<Signal>)
    requires forall i :: 0 <= i < |signals| && signals[i].Notification? ==> '\n' !in signals[i].text
    ensures EventsIn(Frames(signals)) == Messages(signals)
  {
    if signals != [] && !signals[0].Disconnected? {
      FrameRead(signals[0], Frames(signals[1..]));
      FramesRead(signals[1..]);
    }
  }

  /** A subscriber gets exactly the notifications sent before the disconnect, each once and in order, whatever the sizes
      of the buffers it reads with, as long as none is empty and it reads on to the end. */
  lemma SubscriberGetsMessages(signals: seq<Signal>, sizes: seq<nat>)
    requires forall i :: 0 <= i < |signals| && signals[i].Notification? ==> '\n' !in signals[i].text
    requires |sizes| >= |Start(signals).Remaining()| && forall i :: 0 <= i < |sizes| ==> sizes[i] > 0
    ensures EventsIn(Deliver(Start(signals), sizes)) == Messages(signals)
  {
    hide EventsIn;
    hide Deliver;
    hide Frames;
    hide Messages;
    EverythingIsDelivered(Start(signals), sizes);
    FramesRead(signals);
    StreamSoFar(signals);
    CommentRead(Frames(signals));
  }

  lemma CommentRead(rest: string)
    ensures EventsIn(": connected" + "\n\n" + rest) == EventsIn(rest)
  {
    hide EventsIn;
    BlockRead(": connected", rest);
    assert ": connected"[0] != "data: "[0];
    assert [] + EventsIn(rest) == EventsIn(rest);
  }

  lemma StreamSoFar(signals: seq<Signal>)
    ensures Start(signals).Remaining() == ": connected" + "\n\n" + Frames(signals)
  {
    hide Frames;
    assert ": connected" + "\n\n" == ": connected\n\n";
  }

  /** The bytes of a whole stream: with one notification, with one idle wait, and with nothing at all. */
  lemma NotificationBytes(text: string, sizes: seq<nat>)
    requires |sizes| >= 21 + |text| && forall i :: 0 <= i < |sizes| ==> sizes[i] > 0
    ensures Deliver(Start([Notification(text)]), sizes) == ": connected\n\n" + ("data: " + text + "\n\n")
  {
    OneFrame(Notification(text));
    hide Deliver;
    WholeStream([Notification(text)], sizes);
  }

  lemma IdleBytes(sizes: seq<nat>)
    requires |sizes| >= 26 && forall i :: 0 <= i < |sizes| ==> sizes[i] > 0
    ensures Deliver(Start([Idle]), sizes) == ": connected\n\n" + ": keepalive\n\n"
    ensures Deliver(Start([]), sizes) == ": connected\n\n" && Deliver(Start([Disconnected]), sizes) == ": connected\n\n"
  {
    OneFrame(Idle);
    hide Deliver;
    WholeStream([Idle], sizes);
    WholeStream([], sizes);
    WholeStream([Disconnected], sizes);
    assert ": connected\n\n" + "" == ": connected\n\n";
  }

  lemma OneFrame(signal: Signal)
    requires !signal.Disconnected?
    ensures Frames([signal]) == Frame(signal)
  {
    assert [signal][1..] == [];
  }

  lemma WholeStream(signals: seq<Signal>, sizes: seq<nat>)
    requires |sizes| >= |": connected\n\n"| + |Frames(signals)| && forall i :: 0 <= i < |sizes| ==> sizes[i] > 0
    ensures Deliver(Start(signals), sizes) == ": connected\n\n" + Frames(signals)
  {
    assert Start(signals).Remaining() == ": connected\n\n" + Frames(signals);
    EverythingIsDelivered(Start(signals), sizes);
  }
}
