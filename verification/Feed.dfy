/** The exchange feed: one goroutine reads frames, classifies them and pushes messages into a bounded inbox that the
    consumer empties at its own pace. Decoding is a parameter and may fail. */
module Feed {
  import opened Options
  import opened Outbound

  type Data = string
  type Body = string

  datatype Reply = Reply(kind: string, hasPayload: bool, rest: string)

  datatype Message = DiffOrders(body: Body) | Orders(body: Body) | Trades(body: Body) | Generic(reply: Reply)

  datatype Codec = Codec(
    reply: Data -> Option<Reply>,
    diff: Data -> Option<Body>,
    order: Data -> Option<Body>,
    trade: Data -> Option<Body>)

  /** What a read from the connection gives. */
  datatype Incoming = ReadError | Text(data: Data)

  const INBOX_CAPACITY := 8

  // ---------------------------------------------------------------- the filter and the map

  predicate KeepAlive(codec: Codec, x: Incoming) {
    x.Text? && codec.reply(x.data).Some? && codec.reply(x.data).value.kind == "ka"
  }

  /** The message a frame stands for, or nothing when the frame is an error. Only a known kind with a payload is decoded
      further; the same kind without one is passed on as a generic reply. */
  function Decoded(codec: Codec, x: Incoming): Option<Message> {
    if x.ReadError? || codec.reply(x.data).None? then None
    else
      var reply := codec.reply(x.data).value;
      if !reply.hasPayload then Some(Generic(reply))
      else if reply.kind == "diff-orders" then
        (match codec.diff(x.data) case Some(b) => Some(DiffOrders(b)) case None => None)
      else if reply.kind == "orders" then
        (match codec.order(x.data) case Some(b) => Some(Orders(b)) case None => None)
      else if reply.kind == "trades" then
        (match codec.trade(x.data) case Some(b) => Some(Trades(b)) case None => None)
      else Some(Generic(reply))
  }

  predicate Failing(codec: Codec, x: Incoming) {
    !KeepAlive(codec, x) && Decoded(codec, x).None?
  }

  /** The frames before the first error. */
  function UntilError(codec: Codec, xs: seq<Incoming>): (ys: seq<Incoming>)
    ensures ys <= xs && forall x | x in ys :: !Failing(codec, x)
    ensures |ys| < |xs| ==> Failing(codec, xs[|ys|])
  {
    if xs == [] || Failing(codec, xs[0]) then [] else [xs[0]] + UntilError(codec, xs[1..])
  }

  /** No message for a keep-alive, one for every other good frame. */
  function MessageOf(codec: Codec, x: Incoming): seq<Message>
    requires !Failing(codec, x)
  {
    if KeepAlive(codec, x) then [] else [Decoded(codec, x).value]
  }

  /** The messages of good frames, in order. */
  function Messages(codec: Codec, xs: seq<Incoming>): seq<Message>
    requires forall x | x in xs :: !Failing(codec, x)
  {
    if xs == [] then []
    else (assert xs[0] in xs; MessageOf(codec, xs[0])) + Messages(codec, xs[1..])
  }

  function FilterMap(codec: Codec, xs: seq<Incoming>): seq<Message> {
    Messages(codec, UntilError(codec, xs))
  }

  lemma {:induction false} UntilErrorSnoc(codec: Codec, xs: seq<Incoming>, x: Incoming)
    ensures UntilError(codec, xs + [x]) ==
      if |UntilError(codec, xs)| < |xs| then UntilError(codec, xs) else xs + if Failing(codec, x) then [] else [x]
  {
    if xs == [] {
      assert [] + [x] == [x] && [x][1..] == [];
    } else if !Failing(codec, xs[0]) {
      assert (xs + [x])[1..] == xs[1..] + [x];
      UntilErrorSnoc(codec, xs[1..], x);
      assert xs == [xs[0]] + xs[1..];
    }
  }

  lemma {:induction false} MessagesSnoc(codec: Codec, xs: seq<Incoming>, x: Incoming)
    requires (forall y | y in xs :: !Failing(codec, y)) && !Failing(codec, x)
    ensures Messages(codec, xs + [x]) == Messages(codec, xs) + MessageOf(codec, x)
  {
    if xs == [] {
      assert xs + [x] == [x] && [x][1..] == [];
    } else {
      assert (xs + [x])[1..] == xs[1..] + [x];
      MessagesSnoc(codec, xs[1..], x);
    }
  }

  /** One more frame, while there has been no error. */
  lemma FilterMapSnoc(codec: Codec, xs: seq<Incoming>, x: Incoming)
    requires |UntilError(codec, xs)| == |xs|
    ensures FilterMap(codec, xs + [x]) ==
      FilterMap(codec, xs) + if Failing(codec, x) then [] else MessageOf(codec, x)
    ensures |UntilError(codec, xs + [x])| == |xs| + 1 <==> !Failing(codec, x)
  {
    UntilErrorSnoc(codec, xs, x);
    assert UntilError(codec, xs) == xs;
    if Failing(codec, x) {
      assert xs + [] == xs;
    } else {
      MessagesSnoc(codec, xs, x);
    }
  }

  /** What each frame adds, kind by kind, while there has been no error: the three known kinds with a payload give their
      own message, decoded by their own decoder, or stop the reader if that refuses; "ka" gives nothing; every other reply,
      a known kind without a payload among them, is passed on as it is; what cannot be read or decoded stops the reader. */
  lemma FrameAdds(codec: Codec, xs: seq<Incoming>, x: Incoming)
    requires |UntilError(codec, xs)| == |xs|
    ensures var before, after := FilterMap(codec, xs), FilterMap(codec, xs + [x]);
            var stops := |UntilError(codec, xs + [x])| == |xs|;
            && (stops <==> |UntilError(codec, xs + [x])| != |xs| + 1) && (stops ==> after == before)
            && (x.ReadError? || codec.reply(x.data).None? ==> stops)
            && (x.Text? && codec.reply(x.data).Some? ==>
                  var reply := codec.reply(x.data).value;
                  match (reply.kind, reply.hasPayload)
                  case ("ka", _) => !stops && after == before
                  case ("diff-orders", true) =>
                    (match codec.diff(x.data) case None => stops case Some(b) => !stops && after == before + [DiffOrders(b)])
                  case ("orders", true) =>
                    (match codec.order(x.data) case None => stops case Some(b) => !stops && after == before + [Orders(b)])
                  case ("trades", true) =>
                    (match codec.trade(x.data) case None => stops case Some(b) => !stops && after == before + [Trades(b)])
                  case _ => !stops && after == before + [Generic(reply)])
  {
    FilterMapSnoc(codec, xs, x);
    UntilErrorSnoc(codec, xs, x);
  }

  /** Nothing comes of no frames, and nothing more of the frames after an error. */
  lemma NothingAdded(codec: Codec, xs: seq<Incoming>, x: Incoming)
    ensures FilterMap(codec, []) == [] && UntilError(codec, []) == []
    ensures |UntilError(codec, xs)| < |xs| ==> FilterMap(codec, xs + [x]) == FilterMap(codec, xs)
  {
    UntilErrorSnoc(codec, xs, x);
  }

  // ---------------------------------------------------------------- reader and consumer interleaved

  datatype State = State(
    read: nat,                     // frames read so far
    inbox: seq<Message>,
    pending: Option<Message>,      // the reader is blocked sending this one
    received: seq<Message>,        // by the consumer
    stopped: bool)                 // the reader has returned

  const INIT := State(0, [], None, [], false)

  datatype Event = Read | Push | Receive

  predicate Enabled(stream: seq<Incoming>, s: State, e: Event) {
    match e
    case Read => !s.stopped && s.pending.None? && s.read < |stream|
    case Push => s.pending.Some? && |s.inbox| < INBOX_CAPACITY
    case Receive => s.inbox != []
  }

  function Step(codec: Codec, stream: seq<Incoming>, s: State, e: Event): State
    requires Enabled(stream, s, e)
  {
    match e
    case Read =>
      var x := stream[s.read];
      var s' := s.(read := s.read + 1);
      if KeepAlive(codec, x) then s'
      else if Decoded(codec, x).None? then s'.(stopped := true)
      else s'.(pending := Decoded(codec, x))
    case Push => s.(inbox := s.inbox + [s.pending.value], pending := None)
    case Receive => s.(received := s.received + [s.inbox[0]], inbox := s.inbox[1..])
  }

  predicate IsRun(codec: Codec, stream: seq<Incoming>, s: State, es: seq<Event>)
    decreases es
  {
    es == [] || (Enabled(stream, s, es[0]) && IsRun(codec, stream, Step(codec, stream, s, es[0]), es[1..]))
  }

  function Run(codec: Codec, stream: seq<Incoming>, s: State, es: seq<Event>): State
    requires IsRun(codec, stream, s, es)
    decreases es
  {
    if es == [] then s else Run(codec, stream, Step(codec, stream, s, es[0]), es[1..])
  }

  function InTransit(s: State): seq<Message> {
    s.inbox + match s.pending case None => [] case Some(m) => [m]
  }

  ghost predicate Inv(codec: Codec, stream: seq<Incoming>, s: State) {
    && s.read <= |stream| && |s.inbox| <= INBOX_CAPACITY
    && s.received + InTransit(s) == FilterMap(codec, stream[..s.read])
    && (s.stopped ==> s.read > 0 && |UntilError(codec, stream[..s.read])| == s.read - 1)
    && (!s.stopped ==> |UntilError(codec, stream[..s.read])| == s.read)
  }

  lemma InvKept(codec: Codec, stream: seq<Incoming>, s: State, e: Event)
    requires Inv(codec, stream, s) && Enabled(stream, s, e)
    ensures Inv(codec, stream, Step(codec, stream, s, e))
  {
    if e.Read? {
      assert stream[..s.read + 1] == stream[..s.read] + [stream[s.read]];
      FilterMapSnoc(codec, stream[..s.read], stream[s.read]);
      UntilErrorSnoc(codec, stream[..s.read], stream[s.read]);
    }
  }

  lemma {:induction false} RunInv(codec: Codec, stream: seq<Incoming>, s: State, es: seq<Event>)
    requires Inv(codec, stream, s) && IsRun(codec, stream, s, es)
    ensures Inv(codec, stream, Run(codec, stream, s, es))
    decreases es
  {
    if es != [] {
      InvKept(codec, stream, s, es[0]);
      RunInv(codec, stream, Step(codec, stream, s, es[0]), es[1..]);
    }
  }

  /** In every reachable state the messages received, those in the inbox (at most 8) and the one awaiting a blocked send
      are, in order, the filter-map of the frames read; and the reader has stopped exactly at the first error. */
  lemma DispatcherRefinesFilterMap(codec: Codec, stream: seq<Incoming>, es: seq<Event>)
    requires IsRun(codec, stream, INIT, es)
    ensures var s := Run(codec, stream, INIT, es);
            && s.read <= |stream| && |s.inbox| <= 8
            && s.received + s.inbox + (if s.pending.Some? then [s.pending.value] else [])
                 == FilterMap(codec, stream[..s.read])
            && (s.stopped <==> exists i :: 0 <= i < s.read && Failing(codec, stream[i]))
            && (s.stopped ==> s.read > 0 && forall i | 0 <= i < s.read :: Failing(codec, stream[i]) <==> i == s.read - 1)
  {
    assert stream[..0] == [];
    RunInv(codec, stream, INIT, es);
    var s := Run(codec, stream, INIT, es);
    var good := UntilError(codec, stream[..s.read]);
    forall i | 0 <= i < |good| ensures !Failing(codec, stream[i]) { assert good[i] == stream[i] && good[i] in good; }
    if s.stopped { assert Failing(codec, stream[s.read - 1]); }
  }

  /** When nothing more can happen, the consumer has received the filter-map of the whole stream. */
  lemma NothingLost(codec: Codec, stream: seq<Incoming>, es: seq<Event>)
    requires IsRun(codec, stream, INIT, es)
    requires forall e :: !Enabled(stream, Run(codec, stream, INIT, es), e)
    ensures Run(codec, stream, INIT, es).received == FilterMap(codec, stream)
  {
    DispatcherRefinesFilterMap(codec, stream, es);
    var s := Run(codec, stream, INIT, es);
    assert !Enabled(stream, s, Receive) && !Enabled(stream, s, Event.Push) && !Enabled(stream, s, Read);
    if s.stopped {
      assert stream[..0] == [];
      RunInv(codec, stream, INIT, es);
      ErrorCuts(codec, stream, s.read);
    } else {
      assert stream[..s.read] == stream;
    }
  }

  /** Frames after an error make no difference. */
  lemma {:induction false} ErrorCuts(codec: Codec, stream: seq<Incoming>, n: nat)
    requires n <= |stream| && |UntilError(codec, stream[..n])| < n
    ensures UntilError(codec, stream) == UntilError(codec, stream[..n])
  {
    if !Failing(codec, stream[0]) {
      assert stream[..n][1..] == stream[1..][..n - 1];
      ErrorCuts(codec, stream[1..], n - 1);
    }
  }

  // ---------------------------------------------------------------- the reader in memory

  class Websocket {
    var inbox: Chan<Message>
    var received: seq<Message>     // what the consumer has taken from the inbox
    var connected: bool

    ghost predicate Valid()
      reads this
    {
      inbox.cap == INBOX_CAPACITY && |inbox.buf| <= INBOX_CAPACITY
    }

    constructor ()
      ensures Valid() && inbox == Chan([], INBOX_CAPACITY, false) && received == [] && connected
    {
      inbox, received, connected := Chan([], INBOX_CAPACITY, false), [], true;
    }

    /** A send to the inbox waits for the consumer to make room; the consumer may receive at any other time too. */
    method Send(m: Message)
      requires Valid()
      modifies this`inbox, this`received
      ensures Valid() && received + inbox.buf == old(received + inbox.buf) + [m]
    {
      var k :| 0 <= k <= |inbox.buf| && (inbox.HasRoom() || k > 0);
      assert inbox.HasRoom() || k > 0;
      assert |inbox.buf| - k < INBOX_CAPACITY;
      received := received + inbox.buf[..k];
      inbox := inbox.(buf := inbox.buf[k..] + [m]);
    }

    /** One turn of the reading loop: the switch on the reply's type, with its fall-through. */
    method Handle(codec: Codec, x: Incoming) returns (failed: bool)
      requires Valid()
      modifies this`inbox, this`received
      ensures Valid() && failed == Failing(codec, x)
      ensures received + inbox.buf == old(received + inbox.buf) + if failed then [] else MessageOf(codec, x)
      ensures x.ReadError? || codec.reply(x.data).None? ==> failed
      ensures x.Text? && codec.reply(x.data).Some? ==>
        var reply := codec.reply(x.data).value;
        var sent := (received + inbox.buf)[|old(received + inbox.buf)|..];
        match (reply.kind, reply.hasPayload)
        case ("ka", _) => !failed && sent == []
        case ("diff-orders", true) =>
          (match codec.diff(x.data) case None => failed case Some(b) => !failed && sent == [DiffOrders(b)])
        case ("orders", true) =>
          (match codec.order(x.data) case None => failed case Some(b) => !failed && sent == [Orders(b)])
        case ("trades", true) =>
          (match codec.trade(x.data) case None => failed case Some(b) => !failed && sent == [Trades(b)])
        case _ => !failed && sent == [Generic(reply)]
    {
      if x.ReadError? || codec.reply(x.data).None? {
        return true;
      }
      failed := false;
      var reply := codec.reply(x.data).value;
      if reply.kind == "diff-orders" {
        if reply.hasPayload {
          var diff := codec.diff(x.data);
          if diff.None? {
            return true;
          }
          Send(DiffOrders(diff.value));
          return;
        }
      } else if reply.kind == "ka" {
        return;
      } else if reply.kind == "orders" {
        if reply.hasPayload {
          var order := codec.order(x.data);
          if order.None? {
            return true;
          }
          Send(Orders(order.value));
          return;
        }
      } else if reply.kind == "trades" {
        if reply.hasPayload {
          var trade := codec.trade(x.data);
          if trade.None? {
            return true;
          }
          Send(Trades(trade.value));
          return;
        }
      }
      Send(Generic(reply));
    }

    /** The reading loop over the frames the connection delivers: it ends at the first error and closes the connection,
        or else waits for more. */
    method ReadLoop(codec: Codec, stream: seq<Incoming>)
      requires Valid() && connected
      modifies this
      ensures Valid() && received + inbox.buf == old(received + inbox.buf) + FilterMap(codec, stream)
      ensures connected <==> |UntilError(codec, stream)| == |stream|
    {
      for i := 0 to |stream|
        invariant Valid() && connected
        invariant |UntilError(codec, stream[..i])| == i
        invariant received + inbox.buf == old(received + inbox.buf) + FilterMap(codec, stream[..i])
      {
        FilterMapSnoc(codec, stream[..i], stream[i]);
        assert stream[..i + 1] == stream[..i] + [stream[i]];
        var failed := Handle(codec, stream[i]);
        if failed {
          connected := false;  // the deferred close
          ErrorCuts(codec, stream, i + 1);
          return;
        }
      }
      assert stream[..|stream|] == stream;
    }
  }
}
