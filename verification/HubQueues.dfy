/** Each connection's outbound queue inside the hub's runs: whatever the loops, readers, writers and senders do to it is a
    trace of the queue on its own, so what is proved of the queue holds in every run of the hub. */
module HubQueues {
  import opened Outbound
  import opened Hub

  /** What an event does to the queue of connection c. */
  ghost function OpsOn<C>(s: State<C>, e: Event<C>, c: C): seq<Op>
    requires Enabled(s, e) && c in s.reg.conns
  {
    var send := s.reg.conns[c].out.send;
    match e
    case SendMsg(d, f) => if d != c then [] else if send.closed then [Drop(f)] else [Push(f)]
    case StopReader(d) => if d == c && !send.closed then [Close] else []
    case WriterTake(d) => if d == c then [Take] else []
    case WriterStop(d) => if d == c then [Stop] else []
    case SendOne(h, d) =>
      if d != c || send.closed then [] else if send.HasRoom() then [Push(s.hubs[h].m)] else [Overflow(s.hubs[h].m)]
    case Advance(h) =>
      if send.closed then []
      else if s.hubs[h] == Greeting(c) then [Push(GREETING)]
      else if s.hubs[h] == Closing(c) then [Close]
      else []
    case _ => []
  }

  ghost function QueueOf<C>(s: State<C>, c: C): Out {
    if c in s.reg.conns then s.reg.conns[c].out else FRESH
  }

  /** What a run does to the queue of connection c, from the moment it connects. */
  ghost function Trace<C>(s: State<C>, es: seq<Event<C>>, c: C): seq<Op>
    requires IsRun(s, es)
    decreases es
  {
    if es == [] then []
    else (if c in s.reg.conns then OpsOn(s, es[0], c) else []) + Trace(Step(s, es[0]), es[1..], c)
  }

  lemma QueueAdvance<C>(s: State<C>, h: nat, c: C)
    requires Enabled(s, Event.Advance(h)) && c in s.reg.conns
    ensures var ops := OpsOn(s, Event.Advance(h), c);
            && c in Advanced(s, h).reg.conns && |ops| <= 1
            && (ops == [] ==> QueueOf(Advanced(s, h), c) == QueueOf(s, c))
            && (ops != [] ==> Possible(QueueOf(s, c), ops[0]) && QueueOf(Advanced(s, h), c) == Apply(QueueOf(s, c), ops[0]))
  {}

  /** An event does at most one thing to a queue. */
  lemma QueueStep<C>(s: State<C>, e: Event<C>, c: C)
    requires Enabled(s, e) && c in s.reg.conns
    ensures var ops := OpsOn(s, e, c);
            && c in Step(s, e).reg.conns && |ops| <= 1
            && (ops == [] ==> QueueOf(Step(s, e), c) == QueueOf(s, c))
            && (ops != [] ==> Possible(QueueOf(s, c), ops[0]) && QueueOf(Step(s, e), c) == Apply(QueueOf(s, c), ops[0]))
  {
    if e.Advance? { QueueAdvance(s, e.h, c); }
  }

  /** What each event does to a queue, in the queue's own terms: who adds a frame, who closes it, and what the writer
      takes. Nothing else changes it. */
  lemma QueueEffect<C>(s: State<C>, e: Event<C>, c: C)
    requires Enabled(s, e) && c in s.reg.conns
    ensures c in Step(s, e).reg.conns
    ensures var o, o' := s.reg.conns[c].out, Step(s, e).reg.conns[c].out;
            && o'.socket + o'.send.buf == o.socket + o.send.buf + (
                 if o.send.closed then []
                 else match e
                   case SendMsg(d, f) => if d == c then [f] else []
                   case Advance(h) => if s.hubs[h] == Greeting(c) then ["{\"data\":\"connection succeeded\"}"] else []
                   case SendOne(h, d) => if d == c && |o.send.buf| < o.send.cap then [s.hubs[h].m] else []
                   case _ => [])
            && (o'.send.closed <==>
                 || o.send.closed || e == StopReader(c)
                 || (e.Advance? && s.hubs[e.h] == Closing(c))
                 || (e.SendOne? && e.c == c && |o.send.buf| >= o.send.cap))
            && o'.socket == o.socket + (if e == WriterTake(c) then [o.send.buf[0]] else [])
            && (o'.writing <==> o.writing && e != WriterStop(c)) && o'.send.cap == o.send.cap
  {
    QueueStep(s, e, c);
  }

  /** A send waits exactly on an open queue that is full, the writer exactly on an empty one that is open. */
  lemma QueuePossible<C>(s: State<C>, c: C, f: Frame)
    requires !s.crashed && c in s.reg.conns
    ensures var o := s.reg.conns[c].out;
            && (Enabled(s, SendMsg(c, f)) <==> o.send.closed || |o.send.buf| < o.send.cap)
            && (Enabled(s, WriterTake(c)) <==> o.writing && o.send.buf != [])
            && (Enabled(s, WriterStop(c)) <==> o.writing && o.send.buf == [] && o.send.closed)
  {}

  lemma {:induction false} QueueRun<C>(s: State<C>, es: seq<Event<C>>, c: C)
    requires IsRun(s, es)
    ensures IsTrace(QueueOf(s, c), Trace(s, es, c)) && After(QueueOf(s, c), Trace(s, es, c)) == QueueOf(Run(s, es), c)
    decreases es
  {
    if es != [] {
      var s' := Step(s, es[0]);
      var rest := Trace(s', es[1..], c);
      QueueRun(s', es[1..], c);
      if c in s.reg.conns {
        QueueStep(s, es[0], c);
        var ops := OpsOn(s, es[0], c);
        assert if ops == [] then ops + rest == rest else (ops + rest)[0] == ops[0] && (ops + rest)[1..] == rest;
      } else {
        assert Trace(s, es, c) == rest;
      }
    }
  }

  /** In every run of the hub and for every connection: the frames accepted for it, greetings and broadcasts among them,
      are those on its socket followed by those in its queue, in order and at most 100; none is accepted after the first
      close; and a writer that has stopped has handed over all of them. */
  lemma HubFifo<C>(es: seq<Event<C>>, c: C)
    requires IsRun(Init<C>(), es)
    ensures var o, ops := QueueOf(Run(Init<C>(), es), c), Trace(Init<C>(), es, c);
            && IsTrace(FRESH, ops) && o == After(FRESH, ops)
            && Pushed(ops) == Pushed(UntilClosed(ops)) == o.socket + o.send.buf
            && |o.send.buf| <= SEND_CAPACITY
            && (!o.writing ==> o.socket == Pushed(ops))
  {
    QueueRun(Init<C>(), es, c);
    FifoConservation(Trace(Init<C>(), es, c));
    NothingAfterClose(FRESH, Trace(Init<C>(), es, c));
  }
}
