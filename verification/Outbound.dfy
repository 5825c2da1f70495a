/** The outbound side of one connection: a bounded queue `Send` that any goroutine may fill or close,
    and the one writer goroutine that empties it into the socket. */
module Outbound {

  type Frame = string

  /** A buffered channel. */
  datatype Chan<T> = Chan(buf: seq<T>, cap: nat, closed: bool) {
    predicate HasRoom() { |buf| < cap }
  }

  const SEND_CAPACITY := 100

  datatype Out = Out(send: Chan<Frame>, socket: seq<Frame>, writing: bool) {
    /** Everything accepted so far: what reached the socket, then what is still buffered. */
    function Accepted(): seq<Frame> { socket + send.buf }
  }

  const FRESH := Out(Chan([], SEND_CAPACITY, false), [], true)

  /** What can happen to the queue. A send on a full open queue blocks: it is no step until room appears. */
  datatype Op =
    | Push(frame: Frame)      // a send that is accepted
    | Drop(frame: Frame)      // SendMsg on a closed queue: the panic is recovered
    | Overflow(frame: Frame)  // the hub's broadcast finds the queue full and closes it
    | Close                   // closed by the reader on its way out, or by the hub on Unregister
    | Take                    // the writer hands the first frame to the socket
    | Stop                    // the writer finds the queue closed and drained, and returns

  predicate Possible(o: Out, op: Op) {
    match op
    case Push(_) => !o.send.closed && o.send.HasRoom()
    case Drop(_) => o.send.closed
    case Overflow(_) => !o.send.closed && !o.send.HasRoom()
    case Close => !o.send.closed
    case Take => o.writing && o.send.buf != []
    case Stop => o.writing && o.send.buf == [] && o.send.closed
  }

  function Apply(o: Out, op: Op): Out
    requires Possible(o, op)
  {
    match op
    case Push(f) => o.(send := o.send.(buf := o.send.buf + [f]))
    case Drop(_) => o
    case Overflow(_) => o.(send := o.send.(closed := true))
    case Close => o.(send := o.send.(closed := true))
    case Take => o.(socket := o.socket + [o.send.buf[0]], send := o.send.(buf := o.send.buf[1..]))
    case Stop => o.(writing := false)
  }

  predicate IsTrace(o: Out, ops: seq<Op>)
    decreases ops
  {
    ops == [] || (Possible(o, ops[0]) && IsTrace(Apply(o, ops[0]), ops[1..]))
  }

  function After(o: Out, ops: seq<Op>): Out
    requires IsTrace(o, ops)
    decreases ops
  {
    if ops == [] then o else After(Apply(o, ops[0]), ops[1..])
  }

  /** The frames of the accepted sends of a run, in order. */
  function Pushed(ops: seq<Op>): seq<Frame> {
    if ops == [] then []
    else (if ops[0].Push? then [ops[0].frame] else []) + Pushed(ops[1..])
  }

  /** The part of a run up to and including the first operation that closes the queue. */
  function UntilClosed(ops: seq<Op>): seq<Op> {
    if ops == [] then []
    else if ops[0].Close? || ops[0].Overflow? then [ops[0]]
    else [ops[0]] + UntilClosed(ops[1..])
  }

  predicate Sound(o: Out) {
    && o.send.cap == SEND_CAPACITY
    && |o.send.buf| <= SEND_CAPACITY
    && (!o.writing ==> o.send.closed && o.send.buf == [])
  }

  lemma ApplySound(o: Out, op: Op)
    requires Sound(o) && Possible(o, op)
    ensures Sound(Apply(o, op))
    ensures Apply(o, op).Accepted() == o.Accepted() + if op.Push? then [op.frame] else []
    ensures o.socket <= Apply(o, op).socket
    ensures o.send.closed ==> Apply(o, op).send.closed && !op.Push?
  {}

  lemma {:induction false} RunFrom(o: Out, ops: seq<Op>)
    requires Sound(o) && IsTrace(o, ops)
    ensures Sound(After(o, ops))
    ensures After(o, ops).Accepted() == o.Accepted() + Pushed(ops)
    ensures o.socket <= After(o, ops).socket
    ensures o.send.closed ==> After(o, ops).send.closed && Pushed(ops) == []
    decreases ops
  {
    if ops != [] {
      var pushed := if ops[0].Push? then [ops[0].frame] else [];
      ApplySound(o, ops[0]);
      RunFrom(Apply(o, ops[0]), ops[1..]);
      assert o.Accepted() + pushed + Pushed(ops[1..]) == o.Accepted() + (pushed + Pushed(ops[1..]));
    }
  }

  /** First in, first out, nothing lost and nothing invented: under every interleaving of producers, closers and the
      writer, the accepted frames are those handed to the socket followed by those still buffered, at most 100 of them. */
  lemma FifoConservation(ops: seq<Op>)
    requires IsTrace(FRESH, ops)
    ensures var o := After(FRESH, ops);
            && Pushed(ops) == o.socket + o.send.buf
            && |o.send.buf| <= SEND_CAPACITY
            && (!o.writing ==> o.socket == Pushed(ops))
  {
    RunFrom(FRESH, ops);
  }

  /** Nothing is accepted once the queue has been closed. */
  lemma {:induction false} NothingAfterClose(o: Out, ops: seq<Op>)
    requires Sound(o) && IsTrace(o, ops)
    ensures Pushed(ops) == Pushed(UntilClosed(ops))
    decreases ops
  {
    if ops != [] {
      var rest := ops[1..];
      ApplySound(o, ops[0]);
      if ops[0].Close? || ops[0].Overflow? {
        RunFrom(Apply(o, ops[0]), rest);
        assert UntilClosed(ops)[1..] == [];
      } else {
        NothingAfterClose(Apply(o, ops[0]), rest);
        assert UntilClosed(ops)[1..] == UntilClosed(rest);
      }
    }
  }

  /** From a closed queue the writer alone finishes: as many steps as there are frames, then it stops with
      every accepted frame on the socket. */
  function Drain(o: Out): seq<Op>
    decreases |o.send.buf|
  {
    if o.send.buf == [] then [Stop]
    else [Take] + Drain(o.(socket := o.socket + [o.send.buf[0]], send := o.send.(buf := o.send.buf[1..])))
  }

  lemma {:induction false} WriterFinishes(o: Out)
    requires Sound(o) && o.send.closed && o.writing
    ensures IsTrace(o, Drain(o))
    ensures !After(o, Drain(o)).writing && After(o, Drain(o)).socket == o.Accepted()
    decreases |o.send.buf|
  {
    if o.send.buf == [] {
      assert Drain(o)[1..] == [];
    } else {
      var o' := Apply(o, Take);
      WriterFinishes(o');
      assert Drain(o)[1..] == Drain(o');
    }
  }
}
