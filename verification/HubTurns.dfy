/** Whole turns of a dispatch loop: one event taken from its channel and handled. Every turn, and so every run of the loop
    on its own, is a run of the interleaved system. */
module HubTurns {
  import opened Outbound
  import opened Hub
  import opened HubInvariants
  import opened HubEvents

  /** The hub between two events of a dispatch loop. */
  datatype Snapshot<C(==)> = Snapshot(reg: Registry<C>, registerQ: seq<C>, loginQ: seq<LoginEvent<C>>,
                                      unregisterQ: seq<C>, broadcastQ: seq<Frame>)
  {
    /** Everything named is a connection. */
    ghost predicate WF() {
      && reg.Closed()
      && (forall c | c in registerQ :: c in reg.conns)
      && (forall c | c in unregisterQ :: c in reg.conns)
    }

    predicate Silent() {
      registerQ == [] && loginQ == [] && unregisterQ == [] && broadcastQ == []
    }
  }

  function Seen<C>(s: State<C>): Snapshot<C> {
    Snapshot(s.reg, s.registerQ, s.loginQ, s.unregisterQ, s.broadcastQ)
  }

  predicate Holds<C>(w: Snapshot<C>, q: Queue) {
    match q
    case RegisterQ => w.registerQ != []
    case LoginQ => w.loginQ != []
    case UnregisterQ => w.unregisterQ != []
    case BroadcastQ => w.broadcastQ != []
  }

  /** The greeting went out to an open queue; the writer may have made room for it. */
  predicate Greeted(o: Out, o': Out) {
    && !o.send.closed && !o'.send.closed && o'.writing == o.writing && o'.send.cap == o.send.cap
    && o'.Accepted() == o.Accepted() + [GREETING] && o.socket <= o'.socket && 0 < |o'.send.buf| <= o.send.cap
  }

  /** Handling the event at the head of a channel panics: it would send to a closed queue, or close one. */
  ghost predicate Panics<C>(w: Snapshot<C>, q: Queue)
    requires w.WF() && Holds(w, q)
  {
    match q
    case RegisterQ => w.reg.conns[w.registerQ[0]].out.send.closed
    case LoginQ => false
    case UnregisterQ => Evicts(w.reg, w.unregisterQ[0]) && w.reg.conns[w.unregisterQ[0]].out.send.closed
    case BroadcastQ => !AllOpen(w.reg, w.reg.clients)
  }

  /** The event at the head of one channel, and no other, is taken and has its whole effect. */
  ghost predicate Handled<C>(w: Snapshot<C>, w': Snapshot<C>, q: Queue) {
    && w.WF() && w'.WF() && Holds(w, q) && !Panics(w, q)
    && match q
       case RegisterQ =>
         var c := w.registerQ[0];
         && c in w'.reg.conns && Greeted(w.reg.conns[c].out, w'.reg.conns[c].out)
         && w' == w.(registerQ := w.registerQ[1..], reg := SetOut(AddClients(w.reg, c), c, w'.reg.conns[c].out))
       case LoginQ => w' == w.(loginQ := w.loginQ[1..], reg := OnLogin(w.reg, w.loginQ[0]))
       case UnregisterQ => w' == w.(unregisterQ := w.unregisterQ[1..], reg := OnUnregister(w.reg, w.unregisterQ[0]))
       case BroadcastQ =>
         w' == w.(broadcastQ := w.broadcastQ[1..], reg := Delivered(w.reg, w.broadcastQ[0], w.reg.clients))
  }

  lemma RegisterHandled<C>(w: Snapshot<C>, w': Snapshot<C>, c: C, o: Out)
    requires w.WF() && w'.WF() && w.registerQ != [] && c == w.registerQ[0]
    requires w' == Snapshot(SetOut(AddClients(w.reg, c), c, o), w.registerQ[1..], w.loginQ, w.unregisterQ, w.broadcastQ)
    requires w.reg.conns[c].out.send.closed || Greeted(w.reg.conns[c].out, o)
    ensures Panics(w, RegisterQ) || Handled(w, w', RegisterQ)
  {}

  lemma UnregisterHandled<C>(w: Snapshot<C>, w': Snapshot<C>)
    requires w.WF() && w'.WF() && w.unregisterQ != []
    requires w' == w.(unregisterQ := w.unregisterQ[1..], reg := OnUnregister(w.reg, w.unregisterQ[0]))
    ensures Panics(w, UnregisterQ) || Handled(w, w', UnregisterQ)
  {}

  lemma BroadcastHandled<C>(w: Snapshot<C>, w': Snapshot<C>)
    requires w.WF() && w'.WF() && w.broadcastQ != [] && AllOpen(w.reg, w.reg.clients)
    requires w' == w.(broadcastQ := w.broadcastQ[1..], reg := Delivered(w.reg, w.broadcastQ[0], w.reg.clients))
    ensures Handled(w, w', BroadcastQ)
  {}

  ghost predicate Turn<C>(w: Snapshot<C>, w': Snapshot<C>) {
    exists q :: Handled(w, w', q)
  }

  ghost predicate Turns<C>(trace: seq<Snapshot<C>>) {
    forall i | 0 < i < |trace| :: Turn(trace[i - 1], trace[i])
  }

  // ---------------------------------------------------------------- a turn is a run of the interleaved system

  /** Steps of loop h, and of writers. */
  ghost predicate Own<C>(h: nat, es: seq<Event<C>>) {
    forall e | e in es ::
      match e
      case Pick(g, _) => g == h
      case Advance(g) => g == h
      case SendOne(g, _) => g == h
      case WriterTake(_) => true
      case _ => false
  }

  /** What the writer leaves of a queue after k frames. */
  function Taken(o: Out, k: nat): Out
    requires k <= |o.send.buf|
  {
    o.(socket := o.socket + o.send.buf[..k], send := o.send.(buf := o.send.buf[k..]))
  }

  lemma TakenOnce<C>(r: Registry<C>, c: C, k: nat)
    requires c in r.conns && r.conns[c].out.writing && 0 < k <= |r.conns[c].out.send.buf|
    ensures var o' := Apply(r.conns[c].out, Take);
            SetOut(SetOut(r, c, o'), c, Taken(o', k - 1)) == SetOut(r, c, Taken(r.conns[c].out, k))
  {
    var o := r.conns[c].out;
    assert Taken(Apply(o, Take), k - 1) == Taken(o, k) by {
      assert o.send.buf[..k] == [o.send.buf[0]] + o.send.buf[1..][..k - 1];
    }
    assert SetOut(SetOut(r, c, Apply(o, Take)), c, Taken(o, k)).conns == SetOut(r, c, Taken(o, k)).conns;
  }

  lemma {:induction false} Takes<C>(s: State<C>, h: nat, c: C, k: nat) returns (es: seq<Event<C>>)
    requires !s.crashed && c in s.reg.conns && s.reg.conns[c].out.writing && k <= |s.reg.conns[c].out.send.buf|
    ensures IsRun(s, es) && Own(h, es)
    ensures Run(s, es) == s.(reg := SetOut(s.reg, c, Taken(s.reg.conns[c].out, k)))
    decreases k
  {
    var o := s.reg.conns[c].out;
    if k == 0 {
      assert Taken(o, 0) == o && SetOut(s.reg, c, o).conns == s.reg.conns;
      es := [];
    } else {
      var e := WriterTake(c);
      var s' := Step(s, e);
      assert s' == s.(reg := SetOut(s.reg, c, Apply(o, Take)));
      TakenOnce(s.reg, c, k);
      var rest := Takes(s', h, c, k - 1);
      Cons(s, e, rest);
      es := [e] + rest;
    }
  }

  /** A greeting: the writer makes room, then the frame is sent. */
  lemma GreetedIsRun<C>(s: State<C>, h: nat, o: Out) returns (es: seq<Event<C>>)
    requires !s.crashed && h in s.hubs && s.hubs[h].Greeting? && s.hubs[h].c in s.reg.conns
    requires Sound(s.reg.conns[s.hubs[h].c].out) && Greeted(s.reg.conns[s.hubs[h].c].out, o)
    ensures IsRun(s, es) && Own(h, es)
    ensures Run(s, es).reg == SetOut(s.reg, s.hubs[h].c, o) && Run(s, es).hubs == s.hubs[h := Idle]
    ensures Seen(Run(s, es)) == Seen(s).(reg := Run(s, es).reg) && !Run(s, es).crashed
  {
    var c := s.hubs[h].c;
    var before := s.reg.conns[c].out;
    var k := |o.socket| - |before.socket|;
    TakenThenGreeted(before, o);
    var takes := Takes(s, h, c, k);
    var s' := Run(s, takes);
    var e := Event.Advance(h);
    One(s', e);
    Append(s, takes, [e]);
    assert SetOut(s'.reg, c, o).conns == SetOut(s.reg, c, o).conns;
    es := takes + [e];
  }

  lemma TakenThenGreeted(before: Out, o: Out)
    requires Greeted(before, o)
    ensures var k := |o.socket| - |before.socket|;
            0 <= k <= |before.send.buf| && Taken(before, k).send.HasRoom() && Sent(Taken(before, k), GREETING) == o
  {
    var k := |o.socket| - |before.socket|;
    assert |o.Accepted()| == |before.Accepted()| + 1;
    assert o.socket == o.Accepted()[..|o.socket|] && o.send.buf == o.Accepted()[|o.socket|..];
    assert o.socket == before.socket + before.send.buf[..k];
    assert o.send.buf == before.send.buf[k..] + [GREETING];
  }

  lemma RegisterStarts<C>(s: State<C>, h: nat) returns (es: seq<Event<C>>)
    requires !s.crashed && h in s.hubs && s.hubs[h] == Idle && s.registerQ != []
    ensures IsRun(s, es) && Own(h, es)
    ensures var c := s.registerQ[0];
            Run(s, es) == s.(registerQ := s.registerQ[1..], reg := AddClients(s.reg, c), hubs := s.hubs[h := Greeting(c)],
                             log := s.log + [Registered(c)])
  {
    es := [Pick(h, RegisterQ), Event.Advance(h)];
    Two(s, es[0], es[1]);
    assert s.hubs[h := GotRegister(s.registerQ[0])][h := Greeting(s.registerQ[0])] == s.hubs[h := Greeting(s.registerQ[0])];
  }

  lemma RegisterIsRun<C>(s: State<C>, h: nat, w: Snapshot<C>) returns (es: seq<Event<C>>)
    requires OutsSound(s) && !s.crashed && h in s.hubs && s.hubs[h] == Idle && Handled(Seen(s), w, RegisterQ)
    ensures IsRun(s, es) && Own(h, es) && Seen(Run(s, es)) == w && Run(s, es).hubs == s.hubs && !Run(s, es).crashed
  {
    var c := s.registerQ[0];
    var a := RegisterStarts(s, h);
    var s' := Run(s, a);
    var b := GreetedIsRun(s', h, w.reg.conns[c].out);
    Append(s, a, b);
    assert s'.hubs[h := Idle] == s.hubs;
    es := a + b;
  }

  lemma LoginIsRun<C>(s: State<C>, h: nat, w: Snapshot<C>) returns (es: seq<Event<C>>)
    requires !s.crashed && h in s.hubs && s.hubs[h] == Idle && Handled(Seen(s), w, LoginQ)
    ensures IsRun(s, es) && Own(h, es) && Seen(Run(s, es)) == w && Run(s, es).hubs == s.hubs && !Run(s, es).crashed
  {
    var pick := Pick(h, LoginQ);
    var s' := Step(s, pick);
    var rest := LoginAlone(s', h);
    Cons(s, pick, rest);
    assert s'.hubs[h := Idle] == s.hubs;
    es := [pick] + rest;
  }

  lemma UnregisterIsRun<C>(s: State<C>, h: nat, w: Snapshot<C>) returns (es: seq<Event<C>>)
    requires !s.crashed && h in s.hubs && s.hubs[h] == Idle && Handled(Seen(s), w, UnregisterQ)
    ensures IsRun(s, es) && Own(h, es) && Seen(Run(s, es)) == w && Run(s, es).hubs == s.hubs && !Run(s, es).crashed
  {
    var pick := Pick(h, UnregisterQ);
    var s' := Step(s, pick);
    var rest := UnregisterAlone(s', h);
    Cons(s, pick, rest);
    assert s'.hubs[h := Idle] == s.hubs;
    es := [pick] + rest;
  }

  lemma ListSet<C>(todo: set<C>) returns (order: seq<C>)
    ensures Lists(order, todo)
    decreases |todo|
  {
    if todo == {} {
      return [];
    }
    var c :| c in todo;
    var rest := ListSet(todo - {c});
    order := [c] + rest;
    assert order[1..] == rest;
  }

  lemma DeliveredIsRun<C>(s: State<C>, h: nat) returns (es: seq<Event<C>>)
    requires !s.crashed && h in s.hubs && s.hubs[h].Sending? && AllOpen(s.reg, s.hubs[h].todo)
    ensures IsRun(s, es) && Own(h, es)
    ensures Run(s, es) == s.(reg := Delivered(s.reg, s.hubs[h].m, s.hubs[h].todo), hubs := s.hubs[h := Idle])
  {
    var m, todo, last := s.hubs[h].m, s.hubs[h].todo, Event.Advance(h);
    var order := ListSet(todo);
    BroadcastAnyOrder(s, h, m, todo, order);
    var sends := SendAll(h, order);
    var s' := Run(s, sends);
    One(s', last);
    Append(s, sends, [last]);
    assert s'.hubs[h := Idle] == s.hubs[h := Idle];
    es := sends + [last];
  }

  lemma BroadcastIsRun<C>(s: State<C>, h: nat, w: Snapshot<C>) returns (es: seq<Event<C>>)
    requires !s.crashed && h in s.hubs && s.hubs[h] == Idle && Handled(Seen(s), w, BroadcastQ)
    ensures IsRun(s, es) && Own(h, es) && Seen(Run(s, es)) == w && Run(s, es).hubs == s.hubs && !Run(s, es).crashed
  {
    var a := [Pick(h, BroadcastQ), Event.Advance(h)];
    Two(s, a[0], a[1]);
    var s' := Run(s, a);
    var b := DeliveredIsRun(s', h);
    Append(s, a, b);
    assert s'.hubs[h := Idle] == s.hubs;
    es := a + b;
  }

  /** A turn of an idle loop is a run of the interleaved system, by that loop and a writer alone. */
  lemma TurnIsRun<C>(s: State<C>, h: nat, w: Snapshot<C>) returns (es: seq<Event<C>>)
    requires OutsSound(s) && !s.crashed && h in s.hubs && s.hubs[h] == Idle && Turn(Seen(s), w)
    ensures IsRun(s, es) && Own(h, es) && Seen(Run(s, es)) == w && Run(s, es).hubs == s.hubs && !Run(s, es).crashed
  {
    var q :| Handled(Seen(s), w, q);
    match q
    case RegisterQ => es := RegisterIsRun(s, h, w);
    case LoginQ => es := LoginIsRun(s, h, w);
    case UnregisterQ => es := UnregisterIsRun(s, h, w);
    case BroadcastQ => es := BroadcastIsRun(s, h, w);
  }

  /** So is a sequence of turns: whatever holds in all reachable states holds after the loop in memory has run. */
  lemma {:induction false} TurnsAreRun<C>(s: State<C>, h: nat, trace: seq<Snapshot<C>>) returns (es: seq<Event<C>>)
    requires OutsSound(s) && !s.crashed && h in s.hubs && s.hubs[h] == Idle
    requires trace != [] && trace[0] == Seen(s) && Turns(trace)
    ensures IsRun(s, es) && Own(h, es) && Seen(Run(s, es)) == trace[|trace| - 1] && !Run(s, es).crashed
    decreases |trace|
  {
    if |trace| == 1 {
      return [];
    }
    var a := TurnIsRun(s, h, trace[1]);
    var s' := Run(s, a);
    RunOutsSound(s, a);
    forall i | 0 < i < |trace| - 1 ensures Turn(trace[1..][i - 1], trace[1..][i]) {
      assert Turn(trace[i], trace[i + 1]);
    }
    var b := TurnsAreRun(s', h, trace[1..]);
    Append(s, a, b);
    es := a + b;
  }

  lemma {:induction false} RunOutsSound<C>(s: State<C>, es: seq<Event<C>>)
    requires OutsSound(s) && IsRun(s, es)
    ensures OutsSound(Run(s, es))
    decreases es
  {
    if es != [] {
      OutsKept(s, es[0]);
      RunOutsSound(Step(s, es[0]), es[1..]);
    }
  }

  lemma GreetPanicIsRun<C>(s: State<C>, h: nat) returns (es: seq<Event<C>>)
    requires WF(s) && !s.crashed && h in s.hubs && s.hubs[h] == Idle
    requires s.registerQ != [] && s.reg.conns[s.registerQ[0]].out.send.closed
    ensures IsRun(s, es) && Own(h, es) && Run(s, es).crashed
  {
    var go := Event.Advance(h);
    var a := RegisterStarts(s, h);
    One(Run(s, a), go);
    Append(s, a, [go]);
    es := a + [go];
  }

  lemma SendPanicIsRun<C>(s: State<C>, h: nat, c: C) returns (es: seq<Event<C>>)
    requires WF(s) && !s.crashed && h in s.hubs && s.hubs[h] == Idle
    requires s.broadcastQ != [] && c in s.reg.clients && s.reg.conns[c].out.send.closed
    ensures IsRun(s, es) && Own(h, es) && Run(s, es).crashed
  {
    es := [Pick(h, BroadcastQ), Event.Advance(h), SendOne(h, c)];
    Three(s, es[0], es[1], es[2]);
  }

  /** A turn that panics is a run that crashes. */
  lemma PanicIsRun<C>(s: State<C>, h: nat, q: Queue) returns (es: seq<Event<C>>)
    requires WF(s) && !s.crashed && h in s.hubs && s.hubs[h] == Idle
    requires Seen(s).WF() && Holds(Seen(s), q) && Panics(Seen(s), q)
    ensures IsRun(s, es) && Own(h, es) && Run(s, es).crashed
  {
    match q
    case RegisterQ => es := GreetPanicIsRun(s, h);
    case BroadcastQ =>
      var c :| c in s.reg.clients && s.reg.conns[c].out.send.closed;
      es := SendPanicIsRun(s, h, c);
    case UnregisterQ =>
      var pick := Pick(h, UnregisterQ);
      var rest := UnregisterAlone(Step(s, pick), h);
      Cons(s, pick, rest);
      es := [pick] + rest;
  }
}
