/** When a dispatch loop panics. The panic is not recovered, so it ends the program; each part of the environment that can
    bring it about is shown to do so, and without them no run panics. */
module HubPanics {
  import opened UserKey
  import opened Outbound
  import opened Hub
  import opened HubInvariants
  import opened HubEvictions
  import opened HubHistory
  import opened HubTheorems
  import opened HubEvents
  import opened HubTurns
  import opened SingleHub
  import opened HubRace

  /** A step that panics: a greeting or a broadcast frame sent to a closed queue, or a closed queue closed by Unregister. */
  predicate Strikes<C>(s: State<C>, e: Event<C>)
    requires Enabled(s, e)
  {
    match e
    case Advance(h) => (s.hubs[h].Greeting? || s.hubs[h].Closing?) && s.reg.conns[s.hubs[h].c].out.send.closed
    case SendOne(_, c) => s.reg.conns[c].out.send.closed
    case _ => false
  }

  lemma CrashExactly<C>(s: State<C>, e: Event<C>)
    requires Enabled(s, e)
    ensures Step(s, e).crashed <==> Strikes(s, e)
  {}

  // ---------------------------------------------------------------- each connection is registered at most once

  /** A connection still to be registered: announced, queued, or held by a loop. */
  ghost predicate RegistersApart<C>(s: State<C>) {
    && (forall i | 0 <= i < |s.registerQ| :: s.registerQ[i] !in s.announcing)
    && (forall i, j | 0 <= i < j < |s.registerQ| :: s.registerQ[i] != s.registerQ[j])
    && (forall h | h in s.hubs && s.hubs[h].GotRegister? :: s.hubs[h].c !in s.announcing && s.hubs[h].c !in s.registerQ)
    && (forall g, h | g in s.hubs && h in s.hubs && s.hubs[g].GotRegister? && s.hubs[h].GotRegister? && g != h ::
          s.hubs[g].c != s.hubs[h].c)
  }

  /** A registered connection is not registered again. */
  ghost predicate RegisteredSpent<C>(s: State<C>) {
    forall i | 0 <= i < |s.log| && s.log[i].Registered? ::
      && s.log[i].c in s.reg.conns
      && s.log[i].c !in s.announcing && s.log[i].c !in s.registerQ
      && (forall h | h in s.hubs && s.hubs[h].GotRegister? :: s.hubs[h].c != s.log[i].c)
  }

  ghost predicate RegistersOnce<C>(log: seq<Entry<C>>) {
    forall i, j | 0 <= i < j < |log| && log[i].Registered? && log[j].Registered? :: log[i].c != log[j].c
  }

  ghost predicate Registering<C>(s: State<C>) {
    RegistersApart(s) && RegisteredSpent(s) && RegistersOnce(s.log)
  }

  /** Nothing about registering changes. */
  ghost predicate SameRegistering<C>(s: State<C>, s': State<C>) {
    && s.announcing == s'.announcing && s.registerQ == s'.registerQ && s.reg.conns.Keys == s'.reg.conns.Keys
    && (forall h | h in s'.hubs && s'.hubs[h].GotRegister? :: h in s.hubs && s.hubs[h] == s'.hubs[h])
    && s.log <= s'.log && (forall i | |s.log| <= i < |s'.log| :: !s'.log[i].Registered?)
  }

  lemma RegisteringSame<C>(s: State<C>, s': State<C>)
    requires Registering(s) && SameRegistering(s, s')
    ensures Registering(s')
  {}

  lemma SameRegisteringAdvance<C>(s: State<C>, h: nat)
    requires h in s.hubs && CanAdvance(s, s.hubs[h]) && !s.hubs[h].GotRegister?
    ensures SameRegistering(s, Advanced(s, h))
  {}

  lemma SameRegisteringOther<C>(s: State<C>, e: Event<C>)
    requires Enabled(s, e) && !e.Advance? && !e.Connect? && !e.PostRegister? && !(e.Pick? && e.q == RegisterQ)
    ensures SameRegistering(s, Step(s, e))
  {}

  lemma RegisteringArrive<C>(s: State<C>, e: Event<C>)
    requires WF(s) && Registering(s) && Enabled(s, e) && (e.Connect? || e.PostRegister?)
    ensures Registering(Step(s, e))
  {}

  lemma RegisteringPick<C>(s: State<C>, h: nat)
    requires Registering(s) && h in s.hubs && s.hubs[h] == Idle && s.registerQ != []
    ensures Registering(Picked(s, h, RegisterQ))
  {
    assert forall c | c in s.registerQ[1..] :: c in s.registerQ;
  }

  lemma RegisteringAdvance<C>(s: State<C>, h: nat)
    requires WF(s) && Registering(s) && h in s.hubs && s.hubs[h].GotRegister?
    ensures Registering(Advanced(s, h))
  {}

  lemma RegisteringKept<C>(s: State<C>, e: Event<C>)
    requires WF(s) && Registering(s) && Enabled(s, e)
    ensures Registering(Step(s, e))
  {
    if e.Connect? || e.PostRegister? {
      RegisteringArrive(s, e);
    } else if e.Pick? && e.q == RegisterQ {
      RegisteringPick(s, e.h);
    } else if e.Advance? && s.hubs[e.h].GotRegister? {
      RegisteringAdvance(s, e.h);
    } else {
      if e.Advance? { SameRegisteringAdvance(s, e.h); } else { SameRegisteringOther(s, e); }
      RegisteringSame(s, Step(s, e));
    }
  }

  /** Whatever the number of loops, a run registers each connection at most once, and never again. */
  lemma RegisteredOnce<C>(es: seq<Event<C>>)
    requires IsRun(Init<C>(), es)
    ensures RegistersOnce(Run(Init<C>(), es).log)
  {
    RunRegistering(Init<C>(), es);
  }

  lemma {:induction false} RunRegistering<C>(s: State<C>, es: seq<Event<C>>)
    requires WF(s) && Registering(s) && IsRun(s, es)
    ensures Registering(Run(s, es))
    decreases es
  {
    if es != [] {
      WFKept(s, es[0]);
      RegisteringKept(s, es[0]);
      RunRegistering(Step(s, es[0]), es[1..]);
    }
  }

  // ---------------------------------------------------------------- one loop in a quiet environment

  /** What the environment does: readers may stop, anyone may broadcast. */
  predicate Mild<C>(e: Event<C>, stops: bool, casts: bool) {
    Named(e) && (e.StopReader? ==> stops) && (e.PostBroadcast? ==> casts)
  }

  ghost predicate NoCasts<C>(s: State<C>) {
    s.broadcastQ == [] && forall h | h in s.hubs :: !s.hubs[h].GotBroadcast? && !s.hubs[h].Sending?
  }

  /** Only Unregister has closed a queue. */
  ghost predicate ClosedByShut<C>(s: State<C>) {
    forall c | c in s.reg.conns && s.reg.conns[c].out.send.closed :: Shut(c) in s.log
  }

  /** A connection about to be greeted has not joined yet. */
  ghost predicate GreetingEarly<C>(s: State<C>) {
    forall h, i | h in s.hubs && s.hubs[h].Greeting? && 0 <= i < |s.log| && s.log[i].Joined? :: s.log[i].c != s.hubs[h].c
  }

  ghost predicate Safe<C>(s: State<C>) {
    !s.crashed && NoCasts(s) && ClosedByShut(s) && GreetingEarly(s)
  }

  lemma ShutJoined<C>(s: State<C>, c: C)
    requires Evictions(s) && Shut(c) in s.log
    ensures exists i :: 0 <= i < |s.log| && s.log[i].Joined? && s.log[i].c == c
  {
    var j :| 0 <= j < |s.log| && s.log[j] == Left(c, true);
    assert Evicted(s.log, j);
  }

  /** With no broadcast about, the queues a loop greets or closes are open. */
  lemma NoStrike<C>(s: State<C>, e: Event<C>)
    requires Safe(s) && Evictions(s) && Enabled(s, e)
    ensures !Strikes(s, e)
  {
    if e.Advance? && s.hubs[e.h].Greeting? && Shut(s.hubs[e.h].c) in s.log {
      ShutJoined(s, s.hubs[e.h].c);
    }
  }

  lemma NoCastsKept<C>(s: State<C>, e: Event<C>)
    requires NoCasts(s) && Enabled(s, e) && !e.PostBroadcast?
    ensures NoCasts(Step(s, e))
  {}

  lemma ClosedByShutAdvance<C>(s: State<C>, h: nat)
    requires ClosedByShut(s) && h in s.hubs && CanAdvance(s, s.hubs[h])
    ensures ClosedByShut(Advanced(s, h))
  {}

  lemma ClosedByShutOther<C>(s: State<C>, e: Event<C>)
    requires ClosedByShut(s) && Enabled(s, e) && !e.Advance? && !e.StopReader? && !e.SendOne?
    ensures ClosedByShut(Step(s, e))
  {}

  lemma GreetingEarlyAdvance<C>(s: State<C>, h: nat)
    requires GreetingEarly(s) && OneLoop(s) && JoinsOrdered(s.log) && RegisteredSpent(s)
    requires h in s.hubs && CanAdvance(s, s.hubs[h])
    ensures GreetingEarly(Advanced(s, h))
  {
    assert forall g | g in s.hubs :: g == h;
    if s.hubs[h].GotRegister? {
      forall i | 0 <= i < |s.log| && s.log[i].Joined? ensures s.log[i].c != s.hubs[h].c {
        var j :| 0 <= j < i && s.log[j] == Registered(s.log[i].c);
      }
    }
  }

  lemma GreetingEarlyOther<C>(s: State<C>, e: Event<C>)
    requires GreetingEarly(s) && Enabled(s, e) && !e.Advance?
    ensures GreetingEarly(Step(s, e))
  {}

  lemma SafeKept<C>(s: State<C>, e: Event<C>)
    requires Safe(s) && InvUnique(s) && Registering(s) && OneLoop(s) && Enabled(s, e) && Mild(e, false, false)
    ensures Safe(Step(s, e))
  {
    NoStrike(s, e);
    CrashExactly(s, e);
    NoCastsKept(s, e);
    if e.Advance? {
      ClosedByShutAdvance(s, e.h);
      GreetingEarlyAdvance(s, e.h);
    } else {
      ClosedByShutOther(s, e);
      GreetingEarlyOther(s, e);
    }
  }

  lemma {:induction false} RunSafe<C>(s: State<C>, es: seq<Event<C>>)
    requires Safe(s) && InvUnique(s) && Registering(s) && OneLoop(s) && |s.hubs| + Loops(es) <= 1
    requires IsRun(s, es) && AllFresh(s, es) && forall e | e in es :: Mild(e, false, false)
    ensures !Run(s, es).crashed
    decreases es
  {
    if es != [] {
      assert es[0] in es && Mild(es[0], false, false) && FreshAddr(s, es[0]);
      InvUniqueKept(s, es[0]);
      RegisteringKept(s, es[0]);
      SafeKept(s, es[0]);
      HubsGrow(s, es[0]);
      RunSafe(Step(s, es[0]), es[1..]);
    }
  }

  lemma {:induction false} NoLoopNoPanic<C>(s: State<C>, es: seq<Event<C>>)
    requires !s.crashed && s.hubs == map[] && IsRun(s, es) && Loops(es) == 0
    ensures !Run(s, es).crashed
    decreases es
  {
    if es != [] { NoLoopNoPanic(Step(s, es[0]), es[1..]); }
  }

  // ---------------------------------------------------------------- runs that panic

  /** Steps that neither connect anyone nor start a loop. */
  ghost predicate Plain<C>(es: seq<Event<C>>, stops: bool, casts: bool) {
    forall e | e in es :: Mild(e, stops, casts) && !e.Connect? && !e.StartHub?
  }

  lemma {:induction false} PlainFresh<C>(s: State<C>, es: seq<Event<C>>)
    requires IsRun(s, es) && forall e | e in es :: !e.Connect?
    ensures AllFresh(s, es)
    decreases es
  {
    if es != [] { PlainFresh(Step(s, es[0]), es[1..]); }
  }

  /** A connection has arrived, and one or two loops have been started. */
  function Arrived<C(==)>(c: C, n: nat): State<C> {
    State(Registry(map[c := Conn("a", 0, "", FRESH)], {}, map[]), map[c := Reading], {c}, [], [], [], [],
          if n == 1 then map[0 := Idle] else map[0 := Idle, 1 := Idle], false, [])
  }

  lemma Arrives<C>(c: C, n: nat) returns (es: seq<Event<C>>)
    requires 1 <= n <= 2
    ensures IsRun(Init<C>(), es) && Run(Init<C>(), es) == Arrived(c, n) && Loops(es) == n
    ensures es != [] && es[0] == Connect(c, "a") && forall e | e in es[1..] :: e.StartHub?
  {
    var first := [Connect(c, "a"), StartHub(0)];
    Two(Init<C>(), first[0], first[1]);
    LoopsSum([first[0]], [first[1]]);
    assert first == [first[0]] + [first[1]];
    es := first;
    if n == 2 {
      var s, more := Run(Init<C>(), first), Event<C>.StartHub(1);
      One(s, more);
      Append(Init<C>(), first, [more]);
      LoopsSum(first, [more]);
      es := first + [more];
    }
  }

  ghost predicate Within<C>(es: seq<Event<C>>, stops: bool, casts: bool, n: nat) {
    (forall e | e in es :: Mild(e, stops, casts)) && Loops(es) <= n
  }

  /** A run that begins with the arrival is one the environment can bring about. */
  lemma ArrivedRun<C>(c: C, n: nat, rest: seq<Event<C>>, stops: bool, casts: bool) returns (es: seq<Event<C>>)
    requires 1 <= n <= 2 && IsRun(Arrived(c, n), rest) && Plain(rest, stops, casts)
    ensures IsRun(Init<C>(), es) && AllFresh(Init<C>(), es) && Within(es, stops, casts, n)
    ensures Run(Init<C>(), es) == Run(Arrived(c, n), rest)
  {
    var a := Arrives(c, n);
    Append(Init<C>(), a, rest);
    LoopsNone(rest);
    LoopsSum(a, rest);
    es := a + rest;
    assert es[1..] == a[1..] + rest && es == [es[0]] + es[1..];
    PlainFresh(Step(Init<C>(), es[0]), es[1..]);
  }

  /** Loop 0 has registered the connection and is about to greet it. */
  function Met<C(==)>(c: C, n: nat): State<C> {
    var s := Arrived(c, n);
    s.(announcing := {}, reg := s.reg.(clients := {c}), hubs := s.hubs[0 := Greeting(c)], log := [Registered(c)])
  }

  lemma Meets<C>(c: C, n: nat) returns (es: seq<Event<C>>)
    requires 1 <= n <= 2
    ensures IsRun(Arrived(c, n), es) && Plain(es, false, false) && Run(Arrived(c, n), es) == Met(c, n)
  {
    var s := Arrived(c, n);
    One(s, PostRegister(c));
    var a := RegisterStarts(Step(s, PostRegister(c)), 0);
    Append(s, [PostRegister(c)], a);
    es := [PostRegister(c)] + a;
  }

  /** A reader that stops before its connection is greeted. */
  lemma StopPanics<C>(c: C) returns (es: seq<Event<C>>)
    ensures IsRun(Arrived(c, 1), es) && Plain(es, true, false) && Run(Arrived(c, 1), es).crashed
  {
    var a := Meets(c, 1);
    var b := [StopReader(c), Event.Advance(0)];
    Two(Met(c, 1), b[0], b[1]);
    Append(Arrived(c, 1), a, b);
    es := a + b;
  }

  /** Frames sent to an open queue until it holds k more. */
  lemma {:induction false} Fill<C>(s: State<C>, c: C, k: nat) returns (es: seq<Event<C>>, o: Out)
    requires !s.crashed && c in s.reg.conns && !s.reg.conns[c].out.send.closed
    requires |s.reg.conns[c].out.send.buf| + k <= s.reg.conns[c].out.send.cap
    ensures IsRun(s, es) && Plain(es, false, false) && Run(s, es) == s.(reg := SetOut(s.reg, c, o))
    ensures !o.send.closed && |o.send.buf| == |s.reg.conns[c].out.send.buf| + k && o.send.cap == s.reg.conns[c].out.send.cap
    decreases k
  {
    if k == 0 {
      o := s.reg.conns[c].out;
      assert SetOut(s.reg, c, o).conns == s.reg.conns;
      es := [];
    } else {
      var e := SendMsg(c, "x");
      var s' := Step(s, e);
      var rest;
      rest, o := Fill(s', c, k - 1);
      Cons(s, e, rest);
      assert SetOut(s'.reg, c, o).conns == SetOut(s.reg, c, o).conns;
      es := [e] + rest;
    }
  }

  /** One connection, registered, and one idle loop. */
  ghost predicate Registered1<C>(s: State<C>, c: C, casts: seq<Frame>) {
    && WF(s) && !s.crashed && s.reg.conns.Keys == {c} && s.reg.clients == {c}
    && s.hubs == map[0 := Idle] && s.broadcastQ == casts
  }

  lemma Welcome<C>(c: C) returns (es: seq<Event<C>>)
    ensures IsRun(Arrived(c, 1), es) && Plain(es, false, false)
    ensures var s := Run(Arrived(c, 1), es);
            Registered1(s, c, []) && var send := s.reg.conns[c].out.send; !send.closed && |send.buf| == 1 && send.cap == 100
  {
    var a := Meets(c, 1);
    One(Met(c, 1), Event.Advance(0));
    Append(Arrived(c, 1), a, [Event.Advance(0)]);
    es := a + [Event.Advance(0)];
  }

  /** A broadcast closes the full queue and leaves the connection in the map. */
  lemma OverflowTurn<C>(s: State<C>, c: C) returns (es: seq<Event<C>>)
    requires Registered1(s, c, ["x"]) && !s.reg.conns[c].out.send.closed && !s.reg.conns[c].out.send.HasRoom()
    ensures IsRun(s, es) && Own(0, es)
    ensures Registered1(Run(s, es), c, []) && Run(s, es).reg.conns[c].out.send.closed
  {
    var w := Seen(s).(broadcastQ := [], reg := Delivered(s.reg, "x", s.reg.clients));
    DeliveredPartition(s.reg, "x", s.reg.clients, c);
    BroadcastHandled(Seen(s), w);
    es := BroadcastIsRun(s, 0, w);
    RunWF(s, es);
    assert Run(s, es).reg == w.reg && Run(s, es).broadcastQ == w.broadcastQ;
  }

  lemma Overflows<C>(s: State<C>, c: C) returns (es: seq<Event<C>>)
    requires Registered1(s, c, []) && !s.reg.conns[c].out.send.closed && !s.reg.conns[c].out.send.HasRoom()
    ensures IsRun(s, es) && Plain(es, false, true)
    ensures Registered1(Run(s, es), c, []) && Run(s, es).reg.conns[c].out.send.closed
  {
    var p := PostBroadcast("x");
    One(s, p);
    var a := OverflowTurn(Step(s, p), c);
    Append(s, [p], a);
    es := [p] + a;
  }

  /** The next broadcast panics. */
  lemma ClosedPanics<C>(s: State<C>, c: C) returns (es: seq<Event<C>>)
    requires Registered1(s, c, []) && s.reg.conns[c].out.send.closed
    ensures IsRun(s, es) && Plain(es, false, true) && Run(s, es).crashed
  {
    var p := PostBroadcast("x");
    One(s, p);
    var s1 := Run(s, [p]);
    var a := SendPanicIsRun(s1, 0, c);
    Append(s, [p], a);
    es := [p] + a;
  }

  lemma BroadcastPanics<C>(c: C) returns (es: seq<Event<C>>)
    ensures IsRun(Arrived(c, 1), es) && Plain(es, false, true) && Run(Arrived(c, 1), es).crashed
  {
    var s := Arrived(c, 1);
    var a := Welcome(c);
    var s1 := Run(s, a);
    var b, o := Fill(s1, c, 99);
    var s2 := Run(s1, b);
    RunWF(s1, b);
    var d := Overflows(s2, c);
    var e := ClosedPanics(Run(s2, d), c);
    Append(s2, d, e);
    Append(s1, b, d + e);
    Append(s, a, b + (d + e));
    es := a + (b + (d + e));
  }

  // ---------------------------------------------------------------- two loops

  /** Loop 0 has registered the connection and is about to greet it; nothing is in any channel, and loop 1 is idle. */
  ghost predicate Greets<C>(s: State<C>, c: C) {
    && WF(s) && OutsSound(s) && !s.crashed && c in s.reg.conns && s.hubs == map[0 := Greeting(c), 1 := Idle]
    && c in s.reg.clients && s.reg.users == map[] && s.loginQ == [] && s.unregisterQ == []
    && s.reg.conns[c].out == FRESH
  }

  lemma ToPost<C>(s: State<C>, c: C) returns (es: seq<Event<C>>)
    requires Greets(s, c) && s.readers == map[c := Reading] && s.reg.conns[c].userId == ""
    ensures IsRun(s, es) && Plain(es, false, false)
    ensures Run(s, es) == s.(readers := map[c := Posting(1, "u")],
                             reg := s.reg.(conns := s.reg.conns[c := s.reg.conns[c].(appId := 1, userId := "u")]))
  {
    es := [SetApp(c, 1, "u"), SetUser(c)];
    Two(s, es[0], es[1]);
  }

  lemma ToJoin<C>(s: State<C>, c: C) returns (es: seq<Event<C>>)
    requires Greets(s, c) && s.readers == map[c := Posting(1, "u")] && Identity(s, c) == LoginEvent(1, "u", c)
    ensures IsRun(s, es) && Plain(es, false, false)
    ensures var t := Run(s, es);
            Seen(t) == Seen(s).(reg := AddUsers(s.reg, GetUserKey(1, "u"), c)) && t.hubs == s.hubs && !t.crashed
  {
    var e := PostLogin(c);
    One(s, e);
    var s1 := Run(s, [e]);
    var w := Seen(s).(reg := AddUsers(s.reg, GetUserKey(1, "u"), c));
    assert Handled(Seen(s1), w, LoginQ);
    var a := LoginIsRun(s1, 1, w);
    Append(s, [e], a);
    es := [e] + a;
  }

  lemma ToClose<C>(s: State<C>, c: C) returns (es: seq<Event<C>>)
    requires Seen(s).WF() && !s.crashed && s.hubs == map[0 := Greeting(c), 1 := Idle] && s.unregisterQ == []
    requires c in s.reg.conns
    requires s.reg.users == map[s.reg.conns[c].GetKey() := c] && s.reg.conns[c].out == FRESH
    ensures IsRun(s, es) && Plain(es, false, false)
    ensures var t := Run(s, es); t.hubs == s.hubs && !t.crashed && c in t.reg.conns && t.reg.conns[c].out.send.closed
  {
    var e := PostUnregister(c);
    One(s, e);
    var s1 := Run(s, [e]);
    var w := Seen(s).(reg := OnUnregister(s.reg, c));
    assert Handled(Seen(s1), w, UnregisterQ);
    var a := UnregisterIsRun(s1, 1, w);
    Append(s, [e], a);
    es := [e] + a;
    assert Run(s1, a).reg == w.reg;
  }

  /** Loop 1 unregisters the connection, and then loop 0 greets it. */
  lemma GreetsClosed<C>(s: State<C>, c: C) returns (es: seq<Event<C>>)
    requires Seen(s).WF() && !s.crashed && s.hubs == map[0 := Greeting(c), 1 := Idle] && s.unregisterQ == []
    requires c in s.reg.conns
    requires s.reg.users == map[s.reg.conns[c].GetKey() := c] && s.reg.conns[c].out == FRESH
    ensures IsRun(s, es) && Plain(es, false, false) && Run(s, es).crashed
  {
    var a := ToClose(s, c);
    One(Run(s, a), Event.Advance(0));
    Append(s, a, [Event.Advance(0)]);
    es := a + [Event.Advance(0)];
  }

  /** Loop 1 logs the connection in and unregisters it before loop 0 has greeted it. */
  lemma OvertakenGreeting<C>(c: C) returns (es: seq<Event<C>>)
    ensures IsRun(Arrived(c, 2), es) && Plain(es, false, false) && Run(Arrived(c, 2), es).crashed
  {
    var s := Met(c, 2);
    var a := Meets(c, 2);
    var b := ToPost(s, c);
    var s1 := Run(s, b);
    var d := ToJoin(s1, c);
    var e := GreetsClosed(Run(s1, d), c);
    Append(s1, d, e);
    Append(s, b, d + e);
    Append(Arrived(c, 2), a, b + (d + e));
    es := a + (b + (d + e));
  }

  // ---------------------------------------------------------------- the exact condition

  predicate Gentle(stops: bool, casts: bool, n: nat) {
    n == 0 || (n == 1 && !stops && !casts)
  }

  lemma InitSafe<C>()
    ensures var s := Init<C>(); Safe(s) && InvUnique(s) && Registering(s) && OneLoop(s)
  {
    InitUnique<C>();
  }

  lemma GentleIsSafe<C>(es: seq<Event<C>>, stops: bool, casts: bool, n: nat)
    requires Gentle(stops, casts, n)
    requires IsRun(Init<C>(), es) && AllFresh(Init<C>(), es) && Within(es, stops, casts, n)
    ensures !Run(Init<C>(), es).crashed
  {
    if n == 0 {
      NoLoopNoPanic(Init<C>(), es);
    } else {
      InitSafe<C>();
      RunSafe(Init<C>(), es);
    }
  }

  lemma OthersPanic<C>(c: C, stops: bool, casts: bool, n: nat) returns (es: seq<Event<C>>)
    requires !Gentle(stops, casts, n)
    ensures IsRun(Init<C>(), es) && AllFresh(Init<C>(), es) && Within(es, stops, casts, n) && Run(Init<C>(), es).crashed
  {
    var rest: seq<Event<C>>;
    if n >= 2 {
      rest := OvertakenGreeting(c);
    } else if stops {
      rest := StopPanics(c);
    } else {
      rest := BroadcastPanics(c);
    }
    es := ArrivedRun(c, if n >= 2 then 2 else 1, rest, stops, casts);
  }

  /** No dispatch loop panics, in any run of up to n loops in which readers stop only if `stops` and broadcasts are posted
      only if `casts`, exactly when there is no loop, or a single one with neither stopping readers nor broadcasts. */
  lemma NoPanicExactly<C>(c: C, stops: bool, casts: bool, n: nat)
    ensures (forall es: seq<Event<C>> | IsRun(Init<C>(), es) && AllFresh(Init<C>(), es) && Within(es, stops, casts, n) ::
               !Run(Init<C>(), es).crashed)
       <==> n == 0 || (n == 1 && !stops && !casts)
  {
    if Gentle(stops, casts, n) {
      forall es: seq<Event<C>> | IsRun(Init<C>(), es) && AllFresh(Init<C>(), es) && Within(es, stops, casts, n)
        ensures !Run(Init<C>(), es).crashed
      {
        GentleIsSafe(es, stops, casts, n);
      }
    } else {
      var es := OthersPanic(c, stops, casts, n);
    }
  }
}
