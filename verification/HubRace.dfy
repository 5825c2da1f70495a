/** Two dispatch loops can leave a user that is no client. The program starts one loop for each connection. */
module HubRace {
  import opened UserKey
  import opened Outbound
  import opened Hub
  import opened SingleHub

  /** A scene of the race below: a connection, its reader, and loops 0 and 1; nobody among the users yet. */
  ghost predicate Scene<C>(s: State<C>, c: C, reader: Reader, pc0: Pc<C>, pc1: Pc<C>) {
    && !s.crashed && c in s.reg.conns && c in s.readers && s.readers[c] == reader
    && !s.reg.conns[c].out.send.closed && |s.reg.conns[c].out.send.buf| <= 1 && s.reg.conns[c].out.send.cap > 1
    && s.loginQ == [] && s.unregisterQ == [] && s.reg.users == map[]
    && s.hubs == map[0 := pc0, 1 := pc1]
  }

  lemma ConnectScene<C>(c: C) returns (es: seq<Event<C>>)
    ensures es == [Connect(c, "a"), StartHub(0), StartHub(1)] && IsRun(Init<C>(), es)
    ensures var t := Run(Init<C>(), es);
            && Scene(t, c, Reading, Idle, Idle) && t.reg.conns[c].userId == ""
            && t.announcing == {c} && t.registerQ == [] && t.reg.conns[c].out == FRESH
  {
    es := [Connect(c, "a"), StartHub(0), StartHub(1)];
    Three(Init<C>(), es[0], es[1], es[2]);
  }

  /** Loop 0 registers the connection. */
  lemma RegisterScene<C>(s: State<C>, c: C) returns (es: seq<Event<C>>)
    requires Scene(s, c, Reading, Idle, Idle) && s.reg.conns[c].userId == "" && s.reg.conns[c].out == FRESH
    requires s.announcing == {c} && s.registerQ == []
    ensures es == [PostRegister(c), Pick(0, RegisterQ), Event.Advance(0)] && IsRun(s, es)
    ensures var t := Run(s, es);
            && Scene(t, c, Reading, Greeting(c), Idle) && t.reg.conns[c].userId == "" && t.reg.conns[c].out == FRESH
            && c in t.reg.clients
  {
    es := [PostRegister(c), Pick(0, RegisterQ), Event.Advance(0)];
    Three(s, es[0], es[1], es[2]);
  }

  /** It is greeted, and its reader accepts a login. */
  lemma NameScene<C>(s: State<C>, c: C) returns (es: seq<Event<C>>)
    requires Scene(s, c, Reading, Greeting(c), Idle) && s.reg.conns[c].userId == "" && s.reg.conns[c].out == FRESH
    requires c in s.reg.clients
    ensures es == [Event.Advance(0), SetApp(c, 1, "u"), SetUser(c)] && IsRun(s, es)
    ensures var t := Run(s, es); Scene(t, c, Posting(1, "u"), Idle, Idle) && c in t.reg.clients
  {
    es := [Event.Advance(0), SetApp(c, 1, "u"), SetUser(c)];
    Three(s, es[0], es[1], es[2]);
  }

  /** Loop 0 takes the login event and finds the connection among the clients. */
  lemma CheckScene<C>(s: State<C>, c: C) returns (es: seq<Event<C>>)
    requires Scene(s, c, Posting(1, "u"), Idle, Idle) && c in s.reg.clients
    ensures es == [PostLogin(c), Pick(0, LoginQ), Event.Advance(0)] && IsRun(s, es)
    ensures Scene(Run(s, es), c, Reading, Adding(LoginEvent(1, "u", c)), Idle)
  {
    es := [PostLogin(c), Pick(0, LoginQ), Event.Advance(0)];
    Three(s, es[0], es[1], es[2]);
  }

  /** Meanwhile loop 1 unregisters it. */
  lemma RemoveScene<C>(s: State<C>, c: C) returns (es: seq<Event<C>>)
    requires Scene(s, c, Reading, Adding(LoginEvent(1, "u", c)), Idle)
    ensures es == [PostUnregister(c), Pick(1, UnregisterQ), Event.Advance(1)] && IsRun(s, es)
    ensures Scene(Run(s, es), c, Reading, Adding(LoginEvent(1, "u", c)), Evicting(c)) && c !in Run(s, es).reg.clients
  {
    es := [PostUnregister(c), Pick(1, UnregisterQ), Event.Advance(1)];
    Three(s, es[0], es[1], es[2]);
  }

  /** Loop 1 finds no entry to remove; then loop 0 adds one. */
  lemma JoinScene<C>(s: State<C>, c: C) returns (es: seq<Event<C>>)
    requires Scene(s, c, Reading, Adding(LoginEvent(1, "u", c)), Evicting(c)) && c !in s.reg.clients
    ensures es == [Event.Advance(1), Event.Advance(0)] && IsRun(s, es)
    ensures var t := Run(s, es); AllIdle(t) && !(t.reg.users.Values <= t.reg.clients)
  {
    es := [Event.Advance(1), Event.Advance(0)];
    var s1 := Step(s, es[0]);
    var s2 := Step(s1, es[1]);
    Cons(s1, es[1], []);
    Cons(s, es[0], [es[1]]);
    assert es == [es[0]] + [es[1]] && [es[1]] == [es[1]] + [];
    var key := GetUserKey(1, "u");
    assert key in s2.reg.users && s2.reg.users[key] == c && c in s2.reg.users.Values;
  }

  /** The second half of the race, from the moment loop 0 has found the connection among the clients. */
  lemma OvertakeScene<C>(s: State<C>, c: C) returns (es: seq<Event<C>>)
    requires Scene(s, c, Reading, Adding(LoginEvent(1, "u", c)), Idle)
    ensures IsRun(s, es) && AllNamed(es) && Loops(es) == 0
    ensures var t := Run(s, es); AllIdle(t) && !(t.reg.users.Values <= t.reg.clients)
  {
    var a := RemoveScene(s, c);
    var b := JoinScene(Run(s, a), c);
    Append(s, a, b);
    LoopsNone(a + b);
    es := a + b;
  }

  lemma LoginScene<C>(s: State<C>, c: C) returns (es: seq<Event<C>>)
    requires Scene(s, c, Reading, Greeting(c), Idle) && s.reg.conns[c].userId == "" && s.reg.conns[c].out == FRESH
    requires c in s.reg.clients
    ensures IsRun(s, es) && AllNamed(es) && Loops(es) == 0
    ensures Scene(Run(s, es), c, Reading, Adding(LoginEvent(1, "u", c)), Idle)
  {
    var a := NameScene(s, c);
    var b := CheckScene(Run(s, a), c);
    Append(s, a, b);
    LoopsNone(a + b);
    es := a + b;
  }

  lemma ArriveScene<C>(c: C) returns (es: seq<Event<C>>)
    ensures IsRun(Init<C>(), es) && AllNamed(es) && Loops(es) == 2
    ensures var t := Run(Init<C>(), es);
            Scene(t, c, Reading, Greeting(c), Idle) && t.reg.conns[c].userId == "" && t.reg.conns[c].out == FRESH
            && c in t.reg.clients
  {
    var a := ConnectScene(c);
    var b := RegisterScene(Run(Init<C>(), a), c);
    Append(Init<C>(), a, b);
    LoopsSum(a, b);
    LoopsSum([a[0]], a[1..]);
    LoopsNone(b);
    LoopsNone([a[0]]);
    assert a == [a[0]] + a[1..] && Loops(a[1..][1..]) == 1 + Loops(a[1..][1..][1..]);
    es := a + b;
  }

  lemma {:induction false} LoopsNone<C>(es: seq<Event<C>>)
    requires forall i | 0 <= i < |es| :: !es[i].StartHub?
    ensures Loops(es) == 0
  {
    if es != [] { LoopsNone(es[1..]); }
  }

  lemma {:induction false} LoopsSum<C>(a: seq<Event<C>>, b: seq<Event<C>>)
    ensures Loops(a + b) == Loops(a) + Loops(b)
  {
    if a == [] {
      assert a + b == b;
    } else {
      assert (a + b)[1..] == a[1..] + b;
      LoopsSum(a[1..], b);
    }
  }

  /** Two loops suffice for a user that is no client, with every loop idle. */
  lemma TwoLoopsRace<C>(c: C) returns (es: seq<Event<C>>)
    ensures IsRun(Init<C>(), es) && AllNamed(es) && Loops(es) == 2
    ensures var s := Run(Init<C>(), es); AllIdle(s) && !(s.reg.users.Values <= s.reg.clients)
  {
    var a := ArriveScene(c);
    var s := Run(Init<C>(), a);
    var b := LoginScene(s, c);
    var d := OvertakeScene(Run(s, b), c);
    Append(s, b, d);
    Append(Init<C>(), a, b + d);
    LoopsSum(b, d);
    LoopsSum(a, b + d);
    es := a + (b + d);
  }

  ghost predicate UsersAmongClients<C>(es: seq<Event<C>>)
    requires IsRun(Init<C>(), es)
  {
    var s := Run(Init<C>(), es);
    AllIdle(s) ==> s.reg.users.Values <= s.reg.clients
  }

  /** Users are among the clients whenever all loops are idle, in every run of up to n loops, exactly when n is at most
      one. The program starts one loop for each connection. */
  lemma ContainmentNeedsOneLoop<C>(c: C, n: nat)
    ensures (forall es: seq<Event<C>> | IsRun(Init<C>(), es) && AllNamed(es) && Loops(es) <= n :: UsersAmongClients(es))
       <==> n <= 1
  {
    if n <= 1 {
      forall es: seq<Event<C>> | IsRun(Init<C>(), es) && AllNamed(es) && Loops(es) <= n ensures UsersAmongClients(es) {
        UsersAreClients(es);
      }
    } else {
      var es := TwoLoopsRace(c);
      assert !UsersAmongClients(es);
    }
  }
}
