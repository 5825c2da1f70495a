/** Where each event is, in every run and for any number of dispatch loops: in its channel, in the hands of one loop, or
    done, which the log shows. Nothing is dropped on the way and nothing is done twice. */
module HubFlow {
  import opened UserKey
  import opened Hub
  import opened HubInvariants
  import opened HubHistory
  import opened HubTheorems
  import opened HubLedger

  ghost function Holders<C>(hubs: map<nat, Pc<C>>, pc: Pc<C>): set<nat> {
    set h | h in hubs && hubs[h] == pc
  }

  /** The number of loops at a position. */
  ghost function Holding<C>(hubs: map<nat, Pc<C>>, pc: Pc<C>): nat {
    |Holders(hubs, pc)|
  }

  ghost function Times<C>(log: seq<Entry<C>>, x: Entry<C>): nat {
    multiset(log)[x]
  }

  /** A loop moves from one position to another. */
  lemma HoldingMoves<C>(hubs: map<nat, Pc<C>>, h: nat, to: Pc<C>, pc: Pc<C>)
    ensures Holding(hubs[h := to], pc) ==
      Holding(hubs, pc) - (if h in hubs && hubs[h] == pc then 1 else 0) + (if to == pc then 1 else 0)
  {
    var before, after := Holders(hubs, pc), Holders(hubs[h := to], pc);
    assert after == if to == pc then before + {h} else before - {h};
  }

  /** One loop moves, and the log grows by one entry or none. */
  ghost predicate Moves<C>(s: State<C>, s': State<C>, h: nat, to: Pc<C>, done: seq<Entry<C>>) {
    s'.hubs == s.hubs[h := to] && s'.log == s.log + done
  }

  lemma FlowMoves<C>(s: State<C>, s': State<C>, h: nat, to: Pc<C>, done: seq<Entry<C>>, pc: Pc<C>, x: Entry<C>)
    requires Moves(s, s', h, to, done)
    ensures Holding(s'.hubs, pc) ==
      Holding(s.hubs, pc) - (if h in s.hubs && s.hubs[h] == pc then 1 else 0) + (if to == pc then 1 else 0)
    ensures Times(s'.log, x) == Times(s.log, x) + multiset(done)[x]
  {
    HoldingMoves(s.hubs, h, to, pc);
  }

  /** What the next critical section of a loop is, where it leaves the loop, and the entry it logs. */
  lemma AdvanceMoves<C>(s: State<C>, h: nat)
    requires WF(s) && h in s.hubs && CanAdvance(s, s.hubs[h])
    ensures var s' := Advanced(s, h);
            match s.hubs[h]
            case GotRegister(c) => Moves(s, s', h, Greeting(c), [Registered(c)])
            case Greeting(c) => Moves(s, s', h, if s.reg.conns[c].out.send.closed then Greeting(c) else Idle, [])
            case GotLogin(l) =>
              var found := l.client in s.reg.clients;
              Moves(s, s', h, if found then Adding(l) else Idle, [Looked(l, found)])
            case Adding(l) => Moves(s, s', h, Idle, [Joined(GetUserKey(l.appId, l.userId), l.client)])
            case GotUnregister(c) => Moves(s, s', h, Evicting(c), [Gone(c)])
            case Evicting(c) =>
              var key := GetUserKey(s.reg.conns[c].appId, s.reg.conns[c].userId);
              var evicted := key in s.reg.users && s.reg.conns[s.reg.users[key]].addr == s.reg.conns[c].addr;
              Moves(s, s', h, if evicted then Closing(c) else Idle, [Left(c, evicted)])
            case Closing(c) =>
              if s.reg.conns[c].out.send.closed then Moves(s, s', h, Closing(c), []) else Moves(s, s', h, Idle, [Shut(c)])
            case GotBroadcast(m) => Moves(s, s', h, Sending(m, s.reg.clients), [])
            case Sending(m, _) => Moves(s, s', h, Idle, [])
  {
    assert s.hubs[h := s.hubs[h]] == s.hubs;
  }

  // ---------------------------------------------------------------- the laws

  /** A connection is at exactly one place on its way to being registered, from the moment it connects. */
  ghost predicate RegisterFlow<C>(s: State<C>, c: C) {
    (if c in s.announcing then 1 else 0) + multiset(s.registerQ)[c] + Holding(s.hubs, GotRegister(c))
      + Times(s.log, Registered(c)) == if c in s.reg.conns then 1 else 0
  }

  /** Of the posts of a login event: some are queued, some in the hands of a loop, the others looked for their connection;
      of those that found it some are about to join and the others have joined. */
  ghost predicate LoginFlow<C>(s: State<C>, l: LoginEvent<C>, posted: nat) {
    && posted == multiset(s.loginQ)[l] + Holding(s.hubs, GotLogin(l))
                 + Times(s.log, Looked(l, true)) + Times(s.log, Looked(l, false))
    && Times(s.log, Looked(l, true)) ==
         Holding(s.hubs, Adding(l)) + Times(s.log, Joined(GetUserKey(l.appId, l.userId), l.client))
  }

  /** Of the posts of an Unregister event: some are queued, some in the hands of a loop, the others have removed the
      connection; of those some are about to look for its entry and the others have; and of those that removed it some
      are about to close the queue and the others have closed it. */
  ghost predicate UnregisterFlow<C>(s: State<C>, c: C, posted: nat) {
    && posted == multiset(s.unregisterQ)[c] + Holding(s.hubs, GotUnregister(c)) + Times(s.log, Gone(c))
    && Times(s.log, Gone(c)) == Holding(s.hubs, Evicting(c)) + Times(s.log, Left(c, true)) + Times(s.log, Left(c, false))
    && Times(s.log, Left(c, true)) == Holding(s.hubs, Closing(c)) + Times(s.log, Shut(c))
  }

  lemma HeadTaken<T>(q: seq<T>, x: T)
    requires q != []
    ensures multiset(q)[x] == multiset(q[1..])[x] + if q[0] == x then 1 else 0
  {
    assert q == [q[0]] + q[1..];
  }

  /** What a step other than a critical section does to the loops, the channels and the log. */
  lemma OtherMoves<C>(s: State<C>, e: Event<C>)
    requires Enabled(s, e) && !e.Advance?
    ensures var s' := Step(s, e);
            match e
            case StartHub(h) => Moves(s, s', h, Idle, [])
            case Pick(h, RegisterQ) => Moves(s, s', h, GotRegister(s.registerQ[0]), [])
            case Pick(h, LoginQ) => Moves(s, s', h, GotLogin(s.loginQ[0]), [])
            case Pick(h, UnregisterQ) => Moves(s, s', h, GotUnregister(s.unregisterQ[0]), [])
            case Pick(h, BroadcastQ) => Moves(s, s', h, GotBroadcast(s.broadcastQ[0]), [])
            case SendOne(h, _) => exists m, todo :: Moves(s, s', h, Sending(m, todo), [])
            case PostLogin(c) => s'.hubs == s.hubs && s'.log == s.log + [Posted(s'.loginQ[|s.loginQ|])]
            case _ => s'.hubs == s.hubs && s'.log == s.log
  {
    if e.SendOne? {
      var pc := s.hubs[e.h];
      assert s.hubs[e.h := pc] == s.hubs;
      assert s.log == s.log + [];
      var to := if s.reg.conns[e.c].out.send.closed then pc else Sending(pc.m, pc.todo - {e.c});
      assert Moves(s, Step(s, e), e.h, Sending(to.m, to.todo), []);
    }
  }

  /** A step moves one loop at most, and the log grows. */
  ghost predicate OneMove<C>(s: State<C>, e: Event<C>, s': State<C>) {
    && s.log <= s'.log
    && match e
       case StartHub(h) => h in s'.hubs && s'.hubs == s.hubs[h := s'.hubs[h]]
       case Pick(h, _) => h in s'.hubs && s'.hubs == s.hubs[h := s'.hubs[h]]
       case Advance(h) => h in s'.hubs && s'.hubs == s.hubs[h := s'.hubs[h]]
       case SendOne(h, _) => h in s'.hubs && s'.hubs == s.hubs[h := s'.hubs[h]]
       case _ => s'.hubs == s.hubs
  }

  lemma MovesOnce<C>(s: State<C>, e: Event<C>)
    requires WF(s) && Enabled(s, e)
    ensures OneMove(s, e, Step(s, e))
  {
    if e.Advance? { AdvanceMoves(s, e.h); } else { OtherMoves(s, e); }
  }

  ghost predicate Moving<C>(e: Event<C>) { e.StartHub? || e.Pick? || e.Advance? || e.SendOne? }

  /** What a step does to one count of loops and one count of entries. */
  lemma Counts<C>(s: State<C>, e: Event<C>, pc: Pc<C>, x: Entry<C>)
    requires WF(s) && Enabled(s, e)
    ensures var s' := Step(s, e);
            && (Moving(e) ==> e.h in s'.hubs)
            && Holding(s'.hubs, pc) == Holding(s.hubs, pc)
                 - (if Moving(e) && e.h in s.hubs && s.hubs[e.h] == pc then 1 else 0)
                 + (if Moving(e) && s'.hubs[e.h] == pc then 1 else 0)
            && s.log <= s'.log && Times(s'.log, x) == Times(s.log, x) + multiset(s'.log[|s.log|..])[x]
  {
    var s' := Step(s, e);
    MovesOnce(s, e);
    if Moving(e) { HoldingMoves(s.hubs, e.h, s'.hubs[e.h], pc); }
    assert s'.log == s.log + s'.log[|s.log|..];
  }

  /** The entries a step logs. */
  lemma Logs<C>(s: State<C>, e: Event<C>)
    requires WF(s) && Enabled(s, e)
    ensures s.log <= Step(s, e).log
    ensures var done := Step(s, e).log[|s.log|..];
            match e
            case PostLogin(c) => |done| == 1 && done[0].Posted?
            case Advance(h) => true
            case _ => done == []
  {
    if e.Advance? { AdvanceMoves(s, e.h); } else { OtherMoves(s, e); }
  }

  lemma RegisterFlowAdvance<C>(s: State<C>, h: nat, c: C)
    requires WF(s) && Enabled(s, Event.Advance(h)) && RegisterFlow(s, c)
    ensures RegisterFlow(Advanced(s, h), c)
  {
    AdvanceMoves(s, h);
    Counts(s, Event.Advance(h), GotRegister(c), Registered(c));
    ChannelsAdvance(s, h);
    AdvanceArrivals(s, h);
  }

  lemma AdvanceArrivals<C>(s: State<C>, h: nat)
    requires h in s.hubs && CanAdvance(s, s.hubs[h])
    ensures Advanced(s, h).announcing == s.announcing && Advanced(s, h).reg.conns.Keys == s.reg.conns.Keys
  {}

  lemma RegisterFlowOther<C>(s: State<C>, e: Event<C>, c: C)
    requires WF(s) && Enabled(s, e) && !e.Advance? && RegisterFlow(s, c)
    ensures RegisterFlow(Step(s, e), c)
  {
    OtherMoves(s, e);
    Logs(s, e);
    Counts(s, e, GotRegister(c), Registered(c));
    if e.Pick? && e.q == RegisterQ { HeadTaken(s.registerQ, c); }
  }

  lemma LookedAdvance<C>(s: State<C>, h: nat, l: LoginEvent<C>)
    requires WF(s) && Enabled(s, Event.Advance(h))
    ensures var s' := Advanced(s, h);
            Holding(s'.hubs, GotLogin(l)) + Times(s'.log, Looked(l, true)) + Times(s'.log, Looked(l, false))
              == Holding(s.hubs, GotLogin(l)) + Times(s.log, Looked(l, true)) + Times(s.log, Looked(l, false))
  {
    AdvanceMoves(s, h);
    Counts(s, Event.Advance(h), GotLogin(l), Looked(l, true));
    Counts(s, Event.Advance(h), GotLogin(l), Looked(l, false));
  }

  lemma JoinedAdvance<C>(s: State<C>, h: nat, l: LoginEvent<C>)
    requires WF(s) && Enabled(s, Event.Advance(h))
    ensures var s', x := Advanced(s, h), Joined(GetUserKey(l.appId, l.userId), l.client);
            Times(s'.log, Looked(l, true)) - Holding(s'.hubs, Adding(l)) - Times(s'.log, x)
              == Times(s.log, Looked(l, true)) - Holding(s.hubs, Adding(l)) - Times(s.log, x)
  {
    AdvanceMoves(s, h);
    Counts(s, Event.Advance(h), Adding(l), Looked(l, true));
    Counts(s, Event.Advance(h), Adding(l), Joined(GetUserKey(l.appId, l.userId), l.client));
    if s.hubs[h].Adding? {
      var k := s.hubs[h].l;
      GetUserKeyInjective(k.appId, k.userId, l.appId, l.userId);
    }
  }

  lemma LoginFlowAdvance<C>(s: State<C>, h: nat, l: LoginEvent<C>, posted: nat)
    requires WF(s) && Enabled(s, Event.Advance(h)) && LoginFlow(s, l, posted)
    ensures LoginFlow(Advanced(s, h), l, posted)
  {
    LookedAdvance(s, h, l);
    JoinedAdvance(s, h, l);
    ChannelsAdvance(s, h);
  }

  lemma LoginFlowOther<C>(s: State<C>, e: Event<C>, l: LoginEvent<C>, posted: nat)
    requires WF(s) && Enabled(s, e) && !e.Advance? && LoginFlow(s, l, posted)
    ensures e.PostLogin? ==> |Step(s, e).loginQ| == |s.loginQ| + 1
    ensures LoginFlow(Step(s, e), l, posted + if e.PostLogin? && Step(s, e).loginQ[|s.loginQ|] == l then 1 else 0)
  {
    OtherMoves(s, e);
    Logs(s, e);
    Counts(s, e, GotLogin(l), Looked(l, true));
    Counts(s, e, GotLogin(l), Looked(l, false));
    Counts(s, e, Adding(l), Joined(GetUserKey(l.appId, l.userId), l.client));
    if e.Pick? && e.q == LoginQ { HeadTaken(s.loginQ, l); }
  }

  lemma TakenAdvance<C>(s: State<C>, h: nat, c: C)
    requires WF(s) && Enabled(s, Event.Advance(h))
    ensures var s' := Advanced(s, h);
            Holding(s'.hubs, GotUnregister(c)) + Times(s'.log, Gone(c))
              == Holding(s.hubs, GotUnregister(c)) + Times(s.log, Gone(c))
  {
    AdvanceMoves(s, h);
    Counts(s, Event.Advance(h), GotUnregister(c), Gone(c));
  }

  lemma RemovedAdvance<C>(s: State<C>, h: nat, c: C)
    requires WF(s) && Enabled(s, Event.Advance(h))
    ensures var s' := Advanced(s, h);
            Times(s'.log, Gone(c)) - Holding(s'.hubs, Evicting(c))
                - Times(s'.log, Left(c, true)) - Times(s'.log, Left(c, false))
              == Times(s.log, Gone(c)) - Holding(s.hubs, Evicting(c))
                - Times(s.log, Left(c, true)) - Times(s.log, Left(c, false))
  {
    var e := Event.Advance(h);
    AdvanceMoves(s, h);
    Counts(s, e, Evicting(c), Gone(c));
    Counts(s, e, Evicting(c), Left(c, true));
    Counts(s, e, Evicting(c), Left(c, false));
  }

  lemma LeftAdvance<C>(s: State<C>, h: nat, c: C)
    requires WF(s) && Enabled(s, Event.Advance(h))
    ensures var s' := Advanced(s, h);
            Times(s'.log, Left(c, true)) - Holding(s'.hubs, Closing(c)) - Times(s'.log, Shut(c))
              == Times(s.log, Left(c, true)) - Holding(s.hubs, Closing(c)) - Times(s.log, Shut(c))
  {
    AdvanceMoves(s, h);
    Counts(s, Event.Advance(h), Closing(c), Left(c, true));
    Counts(s, Event.Advance(h), Closing(c), Shut(c));
  }

  lemma UnregisterFlowAdvance<C>(s: State<C>, h: nat, c: C, posted: nat)
    requires WF(s) && Enabled(s, Event.Advance(h)) && UnregisterFlow(s, c, posted)
    ensures UnregisterFlow(Advanced(s, h), c, posted)
  {
    TakenAdvance(s, h, c);
    RemovedAdvance(s, h, c);
    LeftAdvance(s, h, c);
    ChannelsAdvance(s, h);
  }

  lemma UnregisterFlowOther<C>(s: State<C>, e: Event<C>, c: C, posted: nat)
    requires WF(s) && Enabled(s, e) && !e.Advance? && UnregisterFlow(s, c, posted)
    ensures UnregisterFlow(Step(s, e), c, posted + if e == PostUnregister(c) then 1 else 0)
  {
    OtherMoves(s, e);
    Logs(s, e);
    Counts(s, e, GotUnregister(c), Gone(c));
    Counts(s, e, Evicting(c), Left(c, true));
    Counts(s, e, Evicting(c), Left(c, false));
    Counts(s, e, Closing(c), Shut(c));
    if e.Pick? && e.q == UnregisterQ { HeadTaken(s.unregisterQ, c); }
  }

  // ---------------------------------------------------------------- whole runs

  /** In every run each connection, from the moment it connects, is at exactly one place: announced, in the Register
      channel, in the hands of one loop, or registered. */
  lemma {:induction false} RegisterFlows<C>(es: seq<Event<C>>, c: C)
    requires IsRun(Init<C>(), es)
    ensures RegisterFlow(Run(Init<C>(), es), c)
    decreases |es|
  {
    if es != [] {
      LastStep(es);
      RegisterFlows(Earlier(es), c);
      RunWF(Init<C>(), Earlier(es));
      var s, e := Run(Init<C>(), Earlier(es)), Last(es);
      if e.Advance? { RegisterFlowAdvance(s, e.h, c); } else { RegisterFlowOther(s, e, c); }
    }
  }

  lemma LoginPosted<C>(es: seq<Event<C>>)
    requires IsRun(Init<C>(), es) && es != [] && Last(es).PostLogin?
    ensures IsRun(Init<C>(), Earlier(es)) && |Run(Init<C>(), es).loginQ| == |Run(Init<C>(), Earlier(es)).loginQ| + 1
    ensures var q, q' := Run(Init<C>(), Earlier(es)).loginQ, Run(Init<C>(), es).loginQ;
            LoginPosts(es) == LoginPosts(Earlier(es)) + [q'[|q|]]
  {
    LastStep(es);
    LoginChannel(es);
    LoginChannel(Earlier(es));
    AccountsTrue(Earlier(es), Last(es).c);
    RunWF(Init<C>(), Earlier(es));
  }

  /** And each login event posted is queued, in the hands of a loop, or done, and none is done twice. */
  lemma {:induction false} LoginFlows<C>(es: seq<Event<C>>, l: LoginEvent<C>)
    requires IsRun(Init<C>(), es)
    ensures LoginFlow(Run(Init<C>(), es), l, multiset(LoginPosts(es))[l])
    decreases |es|
  {
    if es != [] {
      LastStep(es);
      LoginFlows(Earlier(es), l);
      RunWF(Init<C>(), Earlier(es));
      var s, e, posted := Run(Init<C>(), Earlier(es)), Last(es), multiset(LoginPosts(Earlier(es)))[l];
      if e.Advance? {
        LoginFlowAdvance(s, e.h, l, posted);
      } else {
        LoginFlowOther(s, e, l, posted);
        if e.PostLogin? { LoginPosted(es); }
      }
    }
  }

  /** And each Unregister event. */
  lemma {:induction false} UnregisterFlows<C>(es: seq<Event<C>>, c: C)
    requires IsRun(Init<C>(), es)
    ensures UnregisterFlow(Run(Init<C>(), es), c, multiset(UnregisterPosts(es))[c])
    decreases |es|
  {
    if es != [] {
      LastStep(es);
      UnregisterFlows(Earlier(es), c);
      RunWF(Init<C>(), Earlier(es));
      var s, e, posted := Run(Init<C>(), Earlier(es)), Last(es), multiset(UnregisterPosts(Earlier(es)))[c];
      if e.Advance? { UnregisterFlowAdvance(s, e.h, c, posted); } else { UnregisterFlowOther(s, e, c, posted); }
    }
  }
}
