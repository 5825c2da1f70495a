/** The hub against its own history: what was posted to each channel, in order, is what was picked from it, in order, and
    then what it still holds; and each connection is what its own events made of it. All of it is read off the list of
    events alone. */
module HubLedger {
  import opened Options
  import opened UserKey
  import opened Outbound
  import opened Hub
  import opened HubInvariants
  import opened HubTheorems

  // ---------------------------------------------------------------- read off the events

  function Last<C>(es: seq<Event<C>>): Event<C>
    requires es != []
  {
    es[|es| - 1]
  }

  function Earlier<C>(es: seq<Event<C>>): seq<Event<C>>
    requires es != []
  {
    es[..|es| - 1]
  }

  /** A connection as its own events tell it. */
  datatype Account = Account(addr: string, appId: AppId, userId: string, reader: Reader)

  ghost function AccountOf<C>(es: seq<Event<C>>, c: C): Option<Account> {
    if es == [] then None
    else
      var before := AccountOf(Earlier(es), c);
      match Last(es)
      case Connect(d, addr) => if d == c then Some(Account(addr, 0, "", Reading)) else before
      case SetApp(d, a, u) =>
        if d == c && before.Some? then Some(before.value.(appId := a, reader := Naming(a, u))) else before
      case SetUser(d) =>
        if d == c && before.Some? && before.value.reader.Naming? then
          var r := before.value.reader;
          Some(before.value.(userId := r.userId, reader := Posting(r.appId, r.userId)))
        else before
      case PostLogin(d) => if d == c && before.Some? then Some(before.value.(reader := Reading)) else before
      case StopReader(d) => if d == c && before.Some? then Some(before.value.(reader := Stopped)) else before
      case _ => before
  }

  function RegisterPosts<C>(es: seq<Event<C>>): seq<C> {
    if es == [] then []
    else RegisterPosts(Earlier(es)) + if Last(es).PostRegister? then [Last(es).c] else []
  }

  /** A login event carries what its connection's last accepted request said. */
  ghost function LoginPosts<C>(es: seq<Event<C>>): seq<LoginEvent<C>> {
    if es == [] then []
    else
      LoginPosts(Earlier(es)) +
        if Last(es).PostLogin? then
          match AccountOf(Earlier(es), Last(es).c)
          case Some(Account(_, _, _, Posting(a, u))) => [LoginEvent(a, u, Last(es).c)]
          case _ => []
        else []
  }

  function UnregisterPosts<C>(es: seq<Event<C>>): seq<C> {
    if es == [] then []
    else UnregisterPosts(Earlier(es)) + if Last(es).PostUnregister? then [Last(es).c] else []
  }

  function BroadcastPosts<C>(es: seq<Event<C>>): seq<Frame> {
    if es == [] then []
    else BroadcastPosts(Earlier(es)) + if Last(es).PostBroadcast? then [Last(es).frame] else []
  }

  function Picks<C>(es: seq<Event<C>>, q: Queue): nat {
    if es == [] then 0
    else Picks(Earlier(es), q) + if Last(es).Pick? && Last(es).q == q then 1 else 0
  }

  // ---------------------------------------------------------------- connections

  lemma LastStep<C>(es: seq<Event<C>>)
    requires IsRun(Init<C>(), es) && es != []
    ensures IsRun(Init<C>(), Earlier(es)) && Enabled(Run(Init<C>(), Earlier(es)), Last(es))
    ensures Run(Init<C>(), es) == Step(Run(Init<C>(), Earlier(es)), Last(es))
  {
    Cut(Init<C>(), es, |es| - 1);
    assert es[|es| - 1 + 1..] == [];
  }

  ghost function Told<C>(s: State<C>, c: C): Option<Account> {
    if c in s.reg.conns && c in s.readers
    then Some(Account(s.reg.conns[c].addr, s.reg.conns[c].appId, s.reg.conns[c].userId, s.readers[c]))
    else None
  }

  lemma ToldAdvance<C>(s: State<C>, h: nat, c: C)
    requires h in s.hubs && CanAdvance(s, s.hubs[h])
    ensures Told(Advanced(s, h), c) == Told(s, c)
  {}

  lemma ToldOther<C>(s: State<C>, e: Event<C>, c: C)
    requires Enabled(s, e) && !e.Advance? && !e.Connect? && !e.SetApp? && !e.SetUser? && !e.PostLogin? && !e.StopReader?
    ensures Told(Step(s, e), c) == Told(s, c)
  {}

  /** In every run each connection exists exactly if its Connect event is in the list, and has the address, the identity
      and the reader its own events give it. */
  lemma {:induction false} AccountsTrue<C>(es: seq<Event<C>>, c: C)
    requires IsRun(Init<C>(), es)
    ensures Told(Run(Init<C>(), es), c) == AccountOf(es, c)
    decreases |es|
  {
    if es != [] {
      LastStep(es);
      AccountsTrue(Earlier(es), c);
      var s, e := Run(Init<C>(), Earlier(es)), Last(es);
      RunWF(Init<C>(), Earlier(es));
      if e.Advance? {
        ToldAdvance(s, e.h, c);
      } else if !e.Connect? && !e.SetApp? && !e.SetUser? && !e.PostLogin? && !e.StopReader? {
        ToldOther(s, e, c);
      }
    }
  }

  // ---------------------------------------------------------------- the channels

  lemma ChannelsAdvance<C>(s: State<C>, h: nat)
    requires h in s.hubs && CanAdvance(s, s.hubs[h])
    ensures var t := Advanced(s, h);
            && t.registerQ == s.registerQ && t.loginQ == s.loginQ
            && t.unregisterQ == s.unregisterQ && t.broadcastQ == s.broadcastQ
  {}

  lemma {:induction false} RegisterChannel<C>(es: seq<Event<C>>)
    requires IsRun(Init<C>(), es)
    ensures Picks(es, RegisterQ) <= |RegisterPosts(es)|
    ensures Run(Init<C>(), es).registerQ == RegisterPosts(es)[Picks(es, RegisterQ)..]
    ensures |Run(Init<C>(), es).registerQ| <= 1000
    decreases |es|
  {
    if es != [] {
      LastStep(es);
      RegisterChannel(Earlier(es));
      if Last(es).Advance? { ChannelsAdvance(Run(Init<C>(), Earlier(es)), Last(es).h); }
    }
  }

  lemma {:induction false} UnregisterChannel<C>(es: seq<Event<C>>)
    requires IsRun(Init<C>(), es)
    ensures Picks(es, UnregisterQ) <= |UnregisterPosts(es)|
    ensures Run(Init<C>(), es).unregisterQ == UnregisterPosts(es)[Picks(es, UnregisterQ)..]
    ensures |Run(Init<C>(), es).unregisterQ| <= 1000
    decreases |es|
  {
    if es != [] {
      LastStep(es);
      UnregisterChannel(Earlier(es));
      if Last(es).Advance? { ChannelsAdvance(Run(Init<C>(), Earlier(es)), Last(es).h); }
    }
  }

  lemma {:induction false} BroadcastChannel<C>(es: seq<Event<C>>)
    requires IsRun(Init<C>(), es)
    ensures Picks(es, BroadcastQ) <= |BroadcastPosts(es)|
    ensures Run(Init<C>(), es).broadcastQ == BroadcastPosts(es)[Picks(es, BroadcastQ)..]
    ensures |Run(Init<C>(), es).broadcastQ| <= 1000
    decreases |es|
  {
    if es != [] {
      LastStep(es);
      BroadcastChannel(Earlier(es));
      if Last(es).Advance? { ChannelsAdvance(Run(Init<C>(), Earlier(es)), Last(es).h); }
    }
  }

  lemma {:induction false} LoginChannel<C>(es: seq<Event<C>>)
    requires IsRun(Init<C>(), es)
    ensures Picks(es, LoginQ) <= |LoginPosts(es)|
    ensures Run(Init<C>(), es).loginQ == LoginPosts(es)[Picks(es, LoginQ)..]
    ensures |Run(Init<C>(), es).loginQ| <= 1000
    decreases |es|
  {
    if es != [] {
      LastStep(es);
      LoginChannel(Earlier(es));
      var s, e := Run(Init<C>(), Earlier(es)), Last(es);
      if e.Advance? { ChannelsAdvance(s, e.h); }
      if e.PostLogin? {
        AccountsTrue(Earlier(es), e.c);
        RunWF(Init<C>(), Earlier(es));
      }
    }
  }

  /** Nothing posted is lost, doubled or overtaken: each of the four channels holds exactly the events posted to it, in
      order, less as many from the front as have been picked; and never more than 1000. */
  lemma ChannelsConserve<C>(es: seq<Event<C>>)
    requires IsRun(Init<C>(), es)
    ensures Picks(es, RegisterQ) <= |RegisterPosts(es)| && Picks(es, LoginQ) <= |LoginPosts(es)|
    ensures Picks(es, UnregisterQ) <= |UnregisterPosts(es)| && Picks(es, BroadcastQ) <= |BroadcastPosts(es)|
    ensures var s := Run(Init<C>(), es);
            && s.registerQ == RegisterPosts(es)[Picks(es, RegisterQ)..] && |s.registerQ| <= 1000
            && s.loginQ == LoginPosts(es)[Picks(es, LoginQ)..] && |s.loginQ| <= 1000
            && s.unregisterQ == UnregisterPosts(es)[Picks(es, UnregisterQ)..] && |s.unregisterQ| <= 1000
            && s.broadcastQ == BroadcastPosts(es)[Picks(es, BroadcastQ)..] && |s.broadcastQ| <= 1000
  {
    RegisterChannel(es);
    LoginChannel(es);
    UnregisterChannel(es);
    BroadcastChannel(es);
  }

  /** And what a loop picks is the next event posted: the loop that makes the n-th pick from a channel holds the n-th
      event posted to it. */
  lemma PickTakesNext<C>(es: seq<Event<C>>)
    requires IsRun(Init<C>(), es) && es != [] && Last(es).Pick?
    ensures var h, q, n := Last(es).h, Last(es).q, Picks(Earlier(es), Last(es).q);
            h in Run(Init<C>(), es).hubs && var pc := Run(Init<C>(), es).hubs[h];
            match q
            case RegisterQ => n < |RegisterPosts(es)| && pc == GotRegister(RegisterPosts(es)[n])
            case LoginQ => n < |LoginPosts(es)| && pc == GotLogin(LoginPosts(es)[n])
            case UnregisterQ => n < |UnregisterPosts(es)| && pc == GotUnregister(UnregisterPosts(es)[n])
            case BroadcastQ => n < |BroadcastPosts(es)| && pc == GotBroadcast(BroadcastPosts(es)[n])
  {
    LastStep(es);
    ChannelsConserve(Earlier(es));
  }

  /** A channel takes an event exactly while it holds fewer than 1000, and a connection can log in exactly if its reader
      is free and its user id empty. */
  lemma PostsPossible<C>(s: State<C>, c: C, m: Frame, a: AppId, u: string)
    requires WF(s) && !s.crashed
    ensures Enabled(s, PostRegister(c)) <==> c in s.announcing && |s.registerQ| < 1000
    ensures Enabled(s, PostUnregister(c)) <==> Told(s, c).Some? && |s.unregisterQ| < 1000
    ensures Enabled(s, PostBroadcast(m)) <==> |s.broadcastQ| < 1000
    ensures Enabled(s, PostLogin(c)) <==> Told(s, c).Some? && Told(s, c).value.reader.Posting? && |s.loginQ| < 1000
    ensures Enabled(s, SetApp(c, a, u)) <==>
      Told(s, c).Some? && Told(s, c).value.reader == Reading && Told(s, c).value.userId == ""
  {}

  /** An idle loop picks from a channel exactly if it holds an event. */
  lemma PicksPossible<C>(s: State<C>, h: nat)
    requires !s.crashed
    ensures Enabled(s, Pick(h, RegisterQ)) <==> h in s.hubs && s.hubs[h] == Idle && s.registerQ != []
    ensures Enabled(s, Pick(h, LoginQ)) <==> h in s.hubs && s.hubs[h] == Idle && s.loginQ != []
    ensures Enabled(s, Pick(h, UnregisterQ)) <==> h in s.hubs && s.hubs[h] == Idle && s.unregisterQ != []
    ensures Enabled(s, Pick(h, BroadcastQ)) <==> h in s.hubs && s.hubs[h] == Idle && s.broadcastQ != []
  {}
}
