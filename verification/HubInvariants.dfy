/** What every step of the hub keeps, for any number of dispatch loops. */
module HubInvariants {
  import opened Outbound
  import opened Hub

  // ---------------------------------------------------------------- identities

  function Identity<C>(s: State<C>, c: C): LoginEvent<C>
    requires c in s.reg.conns
  {
    LoginEvent(s.reg.conns[c].appId, s.reg.conns[c].userId, c)
  }

  /** The connection named by a login event carries exactly that identity, and its reader will not write it again. */
  ghost predicate Settled<C>(s: State<C>, l: LoginEvent<C>) {
    && l.client in s.reg.conns && l.client in s.readers
    && Identity(s, l.client) == l
    && l.userId != ""
    && (s.readers[l.client] == Reading || s.readers[l.client] == Stopped)
  }

  ghost predicate ReadersSound<C>(s: State<C>) {
    forall c | c in s.readers :: c in s.reg.conns &&
      var conn := s.reg.conns[c];
      match s.readers[c]
      case Naming(a, u) => conn.appId == a && conn.userId == "" && u != ""
      case Posting(a, u) => conn.appId == a && conn.userId == u && u != ""
      case _ => true
  }

  ghost predicate PostedSettled<C>(s: State<C>) {
    forall i | 0 <= i < |s.log| && s.log[i].Posted? :: Settled(s, s.log[i].l)
  }

  /** Login events in flight, queued or held by a loop, were posted. */
  ghost predicate FlightsPosted<C>(s: State<C>) {
    && (forall i | 0 <= i < |s.loginQ| :: Posted(s.loginQ[i]) in s.log)
    && (forall h | h in s.hubs && s.hubs[h].HoldsLogin() :: Posted(s.hubs[h].l) in s.log)
  }

  ghost predicate ClientsRegistered<C>(s: State<C>) {
    && (forall c | c in s.reg.clients :: Registered(c) in s.log)
    && (forall h | h in s.hubs && s.hubs[h].Adding? :: Registered(s.hubs[h].l.client) in s.log)
  }

  /** A connection joins the users under its own key, after it was registered and after its login was posted. */
  ghost predicate JoinsJustified<C>(s: State<C>) {
    forall i | 0 <= i < |s.log| && s.log[i].Joined? ::
      var c := s.log[i].c;
      && c in s.reg.conns
      && s.log[i].key == s.reg.conns[c].GetKey()
      && Posted(Identity(s, c)) in s.log
      && Registered(c) in s.log
  }

  ghost predicate UsersJoined<C>(s: State<C>) {
    forall k | k in s.reg.users :: Joined(k, s.reg.users[k]) in s.log
  }

  ghost predicate OutsSound<C>(s: State<C>) {
    forall c | c in s.reg.conns :: Sound(s.reg.conns[c].out)
  }

  ghost predicate Identities<C>(s: State<C>) {
    && ReadersSound(s)
    && PostedSettled(s)
    && FlightsPosted(s)
    && ClientsRegistered(s)
    && JoinsJustified(s)
    && UsersJoined(s)
  }

  // ---------------------------------------------------------------- steps that touch only queues and loop positions

  ghost predicate SameIdentities<C>(s: State<C>, s': State<C>) {
    && s.reg.conns.Keys == s'.reg.conns.Keys
    && (forall c | c in s.reg.conns ::
          var a, b := s.reg.conns[c], s'.reg.conns[c];
          a.addr == b.addr && a.appId == b.appId && a.userId == b.userId)
  }

  ghost predicate Quiet<C>(s: State<C>, s': State<C>) {
    && SameIdentities(s, s')
    && s.readers.Keys == s'.readers.Keys
    && (forall c | c in s.readers :: s.readers[c] == s'.readers[c] || (s.readers[c] == Reading && s'.readers[c] == Stopped))
    && s.reg.clients == s'.reg.clients && s.reg.users == s'.reg.users
    && s.loginQ == s'.loginQ && s.log == s'.log
    && (forall h | h in s'.hubs && Lasting(s'.hubs[h]) :: h in s.hubs && s.hubs[h] == s'.hubs[h])
    && (forall h | h in s.hubs && Lasting(s.hubs[h]) :: h in s'.hubs && s.hubs[h] == s'.hubs[h])
  }

  /** The loop positions the invariants speak of. */
  ghost predicate Lasting<C>(pc: Pc<C>) {
    pc.HoldsLogin() || pc.Evicting? || pc.Closing?
  }

  /** The events of which the invariants take notice. */
  ghost predicate Loud<C>(s: State<C>, e: Event<C>) {
    match e
    case Connect(_, _) => true
    case SetApp(_, _, _) => true
    case SetUser(_) => true
    case PostLogin(_) => true
    case Pick(_, q) => q == LoginQ
    case Advance(h) => h in s.hubs && (Lasting(s.hubs[h]) || s.hubs[h].GotRegister? || s.hubs[h].GotUnregister?)
    case _ => false
  }

  lemma QuietPick<C>(s: State<C>, h: nat, q: Queue)
    requires h in s.hubs && s.hubs[h] == Idle && q != LoginQ && Ready(s, q)
    ensures Quiet(s, Picked(s, h, q))
  {}

  lemma QuietAdvance<C>(s: State<C>, h: nat)
    requires h in s.hubs && CanAdvance(s, s.hubs[h]) && !Loud(s, Advance(h))
    ensures Quiet(s, Advanced(s, h))
  {}

  lemma QuietOther<C>(s: State<C>, e: Event<C>)
    requires Enabled(s, e) && !Loud(s, e) && !e.Advance? && !e.Pick?
    ensures Quiet(s, Step(s, e))
  {}

  lemma QuietStep<C>(s: State<C>, e: Event<C>)
    requires Enabled(s, e) && !Loud(s, e)
    ensures Quiet(s, Step(s, e))
  {
    if e.Pick? {
      QuietPick(s, e.h, e.q);
    } else if e.Advance? {
      QuietAdvance(s, e.h);
    } else {
      QuietOther(s, e);
    }
  }


  // ---------------------------------------------------------------- identities are kept

  /** An identity, once posted, is never written again. */
  lemma SettledKept<C>(s: State<C>, e: Event<C>, l: LoginEvent<C>)
    requires Enabled(s, e) && Settled(s, l)
    ensures Settled(Step(s, e), l)
  {}

  lemma IdentitiesQuiet<C>(s: State<C>, s': State<C>)
    requires Identities(s) && Quiet(s, s')
    ensures Identities(s')
  {}

  lemma IdentitiesConnect<C>(s: State<C>, e: Event<C>)
    requires Identities(s) && Enabled(s, e) && e.Connect?
    ensures Identities(Step(s, e))
  {}

  lemma IdentitiesSet<C>(s: State<C>, e: Event<C>)
    requires Identities(s) && Enabled(s, e) && (e.SetApp? || e.SetUser?) && Named(e)
    ensures Identities(Step(s, e))
  {}

  lemma IdentitiesPost<C>(s: State<C>, e: Event<C>)
    requires Identities(s) && Enabled(s, e) && e.PostLogin?
    ensures Identities(Step(s, e))
  {}

  lemma IdentitiesPick<C>(s: State<C>, e: Event<C>)
    requires Identities(s) && Enabled(s, e) && e.Pick? && e.q == LoginQ
    ensures Identities(Step(s, e))
  {}

  lemma IdentitiesCheck<C>(s: State<C>, h: nat)
    requires Identities(s) && h in s.hubs && s.hubs[h].GotLogin?
    ensures Identities(Advanced(s, h))
  {}

  lemma IdentitiesJoin<C>(s: State<C>, h: nat)
    requires Identities(s) && h in s.hubs && s.hubs[h].Adding?
    ensures Identities(Advanced(s, h))
  {}

  lemma IdentitiesClients<C>(s: State<C>, h: nat)
    requires Identities(s) && h in s.hubs && (s.hubs[h].GotRegister? || s.hubs[h].GotUnregister?)
    ensures Identities(Advanced(s, h))
  {}

  lemma IdentitiesEvict<C>(s: State<C>, h: nat)
    requires Identities(s) && h in s.hubs && s.hubs[h].Evicting? && CanAdvance(s, s.hubs[h])
    ensures Identities(Advanced(s, h))
  {}

  lemma IdentitiesClose<C>(s: State<C>, h: nat)
    requires Identities(s) && h in s.hubs && s.hubs[h].Closing? && CanAdvance(s, s.hubs[h])
    ensures Identities(Advanced(s, h))
  {}

  lemma IdentitiesAdvance<C>(s: State<C>, h: nat)
    requires Identities(s) && h in s.hubs && CanAdvance(s, s.hubs[h])
    ensures Identities(Advanced(s, h))
  {
    var pc := s.hubs[h];
    if !Loud(s, Advance(h)) {
      QuietAdvance(s, h);
      IdentitiesQuiet(s, Advanced(s, h));
    } else if pc.GotLogin? {
      IdentitiesCheck(s, h);
    } else if pc.Adding? {
      IdentitiesJoin(s, h);
    } else if pc.Evicting? {
      IdentitiesEvict(s, h);
    } else if pc.Closing? {
      IdentitiesClose(s, h);
    } else {
      IdentitiesClients(s, h);
    }
  }

  lemma IdentitiesKept<C>(s: State<C>, e: Event<C>)
    requires Identities(s) && Enabled(s, e) && Named(e)
    ensures Identities(Step(s, e))
  {
    if e.Advance? {
      IdentitiesAdvance(s, e.h);
    } else if !Loud(s, e) {
      QuietStep(s, e);
      IdentitiesQuiet(s, Step(s, e));
    } else if e.Connect? {
      IdentitiesConnect(s, e);
    } else if e.PostLogin? {
      IdentitiesPost(s, e);
    } else if e.Pick? {
      IdentitiesPick(s, e);
    } else {
      IdentitiesSet(s, e);
    }
  }

  // ---------------------------------------------------------------- well-formedness and queues are kept

  lemma WFPick<C>(s: State<C>, e: Event<C>)
    requires WF(s) && Enabled(s, e) && e.Pick?
    ensures WF(Step(s, e))
  {}

  lemma WFAdvance<C>(s: State<C>, h: nat)
    requires WF(s) && h in s.hubs && CanAdvance(s, s.hubs[h])
    ensures WF(Advanced(s, h))
  {}

  lemma WFOther<C>(s: State<C>, e: Event<C>)
    requires WF(s) && Enabled(s, e) && !e.Advance? && !e.Pick?
    ensures WF(Step(s, e))
  {}

  lemma WFKept<C>(s: State<C>, e: Event<C>)
    requires WF(s) && Enabled(s, e)
    ensures WF(Step(s, e))
  {
    if e.Pick? {
      WFPick(s, e);
    } else if e.Advance? {
      WFAdvance(s, e.h);
    } else {
      WFOther(s, e);
    }
  }

  lemma {:induction false} RunWF<C>(s: State<C>, es: seq<Event<C>>)
    requires WF(s) && IsRun(s, es)
    ensures WF(Run(s, es))
    decreases es
  {
    if es != [] {
      WFKept(s, es[0]);
      RunWF(Step(s, es[0]), es[1..]);
    }
  }

  lemma OutsKept<C>(s: State<C>, e: Event<C>)
    requires OutsSound(s) && Enabled(s, e)
    ensures OutsSound(Step(s, e))
  {}

  /** A loop never gets stuck between two critical sections, except while the greeting waits for room in the queue. */
  lemma LoopProgress<C>(s: State<C>, h: nat)
    requires WF(s) && !s.crashed && h in s.hubs && s.hubs[h] != Idle
    ensures (exists e :: Enabled(s, e) && (e == Advance(h) || (e.SendOne? && e.h == h)))
       <==> !(s.hubs[h].Greeting? && var send := s.reg.conns[s.hubs[h].c].out.send; !send.closed && !send.HasRoom())
  {
    var pc := s.hubs[h];
    if pc.Sending? && pc.todo != {} {
      var c :| c in pc.todo;
      assert Enabled(s, SendOne(h, c));
    } else if CanAdvance(s, pc) {
      assert Enabled(s, Event.Advance(h));
    }
  }

  // ---------------------------------------------------------------- each login event is used once

  /** No two login events in flight are of the same connection. */
  ghost predicate FlightsApart<C>(s: State<C>) {
    && (forall i, j | 0 <= i < j < |s.loginQ| :: s.loginQ[i].client != s.loginQ[j].client)
    && (forall i, h | 0 <= i < |s.loginQ| && h in s.hubs && s.hubs[h].HoldsLogin() ::
          s.loginQ[i].client != s.hubs[h].l.client)
    && (forall g, h | g in s.hubs && h in s.hubs && s.hubs[g].HoldsLogin() && s.hubs[h].HoldsLogin() && g != h ::
          s.hubs[g].l.client != s.hubs[h].l.client)
  }

  /** A connection that joined has no login event in flight. */
  ghost predicate JoinedSpent<C>(s: State<C>) {
    forall i | 0 <= i < |s.log| && s.log[i].Joined? ::
      && (forall j | 0 <= j < |s.loginQ| :: s.loginQ[j].client != s.log[i].c)
      && (forall h | h in s.hubs && s.hubs[h].HoldsLogin() :: s.hubs[h].l.client != s.log[i].c)
  }

  ghost predicate PostsOnce<C>(log: seq<Entry<C>>) {
    forall i, j | 0 <= i < j < |log| && log[i].Posted? && log[j].Posted? :: log[i].l.client != log[j].l.client
  }

  ghost predicate JoinsOnce<C>(log: seq<Entry<C>>) {
    forall i, j | 0 <= i < j < |log| && log[i].Joined? && log[j].Joined? :: log[i].c != log[j].c
  }

  ghost predicate Tokens<C>(s: State<C>) {
    FlightsApart(s) && JoinedSpent(s) && PostsOnce(s.log) && JoinsOnce(s.log)
  }

  lemma TokensQuiet<C>(s: State<C>, s': State<C>)
    requires Tokens(s) && Quiet(s, s')
    ensures Tokens(s')
  {}

  lemma TokensPost<C>(s: State<C>, e: Event<C>)
    requires Tokens(s) && Identities(s) && Enabled(s, e) && e.PostLogin?
    ensures Tokens(Step(s, e))
  {
    assert s.readers[e.c].Posting?;
    assert forall i | 0 <= i < |s.log| && s.log[i].Posted? :: s.log[i].l.client != e.c;
    assert forall l | Posted(l) in s.log :: l.client != e.c;
  }

  lemma TokensOther<C>(s: State<C>, e: Event<C>)
    requires Tokens(s) && Enabled(s, e) && Loud(s, e) && !e.PostLogin? && !e.Advance?
    ensures Tokens(Step(s, e))
  {}

  lemma TokensLogin<C>(s: State<C>, h: nat)
    requires Tokens(s) && h in s.hubs && s.hubs[h].HoldsLogin()
    ensures Tokens(Advanced(s, h))
  {}

  lemma TokensClients<C>(s: State<C>, h: nat)
    requires Tokens(s) && h in s.hubs && (s.hubs[h].GotRegister? || s.hubs[h].GotUnregister?)
    ensures Tokens(Advanced(s, h))
  {}

  lemma TokensEvict<C>(s: State<C>, h: nat)
    requires Tokens(s) && h in s.hubs && (s.hubs[h].Evicting? || s.hubs[h].Closing?) && CanAdvance(s, s.hubs[h])
    ensures Tokens(Advanced(s, h))
  {}

  lemma TokensKept<C>(s: State<C>, e: Event<C>)
    requires Tokens(s) && Identities(s) && Enabled(s, e)
    ensures Tokens(Step(s, e))
  {
    if !Loud(s, e) {
      QuietStep(s, e);
      TokensQuiet(s, Step(s, e));
    } else if e.PostLogin? {
      TokensPost(s, e);
    } else if !e.Advance? {
      TokensOther(s, e);
    } else if s.hubs[e.h].HoldsLogin() {
      TokensLogin(s, e.h);
    } else if s.hubs[e.h].Evicting? || s.hubs[e.h].Closing? {
      TokensEvict(s, e.h);
    } else {
      TokensClients(s, e.h);
    }
  }
}
