/** What holds with one dispatch loop only: every user is among the clients. */
module SingleHub {
  import opened Hub
  import opened HubInvariants
  import opened HubHistory
  import opened HubTheorems

  ghost predicate OneLoop<C>(s: State<C>) {
    forall g, h | g in s.hubs && h in s.hubs :: g == h
  }

  /** A loop is between the two halves of Unregister for this connection. */
  ghost predicate Leaving<C>(s: State<C>, c: C) {
    exists h :: h in s.hubs && s.hubs[h] == Evicting(c)
  }

  ghost predicate Contained<C>(s: State<C>) {
    && (forall k | k in s.reg.users :: s.reg.users[k] in s.reg.clients || Leaving(s, s.reg.users[k]))
    && (forall h | h in s.hubs && s.hubs[h].Adding? :: s.hubs[h].l.client in s.reg.clients)
  }

  /** Every login that joined was of a connection registered and not removed at that moment. */
  ghost predicate JoinsLive<C>(log: seq<Entry<C>>) {
    forall i | 0 <= i < |log| && log[i].Joined? :: exists j :: Live(log[..i], j) && log[j] == Registered(log[i].c)
  }

  lemma ContainedQuiet<C>(s: State<C>, s': State<C>)
    requires Contained(s) && Quiet(s, s')
    ensures Contained(s')
  {
    forall k | k in s'.reg.users ensures s'.reg.users[k] in s'.reg.clients || Leaving(s', s'.reg.users[k]) {
      if Leaving(s, s.reg.users[k]) {
        var h :| h in s.hubs && s.hubs[h] == Evicting(s.reg.users[k]);
        assert s'.hubs[h] == s.hubs[h];
      }
    }
  }

  lemma ContainedOther<C>(s: State<C>, e: Event<C>)
    requires Contained(s) && Enabled(s, e) && Loud(s, e) && !e.Advance?
    ensures Contained(Step(s, e))
  {
    var s' := Step(s, e);
    forall k | k in s'.reg.users ensures s'.reg.users[k] in s'.reg.clients || Leaving(s', s'.reg.users[k]) {
      if Leaving(s, s.reg.users[k]) {
        var h :| h in s.hubs && s.hubs[h] == Evicting(s.reg.users[k]);
        assert s'.hubs[h] == s.hubs[h];
      }
    }
  }

  lemma ContainedAdvance<C>(s: State<C>, h: nat)
    requires Contained(s) && OneLoop(s) && KeysConsistent(s.reg) && h in s.hubs && CanAdvance(s, s.hubs[h])
    requires Loud(s, Event.Advance(h))
    ensures Contained(Advanced(s, h))
  {
    var s' := Advanced(s, h);
    assert forall g | g in s.hubs :: g == h;
    if s.hubs[h].GotUnregister? { assert s'.hubs[h] == Evicting(s.hubs[h].c); }
  }

  lemma ContainedKept<C>(s: State<C>, e: Event<C>)
    requires Contained(s) && OneLoop(s) && KeysConsistent(s.reg) && Enabled(s, e)
    ensures Contained(Step(s, e))
  {
    if !Loud(s, e) {
      QuietStep(s, e);
      ContainedQuiet(s, Step(s, e));
    } else if e.Advance? {
      ContainedAdvance(s, e.h);
    } else {
      ContainedOther(s, e);
    }
  }

  lemma JoinsLiveKept<C>(s: State<C>, e: Event<C>)
    requires JoinsLive(s.log) && ClientsLive(s) && Contained(s) && Enabled(s, e)
    ensures JoinsLive(Step(s, e).log)
  {
    var log, log' := s.log, Step(s, e).log;
    if e.Advance? && s.hubs[e.h].Adding? {
      var c := s.hubs[e.h].l.client;
      var j :| Live(log, j) && log[j] == Registered(c);
      assert log'[..|log|] == log;
    } else {
      JoinLogged(s, e);
    }
    forall i | 0 <= i < |log'| && log'[i].Joined?
      ensures exists j :: Live(log'[..i], j) && log'[j] == Registered(log'[i].c)
    {
      if i < |log| {
        var j :| Live(log[..i], j) && log[j] == Registered(log[i].c);
        assert log'[..i] == log[..i];
      }
    }
  }

  /** The number of dispatch loops a run starts. */
  function Loops<C>(es: seq<Event<C>>): nat {
    if es == [] then 0 else (if es[0].StartHub? then 1 else 0) + Loops(es[1..])
  }

  lemma {:induction false} RunContained<C>(s: State<C>, es: seq<Event<C>>)
    requires Inv(s) && Contained(s) && JoinsLive(s.log)
    requires IsRun(s, es) && AllNamed(es) && OneLoop(s) && |s.hubs| + Loops(es) <= 1
    ensures Contained(Run(s, es)) && JoinsLive(Run(s, es).log)
    decreases es
  {
    if es != [] {
      var s' := Step(s, es[0]);
      assert Named(es[0]);
      InvKept(s, es[0]);
      IdentitiesConsistent(s);
      ContainedKept(s, es[0]);
      JoinsLiveKept(s, es[0]);
      HubsGrow(s, es[0]);
      RunContained(s', es[1..]);
    }
  }

  lemma HubsSame<C>(s: State<C>, e: Event<C>)
    requires Enabled(s, e) && !e.StartHub?
    ensures Step(s, e).hubs.Keys == s.hubs.Keys
  {
    if e.Advance? { HubsSameAdvance(s, e.h); }
  }

  lemma HubsSameAdvance<C>(s: State<C>, h: nat)
    requires h in s.hubs && CanAdvance(s, s.hubs[h])
    ensures Advanced(s, h).hubs.Keys == s.hubs.Keys
  {}

  lemma HubsGrow<C>(s: State<C>, e: Event<C>)
    requires Enabled(s, e) && OneLoop(s) && |s.hubs| + (if e.StartHub? then 1 else 0) <= 1
    ensures |Step(s, e).hubs| == |s.hubs| + if e.StartHub? then 1 else 0
    ensures OneLoop(Step(s, e))
  {
    var s' := Step(s, e);
    if e.StartHub? {
      assert s.hubs.Keys == {} && s'.hubs.Keys == {e.h};
    } else {
      HubsSame(s, e);
      assert |s'.hubs.Keys| == |s.hubs.Keys|;
    }
  }

  /** With one dispatch loop every user is among the clients, in every state of every run, except for the one connection
      the loop is just unregistering; and a login joined only if its connection was registered and not removed. */
  lemma UsersAreClients<C>(es: seq<Event<C>>)
    requires IsRun(Init<C>(), es) && AllNamed(es) && Loops(es) <= 1
    ensures var s := Run(Init<C>(), es);
            && (forall k | k in s.reg.users :: s.reg.users[k] in s.reg.clients || Leaving(s, s.reg.users[k]))
            && (AllIdle(s) ==> s.reg.users.Values <= s.reg.clients)
            && JoinsLive(s.log)
  {
    InitInv<C>();
    RunContained(Init<C>(), es);
  }

  ghost predicate AllIdle<C>(s: State<C>) {
    forall h | h in s.hubs :: s.hubs[h] == Idle
  }
}
