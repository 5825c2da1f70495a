/** The two lookups of a dispatch loop, a login's and an Unregister's, answer what the history says at that moment. */
module HubChecks {
  import opened Hub
  import opened HubInvariants
  import opened HubHistory
  import opened HubTheorems
  import opened HubFlow

  /** A login is let in exactly if its connection has a registration that has not been undone. */
  ghost predicate LooksTrue<C>(log: seq<Entry<C>>) {
    forall i | 0 <= i < |log| && log[i].Looked? ::
      log[i].found <==> exists j :: Live(log[..i], j) && log[j] == Registered(log[i].l.client)
  }

  /** An Unregister removes an entry exactly if its connection has a login that still stands. */
  ghost predicate LeavesTrue<C>(log: seq<Entry<C>>) {
    forall i | 0 <= i < |log| && log[i].Left? ::
      log[i].evicted <==> exists j :: Stands(log[..i], j) && log[j].c == log[i].c
  }

  /** Every step logs one entry or none, and those two kinds of entry with what the maps hold. */
  lemma LogsOne<C>(s: State<C>, e: Event<C>)
    requires WF(s) && Enabled(s, e)
    ensures var log' := Step(s, e).log;
            log' == s.log || (log' == s.log + [log'[|s.log|]] &&
              match log'[|s.log|]
              case Looked(l, found) => found == (l.client in s.reg.clients)
              case Left(c, evicted) => c in s.reg.conns && evicted == Evicts(s.reg, c)
              case _ => true)
  {
    if e.Advance? { AdvanceMoves(s, e.h); } else { OtherMoves(s, e); }
  }

  lemma LooksKept<C>(s: State<C>, e: Event<C>)
    requires WF(s) && LooksTrue(s.log) && ClientsLive(s) && Enabled(s, e)
    ensures LooksTrue(Step(s, e).log)
  {
    var log, log' := s.log, Step(s, e).log;
    LogsOne(s, e);
    forall i | 0 <= i < |log'| && log'[i].Looked?
      ensures log'[i].found <==> exists j :: Live(log'[..i], j) && log'[j] == Registered(log'[i].l.client)
    {
      assert log'[..i] == log[..i];
      if i == |log| { assert log[..i] == log; }
    }
  }

  lemma LeavesKept<C>(s: State<C>, e: Event<C>)
    requires WF(s) && LeavesTrue(s.log) && UsersStand(s) && KeysConsistent(s.reg) && UniqueAddrs(s.reg) && Enabled(s, e)
    ensures LeavesTrue(Step(s, e).log)
  {
    var log, log' := s.log, Step(s, e).log;
    LogsOne(s, e);
    forall i | 0 <= i < |log'| && log'[i].Left?
      ensures log'[i].evicted <==> exists j :: Stands(log'[..i], j) && log'[j].c == log'[i].c
    {
      assert log'[..i] == log[..i];
      if i == |log| {
        assert log[..i] == log;
        DelUsersExact(s.reg, log'[i].c);
        StandsFor(s, log'[i].c);
      }
    }
  }

  lemma StandsFor<C>(s: State<C>, c: C)
    requires UsersStand(s)
    ensures c in s.reg.users.Values <==> exists j :: Stands(s.log, j) && s.log[j].c == c
  {
    if c in s.reg.users.Values {
      var k :| k in s.reg.users && s.reg.users[k] == c;
    }
  }

  lemma {:induction false} RunLooks<C>(s: State<C>, es: seq<Event<C>>)
    requires WF(s) && LooksTrue(s.log) && ClientsLive(s) && IsRun(s, es)
    ensures LooksTrue(Run(s, es).log)
    decreases es
  {
    if es != [] {
      LooksKept(s, es[0]);
      WFKept(s, es[0]);
      LiveKept(s, es[0]);
      RunLooks(Step(s, es[0]), es[1..]);
    }
  }

  lemma {:induction false} RunLeaves<C>(s: State<C>, es: seq<Event<C>>)
    requires InvUnique(s) && LeavesTrue(s.log) && IsRun(s, es) && AllNamed(es) && AllFresh(s, es)
    ensures LeavesTrue(Run(s, es).log)
    decreases es
  {
    if es != [] {
      assert Named(es[0]);
      IdentitiesConsistent(s);
      LeavesKept(s, es[0]);
      InvUniqueKept(s, es[0]);
      RunLeaves(Step(s, es[0]), es[1..]);
    }
  }

  /** In every run, for any number of loops, a login is let in exactly if its connection is registered at that moment. */
  lemma LoginsChecked<C>(es: seq<Event<C>>)
    requires IsRun(Init<C>(), es)
    ensures LooksTrue(Run(Init<C>(), es).log)
  {
    InitInv<C>();
    RunLooks(Init<C>(), es);
  }

  /** And, with unique addresses, an Unregister finds an entry exactly if its connection's login still stands. */
  lemma LeavesChecked<C>(es: seq<Event<C>>)
    requires IsRun(Init<C>(), es) && AllNamed(es) && AllFresh(Init<C>(), es)
    ensures LeavesTrue(Run(Init<C>(), es).log)
  {
    InitUnique<C>();
    RunLeaves(Init<C>(), es);
  }
}
