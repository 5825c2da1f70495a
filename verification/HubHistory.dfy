/** The users map as a function of the hub's history, for any number of dispatch loops. */
module HubHistory {
  import opened Hub
  import opened HubInvariants

  /** Every user is filed under the key of its connection's current identity. */
  ghost predicate KeysConsistent<C>(r: Registry<C>) {
    forall k | k in r.users :: r.users[k] in r.conns && k == r.conns[r.users[k]].GetKey()
  }

  /** Entry i of the log is a login that still stands: no later login took its key, and its connection has not
      unregistered since. */
  ghost predicate Stands<C>(log: seq<Entry<C>>, i: int) {
    && 0 <= i < |log| && log[i].Joined?
    && (forall j | i < j < |log| :: !(log[j].Joined? && log[j].key == log[i].key))
    && (forall j | i < j < |log| :: !(log[j].Left? && log[j].c == log[i].c))
  }

  /** Users holds exactly the standing logins. */
  ghost predicate UsersStand<C>(s: State<C>) {
    && (forall k | k in s.reg.users :: exists i :: Stands(s.log, i) && s.log[i] == Joined(k, s.reg.users[k]))
    && (forall i | Stands(s.log, i) :: s.log[i].key in s.reg.users && s.reg.users[s.log[i].key] == s.log[i].c)
  }

  /** Entry i of the log registered a connection that has not been removed since. */
  ghost predicate Live<C>(log: seq<Entry<C>>, i: int) {
    && 0 <= i < |log| && log[i].Registered?
    && (forall j | i < j < |log| :: log[j] != Gone(log[i].c))
  }

  /** Clients holds exactly the live registrations. */
  ghost predicate ClientsLive<C>(s: State<C>) {
    && (forall c | c in s.reg.clients :: exists i :: Live(s.log, i) && s.log[i] == Registered(c))
    && (forall i | Live(s.log, i) :: s.log[i].c in s.reg.clients)
  }

  /** Before it joins, a connection has been registered and has posted the login event with the key it joins under. */
  ghost predicate JoinsOrdered<C>(log: seq<Entry<C>>) {
    forall i | 0 <= i < |log| && log[i].Joined? ::
      && (exists j :: 0 <= j < i && log[j] == Registered(log[i].c))
      && (exists j :: 0 <= j < i && log[j].Posted? && log[j].l.client == log[i].c && log[j].l.GetKey() == log[i].key)
  }

  lemma IdentitiesConsistent<C>(s: State<C>)
    requires Identities(s)
    ensures KeysConsistent(s.reg)
  {
    forall k | k in s.reg.users ensures s.reg.users[k] in s.reg.conns && k == s.reg.conns[s.reg.users[k]].GetKey() {
      var i :| 0 <= i < |s.log| && s.log[i] == Joined(k, s.reg.users[k]);
      assert s.log[i].c in s.reg.conns;
    }
  }

  /** With consistent keys and unique addresses, DelUsers removes the connection's own entries and no other:
      unregistering an older connection never evicts the newer one of the same user. */
  lemma DelUsersExact<C>(r: Registry<C>, c: C)
    requires KeysConsistent(r) && UniqueAddrs(r) && c in r.conns
    ensures forall k :: k in DelUsers(r, c).users <==> k in r.users && r.users[k] != c
    ensures forall k | k in DelUsers(r, c).users :: DelUsers(r, c).users[k] == r.users[k]
    ensures Evicts(r, c) <==> c in r.users.Values
  {
    if c in r.users.Values {
      var k :| k in r.users && r.users[k] == c;
      assert k == r.conns[c].GetKey();
    }
  }

  /** Without unique addresses it may evict another: exactly when the entry under the connection's key is another's
      and comes from the same address. */
  lemma DelUsersEvictsOther<C>(r: Registry<C>, c: C)
    requires KeysConsistent(r) && c in r.conns
    ensures (exists k :: k in r.users && r.users[k] != c && k !in DelUsers(r, c).users)
       <==> (var key := r.conns[c].GetKey();
             key in r.users && r.users[key] != c && r.conns[r.users[key]].addr == r.conns[c].addr)
  {}

  // ---------------------------------------------------------------- kept by every step

  /** The users are as before, and nobody joined or left. */
  ghost predicate SameUsers<C>(s: State<C>, s': State<C>) {
    && s.reg.users == s'.reg.users
    && s.log <= s'.log && |s'.log| <= |s.log| + 1
    && (|s'.log| > |s.log| ==> !s'.log[|s.log|].Joined? && !s'.log[|s.log|].Left?)
  }

  lemma StandsExtend<C>(log: seq<Entry<C>>, x: Entry<C>, i: int)
    ensures 0 <= i < |log| ==>
      (Stands(log + [x], i) <==>
        Stands(log, i) && !(x.Joined? && x.key == log[i].key) && !(x.Left? && x.c == log[i].c))
  {
    var log' := log + [x];
    if 0 <= i < |log| && Stands(log', i) {
      forall j | i < j < |log| ensures !(log[j].Joined? && log[j].key == log[i].key) { assert log'[j] == log[j]; }
      forall j | i < j < |log| ensures !(log[j].Left? && log[j].c == log[i].c) { assert log'[j] == log[j]; }
      assert log'[|log|] == x;
    }
  }

  lemma StandSame<C>(s: State<C>, s': State<C>)
    requires UsersStand(s) && SameUsers(s, s')
    ensures UsersStand(s')
  {
    if |s'.log| > |s.log| {
      var x := s'.log[|s.log|];
      assert s'.log == s.log + [x];
      forall i ensures Stands(s'.log, i) <==> Stands(s.log, i) { StandsExtend(s.log, x, i); }
    } else {
      assert s'.log == s.log;
    }
  }

  lemma SameUsersStep<C>(s: State<C>, e: Event<C>)
    requires Enabled(s, e) && !e.Advance?
    ensures SameUsers(s, Step(s, e))
  {}

  lemma SameUsersAdvance<C>(s: State<C>, h: nat)
    requires h in s.hubs && CanAdvance(s, s.hubs[h]) && !s.hubs[h].Adding? && !s.hubs[h].Evicting?
    ensures SameUsers(s, Advanced(s, h))
  {}

  lemma StandJoin<C>(s: State<C>, h: nat)
    requires UsersStand(s) && h in s.hubs && s.hubs[h].Adding?
    ensures UsersStand(Advanced(s, h))
  {
    var s', l := Advanced(s, h), s.hubs[h].l;
    var x := Joined(l.GetKey(), l.client);
    assert s'.log == s.log + [x] && Stands(s'.log, |s.log|);
    forall k | k in s'.reg.users ensures exists i :: Stands(s'.log, i) && s'.log[i] == Joined(k, s'.reg.users[k]) {
      if k != l.GetKey() {
        var i :| Stands(s.log, i) && s.log[i] == Joined(k, s.reg.users[k]);
        StandsExtend(s.log, x, i);
        assert s'.log[i] == s.log[i];
      }
    }
    forall i | Stands(s'.log, i) ensures s'.log[i].key in s'.reg.users && s'.reg.users[s'.log[i].key] == s'.log[i].c {
      StandsExtend(s.log, x, i);
    }
  }

  lemma StandLeave<C>(s: State<C>, h: nat)
    requires UsersStand(s) && KeysConsistent(s.reg) && UniqueAddrs(s.reg)
    requires h in s.hubs && s.hubs[h].Evicting? && CanAdvance(s, s.hubs[h])
    ensures UsersStand(Advanced(s, h))
  {
    var s', c := Advanced(s, h), s.hubs[h].c;
    var x := Left(c, Evicts(s.reg, c));
    assert s'.log == s.log + [x] && s'.reg == DelUsers(s.reg, c);
    DelUsersExact(s.reg, c);
    forall k | k in s'.reg.users ensures exists i :: Stands(s'.log, i) && s'.log[i] == Joined(k, s'.reg.users[k]) {
      var i :| Stands(s.log, i) && s.log[i] == Joined(k, s.reg.users[k]);
      StandsExtend(s.log, x, i);
      assert s'.log[i] == s.log[i];
    }
    forall i | Stands(s'.log, i) ensures s'.log[i].key in s'.reg.users && s'.reg.users[s'.log[i].key] == s'.log[i].c {
      StandsExtend(s.log, x, i);
    }
  }

  lemma StandKept<C>(s: State<C>, e: Event<C>)
    requires UsersStand(s) && KeysConsistent(s.reg) && UniqueAddrs(s.reg) && Enabled(s, e)
    ensures UsersStand(Step(s, e))
  {
    if e.Advance? && s.hubs[e.h].Adding? {
      StandJoin(s, e.h);
    } else if e.Advance? && s.hubs[e.h].Evicting? {
      StandLeave(s, e.h);
    } else {
      if e.Advance? { SameUsersAdvance(s, e.h); } else { SameUsersStep(s, e); }
      StandSame(s, Step(s, e));
    }
  }

  lemma UniqueKept<C>(s: State<C>, e: Event<C>)
    requires UniqueAddrs(s.reg) && Enabled(s, e) && FreshAddr(s, e)
    ensures UniqueAddrs(Step(s, e).reg)
  {
    if !Loud(s, e) { QuietStep(s, e); }
  }

  lemma LiveExtend<C>(log: seq<Entry<C>>, x: Entry<C>, i: int)
    ensures 0 <= i < |log| ==> (Live(log + [x], i) <==> Live(log, i) && x != Gone(log[i].c))
  {
    var log' := log + [x];
    if 0 <= i < |log| && Live(log', i) {
      forall j | i < j < |log| ensures log[j] != Gone(log[i].c) { assert log'[j] == log[j]; }
      assert log'[|log|] == x;
    }
  }

  /** What a step does to Clients, next to the entry it logs. */
  ghost predicate ClientsStep<C>(s: State<C>, s': State<C>) {
    || (s'.log == s.log && s'.reg.clients == s.reg.clients)
    || (|s'.log| == |s.log| + 1 && s.log <= s'.log &&
        s'.reg.clients == match s'.log[|s.log|]
                          case Registered(c) => s.reg.clients + {c}
                          case Gone(c) => s.reg.clients - {c}
                          case _ => s.reg.clients)
  }

  lemma LiveStep<C>(s: State<C>, s': State<C>)
    requires ClientsLive(s) && ClientsStep(s, s')
    ensures ClientsLive(s')
  {
    if s'.log != s.log {
      var x := s'.log[|s.log|];
      assert s'.log == s.log + [x];
      assert x.Registered? ==> Live(s'.log, |s.log|);
      forall c | c in s'.reg.clients ensures exists i :: Live(s'.log, i) && s'.log[i] == Registered(c) {
        if x != Registered(c) {
          var i :| Live(s.log, i) && s.log[i] == Registered(c);
          LiveExtend(s.log, x, i);
          assert s'.log[i] == s.log[i];
        }
      }
      forall i | Live(s'.log, i) ensures s'.log[i].c in s'.reg.clients { LiveExtend(s.log, x, i); }
    }
  }

  lemma ClientsStepOther<C>(s: State<C>, e: Event<C>)
    requires Enabled(s, e) && !e.Advance?
    ensures ClientsStep(s, Step(s, e))
  {}

  lemma ClientsStepAdvance<C>(s: State<C>, h: nat)
    requires h in s.hubs && CanAdvance(s, s.hubs[h])
    ensures ClientsStep(s, Advanced(s, h))
  {}

  lemma LiveKept<C>(s: State<C>, e: Event<C>)
    requires ClientsLive(s) && Enabled(s, e)
    ensures ClientsLive(Step(s, e))
  {
    if e.Advance? { ClientsStepAdvance(s, e.h); } else { ClientsStepOther(s, e); }
    LiveStep(s, Step(s, e));
  }

  lemma OrderedJoin<C>(s: State<C>, h: nat)
    requires JoinsOrdered(s.log) && FlightsPosted(s) && ClientsRegistered(s) && h in s.hubs && s.hubs[h].Adding?
    ensures JoinsOrdered(Advanced(s, h).log)
  {
    var log, l := s.log, s.hubs[h].l;
    var i :| 0 <= i < |log| && log[i] == Registered(l.client);
    var j :| 0 <= j < |log| && log[j] == Posted(l);
    OrderedExtend(log, Joined(l.GetKey(), l.client), i, j);
  }

  lemma OrderedExtend<C>(log: seq<Entry<C>>, x: Entry<C>, r: int, p: int)
    requires JoinsOrdered(log)
    requires x.Joined? ==>
      && 0 <= r < |log| && log[r] == Registered(x.c)
      && 0 <= p < |log| && log[p].Posted? && log[p].l.client == x.c && log[p].l.GetKey() == x.key
    ensures JoinsOrdered(log + [x])
  {
    var log' := log + [x];
    forall i | 0 <= i < |log'| && log'[i].Joined?
      ensures exists j :: 0 <= j < i && log'[j] == Registered(log'[i].c)
      ensures exists j :: 0 <= j < i && log'[j].Posted? && log'[j].l.client == log'[i].c && log'[j].l.GetKey() == log'[i].key
    {
      if i < |log| {
        var a :| 0 <= a < i && log[a] == Registered(log[i].c);
        var b :| 0 <= b < i && log[b].Posted? && log[b].l.client == log[i].c && log[b].l.GetKey() == log[i].key;
        assert log'[a] == log[a] && log'[b] == log[b];
      } else {
        assert log'[r] == log[r] && log'[p] == log[p];
      }
    }
  }

  /** Only the step that joins logs a joining. */
  lemma JoinLogged<C>(s: State<C>, e: Event<C>)
    requires Enabled(s, e) && !(e.Advance? && s.hubs[e.h].Adding?)
    ensures var log' := Step(s, e).log;
            log' == s.log || exists x :: log' == s.log + [x] && !x.Joined?
  {}

  lemma OrderedKept<C>(s: State<C>, e: Event<C>)
    requires JoinsOrdered(s.log) && FlightsPosted(s) && ClientsRegistered(s) && Enabled(s, e)
    ensures JoinsOrdered(Step(s, e).log)
  {
    if e.Advance? && s.hubs[e.h].Adding? {
      OrderedJoin(s, e.h);
    } else {
      JoinLogged(s, e);
      if Step(s, e).log != s.log { OrderedExtend(s.log, Step(s, e).log[|s.log|], 0, 0); }
    }
  }
}
