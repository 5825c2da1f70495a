/** Evictions from the users map and the closing of queues on Unregister, for any number of dispatch loops. */
module HubEvictions {
  import opened Hub
  import opened HubInvariants

  ghost predicate Evicted<C>(log: seq<Entry<C>>, i: int) {
    0 <= i < |log| && log[i].Left? && log[i].evicted
  }

  /** An evicted connection had joined, and is no longer among the users. */
  ghost predicate EvictedOut<C>(s: State<C>) {
    forall i | Evicted(s.log, i) ::
      var c := s.log[i].c;
      && c in s.reg.conns
      && Joined(s.reg.conns[c].GetKey(), c) in s.log
      && (forall k | k in s.reg.users :: s.reg.users[k] != c)
  }

  ghost predicate PendingClose<C>(s: State<C>, c: C) {
    exists h :: h in s.hubs && s.hubs[h] == Closing(c)
  }

  /** A loop about to close a queue does so for an eviction not yet followed by a close, and no two loops for the same. */
  ghost predicate ClosingsDue<C>(s: State<C>) {
    && (forall h | h in s.hubs && s.hubs[h].Closing? ::
          Left(s.hubs[h].c, true) in s.log && Shut(s.hubs[h].c) !in s.log)
    && (forall g, h | g in s.hubs && h in s.hubs && s.hubs[g].Closing? && s.hubs[h].Closing? && g != h ::
          s.hubs[g].c != s.hubs[h].c)
  }

  /** Unregister closes a queue for an eviction only, and an eviction not yet followed by a close has a loop at it. */
  ghost predicate ShutsMatch<C>(s: State<C>) {
    && (forall i | 0 <= i < |s.log| && s.log[i].Shut? :: Left(s.log[i].c, true) in s.log)
    && (forall i | Evicted(s.log, i) && Shut(s.log[i].c) !in s.log :: PendingClose(s, s.log[i].c))
  }

  ghost predicate EvictsOnce<C>(log: seq<Entry<C>>) {
    forall i, j | Evicted(log, i) && Evicted(log, j) && i < j :: log[i].c != log[j].c
  }

  ghost predicate ShutsOnce<C>(log: seq<Entry<C>>) {
    forall i, j | 0 <= i < j < |log| && log[i].Shut? && log[j].Shut? :: log[i].c != log[j].c
  }

  ghost predicate Evictions<C>(s: State<C>) {
    EvictedOut(s) && ClosingsDue(s) && ShutsMatch(s) && EvictsOnce(s.log) && ShutsOnce(s.log)
  }

  /** Nothing about evictions changes: no one is evicted or shut, and no evicted connection comes back. */
  ghost predicate Calm<C>(s: State<C>, s': State<C>) {
    && (forall c | c in s.reg.conns && Joined(s.reg.conns[c].GetKey(), c) in s.log ::
          c in s'.reg.conns && s'.reg.conns[c].GetKey() == s.reg.conns[c].GetKey())
    && s.log <= s'.log
    && (forall i | |s.log| <= i < |s'.log| :: !Evicted(s'.log, i) && !s'.log[i].Shut?)
    && (forall k | k in s'.reg.users ::
          (k in s.reg.users && s.reg.users[k] == s'.reg.users[k]) || Left(s'.reg.users[k], true) !in s.log)
    && (forall h | h in s.hubs && s.hubs[h].Closing? :: h in s'.hubs && s'.hubs[h] == s.hubs[h])
    && (forall h | h in s'.hubs && s'.hubs[h].Closing? :: h in s.hubs && s'.hubs[h] == s.hubs[h])
  }

  lemma EvictionsCalm<C>(s: State<C>, s': State<C>)
    requires Evictions(s) && Calm(s, s')
    ensures Evictions(s')
  {
    forall i | Evicted(s'.log, i) && Shut(s'.log[i].c) !in s'.log ensures PendingClose(s', s'.log[i].c) {
      assert s'.log[i] == s.log[i];
      assert PendingClose(s, s.log[i].c);
    }
  }

  lemma CalmQuiet<C>(s: State<C>, s': State<C>)
    requires Quiet(s, s')
    ensures Calm(s, s')
  {}

  lemma CalmConnect<C>(s: State<C>, e: Event<C>)
    requires Enabled(s, e) && e.Connect?
    ensures Calm(s, Step(s, e))
  {}

  lemma CalmWrite<C>(s: State<C>, e: Event<C>)
    requires Identities(s) && Enabled(s, e) && (e.SetApp? || e.SetUser?)
    ensures Calm(s, Step(s, e))
  {
    assert forall c | c in s.reg.conns && Joined(s.reg.conns[c].GetKey(), c) in s.log :: c != e.c;
  }

  lemma CalmFlight<C>(s: State<C>, e: Event<C>)
    requires Enabled(s, e) && (e.PostLogin? || e.Pick?)
    ensures Calm(s, Step(s, e))
  {}

  lemma CalmClients<C>(s: State<C>, h: nat)
    requires h in s.hubs && (s.hubs[h].GotRegister? || s.hubs[h].GotUnregister? || s.hubs[h].GotLogin?)
    ensures Calm(s, Advanced(s, h))
  {}

  lemma CalmJoin<C>(s: State<C>, h: nat)
    requires JoinedSpent(s) && EvictedOut(s) && h in s.hubs && s.hubs[h].Adding?
    ensures Calm(s, Advanced(s, h))
  {}

  lemma CalmLeave<C>(s: State<C>, h: nat)
    requires h in s.hubs && s.hubs[h].Evicting? && CanAdvance(s, s.hubs[h]) && !Evicts(s.reg, s.hubs[h].c)
    ensures Calm(s, Advanced(s, h))
  {}

  /** With unique addresses the entry DelUsers removes is the connection's own, and it is removed for the first time. */
  lemma EvictsOwn<C>(s: State<C>, c: C)
    requires Evictions(s) && UsersJoined(s) && UniqueAddrs(s.reg) && c in s.reg.conns && Evicts(s.reg, c)
    ensures var key := s.reg.conns[c].GetKey(); s.reg.users[key] == c && Joined(key, c) in s.log
    ensures Left(c, true) !in s.log && Shut(c) !in s.log && !PendingClose(s, c)
  {
    var key := s.reg.conns[c].GetKey();
    assert s.reg.users[key] == c;
  }

  lemma EvictedOutEvict<C>(s: State<C>, h: nat)
    requires Evictions(s) && UsersJoined(s) && JoinsJustified(s) && UniqueAddrs(s.reg)
    requires h in s.hubs && s.hubs[h].Evicting? && CanAdvance(s, s.hubs[h]) && Evicts(s.reg, s.hubs[h].c)
    ensures EvictedOut(Advanced(s, h))
  {
    EvictsOwn(s, s.hubs[h].c);
    var s' := Advanced(s, h);
    forall i | Evicted(s'.log, i)
      ensures forall k | k in s'.reg.users :: s'.reg.users[k] != s'.log[i].c
    {
      assert i < |s.log| ==> Evicted(s.log, i);
    }
  }

  lemma ClosingsEvict<C>(s: State<C>, h: nat)
    requires Evictions(s) && UsersJoined(s) && UniqueAddrs(s.reg)
    requires h in s.hubs && s.hubs[h].Evicting? && CanAdvance(s, s.hubs[h]) && Evicts(s.reg, s.hubs[h].c)
    ensures ClosingsDue(Advanced(s, h))
  {
    EvictsOwn(s, s.hubs[h].c);
  }

  lemma ShutsEvict<C>(s: State<C>, h: nat)
    requires Evictions(s) && UsersJoined(s) && UniqueAddrs(s.reg)
    requires h in s.hubs && s.hubs[h].Evicting? && CanAdvance(s, s.hubs[h]) && Evicts(s.reg, s.hubs[h].c)
    ensures var s' := Advanced(s, h); ShutsMatch(s') && EvictsOnce(s'.log) && ShutsOnce(s'.log)
  {
    var c, s' := s.hubs[h].c, Advanced(s, h);
    EvictsOwn(s, c);
    assert s'.hubs[h] == Closing(c);
    forall i | Evicted(s'.log, i) && Shut(s'.log[i].c) !in s'.log ensures PendingClose(s', s'.log[i].c) {
      if i < |s.log| {
        assert Evicted(s.log, i) && PendingClose(s, s.log[i].c);
        var g :| g in s.hubs && s.hubs[g] == Closing(s.log[i].c);
        assert s'.hubs[g] == Closing(s.log[i].c);
      }
    }
    forall i, j | Evicted(s'.log, i) && Evicted(s'.log, j) && i < j ensures s'.log[i].c != s'.log[j].c {
      assert Evicted(s.log, i);
    }
  }

  lemma EvictionsClose<C>(s: State<C>, h: nat)
    requires Evictions(s) && h in s.hubs && s.hubs[h].Closing? && CanAdvance(s, s.hubs[h])
    requires !s.reg.conns[s.hubs[h].c].out.send.closed
    ensures Evictions(Advanced(s, h))
  {
    var c, s' := s.hubs[h].c, Advanced(s, h);
    assert s'.log == s.log + [Shut(c)];
    assert forall i :: Evicted(s'.log, i) <==> Evicted(s.log, i);
    forall i | Evicted(s'.log, i) && Shut(s'.log[i].c) !in s'.log ensures PendingClose(s', s'.log[i].c) {
      assert PendingClose(s, s.log[i].c) && s.log[i].c != c;
      var g :| g in s.hubs && s.hubs[g] == Closing(s.log[i].c);
      assert s'.hubs[g] == Closing(s.log[i].c);
    }
  }

  lemma EvictionsAdvance<C>(s: State<C>, h: nat)
    requires Evictions(s) && Identities(s) && Tokens(s) && UniqueAddrs(s.reg)
    requires h in s.hubs && CanAdvance(s, s.hubs[h]) && Loud(s, Event.Advance(h))
    ensures Evictions(Advanced(s, h))
  {
    var pc := s.hubs[h];
    if pc.Evicting? && Evicts(s.reg, pc.c) {
      EvictedOutEvict(s, h);
      ClosingsEvict(s, h);
      ShutsEvict(s, h);
    } else if pc.Closing? {
      if !s.reg.conns[pc.c].out.send.closed { EvictionsClose(s, h); }
    } else {
      if pc.Evicting? { CalmLeave(s, h); } else if pc.Adding? { CalmJoin(s, h); } else { CalmClients(s, h); }
      EvictionsCalm(s, Advanced(s, h));
    }
  }

  lemma EvictionsKept<C>(s: State<C>, e: Event<C>)
    requires Evictions(s) && Identities(s) && Tokens(s) && UniqueAddrs(s.reg) && Enabled(s, e)
    ensures Evictions(Step(s, e))
  {
    if !e.Advance? || !Loud(s, e) {
      if !Loud(s, e) {
        QuietStep(s, e);
        CalmQuiet(s, Step(s, e));
      } else if e.PostLogin? || e.Pick? {
        CalmFlight(s, e);
      } else if e.Connect? {
        CalmConnect(s, e);
      } else {
        CalmWrite(s, e);
      }
      EvictionsCalm(s, Step(s, e));
    } else {
      EvictionsAdvance(s, e.h);
    }
  }
}
