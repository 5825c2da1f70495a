/** The users map as a function of the history when connections may share an address: Unregister can then remove another
    connection's entry, but always the one under its own key, and that key is settled by then. */
module HubShared {
  import opened UserKey
  import opened Hub
  import opened HubInvariants
  import opened HubEvictions

  /** Entry j of the log removed the entry under this key. */
  ghost predicate Removed<C>(s: State<C>, j: int, key: string) {
    Evicted(s.log, j) && s.log[j].c in s.reg.conns && s.reg.conns[s.log[j].c].GetKey() == key
  }

  /** Entry i of the log is the last login of its key, and no connection with that key has removed an entry since. */
  ghost predicate Keeps<C>(s: State<C>, i: int) {
    && 0 <= i < |s.log| && s.log[i].Joined?
    && (forall j | i < j < |s.log| :: !(s.log[j].Joined? && s.log[j].key == s.log[i].key))
    && (forall j | i < j < |s.log| :: !Removed(s, j, s.log[i].key))
  }

  /** Users holds exactly the logins that keep their key. */
  ghost predicate UsersKeep<C>(s: State<C>) {
    && (forall k | k in s.reg.users :: exists i :: Keeps(s, i) && s.log[i] == Joined(k, s.reg.users[k]))
    && (forall i | Keeps(s, i) :: s.log[i].key in s.reg.users && s.reg.users[s.log[i].key] == s.log[i].c)
  }

  /** A connection that has removed an entry is named, so its key is written no more. */
  ghost predicate EvictorsNamed<C>(s: State<C>) {
    forall i | Evicted(s.log, i) :: s.log[i].c in s.reg.conns && s.reg.conns[s.log[i].c].userId != ""
  }

  ghost predicate NamedKept<C>(s: State<C>, s': State<C>) {
    forall c | c in s.reg.conns && s.reg.conns[c].userId != "" ::
      c in s'.reg.conns && s'.reg.conns[c].userId != "" && s'.reg.conns[c].GetKey() == s.reg.conns[c].GetKey()
  }

  lemma NamedStep<C>(s: State<C>, e: Event<C>)
    requires ReadersSound(s) && Enabled(s, e)
    ensures NamedKept(s, Step(s, e))
  {
    if !Loud(s, e) { QuietStep(s, e); } else if e.Advance? { NamedAdvance(s, e.h); }
  }

  lemma NamedAdvance<C>(s: State<C>, h: nat)
    requires h in s.hubs && CanAdvance(s, s.hubs[h])
    ensures NamedKept(s, Advanced(s, h))
  {}

  /** A connection that removes an entry has the user id of the connection it was filed for, which is not empty. */
  lemma EvictorNamed<C>(s: State<C>, c: C)
    requires Identities(s) && c in s.reg.conns && Evicts(s.reg, c)
    ensures s.reg.conns[c].userId != ""
  {
    var a := s.reg.conns[c];
    var d := s.reg.users[a.GetKey()];
    var i :| 0 <= i < |s.log| && s.log[i] == Joined(a.GetKey(), d);
    var b := s.reg.conns[d];
    assert s.log[i].key == b.GetKey() && Posted(Identity(s, d)) in s.log;
    GetUserKeyInjective(a.appId, a.userId, b.appId, b.userId);
  }

  /** What a step adds to the log, next to what it does to the users. */
  ghost predicate UsersStep<C>(s: State<C>, s': State<C>) {
    || (s'.log == s.log && s'.reg.users == s.reg.users)
    || (|s'.log| == |s.log| + 1 && s.log <= s'.log &&
        match s'.log[|s.log|]
        case Joined(key, c) => s'.reg.users == s.reg.users[key := c]
        case Left(c, evicted) =>
          && c in s.reg.conns && s'.reg.conns == s.reg.conns && evicted == Evicts(s.reg, c)
          && s'.reg.users == if evicted then s.reg.users - {s.reg.conns[c].GetKey()} else s.reg.users
        case _ => s'.reg.users == s.reg.users)
  }

  lemma UsersStepAdvance<C>(s: State<C>, h: nat)
    requires h in s.hubs && CanAdvance(s, s.hubs[h])
    ensures UsersStep(s, Advanced(s, h))
  {}

  lemma UsersStepOther<C>(s: State<C>, e: Event<C>)
    requires Enabled(s, e) && !e.Advance?
    ensures UsersStep(s, Step(s, e))
  {}

  lemma EvictorsKept<C>(s: State<C>, s': State<C>)
    requires EvictorsNamed(s) && Identities(s) && NamedKept(s, s') && UsersStep(s, s')
    ensures EvictorsNamed(s')
  {
    forall i | Evicted(s'.log, i) ensures s'.log[i].c in s'.reg.conns && s'.reg.conns[s'.log[i].c].userId != "" {
      if i < |s.log| {
        assert Evicted(s.log, i);
      } else {
        EvictorNamed(s, s'.log[i].c);
      }
    }
  }

  lemma RemovedSame<C>(s: State<C>, s': State<C>, j: int, key: string)
    requires EvictorsNamed(s) && NamedKept(s, s') && s.log <= s'.log && j < |s.log|
    ensures Removed(s', j, key) <==> Removed(s, j, key)
  {
    assert Evicted(s.log, j) <==> Evicted(s'.log, j);
  }

  /** A login keeps its key in the new log if it did and the entry added neither takes nor removes it. */
  lemma KeepsExtend<C>(s: State<C>, s': State<C>, i: int)
    requires EvictorsNamed(s) && NamedKept(s, s') && s.log <= s'.log && |s'.log| <= |s.log| + 1 && i < |s.log|
    ensures Keeps(s', i) <==>
      Keeps(s, i) && (|s'.log| > |s.log| ==>
        !(s'.log[|s.log|].Joined? && s'.log[|s.log|].key == s.log[i].key) && !Removed(s', |s.log|, s.log[i].key))
  {
    if 0 <= i && s.log[i].Joined? {
      assert s'.log[i] == s.log[i];
      var key := s.log[i].key;
      forall j | i < j < |s.log| ensures s'.log[j] == s.log[j] && (Removed(s', j, key) <==> Removed(s, j, key)) {
        RemovedSame(s, s', j, key);
      }
    }
  }

  lemma KeepKept<C>(s: State<C>, s': State<C>)
    requires UsersKeep(s) && EvictorsNamed(s) && NamedKept(s, s') && UsersStep(s, s') && EvictorsNamed(s')
    ensures UsersKeep(s')
  {
    var n := |s.log|;
    forall i | i < n ensures Keeps(s', i) ==> Keeps(s, i) { KeepsExtend(s, s', i); }
    if |s'.log| > n && s'.log[n].Joined? { assert Keeps(s', n); }
    forall k | k in s'.reg.users ensures exists i :: Keeps(s', i) && s'.log[i] == Joined(k, s'.reg.users[k]) {
      if !(|s'.log| > n && s'.log[n] == Joined(k, s'.reg.users[k])) {
        var i :| Keeps(s, i) && s.log[i] == Joined(k, s.reg.users[k]);
        KeepsExtend(s, s', i);
        assert Keeps(s', i) && s'.log[i] == s.log[i];
      }
    }
    forall i | Keeps(s', i) ensures s'.log[i].key in s'.reg.users && s'.reg.users[s'.log[i].key] == s'.log[i].c {
      if i < n { KeepsExtend(s, s', i); }
    }
  }

  ghost predicate Keeping<C>(s: State<C>) {
    UsersKeep(s) && EvictorsNamed(s)
  }

  lemma KeepingKept<C>(s: State<C>, e: Event<C>)
    requires Keeping(s) && Identities(s) && Enabled(s, e)
    ensures Keeping(Step(s, e))
  {
    NamedStep(s, e);
    if e.Advance? { UsersStepAdvance(s, e.h); } else { UsersStepOther(s, e); }
    EvictorsKept(s, Step(s, e));
    KeepKept(s, Step(s, e));
  }
}
