/** The hub over whole runs: every interleaving of any number of dispatch loops, readers, writers and posters. */
module HubTheorems {
  import opened UserKey
  import opened Hub
  import opened HubInvariants
  import opened HubEvictions
  import opened HubHistory
  import opened HubShared

  ghost predicate Inv<C>(s: State<C>) {
    WF(s) && OutsSound(s) && Identities(s) && Tokens(s) && ClientsLive(s) && JoinsOrdered(s.log) && Keeping(s)
  }

  /** What unique addresses add. */
  ghost predicate InvUnique<C>(s: State<C>) {
    Inv(s) && UniqueAddrs(s.reg) && Evictions(s) && UsersStand(s)
  }

  lemma InvKept<C>(s: State<C>, e: Event<C>)
    requires Inv(s) && Enabled(s, e) && Named(e)
    ensures Inv(Step(s, e))
  {
    WFKept(s, e);
    OutsKept(s, e);
    IdentitiesKept(s, e);
    TokensKept(s, e);
    LiveKept(s, e);
    OrderedKept(s, e);
    KeepingKept(s, e);
  }

  lemma InvUniqueKept<C>(s: State<C>, e: Event<C>)
    requires InvUnique(s) && Enabled(s, e) && Named(e) && FreshAddr(s, e)
    ensures InvUnique(Step(s, e))
  {
    InvKept(s, e);
    UniqueKept(s, e);
    EvictionsKept(s, e);
    IdentitiesConsistent(s);
    StandKept(s, e);
  }

  lemma {:induction false} RunInv<C>(s: State<C>, es: seq<Event<C>>)
    requires Inv(s) && IsRun(s, es) && AllNamed(es)
    ensures Inv(Run(s, es))
    decreases es
  {
    if es != [] {
      assert Named(es[0]);
      InvKept(s, es[0]);
      RunInv(Step(s, es[0]), es[1..]);
    }
  }

  lemma {:induction false} RunInvUnique<C>(s: State<C>, es: seq<Event<C>>)
    requires InvUnique(s) && IsRun(s, es) && AllNamed(es) && AllFresh(s, es)
    ensures InvUnique(Run(s, es))
    decreases es
  {
    if es != [] {
      assert Named(es[0]);
      InvUniqueKept(s, es[0]);
      RunInvUnique(Step(s, es[0]), es[1..]);
    }
  }

  lemma ReachedInv<C>(es: seq<Event<C>>)
    requires IsRun(Init<C>(), es) && AllNamed(es)
    ensures Inv(Run(Init<C>(), es))
  {
    InitInv<C>();
    RunInv(Init<C>(), es);
  }

  lemma ReachedConsistent<C>(es: seq<Event<C>>)
    requires IsRun(Init<C>(), es) && AllNamed(es)
    ensures KeysConsistent(Run(Init<C>(), es).reg)
  {
    var s := Run(Init<C>(), es);
    assert Identities(s) by { ReachedInv(es); }
    IdentitiesConsistent(s);
  }

  lemma InitInv<C>()
    ensures Inv(Init<C>())
  {}

  lemma InitUnique<C>()
    ensures InvUnique(Init<C>())
  {
    InitInv<C>();
  }

  lemma ReachedUnique<C>(es: seq<Event<C>>)
    requires IsRun(Init<C>(), es) && AllNamed(es) && AllFresh(Init<C>(), es)
    ensures InvUnique(Run(Init<C>(), es))
  {
    InitUnique<C>();
    RunInvUnique(Init<C>(), es);
  }

  lemma ReachedEvictions<C>(es: seq<Event<C>>)
    requires IsRun(Init<C>(), es) && AllNamed(es) && AllFresh(Init<C>(), es)
    ensures Evictions(Run(Init<C>(), es)) && UniqueAddrs(Run(Init<C>(), es).reg)
  {
    ReachedUnique(es);
  }

  // ---------------------------------------------------------------- key consistency

  /** In every reachable state each user is filed under the key of its connection's current identity, no connection is
      filed twice, and every user had been registered before it joined. */
  lemma UsersConsistent<C>(es: seq<Event<C>>)
    requires IsRun(Init<C>(), es) && AllNamed(es)
    ensures var s := Run(Init<C>(), es);
            && KeysConsistent(s.reg)
            && (forall j, k | j in s.reg.users && k in s.reg.users && s.reg.users[j] == s.reg.users[k] :: j == k)
            && (forall k | k in s.reg.users :: Joined(k, s.reg.users[k]) in s.log && Registered(s.reg.users[k]) in s.log)
            && JoinsOrdered(s.log)
  {
    var s := Run(Init<C>(), es);
    assert Identities(s) && JoinsOrdered(s.log) by { ReachedInv(es); }
    IdentitiesConsistent(s);
  }

  /** In every reachable state a user id is logged in under an application in at most one entry, the one under their
      key: listing the users of an application gives each of them once. */
  lemma UserFiledOnce<C>(es: seq<Event<C>>, appId: AppId, userId: string)
    requires IsRun(Init<C>(), es) && AllNamed(es)
    ensures var r := Run(Init<C>(), es).reg;
            forall k | k in r.users ::
              && r.users[k] in r.conns
              && (k == GetUserKey(appId, userId) <==>
                    r.conns[r.users[k]].appId == appId && r.conns[r.users[k]].userId == userId)
  {
    ReachedConsistent(es);
    var r := Run(Init<C>(), es).reg;
    forall k | k in r.users
      ensures r.users[k] in r.conns
      ensures r.conns[r.users[k]].appId == appId && r.conns[r.users[k]].userId == userId <==> k == GetUserKey(appId, userId)
    {
      GetUserKeyInjective(r.conns[r.users[k]].appId, r.conns[r.users[k]].userId, appId, userId);
    }
  }

  // ---------------------------------------------------------------- one login for each connection

  lemma {:induction false} SettledForever<C>(s: State<C>, es: seq<Event<C>>, l: LoginEvent<C>)
    requires IsRun(s, es) && Settled(s, l)
    ensures Settled(Run(s, es), l)
    ensures PostLogin(l.client) !in es
    decreases es
  {
    if es != [] {
      SettledKept(s, es[0], l);
      SettledForever(Step(s, es[0]), es[1..], l);
    }
  }

  lemma PostSettles<C>(s: State<C>, c: C)
    requires Identities(s) && Enabled(s, PostLogin(c))
    ensures Settled(Step(s, PostLogin(c)), Identity(s, c))
    ensures Step(s, PostLogin(c)).log == s.log + [Posted(Identity(s, c))]
    ensures Step(s, PostLogin(c)).loginQ == s.loginQ + [Identity(s, c)]
  {}

  lemma {:induction false} Cut<C>(s: State<C>, es: seq<Event<C>>, i: nat)
    requires i < |es| && IsRun(s, es)
    ensures IsRun(s, es[..i]) && Enabled(Run(s, es[..i]), es[i])
    ensures var t := Step(Run(s, es[..i]), es[i]); IsRun(t, es[i + 1..]) && Run(t, es[i + 1..]) == Run(s, es)
    decreases i
  {
    if i > 0 {
      Cut(Step(s, es[0]), es[1..], i - 1);
      assert es[..i][1..] == es[1..][..i - 1] && es[1..][i - 1 + 1..] == es[i + 1..];
    }
  }

  /** The state just before step i of a run. */
  function Before<C>(es: seq<Event<C>>, i: nat): State<C>
    requires i < |es| && IsRun(Init<C>(), es)
  {
    Cut(Init<C>(), es, i);
    Run(Init<C>(), es[..i])
  }

  lemma PostSettlesAt<C>(es: seq<Event<C>>, i: nat)
    requires IsRun(Init<C>(), es) && AllNamed(es)
    requires i < |es| && es[i].PostLogin?
    ensures Enabled(Before(es, i), es[i]) && es[i].c in Before(es, i).reg.conns
    ensures Settled(Step(Before(es, i), es[i]), Identity(Before(es, i), es[i].c))
  {
    Cut(Init<C>(), es, i);
    assert Identities(Before(es, i)) by { ReachedInv(es[..i]); }
    PostSettles(Before(es, i), es[i].c);
  }

  lemma PostThenNever<C>(es: seq<Event<C>>, i: nat)
    requires IsRun(Init<C>(), es) && AllNamed(es)
    requires i < |es| && es[i].PostLogin?
    ensures es[i] !in es[i + 1..]
    ensures es[i].c in Before(es, i).reg.conns
    ensures Settled(Run(Init<C>(), es), Identity(Before(es, i), es[i].c))
  {
    Cut(Init<C>(), es, i);
    PostSettlesAt(es, i);
    SettledForever(Step(Before(es, i), es[i]), es[i + 1..], Identity(Before(es, i), es[i].c));
  }

  lemma InRest<T>(xs: seq<T>, i: nat, j: nat)
    requires i < j < |xs|
    ensures xs[j] in xs[i + 1..]
  {
    assert xs[j] == xs[i + 1..][j - i - 1];
  }

  /** A connection posts at most one login event in a run: no other step posts for it. The event carries the identity
      stored in the connection at that moment, and neither AppId nor UserId is written afterwards. */
  lemma LoginOnce<C>(es: seq<Event<C>>, i: nat)
    requires IsRun(Init<C>(), es) && AllNamed(es)
    requires i < |es| && es[i].PostLogin?
    ensures forall j | 0 <= j < |es| && es[j] == es[i] :: j == i
    ensures es[i].c in Before(es, i).reg.conns
    ensures Settled(Run(Init<C>(), es), Identity(Before(es, i), es[i].c))
  {
    PostThenNever(es, i);
    forall j | i < j < |es| ensures es[j] != es[i] { InRest(es, i, j); }
    forall j | 0 <= j < i ensures es[j] != es[i] {
      if es[j].PostLogin? {
        PostThenNever(es, j);
        InRest(es, j, i);
      }
    }
  }

  /** A reader about to post agrees with its connection; this holds whatever user ids are accepted. */
  ghost predicate PostingAgrees<C>(s: State<C>) {
    forall c | c in s.readers ::
      match s.readers[c]
      case Naming(a, u) => c in s.reg.conns && s.reg.conns[c].appId == a
      case Posting(a, u) => c in s.reg.conns && s.reg.conns[c].appId == a && s.reg.conns[c].userId == u
      case _ => true
  }

  lemma PostingAgreesKept<C>(s: State<C>, e: Event<C>)
    requires PostingAgrees(s) && Enabled(s, e)
    ensures PostingAgrees(Step(s, e))
  {
    if !Loud(s, e) { QuietStep(s, e); }
  }

  lemma {:induction false} RunPostingAgrees<C>(s: State<C>, es: seq<Event<C>>)
    requires PostingAgrees(s) && IsRun(s, es)
    ensures PostingAgrees(Run(s, es))
    decreases es
  {
    if es != [] {
      PostingAgreesKept(s, es[0]);
      RunPostingAgrees(Step(s, es[0]), es[1..]);
    }
  }

  /** Why user ids must not be empty: after any run whatsoever in which a connection has just posted its login, it can
      log in again exactly when the user id it was accepted under is empty. */
  lemma SecondLoginIffUnnamed<C>(es: seq<Event<C>>, c: C)
    requires IsRun(Init<C>(), es) && Enabled(Run(Init<C>(), es), PostLogin(c))
    ensures c in Run(Init<C>(), es).reg.conns
    ensures var s := Step(Run(Init<C>(), es), PostLogin(c));
            (exists a, u :: Enabled(s, SetApp(c, a, u))) <==> Run(Init<C>(), es).readers[c].userId == ""
  {
    var s0 := Run(Init<C>(), es);
    RunPostingAgrees(Init<C>(), es);
    var s := Step(s0, PostLogin(c));
    if s0.readers[c].userId == "" {
      assert Enabled(s, SetApp(c, 0, ""));
    }
  }

  /** Every login event in flight, queued or held by a loop, carries exactly its connection's stored identity, and no
      connection has two of them. */
  lemma FlightsExact<C>(es: seq<Event<C>>)
    requires IsRun(Init<C>(), es) && AllNamed(es)
    ensures var s := Run(Init<C>(), es);
            && (forall i | 0 <= i < |s.loginQ| :: Settled(s, s.loginQ[i]))
            && (forall h | h in s.hubs && s.hubs[h].HoldsLogin() :: Settled(s, s.hubs[h].l))
            && FlightsApart(s)
  {
    var s := Run(Init<C>(), es);
    assert Identities(s) && FlightsApart(s) by { ReachedInv(es); }
  }

  // ---------------------------------------------------------------- history

  /** Users is a function of the log: a key maps to the connection of its last login if that connection has not
      unregistered since, and is absent otherwise. Clients likewise holds exactly the registrations not undone. */
  lemma UsersFromHistory<C>(es: seq<Event<C>>, k: string, c: C)
    requires IsRun(Init<C>(), es) && AllNamed(es) && AllFresh(Init<C>(), es)
    ensures var s := Run(Init<C>(), es);
            && (k in s.reg.users && s.reg.users[k] == c <==> exists i :: Stands(s.log, i) && s.log[i] == Joined(k, c))
            && (c in s.reg.clients <==> exists i :: Live(s.log, i) && s.log[i] == Registered(c))
  {
    var s := Run(Init<C>(), es);
    assert UsersStand(s) && ClientsLive(s) by { ReachedUnique(es); }
  }

  /** The same without unique addresses: a key maps to the connection of its last login, unless a connection with that
      very key, its own or another's from the same address, has removed the entry since. */
  lemma UsersFromHistoryShared<C>(es: seq<Event<C>>, k: string, c: C)
    requires IsRun(Init<C>(), es) && AllNamed(es)
    ensures var s := Run(Init<C>(), es);
            k in s.reg.users && s.reg.users[k] == c <==> exists i :: Keeps(s, i) && s.log[i] == Joined(k, c)
  {
    var s := Run(Init<C>(), es);
    assert UsersKeep(s) by { ReachedInv(es); }
  }

  // ---------------------------------------------------------------- closing

  /** Unregister removes a connection's entry at most once and closes its queue at most once, whatever the number of
      Unregister events and of loops delivering them; it closes only after removing, and it has closed after every
      removal unless a loop is just about to. */
  lemma UnregisterClosesOnce<C>(es: seq<Event<C>>)
    requires IsRun(Init<C>(), es) && AllNamed(es) && AllFresh(Init<C>(), es)
    ensures var s := Run(Init<C>(), es);
            && EvictsOnce(s.log) && ShutsOnce(s.log)
            && (forall c | Shut(c) in s.log :: Left(c, true) in s.log)
            && (forall c | Left(c, true) in s.log :: Shut(c) in s.log || PendingClose(s, c))
  {
    var s := Run(Init<C>(), es);
    ReachedEvictions(es);
    forall c | Left(c, true) in s.log ensures Shut(c) in s.log || PendingClose(s, c) {
      var i :| 0 <= i < |s.log| && s.log[i] == Left(c, true);
      assert Evicted(s.log, i);
    }
  }

  /** A removal is always of the connection's own entry. */
  lemma EvictionIsOwn<C>(es: seq<Event<C>>, c: C)
    requires IsRun(Init<C>(), es) && AllNamed(es) && AllFresh(Init<C>(), es)
    requires c in Run(Init<C>(), es).reg.conns
    ensures var r := Run(Init<C>(), es).reg;
            && (Evicts(r, c) <==> c in r.users.Values)
            && (forall k :: k in DelUsers(r, c).users <==> k in r.users && r.users[k] != c)
  {
    var s := Run(Init<C>(), es);
    ReachedConsistent(es);
    assert UniqueAddrs(s.reg) by { ReachedEvictions(es); }
    DelUsersExact(s.reg, c);
  }
}
