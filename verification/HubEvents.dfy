/** What each event does as a whole, when no other goroutine runs between its critical sections: the specification of the
    manager's event handlers, and its agreement with the interleaved steps. */
module HubEvents {
  import opened UserKey
  import opened Outbound
  import opened Hub
  import opened HubHistory

  function OnLogin<C>(r: Registry<C>, l: LoginEvent<C>): Registry<C> {
    if l.client in r.clients then AddUsers(r, l.GetKey(), l.client) else r
  }

  function OnUnregister<C>(r: Registry<C>, c: C): Registry<C>
    requires c in r.conns
  {
    var left := DelUsers(DelClients(r, c), c);
    if Evicts(r, c) then SetOut(left, c, Shutting(r.conns[c].out)) else left
  }

  /** A login files the connection under its own key if it is registered, and otherwise changes nothing. */
  lemma LoginEffect<C>(r: Registry<C>, l: LoginEvent<C>)
    ensures var r' := OnLogin(r, l);
            && r'.conns == r.conns && r'.clients == r.clients
            && r'.users == if l.client in r.clients then r.users[GetUserKey(l.appId, l.userId) := l.client] else r.users
  {}

  /** Unregister takes the connection from the clients; the entry under its key goes exactly if it is of a connection with
      the same address, and the queue is closed exactly then, its frames kept. No other connection changes. */
  lemma UnregisterEffect<C>(r: Registry<C>, c: C)
    requires c in r.conns && r.Closed()
    ensures var r' := OnUnregister(r, c);
            var key := GetUserKey(r.conns[c].appId, r.conns[c].userId);
            var removes := key in r.users && r.conns[r.users[key]].addr == r.conns[c].addr;
            && r'.clients == r.clients - {c} && r'.users == (if removes then r.users - {key} else r.users)
            && c in r'.conns && r'.conns[c].out.send.buf == r.conns[c].out.send.buf
            && r'.conns[c].out.socket == r.conns[c].out.socket
            && (r'.conns[c].out.send.closed <==> r.conns[c].out.send.closed || removes)
            && r'.conns == r.conns[c := r'.conns[c]]
            && r'.conns[c].addr == r.conns[c].addr
            && r'.conns[c].appId == r.conns[c].appId && r'.conns[c].userId == r.conns[c].userId
  {}

  /** A broadcast frame reaching one open queue. */
  function Deliver(o: Out, m: Frame): (o': Out)
    requires !o.send.closed
    ensures Sound(o) ==> Sound(o')
  {
    if o.send.HasRoom() then Apply(o, Push(m)) else Apply(o, Overflow(m))
  }

  ghost predicate AllOpen<C>(r: Registry<C>, todo: set<C>) {
    forall c | c in todo :: c in r.conns && !r.conns[c].out.send.closed
  }

  /** A frame delivered to each of a set of connections: the set alone decides, not the order. */
  ghost function Delivered<C>(r: Registry<C>, m: Frame, todo: set<C>): Registry<C>
    requires AllOpen(r, todo)
  {
    r.(conns := map c | c in r.conns :: if c in todo then r.conns[c].(out := Deliver(r.conns[c].out, m)) else r.conns[c])
  }

  /** A broadcast partitions the open queues: those with room take the frame at the end, once, and stay open; the full
      ones keep their contents and are closed. Nothing else changes. */
  lemma DeliveredPartition<C>(r: Registry<C>, m: Frame, todo: set<C>, c: C)
    requires AllOpen(r, todo) && c in r.conns
    ensures c in Delivered(r, m, todo).conns
    ensures var a, b := r.conns[c], Delivered(r, m, todo).conns[c];
            && b.addr == a.addr && b.appId == a.appId && b.userId == a.userId && b.out.socket == a.out.socket
            && (c !in todo ==> b == a)
            && (c in todo && |a.out.send.buf| < a.out.send.cap ==>
                  b.out.send.buf == a.out.send.buf + [m] && !b.out.send.closed)
            && (c in todo && |a.out.send.buf| >= a.out.send.cap ==> b.out.send.buf == a.out.send.buf && b.out.send.closed)
  {}

  function SendAll<C>(h: nat, order: seq<C>): (es: seq<Event<C>>)
    ensures |es| == |order| && forall i | 0 <= i < |es| :: es[i] == SendOne(h, order[i])
  {
    if order == [] then [] else [SendOne(h, order[0])] + SendAll(h, order[1..])
  }

  lemma DeliveredFirst<C>(r: Registry<C>, m: Frame, todo: set<C>, c: C)
    requires AllOpen(r, todo) && c in todo
    ensures var r' := SetOut(r, c, Deliver(r.conns[c].out, m));
            AllOpen(r', todo - {c}) && Delivered(r', m, todo - {c}) == Delivered(r, m, todo)
  {
    var r' := SetOut(r, c, Deliver(r.conns[c].out, m));
    assert Delivered(r', m, todo - {c}).conns == Delivered(r, m, todo).conns;
  }

  lemma DeliveredNone<C>(r: Registry<C>, m: Frame)
    ensures Delivered(r, m, {}) == r
  {
    assert Delivered(r, m, {}).conns == r.conns;
  }

  /** The order lists each connection of the set once. */
  ghost predicate Lists<C>(order: seq<C>, todo: set<C>) {
    if order == [] then todo == {} else order[0] in todo && Lists(order[1..], todo - {order[0]})
  }

  /** The broadcast loop gives the same result for every order in which it may visit the connections. */
  lemma {:induction false} BroadcastAnyOrder<C>(s: State<C>, h: nat, m: Frame, todo: set<C>, order: seq<C>)
    requires !s.crashed && h in s.hubs && s.hubs[h] == Sending(m, todo)
    requires Lists(order, todo) && AllOpen(s.reg, todo)
    ensures IsRun(s, SendAll(h, order))
    ensures Run(s, SendAll(h, order)) == s.(reg := Delivered(s.reg, m, todo), hubs := s.hubs[h := Sending(m, {})])
    decreases order
  {
    if order == [] {
      DeliveredNone(s.reg, m);
      assert s.hubs[h := Sending(m, {})] == s.hubs;
    } else {
      var c, rest := order[0], order[1..];
      var s' := Step(s, SendOne(h, c));
      DeliveredFirst(s.reg, m, todo, c);
      assert s' == s.(reg := SetOut(s.reg, c, Deliver(s.reg.conns[c].out, m)), hubs := s.hubs[h := Sending(m, todo - {c})]);
      BroadcastAnyOrder(s', h, m, todo - {c}, rest);
      Cons(s, SendOne(h, c), SendAll(h, rest));
      assert s'.hubs[h := Sending(m, {})] == s.hubs[h := Sending(m, {})];
    }
  }

  // ---------------------------------------------------------------- the handlers run alone are the interleaved steps

  lemma LoginAlone<C>(s: State<C>, h: nat) returns (es: seq<Event<C>>)
    requires !s.crashed && h in s.hubs && s.hubs[h].GotLogin?
    ensures IsRun(s, es) && forall e | e in es :: e == Event.Advance(h)
    ensures Run(s, es) == s.(reg := OnLogin(s.reg, s.hubs[h].l), hubs := s.hubs[h := Idle], log := Run(s, es).log)
  {
    var e := Event.Advance(h);
    if s.hubs[h].l.client in s.reg.clients {
      Two(s, e, e);
      es := [e, e];
    } else {
      One(s, e);
      es := [e];
    }
  }

  lemma UnregisterAlone<C>(s: State<C>, h: nat) returns (es: seq<Event<C>>)
    requires !s.crashed && h in s.hubs && s.hubs[h].GotUnregister? && s.hubs[h].c in s.reg.conns
    ensures IsRun(s, es) && forall e | e in es :: e == Event.Advance(h)
    ensures Run(s, es).reg == OnUnregister(s.reg, s.hubs[h].c)
    ensures Run(s, es).crashed <==> Evicts(s.reg, s.hubs[h].c) && s.reg.conns[s.hubs[h].c].out.send.closed
    ensures !Run(s, es).crashed ==>
      Run(s, es) == s.(reg := Run(s, es).reg, hubs := s.hubs[h := Idle], log := Run(s, es).log)
  {
    var e, c := Event.Advance(h), s.hubs[h].c;
    Two(s, e, e);
    if Evicts(s.reg, c) {
      var s2 := Run(s, [e, e]);
      One(s2, e);
      Append(s, [e, e], [e]);
      assert [e, e, e] == [e, e] + [e];
      es := [e, e, e];
    } else {
      es := [e, e];
    }
  }

  // ---------------------------------------------------------------- what the handlers keep

  /** The manager's consistency: users under their own keys, and among the clients. */
  ghost predicate Consistent<C>(r: Registry<C>) {
    KeysConsistent(r) && r.users.Values <= r.clients
  }

  lemma OnLoginKeeps<C>(r: Registry<C>, l: LoginEvent<C>)
    requires Consistent(r) && l.client in r.conns && r.conns[l.client].GetKey() == l.GetKey()
    ensures Consistent(OnLogin(r, l))
  {}

  lemma OnUnregisterKeeps<C>(r: Registry<C>, c: C)
    requires Consistent(r) && c in r.conns
    ensures Consistent(OnUnregister(r, c))
  {
    var r' := OnUnregister(r, c);
    forall k | k in r'.users ensures r'.users[k] in r'.clients { assert r.users[k] in r.users.Values; }
  }

  lemma DeliveredKeeps<C>(r: Registry<C>, m: Frame, todo: set<C>)
    requires Consistent(r) && AllOpen(r, todo)
    ensures Consistent(Delivered(r, m, todo))
  {}

  lemma OnRegisterKeeps<C>(r: Registry<C>, c: C, out: Out)
    requires Consistent(r) && c in r.conns
    ensures Consistent(SetOut(AddClients(r, c), c, out))
  {}

  /** Consistent keys make the users' connections pairwise distinct. */
  lemma ConsistentDistinct<C>(r: Registry<C>)
    requires KeysConsistent(r)
    ensures forall j, k | j in r.users && k in r.users && r.users[j] == r.users[k] :: j == k
  {}
}
