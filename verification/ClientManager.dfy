/** The connection manager in memory: its two maps, its four event channels and its dispatch loop. */
module Managers {
  import opened UserKey
  import opened Outbound
  import opened Hub
  import opened HubHistory
  import opened HubEvents
  import opened HubTurns
  import opened Connections

  class ClientManager {
    var clients: map<Client, bool>
    var users: map<string, Client>
    var register: Chan<Client>
    var login: Chan<LoginEvent<Client>>
    var unregister: Chan<Client>
    var broadcast: Chan<Frame>
    /** Every connection created so far. */
    ghost var known: set<Client>

    ghost predicate Valid()
      reads this, known
    {
      && clients.Keys <= known && users.Values <= known
      && (forall c | c in clients :: clients[c])
      && (forall c | c in known :: c.Valid())
      && (forall c | c in register.buf :: c in known)
      && (forall l | l in login.buf :: l.client in known)
      && (forall c | c in unregister.buf :: c in known)
    }

    ghost function Reg(): Registry<Client>
      reads this`known, this`clients, this`users, known
    {
      Registry(map c | c in known :: c.View(), clients.Keys, users)
    }

    constructor NewClientManager()
      ensures Valid() && Reg() == Registry(map[], {}, map[]) && known == {}
      ensures register == Chan([], EVENT_CAPACITY, false) && login == Chan([], EVENT_CAPACITY, false)
      ensures unregister == Chan([], EVENT_CAPACITY, false) && broadcast == Chan([], EVENT_CAPACITY, false)
    {
      clients, users := map[], map[];
      register, login := Chan([], EVENT_CAPACITY, false), Chan([], EVENT_CAPACITY, false);
      unregister, broadcast := Chan([], EVENT_CAPACITY, false), Chan([], EVENT_CAPACITY, false);
      known := {};
    }

    // -------------------------------------------------------------- the maps

    method InClient(client: Client) returns (ok: bool)
      ensures ok <==> client in Reg().clients
    {
      ok := client in clients;
    }

    method AddClients(client: Client)
      requires Valid() && client in known
      modifies this`clients
      ensures Valid() && Reg() == Hub.AddClients(old(Reg()), client)
    {
      clients := clients[client := true];
    }

    method DelClients(client: Client)
      requires Valid()
      modifies this`clients
      ensures Valid() && Reg() == Hub.DelClients(old(Reg()), client)
    {
      if client in clients {
        clients := clients - {client};
      }
    }

    method AddUsers(key: string, client: Client)
      requires Valid() && client in known
      modifies this`users
      ensures Valid() && Reg() == Hub.AddUsers(old(Reg()), key, client)
    {
      users := users[key := client];
    }

    method DelUsers(client: Client) returns (result: bool)
      requires Valid() && client in known
      modifies this`users
      ensures Valid() && Reg() == Hub.DelUsers(old(Reg()), client) && result == Evicts(old(Reg()), client)
      ensures var key := GetUserKey(client.appId, client.userId);
              && (result <==> key in old(users) && old(users)[key].addr == client.addr)
              && users == if result then old(users) - {key} else old(users)
    {
      var key := GetUserKey(client.appId, client.userId);
      result := false;
      if key in users {
        if users[key].addr != client.addr {
          return;
        }
        users := users - {key};
        result := true;
      }
    }

    /** A copy of the whole map, built entry by entry. */
    method GetClients() returns (copy: map<Client, bool>)
      ensures copy == clients
    {
      copy := map[];
      var rest := clients.Keys;
      while rest != {}
        invariant rest <= clients.Keys && copy.Keys == clients.Keys - rest
        invariant forall c | c in copy :: copy[c] == clients[c]
        decreases |rest|
      {
        var c :| c in rest;
        copy := copy[c := clients[c]];
        rest := rest - {c};
      }
    }

    method GetUserClient(appId: AppId, userId: string) returns (client: Client?)
      ensures client == null <==> GetUserKey(appId, userId) !in users
      ensures client != null ==> client == users[GetUserKey(appId, userId)]
    {
      var userKey := GetUserKey(appId, userId);
      client := if userKey in users then users[userKey] else null;
    }

    /** With consistent keys: the user ids logged in under an application, each exactly once and nothing else. */
    method GetUserList(appId: AppId) returns (userList: seq<string>)
      requires Valid() && KeysConsistent(Reg())
      ensures forall u :: u in userList <==> GetUserKey(appId, u) in users
      ensures forall i, j | 0 <= i < j < |userList| :: userList[i] != userList[j]
    {
      userList := [];
      var rest := users.Keys;
      while rest != {}
        invariant rest <= users.Keys
        invariant forall u :: u in userList <==> GetUserKey(appId, u) in users.Keys - rest
        invariant forall i, j | 0 <= i < j < |userList| :: userList[i] != userList[j]
        decreases |rest|
      {
        var k :| k in rest;
        var v := users[k];
        assert v in users.Values && k == GetUserKey(v.appId, v.userId) by { assert v in Reg().conns; }
        forall u ensures k == GetUserKey(appId, u) <==> v.appId == appId && v.userId == u {
          GetUserKeyInjective(v.appId, v.userId, appId, u);
        }
        if v.appId == appId {
          userList := userList + [v.userId];
        }
        rest := rest - {k};
      }
    }

    /** With consistent keys: the logged-in connections, each exactly once. */
    method GetUserClients() returns (list: seq<Client>)
      requires Valid() && KeysConsistent(Reg())
      ensures forall c :: c in list <==> c in users.Values
      ensures forall i, j | 0 <= i < j < |list| :: list[i] != list[j]
    {
      list := [];
      ConsistentDistinct(Reg());
      var rest := users.Keys;
      while rest != {}
        invariant rest <= users.Keys
        invariant forall c :: c in list <==> exists k :: k in users.Keys - rest && users[k] == c
        invariant forall i, j | 0 <= i < j < |list| :: list[i] != list[j]
        decreases |rest|
      {
        var k :| k in rest;
        assert users[k] !in list;
        list := list + [users[k]];
        rest := rest - {k};
      }
    }

    // -------------------------------------------------------------- fan-out

    /** The sending loop of SendAll and SendAppIdAll. */
    static method SendEach(targets: seq<Client>, message: Frame, eligible: set<Client>, ghost known: set<Client>)
      requires forall c | c in known :: c.Valid()
      requires forall c | c in targets :: c in known
      requires forall i, j | 0 <= i < j < |targets| :: targets[i] != targets[j]
      modifies known`send, known`socket
      ensures forall c | c in known :: c.Valid() && c.send.closed == old(c.send.closed)
      ensures forall c | c in known ::
        c.socket + c.send.buf == old(c.socket + c.send.buf) +
          if c in targets && c in eligible && !old(c.send.closed) then [message] else []
    {
      ghost var reached: set<Client> := {};
      for i := 0 to |targets|
        invariant forall c | c in known :: c.Valid() && c.send.closed == old(c.send.closed)
        invariant forall c | c in known ::
          c.socket + c.send.buf == old(c.socket + c.send.buf) + if c in reached && !old(c.send.closed) then [message] else []
        invariant forall c | c in reached :: c in targets && c in eligible
        invariant forall j | 0 <= j < i :: targets[j] !in eligible || targets[j] in reached
        invariant forall j | i <= j < |targets| :: targets[j] !in reached
      {
        var conn := targets[i];
        if conn in eligible {
          conn.SendMsg(message);
          reached := reached + {conn};
        }
      }
    }

    /** Every logged-in connection but one takes the message after its accepted frames, exactly once, if its queue is
        open; every other queue is as before, up to frames its writer has moved on. */
    method SendAll(message: Frame, ignoreClient: Client?)
      requires Valid() && KeysConsistent(Reg())
      modifies known`send, known`socket
      ensures Valid()
      ensures forall c | c in known ::
        && c.send.closed == old(c.send.closed)
        && c.socket + c.send.buf == old(c.socket + c.send.buf) +
             if c in users.Values && c != ignoreClient && !old(c.send.closed) then [message] else []
    {
      var targets := GetUserClients();
      SendEach(targets, message, (set c | c in targets && c != ignoreClient), known);
    }

    /** The same, among the connections logged in under one application. */
    method SendAppIdAll(message: Frame, appId: AppId, ignoreClient: Client?)
      requires Valid() && KeysConsistent(Reg())
      modifies known`send, known`socket
      ensures Valid()
      ensures forall c | c in known ::
        && c.send.closed == old(c.send.closed)
        && c.socket + c.send.buf == old(c.socket + c.send.buf) +
             if c in users.Values && c != ignoreClient && c.appId == appId && !old(c.send.closed) then [message] else []
    {
      var targets := GetUserClients();
      SendEach(targets, message, (set c | c in targets && c != ignoreClient && c.appId == appId), known);
    }

    // -------------------------------------------------------------- event handlers

    /** A change to one connection's queue is just that in the registry. */
    twostate lemma QueueChanged(client: Client)
      requires old(Valid()) && client in known && client.Valid() && unchanged(this)
      requires forall c | c in known && c != client :: unchanged(c)
      requires unchanged(client`appId, client`userId)
      ensures Valid() && Reg() == SetOut(old(Reg()), client, client.Queue())
    {
      assert Reg().conns == SetOut(old(Reg()), client, client.Queue()).conns;
    }

    /** Every queued login event carries its connection's stored identity. */
    ghost predicate LoginsSettled()
      reads this`known, this`login, known
    {
      forall l | l in login.buf :: l.client in known && l.client.appId == l.appId && l.client.userId == l.userId
    }

    ghost predicate Running()
      reads this, known
    {
      Valid() && Consistent(Reg()) && LoginsSettled()
    }

    twostate lemma RunningKept()
      requires old(Running()) && Valid() && Consistent(Reg()) && unchanged(this`known, this`login)
      requires forall c | c in known :: c.appId == old(c.appId) && c.userId == old(c.userId)
      ensures Running()
    {}

    /** Adds the connection and greets it: the greeting waits for room, and panics if the queue is closed. */
    method EventRegister(client: Client) returns (panicked: bool)
      requires Valid() && client in known
      modifies this`clients, client`send, client`socket
      ensures Valid() && panicked == old(client.send.closed)
      ensures Reg() == SetOut(Hub.AddClients(old(Reg()), client), client, client.Queue())
      ensures panicked ==> client.Queue() == old(client.Queue())
      ensures !panicked ==> Greeted(old(client.Queue()), client.Queue())
      ensures clients.Keys == old(clients.Keys) + {client}
      ensures !panicked ==> client.socket + client.send.buf ==
                              old(client.socket + client.send.buf) + ["{\"data\":\"connection succeeded\"}"]
      ensures old(Running()) ==> Running()
      ensures unchanged(this`register, this`login, this`unregister, this`broadcast)
    {
      AddClients(client);
      panicked := client.send.closed;
      label added:
      if !panicked {
        client.Put(GREETING);
      }
      QueueChanged@added(client);
      if old(Running()) {
        OnRegisterKeeps(old(Reg()), client, client.Queue());
        RunningKept();
      }
    }

    /** A login counts only for a connection that is registered at that moment. */
    method EventLogin(event: LoginEvent<Client>)
      requires Valid() && event.client in known
      modifies this`users
      ensures Valid() && Reg() == OnLogin(old(Reg()), event)
      ensures users == if event.client in clients
                       then old(users)[GetUserKey(event.appId, event.userId) := event.client] else old(users)
      ensures old(Running()) && event.client.View().GetKey() == event.GetKey() ==> Running()
      ensures unchanged(this`register, this`login, this`unregister, this`broadcast)
    {
      var ok := InClient(event.client);
      if ok {
        AddUsers(event.GetKey(), event.client);
      }
      if old(Running()) && event.client.View().GetKey() == event.GetKey() {
        OnLoginKeeps(old(Reg()), event);
        RunningKept();
      }
    }

    twostate lemma UnregisterKept(client: Client)
      requires old(Valid()) && Valid() && client in old(known) && unchanged(this`known, this`login)
      requires Reg() == OnUnregister(old(Reg()), client)
      ensures old(Running()) ==> Running()
    {
      if old(Running()) {
        OnUnregisterKeeps(old(Reg()), client);
        forall c | c in known ensures c.appId == old(c.appId) && c.userId == old(c.userId) {
          assert c in Reg().conns && Reg().conns[c].GetKey() == old(Reg()).conns[c].GetKey();
        }
        RunningKept();
      }
    }

    method CloseQueue(client: Client) returns (panicked: bool)
      requires Valid() && client in known
      modifies client`send
      ensures Valid() && panicked == old(client.send.closed)
      ensures Reg() == SetOut(old(Reg()), client, Shutting(old(client.Queue())))
    {
      panicked := client.Close();
      QueueChanged(client);
    }

    /** Removes the connection, and closes its queue exactly when its entry was removed from the users. */
    method EventUnregister(client: Client) returns (panicked: bool)
      requires Valid() && client in known
      modifies this`clients, this`users, client`send
      ensures Valid() && Reg() == OnUnregister(old(Reg()), client)
      ensures panicked <==> Evicts(old(Reg()), client) && old(client.send.closed)
      ensures old(Running()) ==> Running()
      ensures unchanged(this`register, this`login, this`unregister, this`broadcast)
    {
      DelClients(client);
      var deleteResult := DelUsers(client);
      panicked := false;
      if deleteResult {
        panicked := CloseQueue(client);
      }
      assert Reg() == OnUnregister(old(Reg()), client);
      UnregisterKept(client);
    }

    /** The broadcast loop: it never waits. Closing happens on a full queue only, a send to a closed one panics. */
    static method BroadcastEach(targets: map<Client, bool>, message: Frame, ghost known: set<Client>)
      returns (panicked: bool)
      requires targets.Keys <= known && forall c | c in known :: c.Valid()
      modifies known`send
      ensures panicked <==> exists c :: c in targets && old(c.send.closed)
      ensures forall c | c in known :: c.Valid()
      ensures !panicked ==> forall c | c in known ::
        c.Queue() == if c in targets && !old(c.send.closed) then Deliver(old(c.Queue()), message) else old(c.Queue())
    {
      var rest := targets.Keys;
      while rest != {}
        invariant rest <= targets.Keys
        invariant forall c | c in targets && c !in rest :: !old(c.send.closed)
        invariant forall c | c in known ::
          c.Queue() == if c in targets && c !in rest && !old(c.send.closed)
                       then Deliver(old(c.Queue()), message) else old(c.Queue())
        decreases |rest|
      {
        var conn :| conn in rest;
        assert conn.Queue() == old(conn.Queue());
        if conn.send.closed {
          return true;
        } else if conn.send.HasRoom() {
          conn.send := conn.send.(buf := conn.send.buf + [message]);
        } else {
          conn.send := conn.send.(closed := true);
        }
        rest := rest - {conn};
      }
      panicked := false;
    }

    /** Panics exactly when a registered queue is closed; otherwise every registered connection is delivered to. */
    method EventBroadcast(message: Frame) returns (panicked: bool)
      requires Valid()
      modifies known`send
      ensures Valid()
      ensures panicked <==> exists c :: c in clients && old(c.send.closed)
      ensures !panicked ==> AllOpen(old(Reg()), clients.Keys) && Reg() == Delivered(old(Reg()), message, clients.Keys)
      ensures !panicked && old(Running()) ==> Running()
      ensures unchanged(this`register, this`login, this`unregister, this`broadcast)
    {
      var targets := GetClients();
      panicked := BroadcastEach(targets, message, known);
      if !panicked {
        assert Reg().conns == Delivered(old(Reg()), message, clients.Keys).conns;
        if old(Running()) {
          DeliveredKeeps(old(Reg()), message, clients.Keys);
          RunningKept();
        }
      }
    }

    // -------------------------------------------------------------- the dispatch loop

    ghost function Seen(): Snapshot<Client>
      reads this, known
    {
      Snapshot(Reg(), register.buf, login.buf, unregister.buf, broadcast.buf)
    }

    lemma SeenSound()
      requires Valid()
      ensures Seen().WF()
    {}

    method TakeRegister() returns (conn: Client)
      requires Running() && register.buf != []
      modifies this`register
      ensures Running() && conn in known && conn == old(register.buf)[0] && register.buf == old(register.buf)[1..]
      ensures Reg() == old(Reg())
    {
      conn := register.buf[0];
      register := register.(buf := register.buf[1..]);
    }

    method TakeLogin() returns (event: LoginEvent<Client>)
      requires Running() && login.buf != []
      modifies this`login
      ensures Running() && event == old(login.buf)[0] && login.buf == old(login.buf)[1..]
      ensures event.client in known && event.client.View().GetKey() == event.GetKey()
      ensures Reg() == old(Reg())
    {
      event := login.buf[0];
      assert event in login.buf;
      login := login.(buf := login.buf[1..]);
    }

    method TakeUnregister() returns (conn: Client)
      requires Running() && unregister.buf != []
      modifies this`unregister
      ensures Running() && conn in known && conn == old(unregister.buf)[0] && unregister.buf == old(unregister.buf)[1..]
      ensures Reg() == old(Reg())
    {
      conn := unregister.buf[0];
      unregister := unregister.(buf := unregister.buf[1..]);
    }

    method TakeBroadcast() returns (message: Frame)
      requires Running() && broadcast.buf != []
      modifies this`broadcast
      ensures Running() && message == old(broadcast.buf)[0] && broadcast.buf == old(broadcast.buf)[1..]
      ensures Reg() == old(Reg())
    {
      message := broadcast.buf[0];
      broadcast := broadcast.(buf := broadcast.buf[1..]);
    }

    method DispatchRegister() returns (panicked: bool)
      requires Running() && register.buf != []
      modifies this`clients, this`register, known`send, known`socket
      ensures Running() && old(Seen()).WF() && panicked == Panics(old(Seen()), RegisterQ)
      ensures !panicked ==> Handled(old(Seen()), Seen(), RegisterQ)
    {
      ghost var w := Seen();
      SeenSound();
      var conn := TakeRegister();
      panicked := EventRegister(conn);
      SeenSound();
      RegisterHandled(w, Seen(), conn, conn.Queue());
    }

    method DispatchLogin()
      requires Running() && login.buf != []
      modifies this`users, this`login
      ensures Running() && Handled(old(Seen()), Seen(), LoginQ)
    {
      SeenSound();
      var event := TakeLogin();
      EventLogin(event);
      SeenSound();
    }

    method DispatchUnregister() returns (panicked: bool)
      requires Running() && unregister.buf != []
      modifies this`clients, this`users, this`unregister, known`send
      ensures Running() && old(Seen()).WF() && panicked == Panics(old(Seen()), UnregisterQ)
      ensures !panicked ==> Handled(old(Seen()), Seen(), UnregisterQ)
    {
      ghost var w := Seen();
      SeenSound();
      var conn := TakeUnregister();
      panicked := EventUnregister(conn);
      SeenSound();
      UnregisterHandled(w, Seen());
    }

    method DispatchBroadcast() returns (panicked: bool)
      requires Running() && broadcast.buf != []
      modifies this`broadcast, known`send
      ensures Valid() && old(Seen()).WF() && panicked == Panics(old(Seen()), BroadcastQ)
      ensures !panicked ==> Running() && Handled(old(Seen()), Seen(), BroadcastQ)
    {
      ghost var w := Seen();
      SeenSound();
      var message := TakeBroadcast();
      panicked := EventBroadcast(message);
      SeenSound();
      if !panicked {
        BroadcastHandled(w, Seen());
      }
    }

    /** One turn of the select statement: it handles the event at the head of any channel that has one, unless handling
        it panics, and waits when there is none. */
    method Turn() returns (waits: bool, panicked: bool, ghost q: Queue)
      requires Running()
      modifies this`clients, this`users, this`register, this`login, this`unregister, this`broadcast
      modifies known`send, known`socket
      ensures Valid() && (!panicked ==> Running())
      ensures waits <==> old(Seen()).Silent()
      ensures waits ==> !panicked && Seen() == old(Seen())
      ensures !waits ==> old(Seen()).WF() && Holds(old(Seen()), q) && panicked == Panics(old(Seen()), q)
      ensures !waits && !panicked ==> Handled(old(Seen()), Seen(), q)
    {
      waits, panicked, q := false, false, RegisterQ;
      if
      case register.buf != [] => panicked := DispatchRegister();
      case login.buf != [] =>
        q := LoginQ;
        DispatchLogin();
      case unregister.buf != [] =>
        q := UnregisterQ;
        panicked := DispatchUnregister();
      case broadcast.buf != [] =>
        q := BroadcastQ;
        panicked := DispatchBroadcast();
      case register.buf == [] && login.buf == [] && unregister.buf == [] && broadcast.buf == [] => waits := true;
    }

    /** The endless loop, for as many turns as it takes: each turn handles one event, and the trace holds what the hub
        was between them. It ends early only when nothing is ready, where it would wait, or by a panic. */
    method Start(turns: nat) returns (waits: bool, panicked: bool, ghost trace: seq<Snapshot<Client>>)
      requires Running()
      modifies this`clients, this`users, this`register, this`login, this`unregister, this`broadcast
      modifies known`send, known`socket
      ensures Valid() && (!panicked ==> Running())
      ensures trace != [] && trace[0] == old(Seen()) && Turns(trace)
      ensures !panicked ==> trace[|trace| - 1] == Seen()
      ensures waits ==> !panicked && Seen().Silent()
      ensures panicked ==>
        var w := trace[|trace| - 1]; w.WF() && exists q :: Holds(w, q) && Panics(w, q)
      ensures !waits && !panicked ==> |trace| == turns + 1
    {
      waits, panicked, trace := false, false, [Seen()];
      for turn := 0 to turns
        invariant Running() && !waits && !panicked
        invariant |trace| == turn + 1 && trace[0] == old(Seen()) && trace[turn] == Seen() && Turns(trace)
      {
        ghost var q;
        waits, panicked, q := Turn();
        if waits || panicked {
          return;
        }
        trace := trace + [Seen()];
      }
    }
  }
}
