/** The connection hub as a transition system at the granularity of its locks.

    Any number of dispatch loops run at once, since one is started per connection. A step is one critical section of a
    loop, one channel operation, or one write of a reader goroutine to the fields of its connection; steps of all
    goroutines interleave freely. `C` identifies connections (the program uses their addresses in memory). */
module Hub {
  import opened UserKey
  import opened Outbound

  datatype Conn = Conn(addr: string, appId: AppId, userId: string, out: Out) {
    function GetKey(): string { GetUserKey(appId, userId) }
    predicate IsLogin() { userId != "" }
  }

  datatype LoginEvent<C> = LoginEvent(appId: AppId, userId: string, client: C) {
    function GetKey(): string { GetUserKey(appId, userId) }
  }

  const EVENT_CAPACITY := 1000
  const GREETING: Frame := "{\"data\":\"connection succeeded\"}"

  // ---------------------------------------------------------------- the two maps and what the locks protect

  /** The connections in existence and the manager's two maps. */
  datatype Registry<C(==)> = Registry(conns: map<C, Conn>, clients: set<C>, users: map<string, C>) {
    predicate Closed() {
      clients <= conns.Keys && users.Values <= conns.Keys
    }
  }

  function AddClients<C>(r: Registry<C>, c: C): Registry<C> {
    r.(clients := r.clients + {c})
  }

  function DelClients<C>(r: Registry<C>, c: C): Registry<C> {
    r.(clients := r.clients - {c})
  }

  function AddUsers<C>(r: Registry<C>, key: string, c: C): Registry<C> {
    r.(users := r.users[key := c])
  }

  /** Whether DelUsers removes an entry: the one under the connection's own key, when the addresses agree.
      (Every user is a connection, so the third guard always holds in reachable states.) */
  predicate Evicts<C>(r: Registry<C>, c: C)
    requires c in r.conns
  {
    var key := r.conns[c].GetKey();
    key in r.users && r.users[key] in r.conns && r.conns[r.users[key]].addr == r.conns[c].addr
  }

  function DelUsers<C>(r: Registry<C>, c: C): Registry<C>
    requires c in r.conns
  {
    if Evicts(r, c) then r.(users := r.users - {r.conns[c].GetKey()}) else r
  }

  function SetOut<C>(r: Registry<C>, c: C, out: Out): Registry<C>
    requires c in r.conns
  {
    r.(conns := r.conns[c := r.conns[c].(out := out)])
  }

  // ---------------------------------------------------------------- states

  /** Where a reader goroutine stands inside AuthController: it writes AppId, then UserId, then posts the login event. */
  datatype Reader =
    | Reading
    | Naming(appId: AppId, userId: string)
    | Posting(appId: AppId, userId: string)
    | Stopped

  /** Where a dispatch loop stands between two critical sections. */
  datatype Pc<C(==)> =
    | Idle
    | GotRegister(c: C)
    | Greeting(c: C)
    | GotLogin(l: LoginEvent<C>)
    | Adding(l: LoginEvent<C>)
    | GotUnregister(c: C)
    | Evicting(c: C)
    | Closing(c: C)
    | GotBroadcast(m: Frame)
    | Sending(m: Frame, todo: set<C>)
  {
    function Mentioned(): set<C> {
      match this
      case Idle => {}
      case GotBroadcast(_) => {}
      case Sending(_, todo) => todo
      case GotLogin(l) => {l.client}
      case Adding(l) => {l.client}
      case GotRegister(c) => {c}
      case Greeting(c) => {c}
      case GotUnregister(c) => {c}
      case Evicting(c) => {c}
      case Closing(c) => {c}
    }

    predicate HoldsLogin() { GotLogin? || Adding? }
  }

  /** One entry per critical section, in the order the locks were taken. */
  datatype Entry<C> =
    | Posted(l: LoginEvent<C>)               // a login event went onto the Login channel
    | Registered(c: C)                       // AddClients
    | Gone(c: C)                             // DelClients
    | Looked(l: LoginEvent<C>, found: bool)  // InClient and its result, for a login
    | Joined(key: string, c: C)              // AddUsers
    | Left(c: C, evicted: bool)              // DelUsers and its result
    | Shut(c: C)                             // Unregister closed the connection's queue

  datatype State<C(==)> = State(
    reg: Registry<C>,
    readers: map<C, Reader>,
    announcing: set<C>,                    // connections whose wsPage has yet to post them
    registerQ: seq<C>,
    loginQ: seq<LoginEvent<C>>,
    unregisterQ: seq<C>,
    broadcastQ: seq<Frame>,
    hubs: map<nat, Pc<C>>,
    crashed: bool,                         // a panic in a dispatch loop is not recovered: the process ends
    log: seq<Entry<C>>)

  function Init<C(==)>(): State<C> {
    State(Registry(map[], {}, map[]), map[], {}, [], [], [], [], map[], false, [])
  }

  predicate WF<C>(s: State<C>) {
    && s.reg.Closed()
    && s.readers.Keys == s.reg.conns.Keys
    && s.announcing <= s.reg.conns.Keys
    && (forall i | 0 <= i < |s.registerQ| :: s.registerQ[i] in s.reg.conns)
    && (forall i | 0 <= i < |s.loginQ| :: s.loginQ[i].client in s.reg.conns)
    && (forall i | 0 <= i < |s.unregisterQ| :: s.unregisterQ[i] in s.reg.conns)
    && (forall h | h in s.hubs :: s.hubs[h].Mentioned() <= s.reg.conns.Keys)
  }

  // ---------------------------------------------------------------- steps

  datatype Queue = RegisterQ | LoginQ | UnregisterQ | BroadcastQ

  datatype Event<C> =
    | Connect(c: C, addr: string)                              // wsPage: NewClient, reader and writer started
    | PostRegister(c: C)                                       // wsPage: Register <- client
    | StartHub(h: nat)                                         // StartWebSocket: go clientManager.start()
    | SetApp(c: C, appId: AppId, userId: string)               // AuthController accepts; Login writes AppId
    | SetUser(c: C)                                            // Login writes UserId
    | PostLogin(c: C)                                          // AuthController: Login <- login
    | StopReader(c: C)                                         // Read returns and closes Send
    | SendMsg(c: C, frame: Frame)                              // any goroutine
    | WriterTake(c: C)
    | WriterStop(c: C)
    | PostUnregister(c: C)                                     // the environment, at any time
    | PostBroadcast(frame: Frame)                              // the environment, at any time
    | Pick(h: nat, q: Queue)                                   // start(): the select statement
    | Advance(h: nat)                                          // start(): the next critical section of loop h
    | SendOne(h: nat, c: C)                                    // start(): one turn of the broadcast loop

  predicate Enabled<C>(s: State<C>, e: Event<C>) {
    !s.crashed &&
    match e
    case Connect(c, _) => c !in s.reg.conns
    case PostRegister(c) => c in s.announcing && |s.registerQ| < EVENT_CAPACITY
    case StartHub(h) => h !in s.hubs
    case SetApp(c, _, _) => c in s.reg.conns && c in s.readers && s.readers[c] == Reading && !s.reg.conns[c].IsLogin()
    case SetUser(c) => c in s.reg.conns && c in s.readers && s.readers[c].Naming?
    case PostLogin(c) => c in s.readers && s.readers[c].Posting? && |s.loginQ| < EVENT_CAPACITY
    case StopReader(c) => c in s.reg.conns && c in s.readers && s.readers[c] == Reading
    case SendMsg(c, _) => c in s.reg.conns && (s.reg.conns[c].out.send.closed || s.reg.conns[c].out.send.HasRoom())
    case WriterTake(c) => c in s.reg.conns && Possible(s.reg.conns[c].out, Take)
    case WriterStop(c) => c in s.reg.conns && Possible(s.reg.conns[c].out, Stop)
    case PostUnregister(c) => c in s.reg.conns && |s.unregisterQ| < EVENT_CAPACITY
    case PostBroadcast(_) => |s.broadcastQ| < EVENT_CAPACITY
    case Pick(h, q) => h in s.hubs && s.hubs[h] == Idle && Ready(s, q)
    case Advance(h) => h in s.hubs && CanAdvance(s, s.hubs[h])
    case SendOne(h, c) => h in s.hubs && s.hubs[h].Sending? && c in s.hubs[h].todo && c in s.reg.conns
  }

  predicate Ready<C>(s: State<C>, q: Queue) {
    match q
    case RegisterQ => s.registerQ != []
    case LoginQ => s.loginQ != []
    case UnregisterQ => s.unregisterQ != []
    case BroadcastQ => s.broadcastQ != []
  }

  /** The greeting waits for room in the queue; every other critical section runs as soon as its lock is free. */
  predicate CanAdvance<C>(s: State<C>, pc: Pc<C>)
  {
    match pc
    case Idle => false
    case Greeting(c) => c in s.reg.conns && (s.reg.conns[c].out.send.closed || s.reg.conns[c].out.send.HasRoom())
    case Evicting(c) => c in s.reg.conns
    case Closing(c) => c in s.reg.conns
    case Sending(_, todo) => todo == {}
    case _ => true
  }

  function Step<C>(s: State<C>, e: Event<C>): State<C>
    requires Enabled(s, e)
  {
    match e
    case Connect(c, addr) =>
      s.(reg := s.reg.(conns := s.reg.conns[c := Conn(addr, 0, "", FRESH)]),
         readers := s.readers[c := Reading], announcing := s.announcing + {c})
    case PostRegister(c) => s.(announcing := s.announcing - {c}, registerQ := s.registerQ + [c])
    case StartHub(h) => s.(hubs := s.hubs[h := Idle])
    case SetApp(c, appId, userId) =>
      s.(reg := s.reg.(conns := s.reg.conns[c := s.reg.conns[c].(appId := appId)]),
         readers := s.readers[c := Naming(appId, userId)])
    case SetUser(c) =>
      var r := s.readers[c];
      s.(reg := s.reg.(conns := s.reg.conns[c := s.reg.conns[c].(userId := r.userId)]),
         readers := s.readers[c := Posting(r.appId, r.userId)])
    case PostLogin(c) =>
      var l := LoginEvent(s.readers[c].appId, s.readers[c].userId, c);
      s.(readers := s.readers[c := Reading], loginQ := s.loginQ + [l], log := s.log + [Posted(l)])
    case StopReader(c) =>
      s.(reg := SetOut(s.reg, c, Shutting(s.reg.conns[c].out)), readers := s.readers[c := Stopped])
    case SendMsg(c, f) => s.(reg := SetOut(s.reg, c, Sent(s.reg.conns[c].out, f)))
    case WriterTake(c) => s.(reg := SetOut(s.reg, c, Apply(s.reg.conns[c].out, Take)))
    case WriterStop(c) => s.(reg := SetOut(s.reg, c, Apply(s.reg.conns[c].out, Stop)))
    case PostUnregister(c) => s.(unregisterQ := s.unregisterQ + [c])
    case PostBroadcast(f) => s.(broadcastQ := s.broadcastQ + [f])
    case Pick(h, q) => Picked(s, h, q)
    case Advance(h) => Advanced(s, h)
    case SendOne(h, c) => Broadcasted(s, h, c)
  }

  /** Closing a closed queue panics; the reader recovers. */
  function Shutting(o: Out): Out {
    if o.send.closed then o else Apply(o, Close)
  }

  function Sent(o: Out, f: Frame): Out
    requires o.send.closed || o.send.HasRoom()
  {
    if o.send.closed then Apply(o, Drop(f)) else Apply(o, Push(f))
  }

  function Picked<C>(s: State<C>, h: nat, q: Queue): State<C>
    requires Ready(s, q)
  {
    match q
    case RegisterQ => s.(registerQ := s.registerQ[1..], hubs := s.hubs[h := GotRegister(s.registerQ[0])])
    case LoginQ => s.(loginQ := s.loginQ[1..], hubs := s.hubs[h := GotLogin(s.loginQ[0])])
    case UnregisterQ => s.(unregisterQ := s.unregisterQ[1..], hubs := s.hubs[h := GotUnregister(s.unregisterQ[0])])
    case BroadcastQ => s.(broadcastQ := s.broadcastQ[1..], hubs := s.hubs[h := GotBroadcast(s.broadcastQ[0])])
  }

  function Advanced<C>(s: State<C>, h: nat): State<C>
    requires h in s.hubs && CanAdvance(s, s.hubs[h])
  {
    match s.hubs[h]
    case GotRegister(c) =>
      s.(reg := AddClients(s.reg, c), hubs := s.hubs[h := Greeting(c)], log := s.log + [Registered(c)])
    case Greeting(c) =>
      if s.reg.conns[c].out.send.closed then s.(crashed := true)
      else s.(reg := SetOut(s.reg, c, Sent(s.reg.conns[c].out, GREETING)), hubs := s.hubs[h := Idle])
    case GotLogin(l) =>
      var found := l.client in s.reg.clients;
      s.(hubs := s.hubs[h := if found then Adding(l) else Idle], log := s.log + [Looked(l, found)])
    case Adding(l) =>
      s.(reg := AddUsers(s.reg, l.GetKey(), l.client), hubs := s.hubs[h := Idle],
         log := s.log + [Joined(l.GetKey(), l.client)])
    case GotUnregister(c) =>
      s.(reg := DelClients(s.reg, c), hubs := s.hubs[h := Evicting(c)], log := s.log + [Gone(c)])
    case Evicting(c) =>
      s.(reg := DelUsers(s.reg, c), hubs := s.hubs[h := if Evicts(s.reg, c) then Closing(c) else Idle],
         log := s.log + [Left(c, Evicts(s.reg, c))])
    case Closing(c) =>
      if s.reg.conns[c].out.send.closed then s.(crashed := true)
      else s.(reg := SetOut(s.reg, c, Apply(s.reg.conns[c].out, Close)), hubs := s.hubs[h := Idle],
              log := s.log + [Shut(c)])
    case GotBroadcast(m) => s.(hubs := s.hubs[h := Sending(m, s.reg.clients)])
    case Sending(_, _) => s.(hubs := s.hubs[h := Idle])
  }

  /** A broadcast never waits: it sends if there is room, closes the queue if it is full, and panics if it is closed. */
  function Broadcasted<C>(s: State<C>, h: nat, c: C): State<C>
    requires h in s.hubs && s.hubs[h].Sending? && c in s.hubs[h].todo && c in s.reg.conns
  {
    var pc := s.hubs[h];
    var out := s.reg.conns[c].out;
    if out.send.closed then s.(crashed := true)
    else s.(reg := SetOut(s.reg, c, Apply(out, if out.send.HasRoom() then Push(pc.m) else Overflow(pc.m))),
            hubs := s.hubs[h := Sending(pc.m, pc.todo - {c})])
  }

  // ---------------------------------------------------------------- runs

  predicate IsRun<C>(s: State<C>, es: seq<Event<C>>)
    decreases es
  {
    es == [] || (Enabled(s, es[0]) && IsRun(Step(s, es[0]), es[1..]))
  }

  function Run<C>(s: State<C>, es: seq<Event<C>>): State<C>
    requires IsRun(s, es)
    decreases es
  {
    if es == [] then s else Run(Step(s, es[0]), es[1..])
  }

  lemma Cons<C>(s: State<C>, e: Event<C>, es: seq<Event<C>>)
    requires Enabled(s, e) && IsRun(Step(s, e), es)
    ensures IsRun(s, [e] + es) && Run(s, [e] + es) == Run(Step(s, e), es)
  {
    assert ([e] + es)[1..] == es;
  }

  lemma One<C>(s: State<C>, a: Event<C>)
    requires Enabled(s, a)
    ensures IsRun(s, [a]) && Run(s, [a]) == Step(s, a)
  {
    assert IsRun(Step(s, a), []);
    Cons(s, a, []);
    assert [a] == [a] + [];
  }

  lemma Two<C>(s: State<C>, a: Event<C>, b: Event<C>)
    requires Enabled(s, a) && Enabled(Step(s, a), b)
    ensures IsRun(s, [a, b]) && Run(s, [a, b]) == Step(Step(s, a), b)
  {
    One(Step(s, a), b);
    Cons(s, a, [b]);
    assert [a, b] == [a] + [b];
  }

  lemma Three<C>(s: State<C>, a: Event<C>, b: Event<C>, c: Event<C>)
    requires Enabled(s, a) && Enabled(Step(s, a), b) && Enabled(Step(Step(s, a), b), c)
    ensures IsRun(s, [a, b, c]) && Run(s, [a, b, c]) == Step(Step(Step(s, a), b), c)
  {
    Two(Step(s, a), b, c);
    Cons(s, a, [b, c]);
    assert [a, b, c] == [a] + [b, c];
  }

  /** A run followed by a run is a run, and every cut of a run gives two. */
  lemma {:induction false} Append<C>(s: State<C>, a: seq<Event<C>>, b: seq<Event<C>>)
    ensures IsRun(s, a + b) <==> IsRun(s, a) && IsRun(Run(s, a), b)
    ensures IsRun(s, a + b) ==> Run(s, a + b) == Run(Run(s, a), b)
    decreases a
  {
    if a == [] {
      assert a + b == b;
    } else {
      assert (a + b)[0] == a[0] && (a + b)[1..] == a[1..] + b;
      if Enabled(s, a[0]) { Append(Step(s, a[0]), a[1..], b); }
    }
  }

  // ---------------------------------------------------------------- assumptions on the environment

  /** A login is accepted only for a non-empty user id. */
  predicate Named<C>(e: Event<C>) {
    e.SetApp? ==> e.userId != ""
  }

  /** A new connection comes from an address no modelled connection has. */
  predicate FreshAddr<C>(s: State<C>, e: Event<C>) {
    e.Connect? ==> forall c | c in s.reg.conns :: s.reg.conns[c].addr != e.addr
  }

  predicate AllNamed<C>(es: seq<Event<C>>) {
    forall i | 0 <= i < |es| :: Named(es[i])
  }

  predicate AllFresh<C>(s: State<C>, es: seq<Event<C>>)
    requires IsRun(s, es)
    decreases es
  {
    es == [] || (FreshAddr(s, es[0]) && AllFresh(Step(s, es[0]), es[1..]))
  }

  predicate UniqueAddrs<C>(r: Registry<C>) {
    forall c, d | c in r.conns && d in r.conns && r.conns[c].addr == r.conns[d].addr :: c == d
  }
}
