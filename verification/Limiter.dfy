/** The burst-rate limiter of the exchange client: a request takes a ticket from a channel of N, and a goroutine puts one
    back when the burst rate has elapsed. Times and rates are reals; N is any positive number. */
module Limiter {

  /** A ticket out of the channel: when it was taken, at which rate, and when the ticker started for it will fire.
      The ticker starts only after the ticket was taken, perhaps later. */
  datatype Loan = Loan(taken: real, rate: real, due: Due)
  datatype Due = Unarmed | At(time: real)

  datatype State = State(
    capacity: nat,
    tickets: nat,             // in the channel
    loans: seq<Loan>,         // taken and not yet put back
    waiting: seq<real>,       // callers at the channel, each with the rate it read
    inFlight: nat,            // requests under way
    rate: real,               // the current burst rate; the limiter is off unless it is positive
    now: real,
    admitted: seq<real>)      // when each ticket was taken, in order

  /** NewClient: a full channel and the default rate of zero. */
  function Init(n: nat): State {
    State(n, n, [], [], 0, 0.0, 0.0, [])
  }

  datatype Event =
    | SetBurstRate(rate: real)
    | Call                       // doRequest reads the rate: positive means it goes on to wait for a ticket
    | Take(i: nat)               // waiting caller i receives a ticket from the channel
    | Arm(i: nat)                // its ticker is started
    | Return(i: nat)             // a fired ticker's goroutine puts a ticket back
    | Finish(failed: bool)       // the HTTP exchange ends, well or not
    | Pass(time: real)

  predicate Enabled(s: State, e: Event) {
    match e
    case SetBurstRate(_) => true
    case Call => true
    case Take(i) => i < |s.waiting| && s.tickets > 0
    case Arm(i) => i < |s.loans| && s.loans[i].due.Unarmed?
    case Return(i) => i < |s.loans| && s.loans[i].due.At? && s.loans[i].due.time <= s.now && s.tickets < s.capacity
    case Finish(_) => s.inFlight > 0
    case Pass(time) => time >= 0.0
  }

  function Without<T>(xs: seq<T>, i: nat): seq<T>
    requires i < |xs|
  {
    xs[..i] + xs[i + 1..]
  }

  lemma WithoutTail<T>(xs: seq<T>, i: nat)
    requires 0 < i < |xs|
    ensures Without(xs, i)[0] == xs[0] && Without(xs, i)[1..] == Without(xs[1..], i - 1)
  {}

  function Step(s: State, e: Event): State
    requires Enabled(s, e)
  {
    match e
    case SetBurstRate(rate) => s.(rate := rate)
    case Call => if s.rate > 0.0 then s.(waiting := s.waiting + [s.rate]) else s.(inFlight := s.inFlight + 1)
    case Take(i) =>
      s.(tickets := s.tickets - 1, waiting := Without(s.waiting, i), inFlight := s.inFlight + 1,
         loans := s.loans + [Loan(s.now, s.waiting[i], Unarmed)], admitted := s.admitted + [s.now])
    case Arm(i) => s.(loans := s.loans[i := s.loans[i].(due := At(s.now + s.loans[i].rate))])
    case Return(i) => s.(tickets := s.tickets + 1, loans := Without(s.loans, i))
    case Finish(_) => s.(inFlight := s.inFlight - 1)
    case Pass(time) => s.(now := s.now + time)
  }

  predicate IsRun(s: State, es: seq<Event>)
    decreases es
  {
    es == [] || (Enabled(s, es[0]) && IsRun(Step(s, es[0]), es[1..]))
  }

  function Run(s: State, es: seq<Event>): State
    requires IsRun(s, es)
    decreases es
  {
    if es == [] then s else Run(Step(s, es[0]), es[1..])
  }

  lemma Cons(s: State, e: Event, es: seq<Event>)
    requires Enabled(s, e) && IsRun(Step(s, e), es)
    ensures IsRun(s, [e] + es) && Run(s, [e] + es) == Run(Step(s, e), es)
  {
    assert ([e] + es)[1..] == es;
  }

  lemma {:induction false} Append(s: State, a: seq<Event>, b: seq<Event>)
    requires IsRun(s, a) && IsRun(Run(s, a), b)
    ensures IsRun(s, a + b) && Run(s, a + b) == Run(Run(s, a), b)
    decreases a
  {
    if a == [] {
      assert a + b == b;
    } else {
      assert (a + b)[1..] == a[1..] + b;
      Append(Step(s, a[0]), a[1..], b);
    }
  }

  // ---------------------------------------------------------------- conservation

  /** The ticker of loan i has fired. */
  predicate Fired(s: State, i: nat)
    requires i < |s.loans|
  {
    s.loans[i].due.At? && s.loans[i].due.time <= s.now
  }

  ghost predicate Inv(s: State) {
    && s.tickets + |s.loans| == s.capacity
    && (forall i | 0 <= i < |s.waiting| :: s.waiting[i] > 0.0)
    && (forall i | 0 <= i < |s.loans| ::
          && s.loans[i].rate > 0.0 && s.loans[i].taken <= s.now
          && (s.loans[i].due.At? ==> s.loans[i].due.time >= s.loans[i].taken + s.loans[i].rate))
  }

  lemma InvKept(s: State, e: Event)
    requires Inv(s) && Enabled(s, e)
    ensures Inv(Step(s, e)) && Step(s, e).capacity == s.capacity
  {}

  lemma {:induction false} RunInv(s: State, es: seq<Event>)
    requires Inv(s) && IsRun(s, es)
    ensures Inv(Run(s, es)) && Run(s, es).capacity == s.capacity
    decreases es
  {
    if es != [] {
      InvKept(s, es[0]);
      RunInv(Step(s, es[0]), es[1..]);
    }
  }

  /** In every reachable state, whatever fails and however the rate changes, the tickets in the channel and those out of
      it make N. So putting one back never finds the channel full, and a caller waits only while a ticket is on loan. */
  lemma TicketConservation(n: nat, es: seq<Event>)
    requires n >= 1 && IsRun(Init(n), es)
    ensures var s := Run(Init(n), es);
            && s.tickets + |s.loans| == n
            && (forall i: nat | i < |s.loans| && Fired(s, i) :: Enabled(s, Return(i)))
            && (s.waiting != [] && s.tickets == 0 ==> s.loans != [])
  {
    RunInv(Init(n), es);
  }

  // ---------------------------------------------------------------- one request at a time

  /** The limiter's steps for one request that finds a ticket or needs none. */
  function Schedule(s: State, end: seq<Event>): seq<Event> {
    [Call] + (if s.rate > 0.0 then [Take(0), Arm(|s.loans|)] else []) + end
  }

  ghost predicate Ticketed(s: State, end: seq<Event>) {
    IsRun(s, Schedule(s, end))
  }

  lemma ScheduleRuns(s: State, exchanged: bool)
    requires s.waiting == [] && s.inFlight == 0 && (s.rate > 0.0 ==> s.tickets > 0)
    ensures Ticketed(s, [Finish(!exchanged)])
    ensures Run(s, Schedule(s, [Finish(!exchanged)])) ==
      if s.rate > 0.0 then
        s.(tickets := s.tickets - 1, loans := s.loans + [Loan(s.now, s.rate, At(s.now + s.rate))],
           admitted := s.admitted + [s.now])
      else s
  {
    var fin := Finish(!exchanged);
    var s1 := Step(s, Call);
    if s.rate > 0.0 {
      var s2 := Step(s1, Take(0));
      var s3 := Step(s2, Arm(|s.loans|));
      Cons(s3, fin, []);
      Cons(s2, Arm(|s.loans|), [fin]);
      Cons(s1, Take(0), [Arm(|s.loans|), fin]);
      Cons(s, Call, [Take(0), Arm(|s.loans|), fin]);
      assert [fin] == [fin] + [] && [Arm(|s.loans|), fin] == [Arm(|s.loans|)] + [fin];
      assert [Take(0), Arm(|s.loans|), fin] == [Take(0)] + [Arm(|s.loans|), fin];
      assert Schedule(s, [fin]) == [Call] + [Take(0), Arm(|s.loans|), fin];
      assert Step(s3, fin).loans == s.loans + [Loan(s.now, s.rate, At(s.now + s.rate))];
      assert Step(s3, fin).waiting == [];
    } else {
      Cons(s1, fin, []);
      Cons(s, Call, [fin]);
      assert [fin] == [fin] + [] && Schedule(s, [fin]) == [Call] + [fin];
    }
  }
}
