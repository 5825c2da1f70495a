/** The limiter against its own history: what the state holds is read off the list of events alone, so no request at a
    positive rate goes out without a ticket. */
module LimiterHistory {
  import opened Limiter
  import opened LimiterRate

  function Earlier(es: seq<Event>): seq<Event>
    requires es != []
  {
    es[..|es| - 1]
  }

  /** The argument of the last SetBurstRate, or zero. */
  function RateAfter(es: seq<Event>): real {
    if es == [] then 0.0
    else
      match es[|es| - 1]
      case SetBurstRate(rate) => rate
      case _ => RateAfter(Earlier(es))
  }

  /** The time that has passed. */
  function Clock(es: seq<Event>): real {
    if es == [] then 0.0
    else
      match es[|es| - 1]
      case Pass(time) => Clock(Earlier(es)) + time
      case _ => Clock(Earlier(es))
  }

  /** The calls made while the rate was positive. */
  function LimitedCalls(es: seq<Event>): nat {
    if es == [] then 0
    else LimitedCalls(Earlier(es)) + if es[|es| - 1].Call? && RateAfter(Earlier(es)) > 0.0 then 1 else 0
  }

  /** The other calls. */
  function FreeCalls(es: seq<Event>): nat {
    if es == [] then 0
    else FreeCalls(Earlier(es)) + if es[|es| - 1].Call? && RateAfter(Earlier(es)) <= 0.0 then 1 else 0
  }

  function Finishes(es: seq<Event>): nat {
    if es == [] then 0 else Finishes(Earlier(es)) + if es[|es| - 1].Finish? then 1 else 0
  }

  /** When each ticket was taken. */
  function TakeTimes(es: seq<Event>): seq<real> {
    if es == [] then []
    else TakeTimes(Earlier(es)) + if es[|es| - 1].Take? then [Clock(Earlier(es))] else []
  }

  /** The rate each caller still waiting read when it called. */
  function RatesRead(es: seq<Event>): seq<real> {
    if es == [] then []
    else
      var before := RatesRead(Earlier(es));
      match es[|es| - 1]
      case Call => if RateAfter(Earlier(es)) > 0.0 then before + [RateAfter(Earlier(es))] else before
      case Take(i) => if i < |before| then before[..i] + before[i + 1..] else before
      case _ => before
  }

  lemma {:induction false} LastStep(s: State, es: seq<Event>)
    requires IsRun(s, es) && es != []
    ensures IsRun(s, Earlier(es)) && Enabled(Run(s, Earlier(es)), es[|es| - 1])
    ensures Run(s, es) == Step(Run(s, Earlier(es)), es[|es| - 1])
    decreases es
  {
    if |es| > 1 {
      LastStep(Step(s, es[0]), es[1..]);
      assert Earlier(es[1..]) == Earlier(es)[1..];
    }
  }

  /** Every request is accounted for, in every run: a caller at a positive rate waits or has taken a ticket, and what is
      under way or finished has taken a ticket or was called at no rate. The rate, the time, the rates the callers wait
      with and the times of admission are those of the events. */
  lemma {:induction false} RequestsConserved(n: nat, es: seq<Event>)
    requires IsRun(Init(n), es)
    ensures var s := Run(Init(n), es);
            && s.rate == RateAfter(es) && s.now == Clock(es)
            && |s.waiting| + |s.admitted| == LimitedCalls(es)
            && s.inFlight + Finishes(es) == |s.admitted| + FreeCalls(es)
            && s.waiting == RatesRead(es) && s.admitted == TakeTimes(es)
    decreases |es|
  {
    if es != [] {
      LastStep(Init(n), es);
      RequestsConserved(n, Earlier(es));
    }
  }

  /** The requests started at a positive rate: those under way or finished, less those called at no rate. */
  function Started(n: nat, es: seq<Event>): int
    requires IsRun(Init(n), es)
  {
    Run(Init(n), es).inFlight + Finishes(es) - FreeCalls(es)
  }

  lemma {:induction false} PrefixRuns(s: State, es: seq<Event>, k: nat)
    requires IsRun(s, es) && k <= |es|
    ensures IsRun(s, es[..k])
    decreases |es|
  {
    if k == |es| {
      assert es[..k] == es;
    } else {
      LastStep(s, es);
      PrefixRuns(s, Earlier(es), k);
      assert Earlier(es)[..k] == es[..k];
    }
  }

  lemma {:induction false} CountsTail(times: seq<real>, more: seq<real>, from: real, width: real)
    requires forall j | 0 <= j < |more| :: from <= more[j] <= from + width
    ensures CountClosed(times + more, from, width) == CountClosed(times, from, width) + |more|
    decreases |more|
  {
    if more == [] {
      assert times + more == times;
    } else {
      var all, init := times + more, more[..|more| - 1];
      assert all[..|all| - 1] == times + init && all[|all| - 1] == more[|more| - 1];
      CountsTail(times, init, from, width);
    }
  }

  lemma ClockGrows(n: nat, es: seq<Event>)
    requires IsRun(Init(n), es) && es != []
    ensures IsRun(Init(n), Earlier(es)) && Clock(Earlier(es)) <= Clock(es)
  {
    LastStep(Init(n), es);
  }

  lemma TakeTimesLast(es: seq<Event>, before: seq<Event>, more: seq<real>)
    requires es != [] && TakeTimes(Earlier(es)) == TakeTimes(before) + more
    ensures TakeTimes(es) == TakeTimes(before) + if es[|es| - 1].Take? then more + [Clock(Earlier(es))] else more
  {}

  /** The tickets taken after the first k events are taken no earlier and no later than the rest of the run lasts. */
  lemma {:induction false} TakenAfter(n: nat, es: seq<Event>, k: nat) returns (more: seq<real>)
    requires IsRun(Init(n), es) && k <= |es|
    ensures TakeTimes(es) == TakeTimes(es[..k]) + more
    ensures Clock(es[..k]) <= Clock(es) && forall j | 0 <= j < |more| :: Clock(es[..k]) <= more[j] <= Clock(es)
    decreases |es|
  {
    if k == |es| {
      assert es[..k] == es;
      more := [];
    } else {
      var init := Earlier(es);
      ClockGrows(n, es);
      assert init[..k] == es[..k];
      more := TakenAfter(n, init, k);
      TakeTimesLast(es, es[..k], more);
      if es[|es| - 1].Take? { more := more + [Clock(init)]; }
    }
  }

  lemma TakesBound(n: nat, es: seq<Event>, k: nat, b: real)
    requires IsRun(Init(n), es) && k <= |es| && b > 0.0 && SetsAtLeast(es, b) && IsRun(Init(n), es[..k])
    ensures Clock(es) >= Clock(es[..k])
    ensures |TakeTimes(es)| - |TakeTimes(es[..k])| <= n * (((Clock(es) - Clock(es[..k])) / b).Floor + 1)
  {
    RequestsConserved(n, es);
    var more := TakenAfter(n, es, k);
    var from, width := Clock(es[..k]), Clock(es) - Clock(es[..k]);
    CountsTail(TakeTimes(es[..k]), more, from, width);
    RateBound(n, es, b, from, width);
  }

  /** The rate bound, for requests: in any stretch of any run the requests started at a positive rate are at most
      N * (floor(w / b) + 1), where w is how long the stretch lasts and b bounds the positive rates from below. */
  lemma StartedBound(n: nat, es: seq<Event>, k: nat, b: real)
    requires IsRun(Init(n), es) && k <= |es| && b > 0.0 && SetsAtLeast(es, b)
    ensures IsRun(Init(n), es[..k]) && Clock(es) >= Clock(es[..k])
    ensures Started(n, es) - Started(n, es[..k]) <= n * (((Clock(es) - Clock(es[..k])) / b).Floor + 1)
  {
    PrefixRuns(Init(n), es, k);
    RequestsConserved(n, es);
    RequestsConserved(n, es[..k]);
    TakesBound(n, es, k, b);
  }

  /** In every reachable state: a call and a change of rate are always possible, a waiting caller is admitted exactly if
      the channel holds a ticket, and a request under way may end. */
  lemma AlwaysPossible(n: nat, es: seq<Event>, rate: real, i: nat, failed: bool)
    requires IsRun(Init(n), es)
    ensures var s := Run(Init(n), es);
            && Enabled(s, Call) && Enabled(s, SetBurstRate(rate))
            && (Enabled(s, Take(i)) <==> i < |RatesRead(es)| && s.tickets > 0)
            && (Enabled(s, Finish(failed)) <==> s.inFlight > 0)
  {
    RequestsConserved(n, es);
  }

  /** A ticket comes back when the rate its taker read has elapsed since the ticker was started, and not before. */
  lemma TickerFires(s: State, i: nat, time: real)
    requires Inv(s) && Enabled(s, Take(i)) && time >= 0.0
    ensures var taken := Step(s, Take(i)); var loan := |s.loans|;
            && taken.tickets == s.tickets - 1 && taken.inFlight == s.inFlight + 1 && Enabled(taken, Arm(loan))
            && var armed := Step(taken, Arm(loan));
               Enabled(Step(armed, Pass(time)), Return(loan)) <==> time >= s.waiting[i]
  {}
}
