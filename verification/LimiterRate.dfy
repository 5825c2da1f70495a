/** How many tickets the limiter can hand out in a window of time, by counting: tickets are anonymous. */
module LimiterRate {
  import opened Limiter

  function CountIn(times: seq<real>, lo: real, hi: real): nat {
    if times == [] then 0
    else
      var last := times[|times| - 1];
      CountIn(times[..|times| - 1], lo, hi) + if lo <= last < hi then 1 else 0
  }

  /** The admissions in a closed window that starts at `from` and is `width` long. */
  function CountClosed(times: seq<real>, from: real, width: real): nat {
    if times == [] then 0
    else
      var last := times[|times| - 1];
      CountClosed(times[..|times| - 1], from, width) + if from <= last <= from + width then 1 else 0
  }

  function TakenSince(loans: seq<Loan>, x: real): (n: nat)
    ensures n <= |loans|
  {
    if loans == [] then 0 else (if loans[0].taken >= x then 1 else 0) + TakenSince(loans[1..], x)
  }

  lemma {:induction false} TakenConcat(a: seq<Loan>, b: seq<Loan>, x: real)
    ensures TakenSince(a + b, x) == TakenSince(a, x) + TakenSince(b, x)
  {
    if a == [] {
      assert a + b == b;
    } else {
      assert (a + b)[1..] == a[1..] + b;
      TakenConcat(a[1..], b, x);
    }
  }

  lemma {:induction false} TakenWithout(loans: seq<Loan>, i: nat, x: real)
    requires i < |loans|
    ensures TakenSince(loans, x) == TakenSince(Without(loans, i), x) + if loans[i].taken >= x then 1 else 0
    decreases i
  {
    if i == 0 {
      assert Without(loans, 0) == loans[1..];
    } else {
      TakenWithout(loans[1..], i - 1, x);
      WithoutTail(loans, i);
    }
  }

  /** Every rate in force is at least b. */
  ghost predicate RatesAtLeast(s: State, b: real) {
    && (s.rate > 0.0 ==> s.rate >= b)
    && (forall i | 0 <= i < |s.waiting| :: s.waiting[i] >= b)
    && (forall i | 0 <= i < |s.loans| :: s.loans[i].rate >= b)
  }

  /** Every positive rate a run sets is at least b. */
  predicate SetsAtLeast(es: seq<Event>, b: real) {
    forall i | 0 <= i < |es| && es[i].SetBurstRate? :: es[i].rate > 0.0 ==> es[i].rate >= b
  }

  /** The tickets taken in the half-open window [x, x + b) are all still out while it lasts, so they are N at most. */
  ghost predicate WindowHolds(s: State, x: real, b: real) {
    && CountIn(s.admitted, x, x + b) <= s.capacity
    && (s.now < x + b ==> CountIn(s.admitted, x, x + b) <= TakenSince(s.loans, x))
  }

  lemma WindowKept(s: State, e: Event, x: real, b: real)
    requires Inv(s) && RatesAtLeast(s, b) && WindowHolds(s, x, b) && Enabled(s, e)
    ensures WindowHolds(Step(s, e), x, b)
  {
    var s' := Step(s, e);
    match e
    case Take(i) =>
      assert s'.admitted[..|s'.admitted| - 1] == s.admitted;
      TakenConcat(s.loans, [s'.loans[|s.loans|]], x);
    case Arm(i) =>
      TakenWithout(s.loans, i, x);
      TakenWithout(s'.loans, i, x);
      assert Without(s'.loans, i) == Without(s.loans, i);
    case Return(i) =>
      TakenWithout(s.loans, i, x);
      assert s.loans[i].due.time >= s.loans[i].taken + s.loans[i].rate;
    case _ =>
  }

  lemma RatesKept(s: State, es: seq<Event>, b: real)
    requires RatesAtLeast(s, b) && es != [] && Enabled(s, es[0]) && SetsAtLeast(es, b)
    ensures RatesAtLeast(Step(s, es[0]), b) && SetsAtLeast(es[1..], b)
  {
    assert forall i | 0 <= i < |es| - 1 :: es[1..][i] == es[i + 1];
  }

  lemma {:induction false} RunWindow(s: State, es: seq<Event>, x: real, b: real)
    requires Inv(s) && RatesAtLeast(s, b) && WindowHolds(s, x, b) && IsRun(s, es) && SetsAtLeast(es, b)
    ensures WindowHolds(Run(s, es), x, b)
    decreases es
  {
    if es != [] {
      WindowKept(s, es[0], x, b);
      InvKept(s, es[0]);
      RatesKept(s, es, b);
      RunWindow(Step(s, es[0]), es[1..], x, b);
    }
  }

  lemma {:induction false} CountAdds(times: seq<real>, lo: real, mid: real, hi: real)
    requires lo <= mid <= hi
    ensures CountIn(times, lo, hi) == CountIn(times, lo, mid) + CountIn(times, mid, hi)
  {
    if times != [] { CountAdds(times[..|times| - 1], lo, mid, hi); }
  }

  lemma {:induction false} ClosedInside(times: seq<real>, from: real, width: real, hi: real)
    requires from + width < hi
    ensures CountClosed(times, from, width) <= CountIn(times, from, hi)
  {
    if times != [] { ClosedInside(times[..|times| - 1], from, width, hi); }
  }

  /** m half-open windows in a row hold at most m times what one can hold. */
  lemma {:induction false} Windows(n: nat, es: seq<Event>, b: real, from: real, m: nat)
    requires b > 0.0 && IsRun(Init(n), es) && SetsAtLeast(es, b)
    ensures CountIn(Run(Init(n), es).admitted, from, from + m as real * b) <= n * m
  {
    var s := Run(Init(n), es);
    RunInv(Init(n), es);
    if m == 0 {
      CountEmpty(s.admitted, from);
    } else {
      var done := (m - 1) as real * b;
      OneMore(n, m, b);
      Windows(n, es, b, from, m - 1);
      RunWindow(Init(n), es, from + done, b);
      CountAdds(s.admitted, from, from + done, from + done + b);
      assert from + done + b == from + m as real * b;
    }
  }

  lemma OneMore(n: nat, m: nat, b: real)
    requires m > 0 && b > 0.0
    ensures m as real * b == (m - 1) as real * b + b && (m - 1) as real * b >= 0.0
    ensures n * m == n * (m - 1) + n
  {}

  lemma {:induction false} CountEmpty(times: seq<real>, x: real)
    ensures CountIn(times, x, x) == 0
  {
    if times != [] { CountEmpty(times[..|times| - 1], x); }
  }

  lemma FloorCovers(width: real, b: real)
    requires width >= 0.0 && b > 0.0
    ensures (width / b).Floor >= 0 && width < ((width / b).Floor + 1) as real * b
  {
    var q := width / b;
    assert q * b == width && q >= 0.0;
    assert (q.Floor + 1) as real > q;
  }

  /** The rate bound. For every interleaving of callers, tickers and rate changes, a closed window of length w admits at
      most N * (floor(w / b) + 1) tickets, where b is any positive number no larger than the positive rates used. */
  lemma RateBound(n: nat, es: seq<Event>, b: real, from: real, width: real)
    requires IsRun(Init(n), es) && b > 0.0 && width >= 0.0 && SetsAtLeast(es, b)
    ensures CountClosed(Run(Init(n), es).admitted, from, width) <= n * ((width / b).Floor + 1)
  {
    FloorCovers(width, b);
    var m := (width / b).Floor + 1;
    Windows(n, es, b, from, m);
    ClosedInside(Run(Init(n), es).admitted, from, width, from + m as real * b);
  }
}
