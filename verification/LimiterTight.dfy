/** The rate bound is exact: for every number of tickets, rate and window there is a run that reaches it. */
module LimiterTight {
  import opened Limiter
  import opened LimiterRate

  function Repeat<T>(x: T, m: nat): seq<T> {
    if m == 0 then [] else Repeat(x, m - 1) + [x]
  }

  /** m tickets taken at once, by requests that have ended. */
  function Lent(s: State, m: nat): State
    requires m <= s.tickets
  {
    s.(tickets := s.tickets - m, loans := s.loans + Repeat(Loan(s.now, s.rate, At(s.now + s.rate)), m),
       admitted := s.admitted + Repeat(s.now, m))
  }

  lemma LentNext(s: State, m: nat)
    requires m < s.tickets
    ensures var t, loan := Lent(s, m), Loan(s.now, s.rate, At(s.now + s.rate));
            Lent(s, m + 1) == t.(tickets := t.tickets - 1, loans := t.loans + [loan], admitted := t.admitted + [s.now])
  {
    var t, loan := Lent(s, m), Loan(s.now, s.rate, At(s.now + s.rate));
    assert Lent(s, m + 1).loans == t.loans + [loan] && Lent(s, m + 1).admitted == t.admitted + [s.now];
  }

  lemma {:induction false} Lend(s: State, m: nat) returns (es: seq<Event>)
    requires m <= s.tickets && s.waiting == [] && s.inFlight == 0 && s.rate > 0.0
    ensures IsRun(s, es) && Run(s, es) == Lent(s, m) && forall e | e in es :: !e.SetBurstRate?
  {
    if m == 0 {
      es := [];
      assert Lent(s, 0) == s;
    } else {
      var t := Lent(s, m - 1);
      es := Lend(s, m - 1);
      ScheduleRuns(t, true);
      LentNext(s, m - 1);
      Append(s, es, Schedule(t, [Finish(false)]));
      es := es + Schedule(t, [Finish(false)]);
    }
  }

  lemma {:induction false} GiveBack(s: State) returns (es: seq<Event>)
    requires Inv(s) && forall i | 0 <= i < |s.loans| :: Fired(s, i)
    ensures IsRun(s, es) && forall e | e in es :: !e.SetBurstRate?
    ensures Run(s, es) == s.(tickets := s.capacity, loans := [])
    decreases |s.loans|
  {
    if s.loans == [] {
      return [];
    }
    var last := |s.loans| - 1;
    assert Fired(s, last);
    var t := Step(s, Return(last));
    assert t.loans == s.loans[..last];
    InvKept(s, Return(last));
    forall i | 0 <= i < |t.loans| ensures Fired(t, i) { assert Fired(s, i) && t.loans[i] == s.loans[i]; }
    var rest := GiveBack(t);
    Cons(s, Return(last), rest);
    es := [Return(last)] + rest;
  }

  lemma {:induction false} RepeatAt<T>(x: T, m: nat)
    ensures |Repeat(x, m)| == m && forall i | 0 <= i < m :: Repeat(x, m)[i] == x
  {
    if m > 0 { RepeatAt(x, m - 1); }
  }

  lemma {:induction false} CountRepeat(times: seq<real>, t: real, m: nat, from: real, width: real)
    requires from <= t <= from + width
    ensures CountClosed(times + Repeat(t, m), from, width) == CountClosed(times, from, width) + m
  {
    if m == 0 {
      assert times + Repeat(t, 0) == times;
    } else {
      var all := times + Repeat(t, m);
      assert all[..|all| - 1] == times + Repeat(t, m - 1) && all[|all| - 1] == t;
      CountRepeat(times, t, m - 1, from, width);
    }
  }

  /** At time `at` every ticket is out, taken at that very moment, and the window has admitted `count` tickets. */
  ghost predicate RoundDone(s: State, n: nat, b: real, at: real, count: nat, width: real) {
    && s.capacity == n && s.rate == b && s.now == at && s.waiting == [] && s.inFlight == 0
    && s.tickets == 0 && s.loans == Repeat(Loan(at, b, At(at + b)), n)
    && CountClosed(s.admitted, 0.0, width) == count
  }

  lemma FirstRound(n: nat, b: real, width: real) returns (es: seq<Event>)
    requires b > 0.0 && width >= 0.0
    ensures IsRun(Init(n), es) && SetsAtLeast(es, b) && RoundDone(Run(Init(n), es), n, b, 0.0, n, width)
  {
    var s := Step(Init(n), SetBurstRate(b));
    var lend := Lend(s, n);
    Cons(Init(n), SetBurstRate(b), lend);
    es := [SetBurstRate(b)] + lend;
    CountRepeat([], 0.0, n, 0.0, width);
    assert Lent(s, n).loans == Repeat(Loan(0.0, b, At(0.0 + b)), n);
    assert Lent(s, n).admitted == [] + Repeat(0.0, n);
  }

  /** Time passes, and every ticket comes back. */
  lemma ComeBack(s: State, b: real) returns (es: seq<Event>)
    requires b > 0.0 && Inv(s) && s.loans == Repeat(Loan(s.now, b, At(s.now + b)), s.capacity)
    ensures IsRun(s, es) && forall e | e in es :: !e.SetBurstRate?
    ensures Run(s, es) == s.(now := s.now + b, tickets := s.capacity, loans := [])
  {
    var s1 := Step(s, Pass(b));
    InvKept(s, Pass(b));
    RepeatAt(Loan(s.now, b, At(s.now + b)), s.capacity);
    assert forall i | 0 <= i < |s1.loans| :: Fired(s1, i);
    var back := GiveBack(s1);
    Cons(s, Pass(b), back);
    es := [Pass(b)] + back;
  }

  /** One more round: the tickets come back, and every ticket is taken again at once. */
  lemma NextRound(s: State, n: nat, b: real, at: real, count: nat, width: real) returns (es: seq<Event>)
    requires b > 0.0 && at >= 0.0 && Inv(s) && RoundDone(s, n, b, at, count, width) && width >= at + b
    ensures IsRun(s, es) && RoundDone(Run(s, es), n, b, at + b, count + n, width)
    ensures forall e | e in es :: !e.SetBurstRate?
  {
    var back := ComeBack(s, b);
    var t := Run(s, back);
    var lend := Lend(t, n);
    Append(s, back, lend);
    CountRepeat(s.admitted, at + b, n, 0.0, width);
    assert Lent(t, n).loans == Repeat(Loan(t.now, b, At(t.now + b)), n);
    es := back + lend;
  }

  function Elapsed(k: nat, b: real): real {
    if k == 0 then 0.0 else Elapsed(k - 1, b) + b
  }

  function Total(n: nat, k: nat): nat {
    if k == 0 then n else Total(n, k - 1) + n
  }

  lemma {:induction false} ClosedForms(n: nat, k: nat, b: real)
    requires b > 0.0
    ensures Elapsed(k, b) == k as real * b >= 0.0 && Total(n, k) == n * (k + 1)
  {
    if k > 0 { ClosedForms(n, k - 1, b); }
  }

  lemma {:induction false} Rounds(n: nat, b: real, k: nat, width: real) returns (es: seq<Event>)
    requires b > 0.0 && width >= Elapsed(k, b)
    ensures IsRun(Init(n), es) && SetsAtLeast(es, b)
    ensures RoundDone(Run(Init(n), es), n, b, Elapsed(k, b), Total(n, k), width)
  {
    ClosedForms(n, k, b);
    if k == 0 {
      es := FirstRound(n, b, width);
    } else {
      ClosedForms(n, k - 1, b);
      es := Rounds(n, b, k - 1, width);
      RunInv(Init(n), es);
      var next := NextRound(Run(Init(n), es), n, b, Elapsed(k - 1, b), Total(n, k - 1), width);
      Append(Init(n), es, next);
      es := es + next;
    }
  }

  /** The rate bound cannot be improved: some run admits exactly N * (floor(w / b) + 1) tickets in a window of length w. */
  lemma RateBoundReached(n: nat, b: real, width: real) returns (es: seq<Event>)
    requires b > 0.0 && width >= 0.0
    ensures IsRun(Init(n), es) && SetsAtLeast(es, b)
    ensures CountClosed(Run(Init(n), es).admitted, 0.0, width) == n * ((width / b).Floor + 1)
  {
    var q := width / b;
    assert q * b == width && q >= 0.0;
    var k := q.Floor;
    assert k as real <= q;
    assert k as real * b <= q * b;
    ClosedForms(n, k, b);
    es := Rounds(n, b, k, width);
  }
}
