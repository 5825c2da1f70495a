/** No caller of the limiter waits for ever. */
module LimiterProgress {
  import opened Limiter

  /** What the limiter does by itself, next to the passing of time. */
  predicate Internal(e: Event) { e.Take? || e.Arm? || e.Return? }

  predicate Quiet(es: seq<Event>) {
    forall i | 0 <= i < |es| :: Internal(es[i]) || es[i].Pass?
  }

  function Weight(loans: seq<Loan>): nat {
    if loans == [] then 0 else (if loans[0].due.Unarmed? then 2 else 1) + Weight(loans[1..])
  }

  /** Steps still to come: three for each waiting caller, two for a ticket not armed, one for an armed one. */
  function Measure(s: State): nat {
    3 * |s.waiting| + Weight(s.loans)
  }

  function Internals(es: seq<Event>): nat {
    if es == [] then 0 else (if Internal(es[0]) then 1 else 0) + Internals(es[1..])
  }

  lemma {:induction false} WeightConcat(a: seq<Loan>, b: seq<Loan>)
    ensures Weight(a + b) == Weight(a) + Weight(b)
  {
    if a == [] {
      assert a + b == b;
    } else {
      assert (a + b)[1..] == a[1..] + b;
      WeightConcat(a[1..], b);
    }
  }

  lemma {:induction false} WeightWithout(loans: seq<Loan>, i: nat)
    requires i < |loans|
    ensures Weight(loans) == Weight(Without(loans, i)) + if loans[i].due.Unarmed? then 2 else 1
    decreases i
  {
    if i == 0 {
      assert Without(loans, 0) == loans[1..];
    } else {
      WeightWithout(loans[1..], i - 1);
      WithoutTail(loans, i);
    }
  }

  /** Each internal step uses up exactly one unit of the measure, and time none. */
  lemma MeasureStep(s: State, e: Event)
    requires Enabled(s, e) && (Internal(e) || e.Pass?)
    ensures Measure(s) == Measure(Step(s, e)) + if Internal(e) then 1 else 0
    ensures |Step(s, e).admitted| + |Step(s, e).waiting| == |s.admitted| + |s.waiting|
  {
    var s' := Step(s, e);
    match e
    case Take(i) =>
      WeightConcat(s.loans, [s'.loans[|s.loans|]]);
    case Arm(i) =>
      WeightWithout(s.loans, i);
      WeightWithout(s'.loans, i);
      assert Without(s'.loans, i) == Without(s.loans, i);
    case Return(i) =>
      WeightWithout(s.loans, i);
    case Pass(_) =>
  }

  lemma {:induction false} MeasureRun(s: State, es: seq<Event>)
    requires IsRun(s, es) && Quiet(es)
    ensures Measure(s) == Measure(Run(s, es)) + Internals(es)
    ensures |Run(s, es).admitted| + |Run(s, es).waiting| == |s.admitted| + |s.waiting|
    decreases es
  {
    if es != [] {
      MeasureStep(s, es[0]);
      MeasureRun(Step(s, es[0]), es[1..]);
    }
  }

  /** An internal step is possible at once, or will be after enough time. */
  ghost predicate CanMove(s: State) {
    exists time: real, e: Event :: time >= 0.0 && Internal(e) && Enabled(Step(s, Pass(time)), e)
  }

  /** No deadlock: while a caller waits, the limiter can move. */
  lemma NoDeadlock(s: State)
    requires Inv(s) && s.capacity >= 1 && s.waiting != []
    ensures CanMove(s)
  {
    var time, e := 0.0, Take(0);
    if s.tickets == 0 {
      var due := s.loans[0].due;
      e := if due.Unarmed? then Arm(0) else Return(0);
      time := if due.At? && due.time > s.now then due.time - s.now else 0.0;
    }
    assert Internal(e) && Enabled(Step(s, Pass(time)), e);
  }

  /** Every schedule drains: from any reachable state, without new calls, the limiter takes at most Measure steps in any
      order, and when it can take no more, every caller that waited has been admitted. */
  lemma EveryScheduleDrains(n: nat, es: seq<Event>, more: seq<Event>)
    requires n >= 1 && IsRun(Init(n), es) && IsRun(Run(Init(n), es), more) && Quiet(more)
    ensures var s := Run(Init(n), es); var t := Run(s, more);
            && Internals(more) <= Measure(s)
            && (Internals(more) == Measure(s) || !CanMove(t) ==>
                  t.waiting == [] && |t.admitted| == |s.admitted| + |s.waiting|)
  {
    var s := Run(Init(n), es);
    RunInv(Init(n), es);
    MeasureRun(s, more);
    RunInv(s, more);
    if Run(s, more).waiting != [] { NoDeadlock(Run(s, more)); }
  }

  /** And a schedule that drains exists. */
  lemma Drain(s: State) returns (es: seq<Event>)
    requires Inv(s) && s.capacity >= 1
    ensures IsRun(s, es) && Quiet(es)
    ensures Run(s, es).waiting == [] && |Run(s, es).admitted| == |s.admitted| + |s.waiting|
    decreases Measure(s)
  {
    if s.waiting == [] {
      return [];
    }
    NoDeadlock(s);
    var time, e :| time >= 0.0 && Internal(e) && Enabled(Step(s, Pass(time)), e);
    var s1 := Step(s, Pass(time));
    MeasureStep(s1, e);
    InvKept(s, Pass(time));
    InvKept(s1, e);
    var rest := Drain(Step(s1, e));
    Cons(s1, e, rest);
    Cons(s, Pass(time), [e] + rest);
    es := [Pass(time)] + ([e] + rest);
  }
}
