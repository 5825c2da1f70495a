/** The exchange client's ticket handling in memory, refining the limiter's steps. */
module LimiterClients {
  import opened Limiter

  datatype Result = Done | Failed | Blocked

  class Client {
    const capacity: nat
    var tickets: nat           // the tokens in the channel
    var burstRate: real
    var loans: seq<Loan>       // the goroutines that will put a ticket back
    ghost var admitted: seq<real>

    ghost function View(now: real): State
      reads this
    {
      State(capacity, tickets, loans, [], 0, burstRate, now, admitted)
    }

    /** Makes a channel of n and fills it. */
    constructor NewClient(n: nat)
      ensures forall now :: View(now) == Init(n).(now := now)
      ensures tickets == capacity == n && burstRate == 0.0 && loans == []
    {
      capacity, burstRate, loans, admitted := n, 0.0, [], [];
      tickets := 0;
      new;
      for i := 0 to n
        invariant tickets == i && capacity == n && burstRate == 0.0 && loans == [] && admitted == []
      {
        tickets := tickets + 1;
      }
    }

    method SetBurstRate(rate: real)
      modifies this`burstRate
      ensures burstRate == rate
      ensures forall now :: View(now) == Step(old(View(now)), Event.SetBurstRate(rate))
    {
      burstRate := rate;
    }

    /** One request: it may fail before the ticket is taken, wait for one, or fail after. A failed exchange leaves the
        ticket on loan like any other. */
    method DoRequest(now: real, prepared: bool, exchanged: bool) returns (result: Result)
      modifies this`tickets, this`loans, this`admitted
      ensures !prepared ==> result == Failed && View(now) == old(View(now))
      ensures result == Blocked <==> prepared && burstRate > 0.0 && old(tickets) == 0
      ensures result == Blocked ==> View(now) == old(View(now))
      ensures prepared && result != Blocked && burstRate > 0.0 ==>
        tickets == old(tickets) - 1 && loans == old(loans) + [Loan(now, burstRate, At(now + burstRate))]
      ensures prepared && burstRate <= 0.0 ==> tickets == old(tickets) && loans == old(loans)
      ensures prepared && result != Blocked ==>
        && (result == Done <==> exchanged)
        && Ticketed(old(View(now)), [Finish(!exchanged)])
        && View(now) == Run(old(View(now)), Schedule(old(View(now)), [Finish(!exchanged)]))
    {
      if !prepared {
        return Failed;
      }
      ghost var s := View(now);
      var br := burstRate;
      if br > 0.0 {
        if tickets == 0 {
          return Blocked;
        }
        tickets := tickets - 1;
        loans := loans + [Loan(now, br, At(now + br))];
        admitted := admitted + [now];
      }
      ScheduleRuns(s, exchanged);
      result := if exchanged then Done else Failed;
    }

    /** The goroutine of loan i, when its ticker has fired: the send finds room. */
    method PutBack(i: nat, now: real)
      requires Inv(View(now)) && i < |loans| && Fired(View(now), i)
      modifies this`tickets, this`loans
      ensures tickets == old(tickets) + 1 <= capacity && loans == old(loans[..i] + loans[i + 1..])
      ensures Enabled(old(View(now)), Return(i)) && View(now) == Step(old(View(now)), Return(i))
    {
      tickets := tickets + 1;
      loans := loans[..i] + loans[i + 1..];
    }
  }
}
