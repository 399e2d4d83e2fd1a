/** The write throttle as the service runs it. */
module RateLimitService {
  import opened Basics
  import opened IdempotencyKeys
  import opened RateLimit

  datatype Admission = Admitted | TooMany | Unavailable

  function AdmissionOf(at: AttemptAt): Admission {
    if at.Passed? then Admitted else if at.Limited? then TooMany else Unavailable
  }

  lemma OthersLeaveAttempt(s: State, a: Action, i: nat)
    requires i < |s.attempts| && !(a.Proceed? && a.attempt == i)
    ensures i < |Step(s, a).attempts| && Step(s, a).attempts[i] == s.attempts[i]
    ensures Step(s, a).size == s.size && Step(s, a).limit == s.limit
    ensures forall k :: s.errors[k] <= Step(s, a).errors[k]
  {
  }

  lemma ArmingLeads(s: State, i: nat, o: Outcome)
    requires i < |s.attempts| && s.attempts[i].at.Arming?
    ensures var a, t := s.attempts[i], Step(s, Proceed(i, o));
            && |t.attempts| == |s.attempts| && t.attempts[i].slot == a.slot && t.size == s.size && t.limit == s.limit
            && t.now == s.now && t.attempts[i].at == (if o == Acked then Verdict(1, s.limit) else Failed)
            && t.counters == (if o == Lost then s.counters else Armed(s.counters, a.slot, s.now + s.size))
            && t.errors[a.slot] == s.errors[a.slot] + if o != Acked then 1 else 0
  {
  }

  lemma CountingLeads(s: State, i: nat, o: Outcome)
    requires i < |s.attempts| && s.attempts[i].at.Counting?
    ensures var a, t, count := s.attempts[i], Step(s, Proceed(i, o)), Value(s.counters, s.attempts[i].slot) + 1;
            && |t.attempts| == |s.attempts| && t.attempts[i].slot == a.slot && t.size == s.size && t.limit == s.limit
            && t.now == s.now && t.counters == (if o == Lost then s.counters else Incremented(s.counters, a.slot))
            && t.attempts[i].at == (if o != Acked then Failed
                                    else if count == 1 then Arming else Verdict(count, s.limit))
            && t.errors[a.slot] == s.errors[a.slot] + if o != Acked then 1 else 0
  {
  }

  /** The counters in Redis, the clock, and every other attempt under way. */
  class ClaimRateLimitService {
    var now: nat
    var counters: map<Slot, Counter>
    var system: State
    ghost var trace: seq<Action>

    constructor (size: nat, limit: nat)
      requires size > 0 && limit > 0
      ensures Valid() && system == Init(size, limit)
    {
      now, counters, system, trace := 0, map[], Init(size, limit), [];
    }

    ghost predicate Valid()
      reads this
    {
      && system.size > 0 && system.limit > 0
      && system == Run(Init(system.size, system.limit), trace)
      && system.now == now && system.counters == counters
    }

    function At(i: nat): AttemptAt
      reads this
    {
      if i < |system.attempts| then system.attempts[i].at else Failed
    }

    method Record(a: Action)
      requires system.size > 0 && system.limit > 0 && system == Run(Init(system.size, system.limit), trace)
      requires Step(system, a).now == now && Step(system, a).counters == counters
      modifies this`system, this`trace
      ensures Valid() && system == Step(old(system), a)
    {
      assert (trace + [a])[..|trace|] == trace;
      AlwaysSane(system.size, system.limit, trace, Slot([], 0));
      system, trace := Step(system, a), trace + [a];
      AlwaysSane(old(system).size, old(system).limit, trace, Slot([], 0));
    }

    /** An `await` of attempt `i`: any steps of time and of other attempts. */
    method Await(i: nat)
      requires Valid() && i < |system.attempts|
      modifies this
      ensures Valid() && i < |system.attempts| && system.attempts[i] == old(system.attempts[i])
      ensures system.size == old(system.size) && system.limit == old(system.limit)
      ensures forall k :: old(system.errors[k]) <= system.errors[k]
    {
      var rounds: nat := *;
      while rounds > 0
        invariant Valid() && i < |system.attempts| && system.attempts[i] == old(system.attempts[i])
        invariant system.size == old(system.size) && system.limit == old(system.limit)
        invariant forall k :: old(system.errors[k]) <= system.errors[k]
      {
        var a: Action := *;
        if !(a.Proceed? && a.attempt == i) {
          OthersLeaveAttempt(system, a, i);
          now, counters := Step(system, a).now, Step(system, a).counters;
          Record(a);
        }
        rounds := rounds - 1;
      }
    }

    method Increment(slot: Slot) returns (count: nat, o: Outcome)
      modifies this`counters
      ensures counters == if o == Lost then old(counters) else Incremented(old(counters), slot)
      ensures count == Value(old(counters), slot) + 1
    {
      o := *;
      count := Value(counters, slot) + 1;
      if o != Lost {
        counters := Incremented(counters, slot);
      }
    }

    method PExpire(slot: Slot, ttl: nat) returns (o: Outcome)
      modifies this`counters
      ensures counters == if o == Lost then old(counters) else Armed(old(counters), slot, now + ttl)
    {
      o := *;
      if o != Lost {
        counters := Armed(counters, slot, now + ttl);
      }
    }

    method StartWindow(i: nat, slot: Slot) returns (o: Outcome)
      requires Valid() && i < |system.attempts| && At(i).Arming? && system.attempts[i].slot == slot
      modifies this
      ensures Valid() && system.size == old(system.size) && system.limit == old(system.limit)
      ensures i < |system.attempts| && system.attempts[i].slot == slot
      ensures At(i) == if o == Acked then Verdict(1, system.limit) else Failed
      ensures system.errors[slot] >= old(system.errors[slot]) + if o != Acked then 1 else 0
    {
      Await(i);
      o := PExpire(slot, system.size);
      ArmingLeads(system, i, o);
      Record(Proceed(i, o));
    }

    method CountAttempt(i: nat, slot: Slot) returns (count: nat, o: Outcome)
      requires Valid() && i < |system.attempts| && At(i).Counting? && system.attempts[i].slot == slot
      modifies this
      ensures Valid() && system.size == old(system.size) && system.limit == old(system.limit)
      ensures i < |system.attempts| && system.attempts[i].slot == slot && count >= 1
      ensures At(i) == if o != Acked then Failed else if count == 1 then Arming else Verdict(count, system.limit)
      ensures system.errors[slot] >= old(system.errors[slot]) + if o != Acked then 1 else 0
    {
      Await(i);
      count, o := Increment(slot);
      CountingLeads(system, i, o);
      Record(Proceed(i, o));
    }

    /** Count this attempt in the window the clock shows, and refuse it beyond the limit. Whatever
        the answer, every window has let through at most the limit, and once more for every restart. */
    method AssertCreateAllowed(identity: Text) returns (r: Admission, i: nat)
      requires Valid()
      modifies this
      ensures Valid() && system.size == old(system.size) && system.limit == old(system.limit)
      ensures i == |old(system.attempts)| < |system.attempts|
      ensures system.attempts[i].slot == Slot(identity, old(now) / system.size)
      ensures r == AdmissionOf(At(i)) && (r == Unavailable ==> At(i).Failed?)
      ensures r == Unavailable ==> system.errors[system.attempts[i].slot] > old(system.errors)[system.attempts[i].slot]
      ensures forall k :: Sum(Passes(system.attempts, k)) <= system.limit * (1 + system.restarts[k])
    {
      var slot := Slot(identity, now / system.size);
      i := |system.attempts|;
      Record(Arrive(identity));
      var count, o := CountAttempt(i, slot);
      if o == Acked && count == 1 {
        o := StartWindow(i, slot);
      }
      r := if o != Acked then Unavailable else if count > system.limit then TooMany else Admitted;
      LimitHolds();
    }

    lemma LimitHolds()
      requires Valid()
      ensures forall k :: Sum(Passes(system.attempts, k)) <= system.limit * (1 + system.restarts[k])
    {
      forall k ensures Sum(Passes(system.attempts, k)) <= system.limit * (1 + system.restarts[k]) {
        PassesPerRestart(system, k);
      }
    }
  }
}
