/** The fixed-window write throttle: one counter per identity and window, with a time to live. */
module RateLimit {
  import opened Basics
  import opened IdempotencyKeys

  /** The counter key is made of the identity and the number of the window. */
  datatype Slot = Slot(identity: Text, window: nat)

  datatype Counter = Counter(count: nat, expires: Option<nat>)

  /** An attempt has read the clock and waits for INCR, or for PEXPIRE after the first INCR, or is over. */
  datatype AttemptAt = Counting | Arming | Passed | Limited | Failed

  /** `counted` is the time its INCR was carried out. */
  datatype Attempt = Attempt(slot: Slot, counted: nat, at: AttemptAt)

  /** `tally` is how often a slot has been incremented; `restarts` how often an increment found the
      slot's counter gone although it had been counted before; `late` the slots incremented when their
      window was over; `errors` the commands reported failed. */
  datatype State = State(
    size: nat,
    limit: nat,
    now: nat,
    counters: map<Slot, Counter>,
    attempts: seq<Attempt>,
    tally: multiset<Slot>,
    restarts: multiset<Slot>,
    late: set<Slot>,
    errors: multiset<Slot>)

  datatype Action = Tick(elapsed: nat) | Arrive(identity: Text) | Proceed(attempt: nat, outcome: Outcome)

  /** Both settings are validated to be positive. */
  function Init(size: nat, limit: nat): State {
    State(size, limit, 0, map[], [], multiset{}, multiset{}, {}, multiset{})
  }

  function Value(counters: map<Slot, Counter>, k: Slot): nat {
    if k in counters then counters[k].count else 0
  }

  /** INCR creates a missing counter and keeps the time to live of an existing one. */
  function Incremented(counters: map<Slot, Counter>, k: Slot): map<Slot, Counter> {
    counters[k := Counter(Value(counters, k) + 1, if k in counters then counters[k].expires else None)]
  }

  function Armed(counters: map<Slot, Counter>, k: Slot, at: nat): map<Slot, Counter> {
    if k in counters then counters[k := counters[k].(expires := Some(at))] else counters
  }

  function CountersAfter(s: State, a: Attempt, o: Outcome): map<Slot, Counter> {
    if o == Lost then s.counters
    else if a.at.Counting? then Incremented(s.counters, a.slot)
    else if a.at.Arming? then Armed(s.counters, a.slot, s.now + s.size)
    else s.counters
  }

  /** The verdict on the value INCR returned. */
  function Verdict(count: nat, limit: nat): AttemptAt {
    if count > limit then Limited else Passed
  }

  function NextAt(s: State, a: Attempt, o: Outcome): AttemptAt {
    if a.at.Counting? then
      if o != Acked then Failed
      else if Value(s.counters, a.slot) == 0 then Arming
      else Verdict(Value(s.counters, a.slot) + 1, s.limit)
    else if a.at.Arming? then
      if o != Acked then Failed else Verdict(1, s.limit)
    else a.at
  }

  predicate Counts(a: Attempt, o: Outcome) {
    a.at.Counting? && o != Lost
  }

  function AttemptAfter(s: State, a: Attempt, o: Outcome): Attempt {
    a.(at := NextAt(s, a, o), counted := if Counts(a, o) then s.now else a.counted)
  }

  predicate Restarts(s: State, a: Attempt, o: Outcome) {
    Counts(a, o) && a.slot !in s.counters && s.tally[a.slot] > 0
  }

  predicate Errs(a: Attempt, o: Outcome) {
    (a.at.Counting? || a.at.Arming?) && o != Acked
  }

  function WindowEnd(s: State, k: Slot): nat {
    (k.window + 1) * s.size
  }

  predicate ComesLate(s: State, a: Attempt, o: Outcome) {
    Counts(a, o) && s.now >= WindowEnd(s, a.slot)
  }

  function Marked(bag: multiset<Slot>, k: Slot, when: bool): multiset<Slot> {
    if when then bag + multiset{k} else bag
  }

  function ProceedStep(s: State, i: nat, o: Outcome): State
    requires i < |s.attempts|
  {
    var a := s.attempts[i];
    s.(attempts := s.attempts[i := AttemptAfter(s, a, o)],
       counters := CountersAfter(s, a, o),
       tally := Marked(s.tally, a.slot, Counts(a, o)),
       restarts := Marked(s.restarts, a.slot, Restarts(s, a, o)),
       late := if ComesLate(s, a, o) then s.late + {a.slot} else s.late,
       errors := Marked(s.errors, a.slot, Errs(a, o)))
  }

  function TickStep(s: State, elapsed: nat): State {
    s.(now := s.now + elapsed,
       counters := map k | k in s.counters && Alive(s.counters[k].expires, s.now + elapsed) :: s.counters[k])
  }

  /** The window is fixed by the clock when the attempt arrives. */
  function ArriveStep(s: State, identity: Text): State
    requires s.size > 0
  {
    s.(attempts := s.attempts + [Attempt(Slot(identity, s.now / s.size), s.now, Counting)])
  }

  function Step(s: State, a: Action): State {
    match a
    case Tick(elapsed) => TickStep(s, elapsed)
    case Arrive(identity) => if s.size > 0 then ArriveStep(s, identity) else s
    case Proceed(i, o) => if i < |s.attempts| then ProceedStep(s, i, o) else s
  }

  function Run(s: State, actions: seq<Action>): State {
    if actions == [] then s else Step(Run(s, actions[..|actions| - 1]), actions[|actions| - 1])
  }

  ghost predicate Reachable(s: State) {
    s.size > 0 && s.limit > 0 && exists actions :: s == Run(Init(s.size, s.limit), actions)
  }

  // ---------------------------------------------------------------- the counter of one slot

  /** Attempts belong to windows that had begun when they arrived, and are counted later than that. */
  predicate WindowsBegun(s: State) {
    s.size > 0 && forall n | 0 <= n < |s.attempts| ::
      s.attempts[n].slot.window * s.size <= s.attempts[n].counted <= s.now
  }

  lemma WindowBegins(now: nat, size: nat)
    requires size > 0
    ensures (now / size) * size <= now < (now / size + 1) * size
  {
  }

  lemma StepWindowsBegun(s: State, a: Action)
    requires WindowsBegun(s)
    ensures WindowsBegun(Step(s, a))
  {
    if a.Arrive? {
      WindowBegins(s.now, s.size);
    }
  }

  /** The counter counts every increment since its last restart. */
  predicate Faithful(s: State, k: Slot) {
    && (k in s.counters ==> 1 <= s.counters[k].count <= s.tally[k])
    && (k in s.counters && s.restarts[k] == 0 ==> s.counters[k].count == s.tally[k])
  }

  /** As long as no increment comes after its window's end, the counter does not restart: once
      counted, it is there until the window is over, whatever became of PEXPIRE. */
  predicate Punctual(s: State, k: Slot) {
    if k in s.late then s.now >= WindowEnd(s, k) else
      && s.restarts[k] == 0
      && (k in s.counters && s.counters[k].expires.Some? ==> s.counters[k].expires.value >= WindowEnd(s, k))
      && (k !in s.counters && s.tally[k] > 0 ==> s.now >= WindowEnd(s, k))
  }

  lemma ProceedFaithful(s: State, i: nat, o: Outcome, k: Slot)
    requires Faithful(s, k) && i < |s.attempts|
    ensures Faithful(ProceedStep(s, i, o), k)
  {
  }

  lemma ProceedPunctual(s: State, i: nat, o: Outcome, k: Slot)
    requires WindowsBegun(s) && Punctual(s, k) && i < |s.attempts|
    ensures Punctual(ProceedStep(s, i, o), k)
  {
    assert WindowEnd(s, k) == k.window * s.size + s.size;
  }

  lemma TickKeepsSlot(s: State, elapsed: nat, k: Slot)
    requires Faithful(s, k) && Punctual(s, k)
    ensures Faithful(TickStep(s, elapsed), k) && Punctual(TickStep(s, elapsed), k)
  {
  }

  // ---------------------------------------------------------------- how many pass

  /** A pass, or the first attempt still waiting to set the time to live. */
  function Credit(a: Attempt, k: Slot): nat {
    if a.slot == k && (a.at.Passed? || a.at.Arming?) then 1 else 0
  }

  function Credits(attempts: seq<Attempt>, k: Slot): seq<nat> {
    seq(|attempts|, n requires 0 <= n < |attempts| => Credit(attempts[n], k))
  }

  function Min(a: nat, b: nat): nat {
    if a < b then a else b
  }

  /** One full limit for every restart, and what the present counter has given away. */
  function Ceiling(s: State, k: Slot): nat {
    s.limit * s.restarts[k] + Min(if k in s.counters then s.counters[k].count else s.tally[k], s.limit)
  }

  /** The throttle: passes never exceed the ceiling, and reach it when nothing failed or restarted. */
  predicate Throttled(s: State, k: Slot) {
    && Sum(Credits(s.attempts, k)) <= Ceiling(s, k)
    && (s.errors[k] == 0 && s.restarts[k] == 0 ==> Sum(Credits(s.attempts, k)) == Ceiling(s, k))
  }

  /** What one command adds to the passes is at most what it adds to the ceiling, and just that when
      it neither fails nor restarts the counter. */
  lemma CreditEarned(s: State, i: nat, o: Outcome)
    requires i < |s.attempts| && Faithful(s, s.attempts[i].slot) && s.limit >= 1
    ensures var a, t := s.attempts[i], ProceedStep(s, i, o);
            var before, after := Credit(a, a.slot) + Ceiling(t, a.slot),
                Credit(t.attempts[i], a.slot) + Ceiling(s, a.slot);
            after <= before && (!Errs(a, o) && t.restarts[a.slot] == 0 ==> after == before)
  {
    var a := s.attempts[i];
    assert s.limit * (s.restarts[a.slot] + 1) == s.limit * s.restarts[a.slot] + s.limit;
  }

  lemma OthersKeepCeiling(s: State, i: nat, o: Outcome, k: Slot)
    requires i < |s.attempts| && s.attempts[i].slot != k
    ensures Ceiling(ProceedStep(s, i, o), k) == Ceiling(s, k)
  {
  }

  lemma ProceedThrottled(s: State, i: nat, o: Outcome, k: Slot)
    requires Faithful(s, k) && Throttled(s, k) && s.limit >= 1 && i < |s.attempts|
    ensures Throttled(ProceedStep(s, i, o), k)
  {
    var a, t := s.attempts[i], ProceedStep(s, i, o);
    var before := Credits(s.attempts, k);
    assert Credits(t.attempts, k) == before[i := Credit(t.attempts[i], k)];
    SumUpdate(before, i, Credit(t.attempts[i], k));
    if a.slot == k {
      CreditEarned(s, i, o);
    } else {
      OthersKeepCeiling(s, i, o, k);
    }
  }

  lemma TickThrottled(s: State, elapsed: nat, k: Slot)
    requires Faithful(s, k) && Throttled(s, k)
    ensures Throttled(TickStep(s, elapsed), k)
  {
  }

  lemma ArriveThrottled(s: State, identity: Text, k: Slot)
    requires Throttled(s, k) && s.size > 0
    ensures Throttled(ArriveStep(s, identity), k)
  {
    assert Credits(ArriveStep(s, identity).attempts, k) == Credits(s.attempts, k) + [0];
    SumAppend(Credits(s.attempts, k), 0);
  }

  predicate Sane(s: State, k: Slot) {
    WindowsBegun(s) && Faithful(s, k) && Punctual(s, k) && Throttled(s, k) && s.limit >= 1
  }

  lemma StepSane(s: State, a: Action, k: Slot)
    requires Sane(s, k)
    ensures Sane(Step(s, a), k)
  {
    StepWindowsBegun(s, a);
    match a
    case Proceed(i, o) =>
      if i < |s.attempts| {
        ProceedFaithful(s, i, o, k);
        ProceedPunctual(s, i, o, k);
        ProceedThrottled(s, i, o, k);
      }
    case Arrive(identity) => ArriveThrottled(s, identity, k);
    case Tick(elapsed) =>
      TickKeepsSlot(s, elapsed, k);
      TickThrottled(s, elapsed, k);
  }

  /** In every reachable state, delayed and failing commands included: a slot that is only
      incremented in time never restarts, and passes stay below the ceiling. */
  lemma {:induction false} AlwaysSane(size: nat, limit: nat, actions: seq<Action>, k: Slot)
    requires size > 0 && limit > 0
    ensures Sane(Run(Init(size, limit), actions), k)
    ensures Run(Init(size, limit), actions).size == size && Run(Init(size, limit), actions).limit == limit
  {
    if actions != [] {
      var front := actions[..|actions| - 1];
      AlwaysSane(size, limit, front, k);
      StepSane(Run(Init(size, limit), front), actions[|actions| - 1], k);
    }
  }

  function Pass(a: Attempt, k: Slot): nat {
    if a.slot == k && a.at.Passed? then 1 else 0
  }

  function Passes(attempts: seq<Attempt>, k: Slot): seq<nat> {
    seq(|attempts|, n requires 0 <= n < |attempts| => Pass(attempts[n], k))
  }

  /** The limit of a window, whatever is late, lost or reported failed: one allowance, and one more
      for every restart of its counter; and only a late increment can restart it. */
  lemma PassesPerRestart(s: State, k: Slot)
    requires Reachable(s)
    ensures Sum(Passes(s.attempts, k)) <= s.limit * (1 + s.restarts[k])
    ensures k !in s.late ==> s.restarts[k] == 0
  {
    var actions :| s == Run(Init(s.size, s.limit), actions);
    AlwaysSane(s.size, s.limit, actions, k);
    SumMonotone(Passes(s.attempts, k), Credits(s.attempts, k));
    assert s.limit * (1 + s.restarts[k]) == s.limit + s.limit * s.restarts[k];
  }

  /** Exactly when a window whose allowance is used up can still let an attempt through: when its
      counter is gone, or has a time to live that waiting can outlast. */
  lemma ReopensExactlyWithTtl(s: State, i: nat)
    requires Reachable(s) && i < |s.attempts| && s.attempts[i].at.Counting?
    requires s.restarts[s.attempts[i].slot] == 0 && s.tally[s.attempts[i].slot] >= s.limit
    ensures var k := s.attempts[i].slot;
            (exists wait :: NextAt(TickStep(s, wait), s.attempts[i], Acked) != Limited)
            <==> k !in s.counters || s.counters[k].expires.Some?
  {
    var actions :| s == Run(Init(s.size, s.limit), actions);
    var a := s.attempts[i];
    AlwaysSane(s.size, s.limit, actions, a.slot);
    if a.slot !in s.counters {
      assert NextAt(TickStep(s, 0), a, Acked) == Arming;
    } else if s.counters[a.slot].expires.Some? {
      assert a.slot !in TickStep(s, s.counters[a.slot].expires.value).counters;
      assert NextAt(TickStep(s, s.counters[a.slot].expires.value), a, Acked) == Arming;
    } else {
      forall wait ensures NextAt(TickStep(s, wait), a, Acked) == Limited {
        assert TickStep(s, wait).counters[a.slot] == s.counters[a.slot];
      }
    }
  }

  /** Attempts on a slot, those that still wait for INCR included. */
  function Tried(a: Attempt, k: Slot): nat {
    if a.slot == k then 1 else 0
  }

  function Tries(attempts: seq<Attempt>, k: Slot): seq<nat> {
    seq(|attempts|, n requires 0 <= n < |attempts| => Tried(attempts[n], k))
  }

  /** The tally of a slot without errors is the number of attempts that are not waiting for INCR. */
  function Waiting(a: Attempt, k: Slot): nat {
    if a.slot == k && a.at.Counting? then 1 else 0
  }

  function Waits(attempts: seq<Attempt>, k: Slot): seq<nat> {
    seq(|attempts|, n requires 0 <= n < |attempts| => Waiting(attempts[n], k))
  }

  predicate Tallied(s: State, k: Slot) {
    s.errors[k] == 0 ==> s.tally[k] + Sum(Waits(s.attempts, k)) == Sum(Tries(s.attempts, k))
  }

  lemma ProceedTallied(s: State, i: nat, o: Outcome, k: Slot)
    requires Tallied(s, k) && i < |s.attempts|
    ensures Tallied(ProceedStep(s, i, o), k)
  {
    var t := ProceedStep(s, i, o);
    SumUpdate(Waits(s.attempts, k), i, Waiting(t.attempts[i], k));
    assert Waits(t.attempts, k) == Waits(s.attempts, k)[i := Waiting(t.attempts[i], k)];
    assert Tries(t.attempts, k) == Tries(s.attempts, k);
  }

  lemma ArriveTallied(s: State, identity: Text, k: Slot)
    requires Tallied(s, k) && s.size > 0
    ensures Tallied(ArriveStep(s, identity), k)
  {
    var t := ArriveStep(s, identity);
    var a := t.attempts[|s.attempts|];
    assert Waits(t.attempts, k) == Waits(s.attempts, k) + [Waiting(a, k)];
    assert Tries(t.attempts, k) == Tries(s.attempts, k) + [Tried(a, k)];
    SumAppend(Waits(s.attempts, k), Waiting(a, k));
    SumAppend(Tries(s.attempts, k), Tried(a, k));
  }

  lemma StepTallied(s: State, a: Action, k: Slot)
    requires Tallied(s, k)
    ensures Tallied(Step(s, a), k)
  {
    match a
    case Proceed(i, o) => if i < |s.attempts| { ProceedTallied(s, i, o, k); }
    case Arrive(identity) => if s.size > 0 { ArriveTallied(s, identity, k); }
    case Tick(_) =>
  }

  lemma {:induction false} AlwaysTallied(size: nat, limit: nat, actions: seq<Action>, k: Slot)
    ensures Tallied(Run(Init(size, limit), actions), k)
  {
    if actions != [] {
      AlwaysTallied(size, limit, actions[..|actions| - 1], k);
      StepTallied(Run(Init(size, limit), actions[..|actions| - 1]), actions[|actions| - 1], k);
    }
  }

  predicate Over(a: Attempt, k: Slot) {
    a.slot == k ==> !a.at.Counting? && !a.at.Arming?
  }

  /** Without Redis errors and restarts, exactly min(attempts, limit) pass. */
  lemma ExactlyTheLimitPasses(s: State, k: Slot)
    requires Reachable(s) && s.restarts[k] == 0 && s.errors[k] == 0
    requires forall n | 0 <= n < |s.attempts| :: Over(s.attempts[n], k)
    ensures Sum(Passes(s.attempts, k)) == Min(Sum(Tries(s.attempts, k)), s.limit)
  {
    var actions :| s == Run(Init(s.size, s.limit), actions);
    AlwaysSane(s.size, s.limit, actions, k);
    AlwaysTallied(s.size, s.limit, actions, k);
    SettledCredits(s, k);
  }

  lemma SettledCredits(s: State, k: Slot)
    requires forall n | 0 <= n < |s.attempts| :: Over(s.attempts[n], k)
    ensures Passes(s.attempts, k) == Credits(s.attempts, k) && Sum(Waits(s.attempts, k)) == 0
  {
    forall n | 0 <= n < |s.attempts|
      ensures Pass(s.attempts[n], k) == Credit(s.attempts[n], k) && Waiting(s.attempts[n], k) == 0
    {
      assert Over(s.attempts[n], k);
    }
    SumOfZeros(Waits(s.attempts, k));
  }

  // ---------------------------------------------------------------- any interval of time

  /** A credit whose INCR was carried out before its window's end. */
  predicate OnTime(s: State, a: Attempt) {
    a.counted < WindowEnd(s, a.slot)
  }

  function Prompt(s: State, a: Attempt, k: Slot): nat {
    if OnTime(s, a) then Credit(a, k) else 0
  }

  function Prompts(s: State, k: Slot): seq<nat> {
    seq(|s.attempts|, n requires 0 <= n < |s.attempts| => Prompt(s, s.attempts[n], k))
  }

  /** Increments on time come before all late ones, so they share one allowance. */
  predicate PromptBounded(s: State, k: Slot) {
    Sum(Prompts(s, k)) <= s.limit
  }

  lemma PromptsAreCredits(s: State, k: Slot)
    requires Sane(s, k) && k !in s.late
    ensures PromptBounded(s, k)
  {
    SumMonotone(Prompts(s, k), Credits(s.attempts, k));
  }

  lemma ProceedPrompt(s: State, i: nat, o: Outcome, k: Slot)
    requires Sane(s, k) && PromptBounded(s, k) && i < |s.attempts|
    ensures PromptBounded(ProceedStep(s, i, o), k)
  {
    var t := ProceedStep(s, i, o);
    if k !in t.late {
      StepSane(s, Proceed(i, o), k);
      PromptsAreCredits(t, k);
    } else {
      LateAddsNoPrompt(s, i, o, k);
      SumUpdate(Prompts(s, k), i, Prompt(t, t.attempts[i], k));
      assert Prompts(t, k) == Prompts(s, k)[i := Prompt(t, t.attempts[i], k)];
    }
  }

  lemma LateAddsNoPrompt(s: State, i: nat, o: Outcome, k: Slot)
    requires Punctual(s, k) && i < |s.attempts| && k in ProceedStep(s, i, o).late && s.limit >= 1
    ensures Prompt(ProceedStep(s, i, o), ProceedStep(s, i, o).attempts[i], k) <= Prompt(s, s.attempts[i], k)
  {
  }

  lemma StepPrompt(s: State, a: Action, k: Slot)
    requires Sane(s, k) && PromptBounded(s, k)
    ensures PromptBounded(Step(s, a), k)
  {
    match a
    case Proceed(i, o) => if i < |s.attempts| { ProceedPrompt(s, i, o, k); }
    case Arrive(identity) =>
      assert Prompts(ArriveStep(s, identity), k) == Prompts(s, k) + [0];
      SumAppend(Prompts(s, k), 0);
    case Tick(elapsed) => assert Prompts(TickStep(s, elapsed), k) == Prompts(s, k);
  }

  lemma {:induction false} AlwaysPrompt(size: nat, limit: nat, actions: seq<Action>, k: Slot)
    requires size > 0 && limit > 0
    ensures PromptBounded(Run(Init(size, limit), actions), k)
  {
    if actions != [] {
      var front := actions[..|actions| - 1];
      AlwaysPrompt(size, limit, front, k);
      AlwaysSane(size, limit, front, k);
      StepPrompt(Run(Init(size, limit), front), actions[|actions| - 1], k);
    }
  }

  predicate PassesIn(a: Attempt, identity: Text, from: nat, length: nat) {
    a.at.Passed? && a.slot.identity == identity && from <= a.counted < from + length
  }

  /** The passes of one identity whose INCR was carried out in [from, from + length). */
  function PassesInTime(s: State, identity: Text, from: nat, length: nat): seq<nat> {
    seq(|s.attempts|, n requires 0 <= n < |s.attempts| =>
      if PassesIn(s.attempts[n], identity, from, length) then 1 else 0)
  }

  /** Those of them that were counted when their window was over. */
  function LatePassesInTime(s: State, identity: Text, from: nat, length: nat): seq<nat> {
    seq(|s.attempts|, n requires 0 <= n < |s.attempts| =>
      if PassesIn(s.attempts[n], identity, from, length) && !OnTime(s, s.attempts[n]) then 1 else 0)
  }

  function PromptPassesInTime(s: State, identity: Text, from: nat, length: nat): seq<nat> {
    seq(|s.attempts|, n requires 0 <= n < |s.attempts| =>
      if PassesIn(s.attempts[n], identity, from, length) && OnTime(s, s.attempts[n]) then 1 else 0)
  }

  function InWindows(s: State, a: Attempt, identity: Text, lo: nat, hi: nat): nat {
    if lo <= a.slot.window < hi then Prompt(s, a, Slot(identity, a.slot.window)) else 0
  }

  function PromptsInWindows(s: State, identity: Text, lo: nat, hi: nat): seq<nat> {
    seq(|s.attempts|, n requires 0 <= n < |s.attempts| => InWindows(s, s.attempts[n], identity, lo, hi))
  }

  /** Each window contributes at most the limit. */
  lemma {:induction false} WindowsContribute(s: State, identity: Text, lo: nat, hi: nat)
    requires lo <= hi && forall w: nat :: PromptBounded(s, Slot(identity, w))
    ensures Sum(PromptsInWindows(s, identity, lo, hi)) <= (hi - lo) * s.limit
  {
    if lo == hi {
      SumOfZeros(PromptsInWindows(s, identity, lo, hi));
    } else {
      var k := Slot(identity, hi - 1);
      WindowsContribute(s, identity, lo, hi - 1);
      SumAdds(PromptsInWindows(s, identity, lo, hi), PromptsInWindows(s, identity, lo, hi - 1), Prompts(s, k));
      assert PromptBounded(s, k);
      assert (hi - lo) * s.limit == (hi - 1 - lo) * s.limit + s.limit;
    }
  }

  function CeilDiv(length: nat, size: nat): nat
    requires size > 0
  {
    (length + size - 1) / size
  }

  lemma QuotientBelow(x: nat, m: nat, size: nat)
    requires size > 0 && x < m * size
    ensures x / size < m
  {
    WindowBegins(x, size);
    var q := x / size;
    assert q >= m ==> q * size >= m * size;
  }

  lemma QuotientOrder(x: nat, y: nat, size: nat)
    requires size > 0 && x <= y
    ensures x / size <= y / size
  {
    WindowBegins(x, size);
    WindowBegins(y, size);
    QuotientBelow(x, y / size + 1, size);
  }

  /** An interval touches at most one window more than it is windows long. */
  lemma WindowsTouched(from: nat, length: nat, size: nat)
    requires size > 0 && length > 0
    ensures from / size <= (from + length - 1) / size <= from / size + CeilDiv(length, size)
  {
    var q, c := from / size, CeilDiv(length, size);
    WindowBegins(from, size);
    WindowBegins(length + size - 1, size);
    QuotientOrder(from, from + length - 1, size);
    assert (c + 1) * size == c * size + size;
    assert (q + 1) * size + c * size == (q + c + 1) * size;
    QuotientBelow(from + length - 1, q + c + 1, size);
  }

  lemma TimeInWindows(s: State, a: Attempt, identity: Text, from: nat, length: nat)
    requires s.size > 0 && length > 0 && a.slot.window * s.size <= a.counted
    requires PassesIn(a, identity, from, length) && OnTime(s, a)
    ensures InWindows(s, a, identity, from / s.size, (from + length - 1) / s.size + 1) == 1
  {
    WindowOfTime(a.counted, a.slot.window, s.size);
    QuotientOrder(from, a.counted, s.size);
    QuotientOrder(a.counted, from + length - 1, s.size);
  }

  lemma WindowOfTime(time: nat, window: nat, size: nat)
    requires size > 0 && window * size <= time < (window + 1) * size
    ensures time / size == window
  {
    QuotientBelow(time, window + 1, size);
    WindowBegins(time, size);
    var q := time / size;
    assert q < window ==> (q + 1) * size <= window * size;
  }

  /** Any half-open interval of the given length admits at most (ceil(length / size) + 1) * limit
      creations of one identity, and those that were counted when their window was over. */
  lemma IntervalBound(s: State, identity: Text, from: nat, length: nat)
    requires Reachable(s)
    ensures Sum(PassesInTime(s, identity, from, length))
            <= (CeilDiv(length, s.size) + 1) * s.limit + Sum(LatePassesInTime(s, identity, from, length))
  {
    var actions :| s == Run(Init(s.size, s.limit), actions);
    AlwaysSane(s.size, s.limit, actions, Slot(identity, 0));
    forall w: nat ensures PromptBounded(s, Slot(identity, w)) {
      AlwaysPrompt(s.size, s.limit, actions, Slot(identity, w));
    }
    PromptInterval(s, identity, from, length);
    SumAdds(PassesInTime(s, identity, from, length), PromptPassesInTime(s, identity, from, length),
            LatePassesInTime(s, identity, from, length));
  }

  /** All the prompt passes of the interval belong to these windows. */
  predicate Covered(s: State, identity: Text, from: nat, length: nat, lo: nat, hi: nat) {
    forall n | 0 <= n < |s.attempts| && PassesIn(s.attempts[n], identity, from, length) && OnTime(s, s.attempts[n]) ::
      InWindows(s, s.attempts[n], identity, lo, hi) == 1
  }

  /** Then the windows, at most so many, bound them. */
  lemma PromptInWindows(s: State, identity: Text, from: nat, length: nat, lo: nat, hi: nat, most: nat)
    requires lo <= hi <= lo + most && Covered(s, identity, from, length, lo, hi)
    requires forall w: nat :: PromptBounded(s, Slot(identity, w))
    ensures Sum(PromptPassesInTime(s, identity, from, length)) <= most * s.limit
  {
    var prompt, inside := PromptPassesInTime(s, identity, from, length), PromptsInWindows(s, identity, lo, hi);
    forall n | 0 <= n < |s.attempts| ensures prompt[n] <= inside[n] {
    }
    SumMonotone(prompt, inside);
    WindowsContribute(s, identity, lo, hi);
    Scale(hi - lo, most, s.limit);
  }

  lemma IntervalCovered(s: State, identity: Text, from: nat, length: nat) returns (lo: nat, hi: nat)
    requires WindowsBegun(s)
    ensures lo <= hi <= lo + (CeilDiv(length, s.size) + 1) && Covered(s, identity, from, length, lo, hi)
  {
    if length == 0 {
      lo, hi := 0, 0;
    } else {
      WindowsTouched(from, length, s.size);
      lo, hi := from / s.size, (from + length - 1) / s.size + 1;
      forall n | 0 <= n < |s.attempts| && PassesIn(s.attempts[n], identity, from, length) && OnTime(s, s.attempts[n])
        ensures InWindows(s, s.attempts[n], identity, lo, hi) == 1
      {
        TimeInWindows(s, s.attempts[n], identity, from, length);
      }
    }
  }

  lemma PromptInterval(s: State, identity: Text, from: nat, length: nat)
    requires WindowsBegun(s) && forall w: nat :: PromptBounded(s, Slot(identity, w))
    ensures Sum(PromptPassesInTime(s, identity, from, length)) <= (CeilDiv(length, s.size) + 1) * s.limit
  {
    var lo, hi := IntervalCovered(s, identity, from, length);
    PromptInWindows(s, identity, from, length, lo, hi, CeilDiv(length, s.size) + 1);
  }

  lemma Scale(a: nat, b: nat, c: nat)
    requires a <= b
    ensures a * c <= b * c
  {
  }

  // ---------------------------------------------------------------- every restart costs an allowance

  lemma {:induction false} RunConcat(s: State, front: seq<Action>, more: seq<Action>)
    ensures Run(s, front + more) == Run(Run(s, front), more)
  {
    if more == [] {
      assert front + more == front;
    } else {
      assert (front + more)[..|front + more| - 1] == front + more[..|more| - 1];
      RunConcat(s, front, more[..|more| - 1]);
    }
  }

  lemma RunOne(s: State, a: Action)
    ensures Run(s, [a]) == Step(s, a)
  {
    assert [a][..0] == [];
  }

  /** Of the attempts, all on this slot, the first ones have passed and the others wait for INCR. */
  predicate Lined(s: State, k: Slot, passed: nat, waiting: nat) {
    && |s.attempts| == passed + waiting
    && (forall n | 0 <= n < passed :: s.attempts[n].slot == k && s.attempts[n].at.Passed?)
    && (forall n | passed <= n < |s.attempts| :: s.attempts[n].slot == k && s.attempts[n].at.Counting?)
  }

  /** The same settings, and no errors on either side. */
  predicate Smooth(s: State, t: State) {
    t.size == s.size && t.limit == s.limit && t.errors == s.errors
  }

  lemma {:induction false} LineUp(size: nat, limit: nat, identity: Text, n: nat) returns (actions: seq<Action>)
    requires size > 0
    ensures var s := Run(Init(size, limit), actions);
            && Lined(s, Slot(identity, 0), 0, n) && Smooth(Init(size, limit), s)
            && s.now == 0 && s.counters == map[] && s.tally == s.restarts == multiset{}
  {
    if n == 0 {
      actions := [];
    } else {
      var front := LineUp(size, limit, identity, n - 1);
      actions := front + [Arrive(identity)];
      RunConcat(Init(size, limit), front, [Arrive(identity)]);
      RunOne(Run(Init(size, limit), front), Arrive(identity));
    }
  }

  /** The next attempt passes: it finds the counter below the limit, or starts it anew. */
  predicate OnePasses(s: State, t: State, k: Slot) {
    && Smooth(s, t) && k in t.counters && t.counters[k].expires.Some?
    && t.counters[k].count == Value(s.counters, k) + 1 && t.tally[k] == s.tally[k] + 1
    && t.restarts[k] == s.restarts[k] + if k !in s.counters && s.tally[k] > 0 then 1 else 0
  }

  lemma PassOn(s: State, k: Slot, passed: nat, waiting: nat) returns (actions: seq<Action>)
    requires Lined(s, k, passed, waiting) && waiting > 0 && k in s.counters
    requires 1 <= s.counters[k].count < s.limit && s.counters[k].expires.Some?
    ensures Lined(Run(s, actions), k, passed + 1, waiting - 1) && OnePasses(s, Run(s, actions), k)
  {
    actions := [Proceed(passed, Acked)];
    RunOne(s, Proceed(passed, Acked));
  }

  lemma PassFirst(s: State, k: Slot, passed: nat, waiting: nat) returns (actions: seq<Action>)
    requires Lined(s, k, passed, waiting) && waiting > 0 && k !in s.counters && s.limit >= 1
    ensures Lined(Run(s, actions), k, passed + 1, waiting - 1) && OnePasses(s, Run(s, actions), k)
  {
    var a := Proceed(passed, Acked);
    actions := [a] + [a];
    RunConcat(s, [a], [a]);
    RunOne(s, a);
    RunOne(Step(s, a), a);
  }

  /** From a missing counter, n attempts in a row pass. */
  lemma {:induction false} UseUp(s: State, k: Slot, passed: nat, waiting: nat, n: nat) returns (actions: seq<Action>)
    requires Lined(s, k, passed, waiting) && k !in s.counters && 1 <= n <= waiting && n <= s.limit
    ensures var t := Run(s, actions);
            && Lined(t, k, passed + n, waiting - n) && Smooth(s, t)
            && k in t.counters && t.counters[k].count == n && t.counters[k].expires.Some? && t.tally[k] > 0
            && t.restarts[k] == s.restarts[k] + if s.tally[k] > 0 then 1 else 0
  {
    if n == 1 {
      actions := PassFirst(s, k, passed, waiting);
    } else {
      var front := UseUp(s, k, passed, waiting, n - 1);
      var last := PassOn(Run(s, front), k, passed + n - 1, waiting - (n - 1));
      actions := front + last;
      RunConcat(s, front, last);
    }
  }

  /** A whole allowance passes, and the counter's time to live runs out. */
  lemma OneRound(s: State, k: Slot, passed: nat, waiting: nat) returns (actions: seq<Action>)
    requires Lined(s, k, passed, waiting) && k !in s.counters && 1 <= s.limit <= waiting
    ensures var t := Run(s, actions);
            && Lined(t, k, passed + s.limit, waiting - s.limit) && Smooth(s, t) && k !in t.counters && t.tally[k] > 0
            && t.restarts[k] == s.restarts[k] + if s.tally[k] > 0 then 1 else 0
  {
    var front := UseUp(s, k, passed, waiting, s.limit);
    var full := Run(s, front);
    var wait := Tick(full.counters[k].expires.value);
    actions := front + [wait];
    RunConcat(s, front, [wait]);
    RunOne(full, wait);
  }

  /** n whole allowances. */
  function Allowances(n: nat, limit: nat): nat {
    if n == 0 then 0 else Allowances(n - 1, limit) + limit
  }

  lemma {:induction false} AllowancesMultiply(n: nat, limit: nat)
    ensures Allowances(n, limit) == limit * n
  {
    if n > 0 {
      AllowancesMultiply(n - 1, limit);
      assert limit * n == limit * (n - 1) + limit;
    }
  }

  lemma {:induction false} Rounds(s: State, k: Slot, passed: nat, waiting: nat, n: nat) returns (actions: seq<Action>)
    requires Lined(s, k, passed, waiting) && k !in s.counters && s.tally[k] > 0
    requires s.limit >= 1 && Allowances(n, s.limit) <= waiting
    ensures var t := Run(s, actions);
            && Lined(t, k, passed + Allowances(n, s.limit), waiting - Allowances(n, s.limit)) && Smooth(s, t)
            && k !in t.counters && t.tally[k] > 0 && t.restarts[k] == s.restarts[k] + n
  {
    if n == 0 {
      actions := [];
    } else {
      var front := Rounds(s, k, passed, waiting, n - 1);
      var soFar := Allowances(n - 1, s.limit);
      actions := OneRoundMore(s, front, k, passed + soFar, waiting - soFar);
    }
  }

  lemma OneRoundMore(s: State, front: seq<Action>, k: Slot, passed: nat, waiting: nat) returns (actions: seq<Action>)
    requires var m := Run(s, front);
             Lined(m, k, passed, waiting) && Smooth(s, m) && k !in m.counters && m.tally[k] > 0
             && 1 <= s.limit <= waiting
    ensures var m, t := Run(s, front), Run(s, actions);
            && Lined(t, k, passed + s.limit, waiting - s.limit) && Smooth(s, t)
            && k !in t.counters && t.tally[k] > 0 && t.restarts[k] == m.restarts[k] + 1
  {
    var last := OneRound(Run(s, front), k, passed, waiting);
    actions := front + last;
    RunConcat(s, front, last);
  }

  lemma LinedPasses(s: State, k: Slot, passed: nat)
    requires Lined(s, k, passed, 0)
    ensures Sum(Passes(s.attempts, k)) == passed
  {
    SumOfOnes(Passes(s.attempts, k));
  }

  /** For all settings and every number of restarts, some run without a single error passes as many
      attempts in one window as `PassesPerRestart` permits. */
  lemma RestartsAreAttained(size: nat, limit: nat, identity: Text, n: nat) returns (actions: seq<Action>)
    requires size > 0 && limit > 0
    ensures var s, k := Run(Init(size, limit), actions), Slot(identity, 0);
            s.restarts[k] == n && s.errors[k] == 0 && Sum(Passes(s.attempts, k)) == limit * (1 + n)
  {
    var k, more := Slot(identity, 0), Allowances(n, limit);
    var line := LineUp(size, limit, identity, limit + more);
    var s := Run(Init(size, limit), line);
    var first := OneRound(s, k, 0, limit + more);
    var rest := Rounds(Run(s, first), k, limit, more, n);
    actions := line + (first + rest);
    RunConcat(Init(size, limit), line, first + rest);
    RunConcat(s, first, rest);
    LinedPasses(Run(Init(size, limit), actions), k, limit + more);
    AllowancesMultiply(n, limit);
    assert limit + limit * n == limit * (1 + n);
  }

  // ---------------------------------------------------------------- one attempt

  /** An attempt is counted in the window that contains the moment of its arrival. */
  lemma ArrivesInItsWindow(s: State, identity: Text)
    requires s.size > 0
    ensures var i, t := |s.attempts|, Step(s, Arrive(identity));
            && |t.attempts| == i + 1 && t.counters == s.counters && t.now == s.now
            && var slot := t.attempts[i].slot;
               && t.attempts[i].at == Counting && slot.identity == identity
               && slot.window * s.size <= s.now < (slot.window + 1) * s.size
  {
    WindowBegins(s.now, s.size);
  }

  lemma OwnStep(s: State, i: nat, o: Outcome)
    requires i < |s.attempts|
    ensures var t := Step(s, Proceed(i, o));
            && |t.attempts| == |s.attempts| && t.attempts[i] == AttemptAfter(s, s.attempts[i], o)
            && t.counters == CountersAfter(s, s.attempts[i], o) && t.now == s.now && t.size == s.size
            && t.limit == s.limit
  {
  }

  /** The first attempt of a window, when nothing fails, starts the counter, gives it one window's time to
      live, and passes. */
  lemma FirstAttemptPasses(s: State, i: nat)
    requires i < |s.attempts| && s.attempts[i].at == Counting && s.attempts[i].slot !in s.counters && s.limit >= 1
    ensures var slot, t := s.attempts[i].slot, Step(Step(s, Proceed(i, Acked)), Proceed(i, Acked));
            && i < |t.attempts| && t.attempts[i].at == Passed
            && t.counters == s.counters[slot := Counter(1, Some(s.now + s.size))]
  {
    OwnStep(s, i, Acked);
    OwnStep(Step(s, Proceed(i, Acked)), i, Acked);
  }

  /** Any further one counts, leaves the time to live as it is, and passes if and only if the limit has not been
      used up. */
  lemma FurtherAttemptIsMeasured(s: State, i: nat)
    requires i < |s.attempts| && s.attempts[i].at == Counting
    requires s.attempts[i].slot in s.counters && s.counters[s.attempts[i].slot].count >= 1
    ensures var slot, t := s.attempts[i].slot, Step(s, Proceed(i, Acked));
            var counter := s.counters[slot];
            && i < |t.attempts|
            && t.attempts[i].at == (if counter.count < s.limit then Passed else Limited)
            && t.counters == s.counters[slot := Counter(counter.count + 1, counter.expires)]
  {
    OwnStep(s, i, Acked);
  }

  /** A command that is reported failed refuses the attempt; the counter keeps what was carried out. */
  lemma FailureRefuses(s: State, i: nat, o: Outcome)
    requires i < |s.attempts| && (s.attempts[i].at == Counting || s.attempts[i].at == Arming) && o != Acked
    ensures var a, t := s.attempts[i], Step(s, Proceed(i, o));
            && i < |t.attempts| && t.attempts[i].at == Failed
            && (o == Lost ==> t.counters == s.counters)
            && (o == Unacked && a.at == Counting ==> Value(t.counters, a.slot) == Value(s.counters, a.slot) + 1)
  {
    OwnStep(s, i, o);
  }

  /** Counters live exactly as long as they have been given; those that have been given nothing, for ever. */
  lemma CountersExpireExactly(s: State, elapsed: nat, k: Slot)
    ensures var t := Step(s, Tick(elapsed));
            k in t.counters <==>
              k in s.counters && (s.counters[k].expires.None? || s.now + elapsed < s.counters[k].expires.value)
    ensures k in Step(s, Tick(elapsed)).counters ==> Step(s, Tick(elapsed)).counters[k] == s.counters[k]
  {
  }
}
