/** What `createClaim` answers: replays of what is complete, waiting for what is pending, and the way out
    of a creation that fails. */
module Answers {
  import opened Basics
  import opened IdempotencyKeys
  import opened ClaimSystem
  import Frames
  import opened Registry
  import opened Accounting
  import opened Replies
  import opened Runs
  import FaultReports

  /** The caller's next command; waiting is answered by the clock. */
  function Next(i: nat, o: Outcome): Action {
    Create(i, o, ClaimId([]))
  }

  /** What a step of the caller leads to, in the parts of the state that its next commands look at. */
  predicate Stepped(s: State, t: State, i: nat, o: Outcome) {
    && i < |s.creators| == |t.creators| && t.limit == s.limit && t.db.now == s.db.now
    && var c := s.creators[i];
       && t.creators[i] == c.(at := NextCreateAt(s, c, o))
       && t.db.keys == KeysAfterCreate(s.db, c, o) && t.db.rows == RowsAfterCreate(s.db.rows, c, o)
       && t.db.list == ListAfterCreate(s.db.list, c, o)
  }

  lemma OwnStep(s: State, i: nat, o: Outcome)
    requires i < |s.creators| && !s.creators[i].at.Arm?
    ensures Stepped(s, Step(s, Next(i, o)), i, o)
  {
  }

  /** A command that only reads leaves the whole store alone. */
  lemma ReadingStep(s: State, i: nat)
    requires i < |s.creators|
    requires s.creators[i].at.Lookup? || s.creators[i].at.Poll? || s.creators[i].at.Fetch?
    ensures Step(s, Next(i, Acked)).db == s.db
  {
  }

  // ---------------------------------------------------------------- replays

  /** What a complete entry means for a caller of this identity: its claim, if that is the caller's own. */
  function EntryAnswer(s: State, id: ClaimId, identity: Text): Reply {
    if id in s.db.rows && s.db.rows[id].owner == identity then Replayed(id) else Refused(NotFound)
  }

  /** The caller's next two steps, seen through what they look at. */
  lemma TwoSteps(s: State, i: nat, o: Outcome, p: Outcome) returns (m: State, t: State)
    requires i < |s.creators| && !s.creators[i].at.Arm? && !NextCreateAt(s, s.creators[i], o).Arm?
    ensures m == Step(s, Next(i, o)) && t == Run(s, [Next(i, o), Next(i, p)]) && t == Step(m, Next(i, p))
    ensures Stepped(s, m, i, o) && Stepped(m, t, i, p)
  {
    RunTwo(s, Next(i, o), Next(i, p));
    m := Step(s, Next(i, o));
    OwnStep(s, i, o);
    t := Step(m, Next(i, p));
    OwnStep(m, i, p);
  }

  lemma LookLeads(s: State, m: State, t: State, i: nat, id: ClaimId)
    requires Stepped(s, m, i, Acked) && Stepped(m, t, i, Acked)
    requires s.creators[i].at.Lookup? || s.creators[i].at.Poll?
    requires s.creators[i].key in s.db.keys && s.db.keys[s.creators[i].key].mark == Complete(id)
    ensures m.creators[i].at == Fetch(id)
    ensures t.creators[i].at == Replied(EntryAnswer(s, id, s.creators[i].identity))
  {
  }

  /** A caller that looks at a complete entry is answered with its claim by its next two commands, both of
      which only read. */
  lemma CompleteIsReplayed(s: State, i: nat, id: ClaimId)
    requires i < |s.creators| && (s.creators[i].at.Lookup? || s.creators[i].at.Poll?)
    requires s.creators[i].key in s.db.keys && s.db.keys[s.creators[i].key].mark == Complete(id)
    ensures var t := Run(s, [Next(i, Acked), Next(i, Acked)]);
            && t.db == s.db && i < |t.creators|
            && t.creators[i].at == Replied(EntryAnswer(s, id, s.creators[i].identity))
  {
    var m, t := TwoSteps(s, i, Acked, Acked);
    LookLeads(s, m, t, i, id);
    ReadingStep(s, i);
    ReadingStep(m, i);
  }

  /** So is a request on a complete key, and changes nothing. */
  lemma RequestIsReplayed(s: State, identity: Text, header: Option<Text>, fingerprint: Text, id: ClaimId)
    requires var k := BuildKey(identity, header, fingerprint); k in s.db.keys && s.db.keys[k].mark == Complete(id)
    ensures var i, call := |s.creators|, Call(identity, header, fingerprint);
            var t := Run(s, [call] + [Next(i, Acked), Next(i, Acked)]);
            && t.db == s.db && i < |t.creators| && t.creators[i].at == Replied(EntryAnswer(s, id, identity))
  {
    var i, call := |s.creators|, Call(identity, header, fingerprint);
    RunOne(s, call);
    RunConcat(s, [call], [Next(i, Acked), Next(i, Acked)]);
    CompleteIsReplayed(Step(s, call), i, id);
  }

  /** The promise of the idempotency key: once a client has been told of a claim, then as long as the
      key does not lapse, every further request of its identity on it is answered with that claim. */
  lemma RepeatedRequestIsReplayed(b: State, more: seq<Action>, s: State, i: nat, id: ClaimId, header: Option<Text>,
                                  fingerprint: Text)
    requires Reachable(b) && s == Run(b, more) && i < |s.creators| && NobodyInside(b, s.creators[i].key)
    requires s.log.lapses[s.creators[i].key] == b.log.lapses[s.creators[i].key]
    requires s.creators[i].key == BuildKey(s.creators[i].identity, header, fingerprint)
    requires Told(s.creators[i].at) == Some(id) && NamedSince(b, s, i)
    ensures var j, call := |s.creators|, Call(s.creators[i].identity, header, fingerprint);
            var t := Run(s, [call] + [Next(j, Acked), Next(j, Acked)]);
            t.db == s.db && j < |t.creators| && t.creators[j].at == Replied(Replayed(id))
  {
    RepliesAgree(b, more, s, s.creators[i].key, i, i);
    ReachesOn(b, more);
    NobodyIsToldOfAnothersClaim(s, i);
    RequestIsReplayed(s, s.creators[i].identity, header, fingerprint, id);
  }

  /** Where a caller can stand that has come to a key whose entry is complete, if the claim is its own and if not. */
  predicate Replaying(at: CreateAt, id: ClaimId, own: bool) {
    || at in {Lookup, Fetch(id), Replied(Refused(BackendError)), Killed}
    || at == Replied(if own then Replayed(id) else Refused(NotFound))
  }

  predicate AllReplaying(b: State, s: State, k: Key, id: ClaimId) {
    && |b.creators| <= |s.creators|
    && forall n | |b.creators| <= n < |s.creators| && s.creators[n].key == k ::
         Replaying(s.creators[n].at, id, OwnedBy(s, id, s.creators[n].identity))
  }

  lemma CommandReplays(s: State, c: Creator, o: Outcome, id: ClaimId)
    requires Replaying(c.at, id, OwnedBy(s, id, c.identity)) && Cell(s, c.key) == Some(id)
    requires RowsOwned(s) && id in s.db.rows
    ensures Replaying(NextCreateAt(s, c, o), id, OwnedBy(s, id, c.identity))
  {
  }

  /** Whose claim it is never changes. */
  lemma OwnerFixed(s: State, a: Action, id: ClaimId, identity: Text)
    requires id in s.log.issued && s.log.issued[id] < |s.creators|
    ensures OwnedBy(Step(s, a), id, identity) <==> OwnedBy(s, id, identity)
  {
    OwnershipStays(s, a, id, s.creators[s.log.issued[id]].identity);
  }

  lemma StepReplays(b: State, s: State, a: Action, k: Key, id: ClaimId)
    requires AllReplaying(b, s, k, id) && Cell(s, k) == Some(id) && Registered(s) && Lasting(s, id, k)
    ensures AllReplaying(b, Step(s, a), k, id)
  {
    var t := Step(s, a);
    if Enabled(s, a) {
      if a.Create? {
        Frames.CreateFrames(s, a.creator, a.outcome, a.uuid);
        if a.creator >= |b.creators| && s.creators[a.creator].key == k {
          CommandReplays(s, s.creators[a.creator], a.outcome, id);
        }
      } else if !a.Call? && !a.KillCreator? {
        Frames.OutsideFrames(s, a);
      }
      forall n | |b.creators| <= n < |t.creators| && t.creators[n].key == k
        ensures Replaying(t.creators[n].at, id, OwnedBy(t, id, t.creators[n].identity))
      {
        OwnerFixed(s, a, id, t.creators[n].identity);
      }
    }
  }

  /** Lapses never become fewer. */
  lemma LapsesStay(s: State, a: Action, k: Key)
    ensures s.log.lapses[k] <= Step(s, a).log.lapses[k]
  {
    if Enabled(s, a) && !a.Create? && !a.Call? && !a.KillCreator? {
      Frames.OutsideFrames(s, a);
    }
  }

  lemma {:induction false} LaterCallersReplay(b: State, more: seq<Action>, k: Key, id: ClaimId)
    requires Reachable(b) && NobodyInside(b, k) && Cell(b, k) == Some(id)
    ensures b.log.lapses[k] <= Run(b, more).log.lapses[k]
    ensures Run(b, more).log.lapses[k] == b.log.lapses[k] ==>
              AllReplaying(b, Run(b, more), k, id) && Cell(Run(b, more), k) == Some(id)
  {
    RunAgreed(b, more, k);
    if more != [] {
      var front, a := more[..|more| - 1], more[|more| - 1];
      LaterCallersReplay(b, front, k, id);
      LapsesStay(Run(b, front), a, k);
      if Run(b, front).log.lapses[k] == b.log.lapses[k] {
        ReachesOn(b, front);
        ReachableRegistered(Run(b, front));
        ReachableSound(Run(b, front));
        StepReplays(b, Run(b, front), a, k, id);
      }
    }
  }

  /** The promise again, under any interleaving at all: whoever calls once the entry is complete, and is answered
      while the key has not lapsed, without a failing command of its own, is answered with the entry's claim. */
  lemma AnsweredWithTheEntry(b: State, more: seq<Action>, s: State, k: Key, id: ClaimId, n: nat)
    requires Reachable(b) && NobodyInside(b, k) && k in b.db.keys && b.db.keys[k].mark == Complete(id)
    requires s == Run(b, more) && s.log.lapses[k] == b.log.lapses[k]
    requires |b.creators| <= n < |s.creators| && s.creators[n].key == k && s.creators[n].at.Replied?
    requires s.faults.failed[CreatorThread(n)] == 0
    ensures s.creators[n].at == Replied(EntryAnswer(s, id, s.creators[n].identity))
  {
    LaterCallersReplay(b, more, k, id);
    ReachesOn(b, more);
    FaultReports.RefusedForAReason(s, n);
    ReachableRegistered(s);
    ReachableSound(s);
    assert Lasting(s, id, k);
  }

  // ---------------------------------------------------------------- for how long

  /** The entry is complete until this moment, and nobody is inside the key's locked section. */
  predicate Kept(s: State, k: Key, id: ClaimId, until: nat) {
    k in s.db.keys && s.db.keys[k] == Record(Complete(id), Some(until)) && NobodyInside(s, k)
  }

  lemma CommandKeeps(s: State, c: Creator, o: Outcome, k: Key)
    requires k in s.db.keys && s.db.keys[k].mark.Complete? && (c.key == k ==> !Inside(c.at))
    ensures k in KeysAfterCreate(s.db, c, o) && KeysAfterCreate(s.db, c, o)[k] == s.db.keys[k]
    ensures c.key == k ==> !Inside(NextCreateAt(s, c, o))
  {
  }

  lemma StepKeeps(s: State, a: Action, k: Key, id: ClaimId, until: nat)
    requires Kept(s, k, id, until) && Step(s, a).db.now < until
    ensures Kept(Step(s, a), k, id, until)
  {
    if Enabled(s, a) {
      match a
      case Create(i, o, uuid) => CommandKeeps(s, s.creators[i], o, k);
      case Work(w, o) => Frames.WorkFrames(s, w, o);
      case Update(u, o) => Frames.UpdateFrames(s, u, o);
      case _ =>
    }
  }

  lemma TimePasses(s: State, a: Action)
    ensures s.db.now <= Step(s, a).db.now
  {
    if Enabled(s, a) {
      match a
      case Create(i, o, uuid) => Frames.CreateFrames(s, i, o, uuid);
      case Work(w, o) => Frames.WorkFrames(s, w, o);
      case Update(u, o) => Frames.UpdateFrames(s, u, o);
      case _ =>
    }
  }

  /** Until then it stays, whatever anybody does. */
  lemma {:induction false} KeptUntilThen(s: State, more: seq<Action>, k: Key, id: ClaimId, until: nat)
    requires Kept(s, k, id, until) && Run(s, more).db.now < until
    ensures Kept(Run(s, more), k, id, until)
  {
    if more != [] {
      var front, a := more[..|more| - 1], more[|more| - 1];
      TimePasses(Run(s, front), a);
      KeptUntilThen(s, front, k, id, until);
      StepKeeps(Run(s, front), a, k, id, until);
    }
  }

  /** Time removes exactly what it has run out for; entries, markers and payloads that stay are as they were. */
  lemma TimeExpiresExactly(s: State, elapsed: nat, k: Key, id: ClaimId)
    ensures var db, t, now := s.db, Step(s, Tick(elapsed)), s.db.now + elapsed;
            && t.db.now == now && t.db.rows == db.rows && t.db.list == db.list && t.creators == s.creators
            && (k in t.db.keys <==> k in db.keys && (db.keys[k].expires.None? || now < db.keys[k].expires.value))
            && (id in t.db.markers <==> id in db.markers && (db.markers[id].None? || now < db.markers[id].value))
            && (id in t.db.payloads <==> id in db.payloads && now < db.payloads[id].expires)
            && (k in t.db.keys ==> t.db.keys[k] == db.keys[k])
            && (id in t.db.markers ==> t.db.markers[id] == db.markers[id])
            && (id in t.db.payloads ==> t.db.payloads[id] == db.payloads[id])
  {
  }

  lemma CompletionKeeps(s: State, i: nat, id: ClaimId)
    requires i < |s.creators| && s.creators[i].at.Finalize? && s.creators[i].claim == Some(id)
    requires forall n | 0 <= n < |s.creators| && n != i && s.creators[n].key == s.creators[i].key ::
               !Inside(s.creators[n].at)
    ensures var t := Step(s, Next(i, Acked));
            && i < |t.creators| && t.creators[i].at == Replied(Created(id))
            && t.creators[i].identity == s.creators[i].identity
            && Kept(t, s.creators[i].key, id, s.db.now + 86_400_000)
  {
    OwnStep(s, i, Acked);
    assert forall n | 0 <= n < |s.creators| && n != i :: Step(s, Next(i, Acked)).creators[n] == s.creators[n];
  }

  /** An answer is final. */
  lemma {:induction false} AnswersStay(s: State, more: seq<Action>, i: nat)
    requires i < |s.creators| && s.creators[i].at.Replied?
    ensures i < |Run(s, more).creators| && Run(s, more).creators[i] == s.creators[i]
  {
    if more != [] {
      var front, a := more[..|more| - 1], more[|more| - 1];
      AnswersStay(s, front, i);
      AnswerStays(Run(s, front), a, i);
    }
  }

  lemma AnswerStays(s: State, a: Action, i: nat)
    requires i < |s.creators| && s.creators[i].at.Replied?
    ensures i < |Step(s, a).creators| && Step(s, a).creators[i] == s.creators[i]
  {
    if Enabled(s, a) && !a.Create? && !a.Call? && !a.KillCreator? {
      Frames.OutsideFrames(s, a);
    }
  }

  /** A caller that completes its entry, alone in the key's locked section, is replayed for a day: whatever
      happens meanwhile, a request of its identity on the key is answered with its claim. */
  lemma ReplayedForADay(s: State, i: nat, id: ClaimId, m: State, more: seq<Action>, t: State, header: Option<Text>,
                        fingerprint: Text)
    requires Reachable(s) && i < |s.creators| && s.creators[i].at.Finalize? && s.creators[i].claim == Some(id)
    requires s.creators[i].key == BuildKey(s.creators[i].identity, header, fingerprint)
    requires forall n | 0 <= n < |s.creators| && n != i && s.creators[n].key == s.creators[i].key ::
               !Inside(s.creators[n].at)
    requires m == Run(s, [Next(i, Acked)]) && t == Run(m, more) && t.db.now < s.db.now + 86_400_000
    ensures i < |m.creators| && m.creators[i].at == Replied(Created(id))
    ensures var j, call := |t.creators|, Call(s.creators[i].identity, header, fingerprint);
            var u := Run(t, [call] + [Next(j, Acked), Next(j, Acked)]);
            u.db == t.db && j < |u.creators| && u.creators[j].at == Replied(Replayed(id))
  {
    RunOne(s, Next(i, Acked));
    CompletionKeeps(s, i, id);
    KeptUntilThen(m, more, s.creators[i].key, id, s.db.now + 86_400_000);
    AnswersStay(m, more, i);
    ReachesOn(s, [Next(i, Acked)]);
    ReachesOn(m, more);
    NobodyIsToldOfAnothersClaim(t, i);
    RequestIsReplayed(t, s.creators[i].identity, header, fingerprint, id);
  }

  // ---------------------------------------------------------------- waiting

  /** One round of a waiting caller: a look at the entry, a tenth of a second, and awake again. */
  function Round(i: nat): seq<Action> {
    [Next(i, Acked), Tick(100)] + [Next(i, Acked)]
  }

  function Rounds(i: nat, n: nat): seq<Action> {
    if n == 0 then [] else Rounds(i, n - 1) + Round(i)
  }

  predicate Pending(s: State, k: Key) {
    k in s.db.keys ==> s.db.keys[k].mark == InProgress
  }

  /** The caller began to wait then, and looks at an entry that is not complete. */
  predicate Waits(s: State, i: nat, since: nat) {
    i < |s.creators| && s.creators[i].at == Poll(since) && Pending(s, s.creators[i].key)
  }

  lemma RoundsGoOn(s: State, i: nat, n: nat)
    ensures Run(s, Rounds(i, n + 1)) == Run(Run(s, Rounds(i, n)), Round(i))
  {
    RunConcat(s, Rounds(i, n), Round(i));
  }

  /** After a round that began so long after the wait: another look, or the end. */
  predicate Rounded(t: State, i: nat, since: nat, now: nat) {
    && t.db.now == now && i < |t.creators|
    && if now < since + 2000 then Waits(t, i, since) else t.creators[i].at == Replied(Refused(Busy))
  }

  lemma OneRound(s: State, i: nat, since: nat)
    requires Waits(s, i, since)
    ensures Rounded(Run(s, Round(i)), i, since, s.db.now + 100)
  {
    var m := Step(s, Next(i, Acked));
    var t := Step(m, Tick(100));
    OwnStep(s, i, Acked);
    TickLeads(m, s.creators[i].key);
    OwnStep(t, i, Acked);
    RunConcat(s, [Next(i, Acked), Tick(100)], [Next(i, Acked)]);
    RunTwo(s, Next(i, Acked), Tick(100));
    RunOne(t, Next(i, Acked));
    RoundLeads(s, m, t, Step(t, Next(i, Acked)), i, since);
  }

  lemma TickLeads(m: State, k: Key)
    ensures var t := Step(m, Tick(100));
            t.db.now == m.db.now + 100 && t.creators == m.creators && (Pending(m, k) ==> Pending(t, k))
  {
  }

  lemma RoundLeads(s: State, m: State, t: State, u: State, i: nat, since: nat)
    requires Waits(s, i, since) && Stepped(s, m, i, Acked) && Stepped(t, u, i, Acked)
    requires t.db.now == m.db.now + 100 && t.creators == m.creators
    requires Pending(m, s.creators[i].key) ==> Pending(t, s.creators[i].key)
    ensures Rounded(u, i, since, s.db.now + 100)
  {
  }

  lemma NoRounds(s: State, i: nat)
    ensures Run(s, Rounds(i, 0)) == s
  {
  }

  lemma NextRound(s: State, m: State, i: nat, n: nat) returns (t: State)
    requires m == Run(s, Rounds(i, n)) && Rounded(m, i, s.db.now, s.db.now + 100 * n) && n < 20
    ensures t == Run(s, Rounds(i, n + 1)) && Rounded(t, i, s.db.now, s.db.now + 100 * (n + 1))
  {
    t := Run(m, Round(i));
    OneRound(m, i, s.db.now);
    RoundsGoOn(s, i, n);
  }

  /** A caller whose entry stays pending looks twenty times, every tenth of a second, and gives up after
      two seconds; not earlier, and not later. */
  lemma {:induction false} GivesUpAfterTwoSeconds(s: State, i: nat, n: nat) returns (t: State)
    requires Waits(s, i, s.db.now) && n <= 20
    ensures t == Run(s, Rounds(i, n)) && Rounded(t, i, s.db.now, s.db.now + 100 * n)
    decreases n
  {
    if n == 0 {
      NoRounds(s, i);
      t := s;
    } else {
      var before := n - 1;
      var m := GivesUpAfterTwoSeconds(s, i, before);
      t := NextRound(s, m, i, before);
    }
  }

  /** A caller that tries for the lock waits just when the entry is there; otherwise the pending entry is its own. */
  lemma LockOrWait(s: State, i: nat)
    requires i < |s.creators| && s.creators[i].at.Acquire?
    ensures var k, t := s.creators[i].key, Step(s, Next(i, Acked));
            && i < |t.creators|
            && if k in s.db.keys then t.creators[i].at == Poll(s.db.now) && t.db.keys == s.db.keys
               else t.creators[i].at.Arm? && t.db.keys == s.db.keys[k := Record(InProgress, None)]
  {
    OwnStep(s, i, Acked);
  }

  /** A request on a key somebody else holds: two seconds, and the client is told that it is busy. */
  lemma BlockedRequestGivesUp(s: State, identity: Text, header: Option<Text>, fingerprint: Text)
    requires var k := BuildKey(identity, header, fingerprint); k in s.db.keys && s.db.keys[k].mark == InProgress
    ensures var i, call := |s.creators|, Call(identity, header, fingerprint);
            var t := Run(s, ([call] + [Next(i, Acked), Next(i, Acked)]) + Rounds(i, 20));
            t.db.now == s.db.now + 2000 && i < |t.creators| && t.creators[i].at == Replied(Refused(Busy))
  {
    var i, call, go := |s.creators|, Call(identity, header, fingerprint), Next(|s.creators|, Acked);
    var m := Step(s, call);
    var looked := Step(m, go);
    OwnStep(m, i, Acked);
    ReadingStep(m, i);
    LockOrWait(looked, i);
    OwnStep(looked, i, Acked);
    RunOne(s, call);
    RunTwo(m, go, go);
    RunConcat(s, [call], [go, go]);
    var t := GivesUpAfterTwoSeconds(Step(looked, go), i, 20);
    RunConcat(s, [call] + [go, go], Rounds(i, 20));
  }

  /** When its tenth of a second is over, a waiting caller looks again if and only if two seconds have
      not passed; afterwards it is refused, even if the entry has just become complete. */
  lemma WakesExactly(s: State, i: nat, o: Outcome)
    requires i < |s.creators| && s.creators[i].at.Sleep?
    ensures var at, t := s.creators[i].at, Step(s, Next(i, o));
            && i < |t.creators| && t.db == s.db
            && (t.creators[i].at == at <==> s.db.now < at.until)
            && (t.creators[i].at == Poll(at.since) <==> at.until <= s.db.now < at.since + 2000)
            && (t.creators[i].at == Replied(Refused(Busy)) <==> at.until <= s.db.now && at.since + 2000 <= s.db.now)
  {
    OwnStep(s, i, o);
  }

  // ---------------------------------------------------------------- the way out

  /** Between the lock and the answer, one of the commands that create the claim is next. */
  predicate Making(at: CreateAt) {
    Inside(at) && !at.Arm? && !at.Compensate? && !at.Release?
  }

  /** A failing command of a creation leads to the release of the entry, at once or after the claim
      has been deleted. */
  lemma FailureLeads(s: State, m: State, t: State, i: nat, o: Outcome)
    requires Stepped(s, m, i, o) && Stepped(m, t, i, Acked) && Placed(s, s.creators[i])
    requires s.db.rows.Keys <= s.log.history.Keys && Making(s.creators[i].at) && o != Acked
    ensures var c := s.creators[i];
            && c.claim.Some? && t.creators[i].claim == c.claim && t.creators[i].key == c.key
            && (t.creators[i].at == Release(Failed)
                || (t.creators[i].at == Replied(Refused(Failed)) && c.key !in t.db.keys))
            && (c.claim.value in t.db.rows <==> c.at.Finalize? || (c.at.Insert? && o == Unacked))
            && t.db.list == (if c.at.Push? && o == Unacked then [c.claim.value] + s.db.list else s.db.list)
  {
  }

  /** One command of a creation is reported failed and the next two are carried out: the client is told
      that it failed, the entry is gone, and so is the claim, unless it was the insert that was carried
      out or the completion. */
  lemma FailureIsUndone(s: State, i: nat, o: Outcome)
    requires Registered(s) && i < |s.creators| && Making(s.creators[i].at) && o != Acked
    ensures var c, t := s.creators[i], Run(s, [Next(i, o), Next(i, Acked)] + [Next(i, Acked)]);
            && i < |t.creators| && t.creators[i].at == Replied(Refused(Failed)) && c.key !in t.db.keys
            && c.claim.Some?
            && (c.claim.value in t.db.rows <==> c.at.Finalize? || (c.at.Insert? && o == Unacked))
            && t.db.list == (if c.at.Push? && o == Unacked then [c.claim.value] + s.db.list else s.db.list)
  {
    assert Placed(s, s.creators[i]);
    var m, t := TwoSteps(s, i, o, Acked);
    FailureLeads(s, m, t, i, o);
    RunConcat(s, [Next(i, o), Next(i, Acked)], [Next(i, Acked)]);
    RunOne(t, Next(i, Acked));
    OwnStep(t, i, Acked);
    LastStep(t, Step(t, Next(i, Acked)), i);
  }

  lemma LastStep(s: State, t: State, i: nat)
    requires Stepped(s, t, i, Acked)
    requires s.creators[i].at == Release(Failed)
             || (s.creators[i].at == Replied(Refused(Failed)) && s.creators[i].key !in s.db.keys)
    ensures t.creators[i].at == Replied(Refused(Failed)) && s.creators[i].key !in t.db.keys
    ensures t.db.rows == s.db.rows && t.db.list == s.db.list
  {
  }

  lemma CompensationLeads(s: State, m: State, t: State, i: nat, o: Outcome, p: Outcome)
    requires Stepped(s, m, i, o) && Stepped(m, t, i, p)
    requires s.creators[i].at.Compensate? && s.creators[i].claim.Some?
    ensures var c := s.creators[i];
            && t.creators[i].at == Replied(Refused(if p == Acked then Failed else BackendError))
            && (o != Lost ==> c.claim.value !in t.db.rows)
            && (if p == Lost then t.db.keys == s.db.keys else c.key !in t.db.keys)
  {
  }

  /** A failing compensation does not keep the entry; a failing release may, and the client is told of it. */
  lemma ReleaseFollows(s: State, i: nat, o: Outcome, p: Outcome)
    requires i < |s.creators| && s.creators[i].at.Compensate? && s.creators[i].claim.Some?
    ensures var c, t := s.creators[i], Run(s, [Next(i, o), Next(i, p)]);
            && i < |t.creators|
            && t.creators[i].at == Replied(Refused(if p == Acked then Failed else BackendError))
            && (o != Lost ==> c.claim.value !in t.db.rows)
            && (if p == Lost then t.db.keys == s.db.keys else c.key !in t.db.keys)
  {
    var m, t := TwoSteps(s, i, o, p);
    CompensationLeads(s, m, t, i, o, p);
  }

  lemma MeasureLeads(s: State, m: State, t: State, i: nat)
    requires Stepped(s, m, i, Acked) && Stepped(m, t, i, Acked) && s.creators[i].at.Measure?
    ensures var c := s.creators[i];
            && (t.creators[i].at == Replied(Refused(Overloaded)) <==> |s.db.list| >= s.limit)
            && t.db.list == s.db.list
            && (|s.db.list| >= s.limit ==> c.key !in t.db.keys && t.db.rows == s.db.rows)
            && (|s.db.list| < s.limit && c.claim.Some? ==>
                  && t.creators[i].at.MarkPending? && t.db.keys == s.db.keys
                  && t.db.rows == s.db.rows[c.claim.value := Row(c.identity, Lifecycle.Pending, 0)])
  {
  }

  /** A request is refused as overloaded exactly when its caller finds the queue at its limit, and the
      entry is released; otherwise its row is inserted, and the entry kept. */
  lemma OverloadedExactly(s: State, i: nat)
    requires i < |s.creators| && s.creators[i].at.Measure?
    ensures var c, t := s.creators[i], Run(s, [Next(i, Acked), Next(i, Acked)]);
            && i < |t.creators| && t.db.list == s.db.list
            && (t.creators[i].at == Replied(Refused(Overloaded)) <==> |s.db.list| >= s.limit)
            && (|s.db.list| >= s.limit ==> c.key !in t.db.keys && t.db.rows == s.db.rows)
            && (|s.db.list| < s.limit && c.claim.Some? ==>
                  && t.creators[i].at.MarkPending? && t.db.keys == s.db.keys
                  && t.db.rows == s.db.rows[c.claim.value := Row(c.identity, Lifecycle.Pending, 0)])
  {
    var m, t := TwoSteps(s, i, Acked, Acked);
    MeasureLeads(s, m, t, i);
  }

  /** Outside the locked section a failing command reaches the client at once. */
  lemma FailureOutsideIsTold(s: State, i: nat, o: Outcome)
    requires i < |s.creators| && o != Acked
    requires var at := s.creators[i].at; at.Lookup? || at.Fetch? || at.Poll? || at.Acquire? || at.Arm?
    ensures var at, t := s.creators[i].at, Step(s, Next(i, o));
            && i < |t.creators| && t.creators[i].at == Replied(Refused(BackendError))
            && (!at.Acquire? && !at.Arm? ==> t.db == s.db)
  {
  }
}
