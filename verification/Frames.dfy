/** What each kind of thread leaves alone. */
module Frames {
  import opened Basics
  import opened IdempotencyKeys
  import opened ClaimSystem

  lemma CreateFrames(s: State, i: nat, o: Outcome, uuid: ClaimId)
    requires i < |s.creators|
    ensures var t := CreateStep(s, i, o, uuid);
            && t.workers == s.workers && t.updaters == s.updaters && t.sockets == s.sockets && t.joiners == s.joiners
            && t.limit == s.limit && t.db.now == s.db.now
            && t.db.dlq == s.db.dlq && t.db.retry == s.db.retry
            && t.log.redelivered == s.log.redelivered && t.log.retired == s.log.retired
            && t.log.dropped == s.log.dropped && t.log.runs == s.log.runs && t.log.pops == s.log.pops
  {
  }

  lemma WorkFrames(s: State, w: nat, o: Outcome)
    requires w < |s.workers|
    ensures var t := WorkStep(s, w, o);
            && t.creators == s.creators && t.updaters == s.updaters && t.limit == s.limit
            && t.sockets == s.sockets && t.joiners == s.joiners
            && t.db.keys == s.db.keys && t.db.now == s.db.now && t.db.payloads == s.db.payloads
            && t.db.markers.Keys <= s.db.markers.Keys && t.db.rows.Keys == s.db.rows.Keys
            && t.log.issued == s.log.issued && t.log.lapses == s.log.lapses && t.log.peak == s.log.peak
            && t.log.added == s.log.added && t.log.redelivered == s.log.redelivered
  {
  }

  lemma UpdateFrames(s: State, u: nat, o: Outcome)
    requires u < |s.updaters|
    ensures var t := UpdateStep(s, u, o);
            && t.creators == s.creators && t.workers == s.workers && t.limit == s.limit
            && t.sockets == s.sockets && t.joiners == s.joiners
            && t.db == s.db.(rows := t.db.rows)
            && t.log == s.log.(history := t.log.history, events := t.log.events)
            && t.db.rows.Keys == s.db.rows.Keys
  {
  }

  /** Nothing but creating, working and updating changes rows, histories or the queue's records;
      a worker is only halted, told to stop, or started. */
  lemma OtherFrames(s: State, a: Action)
    requires Enabled(s, a) && !a.Create? && !a.Work? && !a.Update?
    ensures var t := Step(s, a);
            && t.limit == s.limit && t.db.rows == s.db.rows && t.db.dlq == s.db.dlq && t.db.retry == s.db.retry
            && t.log.history == s.log.history && t.log.events == s.log.events && t.log.runs == s.log.runs
            && t.log.added == s.log.added && t.log.retired == s.log.retired && t.log.issued == s.log.issued
            && (!a.Redeliver? ==> t.db.list == s.db.list)
            && |t.workers| >= |s.workers|
            && forall n | 0 <= n < |t.workers| ::
                 if n >= |s.workers| then t.workers[n] == Worker(true, 0, Pop)
                 else t.workers[n].run == s.workers[n].run
                      && (t.workers[n].at == s.workers[n].at || (a == KillWorker(n) && t.workers[n].at == Halted))
  {
  }

  /** Nor is anything pushed, popped, dropped or updated otherwise, save by hand or with a dying worker. */
  lemma OtherLedger(s: State, a: Action)
    requires Enabled(s, a) && !a.Create? && !a.Work? && !a.Update?
    ensures var t := Step(s, a);
            && t.log.pops == s.log.pops && t.log.unreadable == s.log.unreadable && t.log.peak == s.log.peak
            && (!a.Redeliver? ==> t.log.pushes == s.log.pushes && t.log.redelivered == s.log.redelivered)
            && (!a.KillWorker? ==> t.log.dropped == s.log.dropped)
            && |t.updaters| >= |s.updaters|
            && forall n | 0 <= n < |t.updaters| ::
                 if n >= |s.updaters| then t.updaters[n].at.Reading? else t.updaters[n] == s.updaters[n]
  {
  }

  /** Only calls, their steps and their deaths change callers; of the idempotency entries, anything else
      at most lets some run out, and each of these is a lapse. */
  lemma OutsideFrames(s: State, a: Action)
    requires Enabled(s, a) && !a.Create? && !a.Call? && !a.KillCreator?
    ensures var t := Step(s, a);
            && t.limit == s.limit && t.creators == s.creators
            && t.log.issued == s.log.issued && t.log.added == s.log.added
            && t.db.rows.Keys == s.db.rows.Keys && t.db.markers.Keys <= s.db.markers.Keys
            && (forall k | k in t.db.keys :: k in s.db.keys && t.db.keys[k] == s.db.keys[k])
            && (forall k :: s.log.lapses[k] + (if k in s.db.keys && k !in t.db.keys then 1 else 0) <= t.log.lapses[k])
  {
    if a.Work? {
      WorkFrames(s, a.worker, a.outcome);
    } else if a.Update? {
      UpdateFrames(s, a.updater, a.outcome);
    } else if a.Tick? {
      TickFrames(s, a.elapsed);
    }
  }

  lemma TickFrames(s: State, elapsed: nat)
    ensures var t := TickStep(s, elapsed);
            && t.db.markers.Keys <= s.db.markers.Keys
            && (forall k | k in t.db.keys :: k in s.db.keys && t.db.keys[k] == s.db.keys[k])
            && (forall k :: s.log.lapses[k] + (if k in s.db.keys && k !in t.db.keys then 1 else 0) <= t.log.lapses[k])
  {
  }
}
