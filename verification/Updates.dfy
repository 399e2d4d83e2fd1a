/** `updateClaimStatus`, from its first read to its event: exactly when it succeeds, and what it then does. */
module Updates {
  import opened Basics
  import opened IdempotencyKeys
  import opened Lifecycle
  import opened ClaimSystem
  import opened Registry
  import opened Runs

  /** What an updater's step leads to. */
  predicate Stepped(s: State, t: State, u: nat, o: Outcome) {
    && u < |s.updaters| == |t.updaters| && t.sockets == s.sockets
    && var x := s.updaters[u];
       var swaps := x.at.Swapping? && o != Lost;
       && t.updaters[u] == x.(at := NextUpdateAt(s.db, x, o))
       && t.db == s.db.(rows := if swaps then CasRows(s.db.rows, x.id, x.at.version, x.target) else s.db.rows)
       && t.log.history == (if swaps then CasHistory(s, x.id, x.at.version, Change(x.target, ByUpdater(u)))
                            else s.log.history)
       && t.log.events == if x.at.Rereading? && o == Acked then EmitTo(s, x.id, x.target) else s.log.events
  }

  lemma OwnStep(s: State, u: nat, o: Outcome)
    requires u < |s.updaters|
    ensures Stepped(s, Step(s, Update(u, o)), u, o)
  {
  }

  /** The update is admissible: the row is there, and the table has the transition. */
  predicate Admissible(rows: map<ClaimId, Row>, id: ClaimId, target: Status) {
    id in rows && match (rows[id].status, target)
                  case (Pending, Processing) => true
                  case (Processing, FraudChecking) => true
                  case (Processing, Rejected) => true
                  case (FraudChecking, Approved) => true
                  case (FraudChecking, Rejected) => true
                  case _ => false
  }

  lemma SuccessLeads(s: State, m: State, t: State, r: State, u: nat)
    requires Stepped(s, m, u, Acked) && Stepped(m, t, u, Acked) && Stepped(t, r, u, Acked) && RowsOwned(s)
    requires s.updaters[u].at.Reading? && Admissible(s.db.rows, s.updaters[u].id, s.updaters[u].target)
    ensures var x := s.updaters[u];
            var row := s.db.rows[x.id];
            && r.updaters[u].at == Updated(true)
            && r.db == s.db.(rows := s.db.rows[x.id := Row(row.owner, x.target, row.version + 1)])
            && x.id in s.log.history && x.id in s.log.events
            && r.log.history == s.log.history[x.id := s.log.history[x.id] + [Change(x.target, ByUpdater(u))]]
            && x.id in r.log.events && |r.log.events[x.id]| == |s.log.events[x.id]| + 1
            && r.log.events[x.id][|s.log.events[x.id]|].status == x.target
  {
  }

  /** Run without interference and without a failure, an update succeeds when it is admissible. Then it
      has changed the status and raised the version by one, in this row and nowhere else, and put
      one change and one event on record. */
  lemma UpdateSucceeds(s: State, u: nat)
    requires Registered(s) && u < |s.updaters| && s.updaters[u].at.Reading?
    requires Admissible(s.db.rows, s.updaters[u].id, s.updaters[u].target)
    ensures var x, r := s.updaters[u], Run(s, [Update(u, Acked), Update(u, Acked)] + [Update(u, Acked)]);
            var row := s.db.rows[x.id];
            && u < |r.updaters| && r.updaters[u].at == Updated(true)
            && r.db == s.db.(rows := s.db.rows[x.id := Row(row.owner, x.target, row.version + 1)])
            && x.id in s.log.history && x.id in s.log.events
            && r.log.history == s.log.history[x.id := s.log.history[x.id] + [Change(x.target, ByUpdater(u))]]
            && x.id in r.log.events && |r.log.events[x.id]| == |s.log.events[x.id]| + 1
            && r.log.events[x.id][|s.log.events[x.id]|].status == x.target
  {
    var go := Update(u, Acked);
    RunTwo(s, go, go);
    RunConcat(s, [go, go], [go]);
    var m := Step(s, go);
    OwnStep(s, u, Acked);
    var t := Step(m, go);
    OwnStep(m, u, Acked);
    RunOne(t, go);
    OwnStep(t, u, Acked);
    SuccessLeads(s, m, t, Step(t, go), u);
  }

  /** An update that is not admissible is over with its first read, and has changed nothing. */
  lemma UpdateIsRejected(s: State, u: nat, o: Outcome)
    requires u < |s.updaters| && s.updaters[u].at.Reading?
    ensures var x, t := s.updaters[u], Step(s, Update(u, o));
            && u < |t.updaters| && t.db == s.db && t.log == s.log
            && (t.updaters[u].at == Updated(false) <==> o != Acked || !Admissible(s.db.rows, x.id, x.target))
  {
    OwnStep(s, u, o);
  }

  /** A compare-and-set changes the row exactly when it is carried out and the version is still the one
      that was read; and the update goes on exactly when, besides, it hears of it. A stale one changes nothing. */
  lemma StaleUpdateChangesNothing(s: State, u: nat, o: Outcome)
    requires u < |s.updaters| && s.updaters[u].at.Swapping?
    ensures var x, t := s.updaters[u], Step(s, Update(u, o));
            var current := x.id in s.db.rows && s.db.rows[x.id].version == x.at.version;
            && u < |t.updaters| && t.log.events == s.log.events
            && (t.db != s.db <==> current && o != Lost)
            && (t.updaters[u].at == Rereading <==> current && o == Acked)
            && (t.updaters[u].at == Updated(false) <==> !current || o != Acked)
  {
    OwnStep(s, u, o);
    var x, t := s.updaters[u], Step(s, Update(u, o));
    if x.id in s.db.rows && s.db.rows[x.id].version == x.at.version && o != Lost {
      assert t.db.rows[x.id].version == s.db.rows[x.id].version + 1;
    }
  }

  /** The second read decides whether the change is announced, and whether the caller hears of its success. */
  lemma AnnouncedExactlyWhenReread(s: State, u: nat, o: Outcome)
    requires u < |s.updaters| && s.updaters[u].at.Rereading? && s.updaters[u].id in s.log.events
    ensures var id, t := s.updaters[u].id, Step(s, Update(u, o));
            && u < |t.updaters| && t.db == s.db && t.updaters[u].at == Updated(o == Acked) && id in t.log.events
            && |t.log.events[id]| == |s.log.events[id]| + if o == Acked then 1 else 0
  {
    OwnStep(s, u, o);
  }

  /** Of two updates that have read the same version, whichever compare-and-set is carried out first, the
      other one is stale. */
  lemma FirstUpdateWins(s: State, u: nat, v: nat, o: Outcome, p: Outcome)
    requires u < |s.updaters| && v < |s.updaters| && u != v && o != Lost
    requires s.updaters[u].at.Swapping? && s.updaters[v].at.Swapping? && s.updaters[u].id == s.updaters[v].id
    requires s.updaters[u].at.version == s.updaters[v].at.version
    ensures var t := Run(s, [Update(u, o), Update(v, p)]);
            && v < |t.updaters| && t.updaters[v].at == Updated(false) && t.db == Step(s, Update(u, o)).db
  {
    RunTwo(s, Update(u, o), Update(v, p));
    OwnStep(s, u, o);
    OwnStep(Step(s, Update(u, o)), v, p);
  }
}
