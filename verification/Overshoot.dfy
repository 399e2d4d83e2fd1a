/** The overshoot bound is exact: for every limit, every number of callers past the check at once and
    every number of workers, some run reaches it. */
module Overshoot {
  import opened Basics
  import opened IdempotencyKeys
  import opened ClaimSystem
  import Frames
  import opened Runs
  import Orphans
  import opened Creations
  import Backpressure

  // ---------------------------------------------------------------- a supply of new names

  /** The n-th identity and identifier: so many times the same unit. */
  function Name(n: nat): Text {
    seq(n, _ => UNDERSCORE)
  }

  function NameKey(n: nat, fingerprint: Text): Key {
    BuildKey(Name(n), None, fingerprint)
  }

  function KeyLength(fingerprint: Text): nat {
    |IDEMPOTENCY| + 1 + |Part(None, fingerprint)|
  }

  lemma NameKeyLength(n: nat, fingerprint: Text)
    ensures |NameKey(n, fingerprint).text| == KeyLength(fingerprint) + n
  {
  }

  /** All keys and identifiers in use are shorter than the next ones. */
  predicate Supplied(s: State, fingerprint: Text) {
    && (forall k | k in s.db.keys :: |k.text| < KeyLength(fingerprint) + |s.creators|)
    && (forall id | id in s.log.issued :: |id.text| < |s.creators|)
    && (forall id | id in s.db.markers :: |id.text| < |s.creators|)
  }

  // ---------------------------------------------------------------- one caller beside the others

  /** `t` has one more caller than `s`; the rest of the system has changed only by its names, and no
      more callers than before, and this one, have been past the check. */
  predicate Beside(s: State, t: State, k: Key, id: ClaimId) {
    && |t.creators| == |s.creators| + 1 && t.creators[|s.creators|].key == k
    && (forall n | 0 <= n < |s.creators| :: t.creators[n] == s.creators[n])
    && t.workers == s.workers && t.limit == s.limit && t.log.redelivered == s.log.redelivered
    && t.db.keys.Keys <= s.db.keys.Keys + {k} && t.db.markers.Keys <= s.db.markers.Keys + {id}
    && t.log.peak <= Max(s.log.peak, PastChecks(s.creators) + 1)
    && ((t.creators[|s.creators|].claim == None && t.log.issued == s.log.issued)
        || (t.creators[|s.creators|].claim == Some(id) && t.log.issued == s.log.issued[id := |s.creators|]))
  }

  lemma CallIsBeside(s: State, identity: Text, fingerprint: Text, id: ClaimId)
    ensures Beside(s, Step(s, Call(identity, None, fingerprint)), BuildKey(identity, None, fingerprint), id)
  {
  }

  lemma PastWithOneMore(s: State, t: State)
    requires |t.creators| == |s.creators| + 1 && forall n | 0 <= n < |s.creators| :: t.creators[n] == s.creators[n]
    ensures PastChecks(t.creators) == PastChecks(s.creators) + PastCheck(t.creators[|s.creators|].at)
  {
    assert Checks(t.creators) == Checks(s.creators) + [PastCheck(t.creators[|s.creators|].at)];
    SumAppend(Checks(s.creators), PastCheck(t.creators[|s.creators|].at));
  }

  lemma StaysBeside(s: State, t: State, k: Key, id: ClaimId)
    requires Beside(s, t, k, id) && id !in s.log.issued
    ensures Beside(s, Step(t, Orphans.Own(s, Acked, id)), k, id)
  {
    var i, u := |s.creators|, Step(t, Orphans.Own(s, Acked, id));
    Frames.CreateFrames(t, i, Acked, id);
    NamesUsed(t, t.creators[i], id);
    PastWithOneMore(s, u);
  }

  lemma NamesUsed(t: State, c: Creator, id: ClaimId)
    requires c.claim == None || c.claim == Some(id)
    ensures KeysAfterCreate(t.db, c, Acked).Keys <= t.db.keys.Keys + {c.key}
    ensures MarkersAfterCreate(t.db, c, Acked).Keys <= t.db.markers.Keys + {id}
  {
  }

  lemma {:induction false} RepeatedBeside(s: State, t: State, k: Key, id: ClaimId, n: nat)
    requires Beside(s, t, k, id) && id !in s.log.issued
    ensures Beside(s, Repeated(t, Orphans.Own(s, Acked, id), n), k, id)
  {
    if n > 0 {
      RepeatedBeside(s, t, k, id, n - 1);
      StaysBeside(s, Repeated(t, Orphans.Own(s, Acked, id), n - 1), k, id);
    }
  }

  // ---------------------------------------------------------------- filling the system

  /** So many claims wait, so many callers are past the check, and so many workers hold a token each. */
  predicate Filled(s: State, limit: nat, fingerprint: Text, waiting: nat, past: nat, workers: nat) {
    && s.limit == limit && Supplied(s, fingerprint) && s.log.redelivered == multiset{}
    && |s.db.list| == waiting && PastChecks(s.creators) == past
    && |s.workers| == workers && Backpressure.InFlight(s) == workers
    && s.log.peak <= Max(1, past)
  }

  lemma SuppliedOn(s: State, t: State, fingerprint: Text)
    requires Supplied(s, fingerprint)
    requires Beside(s, t, NameKey(|s.creators|, fingerprint), ClaimId(Name(|s.creators|)))
    ensures Supplied(t, fingerprint)
  {
    NameKeyLength(|s.creators|, fingerprint);
    assert |Name(|s.creators|)| == |s.creators|;
  }

  lemma NewNames(s: State, fingerprint: Text)
    requires Supplied(s, fingerprint)
    ensures NameKey(|s.creators|, fingerprint) !in s.db.keys
    ensures ClaimId(Name(|s.creators|)) !in s.log.issued && ClaimId(Name(|s.creators|)) !in s.db.markers
  {
    NameKeyLength(|s.creators|, fingerprint);
    assert |Name(|s.creators|)| == |s.creators|;
  }

  lemma BesideFilled(s: State, t: State, limit: nat, fingerprint: Text, waiting: nat, past: nat, workers: nat)
    requires Filled(s, limit, fingerprint, waiting, past, workers)
    requires Beside(s, t, NameKey(|s.creators|, fingerprint), ClaimId(Name(|s.creators|)))
    requires past == 0 || PastCheck(t.creators[|s.creators|].at) == 1
    ensures Filled(t, limit, fingerprint, |t.db.list|, past + PastCheck(t.creators[|s.creators|].at), workers)
  {
    SuppliedOn(s, t, fingerprint);
    PastWithOneMore(s, t);
  }

  /** One more claim is created and waits. */
  lemma OneMoreWaits(s: State, limit: nat, fingerprint: Text, waiting: nat, workers: nat) returns (actions: seq<Action>)
    requires Filled(s, limit, fingerprint, waiting, 0, workers) && waiting < limit
    ensures Filled(Run(s, actions), limit, fingerprint, waiting + 1, 0, workers)
  {
    actions := OneMoreCreated(s, fingerprint);
    BesideFilled(s, Run(s, actions), limit, fingerprint, waiting, 0, workers);
  }

  lemma OneMoreCreated(s: State, fingerprint: Text) returns (actions: seq<Action>)
    requires Supplied(s, fingerprint) && |s.db.list| < s.limit
    ensures var t, n := Run(s, actions), |s.creators|;
            && Beside(s, t, NameKey(n, fingerprint), ClaimId(Name(n)))
            && |t.db.list| == |s.db.list| + 1 && PastCheck(t.creators[n].at) == 0
  {
    var n := |s.creators|;
    var k, id := NameKey(n, fingerprint), ClaimId(Name(n));
    NewNames(s, fingerprint);
    actions := CreateSucceeds(s, Name(n), None, fingerprint, id);
    CallIsBeside(s, Name(n), fingerprint, id);
    RepeatedBeside(s, Step(s, Call(Name(n), None, fingerprint)), k, id, 10);
  }

  /** One more caller passes the check. */
  lemma OneMorePasses(s: State, limit: nat, fingerprint: Text, waiting: nat, past: nat, workers: nat)
    returns (actions: seq<Action>)
    requires Filled(s, limit, fingerprint, waiting, past, workers) && waiting < limit
    ensures Filled(Run(s, actions), limit, fingerprint, waiting, past + 1, workers)
  {
    var n := |s.creators|;
    var k, id, call := NameKey(n, fingerprint), ClaimId(Name(n)), Call(Name(n), None, fingerprint);
    NewNames(s, fingerprint);
    var m := PassesCheck(s, Name(n), None, fingerprint, id);
    var rest := RunRepeated(Step(s, call), Orphans.Own(s, Acked, id), 4);
    actions := [call] + rest;
    RunConcat(s, [call], rest);
    RunOne(s, call);
    CallIsBeside(s, Name(n), fingerprint, id);
    RepeatedBeside(s, Step(s, call), k, id, 4);
    BesideFilled(s, Run(s, actions), limit, fingerprint, waiting, past, workers);
  }

  /** A new worker takes a waiting claim into its hands. */
  lemma OneMoreTakes(s: State, limit: nat, fingerprint: Text, waiting: nat, workers: nat) returns (actions: seq<Action>)
    requires Filled(s, limit, fingerprint, waiting, 0, workers) && waiting > 0
    ensures Filled(Run(s, actions), limit, fingerprint, waiting - 1, 0, workers + 1)
  {
    actions := [Boot, Work(|s.workers|, Acked)];
    RunTwo(s, Boot, Work(|s.workers|, Acked));
    NewWorkerTakes(s);
    var t := Run(s, actions);
    assert Backpressure.Hands(t.workers) == Backpressure.Hands(s.workers) + [1];
    SumAppend(Backpressure.Hands(s.workers), 1);
  }

  lemma NewWorkerTakes(s: State)
    requires s.db.list != []
    ensures var t := Step(Step(s, Boot), Work(|s.workers|, Acked));
            && t.workers == s.workers + [t.workers[|s.workers|]] && Token(t.workers[|s.workers|].at).Some?
            && |t.db.list| == |s.db.list| - 1 && t.creators == s.creators && t.limit == s.limit
            && t.db.keys == s.db.keys && t.db.markers == s.db.markers && t.log.issued == s.log.issued
            && t.log.redelivered == s.log.redelivered && t.log.peak == s.log.peak
  {
    var m := Step(s, Boot);
    assert m.workers[|s.workers|] == Worker(true, 0, Pop);
  }

  lemma {:induction false} EveryWorkerTakes(limit: nat, fingerprint: Text, workers: nat) returns (actions: seq<Action>)
    requires limit >= 1
    ensures Filled(Run(Init(limit), actions), limit, fingerprint, 0, 0, workers)
  {
    actions := [];
    if workers > 0 {
      var front := EveryWorkerTakes(limit, fingerprint, workers - 1);
      var s := Run(Init(limit), front);
      var more := OneMoreWaits(s, limit, fingerprint, 0, workers - 1);
      var take := OneMoreTakes(Run(s, more), limit, fingerprint, 1, workers - 1);
      actions := front + (more + take);
      RunConcat(Init(limit), front, more + take);
      RunConcat(s, more, take);
    }
  }

  lemma {:induction false} QueueFills(limit: nat, fingerprint: Text, waiting: nat, workers: nat)
    returns (actions: seq<Action>)
    requires limit >= 1 && waiting < limit
    ensures Filled(Run(Init(limit), actions), limit, fingerprint, waiting, 0, workers)
  {
    if waiting == 0 {
      actions := EveryWorkerTakes(limit, fingerprint, workers);
    } else {
      var front := QueueFills(limit, fingerprint, waiting - 1, workers);
      var more := OneMoreWaits(Run(Init(limit), front), limit, fingerprint, waiting - 1, workers);
      actions := front + more;
      RunConcat(Init(limit), front, more);
    }
  }

  lemma {:induction false} CallersPass(limit: nat, fingerprint: Text, past: nat, workers: nat)
    returns (actions: seq<Action>)
    requires limit >= 1
    ensures Filled(Run(Init(limit), actions), limit, fingerprint, limit - 1, past, workers)
  {
    if past == 0 {
      actions := QueueFills(limit, fingerprint, limit - 1, workers);
    } else {
      var front := CallersPass(limit, fingerprint, past - 1, workers);
      var more := OneMorePasses(Run(Init(limit), front), limit, fingerprint, limit - 1, past - 1, workers);
      actions := front + more;
      RunConcat(Init(limit), front, more);
    }
  }

  /** For every limit, every positive number of callers and every number of workers some run without
      redelivery has just so many callers past the check at its peak, so many workers, and a demand of
      as much as `QueueBound` permits. */
  lemma OvershootIsAttained(limit: nat, fingerprint: Text, past: nat, workers: nat) returns (actions: seq<Action>)
    requires limit >= 1 && past >= 1
    ensures var s := Run(Init(limit), actions);
            && s.log.redelivered == multiset{} && s.log.peak == past && |s.workers| == workers
            && Backpressure.Demand(s) == limit - 1 + past + workers
  {
    actions := CallersPass(limit, fingerprint, past, workers);
    Backpressure.AlwaysBounded(limit, actions);
  }
}
