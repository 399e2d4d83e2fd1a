/** The bound on claims per key is exact: every lapse can cost a claim. */
module Orphans {
  import opened Basics
  import opened IdempotencyKeys
  import opened ClaimSystem
  import Registry
  import opened Accounting
  import opened Runs

  /** `t` has one more caller than `s`, on this key, and the same queue. */
  predicate Joined(s: State, t: State, k: Key) {
    && |t.creators| == |s.creators| + 1 && t.creators[|s.creators|].key == k
    && (forall n | 0 <= n < |s.creators| :: t.creators[n] == s.creators[n])
    && t.db.list == s.db.list && t.limit == s.limit
  }

  function Own(s: State, o: Outcome, id: ClaimId): Action {
    Create(|s.creators|, o, id)
  }

  /** The new caller stands here, with this identifier or none yet. */
  predicate StandsAt(s: State, t: State, k: Key, at: CreateAt, claim: Option<ClaimId>) {
    Joined(s, t, k) && t.creators[|s.creators|].at == at && t.creators[|s.creators|].claim == claim
  }

  lemma CallJoins(s: State, identity: Text, header: Option<Text>, fingerprint: Text)
    ensures var k, t := BuildKey(identity, header, fingerprint), Step(s, Call(identity, header, fingerprint));
            && StandsAt(s, t, k, Lookup, None)
            && t.db == s.db && t.log == s.log
  {
  }

  /** The new caller takes one step, short of pushing. */
  lemma OneMore(s: State, t: State, k: Key, o: Outcome, id: ClaimId)
    requires Joined(s, t, k) && id !in s.log.issued
    requires t.creators[|s.creators|].at.Arm? ==> t.log.issued == s.log.issued
    requires !t.creators[|s.creators|].at.Push?
    ensures var c, u := t.creators[|s.creators|], Step(t, Own(s, o, id));
            && Joined(s, u, k) && u.creators[|s.creators|] == NextCreator(t, c, o, id)
            && u.db.keys == KeysAfterCreate(t.db, c, o) && u.db.rows == RowsAfterCreate(t.db.rows, c, o)
            && u.log.lapses == (if Slips(c, o) then t.log.lapses + multiset{k} else t.log.lapses)
            && u.log.issued == (if c.at.Arm? && o == Acked then t.log.issued[id := |s.creators|] else t.log.issued)
  {
  }

  /** Rows, lapses and drawn identifiers have stayed as they were. */
  predicate Untouched(t: State, u: State) {
    u.db.rows == t.db.rows && u.log.lapses == t.log.lapses && u.log.issued == t.log.issued
  }

  lemma LooksUp(s: State, t: State, k: Key, id: ClaimId)
    requires StandsAt(s, t, k, Lookup, None) && k !in t.db.keys && id !in s.log.issued
    ensures var u := Step(t, Own(s, Acked, id));
            StandsAt(s, u, k, Acquire, None) && Untouched(t, u) && u.db.keys == t.db.keys
  {
    OneMore(s, t, k, Acked, id);
  }

  lemma Acquires(s: State, t: State, k: Key, id: ClaimId)
    requires StandsAt(s, t, k, Acquire, None) && k !in t.db.keys && id !in s.log.issued
    ensures var u := Step(t, Own(s, Acked, id));
            StandsAt(s, u, k, Arm, None) && Untouched(t, u) && u.db.keys == t.db.keys[k := Record(InProgress, None)]
  {
    OneMore(s, t, k, Acked, id);
  }

  lemma Arms(s: State, t: State, k: Key, id: ClaimId)
    requires StandsAt(s, t, k, Arm, None) && k in t.db.keys && id !in s.log.issued && t.log.issued == s.log.issued
    ensures var u := Step(t, Own(s, Acked, id));
            && StandsAt(s, u, k, Measure, Some(id)) && u.db.keys.Keys == t.db.keys.Keys
            && u.db.rows == t.db.rows && u.log.lapses == t.log.lapses
            && u.log.issued == s.log.issued[id := |s.creators|]
  {
    OneMore(s, t, k, Acked, id);
  }

  /** A call on a free key gets the lock. */
  lemma EnterLock(s: State, identity: Text, header: Option<Text>, fingerprint: Text, id: ClaimId) returns (t: State)
    requires BuildKey(identity, header, fingerprint) !in s.db.keys && id !in s.log.issued
    ensures t == Step(Step(Step(s, Call(identity, header, fingerprint)), Own(s, Acked, id)), Own(s, Acked, id))
    ensures var k := BuildKey(identity, header, fingerprint);
            && StandsAt(s, t, k, Arm, None)
            && t.db.keys == s.db.keys[k := Record(InProgress, None)] && t.db.keys.Keys == s.db.keys.Keys + {k}
            && t.db.rows == s.db.rows && t.log.lapses == s.log.lapses && t.log.issued == s.log.issued
  {
    var k := BuildKey(identity, header, fingerprint);
    CallJoins(s, identity, header, fingerprint);
    t := Step(s, Call(identity, header, fingerprint));
    LooksUp(s, t, k, id);
    t := Step(t, Own(s, Acked, id));
    Acquires(s, t, k, id);
    t := Step(t, Own(s, Acked, id));
  }

  /** A call on a free key gets as far as measuring the queue. */
  lemma Enter(s: State, identity: Text, header: Option<Text>, fingerprint: Text, id: ClaimId) returns (t: State)
    requires BuildKey(identity, header, fingerprint) !in s.db.keys && id !in s.log.issued
    ensures t == Step(Step(Step(Step(s, Call(identity, header, fingerprint)), Own(s, Acked, id)), Own(s, Acked, id)),
                      Own(s, Acked, id))
    ensures var k := BuildKey(identity, header, fingerprint);
            && StandsAt(s, t, k, Measure, Some(id))
            && t.db.keys.Keys == s.db.keys.Keys + {k} && t.db.rows == s.db.rows
            && t.log.lapses == s.log.lapses && t.log.issued == s.log.issued[id := |s.creators|]
  {
    var k := BuildKey(identity, header, fingerprint);
    t := EnterLock(s, identity, header, fingerprint, id);
    Arms(s, t, k, id);
    t := Step(t, Own(s, Acked, id));
  }

  lemma Measures(s: State, t: State, k: Key, id: ClaimId)
    requires StandsAt(s, t, k, Measure, Some(id)) && |s.db.list| < s.limit && id !in s.log.issued
    ensures var u := Step(t, Own(s, Acked, id));
            StandsAt(s, u, k, Insert, Some(id)) && Untouched(t, u) && u.db.keys == t.db.keys
  {
    OneMore(s, t, k, Acked, id);
  }

  lemma InsertsUnheard(s: State, t: State, k: Key, id: ClaimId)
    requires StandsAt(s, t, k, Insert, Some(id)) && id !in s.log.issued
    ensures var u := Step(t, Own(s, Unacked, id));
            && StandsAt(s, u, k, Release(Failed), Some(id)) && u.db.keys == t.db.keys
            && u.db.rows.Keys == t.db.rows.Keys + {id}
            && u.log.lapses == t.log.lapses + multiset{k} && u.log.issued == t.log.issued
  {
    OneMore(s, t, k, Unacked, id);
  }

  lemma Releases(s: State, t: State, k: Key, id: ClaimId)
    requires StandsAt(s, t, k, Release(Failed), Some(id)) && id !in s.log.issued
    ensures var u := Step(t, Own(s, Acked, id));
            Joined(s, u, k) && Untouched(t, u) && u.db.keys == Without(t.db.keys, k)
  {
    OneMore(s, t, k, Acked, id);
  }

  /** Its insert is carried out but reported failed; the entry is released, the row stays. */
  lemma Lose(s: State, m: State, k: Key, id: ClaimId) returns (t: State)
    requires StandsAt(s, m, k, Measure, Some(id)) && id !in s.log.issued && |s.db.list| < s.limit
    ensures t == Step(Step(Step(m, Own(s, Acked, id)), Own(s, Unacked, id)), Own(s, Acked, id))
    ensures Joined(s, t, k) && t.db.keys == Without(m.db.keys, k) && t.db.rows.Keys == m.db.rows.Keys + {id}
    ensures t.log.lapses == m.log.lapses + multiset{k} && t.log.issued == m.log.issued
  {
    Measures(s, m, k, id);
    t := Step(m, Own(s, Acked, id));
    InsertsUnheard(s, t, k, id);
    t := Step(t, Own(s, Unacked, id));
    Releases(s, t, k, id);
    t := Step(t, Own(s, Acked, id));
  }

  /** Seven steps from any state in which the key is free and the queue not full. */
  function Orphaning(s: State, identity: Text, header: Option<Text>, fingerprint: Text, id: ClaimId): seq<Action> {
    var go := Own(s, Acked, id);
    [Call(identity, header, fingerprint), go, go, go, go, Own(s, Unacked, id), go]
  }

  lemma SevenSplit<T>(a: T, go: T, bad: T)
    ensures [a, go, go, go, go, bad, go] == [a, go] + ([go, go] + ([go, bad] + [go]))
  {
  }

  lemma RunSeven(s: State, a: Action, go: Action, bad: Action)
    ensures Run(s, [a, go, go, go, go, bad, go])
      == Step(Step(Step(Step(Step(Step(Step(s, a), go), go), go), go), bad), go)
  {
    SevenSplit(a, go, bad);
    RunConcat(s, [a, go], [go, go] + ([go, bad] + [go]));
    RunTwo(s, a, go);
    RunFive(Step(Step(s, a), go), go, bad);
  }

  lemma RunFive(s: State, go: Action, bad: Action)
    ensures Run(s, [go, go] + ([go, bad] + [go])) == Step(Step(Step(Step(Step(s, go), go), go), bad), go)
  {
    RunConcat(s, [go, go], [go, bad] + [go]);
    RunTwo(s, go, go);
    var m := Step(Step(s, go), go);
    RunConcat(m, [go, bad], [go]);
    RunTwo(m, go, bad);
    RunOne(Step(Step(m, go), bad), go);
  }

  lemma OneOrphanMore(s: State, identity: Text, header: Option<Text>, fingerprint: Text, id: ClaimId)
    requires BuildKey(identity, header, fingerprint) !in s.db.keys && id !in s.log.issued && |s.db.list| < s.limit
    ensures var k, t := BuildKey(identity, header, fingerprint),
        Run(s, Orphaning(s, identity, header, fingerprint, id));
            && Joined(s, t, k) && k !in t.db.keys && t.db.rows.Keys == s.db.rows.Keys + {id}
            && t.log.lapses == s.log.lapses + multiset{k} && t.log.issued == s.log.issued[id := |s.creators|]
  {
    var k := BuildKey(identity, header, fingerprint);
    var m := Enter(s, identity, header, fingerprint, id);
    var t := Lose(s, m, k, id);
    RunSeven(s, Call(identity, header, fingerprint), Own(s, Acked, id), Own(s, Unacked, id));
  }

  lemma OrphanIsUnderKey(s: State, t: State, k: Key, id: ClaimId)
    requires Registry.RowsOwned(s) && Registry.RowsOwned(t) && Joined(s, t, k) && id !in s.log.issued
    requires t.db.rows.Keys == s.db.rows.Keys + {id} && t.log.issued == s.log.issued[id := |s.creators|]
    ensures |ClaimsUnder(t, k)| == |ClaimsUnder(s, k)| + 1
  {
    var before, after := ClaimsUnder(s, k), ClaimsUnder(t, k);
    forall x ensures x in after <==> x in before || x == id {
      UnderKey(s, t, k, id, x);
    }
    OneElementMore(before, after, id);
  }

  lemma OneElementMore(before: set<ClaimId>, after: set<ClaimId>, id: ClaimId)
    requires id !in before && forall x :: x in after <==> x in before || x == id
    ensures |after| == |before| + 1
  {
    assert after == before + {id};
  }

  lemma UnderKey(s: State, t: State, k: Key, id: ClaimId, x: ClaimId)
    requires Registry.RowsOwned(s) && Registry.RowsOwned(t) && Joined(s, t, k) && id !in s.log.issued
    requires t.db.rows.Keys == s.db.rows.Keys + {id} && t.log.issued == s.log.issued[id := |s.creators|]
    ensures x in ClaimsUnder(t, k) <==> x in ClaimsUnder(s, k) || x == id
  {
    assert x in t.db.rows <==> x in s.db.rows || x == id;
    assert x in s.db.rows ==> x != id && t.log.issued[x] == s.log.issued[x] < |s.creators|;
  }

  /** For every number of lapses there is a run in which the claims under a key are as many as
      `ClaimsPerKey` permits. */
  lemma {:induction false} BoundIsAttained(limit: nat, identity: Text, header: Option<Text>, fingerprint: Text, n: nat)
    returns (actions: seq<Action>)
    requires limit > 0
    ensures var s, k := Run(Init(limit), actions), BuildKey(identity, header, fingerprint);
            && Registry.Registered(s) && s.limit == limit && s.db.list == [] && k !in s.db.keys
            && s.log.lapses[k] == n && |ClaimsUnder(s, k)| == Present(s, k) + n
            && forall id | id in s.log.issued :: |id.text| < n
  {
    if n == 0 {
      actions := [];
    } else {
      var front := BoundIsAttained(limit, identity, header, fingerprint, n - 1);
      var s, k := Run(Init(limit), front), BuildKey(identity, header, fingerprint);
      var id := ClaimId(seq(n - 1, _ => COLON));
      assert |id.text| == n - 1;
      var more := Orphaning(s, identity, header, fingerprint, id);
      actions := front + more;
      RunConcat(Init(limit), front, more);
      OneOrphanMore(s, identity, header, fingerprint, id);
      Registry.AlwaysRegistered(limit, actions);
      OrphanIsUnderKey(s, Run(s, more), k, id);
    }
  }
}
