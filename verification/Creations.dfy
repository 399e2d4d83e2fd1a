/** A request that succeeds: from its call to its answer, and how a queue fills with such requests. */
module Creations {
  import opened Basics
  import opened IdempotencyKeys
  import opened Lifecycle
  import opened ClaimSystem
  import Runs
  import opened Orphans

  /** The new caller's position, and the parts of the store its next commands change. */
  predicate Creating(s: State, t: State, k: Key, at: CreateAt, id: ClaimId) {
    && |t.creators| == |s.creators| + 1 && t.limit == s.limit && t.updaters == s.updaters
    && t.log.redelivered == s.log.redelivered
    && t.creators[|s.creators|].key == k && t.creators[|s.creators|].at == at
    && t.creators[|s.creators|].claim == Some(id)
  }

  // ---------------------------------------------------------------- the ten commands of a creation

  /** Where the caller stands after so many of its commands. */
  function PositionAfter(n: nat, id: ClaimId): CreateAt {
    if n < 10
    then [Lookup, Acquire, Arm, Measure, Insert, MarkPending, MarkTtl, StorePayload, Push, Finalize][n]
    else Replied(Created(id))
  }

  /** What a creation leaves in the store. */
  function Stored(db: Store, k: Key, id: ClaimId, identity: Text, day: nat): Store {
    db.(keys := db.keys[k := Record(Complete(id), Some(day))],
        rows := db.rows[id := Row(identity, Pending, 0)],
        markers := db.markers[id := Some(day)],
        payloads := db.payloads[id := Payload(id, identity, day)],
        list := [id] + db.list)
  }

  /** And what has become of the store: a pending entry, a minute to live for it, the row, the marker,
      a day to live for that, the payload for a day, the push, and the complete entry for a day. */
  function StoreAfter(n: nat, db: Store, k: Key, id: ClaimId, identity: Text): Store {
    if n >= 10 then Stored(db, k, id, identity, db.now + 24 * 60 * 60 * 1000) else
    db.(keys := if n < 2 then db.keys
                else if n < 3 then db.keys[k := Record(InProgress, None)]
                else db.keys[k := Record(InProgress, Some(db.now + 60_000))],
        rows := if n < 5 then db.rows else db.rows[id := Row(identity, Pending, 0)],
        markers := if n < 6 then db.markers
                   else if n < 7 then db.markers[id := None]
                   else db.markers[id := Some(db.now + 86_400_000)],
        payloads := if n < 8 then db.payloads else db.payloads[id := Payload(id, identity, db.now + 86_400_000)],
        list := if n < 9 then db.list else [id] + db.list)
  }

  /** The key is free, the identifier without a marker, and the queue below its limit. */
  predicate Fits(s: State, k: Key, id: ClaimId) {
    k !in s.db.keys && id !in s.db.markers && |s.db.list| < s.limit
  }

  predicate Stage(n: nat, s: State, limit: nat, db: Store, c: Creator, id: ClaimId) {
    && s.limit == limit && s.db == StoreAfter(n, db, c.key, id, c.identity)
    && c.at == PositionAfter(n, id) && c.claim == if n < 3 then None else Some(id)
  }

  lemma EntryStage(n: nat, s: State, base: State, c: Creator, id: ClaimId)
    requires n < 4 && Fits(base, c.key, id) && Stage(n, s, base.limit, base.db, c, id)
    ensures NextCreateAt(s, c, Acked) == PositionAfter(n + 1, id)
    ensures StoreAfterCreate(s.db, c, Acked) == StoreAfter(n + 1, base.db, c.key, id, c.identity)
  {
  }

  lemma MakingStage(n: nat, s: State, base: State, c: Creator, id: ClaimId)
    requires 4 <= n < 8 && Fits(base, c.key, id) && Stage(n, s, base.limit, base.db, c, id)
    ensures NextCreateAt(s, c, Acked) == PositionAfter(n + 1, id)
    ensures StoreAfterCreate(s.db, c, Acked) == StoreAfter(n + 1, base.db, c.key, id, c.identity)
  {
  }

  lemma LastStage(n: nat, s: State, base: State, c: Creator, id: ClaimId)
    requires 8 <= n < 10 && Fits(base, c.key, id) && Stage(n, s, base.limit, base.db, c, id)
    ensures NextCreateAt(s, c, Acked) == PositionAfter(n + 1, id)
    ensures StoreAfterCreate(s.db, c, Acked) == StoreAfter(n + 1, base.db, c.key, id, c.identity)
  {
  }

  lemma OwnStore(t: State, i: nat, id: ClaimId)
    requires Enabled(t, Create(i, Acked, id))
    ensures var c, u := t.creators[i], Step(t, Create(i, Acked, id));
            && |u.creators| == |t.creators| && u.limit == t.limit && u.updaters == t.updaters
            && u.log.redelivered == t.log.redelivered
            && u.creators[i] == NextCreator(t, c, Acked, id) && u.db == StoreAfterCreate(t.db, c, Acked)
            && (!c.at.Arm? ==> u.log.issued == t.log.issued)
  {
  }

  /** A caller of this identity has just called, on this key. */
  predicate Called(s: State, m: State, k: Key, identity: Text) {
    && |m.creators| == |s.creators| + 1 && m.limit == s.limit && m.updaters == s.updaters && m.db == s.db
    && m.log.redelivered == s.log.redelivered && m.log.issued == s.log.issued
    && var c := m.creators[|s.creators|];
       c.at == Lookup && c.claim == None && c.key == k && c.identity == identity
  }

  lemma CallCalls(s: State, identity: Text, header: Option<Text>, fingerprint: Text) returns (m: State)
    ensures m == Step(s, Call(identity, header, fingerprint))
    ensures Called(s, m, BuildKey(identity, header, fingerprint), identity)
  {
    m := Step(s, Call(identity, header, fingerprint));
  }

  /** After so many acknowledged commands of a request that finds room, position and store are these. */
  lemma {:induction false} CreationGoesOn(s: State, m: State, k: Key, identity: Text, id: ClaimId, n: nat)
    requires Fits(s, k, id) && id !in s.log.issued && Called(s, m, k, identity) && n <= 10
    ensures var i, t := |s.creators|, Repeated(m, Own(s, Acked, id), n);
            && |t.creators| == i + 1 && t.updaters == s.updaters && t.log.redelivered == s.log.redelivered
            && t.creators[i].key == k && t.creators[i].identity == identity
            && Stage(n, t, s.limit, s.db, t.creators[i], id)
            && (n < 3 ==> t.log.issued == s.log.issued)
  {
    if n > 0 {
      CreationGoesOn(s, m, k, identity, id, n - 1);
      var t, i := Repeated(m, Own(s, Acked, id), n - 1), |s.creators|;
      var c := t.creators[i];
      OwnStore(t, i, id);
      if n - 1 < 4 {
        EntryStage(n - 1, t, s, c, id);
      } else if n - 1 < 8 {
        MakingStage(n - 1, t, s, c, id);
      } else {
        LastStage(n - 1, t, s, c, id);
      }
    }
  }

  lemma {:induction false} RunRepeated(s: State, a: Action, n: nat) returns (actions: seq<Action>)
    ensures Run(s, actions) == Repeated(s, a, n)
  {
    actions := [];
    if n > 0 {
      var front := RunRepeated(s, a, n - 1);
      actions := front + [a];
      Runs.RunConcat(s, front, [a]);
      Runs.RunOne(Run(s, front), a);
    }
  }

  function Repeated(s: State, a: Action, n: nat): State {
    if n == 0 then s else Step(Repeated(s, a, n - 1), a)
  }

  lemma CreationEnds(s: State, t: State, id: ClaimId, n: nat)
    requires n >= 10 && |t.creators| == |s.creators| + 1
    requires t.updaters == s.updaters && t.log.redelivered == s.log.redelivered
    requires Stage(n, t, s.limit, s.db, t.creators[|s.creators|], id)
    ensures var c, day := t.creators[|s.creators|], s.db.now + 24 * 60 * 60 * 1000;
            Creating(s, t, c.key, Replied(Created(id)), id) && t.db == Stored(s.db, c.key, id, c.identity, day)
  {
  }

  lemma CheckIsPassed(s: State, t: State, id: ClaimId, n: nat)
    requires n == 4 && |t.creators| == |s.creators| + 1
    requires t.updaters == s.updaters && t.log.redelivered == s.log.redelivered
    requires Stage(n, t, s.limit, s.db, t.creators[|s.creators|], id)
    ensures Creating(s, t, t.creators[|s.creators|].key, Insert, id) && t.db == s.db.(keys := t.db.keys)
  {
  }

  /** A request on a free key, with room in the queue and every command acknowledged, is answered with
      its new claim. What it has changed in the store is exactly this: the entry is complete for a day, the
      row is there, PENDING, and with it a marker and the payload, for a day, and the claim is at the
      queue's end. */
  lemma CreateSucceeds(s: State, identity: Text, header: Option<Text>, fingerprint: Text, id: ClaimId)
    returns (actions: seq<Action>)
    requires BuildKey(identity, header, fingerprint) !in s.db.keys && id !in s.log.issued
    requires |s.db.list| < s.limit && id !in s.db.markers
    ensures var k, day, t := BuildKey(identity, header, fingerprint), s.db.now + 24 * 60 * 60 * 1000, Run(s, actions);
            && Creating(s, t, k, Replied(Created(id)), id)
            && t.db == Stored(s.db, k, id, identity, day)
    ensures Run(s, actions) == Repeated(Step(s, Call(identity, header, fingerprint)), Own(s, Acked, id), 10)
  {
    var call := Call(identity, header, fingerprint);
    var m := CallCalls(s, identity, header, fingerprint);
    var rest := RunRepeated(m, Own(s, Acked, id), 10);
    CreationGoesOn(s, m, BuildKey(identity, header, fingerprint), identity, id, 10);
    CreationEnds(s, Run(m, rest), id, 10);
    actions := [call] + rest;
    Runs.RunConcat(s, [call], rest);
    Runs.RunOne(s, call);
  }

  /** Four commands take such a request past the backpressure check; nothing but its entry has changed. */
  lemma PassesCheck(s: State, identity: Text, header: Option<Text>, fingerprint: Text, id: ClaimId) returns (t: State)
    requires BuildKey(identity, header, fingerprint) !in s.db.keys && id !in s.log.issued
    requires |s.db.list| < s.limit && id !in s.db.markers
    ensures t == Repeated(Step(s, Call(identity, header, fingerprint)), Own(s, Acked, id), 4)
    ensures Creating(s, t, BuildKey(identity, header, fingerprint), Insert, id) && t.db == s.db.(keys := t.db.keys)
  {
    var m := CallCalls(s, identity, header, fingerprint);
    CreationGoesOn(s, m, BuildKey(identity, header, fingerprint), identity, id, 4);
    t := Repeated(m, Own(s, Acked, id), 4);
    CheckIsPassed(s, t, id, 4);
  }
}
