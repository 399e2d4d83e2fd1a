/** Idempotent creation: how many claims one key can be worth. */
module Accounting {
  import opened Basics
  import opened IdempotencyKeys
  import opened ClaimSystem
  import Frames
  import opened Registry
  import Runs

  /** Between a successful SETNX and the release or completion of the entry. */
  predicate Inside(at: CreateAt) {
    at.Arm? || Rowless(at) || Rowed(at) || at.Release?
  }

  /** Callers whose row, if there is one, is there to stay. */
  predicate Settled(at: CreateAt) {
    at.Release? || at.Replied? || at.Killed?
  }

  /** What a caller weighs on a key: one for being inside, one for a claim it leaves behind. */
  function Weight(c: Creator, live: set<ClaimId>, k: Key): nat {
    if c.key != k then 0 else
    (if Inside(c.at) then 1 else 0) + (if Settled(c.at) && c.claim.Some? && c.claim.value in live then 1 else 0)
  }

  function Weights(creators: seq<Creator>, live: set<ClaimId>, k: Key): seq<nat> {
    seq(|creators|, n requires 0 <= n < |creators| => Weight(creators[n], live, k))
  }

  function Present(s: State, k: Key): nat {
    if k in s.db.keys then 1 else 0
  }

  function Load(s: State, k: Key): nat {
    Sum(Weights(s.creators, s.db.rows.Keys, k))
  }

  /** The accounting invariant of one key. */
  predicate Accounted(s: State, k: Key) {
    Load(s, k) <= Present(s, k) + s.log.lapses[k]
  }

  /** Whatever a caller's step adds to its weight is paid for by the entry or by a lapse. */
  lemma CommandPaid(s: State, c: Creator, o: Outcome, uuid: ClaimId)
    requires Placed(s, c) && s.db.rows.Keys <= s.log.history.Keys <= s.log.issued.Keys
    requires c.at.Arm? && o == Acked ==> uuid !in s.log.issued
    ensures var keys := KeysAfterCreate(s.db, c, o);
            Weight(NextCreator(s, c, o, uuid), RowsAfterCreate(s.db.rows, c, o).Keys, c.key)
            + (if c.key in s.db.keys then 1 else 0)
            <= Weight(c, s.db.rows.Keys, c.key) + (if c.key in keys then 1 else 0) + (if Slips(c, o) then 1 else 0)
  {
  }

  lemma WeightPaid(s: State, i: nat, o: Outcome, uuid: ClaimId, k: Key)
    requires Registered(s) && Enabled(s, Create(i, o, uuid))
    ensures var t := CreateStep(s, i, o, uuid);
            Weight(t.creators[i], t.db.rows.Keys, k) + Present(s, k) + s.log.lapses[k]
            <= Weight(s.creators[i], s.db.rows.Keys, k) + Present(t, k) + t.log.lapses[k]
  {
    assert Placed(s, s.creators[i]);
    if s.creators[i].key == k {
      CommandPaid(s, s.creators[i], o, uuid);
    }
  }

  lemma OtherWeightsKept(s: State, i: nat, o: Outcome, uuid: ClaimId, k: Key, n: nat)
    requires Registered(s) && Enabled(s, Create(i, o, uuid)) && n < |s.creators| && n != i
    ensures var t := CreateStep(s, i, o, uuid);
            Weight(t.creators[n], t.db.rows.Keys, k) == Weight(s.creators[n], s.db.rows.Keys, k)
  {
    assert Placed(s, s.creators[i]) && Placed(s, s.creators[n]);
  }

  /** Between two states, what the callers of a key weigh more is paid for by the entry or by lapses. */
  predicate Paid(s: State, t: State, k: Key) {
    Load(t, k) + Present(s, k) + s.log.lapses[k] <= Load(s, k) + Present(t, k) + t.log.lapses[k]
  }

  lemma CreatePays(s: State, i: nat, o: Outcome, uuid: ClaimId, k: Key)
    requires Registered(s) && Enabled(s, Create(i, o, uuid))
    ensures Paid(s, CreateStep(s, i, o, uuid), k)
  {
    var t := CreateStep(s, i, o, uuid);
    var before := Weights(s.creators, s.db.rows.Keys, k);
    var after := Weights(t.creators, t.db.rows.Keys, k);
    forall n | 0 <= n < |s.creators| && n != i ensures after[n] == before[n] {
      OtherWeightsKept(s, i, o, uuid, k, n);
    }
    assert after == before[i := after[i]];
    SumUpdate(before, i, after[i]);
    WeightPaid(s, i, o, uuid, k);
  }

  lemma KillPays(s: State, i: nat, k: Key)
    requires Enabled(s, KillCreator(i)) && RowsOwned(s) && Placed(s, s.creators[i])
    ensures Paid(s, Step(s, KillCreator(i)), k)
  {
    var t := Step(s, KillCreator(i));
    var before := Weights(s.creators, s.db.rows.Keys, k);
    var after := Weights(t.creators, t.db.rows.Keys, k);
    assert after == before[i := after[i]];
    SumUpdate(before, i, after[i]);
  }

  lemma CallPays(s: State, identity: Text, header: Option<Text>, fingerprint: Text, k: Key)
    ensures Paid(s, CallStep(s, identity, header, fingerprint), k)
  {
    var t := CallStep(s, identity, header, fingerprint);
    var before := Weights(s.creators, s.db.rows.Keys, k);
    assert Weights(t.creators, t.db.rows.Keys, k) == before + [0];
    SumAppend(before, 0);
  }

  lemma QuietPays(s: State, t: State, k: Key)
    requires t.creators == s.creators && t.db.rows.Keys == s.db.rows.Keys
    requires Present(s, k) + s.log.lapses[k] <= Present(t, k) + t.log.lapses[k]
    ensures Paid(s, t, k)
  {
  }

  lemma StepPays(s: State, a: Action, k: Key)
    requires Registered(s)
    ensures Paid(s, Step(s, a), k)
  {
    if Enabled(s, a) {
      if a.Create? {
        CreatePays(s, a.creator, a.outcome, a.uuid, k);
      } else if a.KillCreator? {
        KillPays(s, a.creator, k);
      } else if a.Call? {
        CallPays(s, a.identity, a.header, a.fingerprint, k);
      } else {
        Frames.OutsideFrames(s, a);
        QuietPays(s, Step(s, a), k);
      }
    }
  }

  lemma PaidOn(s: State, t: State, u: State, k: Key)
    requires Paid(s, t, k) && Paid(t, u, k)
    ensures Paid(s, u, k)
  {
  }

  /** Between any reachable state and any later one. */
  lemma {:induction false} RunPays(s: State, more: seq<Action>, k: Key)
    requires Reachable(s)
    ensures Paid(s, Run(s, more), k)
  {
    if more != [] {
      var front := more[..|more| - 1];
      RunPays(s, front, k);
      Runs.ReachesOn(s, front);
      ReachableRegistered(Run(s, front));
      StepPays(Run(s, front), more[|more| - 1], k);
      PaidOn(s, Run(s, front), Run(s, more), k);
    }
  }

  lemma NothingYet(limit: nat, k: Key)
    ensures Reachable(Init(limit)) && Load(Init(limit), k) == 0 && Present(Init(limit), k) == 0
  {
    assert Run(Init(limit), []) == Init(limit);
  }

  /** In every reachable state, claims left behind under a key and callers inside its locked
      section together never exceed the entry plus the lapses. */
  lemma AlwaysAccounted(limit: nat, actions: seq<Action>, k: Key)
    ensures Accounted(Run(Init(limit), actions), k)
  {
    NothingYet(limit, k);
    RunPays(Init(limit), actions, k);
  }

  /** A caller that is inside the locked section, or whose claim exists. */
  predicate Engaged(s: State, i: nat)
    requires i < |s.creators|
  {
    Inside(s.creators[i].at) || (s.creators[i].claim.Some? && s.creators[i].claim.value in s.db.rows)
  }

  lemma EngagedWeighs(s: State, i: nat)
    requires Registered(s) && i < |s.creators|
    ensures Engaged(s, i) <==> Weight(s.creators[i], s.db.rows.Keys, s.creators[i].key) >= 1
  {
    assert Placed(s, s.creators[i]);
  }

  /** The rows created under a key. */
  function ClaimsUnder(s: State, k: Key): set<ClaimId>
    requires RowsOwned(s)
  {
    set id | id in s.db.rows && s.creators[s.log.issued[id]].key == k
  }

  function ClaimsOfFirst(s: State, k: Key, n: nat): set<ClaimId>
    requires RowsOwned(s)
  {
    set id | id in s.db.rows && s.creators[s.log.issued[id]].key == k && s.log.issued[id] < n
  }

  lemma ClaimsGrow(s: State, k: Key, n: nat)
    requires Registered(s) && n < |s.creators|
    ensures var c := s.creators[n];
            ClaimsOfFirst(s, k, n + 1) == ClaimsOfFirst(s, k, n)
              + if c.claim.Some? && c.claim.value in s.db.rows && c.key == k then {c.claim.value} else {}
  {
    assert Placed(s, s.creators[n]);
  }

  /** Nobody is between a successful SETNX on this key and the release or completion of its entry. */
  predicate NobodyInside(s: State, k: Key) {
    forall n | 0 <= n < |s.creators| && s.creators[n].key == k :: !Inside(s.creators[n].at)
  }

  lemma OneClaimWeighs(s: State, k: Key, n: nat)
    requires Registered(s) && n < |s.creators|
    ensures |ClaimsOfFirst(s, k, n + 1)| <= |ClaimsOfFirst(s, k, n)| + Weight(s.creators[n], s.db.rows.Keys, k)
    ensures NobodyInside(s, k) ==>
              |ClaimsOfFirst(s, k, n + 1)| == |ClaimsOfFirst(s, k, n)| + Weight(s.creators[n], s.db.rows.Keys, k)
  {
    ClaimsGrow(s, k, n);
    if s.creators[n].key == k {
      EngagedWeighs(s, n);
      if s.creators[n].claim.Some? {
        NewClaim(s, k, n);
      }
    }
  }

  lemma NewClaim(s: State, k: Key, n: nat)
    requires Registered(s) && n < |s.creators| && s.creators[n].claim.Some?
    ensures s.creators[n].claim.value !in ClaimsOfFirst(s, k, n)
  {
  }

  lemma {:induction false} ClaimsWeigh(s: State, k: Key, n: nat)
    requires Registered(s) && n <= |s.creators|
    ensures |ClaimsOfFirst(s, k, n)| <= Sum(Weights(s.creators, s.db.rows.Keys, k)[..n])
    ensures NobodyInside(s, k) ==> |ClaimsOfFirst(s, k, n)| == Sum(Weights(s.creators, s.db.rows.Keys, k)[..n])
  {
    var ws := Weights(s.creators, s.db.rows.Keys, k);
    if n == 0 {
      assert ClaimsOfFirst(s, k, 0) == {};
    } else {
      ClaimsWeigh(s, k, n - 1);
      OneClaimWeighs(s, k, n - 1);
      assert ws[..n][..n - 1] == ws[..n - 1] && ws[..n][n - 1] == ws[n - 1];
    }
  }

  lemma ClaimsWeighAll(s: State, k: Key)
    requires Registered(s)
    ensures |ClaimsUnder(s, k)| <= Load(s, k)
    ensures NobodyInside(s, k) ==> |ClaimsUnder(s, k)| == Load(s, k)
  {
    ClaimsWeigh(s, k, |s.creators|);
    var ws := Weights(s.creators, s.db.rows.Keys, k);
    assert ws[..|s.creators|] == ws;
    assert ClaimsOfFirst(s, k, |s.creators|) == ClaimsUnder(s, k);
  }

  /** The headline bound: the rows that exist for one key, in any reachable state. */
  lemma ClaimsPerKey(s: State, k: Key)
    requires Reachable(s)
    ensures Registered(s) && |ClaimsUnder(s, k)| <= Present(s, k) + s.log.lapses[k]
  {
    var limit, actions :| s == Run(Init(limit), actions);
    ReachableRegistered(s);
    AlwaysAccounted(limit, actions, k);
    ClaimsWeighAll(s, k);
  }

  /** The same from any moment on at which nobody is inside the key's locked section, however often
      it has been used and has lapsed before: the rows it gains are worth the entry and new lapses. */
  lemma ClaimsPerEpoch(b: State, more: seq<Action>, s: State, k: Key)
    requires Reachable(b) && NobodyInside(b, k) && s == Run(b, more)
    ensures Registered(b) && Registered(s)
    ensures |ClaimsUnder(s, k)| + Present(b, k) + b.log.lapses[k]
            <= |ClaimsUnder(b, k)| + Present(s, k) + s.log.lapses[k]
  {
    Runs.ReachesOn(b, more);
    ReachableRegistered(b);
    ReachableRegistered(s);
    RunPays(b, more, k);
    ClaimsWeighAll(b, k);
    ClaimsWeighAll(s, k);
  }

  // ---------------------------------------------------------------- epochs of a key

  /** Callers that are done, one way or another. */
  predicate Through(at: CreateAt) {
    at.Replied? || at.Killed?
  }

  /** A caller of the base state keeps its key; once done it stays done, with its claim and row. */
  predicate StaysDone(b: State, s: State, n: nat)
    requires n < |b.creators| <= |s.creators|
  {
    && s.creators[n].key == b.creators[n].key
    && (Through(b.creators[n].at) ==>
          && Through(s.creators[n].at) && s.creators[n].claim == b.creators[n].claim
          && (s.creators[n].claim.Some? && s.creators[n].claim.value in b.db.rows ==>
                s.creators[n].claim.value in s.db.rows))
  }

  /** `s` came later than `b`, a state in which nobody was inside the key's locked section. */
  predicate Epoch(b: State, s: State, k: Key) {
    && NobodyInside(b, k) && Registered(b) && Registered(s) && Paid(b, s, k) && b.log.lapses[k] <= s.log.lapses[k]
    && |b.creators| <= |s.creators|
    && forall n | 0 <= n < |b.creators| :: StaysDone(b, s, n)
  }

  lemma EpochBegins(b: State, k: Key)
    requires Registered(b) && NobodyInside(b, k)
    ensures Epoch(b, b, k)
  {
  }

  lemma CreateStaysDone(s: State, i: nat, o: Outcome, uuid: ClaimId, n: nat)
    requires Registered(s) && Enabled(s, Create(i, o, uuid)) && n < |s.creators|
    ensures StaysDone(s, CreateStep(s, i, o, uuid), n)
  {
    assert Placed(s, s.creators[i]) && Placed(s, s.creators[n]);
  }

  lemma StepStaysDone(s: State, a: Action, n: nat)
    requires Registered(s) && n < |s.creators|
    ensures |s.creators| <= |Step(s, a).creators| && StaysDone(s, Step(s, a), n)
  {
    if Enabled(s, a) {
      if a.Create? {
        CreateStaysDone(s, a.creator, a.outcome, a.uuid, n);
      } else if a.Call? || a.KillCreator? {
      } else {
        Frames.OutsideFrames(s, a);
      }
    }
  }

  lemma StepLapses(s: State, a: Action, k: Key)
    ensures s.log.lapses[k] <= Step(s, a).log.lapses[k]
    ensures |s.creators| <= |Step(s, a).creators|
  {
    if Enabled(s, a) {
      if !a.Create? && !a.Call? && !a.KillCreator? {
        Frames.OutsideFrames(s, a);
      }
    }
  }

  lemma StepEpoch(b: State, s: State, a: Action, k: Key)
    requires Epoch(b, s, k)
    ensures Epoch(b, Step(s, a), k)
  {
    var t := Step(s, a);
    StepRegisters(s, a);
    StepPays(s, a, k);
    PaidOn(b, s, t, k);
    StepLapses(s, a, k);
    forall n | 0 <= n < |b.creators| ensures StaysDone(b, t, n) {
      assert StaysDone(b, s, n);
      StepStaysDone(s, a, n);
    }
  }

  lemma {:induction false} RunEpoch(b: State, more: seq<Action>, k: Key)
    requires Reachable(b) && NobodyInside(b, k)
    ensures Epoch(b, Run(b, more), k)
  {
    ReachableRegistered(b);
    if more == [] {
      EpochBegins(b, k);
    } else {
      RunEpoch(b, more[..|more| - 1], k);
      StepEpoch(b, Run(b, more[..|more| - 1]), more[|more| - 1], k);
    }
  }

  /** The caller is engaged, and was not when the epoch began. */
  predicate Joins(b: State, s: State, i: nat)
    requires i < |s.creators|
  {
    Engaged(s, i) && (i < |b.creators| ==> !Engaged(b, i))
  }

  /** What the callers of `s` weighed in the base state. */
  function BaseWeights(b: State, s: State, k: Key): seq<nat> {
    seq(|s.creators|, n requires 0 <= n < |s.creators| =>
      if n < |b.creators| then Weight(b.creators[n], b.db.rows.Keys, k) else 0)
  }

  lemma BaseWeighs(b: State, s: State, k: Key)
    requires |b.creators| <= |s.creators|
    ensures Sum(BaseWeights(b, s, k)) == Load(b, k)
  {
    var base := BaseWeights(b, s, k);
    assert base[..|b.creators|] == Weights(b.creators, b.db.rows.Keys, k);
    SumPadded(Weights(b.creators, b.db.rows.Keys, k), base);
  }

  /** Nobody weighs less than in the base state, and whoever has joined weighs more. */
  lemma WeighsMore(b: State, s: State, k: Key, n: nat)
    requires Epoch(b, s, k) && n < |s.creators|
    ensures BaseWeights(b, s, k)[n] <= Weight(s.creators[n], s.db.rows.Keys, k)
    ensures s.creators[n].key == k && Joins(b, s, n) ==>
              BaseWeights(b, s, k)[n] < Weight(s.creators[n], s.db.rows.Keys, k)
  {
    EngagedWeighs(s, n);
    if n < |b.creators| {
      assert StaysDone(b, s, n);
      EngagedWeighs(b, n);
    }
  }

  /** As long as a key has not lapsed since an epoch began, at most one caller joins in it, and
      only if the entry was not there at the beginning; then it is there now. */
  lemma OneJoinsPerEpoch(b: State, s: State, k: Key, i: nat, j: nat)
    requires Epoch(b, s, k) && s.log.lapses[k] == b.log.lapses[k]
    requires i < |s.creators| && j < |s.creators| && s.creators[i].key == k && s.creators[j].key == k
    requires Joins(b, s, i) && Joins(b, s, j)
    ensures i == j && k in s.db.keys && k !in b.db.keys
  {
    var base, ws := BaseWeights(b, s, k), Weights(s.creators, s.db.rows.Keys, k);
    forall n | 0 <= n < |s.creators| ensures base[n] <= ws[n] {
      WeighsMore(b, s, k, n);
    }
    WeighsMore(b, s, k, i);
    WeighsMore(b, s, k, j);
    BaseWeighs(b, s, k);
    SumExceeds(base, ws, i);
    if i < j {
      SumExceedsTwice(base, ws, i, j);
    } else if j < i {
      SumExceedsTwice(base, ws, j, i);
    }
  }

  /** In particular, as long as a key has not lapsed at all, at most one caller is engaged on it. */
  lemma OneEngagedPerKey(s: State, k: Key, i: nat, j: nat)
    requires Reachable(s) && s.log.lapses[k] == 0
    requires i < |s.creators| && j < |s.creators| && s.creators[i].key == k && s.creators[j].key == k
    requires Engaged(s, i) && Engaged(s, j)
    ensures i == j && k in s.db.keys
  {
    var limit, actions :| s == Run(Init(limit), actions);
    NothingYet(limit, k);
    RunEpoch(Init(limit), actions, k);
    OneJoinsPerEpoch(Init(limit), s, k, i, j);
  }
}
