/** The claim lifecycle: the transition table, the worker's three stages and its verdict. */
module Lifecycle {
  import opened IdempotencyKeys

  datatype Status = Pending | Processing | FraudChecking | Approved | Rejected

  function AllowedTransitions(from: Status): set<Status> {
    match from
    case Pending => {Processing}
    case Processing => {FraudChecking, Rejected}
    case FraudChecking => {Approved, Rejected}
    case Approved => {}
    case Rejected => {}
  }

  predicate Allowed(from: Status, to: Status) {
    to in AllowedTransitions(from)
  }

  predicate Terminal(status: Status) {
    status == Approved || status == Rejected
  }

  /** The sum of the identifier's code units. */
  function CodeSum(text: Text): nat {
    if text == [] then 0 else CodeSum(text[..|text| - 1]) + text[|text| - 1]
  }

  function Decision(id: ClaimId): Status {
    if CodeSum(id.text) % 2 == 0 then Approved else Rejected
  }

  /** Where the identifier has an odd code unit. */
  function OddPlaces(text: Text): set<nat> {
    set n | 0 <= n < |text| && text[n] % 2 == 1
  }

  lemma {:induction false} SumIsOddWhenPlacesAre(text: Text)
    ensures CodeSum(text) % 2 == |OddPlaces(text)| % 2
  {
    if text != [] {
      var front, last := text[..|text| - 1], text[|text| - 1];
      SumIsOddWhenPlacesAre(front);
      assert OddPlaces(text) == OddPlaces(front) + if last % 2 == 1 then {|front|} else {};
    } else {
      assert OddPlaces(text) == {};
    }
  }

  /** The verdict: a claim is approved if its identifier has an even number of odd code units, and
      rejected otherwise. */
  lemma VerdictIsParity(id: ClaimId)
    ensures Decision(id) == Approved <==> |OddPlaces(id.text)| % 2 == 0
    ensures Decision(id) == Rejected <==> |OddPlaces(id.text)| % 2 == 1
  {
    SumIsOddWhenPlacesAre(id.text);
  }

  /** One more code unit turns the verdict just when it is odd. */
  lemma VerdictTurns(text: Text, c: CodeUnit)
    ensures Decision(ClaimId([])) == Approved
    ensures Decision(ClaimId(text + [c])) == Decision(ClaimId(text)) <==> c % 2 == 0
  {
    assert (text + [c])[..|text|] == text;
  }

  /** What a worker asks for at each of its three stages. */
  type Stage = n: nat | n < 3

  function Target(id: ClaimId, stage: Stage): Status {
    match stage
    case 0 => Processing
    case 1 => FraudChecking
    case 2 => Decision(id)
  }

  /** A walk through the transition table from the initial status. */
  predicate IsPath(walk: seq<Status>) {
    && walk != []
    && walk[0] == Pending
    && forall n | 0 < n < |walk| :: Allowed(walk[n - 1], walk[n])
  }

  function Rank(status: Status): nat {
    match status
    case Pending => 0
    case Processing => 1
    case FraudChecking => 2
    case Approved => 3
    case Rejected => 3
  }

  /** Every walk has at most three steps, and a terminal status can only be its end. */
  lemma {:induction false} PathsAreShort(walk: seq<Status>)
    requires IsPath(walk)
    ensures |walk| - 1 <= Rank(walk[|walk| - 1])
    ensures |walk| <= 4
    ensures forall n | 0 <= n < |walk| && Terminal(walk[n]) :: n == |walk| - 1
  {
    if |walk| > 1 {
      var front := walk[..|walk| - 1];
      assert forall n | 0 <= n < |front| :: front[n] == walk[n];
      PathsAreShort(front);
      var n := |walk| - 1;
      assert Allowed(walk[n - 1], walk[n]);
      assert front[|front| - 1] == walk[n - 1];
    }
  }

  /** The walks that end in a terminal status are exactly these three. */
  lemma CompleteWalks(walk: seq<Status>)
    requires walk != []
    ensures IsPath(walk) && walk[|walk| - 1] in {Approved, Rejected} <==>
              || walk == [Pending, Processing, Rejected]
              || walk == [Pending, Processing, FraudChecking, Approved]
              || walk == [Pending, Processing, FraudChecking, Rejected]
  {
    if IsPath(walk) && walk[|walk| - 1] in {Approved, Rejected} {
      PathsAreShort(walk);
      assert |walk| >= 2 ==> Allowed(walk[0], walk[1]);
      if |walk| == 3 {
        assert Allowed(walk[1], walk[2]);
        assert walk == [walk[0], walk[1], walk[2]];
      } else if |walk| == 4 {
        assert Allowed(walk[1], walk[2]) && Allowed(walk[2], walk[3]);
        assert walk == [walk[0], walk[1], walk[2], walk[3]];
      }
    }
  }

  /** A status that cannot be left is exactly a terminal one. */
  lemma TerminalExactlyWhenStuck(status: Status)
    ensures Terminal(status) <==> forall to :: !Allowed(status, to)
  {
    if !Terminal(status) {
      var to := if status == Pending then Processing else Rejected;
      assert Allowed(status, to);
    }
  }
}
