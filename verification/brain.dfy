/** The decision stub of the settlement agent (agent/dist/Brain.js): it picks
    two of three hard-coded candidate addresses and splits the payout 50/50.
    The random shuffle is an input: any ordering of the candidates. */
module Brain {
  import opened Text

  /** An account address: the 160-bit number that the checksummed hex
      string of the source denotes. */
  type Address = nat

  const Alice: Address := 0x70997970C51812dc3A010C7d01b50e0d17dc79C8
  const Bob: Address := 0x3C44CdDdB6a900fa2b585dd299e03d12FA4293BC
  const Charlie: Address := 0x90F79bf6EB2c4f870365E785982E1f101E93b906

  /** The candidate list the stub builds afresh on every call. */
  const MockUsers: seq<Address> := [Alice, Bob, Charlie]

  /** What `sort(() => 0.5 - Math.random())` can leave behind: some ordering
      of the candidates. */
  type Shuffle = s: seq<Address> | multiset(s) == multiset(MockUsers) witness MockUsers

  /** The decision forwarded verbatim to `setRecipients`; the rationale
      records the winner count that the message reports. */
  datatype Decision = Decision(recipients: seq<Address>, bps: seq<nat>, reasoning: Rationale)

  datatype Rationale = Selected(contributors: nat)

  function SumBps(bps: seq<nat>): nat
  {
    if bps == [] then 0 else bps[0] + SumBps(bps[1..])
  }

  /** The rationale message built from the number of winners. */
  function Message(r: Rationale): string
  {
    "Selected " + Decimal(r.contributors) + " active contributors based on recent activity logs."
  }

  /** `Brain.decideDistribution`: the first two candidates of the shuffle,
      5000 basis points each. */
  function DecideDistribution(currentRecipients: seq<Address>, shuffled: Shuffle): (d: Decision)
    ensures |d.recipients| == 2 && d.recipients[0] != d.recipients[1]
    ensures forall a | a in d.recipients :: a in MockUsers
    ensures |d.bps| == |d.recipients| && SumBps(d.bps) == 10000
    ensures forall i | 0 <= i < |d.bps| :: d.bps[i] == 5000
    ensures d.reasoning == Selected(2)
  {
    ShuffleShape(shuffled);
    var winners := shuffled[..2];
    Decision(winners, [5000, 5000], Selected(|winners|))
  }

  /** A shuffle holds each of the three distinct candidates exactly once. */
  lemma ShuffleShape(s: Shuffle)
    ensures |s| == 3
    ensures s[0] != s[1] && s[0] != s[2] && s[1] != s[2]
    ensures forall a | a in s :: a in MockUsers
  {
    var m := multiset(MockUsers);
    assert |m| == 3;
    assert |s| == |multiset(s)| == 3;
    assert s == [s[0], s[1], s[2]];
    forall a | a in s ensures a in MockUsers {
      assert a in multiset(s);
    }
    assert m[Alice] == 1 && m[Bob] == 1 && m[Charlie] == 1;
  }

  /** With two winners the rationale reads "Selected 2 active contributors ...". */
  lemma ReasoningNamesTwo(current: seq<Address>, s: Shuffle)
    ensures Message(DecideDistribution(current, s).reasoning)
            == "Selected " + "2" + " active contributors based on recent activity logs."
  {
    assert Decimal(2) == "2";
  }

  /** The current recipients read from the contract play no part in the decision. */
  lemma IgnoresCurrentRecipients(c1: seq<Address>, c2: seq<Address>, s: Shuffle)
    ensures DecideDistribution(c1, s) == DecideDistribution(c2, s)
  {
  }

  /** Every ordered pair of distinct candidates is a possible decision. */
  lemma EveryPairPossible(a: Address, b: Address, current: seq<Address>)
    requires a in MockUsers && b in MockUsers && a != b
    ensures exists s: Shuffle :: DecideDistribution(current, s).recipients == [a, b]
  {
    var c := if a != Alice && b != Alice then Alice else if a != Bob && b != Bob then Bob else Charlie;
    ArrangementIsShuffle(a, b, c);
    var s: Shuffle := [a, b, c];
    assert s[..2] == [a, b];
    assert DecideDistribution(current, s).recipients == [a, b];
  }

  /** Any arrangement of the three candidates is a shuffle. */
  lemma ArrangementIsShuffle(x: Address, y: Address, z: Address)
    requires x in MockUsers && y in MockUsers && z in MockUsers
    requires x != y && x != z && y != z
    ensures multiset([x, y, z]) == multiset(MockUsers)
  {
    if x == Alice && y == Bob {
      assert [x, y, z] == MockUsers;
    } else if x == Alice {
      assert [x, y, z] == [Alice, Charlie, Bob];
      SwapLast(Alice, Bob, Charlie);
    } else if x == Bob && y == Alice {
      assert [x, y, z] == [Bob, Alice, Charlie];
      SwapFirst(Alice, Bob, Charlie);
    } else if x == Bob {
      assert [x, y, z] == [Bob, Charlie, Alice];
      SwapFirst(Alice, Bob, Charlie);
      SwapLast(Bob, Alice, Charlie);
    } else if y == Alice {
      assert [x, y, z] == [Charlie, Alice, Bob];
      SwapLast(Alice, Bob, Charlie);
      SwapFirst(Alice, Charlie, Bob);
    } else {
      assert [x, y, z] == [Charlie, Bob, Alice];
      SwapLast(Alice, Bob, Charlie);
      SwapFirst(Alice, Charlie, Bob);
      SwapLast(Charlie, Alice, Bob);
    }
  }

  lemma SwapFirst(x: Address, y: Address, z: Address)
    ensures multiset([x, y, z]) == multiset([y, x, z])
  {
  }

  lemma SwapLast(x: Address, y: Address, z: Address)
    ensures multiset([x, y, z]) == multiset([x, z, y])
  {
  }
}
