/** What the polling agent of agent/dist/agent.js guarantees about the calls
    it makes and the tips it marks, stated over the specification functions
    of `SettlementAgent` (which the `Agent` class is proved to follow). */
module AgentProperties {
  import opened Optional
  import opened LedgerStore
  import opened Pool
  import opened SettlementAgent
  import Brain

  /** The world after `calls` have all succeeded, in order. */
  function Replay(w: World, calls: seq<Call>, leftover: nat): World
    decreases |calls|
  {
    if calls == [] then w else Replay(Effect(w, calls[0], leftover), calls[1..], leftover)
  }

  /** A plan run with a failing call attempts a prefix of its calls: all of
      them when the failing index is past its end, and otherwise exactly
      those up to and including the failing one, whose predecessors alone
      take effect. */
  lemma {:induction false} RunPlanPrefix(w: World, plan: Plan, fail: Option<nat>, leftover: nat)
    ensures var o := RunPlan(w, plan, fail, leftover);
            var calls := Calls(plan);
            && (o.aborted <==> fail.Some? && fail.value < |calls|)
            && (o.aborted ==> && o.trace == calls[..fail.value + 1]
                              && o.world == Replay(w, calls[..fail.value], leftover))
            && (!o.aborted ==> o.trace == calls && o.world == Replay(w, calls, leftover))
    decreases plan
  {
    match plan
    case Done =>
    case Step(c, rest) =>
      var calls := Calls(plan);
      if fail == Some(0) {
        assert calls[..0] == [];
        assert calls[..1] == [c];
      } else {
        var w' := Effect(w, c, leftover);
        RunPlanPrefix(w', rest, Shift(fail, 1), leftover);
        assert calls[1..] == Calls(rest);
        if fail.Some? && fail.value < |calls| {
          var n := fail.value;
          assert calls[..n + 1] == [c] + Calls(rest)[..n];
          assert calls[..n][1..] == Calls(rest)[..n - 1];
        }
      }
  }

  /** The calls of a tip whose balance has reached the minimum payout. */
  function PayCalls(id: int, d: Brain.Decision): seq<Call>
  {
    [GetBalance, MinPayout, GetRecipients, SetRecipients(d.recipients, d.bps), Distribute, MarkProcessed(id)]
  }

  /** The calls of a tip below the threshold. */
  function SkipCalls(id: int): seq<Call>
  {
    [GetBalance, MinPayout, MarkProcessed(id)]
  }

  /** When the threshold is met and nothing throws, the tip makes the six
      calls in order, `setRecipients` gets the Brain's decision for the
      recipients the contract holds, and afterwards the contract holds that
      decision and the pool holds what the distribution left behind. */
  lemma ThresholdMetProtocol(w: World, tip: Pending)
    requires ThresholdMet(w.contract)
    ensures var o := TipRun(w, tip, None);
            var d := Brain.DecideDistribution(w.contract.recipients, tip.draw);
            && !o.aborted
            && o.trace == PayCalls(tip.id, d)
            && o.world.contract == Contract(tip.leftover, w.contract.minPayout, d.recipients, d.bps)
            && o.world.ledger == Mark(w.ledger, tip.id)
  {
    var d := Decide(w, tip.draw);
    var l := tip.leftover;
    var chosen := w.(contract := w.contract.(recipients := d.recipients, bps := d.bps));
    var paid := chosen.(contract := chosen.contract.(balance := l));
    var marked := paid.(ledger := Mark(w.ledger, tip.id));
    var mark := Step(MarkProcessed(tip.id), Done);
    assert RunPlan(marked, Done, None, l) == Outcome(marked, [], false);
    assert RunPlan(paid, mark, None, l) == Outcome(marked, [MarkProcessed(tip.id)], false);
    var pay := Step(Distribute, mark);
    assert RunPlan(chosen, pay, None, l) == Then(Distribute, RunPlan(paid, mark, None, l));
    var write := Step(SetRecipients(d.recipients, d.bps), pay);
    assert RunPlan(w, write, None, l) == Then(SetRecipients(d.recipients, d.bps), RunPlan(chosen, pay, None, l));
    var read := Step(GetRecipients, write);
    assert RunPlan(w, read, None, l) == Then(GetRecipients, RunPlan(w, write, None, l));
    var min := Step(MinPayout, read);
    assert RunPlan(w, min, None, l) == Then(MinPayout, RunPlan(w, read, None, l));
    assert RunPlan(w, Step(GetBalance, min), None, l) == Then(GetBalance, RunPlan(w, min, None, l));
  }

  /** Below the threshold and with nothing thrown, the tip is read and
      marked, and the contract is left alone. */
  lemma BelowThresholdProtocol(w: World, tip: Pending)
    requires !ThresholdMet(w.contract)
    ensures var o := TipRun(w, tip, None);
            && !o.aborted
            && o.trace == SkipCalls(tip.id)
            && o.world == w.(ledger := Mark(w.ledger, tip.id))
  {
    var l := tip.leftover;
    var marked := w.(ledger := Mark(w.ledger, tip.id));
    var mark := Step(MarkProcessed(tip.id), Done);
    assert RunPlan(marked, Done, None, l) == Outcome(marked, [], false);
    assert RunPlan(w, mark, None, l) == Outcome(marked, [MarkProcessed(tip.id)], false);
    var min := Step(MinPayout, mark);
    assert RunPlan(w, min, None, l) == Then(MinPayout, RunPlan(w, mark, None, l));
    assert RunPlan(w, Step(GetBalance, min), None, l) == Then(GetBalance, RunPlan(w, min, None, l));
  }

  /** Calls that write neither recipients nor balance leave the contract
      alone. */
  lemma {:induction false} ReplayKeepsContract(w: World, calls: seq<Call>, leftover: nat)
    requires forall c | c in calls :: !c.SetRecipients? && !c.Distribute?
    ensures Replay(w, calls, leftover).contract == w.contract
    decreases |calls|
  {
    if calls != [] {
      assert calls[0] in calls;
      assert forall c | c in calls[1..] :: c in calls;
      ReplayKeepsContract(Effect(w, calls[0], leftover), calls[1..], leftover);
    }
  }

  /** Calls that mark nothing leave the tip statuses alone. */
  lemma {:induction false} ReplayKeepsLedger(w: World, calls: seq<Call>, leftover: nat)
    requires forall c | c in calls :: !c.MarkProcessed?
    ensures Replay(w, calls, leftover).ledger == w.ledger
    decreases |calls|
  {
    if calls != [] {
      assert calls[0] in calls;
      assert forall c | c in calls[1..] :: c in calls;
      ReplayKeepsLedger(Effect(w, calls[0], leftover), calls[1..], leftover);
    }
  }

  /** The calls a tip's plan makes, by the threshold. */
  lemma TipCalls(w: World, tip: Pending)
    ensures var calls := Calls(TipPlan(w, tip.id, Decide(w, tip.draw)));
            && (ThresholdMet(w.contract) ==> calls == PayCalls(tip.id, Decide(w, tip.draw)))
            && (!ThresholdMet(w.contract) ==> calls == SkipCalls(tip.id))
  {
    RunPlanPrefix(w, TipPlan(w, tip.id, Decide(w, tip.draw)), None, tip.leftover);
    if ThresholdMet(w.contract) {
      ThresholdMetProtocol(w, tip);
    } else {
      BelowThresholdProtocol(w, tip);
    }
  }

  /** The threshold is inclusive: with nothing thrown, a tip distributes
      exactly when the balance is at least the minimum payout. */
  lemma InclusiveThreshold(w: World, tip: Pending)
    ensures Distribute in TipRun(w, tip, None).trace <==> w.contract.balance >= w.contract.minPayout
  {
    if ThresholdMet(w.contract) {
      ThresholdMetProtocol(w, tip);
      assert PayCalls(tip.id, Decide(w, tip.draw))[4] == Distribute;
    } else {
      BelowThresholdProtocol(w, tip);
    }
  }

  /** Below the threshold, whichever call throws, a tip neither reads the
      recipients nor writes the contract. */
  lemma BelowThresholdSkipsWrites(w: World, tip: Pending, fail: Option<nat>)
    requires !ThresholdMet(w.contract)
    ensures var o := TipRun(w, tip, fail);
            && (forall c | c in o.trace :: !c.GetRecipients? && !c.SetRecipients? && !c.Distribute?)
            && o.world.contract == w.contract
  {
    var plan := TipPlan(w, tip.id, Decide(w, tip.draw));
    RunPlanPrefix(w, plan, fail, tip.leftover);
    TipCalls(w, tip);
    var calls := SkipCalls(tip.id);
    var o := TipRun(w, tip, fail);
    assert forall c | c in o.trace :: c in calls;
    var applied := if o.aborted then calls[..fail.value] else calls;
    assert forall c | c in applied :: c in calls;
    ReplayKeepsContract(w, applied, tip.leftover);
  }

  /** A tip is marked processed exactly when its handling did not throw: the
      mark is its last call, so a throw at any call leaves the statuses as
      they were. */
  lemma TipMarksOnSuccess(w: World, tip: Pending, fail: Option<nat>)
    ensures var o := TipRun(w, tip, fail);
            && (o.aborted ==> o.world.ledger == w.ledger)
            && (!o.aborted ==> o.world.ledger == Mark(w.ledger, tip.id))
  {
    var plan := TipPlan(w, tip.id, Decide(w, tip.draw));
    RunPlanPrefix(w, plan, fail, tip.leftover);
    RunPlanPrefix(w, plan, None, tip.leftover);
    TipCalls(w, tip);
    if ThresholdMet(w.contract) {
      ThresholdMetProtocol(w, tip);
    } else {
      BelowThresholdProtocol(w, tip);
    }
    var calls := Calls(plan);
    var o := TipRun(w, tip, fail);
    if o.aborted {
      var applied := calls[..fail.value];
      assert forall i | 0 <= i < |calls| - 1 :: !calls[i].MarkProcessed?;
      assert forall c | c in applied :: !c.MarkProcessed?;
      ReplayKeepsLedger(w, applied, tip.leftover);
    }
  }

  /** The ids of a batch's tips, in order. */
  function Ids(tips: seq<Pending>): seq<int>
  {
    seq(|tips|, i requires 0 <= i < |tips| => tips[i].id)
  }

  /** A batch that runs to its end has marked every one of its tips and
      only those; with no failing call it always runs to its end. */
  lemma {:induction false} BatchMarksAll(w: World, tips: seq<Pending>, fail: Option<nat>)
    ensures var o := Batch(w, tips, fail);
            && (fail == None ==> !o.aborted)
            && (!o.aborted ==> o.world.ledger == MarkAll(w.ledger, Ids(tips)))
    decreases |tips|
  {
    if tips != [] {
      var front := tips[..|tips| - 1];
      BatchMarksAll(w, front, fail);
      var done := Batch(w, front, fail);
      if !done.aborted {
        var last := tips[|tips| - 1];
        TipMarksOnSuccess(done.world, last, Shift(fail, |done.trace|));
        if fail == None {
          var o := TipRun(done.world, last, None);
          RunPlanPrefix(done.world, TipPlan(done.world, last.id, Decide(done.world, last.draw)), None, last.leftover);
        }
        assert Ids(tips)[..|tips| - 1] == Ids(front);
      }
    }
  }

  /** When tip `k` is the one whose handling throws, the catch block is
      reached with the tips before it marked processed and every other tip,
      tip `k` included, as it was. */
  lemma AbortKeepsRestPending(w: World, tips: seq<Pending>, fail: Option<nat>, k: nat)
    requires k < |tips|
    requires !Batch(w, tips[..k], fail).aborted && Batch(w, tips[..k + 1], fail).aborted
    ensures var o := Batch(w, tips, fail);
            && o.aborted
            && o.world.ledger == MarkAll(w.ledger, Ids(tips[..k]))
            && (forall t | t in w.ledger && t !in Ids(tips[..k]) :: o.world.ledger[t] == w.ledger[t])
  {
    BatchAbortStable(w, tips, k + 1, fail);
    BatchStep(w, tips, k, fail);
    BatchMarksAll(w, tips[..k], fail);
    var done := Batch(w, tips[..k], fail);
    TipMarksOnSuccess(done.world, tips[k], Shift(fail, |done.trace|));
  }

  /** Every abandoned batch was abandoned at some tip: `k` is the tip
      whose handling threw. */
  lemma AbortedAtSomeTip(w: World, tips: seq<Pending>, fail: Option<nat>) returns (k: nat)
    requires Batch(w, tips, fail).aborted
    ensures k < |tips| && !Batch(w, tips[..k], fail).aborted && Batch(w, tips[..k + 1], fail).aborted
  {
    assert tips[..|tips|] == tips;
    k := AbortPoint(w, tips, |tips|, fail);
  }

  /** The abort point within the first `n` tips. */
  lemma {:induction false} AbortPoint(w: World, tips: seq<Pending>, n: nat, fail: Option<nat>) returns (k: nat)
    requires n <= |tips| && Batch(w, tips[..n], fail).aborted
    ensures k < n && !Batch(w, tips[..k], fail).aborted && Batch(w, tips[..k + 1], fail).aborted
    decreases n
  {
    assert tips[..n][..n - 1] == tips[..n - 1];
    if Batch(w, tips[..n - 1], fail).aborted {
      k := AbortPoint(w, tips, n - 1, fail);
    } else {
      k := n - 1;
    }
  }

  /** Balance and minimum payout are read afresh for every tip: after a
      distribution that leaves the pool below the minimum payout, the next
      tip of the same batch is only read and marked. */
  lemma DrainedBatch(w: World, first: Pending, second: Pending)
    requires ThresholdMet(w.contract) && first.leftover < w.contract.minPayout
    ensures var o := Batch(w, [first, second], None);
            && !o.aborted
            && o.trace == PayCalls(first.id, Decide(w, first.draw)) + SkipCalls(second.id)
  {
    ThresholdMetProtocol(w, first);
    var o1 := TipRun(w, first, None);
    BelowThresholdProtocol(o1.world, second);
    assert [first][..0] == [];
    assert Batch(w, [], None) == Outcome(w, [], false);
    var once := Batch(w, [first], None);
    assert once == Outcome(o1.world, [] + o1.trace, false);
    assert [first, second][..1] == [first];
    assert Batch(w, [first, second], None) == After(once.trace, TipRun(once.world, second, None));
  }

  /** A round with no tips, whether the list is empty, the reply is not a
      list, or the fetch throws, makes no contract call and no ledger
      write. */
  lemma IdleRound(w: World, r: Round)
    requires r.fetched.NetworkError? || r.fetched.NotAList? || r.fetched == Tips([])
    ensures Poll(w, r).world == w && Poll(w, r).trace == [FetchPending]
  {
  }

  /** A batch behaves as one plan: it is abandoned only at the failing
      call, which is then the last call attempted, and a batch that runs to
      its end made no more calls than precede the failing index. */
  lemma {:induction false} BatchFailIndex(w: World, tips: seq<Pending>, fail: Option<nat>)
    ensures var o := Batch(w, tips, fail);
            && (o.aborted ==> fail.Some? && |o.trace| == fail.value + 1)
            && (!o.aborted ==> fail.None? || |o.trace| <= fail.value)
  {
    if tips != [] {
      var done := Batch(w, tips[..|tips| - 1], fail);
      BatchFailIndex(w, tips[..|tips| - 1], fail);
      if !done.aborted {
        var tip := tips[|tips| - 1];
        RunPlanPrefix(done.world, TipPlan(done.world, tip.id, Decide(done.world, tip.draw)),
                      Shift(fail, |done.trace|), tip.leftover);
      }
    }
  }

  /** Every iteration starts with the fetch. It reaches the catch block
      exactly when the fetch throws or a call of the batch does, the
      failing one being the last call made. */
  lemma PollFailIndex(w: World, r: Round)
    ensures var o := Poll(w, r);
            && |o.trace| >= 1 && o.trace[0] == FetchPending
            && (o.aborted <==> r.fetched.NetworkError? || (r.fetched.Tips? && r.failAt.Some? && |o.trace| == r.failAt.value + 2))
  {
    if r.fetched.Tips? {
      BatchFailIndex(w, r.fetched.tips, r.failAt);
    }
  }

  /** The loop never stops: each iteration makes at least one call, and the
      first is always a fetch. */
  lemma {:induction false} RunsFetchFirst(w: World, rounds: seq<Round>)
    ensures |Runs(w, rounds).1| >= |rounds|
    ensures rounds != [] ==> Runs(w, rounds).1[0] == FetchPending
  {
    if rounds != [] {
      var n := |rounds| - 1;
      RunsFetchFirst(w, rounds[..n]);
      PollFailIndex(Runs(w, rounds[..n]).0, rounds[n]);
    }
  }
  /** Whatever a round ended in, the catch block included, the loop goes on:
      the calls made so far are kept and the next round starts with a fresh
      fetch. */
  lemma AbortedRoundContinues(w: World, rounds: seq<Round>, next: Round)
    ensures var before := Runs(w, rounds).1;
            var after := Runs(w, rounds + [next]).1;
            |after| > |before| && after[..|before|] == before && after[|before|] == FetchPending
  {
    assert (rounds + [next])[..|rounds|] == rounds;
    var o := Poll(Runs(w, rounds).0, next);
    assert o.trace[0] == FetchPending;
  }
}
