/** The polling settlement agent (agent/dist/agent.js). Every ten seconds it
    fetches the pending tips from the back end; for each tip, in order, it
    re-reads the pool balance and the minimum payout, and when the threshold
    is met it asks the Brain for recipients, reconfigures the contract and
    distributes, each write awaited to confirmation; in every case it then
    marks the tip processed. One try/catch surrounds the whole batch, so a
    failing call abandons the rest of the batch and the loop carries on.

    The specification is written as plans: the calls one tip makes when
    nothing fails (`TipPlan`), and the rule that a call that throws ends the
    batch after being attempted, with no effect (`RunPlan`). */
module SettlementAgent {
  import opened Optional
  import opened LedgerStore
  import opened Pool
  import Brain
  import AgentConfig

  /** The back end's tip statuses and the contract state. */
  datatype World = World(ledger: map<int, Status>, contract: Contract)

  /** The outcome of running calls against a world: the world after them,
      the calls attempted, and whether one of them threw. */
  datatype Outcome = Outcome(world: World, trace: seq<Call>, aborted: bool)

  /** `UPDATE tips SET status = 'processed' WHERE id = ?`, on the statuses:
      a tip that is not in the table is not created. */
  function Mark(ledger: map<int, Status>, id: int): (r: map<int, Status>)
    ensures r.Keys == ledger.Keys
    ensures id in ledger ==> r[id] == Processed
    ensures forall t | t in ledger && t != id :: r[t] == ledger[t]
  {
    if id in ledger then ledger[id := Processed] else ledger
  }

  /** The status column of the tips table keyed by tip id, which is how the
      agents see the ledger (a later row wins for a repeated id). */
  function Statuses(tips: seq<TipRow>): (r: map<int, Status>)
    ensures r.Keys == set i | 0 <= i < |tips| :: tips[i].id
  {
    if tips == [] then map[]
    else
      var n := |tips| - 1;
      var r := Statuses(tips[..n]);
      assert (set i | 0 <= i < |tips| :: tips[i].id) == r.Keys + {tips[n].id} by {
        forall i | 0 <= i < n ensures tips[..n][i] == tips[i] { }
      }
      r[tips[n].id := tips[n].status]
  }

  /** The store's UPDATE and the agents' `Mark` are the same statement: the
      statuses of the updated table are the marked statuses of the table. */
  lemma {:induction false} StatusesMarkRows(tips: seq<TipRow>, id: int)
    ensures Statuses(MarkRows(tips, id)) == Mark(Statuses(tips), id)
  {
    if tips != [] {
      var n := |tips| - 1;
      var r := MarkRows(tips, id);
      assert r[..n] == MarkRows(tips[..n], id);
      StatusesMarkRows(tips[..n], id);
    }
  }

  /** Marks each id in turn. */
  function MarkAll(ledger: map<int, Status>, ids: seq<int>): (r: map<int, Status>)
    ensures r.Keys == ledger.Keys
    ensures forall t | t in ledger && t !in ids :: r[t] == ledger[t]
    ensures forall t | t in ledger && t in ids :: r[t] == Processed
  {
    if ids == [] then ledger else Mark(MarkAll(ledger, ids[..|ids| - 1]), ids[|ids| - 1])
  }

  /** The effect of one successful call on the world. */
  function Effect(w: World, c: Call, leftover: nat): World
  {
    if c.MarkProcessed? then w.(ledger := Mark(w.ledger, c.id))
    else w.(contract := ContractEffect(w.contract, c, leftover))
  }

  /** The index of the failing call once `n` more calls have succeeded. */
  function Shift(fail: Option<nat>, n: nat): Option<nat>
  {
    if fail.Some? && fail.value >= n then Some(fail.value - n) else None
  }

  /** The outcome `o` preceded by the successful calls `calls`. */
  function After(calls: seq<Call>, o: Outcome): Outcome
  {
    Outcome(o.world, calls + o.trace, o.aborted)
  }

  /** The outcome `o` preceded by the successful call `c`. */
  function Then(c: Call, o: Outcome): Outcome
  {
    Outcome(o.world, [c] + o.trace, o.aborted)
  }

  /** A sequence of calls to be made in order. */
  datatype Plan = Done | Step(call: Call, rest: Plan)

  /** The calls a plan makes when none throws. */
  function Calls(plan: Plan): seq<Call>
  {
    match plan
    case Done => []
    case Step(c, rest) => [c] + Calls(rest)
  }

  /** Runs a plan in which the call at index `fail`, if there is one, throws:
      it is attempted, has no effect, and no later call is made. */
  function RunPlan(w: World, plan: Plan, fail: Option<nat>, leftover: nat): Outcome
    decreases plan
  {
    match plan
    case Done => Outcome(w, [], false)
    case Step(c, rest) =>
      if fail == Some(0) then Outcome(w, [c], true)
      else Then(c, RunPlan(Effect(w, c, leftover), rest, Shift(fail, 1), leftover))
  }

  /** The Brain's decision for the recipients currently in the contract. */
  function Decide(w: World, shuffle: Brain.Shuffle): Brain.Decision
  {
    Brain.DecideDistribution(w.contract.recipients, shuffle)
  }

  /** The calls of one tip when none fails: the two reads, then either the
      whole reconfigure-and-distribute sequence or nothing, then the mark. */
  function TipPlan(w: World, id: int, d: Brain.Decision): Plan
  {
    var mark := Step(MarkProcessed(id), Done);
    var pay := Step(GetRecipients, Step(SetRecipients(d.recipients, d.bps), Step(Distribute, mark)));
    Step(GetBalance, Step(MinPayout, if ThresholdMet(w.contract) then pay else mark))
  }

  /** A pending tip as the agent handles it: its id, the order in which the
      Brain's shuffle leaves the candidates if this tip reaches the Brain,
      and the pool balance its distribution, if any, leaves behind. */
  datatype Pending = Pending(id: int, draw: Brain.Shuffle, leftover: nat)

  /** One tip of the batch. */
  function TipRun(w: World, tip: Pending, fail: Option<nat>): Outcome
  {
    RunPlan(w, TipPlan(w, tip.id, Decide(w, tip.draw)), fail, tip.leftover)
  }

  /** What the environment does in one iteration of the poll loop. */
  datatype Fetch =
    | NetworkError            // fetch or response.json() throws
    | NotAList                // a JSON object: `.length` is undefined, so the batch is skipped
    | Tips(tips: seq<Pending>) // the pending tips, in the order returned

  /** One iteration's environment: the fetch result, and which call
      (counted after the fetch) throws if any. */
  datatype Round = Round(fetched: Fetch, failAt: Option<nat>)

  /** The tips of a batch, handled in order until one throws. */
  function Batch(w: World, tips: seq<Pending>, fail: Option<nat>): Outcome
  {
    if tips == [] then Outcome(w, [], false)
    else
      var done := Batch(w, tips[..|tips| - 1], fail);
      if done.aborted then done
      else After(done.trace, TipRun(done.world, tips[|tips| - 1], Shift(fail, |done.trace|)))
  }

  /** One iteration of the `while (true)` loop; `aborted` says whether the
      catch block ran. */
  function Poll(w: World, r: Round): Outcome
  {
    match r.fetched
    case NetworkError => Outcome(w, [FetchPending], true)
    case NotAList => Outcome(w, [FetchPending], false)
    case Tips(tips) =>
      var o := Batch(w, tips, r.failAt);
      Outcome(o.world, [FetchPending] + o.trace, o.aborted)
  }

  /** The first `|rounds|` iterations of the loop, whatever each ends in. */
  function Runs(w: World, rounds: seq<Round>): (World, seq<Call>)
  {
    if rounds == [] then (w, [])
    else
      var (before, calls) := Runs(w, rounds[..|rounds| - 1]);
      var o := Poll(before, rounds[|rounds| - 1]);
      (o.world, calls + o.trace)
  }


  lemma AppendAssoc(a: seq<Call>, b: seq<Call>, c: seq<Call>)
    ensures (a + b) + c == a + (b + c)
  {
  }

  lemma ShiftShift(fail: Option<nat>, a: nat, b: nat)
    ensures Shift(Shift(fail, a), b) == Shift(fail, a + b)
  {
  }

  /** The batch up to and including tip `k`, from the batch before it. */
  lemma BatchStep(w: World, tips: seq<Pending>, k: nat, fail: Option<nat>)
    requires k < |tips|
    ensures var done := Batch(w, tips[..k], fail);
            Batch(w, tips[..k + 1], fail)
            == if done.aborted then done else After(done.trace, TipRun(done.world, tips[k], Shift(fail, |done.trace|)))
  {
    assert tips[..k + 1][..k] == tips[..k];
  }

  /** Once a batch has been abandoned, the tips after the failing one make no
      difference. */
  lemma {:induction false} BatchAbortStable(w: World, tips: seq<Pending>, k: nat, fail: Option<nat>)
    requires k <= |tips| && Batch(w, tips[..k], fail).aborted
    ensures Batch(w, tips, fail) == Batch(w, tips[..k], fail)
    decreases |tips| - k
  {
    if k < |tips| {
      assert tips[..k + 1][..k] == tips[..k];
      BatchAbortStable(w, tips, k + 1, fail);
    } else {
      assert tips[..k] == tips;
    }
  }

  /** After the first `k` tips of the batch `tips`, run from world `w0`
      and trace `t0` with `fail0` the failing call, the agent is in world
      `w` with trace `t`, nothing has thrown, and `fail` is the failing call
      counted from the next one. */
  ghost predicate HandledFrom(w0: World, t0: seq<Call>, tips: seq<Pending>, k: nat, fail0: Option<nat>,
                              fail: Option<nat>, w: World, t: seq<Call>)
  {
    && k <= |tips|
    && var done := Batch(w0, tips[..k], fail0);
    && !done.aborted && w == done.world && t == t0 + done.trace
    && fail == Shift(fail0, |done.trace|)
  }

  /** World `w` and trace `t` are where the whole batch leaves the agent. */
  ghost predicate FinishedFrom(w0: World, t0: seq<Call>, tips: seq<Pending>, fail0: Option<nat>, caught: bool,
                               w: World, t: seq<Call>)
  {
    var o := Batch(w0, tips, fail0);
    w == o.world && t == t0 + o.trace && caught == o.aborted
  }

  /** Handling tip `k` without a throw extends the handled prefix by one
      tip. */
  lemma TipAdvances(w0: World, t0: seq<Call>, tips: seq<Pending>, k: nat, fail0: Option<nat>, fail: Option<nat>,
                    w: World, t: seq<Call>, o: Outcome)
    requires k < |tips| && HandledFrom(w0, t0, tips, k, fail0, fail, w, t)
    requires o == TipRun(w, tips[k], fail) && !o.aborted
    ensures HandledFrom(w0, t0, tips, k + 1, fail0, Shift(fail, |o.trace|), o.world, t + o.trace)
  {
    var done := Batch(w0, tips[..k], fail0);
    BatchStep(w0, tips, k, fail0);
    assert Batch(w0, tips[..k + 1], fail0) == After(done.trace, o);
    AppendAssoc(t0, done.trace, o.trace);
    ShiftShift(fail0, |done.trace|, |o.trace|);
  }

  /** A throw while handling tip `k` finishes the batch. */
  lemma TipAborts(w0: World, t0: seq<Call>, tips: seq<Pending>, k: nat, fail0: Option<nat>, fail: Option<nat>,
                  w: World, t: seq<Call>, o: Outcome)
    requires k < |tips| && HandledFrom(w0, t0, tips, k, fail0, fail, w, t)
    requires o == TipRun(w, tips[k], fail) && o.aborted
    ensures FinishedFrom(w0, t0, tips, fail0, true, o.world, t + o.trace)
  {
    var done := Batch(w0, tips[..k], fail0);
    BatchStep(w0, tips, k, fail0);
    assert Batch(w0, tips[..k + 1], fail0) == After(done.trace, o);
    AppendAssoc(t0, done.trace, o.trace);
    BatchAbortStable(w0, tips, k + 1, fail0);
  }

  /** The agent process: its view of the back end's ledger, the contract
      state and the calls it has made. */
  class Agent {
    var ledger: map<int, Status>
    var balance: nat
    var minPayout: nat
    var recipients: seq<Brain.Address>
    var bps: seq<nat>
    ghost var trace: seq<Call>

    function State(): World
      reads this
    {
      World(ledger, Contract(balance, minPayout, recipients, bps))
    }

    constructor (w: World)
      ensures State() == w && trace == []
    {
      ledger := w.ledger;
      balance, minPayout := w.contract.balance, w.contract.minPayout;
      recipients, bps := w.contract.recipients, w.contract.bps;
      trace := [];
    }

    /** Makes the first call of `plan`; it throws exactly when it is the
        failing one, and then has no effect. */
    method Perform(c: Call, ghost plan: Plan, fail: Option<nat>, leftover: nat) returns (ok: bool)
      requires plan.Step? && plan.call == c
      modifies this
      ensures ok <==> fail != Some(0)
      ensures trace == old(trace) + [c]
      ensures ok ==> State() == Effect(old(State()), c, leftover)
      ensures !ok ==> State() == old(State())
                      && RunPlan(old(State()), plan, fail, leftover) == Outcome(State(), [c], true)
      ensures ok ==> RunPlan(old(State()), plan, fail, leftover)
                     == Then(c, RunPlan(State(), plan.rest, Shift(fail, 1), leftover))
    {
      trace := trace + [c];
      if fail == Some(0) {
        return false;
      }
      ok := true;
      match c
      case SetRecipients(rs, bs) =>
        recipients, bps := rs, bs;
      case Distribute =>
        balance := leftover;
      case MarkProcessed(id) =>
        if id in ledger {
          ledger := ledger[id := Processed];
        }
      case _ =>
    }

    /** The threshold-met branch of one tip: read the recipients, ask the
        Brain, reconfigure the contract; then distribute and mark the tip. */
    method Reconfigure(tip: Pending, ghost plan: Plan, fail: Option<nat>) returns (ok: bool, made: nat)
      requires plan == Step(GetRecipients, Step(SetRecipients(Decide(State(), tip.draw).recipients, Decide(State(), tip.draw).bps),
                        Step(Distribute, Step(MarkProcessed(tip.id), Done))))
      modifies this
      ensures var o := RunPlan(old(State()), plan, fail, tip.leftover);
              && State() == o.world && trace == old(trace) + o.trace
              && ok == !o.aborted && made == |o.trace|
    {
      var ok1 := Perform(GetRecipients, plan, fail, tip.leftover);
      if !ok1 {
        return false, 1;
      }
      var current := recipients;
      var decision := Brain.DecideDistribution(current, tip.draw);
      var ok2 := Perform(SetRecipients(decision.recipients, decision.bps), plan.rest, Shift(fail, 1), tip.leftover);
      if !ok2 {
        return false, 2;
      }
      var n;
      ok, n := Settle(tip, plan.rest.rest, Shift(fail, 2));
      made := n + 2;
    }

    /** The end of the threshold-met branch: `distribute()`, awaited, then
        the mark. */
    method Settle(tip: Pending, ghost plan: Plan, fail: Option<nat>) returns (ok: bool, made: nat)
      requires plan == Step(Distribute, Step(MarkProcessed(tip.id), Done))
      modifies this
      ensures var o := RunPlan(old(State()), plan, fail, tip.leftover);
              && State() == o.world && trace == old(trace) + o.trace
              && ok == !o.aborted && made == |o.trace|
    {
      var ok1 := Perform(Distribute, plan, fail, tip.leftover);
      if !ok1 {
        return false, 1;
      }
      ok := Perform(MarkProcessed(tip.id), plan.rest, Shift(fail, 1), tip.leftover);
      made := 2;
    }

    /** The two reads that open a tip's handling: `getBalance()` then
        `minPayout()`. Reads change nothing, so on success the agent holds
        the values it read. */
    method ReadThreshold(ghost plan: Plan, fail: Option<nat>, leftover: nat) returns (ok: bool, made: nat, bal: nat, min: nat)
      requires plan.Step? && plan.call == GetBalance && plan.rest.Step? && plan.rest.call == MinPayout
      modifies this
      ensures var o := RunPlan(old(State()), plan, fail, leftover);
              && (!ok ==> State() == o.world && trace == old(trace) + o.trace && o.aborted && made == |o.trace|)
              && (ok ==> && State() == old(State()) && trace == old(trace) + [GetBalance, MinPayout] && made == 2
                         && o == After([GetBalance, MinPayout], RunPlan(State(), plan.rest.rest, Shift(fail, 2), leftover)))
      ensures ok ==> bal == balance && min == minPayout
    {
      var ok1 := Perform(GetBalance, plan, fail, leftover);
      if !ok1 {
        return false, 1, 0, 0;
      }
      bal := balance;
      ok := Perform(MinPayout, plan.rest, Shift(fail, 1), leftover);
      made := 2;
      min := minPayout;
    }

    /** The body of `for (const tip of pendingTips)` for one tip. `made` is
        the number of calls attempted. */
    method ProcessTip(tip: Pending, fail: Option<nat>) returns (ok: bool, made: nat)
      modifies this
      ensures var o := TipRun(old(State()), tip, fail);
              && State() == o.world && trace == old(trace) + o.trace
              && ok == !o.aborted && made == |o.trace|
    {
      ghost var plan := TipPlan(State(), tip.id, Decide(State(), tip.draw));
      var bal, min;
      ok, made, bal, min := ReadThreshold(plan, fail, tip.leftover);
      if !ok {
        return;
      }
      var n;
      if bal >= min {
        ok, n := Reconfigure(tip, plan.rest.rest, Shift(fail, 2));
      } else {
        ok := Perform(MarkProcessed(tip.id), plan.rest.rest, Shift(fail, 2), tip.leftover);
        n := 1;
      }
      made := n + 2;
    }

    /** One iteration of the poll loop, up to the ten-second pause; `caught`
        says whether the catch block ran. */
    method PollOnce(r: Round) returns (caught: bool)
      modifies this
      ensures var o := Poll(old(State()), r);
              && State() == o.world && trace == old(trace) + o.trace && caught == o.aborted
    {
      trace := trace + [FetchPending];
      match r.fetched
      case NetworkError =>
        return true;
      case NotAList =>
        return false;
      case Tips(tips) =>
        if |tips| == 0 {
          return false;
        }
        caught := RunBatch(tips, r.failAt);
    }

    /** The agent has handled the first `k` tips of the batch `tips`,
        started from world `w0` and trace `t0` with `fail0` the failing call,
        without a throw; `fail` is the failing call counted from the next
        one. */
    ghost predicate Handled(w0: World, t0: seq<Call>, tips: seq<Pending>, k: nat, fail0: Option<nat>, fail: Option<nat>)
      reads this
    {
      HandledFrom(w0, t0, tips, k, fail0, fail, State(), trace)
    }

    /** The agent is where the whole batch `tips` leaves it. */
    ghost predicate Finished(w0: World, t0: seq<Call>, tips: seq<Pending>, fail0: Option<nat>, caught: bool)
      reads this
    {
      FinishedFrom(w0, t0, tips, fail0, caught, State(), trace)
    }

    /** The next tip of the batch. */
    method NextTip(ghost w0: World, ghost t0: seq<Call>, tips: seq<Pending>, k: nat, ghost fail0: Option<nat>, fail: Option<nat>)
      returns (ok: bool, fail': Option<nat>)
      requires k < |tips| && Handled(w0, t0, tips, k, fail0, fail)
      modifies this
      ensures ok ==> Handled(w0, t0, tips, k + 1, fail0, fail')
      ensures !ok ==> Finished(w0, t0, tips, fail0, true)
    {
      ghost var o := TipRun(State(), tips[k], fail);
      if o.aborted {
        TipAborts(w0, t0, tips, k, fail0, fail, State(), trace, o);
      } else {
        TipAdvances(w0, t0, tips, k, fail0, fail, State(), trace, o);
      }
      var made;
      ok, made := ProcessTip(tips[k], fail);
      fail' := Shift(fail, made);
    }

    /** `for (const tip of pendingTips)` inside the try block: the first tip
        whose handling throws ends the batch. */
    method RunBatch(tips: seq<Pending>, failAt: Option<nat>) returns (caught: bool)
      modifies this
      ensures Finished(old(State()), old(trace), tips, failAt, caught)
    {
      ghost var w0 := State();
      ghost var t0 := trace;
      var fail := failAt;
      for k := 0 to |tips|
        invariant Handled(w0, t0, tips, k, failAt, fail)
      {
        var ok;
        ok, fail := NextTip(w0, t0, tips, k, failAt, fail);
        if !ok {
          return true;
        }
      }
      assert tips[..|tips|] == tips;
      return false;
    }

    /** The first `|rounds|` iterations of `while (true)`: an iteration whose
        batch was abandoned is followed by the next one all the same. */
    method Run(rounds: seq<Round>)
      modifies this
      ensures State() == Runs(old(State()), rounds).0
      ensures trace == old(trace) + Runs(old(State()), rounds).1
    {
      ghost var w0 := State();
      ghost var t0 := trace;
      for i := 0 to |rounds|
        invariant State() == Runs(w0, rounds[..i]).0
        invariant trace == t0 + Runs(w0, rounds[..i]).1
      {
        assert rounds[..i + 1][..i] == rounds[..i];
        var _ := PollOnce(rounds[i]);
      }
      assert rounds[..|rounds|] == rounds;
    }

    /** `main`: the start-up checks, the wallet, then the loop. `keyAccepted`
        is whether `new ethers.Wallet` accepts the private key; when it
        throws, `main` rejects and its handler sets exit code 1 before any
        call. `exitCode` is the status the process exits with, or `None`
        while it keeps polling. */
    method Launch(env: AgentConfig.Env, keyAccepted: bool, rounds: seq<Round>) returns (exitCode: Option<nat>)
      modifies this
      ensures (AgentConfig.Start(env).Exit? || !keyAccepted) ==>
                exitCode == Some(1) && State() == old(State()) && trace == old(trace)
      ensures AgentConfig.Start(env).Ready? && keyAccepted ==>
                && exitCode == None
                && State() == Runs(old(State()), rounds).0
                && trace == old(trace) + Runs(old(State()), rounds).1
    {
      var startup := AgentConfig.Start(env);
      if startup.Exit? {
        return Some(startup.code);
      }
      if !keyAccepted {
        return Some(1);
      }
      Run(rounds);
      exitCode := None;
    }
  }
}
