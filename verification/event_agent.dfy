/** The event-driven agent (agent/src/agent.ts). After the same start-up
    checks as the polling agent it registers a `TipReceived` listener; on
    each event the listener reads the pool balance and the minimum payout
    and, when the threshold is met, calls `distribute()` and waits for it.
    It never touches the recipients or the back end, and its own try/catch
    swallows any failure. Events are handled one at a time. */
module EventAgent {
  import opened Optional
  import opened Pool
  import Brain
  import AgentConfig

  /** What one event leads to: the contract afterwards, the calls
      attempted, and whether the catch block ran. */
  datatype Reaction = Reaction(contract: Contract, trace: seq<Call>, caught: bool)

  /** One `TipReceived` event when the call at index `fail`, if any, throws
      (it is attempted and has no effect), and `leftover` is what a
      distribution leaves in the pool. */
  function Handle(c: Contract, fail: Option<nat>, leftover: nat): (r: Reaction)
    ensures multiset(r.trace)[Distribute] <= 1
    ensures Distribute in r.trace ==> ThresholdMet(c)
    ensures fail == None ==> !r.caught && (Distribute in r.trace <==> c.balance >= c.minPayout)
    ensures forall x | x in r.trace :: !x.GetRecipients? && !x.SetRecipients? && !x.MarkProcessed? && !x.FetchPending?
    ensures r.contract.recipients == c.recipients && r.contract.bps == c.bps && r.contract.minPayout == c.minPayout
    ensures r.contract.balance != c.balance ==> !r.caught && ThresholdMet(c) && r.contract.balance == leftover
  {
    if fail == Some(0) then Reaction(c, [GetBalance], true)
    else if fail == Some(1) then Reaction(c, [GetBalance, MinPayout], true)
    else if !ThresholdMet(c) then Reaction(c, [GetBalance, MinPayout], false)
    else if fail == Some(2) then Reaction(c, [GetBalance, MinPayout, Distribute], true)
    else Reaction(c.(balance := leftover), [GetBalance, MinPayout, Distribute], false)
  }

  /** The listening agent: the contract state it sees, whether its
      listeners are registered, and the calls it has made. */
  class Listener {
    var balance: nat
    var minPayout: nat
    var recipients: seq<Brain.Address>
    var bps: seq<nat>
    var listening: bool
    ghost var trace: seq<Call>

    function State(): Contract
      reads this
    {
      Contract(balance, minPayout, recipients, bps)
    }

    constructor (c: Contract)
      ensures State() == c && !listening && trace == []
    {
      balance, minPayout := c.balance, c.minPayout;
      recipients, bps := c.recipients, c.bps;
      listening := false;
      trace := [];
    }

    /** `main`: the start-up checks, the wallet, then the registration of
        the listeners. `keyAccepted` is whether `new ethers.Wallet` accepts
        the private key; when it throws, `main` rejects and its handler sets
        exit code 1 before any listener is registered. `exitCode` is the
        status the process exits with, or `None` once it is listening. */
    method Launch(env: AgentConfig.Env, keyAccepted: bool) returns (exitCode: Option<nat>)
      modifies this
      ensures (AgentConfig.Start(env).Exit? || !keyAccepted) ==> exitCode == Some(1) && listening == old(listening)
      ensures AgentConfig.Start(env).Ready? && keyAccepted ==> exitCode == None && listening
      ensures State() == old(State()) && trace == old(trace)
    {
      var startup := AgentConfig.Start(env);
      if startup.Exit? {
        return Some(startup.code);
      }
      if !keyAccepted {
        return Some(1);
      }
      listening := true;
      exitCode := None;
    }

    /** The `TipReceived` listener, which runs only once `Launch` has
        registered it. The sender and amount of the event are only logged,
        so they are not parameters. The failure is caught here
        and the agent keeps listening. */
    method OnTipReceived(fail: Option<nat>, leftover: nat) returns (caught: bool)
      requires listening
      modifies this
      ensures var r := Handle(old(State()), fail, leftover);
              && State() == r.contract && trace == old(trace) + r.trace && caught == r.caught
      ensures listening == old(listening)
    {
      trace := trace + [GetBalance];
      if fail == Some(0) {
        return true;
      }
      var bal := balance;
      trace := trace + [MinPayout];
      if fail == Some(1) {
        return true;
      }
      var min := minPayout;
      if bal >= min {
        trace := trace + [Distribute];
        if fail == Some(2) {
          return true;
        }
        balance := leftover;
      }
      caught := false;
    }
  }
}
