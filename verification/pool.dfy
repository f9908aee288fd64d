/** What the agents see of their collaborators: the calls they make to the
    ledger back end and to the TipPool contract, and the part of the
    contract's state those calls read and write. The contract's own code is
    not part of this model, so the pool balance a confirmed `distribute()`
    leaves behind is a parameter. */
module Pool {
  import Brain

  /** Every collaborator call the agents make, in the words of the code:
      the two back-end requests and the contract functions of the ABI. */
  datatype Call =
    | FetchPending                                       // GET {BACKEND_URL}/tips/pending
    | GetBalance                                         // tipPool.getBalance()
    | MinPayout                                          // tipPool.minPayout()
    | GetRecipients                                      // tipPool.getRecipients()
    | SetRecipients(recipients: seq<Brain.Address>, bps: seq<nat>)  // sent and awaited to confirmation
    | Distribute                                         // sent and awaited to confirmation
    | MarkProcessed(id: int)                             // POST {BACKEND_URL}/tips/process {"id"}

  /** The contract state the agents read and write, in wei and basis points. */
  datatype Contract = Contract(balance: nat, minPayout: nat, recipients: seq<Brain.Address>, bps: seq<nat>)

  /** The agents' trigger: a distribution is due when the balance has
      reached the minimum payout. */
  predicate ThresholdMet(c: Contract)
  {
    c.balance >= c.minPayout
  }

  /** The effect of one successful call on the contract: the two writes
      change it, every other call leaves it alone. `leftover` is what the
      pool holds once a distribution has paid out. */
  function ContractEffect(c: Contract, call: Call, leftover: nat): (r: Contract)
    ensures call.SetRecipients? ==> r == c.(recipients := call.recipients, bps := call.bps)
    ensures call.Distribute? ==> r == c.(balance := leftover)
    ensures !call.SetRecipients? && !call.Distribute? ==> r == c
  {
    match call
    case SetRecipients(recipients, bps) => c.(recipients := recipients, bps := bps)
    case Distribute => c.(balance := leftover)
    case _ => c
  }
}
