/** The wallet and tip endpoints of the ledger back end
    (src/controllers/WalletController.php). Each request body is given as
    the fields it may carry; a field that is absent or JSON null is `None`,
    as PHP's `isset` sees it. */
module WalletController {
  import opened Optional
  import opened Text
  import opened LedgerStore

  /** Body of `POST /wallets/credit`: `{"user_id", "amount"}`. */
  datatype CreditRequest = CreditRequest(userId: Option<int>, amount: Option<int>)

  /** Body of `POST /tips`: `{"from_user_id", "to_user_id", "amount"}`. */
  datatype TipRequest = TipRequest(fromUserId: Option<int>, toUserId: Option<int>, amount: Option<int>)

  /** The 404 message of the balance endpoint. */
  function NoWalletMessage(userId: nat): string
  {
    "Wallet not found for user ID " + Decimal(userId)
  }

  class WalletController {
    const db: Database

    constructor (db: Database)
      ensures this.db == db
    {
      this.db := db;
    }

    /** `GET /wallets/{user_id}`: the wallet's balance, or 404 when the user
        has no wallet. */
    function Balance(userId: nat): (r: Reply)
      reads db
      ensures r.code == 200 <==> userId in db.wallets
      ensures r.code == 200 ==> r.payload == BalanceOf(userId, db.wallets[userId])
      ensures r.code != 200 ==> r == Reply(404, Error(NoWalletMessage(userId)))
    {
      if userId in db.wallets then Reply(200, BalanceOf(userId, db.wallets[userId]))
      else Reply(404, Error(NoWalletMessage(userId)))
    }

    /** `POST /wallets/credit`: adds a positive amount to one wallet. Nothing
        changes on any error; on success exactly that wallet grows by the
        amount, and so does the total held by all wallets. */
    method Credit(req: CreditRequest) returns (reply: Reply)
      requires db.Valid()
      modifies db
      ensures db.Valid()
      ensures reply.code != 200 ==> unchanged(db)
      ensures req.userId.None? || req.amount.None? ==> reply == Reply(400, Error("user_id and amount are required"))
      ensures req.userId.Some? && req.amount.Some? && req.amount.value <= 0 ==>
                reply == Reply(400, Error("Amount must be positive"))
      ensures req.userId.Some? && req.amount.Some? && req.amount.value > 0 && req.userId.value !in old(db.wallets) ==>
                reply == Reply(404, Error("Wallet not found"))
      ensures req.userId.Some? && req.amount.Some? && req.amount.value > 0 && req.userId.value in old(db.wallets)
              && old(db.wallets)[req.userId.value] + req.amount.value > MaxCents ==>
                reply == Reply(500, DbError)
      ensures reply.code == 200 <==>
                && req.userId.Some? && req.amount.Some? && req.amount.value > 0
                && req.userId.value in old(db.wallets)
                && old(db.wallets)[req.userId.value] + req.amount.value <= MaxCents
      ensures reply.code == 200 ==>
                && reply.payload == Credited(req.userId.value, req.amount.value)
                && db.wallets == old(db.wallets)[req.userId.value := old(db.wallets)[req.userId.value] + req.amount.value]
                && Total(db.wallets) == Total(old(db.wallets)) + req.amount.value
                && db.users == old(db.users) && db.tips == old(db.tips)
                && db.nextUserId == old(db.nextUserId) && db.nextTipId == old(db.nextTipId)
    {
      if req.userId.None? || req.amount.None? {
        return Reply(400, Error("user_id and amount are required"));
      }
      var userId, amount := req.userId.value, req.amount.value;
      if amount <= 0 {
        return Reply(400, Error("Amount must be positive"));
      }
      if userId !in db.wallets {
        // UPDATE ... WHERE user_id = ? touched no row
        return Reply(404, Error("Wallet not found"));
      }
      if db.wallets[userId] + amount > MaxCents {
        // the new balance is out of range for DECIMAL(10, 2)
        return Reply(500, DbError);
      }
      TotalUpdate(db.wallets, userId, db.wallets[userId] + amount);
      db.wallets := db.wallets[userId := db.wallets[userId] + amount];
      reply := Reply(200, Credited(userId, amount));
    }

    /** `POST /tips`: moves an amount from one wallet to another and records
        a pending tip, in one transaction. Every failure leaves the database
        as it was; a success conserves the total held by all wallets. */
    method Tip(req: TipRequest) returns (reply: Reply)
      requires db.Valid()
      modifies db
      ensures db.Valid()
      ensures reply.code != 200 ==> unchanged(db)
      ensures req.fromUserId.None? || req.toUserId.None? || req.amount.None? ==>
                reply == Reply(400, Error("from_user_id, to_user_id, and amount are required"))
      ensures reply.code != 200 ==> reply.code == 400
      ensures req.fromUserId.Some? && req.toUserId.Some? && req.amount.Some? ==>
                var from, to, amount := req.fromUserId.value, req.toUserId.value, req.amount.value;
                && (amount <= 0 ==> reply == Reply(400, Error("Amount must be positive")))
                && (amount > 0 && from == to ==> reply == Reply(400, Error("Cannot tip yourself")))
                && (amount > 0 && from != to && from !in old(db.wallets) ==>
                      reply == Reply(400, Error("Sender wallet not found")))
                && (amount > 0 && from != to && from in old(db.wallets) && old(db.wallets)[from] < amount ==>
                      reply == Reply(400, Error("Insufficient funds")))
                && (amount > 0 && from != to && from in old(db.wallets) && old(db.wallets)[from] >= amount
                    && to !in old(db.wallets) ==>
                      reply == Reply(400, Error("Receiver wallet not found")))
                && (amount > 0 && from != to && from in old(db.wallets) && old(db.wallets)[from] >= amount
                    && to in old(db.wallets) && old(db.wallets)[to] + amount > MaxCents ==>
                      reply == Reply(400, DbError))
      ensures reply.code == 200 <==>
                && req.fromUserId.Some? && req.toUserId.Some? && req.amount.Some?
                && req.amount.value > 0 && req.fromUserId.value != req.toUserId.value
                && req.fromUserId.value in old(db.wallets) && req.toUserId.value in old(db.wallets)
                && old(db.wallets)[req.fromUserId.value] >= req.amount.value
                && old(db.wallets)[req.toUserId.value] + req.amount.value <= MaxCents
      ensures reply.code == 200 ==>
                var from, to, amount := req.fromUserId.value, req.toUserId.value, req.amount.value;
                && reply.payload == TipSuccess(from, to, amount)
                && db.wallets == old(db.wallets)[from := old(db.wallets)[from] - amount]
                                                [to := old(db.wallets)[to] + amount]
                && Total(db.wallets) == Total(old(db.wallets))
                && db.tips == old(db.tips) + [TipRow(old(db.nextTipId), from, to, amount, Pending)]
                && db.nextTipId == old(db.nextTipId) + 1
                && db.users == old(db.users) && db.nextUserId == old(db.nextUserId)
    {
      if req.fromUserId.None? || req.toUserId.None? || req.amount.None? {
        return Reply(400, Error("from_user_id, to_user_id, and amount are required"));
      }
      var from, to, amount := req.fromUserId.value, req.toUserId.value, req.amount.value;
      if amount <= 0 {
        return Reply(400, Error("Amount must be positive"));
      }
      if from == to {
        return Reply(400, Error("Cannot tip yourself"));
      }

      reply := Transfer(from, to, amount);
    }

    /** The transaction of `POST /tips`, for a positive amount between two
        distinct ids: a failure rolls back to the state it began with. */
    method Transfer(from: int, to: int, amount: int) returns (reply: Reply)
      requires db.Valid()
      requires amount > 0 && from != to
      modifies db
      ensures db.Valid()
      ensures reply.code != 200 ==> unchanged(db)
      ensures from !in old(db.wallets) ==> reply == Reply(400, Error("Sender wallet not found"))
      ensures from in old(db.wallets) && old(db.wallets)[from] < amount ==>
                reply == Reply(400, Error("Insufficient funds"))
      ensures from in old(db.wallets) && old(db.wallets)[from] >= amount && to !in old(db.wallets) ==>
                reply == Reply(400, Error("Receiver wallet not found"))
      ensures from in old(db.wallets) && old(db.wallets)[from] >= amount
              && to in old(db.wallets) && old(db.wallets)[to] + amount > MaxCents ==>
                reply == Reply(400, DbError)
      ensures reply.code == 200 <==>
                && from in old(db.wallets) && to in old(db.wallets)
                && old(db.wallets)[from] >= amount && old(db.wallets)[to] + amount <= MaxCents
      ensures reply.code == 200 ==>
                && reply.payload == TipSuccess(from, to, amount)
                && db.wallets == old(db.wallets)[from := old(db.wallets)[from] - amount]
                                                [to := old(db.wallets)[to] + amount]
                && Total(db.wallets) == Total(old(db.wallets))
                && db.tips == old(db.tips) + [TipRow(old(db.nextTipId), from, to, amount, Pending)]
                && db.nextTipId == old(db.nextTipId) + 1
                && db.users == old(db.users) && db.nextUserId == old(db.nextUserId)
    {
      // beginTransaction: the state a rollback restores
      var snapshot := db.wallets;
      if from !in db.wallets {
        return Reply(400, Error("Sender wallet not found"));
      }
      if db.wallets[from] < amount {
        return Reply(400, Error("Insufficient funds"));
      }
      SetBalanceConsistent(db.users, db.wallets, db.tips, db.nextUserId, db.nextTipId, from, db.wallets[from] - amount);
      db.wallets := db.wallets[from := db.wallets[from] - amount];
      if to !in db.wallets {
        // the receiver's UPDATE touched no row: roll back
        db.wallets := snapshot;
        return Reply(400, Error("Receiver wallet not found"));
      }
      if db.wallets[to] + amount > MaxCents {
        // the receiver's new balance is out of range: roll back
        db.wallets := snapshot;
        return Reply(400, DbError);
      }
      TransferConserves(snapshot, from, to, amount);
      Deposit(from, to, amount);
      reply := Reply(200, TipSuccess(from, to, amount));
    }

    /** The rest of the transaction once the sender is debited: the
        receiver's UPDATE, then the tip row. */
    method Deposit(from: int, to: int, amount: int)
      requires db.Valid()
      requires from in db.wallets && to in db.wallets && amount > 0 && db.wallets[to] + amount <= MaxCents
      modifies db
      ensures db.Valid()
      ensures db.wallets == old(db.wallets)[to := old(db.wallets)[to] + amount]
      ensures db.tips == old(db.tips) + [TipRow(old(db.nextTipId), from, to, amount, Pending)]
      ensures db.nextTipId == old(db.nextTipId) + 1
      ensures db.users == old(db.users) && db.nextUserId == old(db.nextUserId)
    {
      SetBalanceConsistent(db.users, db.wallets, db.tips, db.nextUserId, db.nextTipId, to, db.wallets[to] + amount);
      db.wallets := db.wallets[to := db.wallets[to] + amount];
      RecordTip(from, to, amount);
    }

    /** `INSERT INTO tips ... VALUES (?, ?, ?, 'pending')` under the next id. */
    method RecordTip(from: int, to: int, amount: int)
      requires db.Valid()
      requires from in db.users && to in db.users && 0 < amount <= MaxCents
      modifies db
      ensures db.Valid()
      ensures db.tips == old(db.tips) + [TipRow(old(db.nextTipId), from, to, amount, Pending)]
      ensures db.nextTipId == old(db.nextTipId) + 1
      ensures db.users == old(db.users) && db.wallets == old(db.wallets) && db.nextUserId == old(db.nextUserId)
    {
      var row := TipRow(db.nextTipId, from, to, amount, Pending);
      RecordTipConsistent(db.users, db.wallets, db.tips, db.nextUserId, db.nextTipId, row);
      db.tips := db.tips + [row];
      db.nextTipId := db.nextTipId + 1;
    }

    /** `GET /tips/pending`: every pending tip, in table order. */
    function PendingTips(): (r: Reply)
      reads db
      ensures r.code == 200 && r.payload.TipRows?
      ensures forall t :: t in r.payload.rows <==> t in db.tips && t.status == Pending
      ensures forall t :: multiset(r.payload.rows)[t] == if t.status == Pending then multiset(db.tips)[t] else 0
    {
      Reply(200, TipRows(PendingRows(db.tips)))
    }

    /** `POST /tips/process`: marks the tip with that id processed. An id that
        names no tip still gets the success reply and changes nothing. */
    method MarkTipProcessed(id: Option<int>) returns (reply: Reply)
      requires db.Valid()
      modifies db
      ensures db.Valid()
      ensures id.None? ==> reply == Reply(400, Error("tip id is required")) && unchanged(db)
      ensures id.Some? ==>
                && reply == Reply(200, TipProcessed(id.value))
                && db.tips == MarkRows(old(db.tips), id.value)
                && db.users == old(db.users) && db.wallets == old(db.wallets)
                && db.nextUserId == old(db.nextUserId) && db.nextTipId == old(db.nextTipId)
    {
      if id.None? {
        return Reply(400, Error("tip id is required"));
      }
      db.tips := MarkRows(db.tips, id.value);
      reply := Reply(200, TipProcessed(id.value));
    }

    /** `GET /tips`: every tip with the names of both users, newest first. */
    function Index(): (r: Reply)
      requires db.Valid()
      reads db
      ensures r.code == 200 && r.payload.NamedTipRows?
      ensures |r.payload.named| == |db.tips|
      ensures forall i | 0 <= i < |db.tips| ::
                && r.payload.named[i].tip == db.tips[|db.tips| - 1 - i]
                && r.payload.named[i].fromName == db.users[db.tips[|db.tips| - 1 - i].fromUserId].name
                && r.payload.named[i].toName == db.users[db.tips[|db.tips| - 1 - i].toUserId].name
    {
      var named := Joined(db.tips, db.users);
      assert forall i | 0 <= i < |db.tips| :: named[i] in named;
      Reply(200, NamedTipRows(named))
    }
  }
}
