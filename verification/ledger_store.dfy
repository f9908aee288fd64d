/** The relational store behind the PHP back end: users, one wallet per user
    and the tips table, with amounts in integer cents. The controllers update
    it inside transactions; the pure functions here give the meaning of the
    SQL statements they run. */
module LedgerStore {

  /** DECIMAL(10, 2) holds at most 99,999,999.99, i.e. this many cents. */
  const MaxCents: int := 9_999_999_999

  /** The CHECK constraint on tips.status. */
  datatype Status = Pending | Processed

  datatype TipRow = TipRow(id: nat, fromUserId: int, toUserId: int, amount: int, status: Status)

  datatype User = User(name: string, email: string)

  /** A row of the tip listing: the tip joined with both users' names. */
  datatype NamedTip = NamedTip(tip: TipRow, fromName: string, toName: string)

  /** The JSON body of a reply. */
  datatype Payload =
    | Error(message: string)
    | DbError                          // the message text comes from the database driver
    | BalanceOf(userId: int, balance: int)
    | Credited(userId: int, amountAdded: int)
    | TipSuccess(fromUserId: int, toUserId: int, amount: int)
    | TipRows(rows: seq<TipRow>)
    | NamedTipRows(named: seq<NamedTip>)
    | TipProcessed(id: int)
    | UserCreated(userId: int, walletBalance: int)

  /** An HTTP status code with its JSON body. */
  datatype Reply = Reply(code: nat, payload: Payload)

  ghost predicate EmailsUnique(users: map<int, User>)
  {
    forall a, b | a in users && b in users && a != b :: users[a].email != users[b].email
  }

  predicate EmailTaken(users: map<int, User>, email: string)
  {
    exists u | u in users :: users[u].email == email
  }

  /** User ids are below the users counter and emails are unique. */
  ghost predicate UsersConsistent(users: map<int, User>, nextUserId: nat)
  {
    && (forall u | u in users :: 0 < u < nextUserId)
    && EmailsUnique(users)
  }

  /** Each user has exactly one wallet, and every balance fits
      DECIMAL(10, 2) and is never negative. */
  ghost predicate WalletsConsistent(users: map<int, User>, wallets: map<int, int>)
  {
    && wallets.Keys == users.Keys
    && (forall u | u in wallets :: 0 <= wallets[u] <= MaxCents)
  }

  /** Tips refer to existing users, carry a positive amount that fits the
      column, have ids below the tips counter, and ids increase along the
      table. */
  ghost predicate TipsConsistent(users: map<int, User>, tips: seq<TipRow>, nextTipId: nat)
  {
    && (forall i | 0 <= i < |tips| ::
          && 0 < tips[i].id < nextTipId
          && tips[i].fromUserId in users && tips[i].toUserId in users
          && 0 < tips[i].amount <= MaxCents)
    && (forall i, j | 0 <= i < j < |tips| :: tips[i].id < tips[j].id)
  }

  /** What every committed transaction keeps. */
  ghost predicate Consistent(users: map<int, User>, wallets: map<int, int>, tips: seq<TipRow>,
                             nextUserId: nat, nextTipId: nat)
  {
    && 0 < nextUserId && 0 < nextTipId
    && UsersConsistent(users, nextUserId)
    && WalletsConsistent(users, wallets)
    && TipsConsistent(users, tips, nextTipId)
  }

  /** Setting a wallet to an in-range balance keeps the store consistent. */
  lemma SetBalanceConsistent(users: map<int, User>, wallets: map<int, int>, tips: seq<TipRow>,
                             nextUserId: nat, nextTipId: nat, u: int, b: int)
    requires Consistent(users, wallets, tips, nextUserId, nextTipId)
    requires u in wallets && 0 <= b <= MaxCents
    ensures Consistent(users, wallets[u := b], tips, nextUserId, nextTipId)
  {
  }

  /** Recording a tip between two users under the next id keeps the store
      consistent. */
  lemma RecordTipConsistent(users: map<int, User>, wallets: map<int, int>, tips: seq<TipRow>,
                            nextUserId: nat, nextTipId: nat, t: TipRow)
    requires Consistent(users, wallets, tips, nextUserId, nextTipId)
    requires t.id == nextTipId && t.fromUserId in users && t.toUserId in users
    requires 0 < t.amount <= MaxCents
    ensures Consistent(users, wallets, tips + [t], nextUserId, nextTipId + 1)
  {
    var tips' := tips + [t];
    forall i, j | 0 <= i < j < |tips'| ensures tips'[i].id < tips'[j].id {
      if j == |tips| {
        assert tips'[i] == tips[i];
      } else {
        assert tips'[i] == tips[i] && tips'[j] == tips[j];
      }
    }
  }

  /** The database. Wallets are keyed by their owner's user id. */
  class Database {
    var users: map<int, User>
    var wallets: map<int, int>
    var tips: seq<TipRow>
    var nextUserId: nat            // AUTO_INCREMENT counter of users.id
    var nextTipId: nat             // AUTO_INCREMENT counter of tips.id

    ghost predicate Valid()
      reads this
    {
      Consistent(users, wallets, tips, nextUserId, nextTipId)
    }

    /** An empty database. */
    constructor ()
      ensures Valid()
      ensures users == map[] && wallets == map[] && tips == []
      ensures nextUserId == 1 && nextTipId == 1
    {
      users, wallets, tips := map[], map[], [];
      nextUserId, nextTipId := 1, 1;
    }
  }

  /** `SELECT * FROM tips WHERE status = 'pending'`, in table order: every
      pending row exactly as often as the table holds it, and no other row. */
  function PendingRows(tips: seq<TipRow>): (r: seq<TipRow>)
    ensures |r| <= |tips|
    ensures forall t :: t in r <==> t in tips && t.status == Pending
    ensures forall t :: multiset(r)[t] == if t.status == Pending then multiset(tips)[t] else 0
  {
    if tips == [] then []
    else
      assert tips == [tips[0]] + tips[1..];
      if tips[0].status == Pending then [tips[0]] + PendingRows(tips[1..])
      else PendingRows(tips[1..])
  }

  /** The listing keeps the table's order: the pending rows of two stretches
      of the table are those of the first followed by those of the second. */
  lemma {:induction false} PendingRowsAppend(a: seq<TipRow>, b: seq<TipRow>)
    ensures PendingRows(a + b) == PendingRows(a) + PendingRows(b)
  {
    if a == [] {
      assert a + b == b;
    } else {
      assert (a + b)[0] == a[0] && (a + b)[1..] == a[1..] + b;
      PendingRowsAppend(a[1..], b);
    }
  }

  /** `UPDATE tips SET status = 'processed' WHERE id = ?`. */
  function MarkRows(tips: seq<TipRow>, id: int): (r: seq<TipRow>)
    ensures |r| == |tips|
    ensures forall i | 0 <= i < |tips| ::
              && r[i].id == tips[i].id && r[i].fromUserId == tips[i].fromUserId
              && r[i].toUserId == tips[i].toUserId && r[i].amount == tips[i].amount
              && r[i].status == (if tips[i].id == id then Processed else tips[i].status)
  {
    if tips == [] then []
    else [if tips[0].id == id then tips[0].(status := Processed) else tips[0]] + MarkRows(tips[1..], id)
  }

  /** Marking is idempotent: a repeated request changes nothing more. */
  lemma MarkRowsIdempotent(tips: seq<TipRow>, id: int)
    ensures MarkRows(MarkRows(tips, id), id) == MarkRows(tips, id)
  {
    var once := MarkRows(tips, id);
    var twice := MarkRows(once, id);
    assert |twice| == |once|;
    forall i | 0 <= i < |once| ensures twice[i] == once[i] {
    }
  }

  /** An id that names no tip leaves the table as it is. */
  lemma MarkRowsUnknownId(tips: seq<TipRow>, id: int)
    requires forall i | 0 <= i < |tips| :: tips[i].id != id
    ensures MarkRows(tips, id) == tips
  {
    var r := MarkRows(tips, id);
    forall i | 0 <= i < |tips| ensures r[i] == tips[i] {
    }
  }

  /** Status only moves forward: a processed tip stays processed, and after
      marking no tip with that id is pending. */
  lemma MarkRowsMonotone(tips: seq<TipRow>, id: int)
    ensures forall i | 0 <= i < |tips| && tips[i].status == Processed :: MarkRows(tips, id)[i].status == Processed
    ensures forall t | t in PendingRows(MarkRows(tips, id)) :: t.id != id
  {
  }

  /** Once the only pending tip is marked, the pending list is empty. */
  lemma {:induction false} LastPendingProcessed(tips: seq<TipRow>, t: TipRow)
    requires PendingRows(tips) == [t]
    ensures PendingRows(MarkRows(tips, t.id)) == []
  {
    var r := MarkRows(tips, t.id);
    forall i | 0 <= i < |r| ensures r[i].status == Processed {
      assert tips[i] in tips;
      assert tips[i].status == Pending ==> tips[i] in PendingRows(tips);
    }
    NoPendingRows(r);
  }

  lemma {:induction false} NoPendingRows(tips: seq<TipRow>)
    requires forall i | 0 <= i < |tips| :: tips[i].status == Processed
    ensures PendingRows(tips) == []
  {
    if tips != [] {
      NoPendingRows(tips[1..]);
    }
  }

  /** The tip listing: `tips JOIN users (twice)`, newest first. */
  function Joined(tips: seq<TipRow>, users: map<int, User>): (r: seq<NamedTip>)
    ensures |r| <= |tips|
    ensures forall n | n in r :: n.tip in tips && n.tip.fromUserId in users && n.tip.toUserId in users
                                 && n.fromName == users[n.tip.fromUserId].name
                                 && n.toName == users[n.tip.toUserId].name
    ensures (forall i | 0 <= i < |tips| :: tips[i].fromUserId in users && tips[i].toUserId in users) ==>
              |r| == |tips| && forall i | 0 <= i < |tips| :: r[i].tip == tips[|tips| - 1 - i]
  {
    if tips == [] then []
    else
      var t := tips[|tips| - 1];
      var rest := Joined(tips[..|tips| - 1], users);
      assert forall n | n in rest :: n.tip in tips;
      if t.fromUserId in users && t.toUserId in users then
        [NamedTip(t, users[t.fromUserId].name, users[t.toUserId].name)] + rest
      else rest
  }

  lemma HasKey(m: map<int, int>)
    requires m != map[]
    ensures exists k :: k in m
  {
    if forall k :: k !in m {
      assert false;
    }
  }

  /** Picks some key of a non-empty map. */
  ghost function AnyKey(m: map<int, int>): (k: int)
    requires m != map[]
    ensures k in m
  {
    HasKey(m);
    var key :| key in m; key
  }

  /** The sum of all wallet balances. */
  ghost function Total(wallets: map<int, int>): int
    decreases |wallets|
  {
    if wallets == map[] then 0
    else
      var k := AnyKey(wallets);
      wallets[k] + Total(wallets - {k})
  }

  /** Any wallet can be split off the sum, not only the one `Total` picks. */
  lemma {:induction false} TotalSplit(wallets: map<int, int>, k: int)
    requires k in wallets
    ensures Total(wallets) == wallets[k] + Total(wallets - {k})
    decreases |wallets|
  {
    var j := AnyKey(wallets);
    if j != k {
      var rest := wallets - {j};
      assert k in rest && |rest| < |wallets|;
      TotalSplit(rest, k);
      var restK := wallets - {k};
      assert j in restK && |restK| < |wallets|;
      TotalSplit(restK, j);
      assert rest - {k} == restK - {j};
    }
  }

  /** Setting one existing wallet changes the sum by the difference. */
  lemma TotalUpdate(wallets: map<int, int>, k: int, v: int)
    requires k in wallets
    ensures Total(wallets[k := v]) == Total(wallets) - wallets[k] + v
  {
    TotalSplit(wallets, k);
    TotalSplit(wallets[k := v], k);
    assert wallets[k := v] - {k} == wallets - {k};
  }

  /** Adding a new wallet adds its balance to the sum. */
  lemma TotalInsert(wallets: map<int, int>, k: int, v: int)
    requires k !in wallets
    ensures Total(wallets[k := v]) == Total(wallets) + v
  {
    TotalSplit(wallets[k := v], k);
    assert wallets[k := v] - {k} == wallets;
  }

  /** A transfer between two distinct wallets conserves the total balance. */
  lemma TransferConserves(wallets: map<int, int>, from: int, to: int, amount: int)
    requires from in wallets && to in wallets && from != to
    ensures Total(wallets[from := wallets[from] - amount][to := wallets[to] + amount]) == Total(wallets)
  {
    var debited := wallets[from := wallets[from] - amount];
    TotalUpdate(wallets, from, wallets[from] - amount);
    TotalUpdate(debited, to, wallets[to] + amount);
  }
}
