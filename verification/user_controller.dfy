/** User registration (src/controllers/UserController.php): a user row and
    its zero-balance wallet, created together in one transaction. */
module UserController {
  import opened Optional
  import opened Text
  import opened LedgerStore

  /** The characters PHP's `trim` strips by default: space, tab, line feed,
      carriage return, NUL and vertical tab. */
  const PhpWhitespace: set<char> := {' ', '\t', '\n', '\r', '\0', '\U{000B}'}

  /** PHP's `empty` on a string: true for "" and for "0". */
  predicate PhpEmpty(s: string)
  {
    s == "" || s == "0"
  }

  /** Body of `POST /users`: `{"name", "email"}`. */
  datatype CreateRequest = CreateRequest(name: Option<string>, email: Option<string>)

  /** The validation of `create`: both fields are set and neither is empty
      once trimmed. */
  predicate Accepts(req: CreateRequest)
  {
    && req.name.Some? && !PhpEmpty(Trim(req.name.value, PhpWhitespace))
    && req.email.Some? && !PhpEmpty(Trim(req.email.value, PhpWhitespace))
  }

  /** A field that holds something besides whitespace, and is not a lone
      "0" padded with whitespace. */
  predicate Filled(s: string)
  {
    && (exists k | 0 <= k < |s| :: s[k] !in PhpWhitespace)
    && !(exists i | 0 <= i < |s| :: s[i] == '0' && forall k | 0 <= k < |s| && k != i :: s[k] in PhpWhitespace)
  }

  /** The validation read on the characters of the fields: both are set,
      and each holds something besides whitespace that is not a lone "0"
      (which PHP's `empty` counts as empty). */
  lemma AcceptsFields(req: CreateRequest)
    ensures Accepts(req) <==> req.name.Some? && req.email.Some? && Filled(req.name.value) && Filled(req.email.value)
  {
    if req.name.Some? { TrimmedEmpty(req.name.value); }
    if req.email.Some? { TrimmedEmpty(req.email.value); }
  }

  /** `empty(trim($s))` exactly when `s` is all whitespace or a "0" with
      whitespace around it. */
  lemma TrimmedEmpty(s: string)
    ensures PhpEmpty(Trim(s, PhpWhitespace)) <==> !Filled(s)
  {
    var r := Trim(s, PhpWhitespace);
    var l := Leading(s, PhpWhitespace);
    if r == [] {
      assert forall k | 0 <= k < |s| :: s[k] in PhpWhitespace by {
        forall k | 0 <= k < |s| ensures s[k] in PhpWhitespace {
          if k >= l { assert l + |r| <= k; }
        }
      }
    } else if r == "0" {
      assert s[l] == '0';
      assert forall k | 0 <= k < |s| && k != l :: s[k] in PhpWhitespace;
    } else {
      assert s[l] !in PhpWhitespace;
    }
  }

  /** A field made only of whitespace trims to the empty string, so the
      request is refused. */
  lemma BlankFieldRejected(req: CreateRequest)
    requires req.name.Some? && req.email.Some?
    requires (forall k | 0 <= k < |req.name.value| :: req.name.value[k] in PhpWhitespace)
             || (forall k | 0 <= k < |req.email.value| :: req.email.value[k] in PhpWhitespace)
    ensures !Accepts(req)
  {
    if forall k | 0 <= k < |req.name.value| :: req.name.value[k] in PhpWhitespace {
      TrimPadded(req.name.value, "", "", PhpWhitespace);
      assert req.name.value + "" + "" == req.name.value;
    } else {
      TrimPadded(req.email.value, "", "", PhpWhitespace);
      assert req.email.value + "" + "" == req.email.value;
    }
  }

  /** Whitespace around a field never changes the verdict: the request is
      judged on the trimmed values. */
  lemma AcceptsIgnoresPadding(name: string, email: string, pre: string, post: string)
    requires forall k | 0 <= k < |pre| :: pre[k] in PhpWhitespace
    requires forall k | 0 <= k < |post| :: post[k] in PhpWhitespace
    ensures Accepts(CreateRequest(Some(pre + name + post), Some(email))) == Accepts(CreateRequest(Some(name), Some(email)))
    ensures Accepts(CreateRequest(Some(name), Some(pre + email + post))) == Accepts(CreateRequest(Some(name), Some(email)))
  {
    TrimPadded(pre, name, post, PhpWhitespace);
    TrimPadded(pre, email, post, PhpWhitespace);
  }

  /** Adding a user with a fresh id and an unused email, together with a
      zero-balance wallet, keeps the store consistent. */
  lemma AddUserConsistent(users: map<int, User>, wallets: map<int, int>, tips: seq<TipRow>,
                          nextUserId: nat, nextTipId: nat, user: User)
    requires Consistent(users, wallets, tips, nextUserId, nextTipId)
    requires !EmailTaken(users, user.email)
    ensures nextUserId !in users
    ensures Consistent(users[nextUserId := user], wallets[nextUserId := 0], tips, nextUserId + 1, nextTipId)
  {
    var users' := users[nextUserId := user];
    forall a, b | a in users' && b in users' && a != b ensures users'[a].email != users'[b].email {
      if a == nextUserId {
        assert users'[b] == users[b];
      } else if b == nextUserId {
        assert users'[a] == users[a];
      }
    }
  }

  class UserController {
    const db: Database

    constructor (db: Database)
      ensures this.db == db
    {
      this.db := db;
    }

    /** `POST /users`: registers a user under the next id with a wallet
        holding 0. The stored name and email are the trimmed inputs. A
        refused request leaves the database as it was. A duplicate email
        leaves the tables as they were, but InnoDB has already handed out
        the next id to the failed INSERT and a rollback does not return it,
        so the next user created gets the id after it. */
    method Create(req: CreateRequest) returns (reply: Reply)
      requires db.Valid()
      modifies db
      ensures db.Valid()
      ensures !Accepts(req) ==> reply == Reply(400, Error("Name and email are required")) && unchanged(db)
      ensures Accepts(req) && EmailTaken(old(db.users), Trim(req.email.value, PhpWhitespace)) ==>
                && reply == Reply(500, DbError)
                && db.users == old(db.users) && db.wallets == old(db.wallets)
                && db.tips == old(db.tips) && db.nextTipId == old(db.nextTipId)
                && db.nextUserId == old(db.nextUserId) + 1
      ensures reply.code == 201 <==> Accepts(req) && !EmailTaken(old(db.users), Trim(req.email.value, PhpWhitespace))
      ensures reply.code == 201 ==>
                var id := old(db.nextUserId);
                && reply.payload == UserCreated(id, 0)
                && id !in old(db.users)
                && db.users == old(db.users)[id := User(Trim(req.name.value, PhpWhitespace),
                                                        Trim(req.email.value, PhpWhitespace))]
                && db.wallets == old(db.wallets)[id := 0]
                && Total(db.wallets) == Total(old(db.wallets))
                && EmailTaken(db.users, Trim(req.email.value, PhpWhitespace))
                && db.nextUserId == id + 1
                && db.tips == old(db.tips) && db.nextTipId == old(db.nextTipId)
    {
      if !Accepts(req) {
        return Reply(400, Error("Name and email are required"));
      }
      var name := Trim(req.name.value, PhpWhitespace);
      var email := Trim(req.email.value, PhpWhitespace);

      // beginTransaction; the UNIQUE constraint on users.email refuses a
      // duplicate after the id was allocated, and the rollback keeps the
      // counter where it went
      if EmailTaken(db.users, email) {
        db.nextUserId := db.nextUserId + 1;
        return Reply(500, DbError);
      }
      var userId := InsertUser(User(name, email));
      assert db.users[userId].email == email;
      reply := Reply(201, UserCreated(userId, 0));
    }

    /** The two inserts of the transaction: the user under the next id, then
        its wallet with balance 0. */
    method InsertUser(user: User) returns (userId: int)
      requires db.Valid() && !EmailTaken(db.users, user.email)
      modifies db
      ensures db.Valid()
      ensures userId == old(db.nextUserId) && userId !in old(db.users)
      ensures db.users == old(db.users)[userId := user] && db.wallets == old(db.wallets)[userId := 0]
      ensures Total(db.wallets) == Total(old(db.wallets))
      ensures db.nextUserId == userId + 1
      ensures db.tips == old(db.tips) && db.nextTipId == old(db.nextTipId)
    {
      userId := db.nextUserId;
      AddUserConsistent(db.users, db.wallets, db.tips, db.nextUserId, db.nextTipId, user);
      TotalInsert(db.wallets, userId, 0);
      db.users := db.users[userId := user];
      db.nextUserId := db.nextUserId + 1;
      db.wallets := db.wallets[userId := 0];
    }
  }
}
