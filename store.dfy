/**
 * The document store as the ledger sees it: the `users`, `products` and
 * `point_logs` collections, the writes a transaction buffers, and the commit
 * that applies a transaction's buffered writes together, in the order they
 * were issued. Each transaction body reads the store, then either throws (and
 * nothing it buffered is applied) or returns a value and its buffered writes.
 */
module Store {
  import opened Wrappers
  import opened Js
  import opened Outcomes

  /** PRODUCT_STATUS (src/shared/utils/constants.js). */
  datatype Status = OnSale | Reserved | SoldOut

  /** POINT_TRANSACTION_TYPE (src/shared/utils/constants.js). */
  datatype LogType = Charge | Transfer

  /** What a log's description text is built from; the text itself is not modelled. */
  datatype Description = Purchase(title: string) | Sale(title: string) | Charged(amount: Num)

  /**
   * A `users` document: its `point` field (absent, or a number) and, standing
   * for every other field, a profile the ledger never writes.
   */
  datatype User = User(point: Option<Num>, profile: string)

  /** A `products` document; `updatedAt` is the commit time of the last write that set it. */
  datatype Product = Product(status: Status, title: string, price: Num, sellerId: string, updatedAt: Option<nat>)

  /** A `point_logs` document; `createdAt` is the commit time of the write that created it. */
  datatype LogEntry = LogEntry(
    userId: string,
    kind: LogType,
    amount: Num,
    balance: Num,
    relatedUserId: Option<string>,
    productId: Option<string>,
    description: Description,
    createdAt: nat)

  datatype Db = Db(users: map<string, User>, products: map<string, Product>, logs: map<string, LogEntry>)

  /** A buffered write: `update(userRef, {point})`, `update(productRef, {status: 'SOLD_OUT', updatedAt})`, `set(logRef, entry)`. */
  datatype Write =
    | SetPoint(userId: string, point: Num)
    | SetSoldOut(productId: string, at: nat)
    | SetLog(logId: string, entry: LogEntry)

  /**
   * What a transaction body does: it throws with a code, or returns a value
   * together with the writes it buffered, in issue order.
   */
  datatype Body<T> = Threw(code: Code) | Returned(writes: seq<Write>, value: T)

  /**
   * One write applied. An update names a document that its body has just read,
   * so the store's refusal to update a missing document never arises; the
   * model leaves the store as it was in that case.
   */
  function ApplyWrite(db: Db, w: Write): Db {
    match w
    case SetPoint(id, p) =>
      if id in db.users then db.(users := db.users[id := db.users[id].(point := Some(p))]) else db
    case SetSoldOut(id, t) =>
      if id in db.products then db.(products := db.products[id := db.products[id].(status := SoldOut, updatedAt := Some(t))]) else db
    case SetLog(id, e) =>
      db.(logs := db.logs[id := e])
  }

  /**
   * The writes from index `i` on applied in issue order. Writes never create
   * or remove a user or a product, and never remove a log.
   */
  function ApplyFrom(db: Db, ws: seq<Write>, i: nat): (after: Db)
    ensures after.users.Keys == db.users.Keys && after.products.Keys == db.products.Keys
    ensures db.logs.Keys <= after.logs.Keys
    decreases |ws| - i
  {
    if i >= |ws| then db else ApplyFrom(ApplyWrite(db, ws[i]), ws, i + 1)
  }

  /** All the writes applied in issue order. */
  function ApplyAll(db: Db, ws: seq<Write>): (after: Db)
    ensures after.users.Keys == db.users.Keys && after.products.Keys == db.products.Keys
    ensures db.logs.Keys <= after.logs.Keys
  {
    ApplyFrom(db, ws, 0)
  }

  /**
   * The five writes of a purchase, in issue order: the sender's and the
   * receiver's new `point`, the sender's and the receiver's TRANSFER logs
   * (`sl` and `rl`), and the product's SOLD_OUT status, all stamped `at`.
   */
  function PurchaseWrites(s: string, r: string, amount: Num, newS: Num, newR: Num, p: string, title: string,
                          sl: string, rl: string, at: nat): seq<Write>
  {
    [ SetPoint(s, newS),
      SetPoint(r, newR),
      SetLog(sl, LogEntry(s, Transfer, amount, newS, Some(r), Some(p), Purchase(title), at)),
      SetLog(rl, LogEntry(r, Transfer, amount, newR, Some(s), Some(p), Sale(title), at)),
      SetSoldOut(p, at) ]
  }

  /**
   * A purchase's writes, applied in order, as one change to each collection.
   * When sender and receiver are the same user, the receiver's write wins.
   */
  lemma PurchaseEffect(db: Db, s: string, r: string, amount: Num, newS: Num, newR: Num, p: string,
                       sl: string, rl: string, at: nat)
    requires s in db.users && r in db.users && p in db.products
    ensures var title := db.products[p].title;
            var after := ApplyAll(db, PurchaseWrites(s, r, amount, newS, newR, p, title, sl, rl, at));
            && after.users == db.users[s := db.users[s].(point := Some(newS))][r := db.users[r].(point := Some(newR))]
            && after.products == db.products[p := db.products[p].(status := SoldOut, updatedAt := Some(at))]
            && after.logs == db.logs[sl := LogEntry(s, Transfer, amount, newS, Some(r), Some(p), Purchase(title), at)]
                                    [rl := LogEntry(r, Transfer, amount, newR, Some(s), Some(p), Sale(title), at)]
  {
    var title := db.products[p].title;
    var e1 := LogEntry(s, Transfer, amount, newS, Some(r), Some(p), Purchase(title), at);
    var e2 := LogEntry(r, Transfer, amount, newR, Some(s), Some(p), Sale(title), at);
    var ws := PurchaseWrites(s, r, amount, newS, newR, p, title, sl, rl, at);
    var d1 := db.(users := db.users[s := db.users[s].(point := Some(newS))]);
    var d2 := d1.(users := d1.users[r := d1.users[r].(point := Some(newR))]);
    var d3 := d2.(logs := d2.logs[sl := e1]);
    var d4 := d3.(logs := d3.logs[rl := e2]);
    var d5 := d4.(products := d4.products[p := d4.products[p].(status := SoldOut, updatedAt := Some(at))]);
    assert ApplyFrom(db, ws, 0) == ApplyFrom(d1, ws, 1);
    assert ApplyFrom(d1, ws, 1) == ApplyFrom(d2, ws, 2);
    assert ApplyFrom(d2, ws, 2) == ApplyFrom(d3, ws, 3);
    assert ApplyFrom(d3, ws, 3) == ApplyFrom(d4, ws, 4);
    assert ApplyFrom(d4, ws, 4) == ApplyFrom(d5, ws, 5) == d5;
    assert d1.users[r].(point := Some(newR)) == db.users[r].(point := Some(newR));
  }

  /**
   * The two writes of a charge: the user's new `point`, which is the balance
   * read through `|| 0` plus `amount`, and the user's CHARGE log under `logId`.
   */
  function ChargeWrites(db: Db, userId: string, amount: Num, logId: string, at: nat): seq<Write>
    requires userId in db.users
  {
    var newBalance := Plus(Finite(OrZero(db.users[userId].point)), amount);
    [ SetPoint(userId, newBalance),
      SetLog(logId, LogEntry(userId, Charge, amount, newBalance, None, None, Charged(amount), at)) ]
  }

  /** A charge's writes, applied in order, as one change to the users and one to the logs. */
  lemma ChargeEffect(db: Db, userId: string, amount: Num, logId: string, at: nat)
    requires userId in db.users
    ensures var newBalance := Plus(Finite(OrZero(db.users[userId].point)), amount);
            var after := ApplyAll(db, ChargeWrites(db, userId, amount, logId, at));
            && after.users == db.users[userId := db.users[userId].(point := Some(newBalance))]
            && after.products == db.products
            && after.logs == db.logs[logId := LogEntry(userId, Charge, amount, newBalance, None, None, Charged(amount), at)]
  {
    var newBalance := Plus(Finite(OrZero(db.users[userId].point)), amount);
    var ws := ChargeWrites(db, userId, amount, logId, at);
    var d1 := db.(users := db.users[userId := db.users[userId].(point := Some(newBalance))]);
    var d2 := d1.(logs := d1.logs[logId := LogEntry(userId, Charge, amount, newBalance, None, None, Charged(amount), at)]);
    assert ApplyFrom(db, ws, 0) == ApplyFrom(d1, ws, 1);
    assert ApplyFrom(d1, ws, 1) == ApplyFrom(d2, ws, 2) == d2;
  }

  /** The three collections, updated in place by commits. */
  class Firestore {
    var users: map<string, User>
    var products: map<string, Product>
    var logs: map<string, LogEntry>

    constructor (db: Db)
      ensures Snapshot() == db
    {
      users, products, logs := db.users, db.products, db.logs;
    }

    function Snapshot(): Db
      reads this
    {
      Db(users, products, logs)
    }

    /** Applies every buffered write of a transaction, in issue order. */
    method Commit(ws: seq<Write>)
      modifies this
      ensures Snapshot() == ApplyAll(old(Snapshot()), ws)
    {
      var i := 0;
      while i < |ws|
        invariant 0 <= i <= |ws|
        invariant ApplyFrom(Snapshot(), ws, i) == ApplyAll(old(Snapshot()), ws)
      {
        match ws[i] {
          case SetPoint(id, p) =>
            if id in users {
              users := users[id := users[id].(point := Some(p))];
            }
          case SetSoldOut(id, t) =>
            if id in products {
              products := products[id := products[id].(status := SoldOut, updatedAt := Some(t))];
            }
          case SetLog(id, e) =>
            logs := logs[id := e];
        }
        i := i + 1;
      }
    }
  }
}
