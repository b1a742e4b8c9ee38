/**
 * src/features/wallet/api/transactionApi.js: the purchase as the browser runs
 * it against the store directly. The body reads the same three documents as
 * the endpoint, but counts a missing balance as 0 (`point || 0`), checks
 * neither the amount nor that sender and receiver differ, and names the two
 * new logs itself from the clock and the user ids. Failures are caught and
 * turned into a result object with a code and a user-facing message.
 */
module TransferClient {
  import opened Wrappers
  import opened Js
  import opened Outcomes
  import opened Store
  import TransferServer

  /** The argument object; `amount` is the product's price as the purchase page passes it. */
  datatype Request = Request(senderId: string, receiverId: string, amount: Num, productId: string)

  /** `data.point || 0`: an absent, zero or NaN balance counts as 0. */
  function Balance(db: Db, id: string): Num
    requires id in db.users
  {
    Finite(OrZero(db.users[id].point))
  }

  /** The checks of the body, in source order. */
  function Rules(db: Db, req: Request): seq<Rule> {
    [ Rule(req.senderId !in db.users, SenderNotFound),
      Rule(req.senderId in db.users && Below(Balance(db, req.senderId), req.amount), InsufficientBalance),
      Rule(req.receiverId !in db.users, ReceiverNotFound),
      Rule(req.productId !in db.products, ProductNotFound),
      Rule(req.productId in db.products && db.products[req.productId].status != OnSale, ProductNotAvailable) ]
  }

  /** Every read of the body found what it needs and no check threw. */
  predicate Proceeds(db: Db, req: Request) {
    && req.senderId in db.users
    && !Below(Balance(db, req.senderId), req.amount)
    && req.receiverId in db.users
    && req.productId in db.products
    && db.products[req.productId].status == OnSale
  }

  /** The body goes on to its writes exactly when no check of the ordered list rejects. */
  lemma ProceedsIffNoRuleFails(db: Db, req: Request)
    ensures Proceeds(db, req) <==> FirstFailure(Rules(db, req)) == None
  {
    var rules := Rules(db, req);
    FirstFailureIsFirst(rules);
    assert AllPass(rules) <==> !rules[0].fails && !rules[1].fails && !rules[2].fails && !rules[3].fails && !rules[4].fails;
  }

  /** `tx_${Date.now()}_${senderId}_sender`. */
  function SenderLogId(now: nat, senderId: string): string {
    "tx_" + NatToString(now) + "_" + senderId + "_sender"
  }

  /** `tx_${Date.now()}_${receiverId}_receiver`; the clock is read again for it. */
  function ReceiverLogId(now: nat, receiverId: string): string {
    "tx_" + NatToString(now) + "_" + receiverId + "_receiver"
  }

  /** The clock as the body sees it: the two `Date.now()` readings, and the commit time of `serverTimestamp()`. */
  datatype Clock = Clock(senderNow: nat, receiverNow: nat, at: nat)

  /**
   * The writes the body buffers: the same five as the endpoint's, with the
   * balances read through `|| 0` and the log ids built from the clock.
   */
  function Writes(db: Db, req: Request, clock: Clock): seq<Write>
    requires req.senderId in db.users && req.receiverId in db.users && req.productId in db.products
  {
    PurchaseWrites(req.senderId, req.receiverId, req.amount,
                   Minus(Balance(db, req.senderId), req.amount),
                   Plus(Balance(db, req.receiverId), req.amount),
                   req.productId, db.products[req.productId].title,
                   SenderLogId(clock.senderNow, req.senderId), ReceiverLogId(clock.receiverNow, req.receiverId), clock.at)
  }

  /** The `runTransaction` callback. Reads only. */
  method TransactionBody(db: Firestore, req: Request, clock: Clock) returns (out: Body<string>)
    ensures out.Threw? <==> !Proceeds(db.Snapshot(), req)
    ensures out.Threw? ==> Some(out.code) == FirstFailure(Rules(db.Snapshot(), req))
    ensures out.Returned? ==>
              && out.writes == Writes(db.Snapshot(), req, clock)
              && out.value == SenderLogId(clock.senderNow, req.senderId)
  {
    ProceedsIffNoRuleFails(db.Snapshot(), req);
    var rules := Rules(db.Snapshot(), req);
    FirstFailureIsFirst(rules);
    assert rules[..1] == [rules[0]];
    assert rules[..2] == [rules[0], rules[1]];
    assert rules[..3] == [rules[0], rules[1], rules[2]];
    assert rules[..4] == [rules[0], rules[1], rules[2], rules[3]];

    if req.senderId !in db.users {
      return Threw(SenderNotFound);
    }
    var currentBalance := Finite(OrZero(db.users[req.senderId].point));
    if Below(currentBalance, req.amount) {
      return Threw(InsufficientBalance);
    }
    if req.receiverId !in db.users {
      return Threw(ReceiverNotFound);
    }
    var receiverBalance := Finite(OrZero(db.users[req.receiverId].point));
    if req.productId !in db.products {
      return Threw(ProductNotFound);
    }
    var productData := db.products[req.productId];
    if productData.status != OnSale {
      return Threw(ProductNotAvailable);
    }

    var newSenderBalance := Minus(currentBalance, req.amount);
    var newReceiverBalance := Plus(receiverBalance, req.amount);
    var senderLogId := SenderLogId(clock.senderNow, req.senderId);
    var receiverLogId := ReceiverLogId(clock.receiverNow, req.receiverId);
    var writes: seq<Write> := [];
    writes := writes + [SetPoint(req.senderId, newSenderBalance)];
    writes := writes + [SetPoint(req.receiverId, newReceiverBalance)];
    writes := writes + [SetLog(senderLogId, LogEntry(req.senderId, Transfer, req.amount, newSenderBalance,
                                                     Some(req.receiverId), Some(req.productId), Purchase(productData.title), clock.at))];
    writes := writes + [SetLog(receiverLogId, LogEntry(req.receiverId, Transfer, req.amount, newReceiverBalance,
                                                       Some(req.senderId), Some(req.productId), Sale(productData.title), clock.at))];
    writes := writes + [SetSoldOut(req.productId, clock.at)];
    out := Returned(writes, senderLogId);
  }

  /** The user-facing messages of the result object. */
  datatype Message =
    | Completed          // the purchase went through
    | LowBalance         // INSUFFICIENT_BALANCE
    | ProductMissing     // PRODUCT_NOT_FOUND
    | ProductUnavailable // PRODUCT_NOT_AVAILABLE
    | UserMissing        // SENDER_NOT_FOUND or RECEIVER_NOT_FOUND
    | Generic            // every other failure

  /**
   * The message chosen for an error code. The comparison is on the code's
   * text, so an error raised by the store with one of these texts as its
   * message is treated alike.
   */
  function MessageFor(errorCode: Code): (m: Message)
    ensures m != Completed
    ensures m == LowBalance <==> Text(errorCode) == "INSUFFICIENT_BALANCE"
    ensures m == ProductMissing <==> Text(errorCode) == "PRODUCT_NOT_FOUND"
    ensures m == ProductUnavailable <==> Text(errorCode) == "PRODUCT_NOT_AVAILABLE"
    ensures m == UserMissing <==> Text(errorCode) == "SENDER_NOT_FOUND" || Text(errorCode) == "RECEIVER_NOT_FOUND"
  {
    var text := Text(errorCode);
    if text == "INSUFFICIENT_BALANCE" then LowBalance
    else if text == "PRODUCT_NOT_FOUND" then ProductMissing
    else if text == "PRODUCT_NOT_AVAILABLE" then ProductUnavailable
    else if text == "SENDER_NOT_FOUND" || text == "RECEIVER_NOT_FOUND" then UserMissing
    else Generic
  }

  /** The result object: `{success: true, txId, message}` or `{success: false, error: {code, message}}`. */
  datatype ApiResult = Done(txId: string, message: Message) | Rejected(code: Code, message: Message)

  /** A caught error becomes a failure result: code `error.message || 'TRANSACTION_FAILED'`, and its message. */
  function Rejection(thrown: Code): (res: ApiResult)
    ensures res.Rejected? && res.code == Reported(thrown, TransactionFailed) && res.message == MessageFor(res.code)
  {
    var errorCode := Reported(thrown, TransactionFailed);
    Rejected(errorCode, MessageFor(errorCode))
  }

  /**
   * The whole call as a function of the store before it: the result, and the
   * store after it. `fault` is the store refusing the commit, with its message.
   */
  function Api(before: Db, req: Request, clock: Clock, fault: Option<string>): (ApiResult, Db) {
    if !Proceeds(before, req) then
      ProceedsIffNoRuleFails(before, req);
      (Rejection(FirstFailure(Rules(before, req)).value), before)
    else if fault.Some? then (Rejection(Raw(fault.value)), before)
    else (Done(SenderLogId(clock.senderNow, req.senderId), Completed), ApplyAll(before, Writes(before, req, clock)))
  }

  /** `transactionApi(data)`: the transaction, then the result object. */
  method TransactionApi(db: Firestore, req: Request, clock: Clock, fault: Option<string>) returns (res: ApiResult)
    modifies db
    ensures (res, db.Snapshot()) == Api(old(db.Snapshot()), req, clock, fault)
  {
    var out := TransactionBody(db, req, clock);
    if out.Threw? {
      return Rejection(out.code);
    }
    if fault.Some? {
      return Rejection(Raw(fault.value));
    }
    db.Commit(out.writes);
    res := Done(out.value, Completed);
  }

  // ---------------------------------------------------------------------
  // What a committed purchase does to the store

  /**
   * The five writes, applied in order, as one change to each collection: the
   * two logs have the same contents as the endpoint's, under the clock-based ids.
   */
  lemma ClientEffect(db: Db, req: Request, clock: Clock)
    requires Proceeds(db, req)
    ensures var after := ApplyAll(db, Writes(db, req, clock));
            var s, r, p := req.senderId, req.receiverId, req.productId;
            var newS := Minus(Balance(db, s), req.amount);
            var newR := Plus(Balance(db, r), req.amount);
            && after.users == db.users[s := db.users[s].(point := Some(newS))][r := db.users[r].(point := Some(newR))]
            && after.products == db.products[p := db.products[p].(status := SoldOut, updatedAt := Some(clock.at))]
            && after.logs == db.logs[SenderLogId(clock.senderNow, s) :=
                                       LogEntry(s, Transfer, req.amount, newS, Some(r), Some(p), Purchase(db.products[p].title), clock.at)]
                                    [ReceiverLogId(clock.receiverNow, r) :=
                                       LogEntry(r, Transfer, req.amount, newR, Some(s), Some(p), Sale(db.products[p].title), clock.at)]
  {
    var s, r, p := req.senderId, req.receiverId, req.productId;
    PurchaseEffect(db, s, r, req.amount, Minus(Balance(db, s), req.amount), Plus(Balance(db, r), req.amount), p,
                   SenderLogId(clock.senderNow, s), ReceiverLogId(clock.receiverNow, r), clock.at);
    LogIdsDistinct(clock.senderNow, s, clock.receiverNow, r);
  }

  /** A sender log id never equals a receiver log id: they end in `der` and `ver`. */
  lemma LogIdsDistinct(senderNow: nat, senderId: string, receiverNow: nat, receiverId: string)
    ensures SenderLogId(senderNow, senderId) != ReceiverLogId(receiverNow, receiverId)
  {
    var x, y := SenderLogId(senderNow, senderId), ReceiverLogId(receiverNow, receiverId);
    if |x| == |y| {
      var head := "tx_" + NatToString(senderNow) + "_" + senderId;
      assert x == head + "_sender";
      assert x[|x| - 3] == 'd';
      var head2 := "tx_" + NatToString(receiverNow) + "_" + receiverId;
      assert y == head2 + "_receiver";
      assert y[|y| - 3] == 'v';
    }
  }

  /**
   * Between two different users, `amount` moves from one balance to the
   * other as read through `|| 0`: a user with no balance field counts as 0,
   * and the sum of the two balances is unchanged.
   */
  lemma Conservation(db: Db, req: Request, clock: Clock, a: real)
    requires Proceeds(db, req) && req.senderId != req.receiverId && req.amount == Finite(a)
    ensures var after := ApplyAll(db, Writes(db, req, clock));
            var x, y := OrZero(db.users[req.senderId].point), OrZero(db.users[req.receiverId].point);
            && after.users[req.senderId].point == Some(Finite(x - a))
            && after.users[req.receiverId].point == Some(Finite(y + a))
            && after.users[req.senderId].point.value.v + after.users[req.receiverId].point.value.v == x + y
            && x - a >= 0.0
  {
    ClientEffect(db, req, clock);
  }

  /**
   * Nothing stops a user buying their own product: both `point` updates land
   * on the same document, the second wins, and the balance grows by `amount`.
   */
  lemma SelfPurchaseMints(db: Db, req: Request, clock: Clock, a: real)
    requires Proceeds(db, req) && req.senderId == req.receiverId && req.amount == Finite(a)
    ensures var after := ApplyAll(db, Writes(db, req, clock));
            after.users[req.senderId].point == Some(Finite(OrZero(db.users[req.senderId].point) + a))
  {
    ClientEffect(db, req, clock);
  }

  /**
   * The amount is not checked: a negative amount passes the balance check of
   * any sender holding a non-negative balance, and raises the sender's
   * balance while lowering the receiver's.
   */
  lemma NegativeAmountReverses(db: Db, req: Request, clock: Clock, a: real)
    requires req.senderId in db.users && req.receiverId in db.users && req.senderId != req.receiverId
    requires req.productId in db.products && db.products[req.productId].status == OnSale
    requires req.amount == Finite(a) && a < 0.0 && OrZero(db.users[req.senderId].point) >= 0.0
    ensures Proceeds(db, req)
    ensures var after := ApplyAll(db, Writes(db, req, clock));
            var x, y := OrZero(db.users[req.senderId].point), OrZero(db.users[req.receiverId].point);
            && after.users[req.senderId].point == Some(Finite(x - a)) && x - a > x
            && after.users[req.receiverId].point == Some(Finite(y + a)) && y + a < y
  {
    ClientEffect(db, req, clock);
  }

  /**
   * With fresh log ids, exactly two TRANSFER logs of `amount` for the product
   * are added: the sender's names the receiver and the receiver's the sender,
   * each with the balance its user now holds. The earlier logs are untouched.
   */
  lemma TwoLogs(db: Db, req: Request, clock: Clock)
    requires Proceeds(db, req) && req.senderId != req.receiverId
    requires SenderLogId(clock.senderNow, req.senderId) !in db.logs
    requires ReceiverLogId(clock.receiverNow, req.receiverId) !in db.logs
    ensures var after := ApplyAll(db, Writes(db, req, clock));
            var sl, rl := SenderLogId(clock.senderNow, req.senderId), ReceiverLogId(clock.receiverNow, req.receiverId);
            && after.logs.Keys == db.logs.Keys + {sl, rl}
            && |after.logs| == |db.logs| + 2
            && (forall k :: k in db.logs ==> after.logs[k] == db.logs[k])
            && after.logs[sl].userId == req.senderId && after.logs[rl].userId == req.receiverId
            && after.logs[sl].kind == Transfer && after.logs[rl].kind == Transfer
            && after.logs[sl].amount == req.amount && after.logs[rl].amount == req.amount
            && after.logs[sl].productId == Some(req.productId) && after.logs[rl].productId == Some(req.productId)
            && after.logs[sl].relatedUserId == Some(req.receiverId) && after.logs[rl].relatedUserId == Some(req.senderId)
            && Some(after.logs[sl].balance) == after.users[req.senderId].point
            && Some(after.logs[rl].balance) == after.users[req.receiverId].point
  {
    ClientEffect(db, req, clock);
    var s, r, p := req.senderId, req.receiverId, req.productId;
    PurchaseEffect(db, s, r, req.amount, Minus(Balance(db, s), req.amount), Plus(Balance(db, r), req.amount), p,
                   SenderLogId(clock.senderNow, s), ReceiverLogId(clock.receiverNow, r), clock.at);
    var sl, rl := SenderLogId(clock.senderNow, s), ReceiverLogId(clock.receiverNow, r);
    LogIdsDistinct(clock.senderNow, s, clock.receiverNow, r);
    assert |db.logs.Keys + {sl, rl}| == |db.logs.Keys| + 2 by {
      assert (db.logs.Keys + {sl}) + {rl} == db.logs.Keys + {sl, rl};
    }
  }

  /**
   * The log ids are not unique: a second purchase by the same sender within
   * the same millisecond reuses the sender log id, and `set` replaces the
   * earlier purchase's log, so only one log is added.
   */
  lemma SameMillisecondOverwrites(db: Db, req: Request, clock: Clock)
    requires Proceeds(db, req) && req.senderId != req.receiverId
    requires SenderLogId(clock.senderNow, req.senderId) in db.logs
    requires ReceiverLogId(clock.receiverNow, req.receiverId) !in db.logs
    ensures var after := ApplyAll(db, Writes(db, req, clock));
            var sl := SenderLogId(clock.senderNow, req.senderId);
            && |after.logs| == |db.logs| + 1
            && after.logs[sl].productId == Some(req.productId)
  {
    ClientEffect(db, req, clock);
    var s, r, p := req.senderId, req.receiverId, req.productId;
    PurchaseEffect(db, s, r, req.amount, Minus(Balance(db, s), req.amount), Plus(Balance(db, r), req.amount), p,
                   SenderLogId(clock.senderNow, s), ReceiverLogId(clock.receiverNow, r), clock.at);
    var sl, rl := SenderLogId(clock.senderNow, s), ReceiverLogId(clock.receiverNow, r);
    LogIdsDistinct(clock.senderNow, s, clock.receiverNow, r);
    assert db.logs.Keys + {sl, rl} == db.logs.Keys + {rl};
  }

  /** Once sold, a product cannot be bought again through this path either. */
  lemma NoSecondSale(db: Db, req: Request, clock: Clock, req2: Request)
    requires Proceeds(db, req) && req2.productId == req.productId
    ensures var after := ApplyAll(db, Writes(db, req, clock));
            && !Proceeds(after, req2)
            && FirstFailure(Rules(after, req2)) in
                 {Some(SenderNotFound), Some(InsufficientBalance), Some(ReceiverNotFound), Some(ProductNotAvailable)}
  {
    ClientEffect(db, req, clock);
    var after := ApplyAll(db, Writes(db, req, clock));
    ProceedsIffNoRuleFails(after, req2);
    var rules := Rules(after, req2);
    FirstFailureIsFirst(rules);
    assert rules[..1] == [rules[0]];
    assert rules[..2] == [rules[0], rules[1]];
    assert rules[..3] == [rules[0], rules[1], rules[2]];
    assert rules[..4] == [rules[0], rules[1], rules[2], rules[3]];
  }

  // ---------------------------------------------------------------------
  // The two copies of the purchase side by side

  /**
   * When both balances are numbers and the amount is a number, the client
   * copy rejects with the same code as the endpoint's body (whose id checks
   * pass on the client's string ids), proceeds in the same cases and buffers
   * the same writes, under its own log ids.
   */
  lemma SameAsServer(db: Db, req: Request, clock: Clock, a: real, pathError: string)
    requires req.amount == Finite(a)
    requires req.senderId in db.users && db.users[req.senderId].point.Some? && db.users[req.senderId].point.value.Finite?
    requires req.receiverId in db.users && db.users[req.receiverId].point.Some? && db.users[req.receiverId].point.value.Finite?
    ensures FirstFailure(Rules(db, req)) ==
            FirstFailure(TransferServer.BodyRules(db, req.senderId, Str(req.receiverId), a, Str(req.productId), pathError))
    ensures Proceeds(db, req) == TransferServer.Proceeds(db, req.senderId, req.receiverId, a, req.productId)
    ensures req.productId in db.products ==>
              Writes(db, req, clock) ==
              TransferServer.BodyWrites(db, req.senderId, req.receiverId, a, req.productId,
                                        SenderLogId(clock.senderNow, req.senderId),
                                        ReceiverLogId(clock.receiverNow, req.receiverId), clock.at)
  {
    var server := TransferServer.BodyRules(db, req.senderId, Str(req.receiverId), a, Str(req.productId), pathError);
    FirstFailureSkipsPassing(server, 4);
    var withoutProductPath := server[..4] + server[5..];
    FirstFailureSkipsPassing(withoutProductPath, 2);
    var rules := Rules(db, req);
    assert withoutProductPath == [server[0], server[1], server[2], server[3], server[5], server[6]];
    assert withoutProductPath[..2] + withoutProductPath[3..] == [server[0], server[1], server[3], server[5], server[6]];
    assert server[1] == rules[1] && server[3] == rules[2];
    assert [server[0], server[1], server[3], server[5], server[6]] == rules;
  }

  /**
   * The copies part ways on a sender with no `point` field: the endpoint lets
   * the purchase through (and writes NaN), the client refuses it for lack of
   * balance.
   */
  lemma MissingBalanceDiverges(db: Db, req: Request, a: real)
    requires req.amount == Finite(a) && a > 0.0
    requires req.senderId in db.users && db.users[req.senderId].point == None
    requires req.receiverId in db.users && req.productId in db.products && db.products[req.productId].status == OnSale
    ensures TransferServer.Proceeds(db, req.senderId, req.receiverId, a, req.productId)
    ensures !Proceeds(db, req) && FirstFailure(Rules(db, req)) == Some(InsufficientBalance)
  {
  }

  // ---------------------------------------------------------------------
  // The result object

  /**
   * The call succeeds exactly when the body proceeds and the commit is
   * accepted, and then reports the sender log id; any failure leaves the store
   * as it was and reports the first failing check's code (or the store's
   * message) with the message the table gives it.
   */
  lemma ApiOutcome(before: Db, req: Request, clock: Clock, fault: Option<string>)
    ensures var (res, after) := Api(before, req, clock, fault);
            && (res.Done? <==> Proceeds(before, req) && fault.None?)
            && (res.Done? ==> res.txId == SenderLogId(clock.senderNow, req.senderId) && res.message == Completed)
            && (res.Rejected? ==> after == before && res.message == MessageFor(res.code))
            && (!Proceeds(before, req) ==>
                  FirstFailure(Rules(before, req)).Some? && res.code == FirstFailure(Rules(before, req)).value)
            && (Proceeds(before, req) && fault.Some? ==> res.code == Reported(Raw(fault.value), TransactionFailed))
  {
    ProceedsIffNoRuleFails(before, req);
    if !Proceeds(before, req) {
      FirstFailureReported(Rules(before, req), TransactionFailed);
    }
  }

  /** Both not-found errors for users show the same message. */
  lemma SharedUserMessage()
    ensures MessageFor(SenderNotFound) == UserMissing && MessageFor(ReceiverNotFound) == UserMissing
  {
    assert |Text(SenderNotFound)| != |"INSUFFICIENT_BALANCE"|;
    assert |Text(SenderNotFound)| != |"PRODUCT_NOT_FOUND"|;
    assert |Text(SenderNotFound)| != |"PRODUCT_NOT_AVAILABLE"|;
    assert |Text(ReceiverNotFound)| != |"INSUFFICIENT_BALANCE"|;
    assert |Text(ReceiverNotFound)| != |"PRODUCT_NOT_AVAILABLE"|;
    assert Text(ReceiverNotFound)[0] != "PRODUCT_NOT_FOUND"[0];
  }

  /** A store error with any other message shows the generic message; one with no message is reported as TRANSACTION_FAILED. */
  lemma UnknownErrorIsGeneric(m: string)
    requires m !in {"INSUFFICIENT_BALANCE", "PRODUCT_NOT_FOUND", "PRODUCT_NOT_AVAILABLE", "SENDER_NOT_FOUND", "RECEIVER_NOT_FOUND"}
    ensures Rejection(Raw(m)).message == Generic
    ensures Rejection(Raw(m)).code == if m == "" then TransactionFailed else Raw(m)
  {
    assert |Text(TransactionFailed)| != |"INSUFFICIENT_BALANCE"|;
    assert |Text(TransactionFailed)| != |"PRODUCT_NOT_FOUND"|;
    assert |Text(TransactionFailed)| != |"PRODUCT_NOT_AVAILABLE"|;
    assert |Text(TransactionFailed)| != |"SENDER_NOT_FOUND"|;
    assert Text(TransactionFailed)[0] != "RECEIVER_NOT_FOUND"[0];
  }
}
