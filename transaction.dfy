/**
 * functions/src/transaction.js: the purchase endpoint. After the HTTP checks
 * and `validateTransaction`, one store transaction reads the sender, the
 * receiver and the product, moves `amount` points from sender to receiver,
 * writes one TRANSFER log for each, and marks the product SOLD_OUT.
 */
module TransferServer {
  import opened Wrappers
  import opened Js
  import opened Outcomes
  import opened Store
  import opened Validators
  import opened Http

  /**
   * The checks of the transaction body, in source order. `doc(id)` throws the
   * SDK's `pathError` for an id that is not a string, at the point where the
   * body first looks that id up: after the sender checks for the receiver,
   * after the receiver check for the product. The sender's raw `point` is
   * compared, with no `|| 0`.
   */
  function BodyRules(db: Db, senderId: string, receiverId: Value, amount: real, productId: Value, pathError: string): seq<Rule> {
    [ Rule(senderId !in db.users, SenderNotFound),
      Rule(senderId in db.users && Below(FieldNumber(db.users[senderId].point), Finite(amount)), InsufficientBalance),
      Rule(!receiverId.Str?, Raw(pathError)),
      Rule(receiverId.Str? && receiverId.s !in db.users, ReceiverNotFound),
      Rule(!productId.Str?, Raw(pathError)),
      Rule(productId.Str? && productId.s !in db.products, ProductNotFound),
      Rule(productId.Str? && productId.s in db.products && db.products[productId.s].status != OnSale, ProductNotAvailable) ]
  }

  /** Every read of the body found what it needs and no check threw. */
  predicate Proceeds(db: Db, senderId: string, receiverId: string, amount: real, productId: string) {
    && senderId in db.users
    && !Below(FieldNumber(db.users[senderId].point), Finite(amount))
    && receiverId in db.users
    && productId in db.products
    && db.products[productId].status == OnSale
  }

  /** The body reaches its writes: both looked-up ids are strings and every read and check goes through. */
  predicate Reaches(db: Db, senderId: string, receiverId: Value, amount: real, productId: Value) {
    receiverId.Str? && productId.Str? && Proceeds(db, senderId, receiverId.s, amount, productId.s)
  }

  /** The body goes on to its writes exactly when no check of the ordered list rejects. */
  lemma ReachesIffNoRuleFails(db: Db, senderId: string, receiverId: Value, amount: real, productId: Value, pathError: string)
    ensures Reaches(db, senderId, receiverId, amount, productId) <==>
            FirstFailure(BodyRules(db, senderId, receiverId, amount, productId, pathError)) == None
  {
    var rules := BodyRules(db, senderId, receiverId, amount, productId, pathError);
    FirstFailureIsFirst(rules);
    assert AllPass(rules) <==> !rules[0].fails && !rules[1].fails && !rules[2].fails && !rules[3].fails
                               && !rules[4].fails && !rules[5].fails && !rules[6].fails;
  }

  /**
   * The writes the body buffers, in issue order: the sender's and the
   * receiver's new `point` (each computed from the value read before either
   * write), the two TRANSFER logs under the generated ids, and the product's
   * SOLD_OUT status. The price of the product plays no part.
   */
  function BodyWrites(db: Db, senderId: string, receiverId: string, amount: real, productId: string,
                      senderLogId: string, receiverLogId: string, at: nat): seq<Write>
    requires senderId in db.users && receiverId in db.users && productId in db.products
  {
    PurchaseWrites(senderId, receiverId, Finite(amount),
                   Minus(FieldNumber(db.users[senderId].point), Finite(amount)),
                   Plus(FieldNumber(db.users[receiverId].point), Finite(amount)),
                   productId, db.products[productId].title, senderLogId, receiverLogId, at)
  }

  /**
   * The `runTransaction` callback. `senderLogId` and `receiverLogId` are the
   * ids the store generates for the two new log documents, `at` the commit
   * time that `serverTimestamp()` resolves to, and `pathError` the message
   * `doc()` throws for an id that is not a string. Reads only.
   */
  method TransactionBody(db: Firestore, senderId: string, receiverId: Value, amount: real, productId: Value,
                         pathError: string, senderLogId: string, receiverLogId: string, at: nat) returns (out: Body<string>)
    ensures out.Threw? <==> !Reaches(db.Snapshot(), senderId, receiverId, amount, productId)
    ensures out.Threw? ==> Some(out.code) == FirstFailure(BodyRules(db.Snapshot(), senderId, receiverId, amount, productId, pathError))
    ensures out.Returned? ==>
              && Reaches(db.Snapshot(), senderId, receiverId, amount, productId)
              && out.writes == BodyWrites(db.Snapshot(), senderId, receiverId.s, amount, productId.s, senderLogId, receiverLogId, at)
              && out.value == senderLogId
  {
    ghost var rules := BodyRules(db.Snapshot(), senderId, receiverId, amount, productId, pathError);
    FirstFailureIsFirst(rules);
    assert rules[..1] == [rules[0]];
    assert rules[..2] == [rules[0], rules[1]];
    assert rules[..3] == [rules[0], rules[1], rules[2]];
    assert rules[..4] == [rules[0], rules[1], rules[2], rules[3]];
    assert rules[..5] == [rules[0], rules[1], rules[2], rules[3], rules[4]];
    assert rules[..6] == [rules[0], rules[1], rules[2], rules[3], rules[4], rules[5]];

    if senderId !in db.users {
      return Threw(SenderNotFound);
    }
    var senderData := db.users[senderId];
    if Below(FieldNumber(senderData.point), Finite(amount)) {
      return Threw(InsufficientBalance);
    }
    if !receiverId.Str? {
      return Threw(Raw(pathError));
    }
    if receiverId.s !in db.users {
      return Threw(ReceiverNotFound);
    }
    var receiverData := db.users[receiverId.s];
    if !productId.Str? {
      return Threw(Raw(pathError));
    }
    if productId.s !in db.products {
      return Threw(ProductNotFound);
    }
    var productData := db.products[productId.s];
    if productData.status != OnSale {
      return Threw(ProductNotAvailable);
    }

    var r, p := receiverId.s, productId.s;
    var newSenderPoint := Minus(FieldNumber(senderData.point), Finite(amount));
    var newReceiverPoint := Plus(FieldNumber(receiverData.point), Finite(amount));
    var writes: seq<Write> := [];
    writes := writes + [SetPoint(senderId, newSenderPoint)];
    writes := writes + [SetPoint(r, newReceiverPoint)];
    writes := writes + [SetLog(senderLogId, LogEntry(senderId, Transfer, Finite(amount), newSenderPoint,
                                                     Some(r), Some(p), Purchase(productData.title), at))];
    writes := writes + [SetLog(receiverLogId, LogEntry(r, Transfer, Finite(amount), newReceiverPoint,
                                                       Some(senderId), Some(p), Sale(productData.title), at))];
    writes := writes + [SetSoldOut(p, at)];
    out := Returned(writes, senderLogId);
  }

  /**
   * `db.runTransaction(body)`: a body that throws commits nothing; otherwise
   * the buffered writes are committed together, unless the store rejects the
   * commit (`fault`, with the message of its error), which also commits nothing.
   */
  method RunTransaction(db: Firestore, senderId: string, receiverId: Value, amount: real, productId: Value,
                        pathError: string, senderLogId: string, receiverLogId: string, at: nat, fault: Option<string>)
    returns (r: Result<string, Code>)
    modifies db
    ensures r.Failure? ==> db.Snapshot() == old(db.Snapshot())
    ensures !Reaches(old(db.Snapshot()), senderId, receiverId, amount, productId) ==>
              r.Failure? && Some(r.error) == FirstFailure(BodyRules(old(db.Snapshot()), senderId, receiverId, amount, productId, pathError))
    ensures Reaches(old(db.Snapshot()), senderId, receiverId, amount, productId) && fault.Some? ==>
              r == Failure(Raw(fault.value))
    ensures Reaches(old(db.Snapshot()), senderId, receiverId, amount, productId) && fault.None? ==>
              && r == Success(senderLogId)
              && db.Snapshot() == ApplyAll(old(db.Snapshot()),
                                           BodyWrites(old(db.Snapshot()), senderId, receiverId.s, amount, productId.s,
                                                      senderLogId, receiverLogId, at))
  {
    var out := TransactionBody(db, senderId, receiverId, amount, productId, pathError, senderLogId, receiverLogId, at);
    if out.Threw? {
      return Failure(out.code);
    }
    if fault.Some? {
      return Failure(Raw(fault.value));
    }
    db.Commit(out.writes);
    r := Success(out.value);
  }

  /** The store's side of one request: generated log ids, commit time, a rejected commit, the SDK's error for a non-string id. */
  datatype Env = Env(senderLogId: string, receiverLogId: string, at: nat, fault: Option<string>, pathError: string)

  /**
   * The whole endpoint as a function of the store before the request: the
   * response, and the store after it. The caller is the sender. A thrown error
   * is answered with 500 and `error.message || 'TRANSACTION_FAILED'`.
   */
  function TransferHandler(before: Db, httpMethod: string, authorization: Option<string>, verified: Result<string, string>,
                           body: TransferRequest, env: Env): (Response, Db)
  {
    var gate := Gate(httpMethod, authorization, verified, TransactionFailed);
    if gate.Failure? then (gate.error, before)
    else if Validate(body, gate.value).Some? then (Response(400, Failed(Validate(body, gate.value).value)), before)
    else
      var s, a := gate.value, body.amount.n.v;
      if !Reaches(before, s, body.receiverId, a, body.productId) then
        ReachesIffNoRuleFails(before, s, body.receiverId, a, body.productId, env.pathError);
        var thrown := FirstFailure(BodyRules(before, s, body.receiverId, a, body.productId, env.pathError)).value;
        (Response(500, Failed(Reported(thrown, TransactionFailed))), before)
      else if env.fault.Some? then (Response(500, Failed(Reported(Raw(env.fault.value), TransactionFailed))), before)
      else
        var writes := BodyWrites(before, s, body.receiverId.s, a, body.productId.s, env.senderLogId, env.receiverLogId, env.at);
        (Response(200, Succeeded(env.senderLogId)), ApplyAll(before, writes))
  }

  /** `exports.transaction`: the request handler. */
  method HandleTransfer(db: Firestore, httpMethod: string, authorization: Option<string>, verified: Result<string, string>,
                        body: TransferRequest, env: Env) returns (resp: Response)
    modifies db
    ensures (resp, db.Snapshot()) == TransferHandler(old(db.Snapshot()), httpMethod, authorization, verified, body, env)
  {
    var gate := Gate(httpMethod, authorization, verified, TransactionFailed);
    if gate.Failure? {
      return gate.error;
    }
    var validation := Validate(body, gate.value);
    if validation.Some? {
      return Response(400, Failed(validation.value));
    }
    var result := RunTransaction(db, gate.value, body.receiverId, body.amount.n.v, body.productId, env.pathError,
                                 env.senderLogId, env.receiverLogId, env.at, env.fault);
    match result {
      case Success(txId) => resp := Response(200, Succeeded(txId));
      case Failure(code) => resp := Response(500, Failed(Reported(code, TransactionFailed)));
    }
  }

  // ---------------------------------------------------------------------
  // What a committed purchase does to the store

  /** The five buffered writes, applied in order, as one change to each collection. */
  lemma TransferEffect(db: Db, s: string, r: string, a: real, p: string, sl: string, rl: string, at: nat)
    requires Proceeds(db, s, r, a, p)
    ensures var after := ApplyAll(db, BodyWrites(db, s, r, a, p, sl, rl, at));
            var newS := Minus(FieldNumber(db.users[s].point), Finite(a));
            var newR := Plus(FieldNumber(db.users[r].point), Finite(a));
            var title := db.products[p].title;
            && after.users == db.users[s := db.users[s].(point := Some(newS))][r := db.users[r].(point := Some(newR))]
            && after.products == db.products[p := db.products[p].(status := SoldOut, updatedAt := Some(at))]
            && after.logs == db.logs[sl := LogEntry(s, Transfer, Finite(a), newS, Some(r), Some(p), Purchase(title), at)]
                                    [rl := LogEntry(r, Transfer, Finite(a), newR, Some(s), Some(p), Sale(title), at)]
  {
    PurchaseEffect(db, s, r, Finite(a), Minus(FieldNumber(db.users[s].point), Finite(a)),
                   Plus(FieldNumber(db.users[r].point), Finite(a)), p, sl, rl, at);
  }

  /** A purchase between two accounts holding numbers moves exactly `amount`: the sum of their balances is unchanged. */
  lemma Conservation(db: Db, s: string, r: string, a: real, p: string, sl: string, rl: string, at: nat, x: real, y: real)
    requires Proceeds(db, s, r, a, p) && s != r
    requires db.users[s].point == Some(Finite(x)) && db.users[r].point == Some(Finite(y))
    ensures var after := ApplyAll(db, BodyWrites(db, s, r, a, p, sl, rl, at));
            && after.users[s].point == Some(Finite(x - a))
            && after.users[r].point == Some(Finite(y + a))
            && after.users[s].point.value.v + after.users[r].point.value.v == x + y
  {
    TransferEffect(db, s, r, a, p, sl, rl, at);
  }

  /** The balance check keeps the sender's new balance at or above zero. */
  lemma SenderStaysNonNegative(db: Db, s: string, r: string, a: real, p: string, sl: string, rl: string, at: nat, x: real)
    requires Proceeds(db, s, r, a, p) && s != r
    requires db.users[s].point == Some(Finite(x))
    ensures var after := ApplyAll(db, BodyWrites(db, s, r, a, p, sl, rl, at));
            after.users[s].point.Some? && after.users[s].point.value.Finite? && after.users[s].point.value.v >= 0.0
  {
    TransferEffect(db, s, r, a, p, sl, rl, at);
  }

  /**
   * With fresh, distinct generated ids, exactly two logs are added, both
   * TRANSFER logs of `amount` for the product: the sender's names the receiver
   * and the receiver's the sender, each with the balance its user now holds.
   */
  lemma TwoTransferLogs(db: Db, s: string, r: string, a: real, p: string, sl: string, rl: string, at: nat)
    requires Proceeds(db, s, r, a, p) && s != r
    requires sl != rl && sl !in db.logs && rl !in db.logs
    ensures var after := ApplyAll(db, BodyWrites(db, s, r, a, p, sl, rl, at));
            && after.logs.Keys == db.logs.Keys + {sl, rl}
            && |after.logs| == |db.logs| + 2
            && (forall k :: k in db.logs ==> after.logs[k] == db.logs[k])
            && after.logs[sl].userId == s && after.logs[rl].userId == r
            && after.logs[sl].kind == Transfer && after.logs[rl].kind == Transfer
            && after.logs[sl].amount == Finite(a) && after.logs[rl].amount == Finite(a)
            && after.logs[sl].productId == Some(p) && after.logs[rl].productId == Some(p)
            && after.logs[sl].relatedUserId == Some(r) && after.logs[rl].relatedUserId == Some(s)
            && Some(after.logs[sl].balance) == after.users[s].point
            && Some(after.logs[rl].balance) == after.users[r].point
  {
    TransferEffect(db, s, r, a, p, sl, rl, at);
    var after := ApplyAll(db, BodyWrites(db, s, r, a, p, sl, rl, at));
    assert after.logs.Keys == db.logs.Keys + {sl, rl};
    assert |db.logs.Keys + {sl, rl}| == |db.logs.Keys| + 2 by {
      assert (db.logs.Keys + {sl}) + {rl} == db.logs.Keys + {sl, rl};
    }
  }

  /** The product becomes SOLD_OUT with the commit time as `updatedAt`; no other product and no other field changes. */
  lemma ProductSoldOut(db: Db, s: string, r: string, a: real, p: string, sl: string, rl: string, at: nat)
    requires Proceeds(db, s, r, a, p)
    ensures var after := ApplyAll(db, BodyWrites(db, s, r, a, p, sl, rl, at));
            && after.products.Keys == db.products.Keys
            && after.products[p] == db.products[p].(status := SoldOut, updatedAt := Some(at))
            && (forall q :: q in db.products && q != p ==> after.products[q] == db.products[q])
  {
    TransferEffect(db, s, r, a, p, sl, rl, at);
  }

  /** No user other than the two parties changes, and the parties change only in `point`. */
  lemma OnlyPartiesChange(db: Db, s: string, r: string, a: real, p: string, sl: string, rl: string, at: nat)
    requires Proceeds(db, s, r, a, p)
    ensures var after := ApplyAll(db, BodyWrites(db, s, r, a, p, sl, rl, at));
            && after.users.Keys == db.users.Keys
            && (forall u :: u in db.users && u != s && u != r ==> after.users[u] == db.users[u])
            && after.users[s].profile == db.users[s].profile
            && after.users[r].profile == db.users[r].profile
  {
    TransferEffect(db, s, r, a, p, sl, rl, at);
  }

  /** Once sold, a product cannot be bought again: a later purchase of it never reaches its writes. */
  lemma NoSecondSale(db: Db, s: string, r: string, a: real, p: string, sl: string, rl: string, at: nat,
                     s2: string, r2: string, a2: real, pathError: string)
    requires Proceeds(db, s, r, a, p)
    ensures var after := ApplyAll(db, BodyWrites(db, s, r, a, p, sl, rl, at));
            && !Reaches(after, s2, Str(r2), a2, Str(p))
            && FirstFailure(BodyRules(after, s2, Str(r2), a2, Str(p), pathError)) in
                 {Some(SenderNotFound), Some(InsufficientBalance), Some(ReceiverNotFound), Some(ProductNotAvailable)}
  {
    TransferEffect(db, s, r, a, p, sl, rl, at);
    var after := ApplyAll(db, BodyWrites(db, s, r, a, p, sl, rl, at));
    var rules := BodyRules(after, s2, Str(r2), a2, Str(p), pathError);
    FirstFailureIsFirst(rules);
    assert rules[..1] == [rules[0]];
    assert rules[..2] == [rules[0], rules[1]];
    assert rules[..4] == [rules[0], rules[1], rules[2], rules[3]];
    assert rules[..6] == [rules[0], rules[1], rules[2], rules[3], rules[4], rules[5]];
  }

  /** The amount is never compared with the product's price: changing the price changes nothing about whether the purchase proceeds. */
  lemma PriceNotCompared(db: Db, s: string, r: string, a: real, p: string, price: Num)
    requires p in db.products
    ensures var repriced := db.(products := db.products[p := db.products[p].(price := price)]);
            Proceeds(repriced, s, r, a, p) == Proceeds(db, s, r, a, p)
  {
  }

  /**
   * Unlike the client copy, the server compares the raw `point` field: a
   * sender with no `point` passes the balance check (`undefined < amount` is
   * false) and is written a NaN balance.
   */
  lemma MissingPointSlipsThrough(db: Db, s: string, r: string, a: real, p: string, sl: string, rl: string, at: nat)
    requires s in db.users && db.users[s].point == None && s != r
    requires r in db.users && p in db.products && db.products[p].status == OnSale
    ensures Proceeds(db, s, r, a, p)
    ensures ApplyAll(db, BodyWrites(db, s, r, a, p, sl, rl, at)).users[s].point == Some(NaN)
  {
    TransferEffect(db, s, r, a, p, sl, rl, at);
  }

  // ---------------------------------------------------------------------
  // The endpoint

  /** Method, token and validation failures are answered the same whatever the store holds, and leave it untouched. */
  lemma ChecksPrecedeStore(db1: Db, db2: Db, httpMethod: string, authorization: Option<string>,
                           verified: Result<string, string>, body: TransferRequest, env: Env)
    requires var gate := Gate(httpMethod, authorization, verified, TransactionFailed);
             gate.Failure? || Validate(body, gate.value).Some?
    ensures TransferHandler(db1, httpMethod, authorization, verified, body, env).0 ==
            TransferHandler(db2, httpMethod, authorization, verified, body, env).0
    ensures TransferHandler(db1, httpMethod, authorization, verified, body, env).1 == db1
  {
  }

  /**
   * Only a success answer changes the store; it is a 200 carrying the sender's
   * log id. (An OPTIONS preflight is also answered 200, with no body.)
   */
  lemma OnlySuccessWrites(db: Db, httpMethod: string, authorization: Option<string>,
                          verified: Result<string, string>, body: TransferRequest, env: Env)
    ensures var (resp, after) := TransferHandler(db, httpMethod, authorization, verified, body, env);
            && (!resp.reply.Succeeded? ==> after == db)
            && (resp.reply.Succeeded? ==> resp == Response(200, Succeeded(env.senderLogId)))
            && (resp.status == 200 <==> resp.reply.Succeeded? || httpMethod == "OPTIONS")
  {
  }

  /**
   * Through the endpoint, validation has already refused a self-transfer, so a
   * success answer between two accounts holding numbers conserves their sum and
   * leaves the sender at or above zero.
   */
  lemma EndpointConserves(db: Db, httpMethod: string, authorization: Option<string>,
                          verified: Result<string, string>, body: TransferRequest, env: Env,
                          x: real, y: real)
    requires verified.Success? && body.receiverId.Str?
    requires var s, r := verified.value, body.receiverId.s;
             s in db.users && r in db.users && db.users[s].point == Some(Finite(x)) && db.users[r].point == Some(Finite(y))
    requires TransferHandler(db, httpMethod, authorization, verified, body, env).0.reply.Succeeded?
    ensures var after := TransferHandler(db, httpMethod, authorization, verified, body, env).1;
            var s, r := verified.value, body.receiverId.s;
            && s != r
            && after.users[s].point.Some? && after.users[s].point.value.Finite?
            && after.users[r].point.Some? && after.users[r].point.value.Finite?
            && after.users[s].point.value.v + after.users[r].point.value.v == x + y
            && after.users[s].point.value.v >= 0.0
  {
    var s, r := verified.value, body.receiverId.s;
    var gate := Gate(httpMethod, authorization, verified, TransactionFailed);
    assert gate.Success? && gate.value == s;
    assert Validate(body, s) == None;
    Conservation(db, s, r, body.amount.n.v, body.productId.s, env.senderLogId, env.receiverLogId, env.at, x, y);
  }

  /**
   * Once past the HTTP checks: a request the validator refuses is answered 400
   * with its code; a failing read or check of the body, a non-string id among
   * them, or a rejected commit is answered 500 with the thrown message. When
   * the SDK's message is not empty, the body's codes are reported as they are.
   */
  lemma EndpointOutcome(db: Db, authorization: Option<string>, uid: string, body: TransferRequest, env: Env)
    requires BearerToken(authorization) != ""
    ensures var (resp, after) := TransferHandler(db, "POST", authorization, Success(uid), body, env);
            && (Validate(body, uid).Some? ==> resp == Response(400, Failed(Validate(body, uid).value)) && after == db)
            && (Validate(body, uid).None? ==>
                  var rid, a, pid := body.receiverId, body.amount.n.v, body.productId;
                  var thrown := FirstFailure(BodyRules(db, uid, rid, a, pid, env.pathError));
                  && (!Reaches(db, uid, rid, a, pid) ==>
                        && thrown.Some? && after == db
                        && resp == Response(500, Failed(Reported(thrown.value, TransactionFailed)))
                        && (env.pathError != "" ==> resp == Response(500, Failed(thrown.value))))
                  && (Reaches(db, uid, rid, a, pid) && env.fault.Some? ==>
                        resp == Response(500, Failed(Reported(Raw(env.fault.value), TransactionFailed))) && after == db)
                  && (Reaches(db, uid, rid, a, pid) && env.fault.None? ==> resp == Response(200, Succeeded(env.senderLogId))))
  {
    if Validate(body, uid).None? {
      var rid, a, pid := body.receiverId, body.amount.n.v, body.productId;
      var rules := BodyRules(db, uid, rid, a, pid, env.pathError);
      ReachesIffNoRuleFails(db, uid, rid, a, pid, env.pathError);
      if !Reaches(db, uid, rid, a, pid) && env.pathError != "" {
        assert NamedCodes(rules);
        FirstFailureReported(rules, TransactionFailed);
      }
    }
  }

  /**
   * A receiver or product id that is not a string is noticed only where the
   * body first looks it up: sender failures are reported before a bad receiver
   * id, and a missing receiver before a bad product id.
   */
  lemma PathErrorOrder(db: Db, s: string, rid: Value, a: real, pid: Value, pathError: string)
    ensures var thrown := FirstFailure(BodyRules(db, s, rid, a, pid, pathError));
            && (s !in db.users ==> thrown == Some(SenderNotFound))
            && (s in db.users && Below(FieldNumber(db.users[s].point), Finite(a)) ==> thrown == Some(InsufficientBalance))
            && (s in db.users && !Below(FieldNumber(db.users[s].point), Finite(a)) ==>
                  && (!rid.Str? ==> thrown == Some(Raw(pathError)))
                  && (rid.Str? && rid.s !in db.users ==> thrown == Some(ReceiverNotFound))
                  && (rid.Str? && rid.s in db.users && !pid.Str? ==> thrown == Some(Raw(pathError))))
  {
    var rules := BodyRules(db, s, rid, a, pid, pathError);
    FirstFailureIsFirst(rules);
    assert rules[..1] == [rules[0]];
    assert rules[..2] == [rules[0], rules[1]];
    assert rules[..3] == [rules[0], rules[1], rules[2]];
    assert rules[..4] == [rules[0], rules[1], rules[2], rules[3]];
  }

  /** A product that is RESERVED (or SOLD_OUT) is refused as PRODUCT_NOT_AVAILABLE once the parties check out. */
  lemma ReservedNotAvailable(db: Db, s: string, r: string, a: real, p: string, pathError: string)
    requires s in db.users && !Below(FieldNumber(db.users[s].point), Finite(a)) && r in db.users
    requires p in db.products && db.products[p].status != OnSale
    ensures FirstFailure(BodyRules(db, s, Str(r), a, Str(p), pathError)) == Some(ProductNotAvailable)
  {
    var rules := BodyRules(db, s, Str(r), a, Str(p), pathError);
    FirstFailureIsFirst(rules);
    assert rules[..6] == [rules[0], rules[1], rules[2], rules[3], rules[4], rules[5]];
  }
}
