/**
 * functions/src/charge.js: the charge endpoint. After the HTTP checks, the
 * request must name a user and a positive number, and the user must be the
 * caller; one store transaction then adds the amount to the user's balance
 * (read through `|| 0`) and writes one CHARGE log.
 */
module ChargeServer {
  import opened Wrappers
  import opened Js
  import opened Outcomes
  import opened Store
  import opened Validators
  import opened Http

  /** The fields of a charge request body; an absent field is `Undefined`. */
  datatype ChargeRequest = ChargeRequest(userId: Value, amount: Value)

  /** The input checks, in source order. */
  function InputRules(body: ChargeRequest, uid: string): seq<Rule> {
    [ Rule(Falsy(body.userId) || Falsy(body.amount), InvalidInput),
      Rule(!StrictEquals(body.userId, Str(uid)), Forbidden),
      Rule(!body.amount.Number? || AtMost(body.amount.n, Finite(0.0)), InvalidAmount) ]
  }

  /**
   * The input checks as the handler runs them: None when the request may go
   * on, otherwise the code of the first check that rejects. The request goes
   * on exactly when it names the caller, whose id is not empty, and carries a
   * positive number.
   */
  function CheckInput(body: ChargeRequest, uid: string): (r: Option<Code>)
    ensures r == None <==> body.userId == Str(uid) && uid != "" && PositiveAmount(body.amount)
    ensures r.Some? ==> r.value in {InvalidInput, Forbidden, InvalidAmount}
  {
    if Falsy(body.userId) || Falsy(body.amount) then Some(InvalidInput)
    else if !StrictEquals(body.userId, Str(uid)) then Some(Forbidden)
    else if !body.amount.Number? || AtMost(body.amount.n, Finite(0.0)) then Some(InvalidAmount)
    else None
  }

  /** The if-chain reports the first failing check of the ordered list. */
  lemma CheckInputIsFirstFailure(body: ChargeRequest, uid: string)
    ensures CheckInput(body, uid) == FirstFailure(InputRules(body, uid))
  {
    var rules := InputRules(body, uid);
    FirstFailureIsFirst(rules);
    assert rules[..1] == [rules[0]];
    assert rules[..2] == [rules[0], rules[1]];
  }

  /** The status a failed input check is answered with: 403 for another user's account, 400 otherwise. */
  function InputStatus(c: Code): nat {
    if c == Forbidden then 403 else 400
  }

  /**
   * Unlike a transfer, where a sender other than the caller is refused first,
   * a charge checks for missing fields before it checks whose account it is:
   * an empty user id is INVALID_INPUT here and UNAUTHORIZED for a transfer.
   */
  lemma MissingFieldBeforeOwnership(uid: string, amount: Value, receiverId: Value, productId: Value)
    requires uid != ""
    ensures CheckInput(ChargeRequest(Str(""), amount), uid) == Some(InvalidInput)
    ensures Validate(TransferRequest(Str(""), receiverId, amount, productId), uid) == Some(Unauthorized)
  {
    assert Str("") != Str(uid);
  }

  /**
   * The `runTransaction` callback, with `logId` the id the store generates
   * for the new log and `at` the commit time. Reads only.
   */
  method ChargeBody(db: Firestore, userId: string, amount: real, logId: string, at: nat) returns (out: Body<string>)
    ensures out.Threw? <==> userId !in db.users
    ensures out.Threw? ==> out.code == UserNotFound
    ensures out.Returned? ==> out.writes == ChargeWrites(db.Snapshot(), userId, Finite(amount), logId, at) && out.value == logId
  {
    if userId !in db.users {
      return Threw(UserNotFound);
    }
    var userData := db.users[userId];
    var newBalance := Plus(Finite(OrZero(userData.point)), Finite(amount));
    var writes: seq<Write> := [];
    writes := writes + [SetPoint(userId, newBalance)];
    writes := writes + [SetLog(logId, LogEntry(userId, Charge, Finite(amount), newBalance, None, None, Charged(Finite(amount)), at))];
    out := Returned(writes, logId);
  }

  /** `db.runTransaction(body)`: a body that throws, or a commit the store rejects, commits nothing. */
  method RunCharge(db: Firestore, userId: string, amount: real, logId: string, at: nat, fault: Option<string>)
    returns (r: Result<string, Code>)
    modifies db
    ensures r.Failure? ==> db.Snapshot() == old(db.Snapshot())
    ensures userId !in old(db.Snapshot()).users ==> r == Failure(UserNotFound)
    ensures userId in old(db.Snapshot()).users && fault.Some? ==> r == Failure(Raw(fault.value))
    ensures userId in old(db.Snapshot()).users && fault.None? ==>
              && r == Success(logId)
              && db.Snapshot() == ApplyAll(old(db.Snapshot()), ChargeWrites(old(db.Snapshot()), userId, Finite(amount), logId, at))
  {
    var out := ChargeBody(db, userId, amount, logId, at);
    if out.Threw? {
      return Failure(out.code);
    }
    if fault.Some? {
      return Failure(Raw(fault.value));
    }
    db.Commit(out.writes);
    r := Success(out.value);
  }

  /** The store's side of one request: the generated log id, the commit time, a rejected commit. */
  datatype ChargeEnv = ChargeEnv(logId: string, at: nat, fault: Option<string>)

  /**
   * The whole endpoint as a function of the store before the request: the
   * response, and the store after it. A thrown error is answered with 500 and
   * `error.message || 'CHARGE_FAILED'`.
   */
  function ChargeHandler(before: Db, httpMethod: string, authorization: Option<string>, verified: Result<string, string>,
                         body: ChargeRequest, env: ChargeEnv): (Response, Db)
  {
    var gate := Gate(httpMethod, authorization, verified, ChargeFailed);
    if gate.Failure? then (gate.error, before)
    else if CheckInput(body, gate.value).Some? then
      var c := CheckInput(body, gate.value).value;
      (Response(InputStatus(c), Failed(c)), before)
    else
      var u, a := gate.value, body.amount.n.v;
      if u !in before.users then (Response(500, Failed(UserNotFound)), before)
      else if env.fault.Some? then (Response(500, Failed(Reported(Raw(env.fault.value), ChargeFailed))), before)
      else (Response(200, Succeeded(env.logId)), ApplyAll(before, ChargeWrites(before, u, Finite(a), env.logId, env.at)))
  }

  /** `exports.charge`: the request handler. */
  method HandleCharge(db: Firestore, httpMethod: string, authorization: Option<string>, verified: Result<string, string>,
                      body: ChargeRequest, env: ChargeEnv) returns (resp: Response)
    modifies db
    ensures (resp, db.Snapshot()) == ChargeHandler(old(db.Snapshot()), httpMethod, authorization, verified, body, env)
  {
    var gate := Gate(httpMethod, authorization, verified, ChargeFailed);
    if gate.Failure? {
      return gate.error;
    }
    var check := CheckInput(body, gate.value);
    if check.Some? {
      return Response(InputStatus(check.value), Failed(check.value));
    }
    var result := RunCharge(db, gate.value, body.amount.n.v, env.logId, env.at, env.fault);
    match result {
      case Success(txId) => resp := Response(200, Succeeded(txId));
      case Failure(code) => resp := Response(500, Failed(Reported(code, ChargeFailed)));
    }
  }

  // ---------------------------------------------------------------------
  // What a committed charge does

  /**
   * A charge's writes on their own: the balance, as read through `|| 0`, grows
   * by the amount; with a fresh log id exactly one CHARGE log is added, which
   * records the amount and the new balance; nothing else changes.
   */
  lemma ChargeCommitted(db: Db, u: string, a: real, logId: string, at: nat)
    requires u in db.users && logId !in db.logs
    ensures var after := ApplyAll(db, ChargeWrites(db, u, Finite(a), logId, at));
            && u in after.users
            && after.users[u].point == Some(Finite(OrZero(db.users[u].point) + a))
            && after.users[u].profile == db.users[u].profile
            && (forall v :: v in db.users && v != u ==> after.users[v] == db.users[v])
            && after.products == db.products
            && after.logs.Keys == db.logs.Keys + {logId}
            && |after.logs| == |db.logs| + 1
            && (forall k :: k in db.logs ==> after.logs[k] == db.logs[k])
            && after.logs[logId].userId == u && after.logs[logId].kind == Charge
            && after.logs[logId].amount == Finite(a)
            && Some(after.logs[logId].balance) == after.users[u].point
  {
    ChargeEffect(db, u, Finite(a), logId, at);
  }

  /**
   * A successful charge raises the caller's balance, as read through `|| 0`,
   * by exactly the amount, which is positive; with a fresh log id it adds
   * exactly one CHARGE log, which records the amount and the new balance, and
   * answers with that log's id. Nothing else in the store changes.
   */
  lemma ChargeCredits(before: Db, httpMethod: string, authorization: Option<string>, verified: Result<string, string>,
                      body: ChargeRequest, env: ChargeEnv)
    requires ChargeHandler(before, httpMethod, authorization, verified, body, env).0.reply.Succeeded?
    requires env.logId !in before.logs
    ensures var (resp, after) := ChargeHandler(before, httpMethod, authorization, verified, body, env);
            var u := verified.value;
            var a := body.amount.n.v;
            && verified.Success? && body.amount.Number? && body.amount.n.Finite? && a > 0.0
            && u in before.users && u in after.users
            && after.users[u].point == Some(Finite(OrZero(before.users[u].point) + a))
            && OrZero(after.users[u].point) > OrZero(before.users[u].point)
            && after.users[u].profile == before.users[u].profile
            && (forall v :: v in before.users && v != u ==> after.users[v] == before.users[v])
            && after.products == before.products
            && after.logs.Keys == before.logs.Keys + {env.logId}
            && |after.logs| == |before.logs| + 1
            && (forall k :: k in before.logs ==> after.logs[k] == before.logs[k])
            && after.logs[env.logId].userId == u && after.logs[env.logId].kind == Charge
            && after.logs[env.logId].amount == Finite(a)
            && Some(after.logs[env.logId].balance) == after.users[u].point
            && resp == Response(200, Succeeded(env.logId))
  {
    var gate := Gate(httpMethod, authorization, verified, ChargeFailed);
    assert gate.Success?;
    ChargeCommitted(before, verified.value, body.amount.n.v, env.logId, env.at);
  }

  /**
   * A balance that is absent, zero or NaN is read as 0 by `|| 0`: a charge
   * leaves such a user holding exactly the amount.
   */
  lemma ChargeResetsUnreadableBalance(db: Db, userId: string, a: real, logId: string, at: nat)
    requires userId in db.users
    requires db.users[userId].point in {None, Some(NaN), Some(Finite(0.0))}
    ensures ApplyAll(db, ChargeWrites(db, userId, Finite(a), logId, at)).users[userId].point == Some(Finite(a))
  {
    ChargeEffect(db, userId, Finite(a), logId, at);
  }

  /** Method, token and input failures are answered the same whatever the store holds, and leave it untouched. */
  lemma ChargeChecksPrecedeStore(db1: Db, db2: Db, httpMethod: string, authorization: Option<string>,
                                 verified: Result<string, string>, body: ChargeRequest, env: ChargeEnv)
    requires var gate := Gate(httpMethod, authorization, verified, ChargeFailed);
             gate.Failure? || CheckInput(body, gate.value).Some?
    ensures ChargeHandler(db1, httpMethod, authorization, verified, body, env).0 ==
            ChargeHandler(db2, httpMethod, authorization, verified, body, env).0
    ensures ChargeHandler(db1, httpMethod, authorization, verified, body, env).1 == db1
  {
  }

  /**
   * Only a success answer changes the store. The failures are answered: 400
   * for INVALID_INPUT and INVALID_AMOUNT, 403 for FORBIDDEN, and 500 for an
   * unknown user or a rejected commit.
   */
  lemma ChargeResponses(before: Db, httpMethod: string, authorization: Option<string>, verified: Result<string, string>,
                        body: ChargeRequest, env: ChargeEnv)
    requires httpMethod == "POST" && BearerToken(authorization) != "" && verified.Success?
    ensures var (resp, after) := ChargeHandler(before, httpMethod, authorization, verified, body, env);
            var check := CheckInput(body, verified.value);
            && (!resp.reply.Succeeded? ==> after == before)
            && (check == Some(InvalidInput) ==> resp == Response(400, Failed(InvalidInput)))
            && (check == Some(Forbidden) ==> resp == Response(403, Failed(Forbidden)))
            && (check == Some(InvalidAmount) ==> resp == Response(400, Failed(InvalidAmount)))
            && (check == None && verified.value !in before.users ==> resp == Response(500, Failed(UserNotFound)))
            && (check == None && verified.value in before.users ==>
                  resp == if env.fault.Some? then Response(500, Failed(Reported(Raw(env.fault.value), ChargeFailed)))
                          else Response(200, Succeeded(env.logId)))
  {
  }
}
