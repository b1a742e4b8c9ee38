/** functions/src/utils/validators.js: the input and authorization checks of a transfer request. */
module Validators {
  import opened Wrappers
  import opened Js
  import opened Outcomes

  /** The fields of a transfer request body; an absent field is `Undefined`. */
  datatype TransferRequest = TransferRequest(senderId: Value, receiverId: Value, amount: Value, productId: Value)

  /** The checks of `validateTransaction`, in source order. */
  function ValidationRules(body: TransferRequest, uid: string): seq<Rule> {
    [ Rule(!StrictEquals(body.senderId, Str(uid)), Unauthorized),
      Rule(Falsy(body.senderId) || Falsy(body.receiverId) || Falsy(body.amount) || Falsy(body.productId), InvalidInput),
      Rule(!body.amount.Number? || AtMost(body.amount.n, Finite(0.0)), InvalidAmount),
      Rule(StrictEquals(body.senderId, body.receiverId), InvalidReceiver) ]
  }

  /** True when the amount field is a finite number above zero. */
  predicate PositiveAmount(amount: Value) {
    amount.Number? && amount.n.Finite? && amount.n.v > 0.0
  }

  /**
   * `validateTransaction(data, uid)`: None for `{valid: true}`, otherwise the
   * code of the first check that rejects. The request is accepted exactly
   * when the sender is the caller, the caller's id is not empty, the receiver
   * and product ids are truthy and the receiver is someone else, and the
   * amount is a positive number, of any size and not necessarily whole.
   */
  function Validate(body: TransferRequest, uid: string): (r: Option<Code>)
    ensures r == None <==>
              && body.senderId == Str(uid) && uid != ""
              && !Falsy(body.receiverId) && !Falsy(body.productId)
              && PositiveAmount(body.amount)
              && body.receiverId != Str(uid)
  {
    if !StrictEquals(body.senderId, Str(uid)) then Some(Unauthorized)
    else if Falsy(body.senderId) || Falsy(body.receiverId) || Falsy(body.amount) || Falsy(body.productId) then Some(InvalidInput)
    else if !body.amount.Number? || AtMost(body.amount.n, Finite(0.0)) then Some(InvalidAmount)
    else if StrictEquals(body.senderId, body.receiverId) then Some(InvalidReceiver)
    else None
  }

  /** The if-chain reports the first failing check of the ordered list. */
  lemma ValidateIsFirstFailure(body: TransferRequest, uid: string)
    ensures Validate(body, uid) == FirstFailure(ValidationRules(body, uid))
  {
    var rules := ValidationRules(body, uid);
    FirstFailureIsFirst(rules);
    assert rules[..1] == [rules[0]];
    assert rules[..2] == [rules[0], rules[1]];
    assert rules[..3] == [rules[0], rules[1], rules[2]];
  }

  /** A sender other than the caller is refused as UNAUTHORIZED whatever else the request holds, even a missing sender. */
  lemma SenderMismatchFirst(body: TransferRequest, uid: string)
    requires body.senderId != Str(uid)
    ensures Validate(body, uid) == Some(Unauthorized)
  {
  }

  /** An amount of 0 is a missing field (INVALID_INPUT), not an invalid amount. */
  lemma ZeroAmountIsMissing(body: TransferRequest, uid: string)
    requires body.senderId == Str(uid)
    ensures Validate(body.(amount := Number(Finite(0.0))), uid) == Some(InvalidInput)
  {
  }

  /** A negative amount, or one that is not a number, is INVALID_AMOUNT once the earlier checks pass. */
  lemma BadAmountIsInvalidAmount(body: TransferRequest, uid: string)
    requires body.senderId == Str(uid) && uid != "" && !Falsy(body.receiverId) && !Falsy(body.productId)
    requires !Falsy(body.amount) && !PositiveAmount(body.amount)
    ensures Validate(body, uid) == Some(InvalidAmount)
  {
  }

  /** Sending to oneself is INVALID_RECEIVER, and only after every earlier check has passed. */
  lemma SelfTransferLast(body: TransferRequest, uid: string)
    ensures Validate(body, uid) == Some(InvalidReceiver) <==>
              && body.senderId == Str(uid) && uid != ""
              && !Falsy(body.productId) && PositiveAmount(body.amount)
              && body.receiverId == Str(uid)
  {
  }
}
