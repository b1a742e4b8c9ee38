/**
 * Error codes, and ordered lists of rejection rules: every check chain of the
 * ledger (request validation, the charge input checks, the reads inside a
 * transaction) stops at its first failing check, and is specified here as the
 * first failing rule of a list written in source order.
 */
module Outcomes {
  import opened Wrappers

  /**
   * The error codes the ledger reports; `Raw` carries the message of an error
   * raised by the store SDK. The program sees only the text of a code, so
   * `Raw("SENDER_NOT_FOUND")` and `SenderNotFound` stand for the same error:
   * compare codes by `Text` wherever the program compares them.
   */
  datatype Code =
    | Unauthorized
    | InvalidInput
    | InvalidAmount
    | InvalidReceiver
    | Forbidden
    | MethodNotAllowed
    | SenderNotFound
    | InsufficientBalance
    | ReceiverNotFound
    | ProductNotFound
    | ProductNotAvailable
    | UserNotFound
    | TransactionFailed
    | ChargeFailed
    | Raw(message: string)

  /** The code as the text an error carries in its `message` and a response in its `code`. */
  function Text(c: Code): string {
    match c
    case Unauthorized => "UNAUTHORIZED"
    case InvalidInput => "INVALID_INPUT"
    case InvalidAmount => "INVALID_AMOUNT"
    case InvalidReceiver => "INVALID_RECEIVER"
    case Forbidden => "FORBIDDEN"
    case MethodNotAllowed => "METHOD_NOT_ALLOWED"
    case SenderNotFound => "SENDER_NOT_FOUND"
    case InsufficientBalance => "INSUFFICIENT_BALANCE"
    case ReceiverNotFound => "RECEIVER_NOT_FOUND"
    case ProductNotFound => "PRODUCT_NOT_FOUND"
    case ProductNotAvailable => "PRODUCT_NOT_AVAILABLE"
    case UserNotFound => "USER_NOT_FOUND"
    case TransactionFailed => "TRANSACTION_FAILED"
    case ChargeFailed => "CHARGE_FAILED"
    case Raw(m) => m
  }

  /** `error.message || fallback` in a catch block: only an error with an empty message is reported as the fallback. */
  function Reported(thrown: Code, fallback: Code): Code {
    if thrown == Raw("") then fallback else thrown
  }

  /** One check of a chain: whether it rejects, and the code it rejects with. */
  datatype Rule = Rule(fails: bool, code: Code)

  predicate AllPass(rules: seq<Rule>) {
    forall i :: 0 <= i < |rules| ==> !rules[i].fails
  }

  /** The code of the first failing rule, in list order; None when every rule passes. */
  function FirstFailure(rules: seq<Rule>): Option<Code> {
    if rules == [] then None
    else if rules[0].fails then Some(rules[0].code)
    else FirstFailure(rules[1..])
  }

  /** FirstFailure reports exactly the failing rule that every earlier rule lets through. */
  lemma {:induction false} FirstFailureIsFirst(rules: seq<Rule>)
    ensures FirstFailure(rules) == None <==> AllPass(rules)
    ensures forall i :: 0 <= i < |rules| && rules[i].fails && AllPass(rules[..i]) ==>
              FirstFailure(rules) == Some(rules[i].code)
  {
    if rules != [] {
      FirstFailureIsFirst(rules[1..]);
      forall i | 0 <= i < |rules| && rules[i].fails && AllPass(rules[..i])
        ensures FirstFailure(rules) == Some(rules[i].code)
      {
        if i > 0 {
          assert !rules[0].fails by { assert rules[..i][0] == rules[0]; }
          assert rules[1..][i - 1] == rules[i];
          assert rules[1..][..i - 1] == rules[..i][1..];
        }
      }
      if !rules[0].fails && AllPass(rules[1..]) {
        forall i | 0 <= i < |rules| ensures !rules[i].fails {
          if i > 0 { assert rules[i] == rules[1..][i - 1]; }
        }
      }
    }
  }

  /** A rule that passes can be dropped from a chain without changing what the chain reports. */
  lemma {:induction false} FirstFailureSkipsPassing(rules: seq<Rule>, i: nat)
    requires i < |rules| && !rules[i].fails
    ensures FirstFailure(rules[..i] + rules[i + 1..]) == FirstFailure(rules)
  {
    if i == 0 {
      assert rules[..0] + rules[1..] == rules[1..];
    } else {
      var rest := rules[1..];
      FirstFailureSkipsPassing(rest, i - 1);
      var dropped := rules[..i] + rules[i + 1..];
      assert dropped[0] == rules[0];
      assert dropped[1..] == rest[..i - 1] + rest[i..];
    }
  }

  /** Every rule of the list rejects with a code whose text is not empty. */
  predicate NamedCodes(rules: seq<Rule>) {
    forall i :: 0 <= i < |rules| ==> rules[i].code != Raw("")
  }

  /** A chain whose codes all have a text is reported as it is, never as the catch block's fallback. */
  lemma {:induction false} FirstFailureReported(rules: seq<Rule>, fallback: Code)
    requires NamedCodes(rules) && FirstFailure(rules).Some?
    ensures Reported(FirstFailure(rules).value, fallback) == FirstFailure(rules).value
  {
    if !rules[0].fails {
      assert NamedCodes(rules[1..]) by {
        forall i | 0 <= i < |rules| - 1 ensures rules[1..][i].code != Raw("") {
          assert rules[1..][i] == rules[i + 1];
        }
      }
      FirstFailureReported(rules[1..], fallback);
    }
  }
}
