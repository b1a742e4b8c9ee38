/**
 * src/features/wallet/components/ChargeForm.jsx: the charge as the browser
 * runs it against the store directly. The form holds the typed amount as
 * text; on submit it reads it with `parseInt`, refuses an empty, non-positive
 * or too large amount, and runs a transaction that adds the amount to the
 * user's balance (read through `|| 0`) and writes a CHARGE log under an id
 * built from the clock and the user id.
 */
module ChargeFormModel {
  import opened Wrappers
  import opened Js
  import opened Outcomes
  import opened Store
  import TransferClient

  /** The largest amount one charge may add. */
  const Limit: nat := 1000000

  /** The amounts of the preset buttons. */
  const Presets: seq<nat> := [10000, 30000, 50000, 100000]

  /** The error texts the form shows. */
  datatype FormError =
    | EnterValidAmount     // empty or not above zero
    | OverLimit            // above 1,000,000
    | ChargeFailedTryAgain // the transaction failed, for whatever reason

  /**
   * The checks of `handleSubmit` before the transaction: the amount read with
   * `parseInt`, or the error shown. A text from which `parseInt` reads no digit
   * gives NaN, which no comparison rejects.
   */
  function CheckAmount(text: string): (r: Result<Num, FormError>)
    ensures r.Success? <==> text != "" && !AtMost(ParseInt(text), Finite(0.0)) && !Below(Finite(Limit as real), ParseInt(text))
    ensures r.Success? ==> r.value == ParseInt(text)
    ensures r == Failure(EnterValidAmount) <==> text == "" || AtMost(ParseInt(text), Finite(0.0))
    ensures r == Failure(OverLimit) <==> text != "" && Below(Finite(Limit as real), ParseInt(text))
    ensures r.Success? && r.value.Finite? ==>
              && 0.0 < r.value.v <= Limit as real
              && r.value.v.Floor as real == r.value.v
  {
    if text == "" || AtMost(ParseInt(text), Finite(0.0)) then Failure(EnterValidAmount)
    else
      var chargeAmount := ParseInt(text);
      if Below(Finite(Limit as real), chargeAmount) then Failure(OverLimit)
      else Success(chargeAmount)
  }

  /** `charge_${Date.now()}_${userId}`. */
  function ChargeLogId(now: nat, userId: string): string {
    "charge_" + NatToString(now) + "_" + userId
  }

  /** The `runTransaction` callback, with `now` the clock reading and `at` the commit time. Reads only. */
  method ChargeBody(db: Firestore, userId: string, chargeAmount: Num, now: nat, at: nat) returns (out: Body<()>)
    ensures out.Threw? <==> userId !in db.Snapshot().users
    ensures out.Threw? ==> out.code == UserNotFound
    ensures out.Returned? ==> out.writes == ChargeWrites(db.Snapshot(), userId, chargeAmount, ChargeLogId(now, userId), at)
  {
    if userId !in db.users {
      return Threw(UserNotFound);
    }
    var userData := db.users[userId];
    var currentBalance := Finite(OrZero(userData.point));
    var newBalance := Plus(currentBalance, chargeAmount);
    var writes: seq<Write> := [];
    writes := writes + [SetPoint(userId, newBalance)];
    var logId := ChargeLogId(now, userId);
    writes := writes + [SetLog(logId, LogEntry(userId, Charge, chargeAmount, newBalance, None, None, Charged(chargeAmount), at))];
    out := Returned(writes, ());
  }

  /** `runTransaction(db, body)`: a body that throws, or a commit the store rejects, commits nothing. */
  method RunCharge(db: Firestore, userId: string, chargeAmount: Num, now: nat, at: nat, fault: Option<string>)
    returns (ok: bool)
    modifies db
    ensures ok <==> userId in old(db.Snapshot()).users && fault.None?
    ensures !ok ==> db.Snapshot() == old(db.Snapshot())
    ensures ok ==> db.Snapshot() == ApplyAll(old(db.Snapshot()), ChargeWrites(old(db.Snapshot()), userId, chargeAmount, ChargeLogId(now, userId), at))
  {
    var out := ChargeBody(db, userId, chargeAmount, now, at);
    if out.Threw? || fault.Some? {
      return false;
    }
    db.Commit(out.writes);
    ok := true;
  }

  /**
   * One submission as a function of the typed text and the store: the error
   * the form then shows (None after a charge), and the store after it. Every
   * failure of the transaction shows the same error.
   */
  function Submit(before: Db, text: string, userId: string, now: nat, at: nat, fault: Option<string>): (Option<FormError>, Db) {
    match CheckAmount(text)
    case Failure(e) => (Some(e), before)
    case Success(chargeAmount) =>
      if userId !in before.users || fault.Some? then (Some(ChargeFailedTryAgain), before)
      else (None, ApplyAll(before, ChargeWrites(before, userId, chargeAmount, ChargeLogId(now, userId), at)))
  }

  /** The form's state: the typed amount, whether a charge is running, the error shown. */
  class Form {
    const userId: string
    var amount: string
    var loading: bool
    var error: Option<FormError>

    constructor (userId: string)
      ensures this.userId == userId && amount == "" && !loading && error == None
    {
      this.userId := userId;
      amount := "";
      loading := false;
      error := None;
    }

    /** A preset button: `setAmount(preset.toString())`. */
    method ChoosePreset(i: nat)
      requires i < |Presets|
      modifies this
      ensures amount == NatToString(Presets[i])
      ensures loading == old(loading) && error == old(error)
    {
      amount := NatToString(Presets[i]);
    }

    /** The input's change handler: `setAmount(e.target.value)`. */
    method Edit(text: string)
      modifies this
      ensures amount == text && loading == old(loading) && error == old(error)
    {
      amount := text;
    }

    /**
     * `handleSubmit`: the error shown and the store afterwards are those of
     * `Submit`; `charged` is whether the success path (refresh, alert,
     * `onSuccess`) runs. A submission refused before the transaction leaves
     * `loading` alone; one that reached the transaction ends with it cleared.
     */
    method HandleSubmit(db: Firestore, now: nat, at: nat, fault: Option<string>) returns (charged: bool)
      modifies this, db
      ensures (error, db.Snapshot()) == Submit(old(db.Snapshot()), old(amount), userId, now, at, fault)
      ensures charged <==> error == None
      ensures amount == old(amount)
      ensures loading == (old(loading) && CheckAmount(old(amount)).Failure?)
    {
      var text := amount;
      if text == "" || AtMost(ParseInt(text), Finite(0.0)) {
        error := Some(EnterValidAmount);
        return false;
      }
      var chargeAmount := ParseInt(text);
      if Below(Finite(Limit as real), chargeAmount) {
        error := Some(OverLimit);
        return false;
      }
      loading := true;
      error := None;
      var ok := RunCharge(db, userId, chargeAmount, now, at, fault);
      if ok {
        charged := true;
      } else {
        error := Some(ChargeFailedTryAgain);
        charged := false;
      }
      loading := false;
    }
  }

  // ---------------------------------------------------------------------
  // Which amounts the form lets through

  /** The decimal text of a whole number is refused when 0, refused when above the limit, and read back exactly otherwise. */
  lemma WholeAmounts(n: nat)
    ensures CheckAmount(NatToString(n)) ==
              if n == 0 then Failure(EnterValidAmount)
              else if n > Limit then Failure(OverLimit)
              else Success(Finite(n as real))
  {
    ParseIntOfNatToString(n);
  }

  /** Every preset button fills in an amount the form accepts as it is. */
  lemma PresetAccepted(i: nat)
    requires i < |Presets|
    ensures CheckAmount(NatToString(Presets[i])) == Success(Finite(Presets[i] as real))
  {
    var preset := Presets[i];
    assert 0 < preset <= Limit;
    WholeAmounts(preset);
  }

  /**
   * `parseInt` stops at the first character that is not a digit, so an amount
   * typed in exponent form passes the limit check as its leading digits:
   * "2e6" is charged as 2.
   */
  lemma ExponentFormTruncated()
    ensures ParseInt("2e6") == Finite(2.0)
    ensures CheckAmount("2e6") == Success(Finite(2.0))
  {
    var s := "2e6";
    assert TrimStart(s) == s;
    assert DigitPrefix(s[1..], false) == [];
    assert DigitPrefix(s, false) == "2";
    assert DigitsValue("2", false) == 2 by {
      assert "2"[..0] == [];
    }
  }

  /**
   * A text from which `parseInt` reads no digit passes every check as NaN;
   * the charge then stores NaN as the balance, which every later read through
   * `|| 0` takes for 0, so the whole balance is lost.
   */
  lemma NoDigitsLosesBalance(db: Db, text: string, userId: string, now: nat, at: nat)
    requires text != "" && ParseInt(text) == NaN && userId in db.users
    ensures CheckAmount(text) == Success(NaN)
    ensures var after := Submit(db, text, userId, now, at, None).1;
            && after.users[userId].point == Some(NaN)
            && OrZero(after.users[userId].point) == 0.0
  {
    ChargeEffect(db, userId, NaN, ChargeLogId(now, userId), at);
  }

  // ---------------------------------------------------------------------
  // What a submission does to the store

  /**
   * A submission that shows no error raised the user's balance, read through
   * `|| 0`, by the amount read from the text, and wrote the CHARGE log under
   * the clock-based id, leaving the products alone; one that shows an error
   * changed nothing.
   */
  lemma SubmitEffect(db: Db, text: string, userId: string, now: nat, at: nat, fault: Option<string>)
    ensures var (shown, after) := Submit(db, text, userId, now, at, fault);
            && (shown.Some? ==> after == db)
            && (shown == Some(ChargeFailedTryAgain) <==> CheckAmount(text).Success? && (userId !in db.users || fault.Some?))
            && (shown.None? ==>
                  var a := ParseInt(text);
                  var newBalance := Plus(Finite(OrZero(db.users[userId].point)), a);
                  && userId in db.users && fault.None?
                  && after.users == db.users[userId := db.users[userId].(point := Some(newBalance))]
                  && after.logs == db.logs[ChargeLogId(now, userId) := LogEntry(userId, Charge, a, newBalance, None, None, Charged(a), at)]
                  && after.products == db.products
                  && (a.Finite? ==> OrZero(db.users[userId].point) < newBalance.v <= OrZero(db.users[userId].point) + Limit as real))
  {
    if CheckAmount(text).Success? && userId in db.users {
      ChargeEffect(db, userId, ParseInt(text), ChargeLogId(now, userId), at);
    }
  }

  // ---------------------------------------------------------------------
  // The log ids

  /** The digits of the clock never contain `_`, so `D + "_" + u` determines both D and u. */
  lemma {:induction false} SplitAtUnderscore(d1: string, u1: string, d2: string, u2: string)
    requires forall i :: 0 <= i < |d1| ==> '0' <= d1[i] <= '9'
    requires forall i :: 0 <= i < |d2| ==> '0' <= d2[i] <= '9'
    requires d1 + "_" + u1 == d2 + "_" + u2
    ensures d1 == d2 && u1 == u2
  {
    var x := d1 + "_" + u1;
    assert x[|d1|] == '_' && x[|d2|] == '_';
    assert |d1| == |d2|;
    assert d1 == x[..|d1|] == d2;
    assert u1 == x[|d1| + 1..] == u2;
  }

  /** Two charge log ids are equal exactly when both the clock readings and the users are. */
  lemma ChargeLogIdInjective(n1: nat, u1: string, n2: nat, u2: string)
    ensures ChargeLogId(n1, u1) == ChargeLogId(n2, u2) <==> n1 == n2 && u1 == u2
  {
    if ChargeLogId(n1, u1) == ChargeLogId(n2, u2) {
      var p := "charge_";
      assert ChargeLogId(n1, u1) == p + (NatToString(n1) + "_" + u1);
      assert ChargeLogId(n2, u2) == p + (NatToString(n2) + "_" + u2);
      assert NatToString(n1) + "_" + u1 == ChargeLogId(n1, u1)[|p|..];
      assert NatToString(n2) + "_" + u2 == ChargeLogId(n2, u2)[|p|..];
      SplitAtUnderscore(NatToString(n1), u1, NatToString(n2), u2);
      NatToStringInjective(n1, n2);
    }
  }

  /** A charge log never takes the id of a purchase log written by the client: they start `c` and `t`. */
  lemma ChargeLogIdNotPurchase(n: nat, u: string, m: nat, v: string)
    ensures ChargeLogId(n, u) != TransferClient.SenderLogId(m, v)
    ensures ChargeLogId(n, u) != TransferClient.ReceiverLogId(m, v)
  {
    assert ChargeLogId(n, u)[0] == 'c';
    assert TransferClient.SenderLogId(m, v)[0] == 't';
    assert TransferClient.ReceiverLogId(m, v)[0] == 't';
  }

  /** One charge on a balance holding a number: the balance grows by the amount, and the log lands under `id`. */
  lemma ChargeOnNumber(db: Db, userId: string, x: real, a: real, id: string, at: nat)
    requires userId in db.users && db.users[userId].point == Some(Finite(x))
    ensures var after := ApplyAll(db, ChargeWrites(db, userId, Finite(a), id, at));
            && after.users[userId].point == Some(Finite(x + a))
            && after.logs.Keys == db.logs.Keys + {id}
            && |after.logs| == (if id in db.logs then |db.logs| else |db.logs| + 1)
            && after.logs[id].amount == Finite(a)
  {
    ChargeEffect(db, userId, Finite(a), id, at);
  }

  /**
   * Two charges by the same user within the same millisecond share a log id:
   * both amounts reach the balance, but the second log replaces the first, so
   * the logs no longer account for the balance.
   */
  lemma SameMillisecondChargesShareLog(db: Db, userId: string, x: real, a1: real, a2: real, now: nat, at1: nat, at2: nat)
    requires userId in db.users && db.users[userId].point == Some(Finite(x))
    requires ChargeLogId(now, userId) !in db.logs
    ensures var id := ChargeLogId(now, userId);
            var mid := ApplyAll(db, ChargeWrites(db, userId, Finite(a1), id, at1));
            var after := ApplyAll(mid, ChargeWrites(mid, userId, Finite(a2), id, at2));
            && after.users[userId].point == Some(Finite(x + a1 + a2))
            && after.logs.Keys == db.logs.Keys + {id}
            && |after.logs| == |db.logs| + 1
            && after.logs[id].amount == Finite(a2)
  {
    var id := ChargeLogId(now, userId);
    ChargeOnNumber(db, userId, x, a1, id, at1);
    var mid := ApplyAll(db, ChargeWrites(db, userId, Finite(a1), id, at1));
    ChargeOnNumber(mid, userId, x + a1, a2, id, at2);
  }
}
