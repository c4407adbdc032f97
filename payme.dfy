/**
 * The Payme Merchant API handler: six JSON-RPC methods over the table of
 * Payme transactions keyed by Payme's transaction id. Each row carries a
 * coarse settlement status (PENDING, PAID, CANCELED) and Payme's
 * fine-grained state (Pending, Paid, PendingCanceled, PaidCanceled).
 * A transaction older than 720 minutes is canceled by timeout instead of
 * being replayed or performed.
 */
module Payme {
  import opened Store

  /** 720 minutes in milliseconds. */
  const TimeoutMs: int := 720 * 60 * 1000

  datatype ErrorCode =
    | TransactionNotAllowed
    | InvalidAmount
    | ProductNotFound
    | UserNotFound
    | TransactionInProcess
    | CantDoOperation
    | TransactionNotFound

  /** An error object; the timeout cancel adds the new state and the reason to it. */
  datatype PaymeError = PaymeError(code: ErrorCode, state: Option<TxState>, reason: Option<CancelReason>)

  /** One element of a GetStatement listing. */
  datatype StatementEntry = StatementEntry(
    id: string,
    time: int,
    amount: int,
    userId: string,
    planId: string,
    createTime: int,
    performTime: Option<int>,
    cancelTime: Option<int>,
    transaction: string,
    state: TxState,
    reason: Option<CancelReason>)

  datatype Response =
    | InvalidMethod                 // the literal 'Invalid transaction method'
    | Error(error: PaymeError, id: Option<string>)
    | Allow
    | Created(transaction: string, state: TxState, createTime: int)
    | Performed(transaction: string, performTime: Option<int>, state: TxState)
    | Canceled(transaction: string, cancelTime: Option<int>, state: TxState)
    | Checked(createTime: int, performedAt: int, canceledAt: int, transaction: string, state: TxState, reason: Option<CancelReason>)
    | Statement(transactions: set<StatementEntry>)

  /** The request parameters the six methods read (account.plan_id, account.user_id, id, amount, from, to, reason). */
  datatype Params = Params(planId: string, userId: string, id: string, amount: int, from: int, to: int, reason: int)

  datatype Request = Request(methodName: string, params: Params)

  function Plain(code: ErrorCode): PaymeError {
    PaymeError(code, None, None)
  }

  /** An error response echoing the request's transaction id. */
  function Fail(code: ErrorCode, id: string): Response {
    Error(Plain(code), Some(id))
  }

  const TimeoutError: PaymeError := PaymeError(CantDoOperation, Some(PendingCanceled), Some(CanceledDueToTimeout))

  /** checkTransactionExpiration: created strictly before now minus 720 minutes. */
  predicate Expired(createdAt: int, now: int) {
    createdAt < now - TimeoutMs
  }

  /**
   * A row stays open for exactly 720 minutes: not expired up to and including
   * createdAt + 720 min, expired one millisecond later, and from then on for good.
   */
  lemma ExpiryBoundary(createdAt: int, now: int, later: int)
    ensures !Expired(createdAt, createdAt + 720 * 60 * 1000)
    ensures Expired(createdAt, createdAt + 720 * 60 * 1000 + 1)
    ensures Expired(createdAt, now) && now <= later ==> Expired(createdAt, later)
  {
  }

  /** The row after the timeout rule cancels it. */
  function TimeoutCancel(tx: PaymeTx, now: int): PaymeTx {
    tx.(status := TxStatus.CANCELED, state := PendingCanceled, reason := Some(CanceledDueToTimeout), cancelAt := Some(now))
  }

  /** The row createTransaction inserts. */
  function NewPending(rowId: string, p: Params, now: int): PaymeTx {
    PaymeTx(rowId, p.userId, p.planId, p.amount, PENDING, Pending, None, now, None, None)
  }

  predicate IsPendingFor(tx: PaymeTx, userId: string, planId: string) {
    tx.userId == userId && tx.planId == planId && tx.status == PENDING
  }

  predicate HasPending(txs: map<string, PaymeTx>, userId: string, planId: string) {
    exists k :: k in txs && IsPendingFor(txs[k], userId, planId)
  }

  /** The two parallel fields agree, and the timestamps are set exactly when the lifecycle reached them. */
  predicate RowValid(tx: PaymeTx) {
    && (tx.status == PENDING <==> tx.state == Pending)
    && (tx.status == PAID <==> tx.state == Paid)
    && (tx.status == TxStatus.CANCELED <==> tx.state == PendingCanceled || tx.state == PaidCanceled)
    && (tx.status == PENDING ==> tx.performAt.None?)
    && (tx.state == Paid || tx.state == PaidCanceled ==> tx.performAt.Some?)
    && (tx.status == TxStatus.CANCELED <==> tx.cancelAt.Some?)
    && (tx.status == TxStatus.CANCELED <==> tx.reason.Some?)
  }

  /** At most one PENDING transaction per (user, plan): one concurrent attempt per account. */
  predicate OnePendingPerAccount(txs: map<string, PaymeTx>) {
    forall k1, k2 ::
      (k1 in txs && k2 in txs && IsPendingFor(txs[k1], txs[k2].userId, txs[k2].planId) && txs[k2].status == PENDING)
      ==> k1 == k2
  }

  /** The invariant every method of the handler keeps. */
  predicate Valid(txs: map<string, PaymeTx>) {
    OnePendingPerAccount(txs) && forall k :: k in txs ==> RowValid(txs[k])
  }

  /**
   * What the invariant buys: in a table that satisfies it, the pending-row
   * lookup for an account has at most one answer, and that row's state is
   * Pending with no perform time.
   */
  lemma PendingRowUnique(txs: map<string, PaymeTx>, userId: string, planId: string, k1: string, k2: string)
    requires Valid(txs)
    requires k1 in txs && IsPendingFor(txs[k1], userId, planId)
    requires k2 in txs && IsPendingFor(txs[k2], userId, planId)
    ensures k1 == k2 && txs[k1].state == Pending && txs[k1].performAt.None?
  {
  }

  /** CheckPerformTransaction: read-only authorization of an account and amount. */
  function CheckPerform(validId: string -> bool, plans: map<string, Plan>, users: map<string, User>,
                        planId: string, userId: string, amount: int): (r: Response)
    ensures r == Allow || r == Error(Plain(TransactionNotAllowed), None) || r == Error(Plain(InvalidAmount), None)
    ensures r == Allow <==>
      validId(planId) && validId(userId) && planId in plans && userId in users &&
      (amount == plans[planId].price || amount == plans[planId].price * 100)
    ensures r == Error(Plain(InvalidAmount), None) <==>
      validId(planId) && validId(userId) && planId in plans && userId in users &&
      amount != plans[planId].price && amount != plans[planId].price * 100
  {
    if !validId(planId) || !validId(userId) then Error(Plain(TransactionNotAllowed), None)
    else if planId !in plans || userId !in users then Error(Plain(TransactionNotAllowed), None)
    else if amount == plans[planId].price then Allow
    else if plans[planId].price * 100 != amount then Error(Plain(InvalidAmount), None)
    else Allow
  }

  /** The request passes every validation createTransaction makes before it looks at existing rows. */
  predicate Authorized(validId: string -> bool, plans: map<string, Plan>, users: map<string, User>, p: Params) {
    validId(p.planId) && validId(p.userId) && p.userId in users && p.planId in plans &&
    p.amount == plans[p.planId].price * 100
  }

  /** CreateTransaction: the response and the new table. */
  function Create(validId: string -> bool, plans: map<string, Plan>, users: map<string, User>,
                  txs: map<string, PaymeTx>, p: Params, now: int, rowId: string): (r: (Response, map<string, PaymeTx>))
    requires Valid(txs)
    ensures Valid(r.1)
    ensures r.0.Error? ==> r.0.id == Some(p.id)
    ensures r.1.Keys == txs.Keys || r.1.Keys == txs.Keys + {p.id}
    ensures forall k :: k in txs && k != p.id ==> r.1[k] == txs[k]
    // the validations, in their order
    ensures !validId(p.planId) ==> r == (Fail(ProductNotFound, p.id), txs)
    ensures validId(p.planId) && !validId(p.userId) ==> r == (Fail(UserNotFound, p.id), txs)
    ensures validId(p.planId) && validId(p.userId) && p.userId !in users ==> r == (Fail(UserNotFound, p.id), txs)
    ensures validId(p.planId) && validId(p.userId) && p.userId in users && p.planId !in plans ==>
      r == (Fail(ProductNotFound, p.id), txs)
    ensures (validId(p.planId) && validId(p.userId) && p.userId in users && p.planId in plans &&
             p.amount != plans[p.planId].price * 100) ==> r == (Fail(InvalidAmount, p.id), txs)
    // a pending attempt for the same account
    ensures Authorized(validId, plans, users, p) && p.id in txs && IsPendingFor(txs[p.id], p.userId, p.planId) ==>
      r == (Created(txs[p.id].id, Pending, txs[p.id].createdAt), txs)
    ensures (Authorized(validId, plans, users, p) && HasPending(txs, p.userId, p.planId) &&
             !(p.id in txs && IsPendingFor(txs[p.id], p.userId, p.planId))) ==> r == (Fail(TransactionInProcess, p.id), txs)
    // a row already stored under this id, whatever its status
    ensures Authorized(validId, plans, users, p) && !HasPending(txs, p.userId, p.planId) && p.id in txs ==>
      if Expired(txs[p.id].createdAt, now)
      then r == (Error(TimeoutError, Some(p.id)), txs[p.id := TimeoutCancel(txs[p.id], now)])
      else r == (Created(txs[p.id].id, Pending, txs[p.id].createdAt), txs)
    // a fresh attempt: the re-check passes and exactly one PENDING row is added
    ensures Authorized(validId, plans, users, p) && !HasPending(txs, p.userId, p.planId) && p.id !in txs ==>
      r == (Created(rowId, Pending, now), txs[p.id := NewPending(rowId, p, now)])
  {
    if !validId(p.planId) then (Fail(ProductNotFound, p.id), txs)
    else if !validId(p.userId) then (Fail(UserNotFound, p.id), txs)
    else if p.userId !in users then (Fail(UserNotFound, p.id), txs)
    else if p.planId !in plans then (Fail(ProductNotFound, p.id), txs)
    else if p.amount != plans[p.planId].price * 100 then (Fail(InvalidAmount, p.id), txs)
    else if HasPending(txs, p.userId, p.planId) then
      if p.id in txs && IsPendingFor(txs[p.id], p.userId, p.planId)
      then (Created(txs[p.id].id, Pending, txs[p.id].createdAt), txs)
      else (Fail(TransactionInProcess, p.id), txs)
    else if p.id in txs then
      if Expired(txs[p.id].createdAt, now)
      then (Error(TimeoutError, Some(p.id)), txs[p.id := TimeoutCancel(txs[p.id], now)])
      else (Created(txs[p.id].id, Pending, txs[p.id].createdAt), txs)
    else
      var check := CheckPerform(validId, plans, users, p.planId, p.userId, plans[p.planId].price * 100);
      match check
      case Error(e, _) => (Error(e, Some(p.id)), txs)
      case _ => (Created(rowId, Pending, now), txs[p.id := NewPending(rowId, p, now)])
  }

  /** PerformTransaction: settle a pending row, replay a paid one, refuse the rest. */
  function Perform(txs: map<string, PaymeTx>, id: string, now: int): (r: (Response, map<string, PaymeTx>))
    requires Valid(txs)
    ensures Valid(r.1)
    ensures r.1.Keys == txs.Keys
    ensures forall k :: k in txs && k != id ==> r.1[k] == txs[k]
    ensures id !in txs ==> r == (Fail(TransactionNotFound, id), txs)
    ensures id in txs && txs[id].status == TxStatus.CANCELED ==> r == (Fail(CantDoOperation, id), txs)
    ensures id in txs && txs[id].status == PAID ==>
      r == (Performed(txs[id].id, txs[id].performAt, txs[id].state), txs)
    ensures id in txs && txs[id].status == PENDING && Expired(txs[id].createdAt, now) ==>
      r == (Error(TimeoutError, Some(id)), txs[id := TimeoutCancel(txs[id], now)])
    ensures id in txs && txs[id].status == PENDING && !Expired(txs[id].createdAt, now) ==>
      r.0 == Performed(txs[id].id, Some(now), Paid) &&
      r.1[id] == txs[id].(status := PAID, state := Paid, performAt := Some(now))
  {
    if id !in txs then (Fail(TransactionNotFound, id), txs)
    else
      var tx := txs[id];
      if tx.status != PENDING then
        if tx.status != PAID then (Fail(CantDoOperation, id), txs)
        else (Performed(tx.id, tx.performAt, tx.state), txs)
      else if Expired(tx.createdAt, now) then (Error(TimeoutError, Some(id)), txs[id := TimeoutCancel(tx, now)])
      else (Performed(tx.id, Some(now), Paid), txs[id := tx.(status := PAID, state := Paid, performAt := Some(now))])
  }

  /** CancelTransaction: cancel a pending or a paid row, report an already canceled one. */
  function Cancel(txs: map<string, PaymeTx>, id: string, reason: int, now: int): (r: (Response, map<string, PaymeTx>))
    requires Valid(txs)
    ensures Valid(r.1)
    ensures r.1.Keys == txs.Keys
    ensures forall k :: k in txs && k != id ==> r.1[k] == txs[k]
    ensures id !in txs ==> r == (Fail(TransactionNotFound, id), txs)
    ensures id in txs && txs[id].status == PENDING ==>
      r == (Canceled(txs[id].id, Some(now), PendingCanceled),
            txs[id := txs[id].(status := TxStatus.CANCELED, state := PendingCanceled, cancelAt := Some(now), reason := Some(Requested(reason)))])
    ensures id in txs && txs[id].status != PENDING && txs[id].state != Paid ==>
      r == (Canceled(txs[id].id, txs[id].cancelAt, txs[id].state), txs)
    ensures id in txs && txs[id].state == Paid ==>
      r == (Canceled(txs[id].id, Some(now), PaidCanceled),
            txs[id := txs[id].(status := TxStatus.CANCELED, state := PaidCanceled, cancelAt := Some(now), reason := Some(Requested(reason)))])
  {
    if id !in txs then (Fail(TransactionNotFound, id), txs)
    else
      var tx := txs[id];
      if tx.status == PENDING then
        (Canceled(tx.id, Some(now), PendingCanceled),
         txs[id := tx.(status := TxStatus.CANCELED, state := PendingCanceled, cancelAt := Some(now), reason := Some(Requested(reason)))])
      else if tx.state != Paid then (Canceled(tx.id, tx.cancelAt, tx.state), txs)
      else
        (Canceled(tx.id, Some(now), PaidCanceled),
         txs[id := tx.(status := TxStatus.CANCELED, state := PaidCanceled, cancelAt := Some(now), reason := Some(Requested(reason)))])
  }

  /** CheckTransaction: the stored fields, with 0 for a time not yet reached. */
  function Check(txs: map<string, PaymeTx>, id: string): (r: Response)
    ensures r.Error? <==> id !in txs
    ensures r.Error? ==> r == Fail(TransactionNotFound, id)
    ensures r.Checked? ==> (r.transaction == txs[id].id && r.state == txs[id].state &&
                            r.createTime == txs[id].createdAt && r.reason == txs[id].reason)
    ensures r.Checked? ==> (r.performedAt == if txs[id].performAt.Some? then txs[id].performAt.value else 0)
    ensures r.Checked? ==> (r.canceledAt == if txs[id].cancelAt.Some? then txs[id].cancelAt.value else 0)
  {
    if id !in txs then Fail(TransactionNotFound, id)
    else
      var tx := txs[id];
      Checked(tx.createdAt,
              if tx.performAt.Some? then tx.performAt.value else 0,
              if tx.cancelAt.Some? then tx.cancelAt.value else 0,
              tx.id, tx.state, tx.reason)
  }

  /** One listing entry; a stored reason code 0 is reported as null (`reason || null`). */
  function Entry(key: string, tx: PaymeTx): StatementEntry {
    StatementEntry(key, tx.createdAt, tx.amount, tx.userId, tx.planId, tx.createdAt, tx.performAt, tx.cancelAt,
                   tx.id, tx.state, if tx.reason == Some(Requested(0)) then None else tx.reason)
  }

  predicate InWindow(tx: PaymeTx, from: int, to: int) {
    from <= tx.createdAt <= to
  }

  /** GetStatement: exactly the rows created in [from, to], one entry each. */
  function StatementOf(txs: map<string, PaymeTx>, from: int, to: int): (r: set<StatementEntry>)
    ensures forall k :: k in txs && InWindow(txs[k], from, to) ==> Entry(k, txs[k]) in r
    ensures forall e :: e in r ==> e.id in txs && e == Entry(e.id, txs[e.id]) && from <= e.createTime <= to
  {
    set k | k in txs && InWindow(txs[k], from, to) :: Entry(k, txs[k])
  }

  /** handleTransactionMethods: dispatch on the method name. */
  function Handle(validId: string -> bool, plans: map<string, Plan>, users: map<string, User>,
                  txs: map<string, PaymeTx>, req: Request, now: int, rowId: string): (r: (Response, map<string, PaymeTx>))
    requires Valid(txs)
    ensures Valid(r.1)
    ensures r.0 == InvalidMethod <==>
      req.methodName !in {"CheckPerformTransaction", "CreateTransaction", "CheckTransaction",
                      "PerformTransaction", "CancelTransaction", "GetStatement"}
    ensures r.0 == InvalidMethod ==> r.1 == txs
    ensures req.methodName in {"CheckPerformTransaction", "CheckTransaction", "GetStatement"} ==> r.1 == txs
    ensures req.methodName == "CheckPerformTransaction" ==>
      r == (CheckPerform(validId, plans, users, req.params.planId, req.params.userId, req.params.amount), txs)
    ensures req.methodName == "CreateTransaction" ==> r == Create(validId, plans, users, txs, req.params, now, rowId)
    ensures req.methodName == "CheckTransaction" ==> r == (Check(txs, req.params.id), txs)
    ensures req.methodName == "PerformTransaction" ==> r == Perform(txs, req.params.id, now)
    ensures req.methodName == "CancelTransaction" ==> r == Cancel(txs, req.params.id, req.params.reason, now)
    ensures req.methodName == "GetStatement" ==> r == (Statement(StatementOf(txs, req.params.from, req.params.to)), txs)
  {
    var p := req.params;
    match req.methodName
    case "CheckPerformTransaction" => (CheckPerform(validId, plans, users, p.planId, p.userId, p.amount), txs)
    case "CreateTransaction" => Create(validId, plans, users, txs, p, now, rowId)
    case "CheckTransaction" => (Check(txs, p.id), txs)
    case "PerformTransaction" => Perform(txs, p.id, now)
    case "CancelTransaction" => Cancel(txs, p.id, p.reason, now)
    case "GetStatement" => (Statement(StatementOf(txs, p.from, p.to)), txs)
    case _ => (InvalidMethod, txs)
  }

  /**
   * Replaying a CreateTransaction that succeeded, before its row times out,
   * gives the same answer and leaves the table as the first call left it.
   */
  lemma CreateReplay(validId: string -> bool, plans: map<string, Plan>, users: map<string, User>,
                     txs: map<string, PaymeTx>, p: Params, now1: int, rowId1: string, now2: int, rowId2: string)
    requires Valid(txs)
    requires Create(validId, plans, users, txs, p, now1, rowId1).0.Created?
    requires !Expired(Create(validId, plans, users, txs, p, now1, rowId1).0.createTime, now2)
    ensures var first := Create(validId, plans, users, txs, p, now1, rowId1);
      Create(validId, plans, users, first.1, p, now2, rowId2) == first
  {
    var first := Create(validId, plans, users, txs, p, now1, rowId1);
    assert Authorized(validId, plans, users, p);
    if HasPending(txs, p.userId, p.planId) {
      assert p.id in txs && IsPendingFor(txs[p.id], p.userId, p.planId);
    } else if p.id !in txs {
      assert first.1[p.id] == NewPending(rowId1, p, now1);
      assert HasPending(first.1, p.userId, p.planId);
    }
  }

  /** A second PerformTransaction after a successful one returns the same result and changes nothing. */
  lemma PerformIdempotent(txs: map<string, PaymeTx>, id: string, now1: int, now2: int)
    requires Valid(txs)
    requires Perform(txs, id, now1).0.Performed?
    ensures var first := Perform(txs, id, now1);
      Perform(first.1, id, now2) == first
  {
  }

  /** A second CancelTransaction after a successful one is a snapshot of the first one's outcome. */
  lemma CancelIdempotent(txs: map<string, PaymeTx>, id: string, reason1: int, now1: int, reason2: int, now2: int)
    requires Valid(txs)
    requires Cancel(txs, id, reason1, now1).0.Canceled?
    ensures var first := Cancel(txs, id, reason1, now1);
      Cancel(first.1, id, reason2, now2) == first
  {
  }

  /** After a successful perform, CheckTransaction reports the row as Paid at the perform time. */
  lemma CheckAfterPerform(txs: map<string, PaymeTx>, id: string, now: int)
    requires Valid(txs)
    requires id in txs && txs[id].status == PENDING && !Expired(txs[id].createdAt, now)
    ensures var c := Check(Perform(txs, id, now).1, id);
      c.Checked? && c.state == Paid && c.performedAt == now && c.canceledAt == 0
  {
  }

  /**
   * The timeout branch of createTransaction does not look at the row's
   * status: an expired row that is already PAID is rewritten to
   * CANCELED / PendingCanceled although it was settled.
   */
  lemma CreateTimeoutIgnoresStatus(validId: string -> bool, plans: map<string, Plan>, users: map<string, User>,
                                   txs: map<string, PaymeTx>, p: Params, now: int, rowId: string)
    requires Valid(txs)
    requires Authorized(validId, plans, users, p)
    requires !HasPending(txs, p.userId, p.planId)
    requires p.id in txs && txs[p.id].status == PAID && Expired(txs[p.id].createdAt, now)
    ensures var r := Create(validId, plans, users, txs, p, now, rowId);
      r.0 == Error(TimeoutError, Some(p.id)) && r.1[p.id].status == TxStatus.CANCELED && r.1[p.id].state == PendingCanceled
  {
  }

  /** The Payme handler over the shared store. */
  class PaymeService {
    const db: Database
    /** ObjectId.isValid on the account identifiers. */
    const isValidId: string -> bool

    constructor (db: Database, isValidId: string -> bool)
      ensures this.db == db && this.isValidId == isValidId
    {
      this.db := db;
      this.isValidId := isValidId;
    }

    method HandleTransactionMethods(req: Request, now: int, rowId: string) returns (r: Response)
      requires Valid(db.paymeTxs)
      modifies db
      ensures (r, db.paymeTxs) == Handle(isValidId, old(db.plans), old(db.users), old(db.paymeTxs), req, now, rowId)
      ensures db.users == old(db.users) && db.plans == old(db.plans) && db.avatars == old(db.avatars)
      ensures db.userPlans == old(db.userPlans) && db.clickTxs == old(db.clickTxs)
    {
      var p := req.params;
      match req.methodName
      case "CheckPerformTransaction" => r := CheckPerformTransaction(p);
      case "CreateTransaction" => r := CreateTransaction(p, now, rowId);
      case "CheckTransaction" => r := CheckTransaction(p.id);
      case "PerformTransaction" => r := PerformTransaction(p.id, now);
      case "CancelTransaction" => r := CancelTransaction(p.id, p.reason, now);
      case "GetStatement" => r := GetStatement(p.from, p.to);
      case _ => r := InvalidMethod;
    }

    method CheckPerformTransaction(p: Params) returns (r: Response)
      ensures r == CheckPerform(isValidId, db.plans, db.users, p.planId, p.userId, p.amount)
    {
      if !isValidId(p.planId) || !isValidId(p.userId) {
        return Error(Plain(TransactionNotAllowed), None);
      }
      if p.planId !in db.plans || p.userId !in db.users {
        return Error(Plain(TransactionNotAllowed), None);
      }
      var plan := db.plans[p.planId];
      if p.amount == plan.price {
        return Allow;
      }
      if plan.price * 100 != p.amount {
        return Error(Plain(InvalidAmount), None);
      }
      r := Allow;
    }

    /** findFirst over the PENDING rows of an account. */
    method FindPending(userId: string, planId: string) returns (k: Option<string>)
      ensures k.None? <==> !HasPending(db.paymeTxs, userId, planId)
      ensures k.Some? ==> k.value in db.paymeTxs && IsPendingFor(db.paymeTxs[k.value], userId, planId)
    {
      if HasPending(db.paymeTxs, userId, planId) {
        var key :| key in db.paymeTxs && IsPendingFor(db.paymeTxs[key], userId, planId);
        k := Some(key);
      } else {
        k := None;
      }
    }

    method CreateTransaction(p: Params, now: int, rowId: string) returns (r: Response)
      requires Valid(db.paymeTxs)
      modifies db
      ensures (r, db.paymeTxs) == Create(isValidId, old(db.plans), old(db.users), old(db.paymeTxs), p, now, rowId)
      ensures db.users == old(db.users) && db.plans == old(db.plans) && db.avatars == old(db.avatars)
      ensures db.userPlans == old(db.userPlans) && db.clickTxs == old(db.clickTxs)
    {
      if !isValidId(p.planId) {
        return Fail(ProductNotFound, p.id);
      }
      if !isValidId(p.userId) {
        return Fail(UserNotFound, p.id);
      }
      if p.userId !in db.users {
        return Fail(UserNotFound, p.id);
      }
      if p.planId !in db.plans {
        return Fail(ProductNotFound, p.id);
      }
      var plan := db.plans[p.planId];
      if p.amount != plan.price * 100 {
        return Fail(InvalidAmount, p.id);
      }
      var pending := FindPending(p.userId, p.planId);
      if pending.Some? {
        var existing := db.paymeTxs[pending.value];
        if pending.value == p.id {
          return Created(existing.id, Pending, existing.createdAt);
        }
        return Fail(TransactionInProcess, p.id);
      }
      if p.id in db.paymeTxs {
        var tx := db.paymeTxs[p.id];
        if Expired(tx.createdAt, now) {
          db.paymeTxs := db.paymeTxs[p.id := TimeoutCancel(tx, now)];
          return Error(TimeoutError, Some(p.id));
        }
        return Created(tx.id, Pending, tx.createdAt);
      }
      var check := CheckPerformTransaction(p.(amount := plan.price * 100));
      match check {
        case Error(e, _) => return Error(e, Some(p.id));
        case _ =>
      }
      db.paymeTxs := db.paymeTxs[p.id := NewPending(rowId, p, now)];
      r := Created(rowId, Pending, now);
    }

    method PerformTransaction(id: string, now: int) returns (r: Response)
      requires Valid(db.paymeTxs)
      modifies db
      ensures (r, db.paymeTxs) == Perform(old(db.paymeTxs), id, now)
      ensures db.users == old(db.users) && db.plans == old(db.plans) && db.avatars == old(db.avatars)
      ensures db.userPlans == old(db.userPlans) && db.clickTxs == old(db.clickTxs)
    {
      if id !in db.paymeTxs {
        return Fail(TransactionNotFound, id);
      }
      var tx := db.paymeTxs[id];
      if tx.status != PENDING {
        if tx.status != PAID {
          return Fail(CantDoOperation, id);
        }
        return Performed(tx.id, tx.performAt, tx.state);
      }
      if Expired(tx.createdAt, now) {
        db.paymeTxs := db.paymeTxs[id := TimeoutCancel(tx, now)];
        return Error(TimeoutError, Some(id));
      }
      db.paymeTxs := db.paymeTxs[id := tx.(status := PAID, state := Paid, performAt := Some(now))];
      r := Performed(tx.id, Some(now), Paid);
    }

    method CancelTransaction(id: string, reason: int, now: int) returns (r: Response)
      requires Valid(db.paymeTxs)
      modifies db
      ensures (r, db.paymeTxs) == Cancel(old(db.paymeTxs), id, reason, now)
      ensures db.users == old(db.users) && db.plans == old(db.plans) && db.avatars == old(db.avatars)
      ensures db.userPlans == old(db.userPlans) && db.clickTxs == old(db.clickTxs)
    {
      if id !in db.paymeTxs {
        return Fail(TransactionNotFound, id);
      }
      var tx := db.paymeTxs[id];
      if tx.status == PENDING {
        var updated := tx.(status := TxStatus.CANCELED, state := PendingCanceled, cancelAt := Some(now), reason := Some(Requested(reason)));
        db.paymeTxs := db.paymeTxs[id := updated];
        return Canceled(updated.id, updated.cancelAt, PendingCanceled);
      }
      if tx.state != Paid {
        return Canceled(tx.id, tx.cancelAt, tx.state);
      }
      var updated := tx.(status := TxStatus.CANCELED, state := PaidCanceled, cancelAt := Some(now), reason := Some(Requested(reason)));
      db.paymeTxs := db.paymeTxs[id := updated];
      r := Canceled(updated.id, updated.cancelAt, PaidCanceled);
    }

    method CheckTransaction(id: string) returns (r: Response)
      ensures r == Check(db.paymeTxs, id)
    {
      if id !in db.paymeTxs {
        return Fail(TransactionNotFound, id);
      }
      var tx := db.paymeTxs[id];
      var performTime := if tx.performAt.Some? then tx.performAt.value else 0;
      var cancelTime := if tx.cancelAt.Some? then tx.cancelAt.value else 0;
      r := Checked(tx.createdAt, performTime, cancelTime, tx.id, tx.state, tx.reason);
    }

    method GetStatement(from: int, to: int) returns (r: Response)
      ensures r == Statement(StatementOf(db.paymeTxs, from, to))
    {
      r := Statement(set k | k in db.paymeTxs && InWindow(db.paymeTxs[k], from, to) :: Entry(k, db.paymeTxs[k]));
    }
  }
}
