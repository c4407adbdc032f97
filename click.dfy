/**
 * The Click SHOP-API webhook: a two-phase Prepare/Complete protocol over
 * the Click transaction table, keyed by clickTransId. Every request is
 * authenticated by an MD5 signature over a fixed field tuple; Prepare
 * inserts a PENDING row whose prepareId is the decimal text of the
 * current time, and Complete settles it (PAID, plan granted) or marks it
 * CANCELED when the gateway reports an error.
 */
module Click {
  import opened Store
  import opened UserPlans

  /** ClickAction: the two action codes of the protocol. */
  const PrepareAction: int := 0
  const CompleteAction: int := 1

  /** The ClickError codes this handler answers with (besides Success). */
  datatype ClickError =
    | SignFailed
    | InvalidAmount
    | ActionNotFound
    | AlreadyPaid
    | UserNotFound
    | TransactionNotFound
    | TransactionCanceled

  /** The webhook body; the amount is already truncated to an integer. */
  datatype Request = Request(
    clickTransId: string,
    serviceId: string,
    merchantTransId: string,
    merchantPrepareId: string,
    amount: int,
    action: int,
    signTime: string,
    signString: string,
    param2: string,
    error: int)

  /**
   * What the handler sends back. `Crashed` is an exception escaping the
   * handler (a unique-key violation or a null dereference): nothing is
   * written and no protocol answer is produced.
   */
  datatype Response =
    | Rejected(error: ClickError, note: string)
    | GatewayFailed(code: int)
    | Prepared(clickTransId: string, merchantTransId: string, merchantPrepareId: int)
    | Completed(clickTransId: string, merchantTransId: string)
    | Crashed

  /** The fields fed to the MD5 helper, in its order; merchantPrepareId only on Complete. */
  datatype SignFields = SignFields(
    clickTransId: string,
    serviceId: string,
    secretKey: string,
    merchantTransId: string,
    merchantPrepareId: Option<string>,
    amount: int,
    action: int,
    signTime: string)

  /** The tables the Click flows write. */
  datatype Tables = Tables(clickTxs: map<string, ClickTx>, userPlans: map<string, UserPlan>, users: map<string, User>)

  function TablesOf(db: Database): Tables
    reads db
  {
    Tables(db.clickTxs, db.userPlans, db.users)
  }

  // ---------------------------------------------------------------------
  // Decimal text of a timestamp: the prepareId is `'' + time`.
  // ---------------------------------------------------------------------

  function DigitChar(d: int): (c: char)
    requires 0 <= d < 10
    ensures '0' <= c <= '9'
  {
    ('0' as int + d) as char
  }

  function NatToDecimal(n: nat): (s: string)
    ensures |s| >= 1
    ensures forall i :: 0 <= i < |s| ==> '0' <= s[i] <= '9'
    ensures n >= 10 <==> |s| >= 2
    decreases n
  {
    if n < 10 then [DigitChar(n)] else NatToDecimal(n / 10) + [DigitChar(n % 10)]
  }

  function IntToDecimal(i: int): (s: string)
    ensures |s| >= 1
    ensures s[0] == '-' <==> i < 0
  {
    if i < 0 then "-" + NatToDecimal(-i) else NatToDecimal(i)
  }

  lemma {:induction false} NatToDecimalInjective(a: nat, b: nat)
    requires NatToDecimal(a) == NatToDecimal(b)
    ensures a == b
    decreases a
  {
    var sa, sb := NatToDecimal(a), NatToDecimal(b);
    if a < 10 {
      assert sa == [DigitChar(a)];
      assert sb == [DigitChar(b)] && DigitChar(a) == DigitChar(b);
    } else {
      assert b >= 10;
      assert sa == NatToDecimal(a / 10) + [DigitChar(a % 10)];
      assert sb == NatToDecimal(b / 10) + [DigitChar(b % 10)];
      assert sa[|sa| - 1] == DigitChar(a % 10) && sb[|sb| - 1] == DigitChar(b % 10);
      assert sa[..|sa| - 1] == NatToDecimal(a / 10);
      assert sb[..|sb| - 1] == NatToDecimal(b / 10);
      NatToDecimalInjective(a / 10, b / 10);
    }
  }

  /** Distinct timestamps give distinct prepareIds. */
  lemma IntToDecimalInjective(a: int, b: int)
    requires IntToDecimal(a) == IntToDecimal(b)
    ensures a == b
  {
    if a < 0 {
      assert IntToDecimal(a)[1..] == NatToDecimal(-a);
      assert IntToDecimal(b)[1..] == NatToDecimal(-b);
      NatToDecimalInjective(-a, -b);
    } else {
      NatToDecimalInjective(a, b);
    }
  }

  // ---------------------------------------------------------------------
  // Signature tuples and table queries.
  // ---------------------------------------------------------------------

  function PrepareFields(req: Request, secretKey: string): (f: SignFields)
    ensures f.merchantPrepareId.None?
    ensures f.clickTransId == req.clickTransId && f.serviceId == req.serviceId && f.secretKey == secretKey
    ensures f.merchantTransId == req.merchantTransId && f.amount == req.amount && f.action == req.action
    ensures f.signTime == req.signTime
  {
    SignFields(req.clickTransId, req.serviceId, secretKey, req.merchantTransId, None, req.amount, req.action, req.signTime)
  }

  function CompleteFields(req: Request, secretKey: string): (f: SignFields)
    ensures f == PrepareFields(req, secretKey).(merchantPrepareId := Some(req.merchantPrepareId))
  {
    SignFields(req.clickTransId, req.serviceId, secretKey, req.merchantTransId, Some(req.merchantPrepareId),
               req.amount, req.action, req.signTime)
  }

  /** A Prepare signature can never stand in for a Complete one: the tuples differ. */
  lemma PrepareAndCompleteTuplesDiffer(r1: Request, r2: Request, secretKey: string)
    ensures PrepareFields(r1, secretKey) != CompleteFields(r2, secretKey)
  {
  }

  /** findFirst over (userId, planId, status). */
  predicate HasRowFor(txs: map<string, ClickTx>, userId: string, planId: string, status: TxStatus) {
    exists k :: k in txs && txs[k].userId == userId && txs[k].planId == planId && txs[k].status == status
  }

  /** findFirst over (prepareId, userId, planId). */
  predicate IsPrepared(txs: map<string, ClickTx>, prepareId: string, userId: string, planId: string) {
    exists k :: k in txs && txs[k].prepareId == prepareId && txs[k].userId == userId && txs[k].planId == planId
  }

  /** findFirst over (planId, prepareId, PAID): the user is not part of the query. */
  predicate PaidByPrepareId(txs: map<string, ClickTx>, planId: string, prepareId: string) {
    exists k :: k in txs && txs[k].planId == planId && txs[k].prepareId == prepareId && txs[k].status == PAID
  }

  predicate CanceledById(txs: map<string, ClickTx>, transId: string) {
    transId in txs && txs[transId].status == TxStatus.CANCELED
  }

  function PreparedRow(req: Request, now: int): ClickTx {
    ClickTx(req.param2, req.merchantTransId, req.merchantTransId, IntToDecimal(now), req.amount,
            PrepareAction, PENDING, req.signTime, now)
  }

  /** deleteMany over the user's plans. */
  function WithoutUserPlans(userPlans: map<string, UserPlan>, userId: string): (r: map<string, UserPlan>)
    ensures forall k :: k in r <==> k in userPlans && userPlans[k].userId != userId
    ensures forall k :: k in r ==> r[k] == userPlans[k]
  {
    map k | k in userPlans && userPlans[k].userId != userId :: userPlans[k]
  }

  lemma ClearedHasNoActive(userPlans: map<string, UserPlan>, userId: string, now: int)
    ensures ActivePlans(WithoutUserPlans(userPlans, userId), userId, now) == {}
  {
  }

  // ---------------------------------------------------------------------
  // The two phases and the dispatch, as functions of the tables.
  // ---------------------------------------------------------------------

  /** Everything Prepare checks before it inserts, in the order it checks it. */
  predicate PrepareAccepts(md5: SignFields -> string, secretKey: string, plans: map<string, Plan>, t: Tables, req: Request) {
    md5(PrepareFields(req, secretKey)) == req.signString
    && !HasRowFor(t.clickTxs, req.param2, req.merchantTransId, PAID)
    && !HasRowFor(t.clickTxs, req.param2, req.merchantTransId, TxStatus.CANCELED)
    && req.param2 in t.users
    && req.merchantTransId in plans
    && req.amount == plans[req.merchantTransId].price
    && !CanceledById(t.clickTxs, req.clickTransId)
  }

  function PrepareSpec(md5: SignFields -> string, secretKey: string, plans: map<string, Plan>, t: Tables,
                       req: Request, now: int): (r: (Response, Tables))
    ensures !r.0.Prepared? ==> r.1 == t
    ensures r.1.userPlans == t.userPlans && r.1.users == t.users
    ensures r.0 == Rejected(SignFailed, "Invalid sign_string") <==> md5(PrepareFields(req, secretKey)) != req.signString
    ensures r.0 == Rejected(AlreadyPaid, "Already paid") <==>
            (md5(PrepareFields(req, secretKey)) == req.signString
             && HasRowFor(t.clickTxs, req.param2, req.merchantTransId, PAID))
    ensures r.0 == Rejected(TransactionCanceled, "Cancelled") <==>
            (md5(PrepareFields(req, secretKey)) == req.signString
             && !HasRowFor(t.clickTxs, req.param2, req.merchantTransId, PAID)
             && HasRowFor(t.clickTxs, req.param2, req.merchantTransId, TxStatus.CANCELED))
    ensures r.0 == Rejected(ClickError.UserNotFound, "Invalid userId") <==>
            (md5(PrepareFields(req, secretKey)) == req.signString
             && !HasRowFor(t.clickTxs, req.param2, req.merchantTransId, PAID)
             && !HasRowFor(t.clickTxs, req.param2, req.merchantTransId, TxStatus.CANCELED)
             && req.param2 !in t.users)
    ensures r.0 == Rejected(ClickError.UserNotFound, "Product not found") <==>
            (md5(PrepareFields(req, secretKey)) == req.signString
             && !HasRowFor(t.clickTxs, req.param2, req.merchantTransId, PAID)
             && !HasRowFor(t.clickTxs, req.param2, req.merchantTransId, TxStatus.CANCELED)
             && req.param2 in t.users && req.merchantTransId !in plans)
    ensures r.0 == Rejected(InvalidAmount, "Invalid amount") <==>
            (md5(PrepareFields(req, secretKey)) == req.signString
             && !HasRowFor(t.clickTxs, req.param2, req.merchantTransId, PAID)
             && !HasRowFor(t.clickTxs, req.param2, req.merchantTransId, TxStatus.CANCELED)
             && req.param2 in t.users && req.merchantTransId in plans
             && req.amount != plans[req.merchantTransId].price)
    ensures r.0 == Rejected(TransactionCanceled, "Transaction canceled") <==>
            (md5(PrepareFields(req, secretKey)) == req.signString
             && !HasRowFor(t.clickTxs, req.param2, req.merchantTransId, PAID)
             && !HasRowFor(t.clickTxs, req.param2, req.merchantTransId, TxStatus.CANCELED)
             && req.param2 in t.users && req.merchantTransId in plans
             && req.amount == plans[req.merchantTransId].price
             && CanceledById(t.clickTxs, req.clickTransId))
    ensures r.0.Prepared? <==> PrepareAccepts(md5, secretKey, plans, t, req) && req.clickTransId !in t.clickTxs
    ensures r.0 == Crashed <==> PrepareAccepts(md5, secretKey, plans, t, req) && req.clickTransId in t.clickTxs
    ensures r.0.Prepared? ==>
      r.0 == Prepared(req.clickTransId, req.merchantTransId, now)
      && r.1.clickTxs == t.clickTxs[req.clickTransId := PreparedRow(req, now)]
      && |r.1.clickTxs| == |t.clickTxs| + 1
  {
    var userId, planId, transId := req.param2, req.merchantTransId, req.clickTransId;
    if md5(PrepareFields(req, secretKey)) != req.signString then (Rejected(SignFailed, "Invalid sign_string"), t)
    else if HasRowFor(t.clickTxs, userId, planId, PAID) then (Rejected(AlreadyPaid, "Already paid"), t)
    else if HasRowFor(t.clickTxs, userId, planId, TxStatus.CANCELED) then (Rejected(TransactionCanceled, "Cancelled"), t)
    else if userId !in t.users then (Rejected(ClickError.UserNotFound, "Invalid userId"), t)
    else if planId !in plans then (Rejected(ClickError.UserNotFound, "Product not found"), t)
    else if req.amount != plans[planId].price then (Rejected(InvalidAmount, "Invalid amount"), t)
    else if CanceledById(t.clickTxs, transId) then (Rejected(TransactionCanceled, "Transaction canceled"), t)
    else if transId in t.clickTxs then (Crashed, t)
    else (Prepared(transId, planId, now), t.(clickTxs := t.clickTxs[transId := PreparedRow(req, now)]))
  }

  /** Everything Complete checks before it touches the row, in the order it checks it. */
  predicate CompleteAccepts(md5: SignFields -> string, secretKey: string, plans: map<string, Plan>, t: Tables, req: Request) {
    md5(CompleteFields(req, secretKey)) == req.signString
    && req.param2 in t.users
    && req.merchantTransId in plans
    && IsPrepared(t.clickTxs, req.merchantPrepareId, req.param2, req.merchantTransId)
    && !PaidByPrepareId(t.clickTxs, req.merchantTransId, req.merchantPrepareId)
    && req.amount == plans[req.merchantTransId].price
    && !CanceledById(t.clickTxs, req.clickTransId)
  }

  function CompleteSpec(md5: SignFields -> string, secretKey: string, plans: map<string, Plan>, t: Tables,
                        req: Request, now: int, newId: string): (r: (Response, Tables))
    requires newId !in t.userPlans
    ensures !(r.0.Completed? || r.0.GatewayFailed?) ==> r.1 == t
    ensures r.0 == Rejected(SignFailed, "Invalid sign_string") <==> md5(CompleteFields(req, secretKey)) != req.signString
    ensures r.0 == Rejected(ClickError.UserNotFound, "Invalid userId") <==>
            (md5(CompleteFields(req, secretKey)) == req.signString && req.param2 !in t.users)
    ensures r.0 == Rejected(ClickError.UserNotFound, "Invalid planId") <==>
            (md5(CompleteFields(req, secretKey)) == req.signString && req.param2 in t.users && req.merchantTransId !in plans)
    ensures r.0 == Rejected(TransactionNotFound, "Invalid merchant_prepare_id") <==>
            (md5(CompleteFields(req, secretKey)) == req.signString && req.param2 in t.users && req.merchantTransId in plans
             && !IsPrepared(t.clickTxs, req.merchantPrepareId, req.param2, req.merchantTransId))
    ensures r.0 == Rejected(AlreadyPaid, "Already paid") <==>
            (md5(CompleteFields(req, secretKey)) == req.signString && req.param2 in t.users && req.merchantTransId in plans
             && IsPrepared(t.clickTxs, req.merchantPrepareId, req.param2, req.merchantTransId)
             && PaidByPrepareId(t.clickTxs, req.merchantTransId, req.merchantPrepareId))
    ensures r.0 == Rejected(InvalidAmount, "Invalid amount") <==>
            (md5(CompleteFields(req, secretKey)) == req.signString && req.param2 in t.users && req.merchantTransId in plans
             && IsPrepared(t.clickTxs, req.merchantPrepareId, req.param2, req.merchantTransId)
             && !PaidByPrepareId(t.clickTxs, req.merchantTransId, req.merchantPrepareId)
             && req.amount != plans[req.merchantTransId].price)
    ensures r.0 == Rejected(TransactionCanceled, "Already cancelled") <==>
            (md5(CompleteFields(req, secretKey)) == req.signString && req.param2 in t.users && req.merchantTransId in plans
             && IsPrepared(t.clickTxs, req.merchantPrepareId, req.param2, req.merchantTransId)
             && !PaidByPrepareId(t.clickTxs, req.merchantTransId, req.merchantPrepareId)
             && req.amount == plans[req.merchantTransId].price
             && CanceledById(t.clickTxs, req.clickTransId))
    ensures r.0 == Crashed <==> CompleteAccepts(md5, secretKey, plans, t, req) && req.clickTransId !in t.clickTxs
    ensures r.0.GatewayFailed? <==> CompleteAccepts(md5, secretKey, plans, t, req) && req.clickTransId in t.clickTxs && req.error > 0
    ensures r.0.GatewayFailed? ==>
      r.0.code == req.error
      && r.1 == t.(clickTxs := t.clickTxs[req.clickTransId := t.clickTxs[req.clickTransId].(status := TxStatus.CANCELED)])
    ensures r.0.Completed? <==> CompleteAccepts(md5, secretKey, plans, t, req) && req.clickTransId in t.clickTxs && req.error <= 0
    ensures r.0.Completed? ==>
      r.0 == Completed(req.clickTransId, req.merchantTransId)
      && r.1.clickTxs == t.clickTxs[req.clickTransId := t.clickTxs[req.clickTransId].(status := PAID)]
      && r.1.users == t.users[req.param2 := t.users[req.param2].(status := true)]
    ensures r.0.Completed? ==>
      (forall k :: k in r.1.userPlans <==> k == newId || (k in t.userPlans && t.userPlans[k].userId != req.param2))
      && (forall k :: k in t.userPlans && t.userPlans[k].userId != req.param2 ==> r.1.userPlans[k] == t.userPlans[k])
    ensures r.0.Completed? ==> var up := r.1.userPlans[newId];
      up.userId == req.param2 && up.planId == req.merchantTransId && up.status == ACTIVE
      && up.startDate == now && up.endDate == now + plans[req.merchantTransId].duration * MsPerDay
  {
    var userId, planId, transId := req.param2, req.merchantTransId, req.clickTransId;
    if md5(CompleteFields(req, secretKey)) != req.signString then (Rejected(SignFailed, "Invalid sign_string"), t)
    else if userId !in t.users then (Rejected(ClickError.UserNotFound, "Invalid userId"), t)
    else if planId !in plans then (Rejected(ClickError.UserNotFound, "Invalid planId"), t)
    else if !IsPrepared(t.clickTxs, req.merchantPrepareId, userId, planId) then
      (Rejected(TransactionNotFound, "Invalid merchant_prepare_id"), t)
    else if PaidByPrepareId(t.clickTxs, planId, req.merchantPrepareId) then (Rejected(AlreadyPaid, "Already paid"), t)
    else if req.amount != plans[planId].price then (Rejected(InvalidAmount, "Invalid amount"), t)
    else if CanceledById(t.clickTxs, transId) then (Rejected(TransactionCanceled, "Already cancelled"), t)
    else if transId !in t.clickTxs then (Crashed, t)
    else if req.error > 0 then
      (GatewayFailed(req.error), t.(clickTxs := t.clickTxs[transId := t.clickTxs[transId].(status := TxStatus.CANCELED)]))
    else
      var paid := t.clickTxs[transId := t.clickTxs[transId].(status := PAID)];
      var cleared := WithoutUserPlans(t.userPlans, userId);
      ClearedHasNoActive(t.userPlans, userId, now);
      match GrantSpec(t.users, plans, cleared, userId, planId, None, newId, now)
      case Ok(granted) => (Completed(transId, planId), Tables(paid, granted.0, granted.1))
      case Err(_) => (Completed(transId, planId), Tables(paid, cleared, t.users))
  }

  /** handleMerchantTransactions: dispatch on the numeric action code. */
  function HandleSpec(md5: SignFields -> string, secretKey: string, plans: map<string, Plan>, t: Tables,
                      req: Request, now: int, newId: string): (r: (Response, Tables))
    requires newId !in t.userPlans
    ensures req.action == PrepareAction ==> r == PrepareSpec(md5, secretKey, plans, t, req, now)
    ensures req.action == CompleteAction ==> r == CompleteSpec(md5, secretKey, plans, t, req, now, newId)
    ensures req.action != PrepareAction && req.action != CompleteAction ==> r == (Rejected(ActionNotFound, "Invalid action"), t)
  {
    if req.action == PrepareAction then PrepareSpec(md5, secretKey, plans, t, req, now)
    else if req.action == CompleteAction then CompleteSpec(md5, secretKey, plans, t, req, now, newId)
    else (Rejected(ActionNotFound, "Invalid action"), t)
  }

  // ---------------------------------------------------------------------
  // Properties across calls.
  // ---------------------------------------------------------------------

  /** Every row's prepareId is the decimal text of its creation time. */
  predicate Stamped(txs: map<string, ClickTx>) {
    forall k :: k in txs ==> txs[k].prepareId == IntToDecimal(txs[k].createdDate)
  }

  lemma HandleKeepsStamped(md5: SignFields -> string, secretKey: string, plans: map<string, Plan>, t: Tables,
                           req: Request, now: int, newId: string)
    requires newId !in t.userPlans
    requires Stamped(t.clickTxs)
    ensures Stamped(HandleSpec(md5, secretKey, plans, t, req, now, newId).1.clickTxs)
  {
  }

  /** A successful Complete leaves the payer with exactly the plan it just granted. */
  lemma CompleteLeavesOnePlan(md5: SignFields -> string, secretKey: string, plans: map<string, Plan>, t: Tables,
                              req: Request, now: int, newId: string)
    requires newId !in t.userPlans
    requires CompleteSpec(md5, secretKey, plans, t, req, now, newId).0.Completed?
    requires plans[req.merchantTransId].duration >= 0
    ensures ActivePlans(CompleteSpec(md5, secretKey, plans, t, req, now, newId).1.userPlans, req.param2, now) == {newId}
  {
    var cleared := WithoutUserPlans(t.userPlans, req.param2);
    ClearedHasNoActive(t.userPlans, req.param2, now);
    GrantLeavesOneActive(t.users, plans, cleared, req.param2, req.merchantTransId, None, newId, now);
  }

  /**
   * Replaying a Complete after it succeeded is answered AlreadyPaid and
   * changes nothing, provided the row found by clickTransId is the prepared
   * row the request names (the normal Prepare-then-Complete flow).
   */
  lemma CompleteReplayRejected(md5: SignFields -> string, secretKey: string, plans: map<string, Plan>, t: Tables,
                               req: Request, now: int, newId: string, later: int, newId2: string)
    requires newId !in t.userPlans
    requires CompleteSpec(md5, secretKey, plans, t, req, now, newId).0.Completed?
    requires t.clickTxs[req.clickTransId].prepareId == req.merchantPrepareId
    requires t.clickTxs[req.clickTransId].planId == req.merchantTransId
    requires newId2 !in CompleteSpec(md5, secretKey, plans, t, req, now, newId).1.userPlans
    ensures var t1 := CompleteSpec(md5, secretKey, plans, t, req, now, newId).1;
      CompleteSpec(md5, secretKey, plans, t1, req, later, newId2) == (Rejected(AlreadyPaid, "Already paid"), t1)
  {
    var t1 := CompleteSpec(md5, secretKey, plans, t, req, now, newId).1;
    var transId := req.clickTransId;
    assert t1.clickTxs[transId].status == PAID;
    assert PaidByPrepareId(t1.clickTxs, req.merchantTransId, req.merchantPrepareId);
    var k :| k in t.clickTxs && t.clickTxs[k].prepareId == req.merchantPrepareId
             && t.clickTxs[k].userId == req.param2 && t.clickTxs[k].planId == req.merchantTransId;
    assert t1.clickTxs[k].prepareId == req.merchantPrepareId && t1.clickTxs[k].userId == req.param2;
    assert IsPrepared(t1.clickTxs, req.merchantPrepareId, req.param2, req.merchantTransId);
    assert req.param2 in t1.users;
  }

  /**
   * Without that proviso the replay goes through: the PAID mark lands on the
   * row found by clickTransId while the AlreadyPaid query looks at the
   * prepareId in the request, so a request naming one row's prepareId and
   * another row's clickTransId completes, and grants the plan, twice.
   */
  lemma CompleteReplayOnOtherRow()
    ensures var md5 := (f: SignFields) => "sig";
      var plans := map["plan" := Plan(10, 30)];
      var t := Tables(map["prep" := ClickTx("u", "plan", "plan", "1", 10, PrepareAction, PENDING, "", 1),
                          "other" := ClickTx("u", "plan", "plan", "2", 10, PrepareAction, PENDING, "", 2)],
                      map[], map["u" := User(0, false, None)]);
      var req := Request("other", "svc", "plan", "1", 10, CompleteAction, "", "sig", "u", 0);
      var first := CompleteSpec(md5, "key", plans, t, req, 3, "g1");
      first.0.Completed? && "g1" in first.1.userPlans
      && CompleteSpec(md5, "key", plans, first.1, req, 4, "g2").0.Completed?
  {
    var md5 := (f: SignFields) => "sig";
    var plans := map["plan" := Plan(10, 30)];
    var rows := map["prep" := ClickTx("u", "plan", "plan", "1", 10, PrepareAction, PENDING, "", 1),
                    "other" := ClickTx("u", "plan", "plan", "2", 10, PrepareAction, PENDING, "", 2)];
    var t := Tables(rows, map[], map["u" := User(0, false, None)]);
    var req := Request("other", "svc", "plan", "1", 10, CompleteAction, "", "sig", "u", 0);
    assert IsPrepared(rows, "1", "u", "plan") by { assert rows["prep"].prepareId == "1"; }
    assert !PaidByPrepareId(rows, "plan", "1");
    var first := CompleteSpec(md5, "key", plans, t, req, 3, "g1");
    assert first.0.Completed?;
    var rows1 := first.1.clickTxs;
    assert rows1 == rows["other" := rows["other"].(status := PAID)];
    assert IsPrepared(rows1, "1", "u", "plan") by { assert rows1["prep"].prepareId == "1"; }
    assert !PaidByPrepareId(rows1, "plan", "1") by {
      assert forall k :: k in rows1 ==> k == "prep" || k == "other";
      assert rows1["other"].prepareId == "2" && rows1["prep"].status == PENDING;
    }
    assert "g2" !in first.1.userPlans by {
      assert forall k :: k in first.1.userPlans ==> k == "g1";
    }
  }

  /**
   * The protocol's happy path: a request Prepare accepts is followed by a
   * Complete that echoes the returned merchant_prepare_id, and the payment
   * settles. Stamped rows created earlier than `now` cannot collide with the
   * new prepareId.
   */
  lemma PrepareThenComplete(md5: SignFields -> string, secretKey: string, plans: map<string, Plan>, t: Tables,
                            prep: Request, now: int, comp: Request, later: int, newId: string)
    requires Stamped(t.clickTxs)
    requires forall k :: k in t.clickTxs ==> t.clickTxs[k].createdDate < now
    requires PrepareSpec(md5, secretKey, plans, t, prep, now).0.Prepared?
    requires comp == prep.(action := CompleteAction, merchantPrepareId := IntToDecimal(now), signString := comp.signString,
                           error := comp.error)
    requires md5(CompleteFields(comp, secretKey)) == comp.signString && comp.error <= 0
    requires newId !in t.userPlans
    ensures var t1 := PrepareSpec(md5, secretKey, plans, t, prep, now).1;
      CompleteSpec(md5, secretKey, plans, t1, comp, later, newId).0 == Completed(prep.clickTransId, prep.merchantTransId)
  {
    var t1 := PrepareSpec(md5, secretKey, plans, t, prep, now).1;
    var transId := prep.clickTransId;
    assert t1.clickTxs[transId] == PreparedRow(prep, now);
    assert IsPrepared(t1.clickTxs, comp.merchantPrepareId, comp.param2, comp.merchantTransId);
    forall k | k in t1.clickTxs && t1.clickTxs[k].prepareId == IntToDecimal(now)
      ensures k == transId
    {
      if k != transId {
        assert t.clickTxs[k].prepareId == IntToDecimal(t.clickTxs[k].createdDate);
        IntToDecimalInjective(t.clickTxs[k].createdDate, now);
      }
    }
    assert !PaidByPrepareId(t1.clickTxs, comp.merchantTransId, comp.merchantPrepareId);
    assert CompleteAccepts(md5, secretKey, plans, t1, comp);
  }

  // ---------------------------------------------------------------------
  // The service.
  // ---------------------------------------------------------------------

  class ClickService {
    const db: Database
    const userPlans: UserPlansService
    const md5: SignFields -> string
    const secretKey: string

    constructor (db: Database, userPlans: UserPlansService, md5: SignFields -> string, secretKey: string)
      requires userPlans.db == db
      ensures this.db == db && this.userPlans == userPlans && this.md5 == md5 && this.secretKey == secretKey
    {
      this.db := db;
      this.userPlans := userPlans;
      this.md5 := md5;
      this.secretKey := secretKey;
    }

    method HandleMerchantTransactions(req: Request, now: int, newId: string) returns (resp: Response)
      requires userPlans.db == db
      requires newId !in db.userPlans
      modifies db
      ensures (resp, TablesOf(db)) == HandleSpec(md5, secretKey, old(db.plans), old(TablesOf(db)), req, now, newId)
      ensures db.plans == old(db.plans) && db.avatars == old(db.avatars) && db.paymeTxs == old(db.paymeTxs)
    {
      if req.action == PrepareAction {
        resp := Prepare(req, now);
      } else if req.action == CompleteAction {
        resp := Complete(req, now, newId);
      } else {
        resp := Rejected(ActionNotFound, "Invalid action");
      }
    }

    method Prepare(req: Request, now: int) returns (resp: Response)
      modifies db
      ensures (resp, TablesOf(db)) == PrepareSpec(md5, secretKey, old(db.plans), old(TablesOf(db)), req, now)
      ensures db.plans == old(db.plans) && db.avatars == old(db.avatars) && db.paymeTxs == old(db.paymeTxs)
    {
      var planId, userId, transId := req.merchantTransId, req.param2, req.clickTransId;
      if md5(PrepareFields(req, secretKey)) != req.signString {
        return Rejected(SignFailed, "Invalid sign_string");
      }
      if HasRowFor(db.clickTxs, userId, planId, PAID) {
        return Rejected(AlreadyPaid, "Already paid");
      }
      if HasRowFor(db.clickTxs, userId, planId, TxStatus.CANCELED) {
        return Rejected(TransactionCanceled, "Cancelled");
      }
      if userId !in db.users {
        return Rejected(ClickError.UserNotFound, "Invalid userId");
      }
      if planId !in db.plans {
        return Rejected(ClickError.UserNotFound, "Product not found");
      }
      var plan := db.plans[planId];
      if req.amount != plan.price {
        return Rejected(InvalidAmount, "Invalid amount");
      }
      if transId in db.clickTxs && db.clickTxs[transId].status == TxStatus.CANCELED {
        return Rejected(TransactionCanceled, "Transaction canceled");
      }
      if transId in db.clickTxs {
        // the create violates the unique key on clickTransId
        return Crashed;
      }
      db.clickTxs := db.clickTxs[transId := PreparedRow(req, now)];
      resp := Prepared(transId, planId, now);
    }

    method Complete(req: Request, now: int, newId: string) returns (resp: Response)
      requires userPlans.db == db
      requires newId !in db.userPlans
      modifies db
      ensures (resp, TablesOf(db)) == CompleteSpec(md5, secretKey, old(db.plans), old(TablesOf(db)), req, now, newId)
      ensures db.plans == old(db.plans) && db.avatars == old(db.avatars) && db.paymeTxs == old(db.paymeTxs)
    {
      var planId, userId, transId := req.merchantTransId, req.param2, req.clickTransId;
      if md5(CompleteFields(req, secretKey)) != req.signString {
        return Rejected(SignFailed, "Invalid sign_string");
      }
      if userId !in db.users {
        return Rejected(ClickError.UserNotFound, "Invalid userId");
      }
      if planId !in db.plans {
        return Rejected(ClickError.UserNotFound, "Invalid planId");
      }
      var plan := db.plans[planId];
      if !IsPrepared(db.clickTxs, req.merchantPrepareId, userId, planId) {
        return Rejected(TransactionNotFound, "Invalid merchant_prepare_id");
      }
      if PaidByPrepareId(db.clickTxs, planId, req.merchantPrepareId) {
        return Rejected(AlreadyPaid, "Already paid");
      }
      if req.amount != plan.price {
        return Rejected(InvalidAmount, "Invalid amount");
      }
      if transId in db.clickTxs && db.clickTxs[transId].status == TxStatus.CANCELED {
        return Rejected(TransactionCanceled, "Already cancelled");
      }
      if transId !in db.clickTxs {
        // `transaction.id` on a missing row
        return Crashed;
      }
      var row := db.clickTxs[transId];
      if req.error > 0 {
        db.clickTxs := db.clickTxs[transId := row.(status := TxStatus.CANCELED)];
        return GatewayFailed(req.error);
      }
      db.clickTxs := db.clickTxs[transId := row.(status := PAID)];
      ghost var before := db.userPlans;
      db.userPlans := WithoutUserPlans(db.userPlans, userId);
      ClearedHasNoActive(before, userId, now);
      // a failed grant is logged and swallowed
      var granted, victim := userPlans.HandleSuccessfulPayment(userId, planId, now, newId);
      resp := Completed(transId, planId);
    }
  }
}
