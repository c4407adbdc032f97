/**
 * The record store the services work on: the rows of the Prisma schema
 * (users, plans, avatars, user plans and the two gateways' transaction
 * tables) and a `Database` object whose tables the services read and
 * update in place. Identifiers are opaque strings; times are integer
 * milliseconds since the epoch.
 */
module Store {

  datatype Option<T> = None | Some(value: T)

  datatype Result<T, E> = Ok(value: T) | Err(error: E)

  /** Milliseconds in one day: plan durations are whole days. */
  const MsPerDay: int := 24 * 60 * 60 * 1000

  /** A user: coin wallet, premium flag and the purchased avatar. */
  datatype User = User(coins: int, status: bool, premiumAvatarId: Option<string>)

  /** A purchasable tier: price in the gateway's major unit, duration in days. */
  datatype Plan = Plan(price: int, duration: int)

  /** A premium avatar that can be bought with coins. */
  datatype Avatar = Avatar(price: int)

  datatype UserPlanStatus = ACTIVE | EXPIRED | CANCELED

  /** A subscription grant tying a user to a plan for [startDate, endDate]. */
  datatype UserPlan = UserPlan(userId: string, planId: string, startDate: int, endDate: int, status: UserPlanStatus)

  /** Coarse settlement bucket shared by both gateways' transaction rows. */
  datatype TxStatus = PENDING | PAID | CANCELED

  /** Payme's fine-grained lifecycle state (the protocol's codes 1, 2, -1, -2). */
  datatype TxState = Pending | Paid | PendingCanceled | PaidCanceled

  /** Why a Payme transaction was canceled: the timeout rule, or the code Payme sent. */
  datatype CancelReason = CanceledDueToTimeout | Requested(code: int)

  /** A Click row; the table is keyed by clickTransId. */
  datatype ClickTx = ClickTx(
    userId: string,
    planId: string,
    merchantTransId: string,
    prepareId: string,
    amount: int,
    action: int,
    status: TxStatus,
    signTime: string,
    createdDate: int)

  /** A Payme row; the table is keyed by paymeTransId, `id` is the row's own identifier. */
  datatype PaymeTx = PaymeTx(
    id: string,
    userId: string,
    planId: string,
    amount: int,
    status: TxStatus,
    state: TxState,
    reason: Option<CancelReason>,
    createdAt: int,
    performAt: Option<int>,
    cancelAt: Option<int>)

  /** The tables, updated in place by the services that share this object. */
  class Database {
    var users: map<string, User>
    var plans: map<string, Plan>
    var avatars: map<string, Avatar>
    var userPlans: map<string, UserPlan>
    var clickTxs: map<string, ClickTx>
    var paymeTxs: map<string, PaymeTx>

    constructor (users: map<string, User>, plans: map<string, Plan>, avatars: map<string, Avatar>)
      ensures this.users == users && this.plans == plans && this.avatars == avatars
      ensures userPlans == map[] && clickTxs == map[] && paymeTxs == map[]
    {
      this.users := users;
      this.plans := plans;
      this.avatars := avatars;
      userPlans := map[];
      clickTxs := map[];
      paymeTxs := map[];
    }
  }
}
