# Payment reconciliation core of english-time-api, in Dafny

This project models the subscription-commerce core of the english-time-api backend (NestJS over Prisma). It covers:

- the **Payme** Merchant API handler: six JSON-RPC methods over the Payme transaction table;
- the **Click** SHOP-API handler: a two-phase Prepare/Complete protocol over the Click transaction table, authenticated by an MD5 signature;
- **user-plan bookkeeping**: create, update, remove, the active-plan query and the grant run after a successful payment;
- the hourly **plan-expiration sweep**;
- the users service's **coin wallet**: the premium-avatar purchase and the signed coin delta, plus the **leaderboard views** (`getUsers` ranks, `getUserStatistics` standings).

## How the model is built

- **Store.** The store is a `Database` object whose tables are `map`s keyed by record id. Click rows are keyed by `clickTransId` and Payme rows by `paymeTransId`, the two columns that are unique. Times are integer milliseconds.
- **Services.** Each service is a class holding the shared `Database`. Every state-changing method has `modifies db`. It promises that its response and the new tables equal a pure function of the old tables:
  - `Payme.Create`, `Payme.Perform` and `Payme.Cancel`;
  - `Click.PrepareSpec` and `Click.CompleteSpec`;
  - `UserPlans.GrantSpec`;
  - `PlanExpiration.SweptPlans` and `PlanExpiration.SweptUsers`;
  - `Users.UpgradeSpec` and `Users.UpdateCoinsSpec`.

  These functions carry the per-call guarantees. The lemmas beside them relate several calls: replays, idempotence, the sweep's demotion rule, and balances across any run of wallet calls.
- **Payme invariant.** `Payme.Valid` requires at most one PENDING row per (user, plan) and that each row's status and state agree. Every Payme method preserves it, and it makes the source's `findFirst` over pending rows deterministic.
- **Store transactions.** A `$transaction` is modelled by taking a snapshot and putting it back when a step fails. This is how `handleSuccessfulPayment` and each plan of the sweep are modelled. `upgradeToPremium` makes all its checks before its single write, so a rejection writes nothing and no snapshot is needed.
- **`findFirst` choices.** Where the source takes an arbitrary `findFirst` result, the method picks one with `:|`. The pick is exposed as a ghost out-parameter (`victim`) that the spec function takes as an argument.
- **External inputs.** The clock (`now`), generated ids (`rowId`, `newId`), `ObjectId.isValid` (`validId`/`isValidId`), the MD5 helper (`md5`) and the Click secret are parameters or constant fields of the services. The sweep's store failures are given as a set of plans (`faults`).

## Behaviour modelled as the code has it

- `handleSuccessfulPayment` replaces the active plan the lookup finds: it deletes that one, not all of them. "Active" is only `startDate <= now <= endDate`, whatever the plan's status. `UserPlans.GrantLeavesOneActive` therefore needs at most one active plan beforehand.
- Click `complete` first deletes **all** the payer's user plans, outside any transaction. It then runs the grant and swallows any error. The response is `Success` and the row stays PAID either way.
- Payme `performTransaction` settles the row and grants no plan.
- Each Click phase answers an unknown user or plan with the same `UserNotFound` code, but with different notes.
- For an existing row, Payme `createTransaction` applies the timeout rule without looking at the row's status. An expired PAID row becomes CANCELED / PendingCanceled (`Payme.CreateTimeoutIgnoresStatus`). A row that has not expired is reported as `Pending` whatever its state.
- Click `complete` writes the row found by `clickTransId`. Its AlreadyPaid query instead uses the request's `merchant_prepare_id` and `planId`. A replayed complete is therefore refused only when the two name the same row (`Click.CompleteReplayRejected`). `Click.CompleteReplayOnOtherRow` shows a concrete table in which the same request completes, and grants, twice.
- Click `prepare` crashes when a non-canceled row already has the request's `clickTransId`: the insert violates the unique key. `complete` crashes when no row has it (`transaction.id` on null). Both crashes are the `Crashed` response, and nothing is written.

## Model

| member | source | states |
|---|---|---|
| Payme.ExpiryBoundary | src/payments/payme/payme.service.ts:558-563 | A transaction is not expired up to 720 minutes after it was created, is expired one millisecond later, and stays expired from then on. |
| Payme.PendingRowUnique | src/payments/payme/payme.service.ts:196-198 | Under the invariant `Valid`, an account has at most one PENDING row, so the pending lookup has one possible answer. That row's state is Pending and it has no perform time. |
| Payme.CheckPerform | src/payments/payme/payme.service.ts:60-141 | The answer is Allow, TransactionNotAllowed or InvalidAmount. It is Allow exactly when both ids are well-formed, plan and user exist, and the amount equals the price or 100 × the price. InvalidAmount is exactly the same conditions with neither amount matching. |
| Payme.Create | src/payments/payme/payme.service.ts:143-300 | Keeps `Valid`. Every error echoes the request id. Checks in order: malformed plan id, malformed user id, missing user, missing plan, amount ≠ 100 × price. A pending row for the account is replayed when it has this id; otherwise the request is TransactionInProcess. An existing row under this id is timeout-cancelled when expired and reported as pending when not. A fresh request adds exactly one PENDING row and changes no other row. |
| Payme.Perform | src/payments/payme/payme.service.ts:302-404 | Keeps `Valid` and changes only row `id`. A missing row gives TransactionNotFound; a canceled one gives CantDoOperation. A PAID row returns its stored perform time and state. An expired PENDING row is timeout-cancelled. Otherwise the row becomes PAID/Paid with performAt = now. |
| Payme.Cancel | src/payments/payme/payme.service.ts:406-480 | Keeps `Valid` and changes only row `id`. A missing row gives TransactionNotFound. PENDING becomes PendingCanceled and Paid becomes PaidCanceled, each with cancelAt = now and the requested reason. A row already canceled is reported unchanged. |
| Payme.Check | src/payments/payme/payme.service.ts:482-518 | Errors exactly when the row is missing. Otherwise it reports the stored id, state, create time and reason, and gives perform and cancel times as 0 when not set. |
| Payme.StatementOf | src/payments/payme/payme.service.ts:520-556 | The listing holds one entry for every row created in [from, to] and nothing else. Each entry copies its row's fields. |
| Payme.Handle | src/payments/payme/payme.service.ts:28-56 | Keeps `Valid`. Each of the six method names reaches its own handler with that request's parameters: CheckPerform, Create, Check, Perform, Cancel or the statement listing. The answer is InvalidMethod exactly for any other name, and then nothing is written. The three read-only methods never write. |
| Payme.CreateReplay | src/payments/payme/payme.service.ts:196-257 | Repeating a successful CreateTransaction before the timeout returns the same answer and leaves the table as the first call left it. |
| Payme.PerformIdempotent | src/payments/payme/payme.service.ts:325-340 | A second PerformTransaction after a successful one returns the same answer and changes nothing. |
| Payme.CancelIdempotent | src/payments/payme/payme.service.ts:421-478 | A second CancelTransaction after a successful one returns the same answer and changes nothing. |
| Payme.CheckAfterPerform | src/payments/payme/payme.service.ts:482-518 | After a successful perform, CheckTransaction reports Paid with the perform time and cancel time 0. |
| Payme.CreateTimeoutIgnoresStatus | src/payments/payme/payme.service.ts:222-245 | An expired row that is already PAID is rewritten to CANCELED / PendingCanceled by createTransaction. |
| Payme.PaymeService.HandleTransactionMethods | src/payments/payme/payme.service.ts:28-56 | Response and new table equal `Handle` of the old tables. No other table changes. |
| Payme.PaymeService.CheckPerformTransaction | src/payments/payme/payme.service.ts:60-141 | Computes `CheckPerform` without writing. |
| Payme.PaymeService.FindPending | src/payments/payme/payme.service.ts:196-198 | Finds a PENDING row for the account exactly when one exists. |
| Payme.PaymeService.CreateTransaction | src/payments/payme/payme.service.ts:143-300 | Response and new table equal `Create`. No other table changes. |
| Payme.PaymeService.PerformTransaction | src/payments/payme/payme.service.ts:302-404 | Response and new table equal `Perform`. No other table changes. |
| Payme.PaymeService.CancelTransaction | src/payments/payme/payme.service.ts:406-480 | Response and new table equal `Cancel`. No other table changes. |
| Payme.PaymeService.CheckTransaction | src/payments/payme/payme.service.ts:482-518 | Computes `Check` without writing. |
| Payme.PaymeService.GetStatement | src/payments/payme/payme.service.ts:520-556 | Returns the `StatementOf` listing without writing. |
| Click.NatToDecimal | src/payments/click/click.service.ts:150 | The decimal text of a natural number is a non-empty string of digits, with two or more digits exactly from 10 up. |
| Click.IntToDecimal | src/payments/click/click.service.ts:150 | The decimal text of an integer starts with '-' exactly when it is negative. |
| Click.NatToDecimalInjective | src/payments/click/click.service.ts:150 | Distinct naturals have distinct decimal texts. |
| Click.IntToDecimalInjective | src/payments/click/click.service.ts:140-155 | Distinct timestamps give distinct prepareIds. |
| Click.PrepareFields | src/payments/click/click.service.ts:68-76 | The Prepare signature tuple is (clickTransId, serviceId, secret, merchantTransId, amount, action, signTime), with no prepare id. |
| Click.CompleteFields | src/payments/click/click.service.ts:181-190 | The Complete tuple is the Prepare tuple plus merchantPrepareId. |
| Click.PrepareAndCompleteTuplesDiffer | src/payments/click/click.service.ts:68-76 | A Prepare tuple never equals a Complete tuple, because it carries no prepare id. Whether their MD5 digests can still coincide is outside the model, since MD5 is a parameter. |
| Click.WithoutUserPlans | src/payments/click/click.service.ts:270 | deleteMany keeps exactly the rows of other users, unchanged. |
| Click.ClearedHasNoActive | src/payments/click/click.service.ts:270-271 | After that delete the payer has no active plan, so the grant has nothing to replace. |
| Click.PrepareSpec | src/payments/click/click.service.ts:55-165 | Only a successful Prepare writes, and it never touches plans or users. Each rejection is given exactly when every earlier check passes and its own fails, in order: bad signature, a PAID row for (user, plan), a CANCELED row for (user, plan), missing user, missing plan, amount ≠ price, a CANCELED row under this clickTransId. Success holds exactly when every check passes and the clickTransId is new. It then adds one PENDING row whose prepareId is the decimal text of `now` and returns `now` as merchant_prepare_id. It is a crash exactly when every check passes and the id is already taken. |
| Click.CompleteSpec | src/payments/click/click.service.ts:167-288 | Only GatewayFailed and Completed write. Each rejection is given exactly when every earlier check passes and its own fails, in order: bad signature, missing user, missing plan, no row prepared for (prepareId, user, plan), a PAID row for (plan, prepareId), amount ≠ price, a canceled row under this clickTransId. Once every check passes: a missing row is a crash; a gateway error > 0 marks the row CANCELED and echoes the code; otherwise the row becomes PAID and the user premium. On success all the payer's old plans are gone and one new ACTIVE plan runs from now for the plan's duration. Other users' plans are untouched. |
| Click.HandleSpec | src/payments/click/click.service.ts:33-53 | Action 0 is Prepare and action 1 is Complete. Any other action is rejected with ActionNotFound and nothing is written. |
| Click.HandleKeepsStamped | src/payments/click/click.service.ts:140-155 | Every row's prepareId stays the decimal text of its creation time, whatever the request. |
| Click.CompleteLeavesOnePlan | src/payments/click/click.service.ts:269-271 | After a successful Complete the payer's only active plan is the one just granted. |
| Click.CompleteReplayRejected | src/payments/click/click.service.ts:221-229 | Replaying a successful Complete whose clickTransId row is the prepared row returns AlreadyPaid and writes nothing. |
| Click.CompleteReplayOnOtherRow | src/payments/click/click.service.ts:221-263 | On a concrete table, a Complete naming one row's prepareId and another row's clickTransId succeeds twice, granting a plan each time. |
| Click.PrepareThenComplete | src/payments/click/click.service.ts:55-288 | After an accepted Prepare, a correctly signed Complete that echoes the returned merchant_prepare_id and reports no error settles the payment. This holds when earlier rows are stamped and older. |
| Click.ClickService.constructor | src/payments/click/click.service.ts:25-31 | The service holds the store, the user-plan service, the MD5 helper and the configured secret. |
| Click.ClickService.HandleMerchantTransactions | src/payments/click/click.service.ts:33-53 | Response and new tables equal `HandleSpec`. Plans, avatars and Payme rows do not change. |
| Click.ClickService.Prepare | src/payments/click/click.service.ts:55-165 | Response and new tables equal `PrepareSpec`. |
| Click.ClickService.Complete | src/payments/click/click.service.ts:167-288 | Response and new tables equal `CompleteSpec`. The method calls `HandleSuccessfulPayment` after the delete and ignores its error. |
| UserPlans.ActivePlans | src/userplans/userplans.service.ts:122-136 | A plan is among the user's active plans exactly when it belongs to the user and startDate ≤ now ≤ endDate. |
| UserPlans.ActiveIgnoresStatus | src/userplans/userplans.service.ts:125-130 | Changing a plan's status never changes who has an active plan: the window test does not look at the status. |
| UserPlans.ExpiredPlans | src/userplans/userplans.service.ts:182-194 | A plan is reported as expired exactly when its endDate is before now, whatever its status. |
| UserPlans.IsUserPlanActive | src/userplans/userplans.service.ts:174-179 | A missing id gives UserPlanNotFound. Otherwise the answer is true exactly when the plan is among its owner's active plans. |
| UserPlans.ExpiredDisjointFromActive | src/userplans/userplans.service.ts:182-194 | No plan is both expired (endDate < now) and active at the same `now`. |
| UserPlans.CreateSpec | src/userplans/userplans.service.ts:22-68 | Rejects in order: missing user, missing plan, an active plan. It succeeds exactly otherwise. It adds one ACTIVE row from now to now + duration days and changes no other row. With a non-negative duration the user's active set is then exactly the new row. |
| UserPlans.UpdateSpec | src/userplans/userplans.service.ts:139-154 | An unknown id gives UserPlanNotFound. Otherwise only that record changes, and only the given dates. |
| UserPlans.RemoveSpec | src/userplans/userplans.service.ts:157-171 | An unknown id gives UserPlanNotFound. Otherwise exactly that record is deleted. |
| UserPlans.GrantSpec | src/userplans/userplans.service.ts:197-260 | A missing plan gives PlanNotFound, then a missing user gives UserNotFound; it succeeds exactly otherwise. On success the chosen active plan is deleted, one ACTIVE plan from now for the plan's duration is inserted, the user becomes premium, and every other row is kept. |
| UserPlans.GrantLeavesOneActive | src/userplans/userplans.service.ts:203-245 | If the user had at most one active plan and the duration is non-negative, after the grant their only active plan is the new one. |
| UserPlans.ActivePlansWithout | src/userplans/userplans.service.ts:213-217 | Deleting the chosen plan removes exactly it from the active set. |
| UserPlans.ActivePlansInsert | src/userplans/userplans.service.ts:234-241 | Inserting a new row adds it to its owner's active set exactly when it is active. |
| UserPlans.GrantLeavesOthersAlone | src/userplans/userplans.service.ts:197-260 | Other users' active plans are unchanged by a grant. |
| UserPlans.GrantRowCount | src/userplans/userplans.service.ts:213-241 | A grant adds one row, less one when an active plan was replaced. |
| UserPlans.UserPlansService.FindActiveUserPlan | src/userplans/userplans.service.ts:122-136 | Finds none exactly when the user has no plan with startDate ≤ now ≤ endDate. Otherwise it returns such a plan of that user. |
| UserPlans.UserPlansService.Create | src/userplans/userplans.service.ts:22-68 | Result and new plans equal `CreateSpec`. Other tables do not change. |
| UserPlans.UserPlansService.Update | src/userplans/userplans.service.ts:139-154 | Result and new plans equal `UpdateSpec`. |
| UserPlans.UserPlansService.Remove | src/userplans/userplans.service.ts:157-171 | Result and new plans equal `RemoveSpec`. |
| UserPlans.UserPlansService.HandleSuccessfulPayment | src/userplans/userplans.service.ts:197-260 | The victim is an active plan, or none when there is none. On success the tables equal `GrantSpec`. On failure they are exactly as before, because the transaction rolls back. |
| PlanExpiration.Selection | src/tasks/plan-expiration.task.ts:25-33 | The selection is exactly the plans that are ACTIVE with endDate < now. |
| PlanExpiration.SweptPlans | src/tasks/plan-expiration.task.ts:43-85 | Keeps every plan key. A processed selected plan becomes EXPIRED unless its transaction failed. Every other plan is unchanged. |
| PlanExpiration.SweptUsers | src/tasks/plan-expiration.task.ts:53-67 | Keeps every user. A user is set non-premium exactly when they have no live plan and one of their processed plans committed. |
| PlanExpiration.SelectionIsExpired | src/tasks/plan-expiration.task.ts:25-33 | The sweep's selection is a subset of what findExpiredPlans reports. |
| PlanExpiration.SweepOnlyExpiresAndDemotes | src/tasks/plan-expiration.task.ts:25-85 | A pass deletes no plan and no user. It only sets selected plans EXPIRED and users non-premium, never premium. |
| PlanExpiration.SweepLeavesUnselectedAndFailedAlone | src/tasks/plan-expiration.task.ts:43-85 | An unselected plan, or one whose transaction failed, is unchanged by the pass. |
| PlanExpiration.SweepDemotesExactly | src/tasks/plan-expiration.task.ts:53-67 | A user ends non-premium exactly when they already were, or they have no live plan and a selected plan of theirs committed. A user with a live plan is untouched. |
| PlanExpiration.EmptySelectionWritesNothing | src/tasks/plan-expiration.task.ts:35-38 | With nothing selected, the pass writes nothing. |
| PlanExpiration.SweepIdempotent | src/tasks/plan-expiration.task.ts:22-85 | After a pass with no failed plan, a second pass at the same `now` changes nothing, whatever fails in it. |
| PlanExpiration.LivePlanUnchanged | src/tasks/plan-expiration.task.ts:53-60 | Expiring selected plans never changes who has a live plan. |
| PlanExpiration.OtherActiveIsLive | src/tasks/plan-expiration.task.ts:53-60 | Mid-pass, the "other active plan" query sees exactly the owner's live plans at the start of the pass. |
| PlanExpiration.ExpireStep | src/tasks/plan-expiration.task.ts:47-50 | A committed plan is marked EXPIRED and nothing else in plans changes. |
| PlanExpiration.DemoteStep | src/tasks/plan-expiration.task.ts:63-67 | A committed plan whose owner has no live plan sets that owner, and only that owner, non-premium. |
| PlanExpiration.KeepStep | src/tasks/plan-expiration.task.ts:53-63 | A plan whose owner has another live plan leaves every user as it is. |
| PlanExpiration.FailStep | src/tasks/plan-expiration.task.ts:78-84 | A failed plan is rolled back and the pass continues with both tables unchanged. |
| PlanExpiration.PlanExpirationTask.HandleExpiredPlans | src/tasks/plan-expiration.task.ts:17-91 | The new plans and users equal `SweptPlans` and `SweptUsers` over the whole selection at one `now`. No other table changes. |
| PlanExpiration.PlanExpirationTask.ExpireOne | src/tasks/plan-expiration.task.ts:44-84 | One plan's transaction takes the tables from "done" to "done plus this plan". |
| PlanExpiration.PlanExpirationTask.DailyCleanup | src/tasks/plan-expiration.task.ts:94-98 | Has the same effect as HandleExpiredPlans. |
| Users.UpgradeSpec | src/users/users.service.ts:24-98 | Rejects in order: missing user, missing avatar, coins < price. It succeeds exactly otherwise. On success coins drop by the price and stay non-negative, premiumAvatarId becomes the avatar, status is unchanged and other users are unchanged. |
| Users.UpdateCoinsSpec | src/users/users.service.ts:155-202 | A malformed id is rejected. A negative delta on a missing user gives UserNotFound. CoinsNegative arises exactly when a negative delta would take the balance below zero. Any other missing user gives RecordNotFound. Otherwise only that user's coins move, by the delta. |
| Users.RunCalls | src/users/users.service.ts:24-202 | A run of wallet calls never adds or removes a user. |
| Users.BalancesStayNonNegative | src/users/users.service.ts:56-60 | No sequence of upgrades and coin updates drives a non-negative balance below zero. |
| Users.NonNegativeDeltaAccepted | src/users/users.service.ts:167-194 | A zero or positive delta on an existing, well-formed id is never balance-checked: it is simply added. |
| Users.Insert | src/users/users.service.ts:105-106 | Inserting into a coin-ordered list gives a coin-ordered permutation of the list plus the new id. |
| Users.InsertFront | src/users/users.service.ts:105-106 | Putting an id in front of a list it precedes keeps the list ordered. |
| Users.InsertBehind | src/users/users.service.ts:105-106 | The head of an ordered list precedes an ordered permutation of its tail plus a later id. |
| Users.DistinctFromSet | src/users/users.service.ts:226-232 | A list holding each user once has no repeated id. |
| Users.Find | src/users/users.service.ts:249-250 | Returns an entry carrying the id, or none exactly when no entry has it. |
| Users.IndexOf | src/users/users.service.ts:231 | Returns the first position of the id, or -1 exactly when the id is absent. |
| Users.PeriodStanding | src/users/users.service.ts:249-268 | Gives the first matching entry's rating and coins, or (0, 0) when the user is absent. |
| Users.RankBounds | src/users/users.service.ts:226-232 | In a coins-descending list of all users, a user's position is at least the number of strictly richer users and below the number at least as rich. |
| Users.UsersService.UpgradeToPremium | src/users/users.service.ts:24-98 | Result and new users equal `UpgradeSpec`. A rejection changes nothing. |
| Users.UsersService.UpdateUser | src/users/users.service.ts:155-202 | Result and new users equal `UpdateCoinsSpec`. A rejection changes nothing. |
| Users.UsersService.UsersByCoins | src/users/users.service.ts:105-106 | Returns every user exactly once, ordered by coins in the requested direction. |
| Users.UsersService.GetUsers | src/users/users.service.ts:100-126 | Returns min(limit, users) rows rated 1..n in place. Rows are distinct users, ascending by coins when `order` is non-zero and descending otherwise. No user left out ranks before a returned one. |
| Users.UsersService.GetUserStatistics | src/users/users.service.ts:204-282 | A malformed id gives InvalidUserId, then a missing user gives UserNotFound. Otherwise the result holds the user, the daily and weekly standings and the balance. The all-time rank lies above the number of richer users and at most the number of users at least as rich. |

The lemmas `UserPlans.SingletonOfSmallSet`, `Users.RepeatCountsTwice`, `Users.SubsetCard` and `Users.DistinctCard` are general facts about sets and sequences. They are used in the proofs above and model no line of the source.

## Left out

- Link generation (`generatePaymeLink`, `generateClickLink`): it builds redirect URLs through generator modules that are not part of this model.
- MD5 and `ObjectId.isValid` are function parameters. The model does not compute the hash or the id format; it only records which fields are hashed and where validity is checked.
- Amounts are integers. Click's `parseFloat`/`parseInt` truncation is not modelled. Payme's `amount / 100 == price` is modelled as `amount == 100 × price`.
- The wall clock and generated row ids are parameters. Fresh ids are assumed unused (`newId !in …`), as the store generates them.
- Concurrency is not modelled: each call runs alone against the tables. Races between the sweep and the webhooks, and between check-then-write steps, are outside the model.
- Store failures other than the ones listed are not modelled. The sweep takes a set of failing plans; all other store calls succeed.
- Logging, HTTP status codes and response texts are not modelled, except Click's `error_note` strings. Payme error messages are reduced to their codes.
- Click `sign_time` is stored as received. Its conversion to an ISO string, and the exception for an unparsable time, are not modelled.
- `...updateUserDto` applies the other fields of a user update; only the coin delta is modelled. Prisma's 32-bit coin column is an unbounded integer here.
- Users.UsersService.UsersByCoins: it stands for the store's ordered `findMany`. Its contract lets users with equal coins come out in any order. Which order the store actually uses for them is not modelled.
- Users.UsersService.GetUsers: a negative `take` (Prisma's reverse paging) is not modelled; the limit is a natural number. The included user plans and avatars are not part of the rows.
- The ratings service (the daily and weekly period rankings) is not modelled. `GetUserStatistics` takes its rankings as parameters.
- The user plan's default status is taken to be ACTIVE on insert; the Prisma schema is not part of this model.
- `findMany … include: { user: true }` in the sweep also loads each owner. The model lets a plan whose owner is missing fail at its user update instead.
- Payme `performTransaction` also looks the user up, but only writes to the log; the model does not do that lookup.
- UserPlans.UpdateSpec: only the two dates of a user plan are updated. The source passes the request body unchanged to the store, and nothing validates it at run time against the declared two-date shape. A body with `status`, `userId` or `planId` would therefore overwrite those fields too. That could break the at-most-one-active-plan premise of `UserPlans.GrantLeavesOneActive`.
- The numeric codes are not derived from the source: Click actions are taken as 0 (Prepare) and 1 (Complete), and Payme states and error codes are named constructors. The constants files that define them are not part of this model.
- Payme.StatementOf: the listing is a set of entries. The source returns an array in store order, and that order is not modelled. Each entry carries its unique transaction id, so no entry is lost.
- Payme cancel reasons model the stored `reason` column only approximately, because the `CancelingReasons` constants are not part of this model:
  - In the source, a timeout and a requested cancel write the same integer column. A requested reason equal to the timeout code therefore cannot be told from a timeout. The model keeps `CanceledDueToTimeout` and `Requested(code)` apart.
  - `Payme.Cancel` always stores `Requested(reason)`. A request with no `params.reason` would store null in the source; the model treats the reason as always present.
