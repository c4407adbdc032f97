/**
 * Subscription bookkeeping: which user plans are active or expired at a
 * given instant, creating a plan, updating and removing one, and the
 * grant that runs after a successful payment (replace the user's active
 * plan, insert a new one, mark the user premium, all in one store
 * transaction).
 */
module UserPlans {
  import opened Store

  /** The exceptions the service throws. */
  datatype PlanError =
    | UserNotFound       // NotFoundException for the user, or the failed user update in the grant
    | PlanNotFound       // NotFoundException / Error for the plan
    | AlreadyActive      // BadRequestException: the user already has an active plan
    | UserPlanNotFound   // NotFoundException from findOne

  /** A plan is active at `now` when its window contains `now`; its status is not consulted. */
  predicate IsActive(up: UserPlan, now: int) {
    up.startDate <= now <= up.endDate
  }

  /** The user's plans that are active at `now` (what findActiveUserPlan chooses from). */
  function ActivePlans(userPlans: map<string, UserPlan>, userId: string, now: int): (s: set<string>)
    ensures forall k :: k in s <==>
      k in userPlans && userPlans[k].userId == userId && userPlans[k].startDate <= now <= userPlans[k].endDate
  {
    set k | k in userPlans && userPlans[k].userId == userId && IsActive(userPlans[k], now)
  }

  /** The window test never looks at the status: an EXPIRED or CANCELED plan still counts while it runs. */
  lemma ActiveIgnoresStatus(userPlans: map<string, UserPlan>, k: string, status: UserPlanStatus, now: int)
    requires k in userPlans
    ensures var changed := userPlans[k := userPlans[k].(status := status)];
      ActivePlans(changed, userPlans[k].userId, now) == ActivePlans(userPlans, userPlans[k].userId, now)
  {
  }

  /** The plans whose end date has passed, whatever their status. */
  function ExpiredPlans(userPlans: map<string, UserPlan>, now: int): (s: set<string>)
    ensures forall k :: k in s <==> k in userPlans && userPlans[k].endDate < now
  {
    set k | k in userPlans && userPlans[k].endDate < now
  }

  /** The row both `create` and the grant insert: it starts now and lasts `duration` whole days. */
  function NewUserPlan(userId: string, planId: string, plan: Plan, now: int): UserPlan {
    UserPlan(userId, planId, now, now + plan.duration * MsPerDay, ACTIVE)
  }

  /** isUserPlanActive: NotFound for an unknown id, otherwise the window test. */
  function IsUserPlanActive(userPlans: map<string, UserPlan>, id: string, now: int): (r: Result<bool, PlanError>)
    ensures r.Err? <==> id !in userPlans
    ensures r.Err? ==> r.error == UserPlanNotFound
    ensures r == Ok(true) <==> id in userPlans && id in ActivePlans(userPlans, userPlans[id].userId, now)
  {
    if id !in userPlans then Err(UserPlanNotFound) else Ok(IsActive(userPlans[id], now))
  }

  /** No plan is both expired and active at the same instant, for any user. */
  lemma ExpiredDisjointFromActive(userPlans: map<string, UserPlan>, userId: string, now: int)
    ensures ExpiredPlans(userPlans, now) !! ActivePlans(userPlans, userId, now)
  {
  }

  /** The outcome of `create`: the new table, or the first failed check. */
  function CreateSpec(users: map<string, User>, plans: map<string, Plan>, userPlans: map<string, UserPlan>,
                      userId: string, planId: string, now: int, newId: string): (r: Result<map<string, UserPlan>, PlanError>)
    requires newId !in userPlans
    ensures userId !in users ==> r == Err(UserNotFound)
    ensures userId in users && planId !in plans ==> r == Err(PlanNotFound)
    ensures userId in users && planId in plans && ActivePlans(userPlans, userId, now) != {} ==> r == Err(AlreadyActive)
    ensures r.Ok? <==> userId in users && planId in plans && ActivePlans(userPlans, userId, now) == {}
    ensures r.Ok? ==> r.value.Keys == userPlans.Keys + {newId}
    ensures r.Ok? ==> forall k :: k in userPlans ==> r.value[k] == userPlans[k]
    ensures r.Ok? ==> var up := r.value[newId];
      up.userId == userId && up.planId == planId && up.status == ACTIVE &&
      up.startDate == now && up.endDate == up.startDate + plans[planId].duration * MsPerDay
    ensures r.Ok? && plans[planId].duration >= 0 ==> ActivePlans(r.value, userId, now) == {newId}
  {
    if userId !in users then Err(UserNotFound)
    else if planId !in plans then Err(PlanNotFound)
    else if ActivePlans(userPlans, userId, now) != {} then Err(AlreadyActive)
    else
      var r := userPlans[newId := NewUserPlan(userId, planId, plans[planId], now)];
      assert ActivePlans(r, userId, now) == if IsActive(r[newId], now) then {newId} else {};
      Ok(r)
  }

  /** `update`: only the given dates of the one record change. */
  function UpdateSpec(userPlans: map<string, UserPlan>, id: string, startDate: Option<int>, endDate: Option<int>)
    : (r: Result<map<string, UserPlan>, PlanError>)
    ensures r.Err? <==> id !in userPlans
    ensures r.Err? ==> r.error == UserPlanNotFound
    ensures r.Ok? ==> r.value.Keys == userPlans.Keys
    ensures r.Ok? ==> forall k :: k in userPlans && k != id ==> r.value[k] == userPlans[k]
    ensures r.Ok? ==> var up, was := r.value[id], userPlans[id];
      up.userId == was.userId && up.planId == was.planId && up.status == was.status &&
      up.startDate == (if startDate.Some? then startDate.value else was.startDate) &&
      up.endDate == (if endDate.Some? then endDate.value else was.endDate)
  {
    if id !in userPlans then Err(UserPlanNotFound)
    else
      var was := userPlans[id];
      var up := was.(startDate := if startDate.Some? then startDate.value else was.startDate,
                     endDate := if endDate.Some? then endDate.value else was.endDate);
      Ok(userPlans[id := up])
  }

  /** `remove`: exactly the one record disappears. */
  function RemoveSpec(userPlans: map<string, UserPlan>, id: string): (r: Result<map<string, UserPlan>, PlanError>)
    ensures r.Err? <==> id !in userPlans
    ensures r.Err? ==> r.error == UserPlanNotFound
    ensures r.Ok? ==> r.value.Keys == userPlans.Keys - {id} && |r.value| == |userPlans| - 1
    ensures r.Ok? ==> forall k :: k in r.value ==> r.value[k] == userPlans[k]
  {
    if id !in userPlans then Err(UserPlanNotFound) else Ok(userPlans - {id})
  }

  /** The plan the grant replaces: findFirst over the user's active plans, or none when there is none. */
  predicate VictimOf(userPlans: map<string, UserPlan>, userId: string, now: int, victim: Option<string>) {
    match victim
    case None => ActivePlans(userPlans, userId, now) == {}
    case Some(k) => k in ActivePlans(userPlans, userId, now)
  }

  function Without(userPlans: map<string, UserPlan>, victim: Option<string>): map<string, UserPlan> {
    if victim.Some? then userPlans - {victim.value} else userPlans
  }

  /**
   * handleSuccessfulPayment as one store transaction: delete the chosen
   * active plan, look the plan up, insert the new row, set the user premium.
   * A failure in any step rolls everything back (`Err`, tables unchanged).
   */
  function GrantSpec(users: map<string, User>, plans: map<string, Plan>, userPlans: map<string, UserPlan>,
                     userId: string, planId: string, victim: Option<string>, newId: string, now: int)
    : (r: Result<(map<string, UserPlan>, map<string, User>), PlanError>)
    requires VictimOf(userPlans, userId, now, victim)
    requires newId !in userPlans
    ensures planId !in plans ==> r == Err(PlanNotFound)
    ensures planId in plans && userId !in users ==> r == Err(UserNotFound)
    ensures r.Ok? <==> planId in plans && userId in users
    ensures r.Ok? ==> r.value.1 == users[userId := users[userId].(status := true)]
    ensures r.Ok? ==> r.value.0.Keys == Without(userPlans, victim).Keys + {newId}
    ensures r.Ok? ==> forall k :: k in userPlans && victim != Some(k) ==> r.value.0[k] == userPlans[k]
    ensures r.Ok? ==> var up := r.value.0[newId];
      up.userId == userId && up.planId == planId && up.status == ACTIVE &&
      up.startDate == now && up.endDate == up.startDate + plans[planId].duration * MsPerDay
  {
    var afterDelete := Without(userPlans, victim);
    if planId !in plans then Err(PlanNotFound)
    else
      var inserted := afterDelete[newId := NewUserPlan(userId, planId, plans[planId], now)];
      if userId !in users then Err(UserNotFound)
      else Ok((inserted, users[userId := users[userId].(status := true)]))
  }

  lemma SingletonOfSmallSet(s: set<string>, x: string)
    requires |s| <= 1 && x in s
    ensures s == {x}
  {
    var rest := s - {x};
    assert s == rest + {x};
    assert |rest| == |s| - 1;
  }

  /** If the user had at most one active plan before the grant, exactly one (the new one) is active after it. */
  lemma GrantLeavesOneActive(users: map<string, User>, plans: map<string, Plan>, userPlans: map<string, UserPlan>,
                             userId: string, planId: string, victim: Option<string>, newId: string, now: int)
    requires VictimOf(userPlans, userId, now, victim)
    requires newId !in userPlans
    requires |ActivePlans(userPlans, userId, now)| <= 1
    requires planId in plans && plans[planId].duration >= 0
    requires GrantSpec(users, plans, userPlans, userId, planId, victim, newId, now).Ok?
    ensures ActivePlans(GrantSpec(users, plans, userPlans, userId, planId, victim, newId, now).value.0, userId, now) == {newId}
  {
    var before := ActivePlans(userPlans, userId, now);
    var kept := Without(userPlans, victim);
    var removed: set<string> := if victim.Some? then {victim.value} else {};
    if victim.Some? {
      SingletonOfSmallSet(before, victim.value);
    }
    ActivePlansWithout(userPlans, victim, userId, now);
    var up := NewUserPlan(userId, planId, plans[planId], now);
    assert GrantSpec(users, plans, userPlans, userId, planId, victim, newId, now).value.0 == kept[newId := up];
    assert ActivePlans(kept, userId, now) == {};
    ActivePlansInsert(kept, newId, up, userId, now);
    assert IsActive(up, now);
  }

  lemma ActivePlansWithout(userPlans: map<string, UserPlan>, victim: Option<string>, userId: string, now: int)
    ensures ActivePlans(Without(userPlans, victim), userId, now)
         == ActivePlans(userPlans, userId, now) - (if victim.Some? then {victim.value} else {})
  {
  }

  lemma ActivePlansInsert(userPlans: map<string, UserPlan>, k: string, up: UserPlan, userId: string, now: int)
    requires k !in userPlans
    ensures ActivePlans(userPlans[k := up], userId, now)
         == ActivePlans(userPlans, userId, now) + (if up.userId == userId && IsActive(up, now) then {k} else {})
  {
  }

  /** The grant leaves every other user's active plans as they were. */
  lemma GrantLeavesOthersAlone(users: map<string, User>, plans: map<string, Plan>, userPlans: map<string, UserPlan>,
                               userId: string, planId: string, victim: Option<string>, newId: string, now: int, other: string)
    requires VictimOf(userPlans, userId, now, victim)
    requires newId !in userPlans
    requires other != userId
    requires GrantSpec(users, plans, userPlans, userId, planId, victim, newId, now).Ok?
    ensures ActivePlans(GrantSpec(users, plans, userPlans, userId, planId, victim, newId, now).value.0, other, now)
         == ActivePlans(userPlans, other, now)
  {
    var after := GrantSpec(users, plans, userPlans, userId, planId, victim, newId, now).value.0;
    forall k | k in ActivePlans(userPlans, other, now) ensures k in ActivePlans(after, other, now) {
      assert victim != Some(k);
    }
  }

  /** The grant deletes at most one row and inserts exactly one. */
  lemma GrantRowCount(users: map<string, User>, plans: map<string, Plan>, userPlans: map<string, UserPlan>,
                      userId: string, planId: string, victim: Option<string>, newId: string, now: int)
    requires VictimOf(userPlans, userId, now, victim)
    requires newId !in userPlans
    requires GrantSpec(users, plans, userPlans, userId, planId, victim, newId, now).Ok?
    ensures |GrantSpec(users, plans, userPlans, userId, planId, victim, newId, now).value.0|
         == |userPlans| + (if victim.None? then 1 else 0)
  {
    var after := GrantSpec(users, plans, userPlans, userId, planId, victim, newId, now).value.0;
    var kept := Without(userPlans, victim);
    assert |after.Keys| == |kept.Keys| + 1;
  }

  /** The user-plan service over the shared store. */
  class UserPlansService {
    const db: Database

    constructor (db: Database)
      ensures this.db == db
    {
      this.db := db;
    }

    /** findActiveUserPlan: one of the user's active plans, or none when there is none. */
    method FindActiveUserPlan(userId: string, now: int) returns (r: Option<string>)
      ensures r.None? <==> ActivePlans(db.userPlans, userId, now) == {}
      ensures r.Some? ==> r.value in db.userPlans && db.userPlans[r.value].userId == userId
      ensures r.Some? ==> db.userPlans[r.value].startDate <= now <= db.userPlans[r.value].endDate
    {
      var active := ActivePlans(db.userPlans, userId, now);
      if active == {} {
        r := None;
      } else {
        var k :| k in active;
        r := Some(k);
      }
    }

    method Create(userId: string, planId: string, now: int, newId: string) returns (r: Result<UserPlan, PlanError>)
      requires newId !in db.userPlans
      modifies db
      ensures var spec := CreateSpec(old(db.users), old(db.plans), old(db.userPlans), userId, planId, now, newId);
        (spec.Ok? ==> r == Ok(spec.value[newId]) && db.userPlans == spec.value) &&
        (spec.Err? ==> r == Err(spec.error) && db.userPlans == old(db.userPlans))
      ensures db.users == old(db.users) && db.plans == old(db.plans) && db.avatars == old(db.avatars)
      ensures db.clickTxs == old(db.clickTxs) && db.paymeTxs == old(db.paymeTxs)
    {
      if userId !in db.users {
        return Err(UserNotFound);
      }
      if planId !in db.plans {
        return Err(PlanNotFound);
      }
      var plan := db.plans[planId];
      var existing := FindActiveUserPlan(userId, now);
      if existing.Some? {
        return Err(AlreadyActive);
      }
      var up := NewUserPlan(userId, planId, plan, now);
      db.userPlans := db.userPlans[newId := up];
      r := Ok(up);
    }

    method Update(id: string, startDate: Option<int>, endDate: Option<int>) returns (r: Result<UserPlan, PlanError>)
      modifies db
      ensures var spec := UpdateSpec(old(db.userPlans), id, startDate, endDate);
        (spec.Ok? ==> r == Ok(spec.value[id]) && db.userPlans == spec.value) &&
        (spec.Err? ==> r == Err(spec.error) && db.userPlans == old(db.userPlans))
      ensures db.users == old(db.users) && db.plans == old(db.plans) && db.avatars == old(db.avatars)
      ensures db.clickTxs == old(db.clickTxs) && db.paymeTxs == old(db.paymeTxs)
    {
      if id !in db.userPlans {
        return Err(UserPlanNotFound);
      }
      var up := db.userPlans[id];
      if startDate.Some? {
        up := up.(startDate := startDate.value);
      }
      if endDate.Some? {
        up := up.(endDate := endDate.value);
      }
      db.userPlans := db.userPlans[id := up];
      r := Ok(up);
    }

    method Remove(id: string) returns (r: Result<UserPlan, PlanError>)
      modifies db
      ensures var spec := RemoveSpec(old(db.userPlans), id);
        (spec.Ok? ==> r == Ok(old(db.userPlans)[id]) && db.userPlans == spec.value) &&
        (spec.Err? ==> r == Err(spec.error) && db.userPlans == old(db.userPlans))
      ensures db.users == old(db.users) && db.plans == old(db.plans) && db.avatars == old(db.avatars)
      ensures db.clickTxs == old(db.clickTxs) && db.paymeTxs == old(db.paymeTxs)
    {
      if id !in db.userPlans {
        return Err(UserPlanNotFound);
      }
      r := Ok(db.userPlans[id]);
      db.userPlans := db.userPlans - {id};
    }

    /**
     * handleSuccessfulPayment. The store transaction is modelled by a
     * snapshot that is put back when a step fails; `victim` names the
     * active plan the lookup chose.
     */
    method HandleSuccessfulPayment(userId: string, planId: string, now: int, newId: string)
      returns (r: Result<(), PlanError>, ghost victim: Option<string>)
      requires newId !in db.userPlans
      modifies db
      ensures VictimOf(old(db.userPlans), userId, now, victim)
      ensures var spec := GrantSpec(old(db.users), old(db.plans), old(db.userPlans), userId, planId, victim, newId, now);
        (spec.Ok? ==> r == Ok(()) && db.userPlans == spec.value.0 && db.users == spec.value.1) &&
        (spec.Err? ==> r == Err(spec.error) && db.userPlans == old(db.userPlans) && db.users == old(db.users))
      ensures db.plans == old(db.plans) && db.avatars == old(db.avatars)
      ensures db.clickTxs == old(db.clickTxs) && db.paymeTxs == old(db.paymeTxs)
    {
      ghost var before := db.userPlans;
      var savedPlans, savedUsers := db.userPlans, db.users;
      var existing := FindActiveUserPlan(userId, now);
      victim := existing;
      if existing.Some? {
        db.userPlans := db.userPlans - {existing.value};
      }
      assert db.userPlans == Without(before, victim);
      ghost var spec := GrantSpec(savedUsers, db.plans, before, userId, planId, victim, newId, now);
      if planId !in db.plans {
        db.userPlans, db.users := savedPlans, savedUsers;
        return Err(PlanNotFound), victim;
      }
      var plan := db.plans[planId];
      db.userPlans := db.userPlans[newId := NewUserPlan(userId, planId, plan, now)];
      if userId !in db.users {
        db.userPlans, db.users := savedPlans, savedUsers;
        return Err(UserNotFound), victim;
      }
      db.users := db.users[userId := db.users[userId].(status := true)];
      assert spec.Ok? && spec.value == (db.userPlans, db.users);
      r := Ok(());
    }
  }
}
