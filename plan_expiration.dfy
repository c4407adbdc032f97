/**
 * The hourly expiration sweep. One `now` is taken per pass; every user plan
 * still ACTIVE whose endDate lies before it is marked EXPIRED, and its owner
 * loses premium status unless another ACTIVE plan of theirs runs to `now` or
 * later. Each plan is handled in a store transaction of its own: when one
 * fails, that plan's writes are rolled back and the pass goes on.
 */
module PlanExpiration {
  import opened Store
  import opened UserPlans

  /** The findMany filter: ACTIVE and endDate < now. */
  predicate Selected(up: UserPlan, now: int) {
    up.status == ACTIVE && up.endDate < now
  }

  function Selection(userPlans: map<string, UserPlan>, now: int): (s: set<string>)
    ensures forall k :: k in s <==> k in userPlans && Selected(userPlans[k], now)
  {
    set k | k in userPlans && Selected(userPlans[k], now)
  }

  /** The "other active plan" query: ACTIVE with endDate >= now. */
  predicate HasLivePlan(userPlans: map<string, UserPlan>, userId: string, now: int) {
    exists k :: k in userPlans && userPlans[k].userId == userId && userPlans[k].status == ACTIVE && userPlans[k].endDate >= now
  }

  /**
   * A selected plan's transaction fails when the store aborts it (`faults`,
   * the environment's choice) or when the owner must be demoted but has no
   * user row, so the user update finds no record.
   */
  predicate PlanFails(userPlans: map<string, UserPlan>, users: map<string, User>, k: string, now: int, faults: set<string>)
    requires k in userPlans
  {
    k in faults || (!HasLivePlan(userPlans, userPlans[k].userId, now) && userPlans[k].userId !in users)
  }

  /** The owner is demoted by some plan of `done` whose transaction commits. */
  predicate Demoted(userPlans: map<string, UserPlan>, u: string, now: int, faults: set<string>, done: set<string>) {
    !HasLivePlan(userPlans, u, now)
    && exists k :: k in done && k in userPlans && Selected(userPlans[k], now) && userPlans[k].userId == u && k !in faults
  }

  /** The user plans once the plans of `done` have been processed. */
  function SweptPlans(userPlans: map<string, UserPlan>, users: map<string, User>, now: int, faults: set<string>,
                      done: set<string>): (r: map<string, UserPlan>)
    ensures r.Keys == userPlans.Keys
    ensures forall k :: k in userPlans && !(k in done && Selected(userPlans[k], now)) ==> r[k] == userPlans[k]
    ensures forall k :: k in userPlans && k in done && Selected(userPlans[k], now) ==>
      r[k] == if PlanFails(userPlans, users, k, now, faults) then userPlans[k] else userPlans[k].(status := EXPIRED)
  {
    map k | k in userPlans ::
      if k in done && Selected(userPlans[k], now) && !PlanFails(userPlans, users, k, now, faults)
      then userPlans[k].(status := EXPIRED) else userPlans[k]
  }

  /** The users once the plans of `done` have been processed. */
  function SweptUsers(userPlans: map<string, UserPlan>, users: map<string, User>, now: int, faults: set<string>,
                      done: set<string>): (r: map<string, User>)
    ensures r.Keys == users.Keys
    ensures forall u :: u in users ==>
      r[u] == if Demoted(userPlans, u, now, faults, done) then users[u].(status := false) else users[u]
  {
    map u | u in users :: if Demoted(userPlans, u, now, faults, done) then users[u].(status := false) else users[u]
  }

  // ---------------------------------------------------------------------
  // What a whole pass promises.
  // ---------------------------------------------------------------------

  /** The selection only ever picks plans that findExpiredPlans would also report. */
  lemma SelectionIsExpired(userPlans: map<string, UserPlan>, now: int)
    ensures Selection(userPlans, now) <= ExpiredPlans(userPlans, now)
  {
  }

  /** The sweep never grants premium, never deletes a plan and only ever writes status fields. */
  lemma SweepOnlyExpiresAndDemotes(userPlans: map<string, UserPlan>, users: map<string, User>, now: int, faults: set<string>)
    ensures var plans1 := SweptPlans(userPlans, users, now, faults, Selection(userPlans, now));
      plans1.Keys == userPlans.Keys
      && forall k :: k in userPlans ==> plans1[k] == userPlans[k] || (Selected(userPlans[k], now) && plans1[k] == userPlans[k].(status := EXPIRED))
    ensures var users1 := SweptUsers(userPlans, users, now, faults, Selection(userPlans, now));
      users1.Keys == users.Keys
      && forall u :: u in users ==> users1[u] == users[u] || users1[u] == users[u].(status := false)
  {
  }

  /** A plan outside the selection, or one whose transaction failed, comes out as it went in. */
  lemma SweepLeavesUnselectedAndFailedAlone(userPlans: map<string, UserPlan>, users: map<string, User>, now: int,
                                             faults: set<string>, k: string)
    requires k in userPlans
    requires !Selected(userPlans[k], now) || PlanFails(userPlans, users, k, now, faults)
    ensures SweptPlans(userPlans, users, now, faults, Selection(userPlans, now))[k] == userPlans[k]
  {
  }

  /**
   * The demotion rule: an existing user ends the pass non-premium by the
   * sweep's own doing exactly when they have no live plan and one of their
   * selected plans committed; a user with a live plan is never touched.
   */
  lemma SweepDemotesExactly(userPlans: map<string, UserPlan>, users: map<string, User>, now: int, faults: set<string>, u: string)
    requires u in users
    ensures var users1 := SweptUsers(userPlans, users, now, faults, Selection(userPlans, now));
      (users1[u] == users[u].(status := false)) <==>
        (!users[u].status
         || (!HasLivePlan(userPlans, u, now)
             && exists k :: k in userPlans && Selected(userPlans[k], now) && userPlans[k].userId == u
                          && !PlanFails(userPlans, users, k, now, faults)))
    ensures HasLivePlan(userPlans, u, now) ==> SweptUsers(userPlans, users, now, faults, Selection(userPlans, now))[u] == users[u]
  {
    var users1 := SweptUsers(userPlans, users, now, faults, Selection(userPlans, now));
    if !HasLivePlan(userPlans, u, now) {
      if exists k :: k in userPlans && Selected(userPlans[k], now) && userPlans[k].userId == u
                     && !PlanFails(userPlans, users, k, now, faults) {
        var k :| k in userPlans && Selected(userPlans[k], now) && userPlans[k].userId == u
                 && !PlanFails(userPlans, users, k, now, faults);
        assert k in Selection(userPlans, now);
        assert Demoted(userPlans, u, now, faults, Selection(userPlans, now));
      }
    }
  }

  /** An empty selection writes nothing. */
  lemma EmptySelectionWritesNothing(userPlans: map<string, UserPlan>, users: map<string, User>, now: int, faults: set<string>)
    requires Selection(userPlans, now) == {}
    ensures SweptPlans(userPlans, users, now, faults, Selection(userPlans, now)) == userPlans
    ensures SweptUsers(userPlans, users, now, faults, Selection(userPlans, now)) == users
  {
    var users1 := SweptUsers(userPlans, users, now, faults, {});
    forall u | u in users ensures users1[u] == users[u] {
      assert !Demoted(userPlans, u, now, faults, {});
    }
  }

  /** After a pass in which no plan failed, a second pass with the same `now` changes nothing. */
  lemma SweepIdempotent(userPlans: map<string, UserPlan>, users: map<string, User>, now: int, faults: set<string>,
                        faults2: set<string>)
    requires forall k :: k in Selection(userPlans, now) ==> !PlanFails(userPlans, users, k, now, faults)
    ensures var plans1 := SweptPlans(userPlans, users, now, faults, Selection(userPlans, now));
      var users1 := SweptUsers(userPlans, users, now, faults, Selection(userPlans, now));
      SweptPlans(plans1, users1, now, faults2, Selection(plans1, now)) == plans1
      && SweptUsers(plans1, users1, now, faults2, Selection(plans1, now)) == users1
  {
    var plans1 := SweptPlans(userPlans, users, now, faults, Selection(userPlans, now));
    var users1 := SweptUsers(userPlans, users, now, faults, Selection(userPlans, now));
    forall k | k in plans1 ensures !Selected(plans1[k], now) {
      if Selected(userPlans[k], now) {
        assert k in Selection(userPlans, now);
      }
    }
    assert Selection(plans1, now) == {};
    EmptySelectionWritesNothing(plans1, users1, now, faults2);
  }

  // ---------------------------------------------------------------------
  // Facts the loop needs.
  // ---------------------------------------------------------------------

  /** Expiring selected plans never changes who has a live plan. */
  lemma LivePlanUnchanged(userPlans: map<string, UserPlan>, users: map<string, User>, now: int, faults: set<string>,
                          done: set<string>, u: string)
    ensures HasLivePlan(SweptPlans(userPlans, users, now, faults, done), u, now) <==> HasLivePlan(userPlans, u, now)
  {
    var m := SweptPlans(userPlans, users, now, faults, done);
    if HasLivePlan(userPlans, u, now) {
      var k :| k in userPlans && userPlans[k].userId == u && userPlans[k].status == ACTIVE && userPlans[k].endDate >= now;
      assert m[k] == userPlans[k];
    }
    if HasLivePlan(m, u, now) {
      var k :| k in m && m[k].userId == u && m[k].status == ACTIVE && m[k].endDate >= now;
      assert m[k] == userPlans[k];
    }
  }

  // ---------------------------------------------------------------------
  // The task.
  // ---------------------------------------------------------------------

  class PlanExpirationTask {
    const db: Database

    constructor (db: Database)
      ensures this.db == db
    {
      this.db := db;
    }

    /**
     * handleExpiredPlans with clock reading `now`; `faults` names the plans
     * whose transaction the store aborts.
     */
    method HandleExpiredPlans(now: int, faults: set<string>)
      modifies db
      ensures db.userPlans == SweptPlans(old(db.userPlans), old(db.users), now, faults, Selection(old(db.userPlans), now))
      ensures db.users == SweptUsers(old(db.userPlans), old(db.users), now, faults, Selection(old(db.userPlans), now))
      ensures db.plans == old(db.plans) && db.avatars == old(db.avatars)
      ensures db.clickTxs == old(db.clickTxs) && db.paymeTxs == old(db.paymeTxs)
    {
      var snapshot, owners := db.userPlans, db.users;
      var expiredPlans := Selection(db.userPlans, now);
      if expiredPlans == {} {
        EmptySelectionWritesNothing(snapshot, owners, now, faults);
        return;
      }
      var remaining := expiredPlans;
      ghost var done: set<string> := {};
      assert db.users == SweptUsers(snapshot, owners, now, faults, done) by {
        forall u | u in owners ensures !Demoted(snapshot, u, now, faults, done) { }
      }
      while remaining != {}
        invariant remaining <= expiredPlans && done == expiredPlans - remaining
        invariant db.userPlans == SweptPlans(snapshot, owners, now, faults, done)
        invariant db.users == SweptUsers(snapshot, owners, now, faults, done)
        invariant db.plans == old(db.plans) && db.avatars == old(db.avatars)
        invariant db.clickTxs == old(db.clickTxs) && db.paymeTxs == old(db.paymeTxs)
        decreases |remaining|
      {
        var k :| k in remaining;
        ExpireOne(k, snapshot[k], now, faults, snapshot, owners, done);
        ghost var next := done + {k};
        remaining := remaining - {k};
        done := next;
      }
      assert done == expiredPlans;
    }

    /**
     * One iteration: the store transaction for selected plan `k`, whose row
     * as selected is `plan`. `snapshot`, `owners` are the tables at the start
     * of the pass and `done` the plans already processed.
     */
    method ExpireOne(k: string, plan: UserPlan, now: int, faults: set<string>,
                     ghost snapshot: map<string, UserPlan>, ghost owners: map<string, User>, ghost done: set<string>)
      requires k in snapshot && plan == snapshot[k] && Selected(plan, now) && k !in done
      requires db.userPlans == SweptPlans(snapshot, owners, now, faults, done)
      requires db.users == SweptUsers(snapshot, owners, now, faults, done)
      modifies db
      ensures db.userPlans == SweptPlans(snapshot, owners, now, faults, done + {k})
      ensures db.users == SweptUsers(snapshot, owners, now, faults, done + {k})
      ensures db.plans == old(db.plans) && db.avatars == old(db.avatars)
      ensures db.clickTxs == old(db.clickTxs) && db.paymeTxs == old(db.paymeTxs)
    {
      var savedPlans, savedUsers := db.userPlans, db.users;
      var failed := k in faults;
      if !failed {
        db.userPlans := db.userPlans[k := db.userPlans[k].(status := EXPIRED)];
        var otherActive := OtherActive(db.userPlans, plan.userId, k, now);
        OtherActiveIsLive(snapshot, owners, now, faults, done, k);
        if !otherActive {
          if plan.userId !in db.users {
            failed := true;
          } else {
            db.users := db.users[plan.userId := db.users[plan.userId].(status := false)];
            DemoteStep(snapshot, owners, now, faults, done, k);
          }
        } else {
          KeepStep(snapshot, owners, now, faults, done, k);
        }
      }
      if failed {
        db.userPlans, db.users := savedPlans, savedUsers;
        FailStep(snapshot, owners, now, faults, done, k);
      } else {
        ExpireStep(snapshot, owners, now, faults, done, k);
      }
    }

    /** dailyCleanup runs the same pass. */
    method DailyCleanup(now: int, faults: set<string>)
      modifies db
      ensures db.userPlans == SweptPlans(old(db.userPlans), old(db.users), now, faults, Selection(old(db.userPlans), now))
      ensures db.users == SweptUsers(old(db.userPlans), old(db.users), now, faults, Selection(old(db.userPlans), now))
      ensures db.plans == old(db.plans) && db.avatars == old(db.avatars)
      ensures db.clickTxs == old(db.clickTxs) && db.paymeTxs == old(db.paymeTxs)
    {
      HandleExpiredPlans(now, faults);
    }
  }

  /** The query for another live plan of the owner, excluding the plan at hand. */
  predicate OtherActive(userPlans: map<string, UserPlan>, userId: string, k: string, now: int) {
    exists j :: j in userPlans && userPlans[j].userId == userId && userPlans[j].status == ACTIVE
                && userPlans[j].endDate >= now && j != k
  }

  /** Mid-pass, after marking plan k, the query sees exactly the live plans of the original table. */
  lemma OtherActiveIsLive(userPlans: map<string, UserPlan>, users: map<string, User>, now: int, faults: set<string>,
                          done: set<string>, k: string)
    requires k in userPlans && Selected(userPlans[k], now)
    ensures var m := SweptPlans(userPlans, users, now, faults, done);
      OtherActive(m[k := m[k].(status := EXPIRED)], userPlans[k].userId, k, now)
      <==> HasLivePlan(userPlans, userPlans[k].userId, now)
  {
    var m := SweptPlans(userPlans, users, now, faults, done);
    var m2 := m[k := m[k].(status := EXPIRED)];
    var u := userPlans[k].userId;
    if HasLivePlan(userPlans, u, now) {
      var j :| j in userPlans && userPlans[j].userId == u && userPlans[j].status == ACTIVE && userPlans[j].endDate >= now;
      assert j != k && m2[j] == userPlans[j];
    }
    if OtherActive(m2, u, k, now) {
      var j :| j in m2 && m2[j].userId == u && m2[j].status == ACTIVE && m2[j].endDate >= now && j != k;
      assert m2[j] == m[j] && m[j].endDate == userPlans[j].endDate;
      assert m[j] == userPlans[j];
    }
  }

  /** A committed plan k is marked EXPIRED; the other plans keep their value. */
  lemma ExpireStep(userPlans: map<string, UserPlan>, users: map<string, User>, now: int, faults: set<string>,
                   done: set<string>, k: string)
    requires k in userPlans && Selected(userPlans[k], now) && k !in done
    requires !PlanFails(userPlans, users, k, now, faults)
    ensures var m := SweptPlans(userPlans, users, now, faults, done);
      SweptPlans(userPlans, users, now, faults, done + {k}) == m[k := m[k].(status := EXPIRED)]
  {
  }

  /** A committed plan whose owner has no live plan demotes the owner. */
  lemma DemoteStep(userPlans: map<string, UserPlan>, users: map<string, User>, now: int, faults: set<string>,
                   done: set<string>, k: string)
    requires k in userPlans && Selected(userPlans[k], now) && k !in faults
    requires !HasLivePlan(userPlans, userPlans[k].userId, now) && userPlans[k].userId in users
    ensures var us := SweptUsers(userPlans, users, now, faults, done); var u := userPlans[k].userId;
      SweptUsers(userPlans, users, now, faults, done + {k}) == us[u := us[u].(status := false)]
  {
    var u := userPlans[k].userId;
    assert Demoted(userPlans, u, now, faults, done + {k});
    forall v | v in users && v != u
      ensures Demoted(userPlans, v, now, faults, done + {k}) == Demoted(userPlans, v, now, faults, done)
    {
      if Demoted(userPlans, v, now, faults, done + {k}) {
        var j :| j in done + {k} && j in userPlans && Selected(userPlans[j], now) && userPlans[j].userId == v && j !in faults;
        assert j != k;
      }
    }
  }

  /** A plan whose owner still has a live plan leaves the users as they are. */
  lemma KeepStep(userPlans: map<string, UserPlan>, users: map<string, User>, now: int, faults: set<string>,
                 done: set<string>, k: string)
    requires k in userPlans && Selected(userPlans[k], now)
    requires HasLivePlan(userPlans, userPlans[k].userId, now)
    ensures SweptUsers(userPlans, users, now, faults, done + {k}) == SweptUsers(userPlans, users, now, faults, done)
  {
    forall v | v in users
      ensures Demoted(userPlans, v, now, faults, done + {k}) == Demoted(userPlans, v, now, faults, done)
    {
      if Demoted(userPlans, v, now, faults, done + {k}) {
        var j :| j in done + {k} && j in userPlans && Selected(userPlans[j], now) && userPlans[j].userId == v && j !in faults;
        assert j != k;
      }
    }
  }

  /** A failed plan is rolled back: processing it changes neither table. */
  lemma FailStep(userPlans: map<string, UserPlan>, users: map<string, User>, now: int, faults: set<string>,
                 done: set<string>, k: string)
    requires k in userPlans && Selected(userPlans[k], now)
    requires PlanFails(userPlans, users, k, now, faults)
    ensures SweptPlans(userPlans, users, now, faults, done + {k}) == SweptPlans(userPlans, users, now, faults, done)
    ensures SweptUsers(userPlans, users, now, faults, done + {k}) == SweptUsers(userPlans, users, now, faults, done)
  {
    forall v | v in users
      ensures Demoted(userPlans, v, now, faults, done + {k}) == Demoted(userPlans, v, now, faults, done)
    {
      if Demoted(userPlans, v, now, faults, done + {k}) {
        var j :| j in done + {k} && j in userPlans && Selected(userPlans[j], now) && userPlans[j].userId == v && j !in faults;
        assert j != k;
      }
    }
  }
}
