/**
 * The coin wallet and the leaderboard views of the users service: buying a
 * premium avatar with coins, adjusting the balance by a signed delta that
 * may not take it below zero, listing users ranked by coins, and a user's
 * all-time and period standings.
 */
module Users {
  import opened Store

  datatype UserError =
    | InvalidUserId
    | UserNotFound
    | AvatarNotFound
    | InsufficientCoins
    | CoinsNegative
    | RecordNotFound

  // ---------------------------------------------------------------------
  // Wallet operations.
  // ---------------------------------------------------------------------

  /** upgradeToPremium as one store transaction. */
  function UpgradeSpec(users: map<string, User>, avatars: map<string, Avatar>, userId: string, avatarId: string)
    : (r: Result<map<string, User>, UserError>)
    ensures userId !in users ==> r == Err(UserNotFound)
    ensures userId in users && avatarId !in avatars ==> r == Err(AvatarNotFound)
    ensures userId in users && avatarId in avatars && users[userId].coins < avatars[avatarId].price ==> r == Err(InsufficientCoins)
    ensures r.Ok? <==> userId in users && avatarId in avatars && users[userId].coins >= avatars[avatarId].price
    ensures r.Ok? ==> r.value.Keys == users.Keys && forall v :: v in users && v != userId ==> r.value[v] == users[v]
    ensures r.Ok? ==> var before, after := users[userId], r.value[userId];
      after.coins == before.coins - avatars[avatarId].price && after.coins >= 0
      && after.premiumAvatarId == Some(avatarId) && after.status == before.status
  {
    if userId !in users then Err(UserNotFound)
    else if avatarId !in avatars then Err(AvatarNotFound)
    else if users[userId].coins < avatars[avatarId].price then Err(InsufficientCoins)
    else
      var u := users[userId];
      Ok(users[userId := u.(coins := u.coins - avatars[avatarId].price, premiumAvatarId := Some(avatarId))])
  }

  /** The coin part of updateUser: `delta` is the dto's coins field, absent or a signed increment. */
  function UpdateCoinsSpec(validId: string -> bool, users: map<string, User>, id: string, delta: Option<int>)
    : (r: Result<map<string, User>, UserError>)
    ensures !validId(id) ==> r == Err(InvalidUserId)
    ensures validId(id) && delta.Some? && delta.value < 0 && id !in users ==> r == Err(UserNotFound)
    ensures r == Err(CoinsNegative) <==>
      (validId(id) && delta.Some? && delta.value < 0 && id in users && users[id].coins + delta.value < 0)
    ensures validId(id) && (delta.None? || delta.value >= 0) && id !in users ==> r == Err(RecordNotFound)
    ensures r.Ok? <==> validId(id) && id in users && (delta.None? || users[id].coins + delta.value >= 0 || delta.value >= 0)
    ensures r.Ok? ==> r.value.Keys == users.Keys && forall v :: v in users && v != id ==> r.value[v] == users[v]
    ensures r.Ok? ==> r.value[id] == users[id].(coins := users[id].coins + (if delta.Some? then delta.value else 0))
  {
    if !validId(id) then Err(InvalidUserId)
    else if delta.Some? && delta.value < 0 && id !in users then Err(UserNotFound)
    else if delta.Some? && delta.value < 0 && users[id].coins + delta.value < 0 then Err(CoinsNegative)
    else if id !in users then Err(RecordNotFound)
    else if delta.None? then Ok(users)
    else Ok(users[id := users[id].(coins := users[id].coins + delta.value)])
  }

  predicate NonNegativeBalances(users: map<string, User>) {
    forall v :: v in users ==> users[v].coins >= 0
  }

  /** A wallet call, as the users service receives it. */
  datatype WalletCall = Upgrade(userId: string, avatarId: string) | Adjust(id: string, delta: Option<int>)

  /** Run calls in order; a rejected call leaves the users as they were. */
  function RunCalls(validId: string -> bool, avatars: map<string, Avatar>, users: map<string, User>, calls: seq<WalletCall>)
    : (r: map<string, User>)
    ensures r.Keys == users.Keys
    decreases |calls|
  {
    if |calls| == 0 then users
    else
      var step := match calls[0]
        case Upgrade(u, a) => UpgradeSpec(users, avatars, u, a)
        case Adjust(u, d) => UpdateCoinsSpec(validId, users, u, d);
      RunCalls(validId, avatars, if step.Ok? then step.value else users, calls[1..])
  }

  /** No sequence of wallet calls drives a non-negative balance below zero. */
  lemma {:induction false} BalancesStayNonNegative(validId: string -> bool, avatars: map<string, Avatar>,
                                                   users: map<string, User>, calls: seq<WalletCall>)
    requires NonNegativeBalances(users)
    ensures NonNegativeBalances(RunCalls(validId, avatars, users, calls))
    decreases |calls|
  {
    if |calls| > 0 {
      var step := match calls[0]
        case Upgrade(u, a) => UpgradeSpec(users, avatars, u, a)
        case Adjust(u, d) => UpdateCoinsSpec(validId, users, u, d);
      var next := if step.Ok? then step.value else users;
      assert NonNegativeBalances(next);
      BalancesStayNonNegative(validId, avatars, next, calls[1..]);
    }
  }

  /** A zero or positive delta on an existing, well-formed id is never refused. */
  lemma NonNegativeDeltaAccepted(validId: string -> bool, users: map<string, User>, id: string, d: int)
    requires validId(id) && id in users && d >= 0
    ensures UpdateCoinsSpec(validId, users, id, Some(d)) == Ok(users[id := users[id].(coins := users[id].coins + d)])
  {
  }

  // ---------------------------------------------------------------------
  // Ordering by coins.
  // ---------------------------------------------------------------------

  predicate InOrder(users: map<string, User>, a: string, b: string, ascending: bool)
    requires a in users && b in users
  {
    if ascending then users[a].coins <= users[b].coins else users[a].coins >= users[b].coins
  }

  predicate Known(users: map<string, User>, ids: seq<string>) {
    forall i :: 0 <= i < |ids| ==> ids[i] in users
  }

  predicate Ordered(users: map<string, User>, ids: seq<string>, ascending: bool) {
    Known(users, ids) && forall i, j :: 0 <= i < j < |ids| ==> InOrder(users, ids[i], ids[j], ascending)
  }

  /** Insert one id into an ordered list. */
  function Insert(users: map<string, User>, sorted: seq<string>, x: string, ascending: bool): (r: seq<string>)
    requires x in users && Ordered(users, sorted, ascending)
    ensures multiset(r) == multiset(sorted) + multiset{x}
    ensures Ordered(users, r, ascending)
    decreases |sorted|
  {
    if |sorted| == 0 then [x]
    else if InOrder(users, x, sorted[0], ascending) then
      InsertFront(users, sorted, x, ascending);
      [x] + sorted
    else
      var tail := Insert(users, sorted[1..], x, ascending);
      InsertBehind(users, sorted, x, tail, ascending);
      assert sorted == [sorted[0]] + sorted[1..];
      [sorted[0]] + tail
  }

  lemma InsertFront(users: map<string, User>, sorted: seq<string>, x: string, ascending: bool)
    requires x in users && Ordered(users, sorted, ascending) && |sorted| > 0
    requires InOrder(users, x, sorted[0], ascending)
    ensures Ordered(users, [x] + sorted, ascending)
  {
    var r := [x] + sorted;
    forall i, j | 0 <= i < j < |r| ensures InOrder(users, r[i], r[j], ascending) {
      assert r[j] == sorted[j - 1];
      assert i == 0 || r[i] == sorted[i - 1];
      assert InOrder(users, sorted[0], sorted[j - 1], ascending) || j == 1;
    }
  }

  lemma InsertBehind(users: map<string, User>, sorted: seq<string>, x: string, tail: seq<string>, ascending: bool)
    requires x in users && Ordered(users, sorted, ascending) && |sorted| > 0
    requires !InOrder(users, x, sorted[0], ascending)
    requires Ordered(users, tail, ascending) && multiset(tail) == multiset(sorted[1..]) + multiset{x}
    ensures Ordered(users, [sorted[0]] + tail, ascending)
  {
    var s0 := sorted[0];
    forall j | 0 <= j < |tail| ensures InOrder(users, s0, tail[j], ascending) {
      var y := tail[j];
      assert y in multiset(tail);
      if y != x {
        assert y in multiset(sorted[1..]);
        var m :| 0 <= m < |sorted[1..]| && sorted[1..][m] == y;
        assert sorted[m + 1] == y;
      }
    }
    var r := [s0] + tail;
    forall i, j | 0 <= i < j < |r| ensures InOrder(users, r[i], r[j], ascending) {
      assert r[j] == tail[j - 1];
      assert i == 0 || r[i] == tail[i - 1];
    }
  }

  /** Every id of a list whose multiset is that of a set occurs once. */
  lemma DistinctFromSet(ids: seq<string>, keys: set<string>, i: int, j: int)
    requires multiset(ids) == multiset(keys)
    requires 0 <= i < j < |ids|
    ensures ids[i] != ids[j]
  {
    RepeatCountsTwice(ids, i, j);
    assert multiset(keys)[ids[i]] <= 1;
  }

  lemma RepeatCountsTwice(ids: seq<string>, i: int, j: int)
    requires 0 <= i < j < |ids|
    ensures ids[i] == ids[j] ==> multiset(ids)[ids[i]] >= 2
  {
    var x := ids[i];
    var rest := ids[..i] + ids[i + 1..];
    assert ids == ids[..i] + [x] + ids[i + 1..];
    assert multiset(ids) == multiset(rest) + multiset{x};
    assert rest[j - 1] == ids[j];
    assert ids[j] in multiset(rest);
  }

  lemma {:induction false} SubsetCard(a: set<string>, b: set<string>)
    requires a <= b
    ensures |a| <= |b|
    decreases |b|
  {
    if a != {} {
      var x :| x in a;
      SubsetCard(a - {x}, b - {x});
    }
  }

  /** A list of distinct ids has as many elements as their set. */
  lemma {:induction false} DistinctCard(ids: seq<string>)
    requires forall i, j :: 0 <= i < j < |ids| ==> ids[i] != ids[j]
    ensures |set i | 0 <= i < |ids| :: ids[i]| == |ids|
    decreases |ids|
  {
    if |ids| > 0 {
      var init := ids[..|ids| - 1];
      DistinctCard(init);
      var s := set i | 0 <= i < |ids| :: ids[i];
      var s0 := set i | 0 <= i < |init| :: init[i];
      assert s == s0 + {ids[|ids| - 1]};
      assert ids[|ids| - 1] !in s0;
    }
  }

  // ---------------------------------------------------------------------
  // Period standings and the all-time rank.
  // ---------------------------------------------------------------------

  /** One row of a period ranking (daily or weekly). */
  datatype PeriodEntry = PeriodEntry(id: string, rating: int, currentCoins: int)

  /** Array.find by id: the first matching entry. */
  function Find(entries: seq<PeriodEntry>, id: string): (r: Option<PeriodEntry>)
    ensures r.None? <==> forall i :: 0 <= i < |entries| ==> entries[i].id != id
    ensures r.Some? ==> exists i :: 0 <= i < |entries| && entries[i] == r.value && entries[i].id == id
                                   && forall j :: 0 <= j < i ==> entries[j].id != id
    decreases |entries|
  {
    if |entries| == 0 then None
    else if entries[0].id == id then Some(entries[0])
    else
      var r := Find(entries[1..], id);
      assert forall i :: 1 <= i < |entries| ==> entries[i] == entries[1..][i - 1];
      r
  }

  /** Array.findIndex: the first position of `id`, or -1. */
  function IndexOf(ids: seq<string>, id: string): (i: int)
    ensures -1 <= i < |ids|
    ensures i == -1 <==> id !in ids
    ensures i >= 0 ==> ids[i] == id && forall j :: 0 <= j < i ==> ids[j] != id
    decreases |ids|
  {
    if |ids| == 0 then -1
    else if ids[0] == id then 0
    else
      var i := IndexOf(ids[1..], id);
      if i == -1 then -1 else i + 1
  }

  datatype Standing = Standing(rating: int, coins: int)

  datatype Statistics = Statistics(user: User, daily: Standing, weekly: Standing, allTime: Standing)

  /** A period standing: the entry's rating and coins, or 0 when the user is absent. */
  function PeriodStanding(entries: seq<PeriodEntry>, id: string): (s: Standing)
    ensures (forall i :: 0 <= i < |entries| ==> entries[i].id != id) ==> s == Standing(0, 0)
    ensures forall i :: 0 <= i < |entries| && entries[i].id == id && (forall j :: 0 <= j < i ==> entries[j].id != id)
              ==> s == Standing(entries[i].rating, entries[i].currentCoins)
  {
    var found := Find(entries, id);
    if found.Some? then Standing(found.value.rating, found.value.currentCoins) else Standing(0, 0)
  }

  /** A row of the user listing: the rating is the 1-based position. */
  datatype RankedUser = RankedUser(id: string, user: User, rating: int)

  function RicherThan(users: map<string, User>, coins: int): set<string> {
    set v | v in users && users[v].coins > coins
  }

  function AtLeastAsRich(users: map<string, User>, coins: int): set<string> {
    set v | v in users && users[v].coins >= coins
  }

  // ---------------------------------------------------------------------
  // The service.
  // ---------------------------------------------------------------------

  class UsersService {
    const db: Database
    const isValidId: string -> bool

    constructor (db: Database, isValidId: string -> bool)
      ensures this.db == db && this.isValidId == isValidId
    {
      this.db := db;
      this.isValidId := isValidId;
    }

    method UpgradeToPremium(userId: string, avatarId: string) returns (r: Result<User, UserError>)
      modifies db
      ensures var spec := UpgradeSpec(old(db.users), old(db.avatars), userId, avatarId);
        (spec.Ok? ==> db.users == spec.value && r == Ok(spec.value[userId]))
        && (spec.Err? ==> db.users == old(db.users) && r == Err(spec.error))
      ensures db.plans == old(db.plans) && db.avatars == old(db.avatars) && db.userPlans == old(db.userPlans)
      ensures db.clickTxs == old(db.clickTxs) && db.paymeTxs == old(db.paymeTxs)
    {
      if userId !in db.users {
        return Err(UserNotFound);
      }
      var user := db.users[userId];
      if avatarId !in db.avatars {
        return Err(AvatarNotFound);
      }
      var avatar := db.avatars[avatarId];
      if user.coins < avatar.price {
        return Err(InsufficientCoins);
      }
      var newCoinBalance := user.coins - avatar.price;
      db.users := db.users[userId := user.(coins := newCoinBalance, premiumAvatarId := Some(avatarId))];
      r := Ok(db.users[userId]);
    }

    method UpdateUser(id: string, coins: Option<int>) returns (r: Result<User, UserError>)
      modifies db
      ensures var spec := UpdateCoinsSpec(isValidId, old(db.users), id, coins);
        (spec.Ok? ==> db.users == spec.value && r == Ok(spec.value[id]))
        && (spec.Err? ==> db.users == old(db.users) && r == Err(spec.error))
      ensures db.plans == old(db.plans) && db.avatars == old(db.avatars) && db.userPlans == old(db.userPlans)
      ensures db.clickTxs == old(db.clickTxs) && db.paymeTxs == old(db.paymeTxs)
    {
      if !isValidId(id) {
        return Err(InvalidUserId);
      }
      if coins.Some? {
        var coinChange := coins.value;
        if coinChange < 0 {
          if id !in db.users {
            return Err(UserNotFound);
          }
          var user := db.users[id];
          if user.coins + coinChange < 0 {
            return Err(CoinsNegative);
          }
        }
      }
      if id !in db.users {
        return Err(RecordNotFound);
      }
      if coins.Some? {
        db.users := db.users[id := db.users[id].(coins := db.users[id].coins + coins.value)];
      }
      r := Ok(db.users[id]);
    }

    /** The store's `findMany` ordered by coins, all users. */
    method UsersByCoins(ascending: bool) returns (ids: seq<string>)
      ensures Ordered(db.users, ids, ascending)
      ensures multiset(ids) == multiset(db.users.Keys)
    {
      ids := [];
      var rest := db.users.Keys;
      while rest != {}
        invariant rest <= db.users.Keys
        invariant Ordered(db.users, ids, ascending)
        invariant multiset(ids) + multiset(rest) == multiset(db.users.Keys)
        decreases |rest|
      {
        var k :| k in rest;
        assert multiset(rest) == multiset(rest - {k}) + multiset{k} by {
          assert rest == (rest - {k}) + {k};
        }
        ids := Insert(db.users, ids, k, ascending);
        rest := rest - {k};
      }
    }

    /**
     * getUsers: users ordered by coins (ascending when `order` is given and
     * non-zero), at most `limit` of them, each rated by its position.
     */
    method GetUsers(order: Option<int>, limit: Option<nat>) returns (rows: seq<RankedUser>)
      ensures var ascending := order.Some? && order.value != 0;
        var n := if limit.Some? && limit.value < |db.users| then limit.value else |db.users|;
        |rows| == n
        && (forall i :: 0 <= i < |rows| ==> rows[i].rating == i + 1)
        && (forall i :: 0 <= i < |rows| ==> rows[i].id in db.users && rows[i].user == db.users[rows[i].id])
        && (forall i, j :: 0 <= i < j < |rows| ==> rows[i].id != rows[j].id)
        && (forall i, j :: 0 <= i < j < |rows| ==> InOrder(db.users, rows[i].id, rows[j].id, ascending))
        && (forall v, i :: v in db.users && 0 <= i < |rows| && (forall j :: 0 <= j < |rows| ==> rows[j].id != v)
              ==> InOrder(db.users, rows[i].id, v, ascending))
    {
      var ascending := order.Some? && order.value != 0;
      var ids := UsersByCoins(ascending);
      assert |ids| == |db.users| by {
        assert |multiset(ids)| == |multiset(db.users.Keys)|;
      }
      var n := if limit.Some? && limit.value < |ids| then limit.value else |ids|;
      rows := [];
      for i := 0 to n
        invariant |rows| == i
        invariant forall j :: 0 <= j < i ==> rows[j] == RankedUser(ids[j], db.users[ids[j]], j + 1)
      {
        rows := rows + [RankedUser(ids[i], db.users[ids[i]], i + 1)];
      }
      forall i, j | 0 <= i < j < |rows| ensures rows[i].id != rows[j].id {
        DistinctFromSet(ids, db.users.Keys, i, j);
      }
      forall v, i | v in db.users && 0 <= i < |rows| && (forall j :: 0 <= j < |rows| ==> rows[j].id != v)
        ensures InOrder(db.users, rows[i].id, v, ascending)
      {
        assert v in multiset(ids);
        var p := IndexOf(ids, v);
        assert forall j :: 0 <= j < n ==> rows[j].id == ids[j] && ids[j] != v;
        assert p >= n;
      }
    }

    /**
     * getUserStatistics: `daily` and `weekly` are the period rankings the
     * ratings service returns.
     */
    method GetUserStatistics(id: string, daily: seq<PeriodEntry>, weekly: seq<PeriodEntry>)
      returns (r: Result<Statistics, UserError>)
      ensures !isValidId(id) ==> r == Err(InvalidUserId)
      ensures isValidId(id) && id !in db.users ==> r == Err(UserNotFound)
      ensures r.Ok? <==> isValidId(id) && id in db.users
      ensures r.Ok? ==>
        (r.value.user == db.users[id]
         && r.value.daily == PeriodStanding(daily, id) && r.value.weekly == PeriodStanding(weekly, id)
         && r.value.allTime.coins == db.users[id].coins)
      ensures r.Ok? ==> var rank := r.value.allTime.rating;
        |RicherThan(db.users, db.users[id].coins)| < rank <= |AtLeastAsRich(db.users, db.users[id].coins)|
    {
      if !isValidId(id) {
        return Err(InvalidUserId);
      }
      if id !in db.users {
        return Err(UserNotFound);
      }
      var user := db.users[id];
      var allUsers := UsersByCoins(false);
      assert id in multiset(allUsers);
      var userIndex := IndexOf(allUsers, id);
      var allTimeRank := if userIndex != -1 then userIndex + 1 else 0;
      RankBounds(db.users, allUsers, id, userIndex);
      r := Ok(Statistics(user, PeriodStanding(daily, id), PeriodStanding(weekly, id), Standing(allTimeRank, user.coins)));
    }
  }

  /** In a coins-descending list of all users, a user's position lies between the richer and the as-rich counts. */
  lemma RankBounds(users: map<string, User>, ids: seq<string>, id: string, p: int)
    requires Ordered(users, ids, false) && multiset(ids) == multiset(users.Keys)
    requires 0 <= p < |ids| && ids[p] == id
    ensures |RicherThan(users, users[id].coins)| <= p && p + 1 <= |AtLeastAsRich(users, users[id].coins)|
  {
    var c := users[id].coins;
    forall i, j | 0 <= i < j < |ids| ensures ids[i] != ids[j] {
      DistinctFromSet(ids, users.Keys, i, j);
    }
    var before := ids[..p];
    var upTo := ids[..p + 1];
    DistinctCard(before);
    DistinctCard(upTo);
    var beforeSet := set i | 0 <= i < |before| :: before[i];
    var upToSet := set i | 0 <= i < |upTo| :: upTo[i];
    forall v | v in RicherThan(users, c) ensures v in beforeSet {
      assert v in multiset(ids);
      var q := IndexOf(ids, v);
      assert forall k :: p <= k < |ids| ==> users[ids[k]].coins <= c by {
        forall k | p <= k < |ids| ensures users[ids[k]].coins <= c {
          assert k == p || InOrder(users, ids[p], ids[k], false);
        }
      }
      assert q < p;
      assert before[q] == v;
    }
    SubsetCard(RicherThan(users, c), beforeSet);
    forall v | v in upToSet ensures v in AtLeastAsRich(users, c) {
      var q :| 0 <= q < |upTo| && upTo[q] == v;
      assert ids[q] == v;
      assert q == p || InOrder(users, ids[q], ids[p], false);
    }
    SubsetCard(upToSet, AtLeastAsRich(users, c));
  }
}
