/** The database layer (server/storage.ts): the `users` and `sessions` tables
    held by one `DatabaseStorage` object, the keyed row updates behind the
    quota and the payment upgrade, and owner-scoped session CRUD. */
module Storage {
  import opened Wrappers
  import opened Calendar
  import opened Schema

  // ---------------------------------------------------------------------
  // The next reset date

  /** The date `resetUserGenerations` stores: `setMonth(getMonth() + 1)`,
      then `setDate(1)`, then `setHours(0, 0, 0, 0)`, starting from now. */
  function NextResetDate(now: DateTime): (r: DateTime)
    requires Valid(now)
    ensures Valid(r) && r.day == 1 && r.ms == 0
  {
    SetMidnight(SetDate(SetMonth(now, now.month + 1), 1))
  }

  /** `setMonth` keeps the day of the month, so a day the next month lacks
      (the 29th to the 31st) overflows into the month after, and the reset
      lands on the first of the month after next. */
  lemma NextResetDateCases(now: DateTime)
    requires Valid(now)
    ensures var n := NextMonthStart(now);
      NextResetDate(now) == if now.day <= DaysInMonth(n.year, n.month) then n else NextMonthStart(n)
  {
    var n := NextMonthStart(now);
    var moved := SetMonth(now, now.month + 1);
    assert (now.year + (now.month + 1) / 12, (now.month + 1) % 12) == (n.year, n.month);
    if now.day <= DaysInMonth(n.year, n.month) {
      assert moved == DateTime(n.year, n.month, now.day, now.ms);
    } else {
      var m := NextMonthStart(n);
      assert moved == Normalize(m.year, m.month, now.day - DaysInMonth(n.year, n.month), now.ms);
      assert moved == DateTime(m.year, m.month, now.day - DaysInMonth(n.year, n.month), now.ms);
    }
  }

  /** The stored reset date always lies after the moment of the reset. */
  lemma NextResetDateIsLater(now: DateTime)
    requires Valid(now)
    ensures Before(now, NextResetDate(now))
  {
    NextResetDateCases(now);
    var n := NextMonthStart(now);
    if now.day > DaysInMonth(n.year, n.month) {
      BeforeIsTransitive(now, n, NextMonthStart(n));
    }
  }

  /** The reset skips a whole month exactly when today's day number does not
      exist in the next month. */
  lemma NextResetSkipsMonthIff(now: DateTime)
    requires Valid(now)
    ensures var n := NextMonthStart(now);
      NextResetDate(now) != n <==> now.day > DaysInMonth(n.year, n.month)
  {
    NextResetDateCases(now);
    var n := NextMonthStart(now);
    assert Before(n, NextMonthStart(n));
  }

  /** A reset on 31 January 2025 is next due on 1 March, skipping February. */
  lemma JanuaryThirtyFirstResetsInMarch(ms: int)
    requires 0 <= ms < MsPerDay
    ensures NextResetDate(DateTime(2025, 0, 31, ms)) == DateTime(2025, 2, 1, 0)
  {
    NextResetDateCases(DateTime(2025, 0, 31, ms));
  }

  // ---------------------------------------------------------------------
  // Row updates on the users table

  /** `UPDATE users SET ... WHERE id = userId`: the keyed row, if any, is
      replaced by `f` of itself; every other row stays as it was. */
  function UpdateWhereId(users: map<string, User>, userId: string, f: User -> User): (r: map<string, User>)
    ensures r.Keys == users.Keys
    ensures forall k | k in users && k != userId :: r[k] == users[k]
    ensures userId in users ==> r[userId] == f(users[userId])
  {
    if userId in users then users[userId := f(users[userId])] else users
  }

  /** The columns `updateUserStripeInfo` sets: the customer reference always;
      with a non-empty subscription reference also the plan and the limit. */
  function WithStripeInfo(u: User, customerId: string, subscriptionId: Option<string>, now: DateTime): (v: User)
    ensures v.stripeCustomerId == Some(customerId) && v.updatedAt == now
    ensures v.id == u.id && v.username == u.username && v.email == u.email && v.password == u.password
    ensures v.generationsUsed == u.generationsUsed && v.resetDate == u.resetDate && v.createdAt == u.createdAt
  {
    var v := u.(stripeCustomerId := Some(customerId), updatedAt := now);
    if subscriptionId.Some? && subscriptionId.value != "" then
      v.(stripeSubscriptionId := subscriptionId, planType := ProPlan, generationsLimit := -1)
    else v
  }

  /** The columns `updateUserGenerations` sets: the counter and the update
      time; every other column keeps its value. */
  function WithGenerations(u: User, generationsUsed: int, now: DateTime): (v: User)
    ensures v.generationsUsed == generationsUsed && v.updatedAt == now
    ensures v.(generationsUsed := u.generationsUsed, updatedAt := u.updatedAt) == u
  {
    u.(generationsUsed := generationsUsed, updatedAt := now)
  }

  /** The columns `resetUserGenerations` sets: the counter back to zero, a
      reset date at the start of a later month, and the update time. */
  function WithReset(u: User, now: DateTime): (v: User)
    requires Valid(now)
    ensures v.generationsUsed == 0 && v.updatedAt == now
    ensures v.resetDate == NextResetDate(now) && Before(now, v.resetDate)
    ensures v.(generationsUsed := u.generationsUsed, resetDate := u.resetDate, updatedAt := u.updatedAt) == u
  {
    NextResetDateIsLater(now);
    u.(generationsUsed := 0, resetDate := NextResetDate(now), updatedAt := now)
  }

  function SetStripeInfo(users: map<string, User>, userId: string, customerId: string,
                         subscriptionId: Option<string>, now: DateTime): map<string, User> {
    UpdateWhereId(users, userId, u => WithStripeInfo(u, customerId, subscriptionId, now))
  }

  function SetGenerations(users: map<string, User>, userId: string, generationsUsed: int, now: DateTime): map<string, User> {
    UpdateWhereId(users, userId, u => WithGenerations(u, generationsUsed, now))
  }

  function ResetGenerations(users: map<string, User>, userId: string, now: DateTime): map<string, User>
    requires Valid(now)
  {
    UpdateWhereId(users, userId, u => WithReset(u, now))
  }

  /** Without a subscription reference only the customer reference and the
      update time change: plan, counter, limit and reset date stay. */
  lemma StripeInfoWithoutSubscription(u: User, customerId: string, subscriptionId: Option<string>, now: DateTime)
    requires subscriptionId.None? || subscriptionId.value == ""
    ensures var v := WithStripeInfo(u, customerId, subscriptionId, now);
      && v.stripeCustomerId == Some(customerId)
      && v.stripeSubscriptionId == u.stripeSubscriptionId
      && v.planType == u.planType && v.generationsLimit == u.generationsLimit
      && v.generationsUsed == u.generationsUsed && v.resetDate == u.resetDate
      && v.(stripeCustomerId := u.stripeCustomerId, updatedAt := u.updatedAt) == u
  {
  }

  /** With a subscription reference the user becomes pro with the unlimited
      sentinel -1; the counter and the reset date are left alone. */
  lemma StripeInfoWithSubscription(u: User, customerId: string, subscriptionId: string, now: DateTime)
    requires subscriptionId != ""
    ensures var v := WithStripeInfo(u, customerId, Some(subscriptionId), now);
      && v.stripeCustomerId == Some(customerId)
      && v.stripeSubscriptionId == Some(subscriptionId)
      && v.planType == ProPlan && v.generationsLimit == -1
      && v.generationsUsed == u.generationsUsed && v.resetDate == u.resetDate
  {
  }

  // ---------------------------------------------------------------------
  // The sessions table as a sequence of rows

  predicate UniqueIds(rows: seq<SessionRow>) {
    forall i, j | 0 <= i < j < |rows| :: rows[i].id != rows[j].id
  }

  /** `SELECT * FROM sessions WHERE id = ?`: the row with that id, if any. */
  function FindById(rows: seq<SessionRow>, id: string): (r: Option<SessionRow>)
    ensures r.Some? ==> r.value in rows && r.value.id == id
    ensures r.None? ==> forall i | 0 <= i < |rows| :: rows[i].id != id
  {
    if rows == [] then None
    else if rows[0].id == id then Some(rows[0])
    else FindById(rows[1..], id)
  }

  /** `WHERE user_id = ?`: the rows owned by `userId`, in table order. */
  function OwnedBy(rows: seq<SessionRow>, userId: string): (r: seq<SessionRow>)
    ensures forall x | x in r :: x in rows && x.userId == userId
    ensures forall x | x in rows && x.userId == userId :: x in r
    ensures |r| <= |rows|
  {
    if rows == [] then []
    else if rows[0].userId == userId then [rows[0]] + OwnedBy(rows[1..], userId)
    else OwnedBy(rows[1..], userId)
  }

  /** `DELETE FROM sessions WHERE id = ? AND user_id = ?`: the rows left. */
  function Without(rows: seq<SessionRow>, id: string, userId: string): (r: seq<SessionRow>)
    ensures |r| <= |rows|
  {
    if rows == [] then []
    else if rows[0].id == id && rows[0].userId == userId then Without(rows[1..], id, userId)
    else [rows[0]] + Without(rows[1..], id, userId)
  }

  /** The rows left are exactly the rows that do not match both the id and
      the owner, and the table shrinks exactly when some row matched. */
  lemma {:induction false} WithoutMembers(rows: seq<SessionRow>, id: string, userId: string)
    ensures var r := Without(rows, id, userId);
      && (forall x | x in r :: x in rows && !(x.id == id && x.userId == userId))
      && (forall x | x in rows && !(x.id == id && x.userId == userId) :: x in r)
      && (|r| == |rows| <==> forall i | 0 <= i < |rows| :: !(rows[i].id == id && rows[i].userId == userId))
  {
    if rows != [] {
      WithoutMembers(rows[1..], id, userId);
      assert forall x | x in rows :: x == rows[0] || x in rows[1..];
      var rest := Without(rows[1..], id, userId);
      if !(rows[0].id == id && rows[0].userId == userId) {
        if forall i | 0 <= i < |rows| - 1 :: !(rows[1..][i].id == id && rows[1..][i].userId == userId) {
          assert forall i | 0 <= i < |rows| :: !(rows[i].id == id && rows[i].userId == userId) by {
            forall i | 0 <= i < |rows| ensures !(rows[i].id == id && rows[i].userId == userId) {
              if i > 0 { assert rows[i] == rows[1..][i - 1]; }
            }
          }
        }
      }
    }
  }

  /** `ORDER BY created_at DESC`. */
  predicate NewestFirst(rows: seq<SessionRow>) {
    forall i, j | 0 <= i < j < |rows| :: !Before(rows[i].createdAt, rows[j].createdAt)
  }

  /** A row appended under a fresh id is what a lookup by that id finds. */
  lemma {:induction false} FindAppended(rows: seq<SessionRow>, row: SessionRow)
    requires forall i | 0 <= i < |rows| :: rows[i].id != row.id
    ensures FindById(rows + [row], row.id) == Some(row)
  {
    if rows != [] {
      assert (rows + [row])[1..] == rows[1..] + [row];
      FindAppended(rows[1..], row);
    }
  }

  /** Appending a row does not change what a lookup of any other id finds. */
  lemma {:induction false} FindAppendedOther(rows: seq<SessionRow>, row: SessionRow, id: string)
    requires id != row.id
    ensures FindById(rows + [row], id) == FindById(rows, id)
  {
    if rows != [] {
      assert (rows + [row])[1..] == rows[1..] + [row];
      FindAppendedOther(rows[1..], row, id);
    }
  }

  /** After an owner deletes a session, looking its id up finds nothing that
      owner could see. */
  lemma {:induction false} DeletedIsGone(rows: seq<SessionRow>, id: string, userId: string)
    ensures var f := FindById(Without(rows, id, userId), id);
      f.None? || f.value.userId != userId
  {
    WithoutMembers(rows, id, userId);
  }

  class DatabaseStorage {
    var users: map<string, User>
    var sessions: seq<SessionRow>

    /** Keys are the rows' ids, usernames and emails are unique (the UNIQUE
        constraints), session ids are unique (the primary key) and every
        session references an existing user (the foreign key). */
    ghost predicate Valid()
      reads this
    {
      && (forall id | id in users :: users[id].id == id)
      && (forall a, b | a in users && b in users && a != b ::
            users[a].username != users[b].username && users[a].email != users[b].email)
      && UniqueIds(sessions)
      && (forall r | r in sessions :: r.userId in users)
    }

    constructor ()
      ensures Valid() && users == map[] && sessions == []
    {
      users := map[];
      sessions := [];
    }

    /** `getUser`: the row with that id, or `undefined`. */
    method GetUser(id: string) returns (u: Option<User>)
      requires Valid()
      ensures u.Some? <==> id in users
      ensures u.Some? ==> u.value == users[id] && u.value.id == id
    {
      if id in users {
        u := Some(users[id]);
      } else {
        u := None;
      }
    }

    /** `createUser`: insert a registration with every default filled in;
        the insert fails on a taken id, username or email. */
    method CreateUser(id: string, ins: InsertUser, now: DateTime) returns (u: Option<User>)
      requires Valid() && Calendar.Valid(now)
      modifies this
      ensures Valid() && sessions == old(sessions)
      ensures u.Some? <==>
        && id !in old(users)
        && forall k | k in old(users) :: old(users)[k].username != ins.username && old(users)[k].email != ins.email
      ensures u.Some? ==> u.value == NewUser(id, ins, now) && users == old(users)[id := u.value]
      ensures u.None? ==> users == old(users)
    {
      var clash := id in users || exists k | k in users :: users[k].username == ins.username || users[k].email == ins.email;
      if clash {
        u := None;
      } else {
        var row := NewUser(id, ins, now);
        users := users[id := row];
        u := Some(row);
      }
    }

    /** `updateUserStripeInfo`. */
    method UpdateUserStripeInfo(userId: string, customerId: string, subscriptionId: Option<string>, now: DateTime)
      returns (u: Option<User>)
      requires Valid()
      modifies this
      ensures Valid() && sessions == old(sessions)
      ensures users == SetStripeInfo(old(users), userId, customerId, subscriptionId, now)
      ensures u == if userId in users then Some(users[userId]) else None
    {
      if userId in users {
        var row := WithStripeInfo(users[userId], customerId, subscriptionId, now);
        users := users[userId := row];
        u := Some(row);
      } else {
        u := None;
      }
    }

    /** `updateUserGenerations`: the counter becomes exactly the argument. */
    method UpdateUserGenerations(userId: string, generationsUsed: int, now: DateTime) returns (u: Option<User>)
      requires Valid()
      modifies this
      ensures Valid() && sessions == old(sessions)
      ensures users == SetGenerations(old(users), userId, generationsUsed, now)
      ensures u == if userId in users then Some(users[userId]) else None
    {
      if userId in users {
        var row := users[userId].(generationsUsed := generationsUsed, updatedAt := now);
        users := users[userId := row];
        u := Some(row);
      } else {
        u := None;
      }
    }

    /** `resetUserGenerations`: counter to zero and the next reset date
        computed step by step from the current clock. */
    method ResetUserGenerations(userId: string, now: DateTime) returns (u: Option<User>)
      requires Valid() && Calendar.Valid(now)
      modifies this
      ensures Valid() && sessions == old(sessions)
      ensures users == ResetGenerations(old(users), userId, now)
      ensures u == if userId in users then Some(users[userId]) else None
    {
      var nextMonth := now;
      nextMonth := SetMonth(nextMonth, nextMonth.month + 1);
      nextMonth := SetDate(nextMonth, 1);
      nextMonth := SetMidnight(nextMonth);
      if userId in users {
        var row := users[userId].(generationsUsed := 0, resetDate := nextMonth, updatedAt := now);
        users := users[userId := row];
        u := Some(row);
      } else {
        u := None;
      }
    }

    /** `getSession`: scan the table for the id. */
    method GetSession(id: string) returns (r: Option<SessionRow>)
      requires Valid()
      ensures r == FindById(sessions, id)
    {
      var i := 0;
      while i < |sessions|
        invariant 0 <= i <= |sessions|
        invariant FindById(sessions, id) == FindById(sessions[i..], id)
      {
        if sessions[i].id == id {
          return Some(sessions[i]);
        }
        assert sessions[i..][1..] == sessions[i + 1..];
        i := i + 1;
      }
      return None;
    }

    /** `getUserSessions`: the owner's rows, newest first. */
    method GetUserSessions(userId: string) returns (rows: seq<SessionRow>)
      requires Valid()
      ensures multiset(rows) == multiset(OwnedBy(sessions, userId))
      ensures NewestFirst(rows)
    {
      rows := [];
      var i := 0;
      while i < |sessions|
        invariant 0 <= i <= |sessions|
        invariant multiset(rows) + multiset(OwnedBy(sessions[i..], userId)) == multiset(OwnedBy(sessions, userId))
        invariant NewestFirst(rows)
      {
        assert sessions[i..][1..] == sessions[i + 1..];
        if sessions[i].userId == userId {
          rows := InsertNewestFirst(rows, sessions[i]);
        }
        i := i + 1;
      }
    }

    /** `createSession`: insert the document under the caller's id; the
        insert fails on a taken session id or an unknown user. */
    method CreateSession(id: string, userId: string, content: InsertSession, now: DateTime)
      returns (r: Option<SessionRow>)
      requires Valid()
      modifies this
      ensures Valid() && users == old(users)
      ensures r.Some? <==> FindById(old(sessions), id).None? && userId in users
      ensures r.Some? ==> r.value == SessionRow(id, userId, content, now, now)
                          && sessions == old(sessions) + [r.value]
      ensures r.None? ==> sessions == old(sessions)
    {
      var existing := GetSession(id);
      if existing.Some? || userId !in users {
        return None;
      }
      var row := SessionRow(id, userId, content, now, now);
      sessions := sessions + [row];
      return Some(row);
    }

    /** `deleteSession`: remove the rows matching both the id and the owner
        and report whether any was removed. */
    method DeleteSession(id: string, userId: string) returns (deleted: bool)
      requires Valid()
      modifies this
      ensures Valid() && users == old(users)
      ensures sessions == Without(old(sessions), id, userId)
      ensures deleted <==> exists i | 0 <= i < |old(sessions)| :: old(sessions)[i].id == id && old(sessions)[i].userId == userId
    {
      var kept, removed := Remove(sessions, id, userId);
      WithoutMembers(sessions, id, userId);
      WithoutKeepsUnique(sessions, id, userId);
      sessions := kept;
      deleted := removed > 0;
    }
  }

  /** One pass over the table keeping the rows that do not match both the
      id and the owner, counting the ones that do. */
  method Remove(rows: seq<SessionRow>, id: string, userId: string) returns (kept: seq<SessionRow>, removed: nat)
    ensures kept == Without(rows, id, userId)
    ensures |kept| + removed == |rows|
  {
    kept := [];
    removed := 0;
    var i := 0;
    while i < |rows|
      invariant 0 <= i <= |rows|
      invariant kept + Without(rows[i..], id, userId) == Without(rows, id, userId)
      invariant |kept| + removed == i
    {
      WithoutStep(rows, i, id, userId);
      if rows[i].id == id && rows[i].userId == userId {
        removed := removed + 1;
      } else {
        assert (kept + [rows[i]]) + Without(rows[i + 1..], id, userId)
            == kept + ([rows[i]] + Without(rows[i + 1..], id, userId));
        kept := kept + [rows[i]];
      }
      i := i + 1;
    }
    assert rows[i..] == [];
    assert kept + [] == kept;
  }

  lemma WithoutStep(rows: seq<SessionRow>, i: nat, id: string, userId: string)
    requires i < |rows|
    ensures Without(rows[i..], id, userId) ==
      (if rows[i].id == id && rows[i].userId == userId then [] else [rows[i]]) + Without(rows[i + 1..], id, userId)
  {
    assert rows[i..][1..] == rows[i + 1..];
  }

  /** Insert a row after every row at least as new as it: the result is the
      rows plus the new one, still newest first. */
  method InsertNewestFirst(rows: seq<SessionRow>, row: SessionRow) returns (r: seq<SessionRow>)
    requires NewestFirst(rows)
    ensures multiset(r) == multiset(rows) + multiset{row}
    ensures NewestFirst(r)
  {
    var k := 0;
    while k < |rows| && !Before(rows[k].createdAt, row.createdAt)
      invariant 0 <= k <= |rows|
      invariant forall j | 0 <= j < k :: !Before(rows[j].createdAt, row.createdAt)
    {
      k := k + 1;
    }
    InsertKeepsNewestFirst(rows, k, row);
    r := rows[..k] + [row] + rows[k..];
    assert rows == rows[..k] + rows[k..];
  }

  lemma InsertKeepsNewestFirst(rows: seq<SessionRow>, k: nat, row: SessionRow)
    requires NewestFirst(rows) && k <= |rows|
    requires forall j | 0 <= j < k :: !Before(rows[j].createdAt, row.createdAt)
    requires k == |rows| || Before(rows[k].createdAt, row.createdAt)
    ensures NewestFirst(rows[..k] + [row] + rows[k..])
  {
    var r := rows[..k] + [row] + rows[k..];
    forall i, j | 0 <= i < j < |r|
      ensures !Before(r[i].createdAt, r[j].createdAt)
    {
      if i < k && j > k {
        assert r[j] == rows[j - 1];
      } else if i == k && j > k {
        assert r[j] == rows[j - 1];
        if j - 1 > k {
          BeforeOrEqualChain(rows[j - 1].createdAt, rows[k].createdAt, row.createdAt);
        }
      } else if i > k {
        assert r[i] == rows[i - 1] && r[j] == rows[j - 1];
      }
    }
  }

  lemma BeforeOrEqualChain(a: DateTime, b: DateTime, c: DateTime)
    requires !Before(b, a) && Before(b, c)
    ensures !Before(c, a)
  {
  }

  lemma {:induction false} WithoutKeepsUnique(rows: seq<SessionRow>, id: string, userId: string)
    requires UniqueIds(rows)
    ensures UniqueIds(Without(rows, id, userId))
  {
    if rows != [] {
      WithoutKeepsUnique(rows[1..], id, userId);
      WithoutMembers(rows[1..], id, userId);
      var rest := Without(rows[1..], id, userId);
      forall x | x in rest ensures x.id != rows[0].id {
        var j :| 0 <= j < |rows[1..]| && rows[1..][j] == x;
        assert x == rows[j + 1];
      }
    }
  }
}
