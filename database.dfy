/**
 * The reminder store of database.py: three tables (users, reminders and the
 * per-date reminder states) held by one object whose methods read and then write
 * them, as the SQL statements of the source do. Connections, commits and the DDL
 * are replaced by the fields themselves; the clock is a parameter `now`.
 */
module Database {
  import opened Collation

  datatype Option<T> = None | Some(value: T)

  /** A calendar date; the source keys state rows by its ISO text, which is injective. */
  datatype Date = Date(year: int, month: int, day: int)

  /** A row of `users`: surrogate `id`, the chat user's id and the timezone name. */
  datatype User = User(id: nat, userId: int, timezone: string)

  /** A row of `reminders`; `active` is the soft-delete flag. */
  datatype Reminder = Reminder(id: nat, userId: int, time: string, active: bool)

  /** The UNIQUE(reminder_id, reminder_date) key of `reminder_states`. */
  datatype StateKey = StateKey(reminderId: int, date: Date)

  /** A row of `reminder_states`; `lastSent` is a UTC timestamp. */
  datatype ReminderState = ReminderState(id: nat, userId: int, reminderId: int, date: Date,
                                         lastSent: nat, acknowledged: bool)

  /** A row of the join in get_all_active_reminders: the reminder and its owner's timezone. */
  datatype ActiveReminder = ActiveReminder(reminder: Reminder, timezone: string)

  /** The column default of `users.timezone`. */
  const DefaultTimezone: string := "UTC"

  // ---------------------------------------------------------------- table invariants

  /** `users` is keyed by user_id (UNIQUE) and its AUTOINCREMENT ids are distinct and below `nextId`. */
  predicate UsersKeyed(users: map<int, User>, nextId: nat)
  {
    && 1 <= nextId
    && (forall u :: u in users ==> users[u].userId == u && 1 <= users[u].id < nextId)
    && (forall u, v :: u in users && v in users && u != v ==> users[u].id != users[v].id)
  }

  /** Rows are never deleted, so the AUTOINCREMENT id of the row at position i is i + 1. */
  predicate RemindersNumbered(rs: seq<Reminder>)
  {
    forall i :: 0 <= i < |rs| ==> rs[i].id == i + 1
  }

  /** One row per (reminder_id, reminder_date), stored under that key, with distinct ids. */
  predicate StatesKeyed(states: map<StateKey, ReminderState>, nextId: nat)
  {
    && 1 <= nextId
    && (forall k :: k in states ==>
          states[k].reminderId == k.reminderId && states[k].date == k.date && 1 <= states[k].id < nextId)
    && (forall k, l :: k in states && l in states && k != l ==> states[k].id != states[l].id)
  }

  // ---------------------------------------------------------------- specification functions

  /**
   * The users table after get_or_create_user(userId) when the next free id is `nextId`:
   * the user exists afterwards, a new row gets the default timezone, existing rows are kept.
   */
  function WithUser(users: map<int, User>, nextId: nat, userId: int): (r: map<int, User>)
    ensures r.Keys == users.Keys + {userId}
    ensures forall u :: u in users ==> r[u] == users[u]
    ensures userId !in users ==> r[userId] == User(nextId, userId, DefaultTimezone)
  {
    if userId in users then users else users[userId := User(nextId, userId, DefaultTimezone)]
  }

  /** get_or_create_user is idempotent: a second call finds the row the first one made. */
  lemma WithUserIdempotent(users: map<int, User>, nextId: nat, laterId: nat, userId: int)
    ensures WithUser(WithUser(users, nextId, userId), laterId, userId) == WithUser(users, nextId, userId)
  {
  }

  /** The next free user id after get_or_create_user(userId). */
  function NextUserId(users: map<int, User>, nextId: nat, userId: int): nat
  {
    if userId in users then nextId else nextId + 1
  }

  lemma WithUserKeyed(users: map<int, User>, nextId: nat, userId: int)
    requires UsersKeyed(users, nextId)
    ensures UsersKeyed(WithUser(users, nextId, userId), NextUserId(users, nextId, userId))
  {
  }

  /** The SQL predicate of get_user_reminders: `user_id = ? AND active = 1`. */
  predicate OwnedAndActive(r: Reminder, userId: int)
  {
    r.userId == userId && r.active
  }

  /** The rows of `rs` satisfying OwnedAndActive, in table order. */
  function ActiveOwnedBy(rs: seq<Reminder>, userId: int): (r: seq<Reminder>)
    ensures forall x :: multiset(r)[x] == if OwnedAndActive(x, userId) then multiset(rs)[x] else 0
  {
    if rs == [] then []
    else
      var rest := ActiveOwnedBy(rs[1..], userId);
      assert rs == [rs[0]] + rs[1..];
      if OwnedAndActive(rs[0], userId) then [rs[0]] + rest else rest
  }

  /** The join condition and WHERE clause of get_all_active_reminders. */
  predicate JoinsActive(a: ActiveReminder, users: map<int, User>)
  {
    a.reminder.active && a.reminder.userId in users && a.timezone == users[a.reminder.userId].timezone
  }

  /**
   * `reminders r JOIN users u ON r.user_id = u.user_id WHERE r.active = 1`: every active
   * reminder whose owner has a users row, paired with that owner's timezone.
   */
  function ActiveWithTimezone(rs: seq<Reminder>, users: map<int, User>): (r: seq<ActiveReminder>)
    ensures forall a :: multiset(r)[a] == if JoinsActive(a, users) then multiset(rs)[a.reminder] else 0
  {
    if rs == [] then []
    else
      var rest := ActiveWithTimezone(rs[1..], users);
      assert rs == [rs[0]] + rs[1..];
      if rs[0].active && rs[0].userId in users
      then [ActiveReminder(rs[0], users[rs[0].userId].timezone)] + rest
      else rest
  }

  /** Numbered rows are pairwise distinct: each occurs in the table exactly once. */
  lemma {:induction false} NumberedRowsOnce(rs: seq<Reminder>)
    requires RemindersNumbered(rs)
    ensures forall x :: multiset(rs)[x] == if x in rs then 1 else 0
  {
    if rs != [] {
      var n := |rs|;
      var init := rs[..n - 1];
      NumberedRowsOnce(init);
      assert rs == init + [rs[n - 1]];
      forall x
        ensures multiset(rs)[x] == if x in rs then 1 else 0
      {
        if x == rs[n - 1] {
          assert forall j :: 0 <= j < |init| ==> init[j].id < n;
          assert x !in init;
        }
      }
    }
  }

  /** Sorted by the `time` column under the BINARY collation. */
  predicate SortedByTime(s: seq<Reminder>)
  {
    forall i, j :: 0 <= i < j < |s| ==> TextLe(s[i].time, s[j].time)
  }

  /** Places `x` before the first row whose time it does not follow. */
  function InsertByTime(x: Reminder, s: seq<Reminder>): (r: seq<Reminder>)
    ensures multiset(r) == multiset(s) + multiset{x}
  {
    if s == [] then [x]
    else if TextLe(x.time, s[0].time) then [x] + s
    else
      assert s == [s[0]] + s[1..];
      [s[0]] + InsertByTime(x, s[1..])
  }

  lemma {:induction false} InsertByTimeSorted(x: Reminder, s: seq<Reminder>)
    requires SortedByTime(s)
    ensures SortedByTime(InsertByTime(x, s))
  {
    if s == [] {
    } else if TextLe(x.time, s[0].time) {
      var r := [x] + s;
      forall i, j | 0 <= i < j < |r|
        ensures TextLe(r[i].time, r[j].time)
      {
        if i == 0 && j > 1 {
          TextLeTransitive(x.time, s[0].time, s[j - 1].time);
        }
      }
    } else {
      var rest := InsertByTime(x, s[1..]);
      InsertByTimeSorted(x, s[1..]);
      TextLeTotal(x.time, s[0].time);
      forall k | 0 <= k < |rest|
        ensures TextLe(s[0].time, rest[k].time)
      {
        assert rest[k] in multiset(rest);
        if rest[k] != x {
          assert rest[k] in multiset(s[1..]);
          var j :| 0 <= j < |s[1..]| && s[1..][j] == rest[k];
          assert s[j + 1] == rest[k];
        }
      }
      var r := [s[0]] + rest;
      forall i, j | 0 <= i < j < |r|
        ensures TextLe(r[i].time, r[j].time)
      {
        if i > 0 {
          assert r[i] == rest[i - 1] && r[j] == rest[j - 1];
        }
      }
    }
  }

  /** The order that `ORDER BY time` yields (ties are left in an unspecified order by SQL). */
  function SortByTime(s: seq<Reminder>): (r: seq<Reminder>)
    ensures SortedByTime(r)
    ensures multiset(r) == multiset(s)
  {
    if s == [] then []
    else
      var rest := SortByTime(s[1..]);
      InsertByTimeSorted(s[0], rest);
      assert s == [s[0]] + s[1..];
      InsertByTime(s[0], rest)
  }

  // ---------------------------------------------------------------- the store

  class ReminderStore {
    var users: map<int, User>
    var nextUserId: nat
    var reminders: seq<Reminder>
    var states: map<StateKey, ReminderState>
    var nextStateId: nat

    ghost predicate Valid()
      reads this
    {
      UsersKeyed(users, nextUserId) && RemindersNumbered(reminders) && StatesKeyed(states, nextStateId)
    }

    /** init_db on a fresh database: three empty tables. */
    constructor ()
      ensures Valid()
      ensures users == map[] && reminders == [] && states == map[]
    {
      users, nextUserId := map[], 1;
      reminders := [];
      states, nextStateId := map[], 1;
    }

    /** get_or_create_user: SELECT by user_id; INSERT with the defaults when absent. */
    method GetOrCreateUser(userId: int) returns (user: User)
      requires Valid()
      modifies this`users, this`nextUserId
      ensures Valid()
      ensures users == WithUser(old(users), old(nextUserId), userId)
      ensures nextUserId == NextUserId(old(users), old(nextUserId), userId)
      ensures user == users[userId] && user.userId == userId
      ensures userId in old(users) ==> user == old(users)[userId]
      ensures userId !in old(users) ==> user.timezone == DefaultTimezone
    {
      WithUserKeyed(users, nextUserId, userId);
      if userId in users {
        user := users[userId];
        return;
      }
      users := users[userId := User(nextUserId, userId, DefaultTimezone)];
      nextUserId := nextUserId + 1;
      user := users[userId];
    }

    /** set_user_timezone: ensures the user exists, then overwrites its timezone; always true. */
    method SetUserTimezone(userId: int, timezone: string) returns (ok: bool)
      requires Valid()
      modifies this`users, this`nextUserId
      ensures Valid() && ok
      ensures nextUserId == NextUserId(old(users), old(nextUserId), userId)
      ensures users.Keys == old(users).Keys + {userId}
      ensures users[userId] == WithUser(old(users), old(nextUserId), userId)[userId].(timezone := timezone)
      ensures forall u :: u in old(users) && u != userId ==> users[u] == old(users)[u]
    {
      var user := GetOrCreateUser(userId);
      users := users[userId := user.(timezone := timezone)];
      ok := true;
    }

    /** get_user_timezone: goes through get_or_create_user, so it may add the user. */
    method GetUserTimezone(userId: int) returns (timezone: string)
      requires Valid()
      modifies this`users, this`nextUserId
      ensures Valid()
      ensures users == WithUser(old(users), old(nextUserId), userId)
      ensures nextUserId == NextUserId(old(users), old(nextUserId), userId)
      ensures timezone == users[userId].timezone
      ensures timezone == if userId in old(users) then old(users)[userId].timezone else DefaultTimezone
    {
      var user := GetOrCreateUser(userId);
      timezone := user.timezone;
    }

    /** add_reminder: ensures the owner exists, inserts an active row, returns its lastrowid. */
    method AddReminder(userId: int, time: string) returns (id: nat)
      requires Valid()
      modifies this`users, this`nextUserId, this`reminders
      ensures Valid()
      ensures users == WithUser(old(users), old(nextUserId), userId)
      ensures nextUserId == NextUserId(old(users), old(nextUserId), userId)
      ensures reminders == old(reminders) + [Reminder(id, userId, time, true)]
      ensures forall r :: r in old(reminders) ==> r.id != id
    {
      var user := GetOrCreateUser(userId);
      id := |reminders| + 1;
      reminders := reminders + [Reminder(id, userId, time, true)];
    }

    /**
     * get_user_reminders: exactly the active reminders of `userId`, each once,
     * sorted by their time text.
     */
    method GetUserReminders(userId: int) returns (rows: seq<Reminder>)
      requires Valid()
      ensures SortedByTime(rows)
      ensures forall r :: multiset(rows)[r] == if r in reminders && r.userId == userId && r.active then 1 else 0
    {
      rows := SortByTime(ActiveOwnedBy(reminders, userId));
      NumberedRowsOnce(reminders);
    }

    /**
     * get_all_active_reminders: each active reminder whose owner has a users row, once,
     * with that owner's timezone; reminders of unknown owners are dropped by the join.
     */
    method GetAllActiveReminders() returns (rows: seq<ActiveReminder>)
      requires Valid()
      ensures forall a :: multiset(rows)[a] ==
                (if a.reminder in reminders && JoinsActive(a, users) then 1 else 0)
    {
      rows := ActiveWithTimezone(reminders, users);
      NumberedRowsOnce(reminders);
    }

    /**
     * remove_reminder: `UPDATE ... SET active = 0 WHERE id = ? AND user_id = ?`; the result
     * is whether a row matched, also when that row was already inactive.
     */
    method RemoveReminder(userId: int, reminderId: int) returns (found: bool)
      requires Valid()
      modifies this`reminders
      ensures Valid()
      ensures found <==> exists i :: 0 <= i < |old(reminders)| &&
                          old(reminders)[i].id == reminderId && old(reminders)[i].userId == userId
      ensures |reminders| == |old(reminders)|
      ensures forall i :: 0 <= i < |reminders| ==>
                reminders[i] == if old(reminders)[i].id == reminderId && old(reminders)[i].userId == userId
                                then old(reminders)[i].(active := false)
                                else old(reminders)[i]
    {
      if 1 <= reminderId <= |reminders| && reminders[reminderId - 1].userId == userId {
        reminders := reminders[reminderId - 1 := reminders[reminderId - 1].(active := false)];
        found := true;
      } else {
        found := false;
      }
    }

    /** get_reminder_by_id: the row with that id, active or not. */
    method GetReminderById(reminderId: int) returns (row: Option<Reminder>)
      requires Valid()
      ensures row.Some? <==> exists r :: r in reminders && r.id == reminderId
      ensures row.Some? ==> row.value in reminders && row.value.id == reminderId
    {
      if 1 <= reminderId <= |reminders| {
        row := Some(reminders[reminderId - 1]);
      } else {
        row := None;
      }
    }

    /** get_reminder_state: the row whose reminder_id and reminder_date match, if any. */
    method GetReminderState(reminderId: int, date: Date) returns (row: Option<ReminderState>)
      requires Valid()
      ensures row.Some? <==> exists k :: k in states && states[k].reminderId == reminderId && states[k].date == date
      ensures row.Some? ==> row.value in states.Values && row.value.reminderId == reminderId && row.value.date == date
    {
      var key := StateKey(reminderId, date);
      if key in states {
        row := Some(states[key]);
      } else {
        row := None;
      }
    }

    /**
     * create_or_update_reminder_state: a SELECT on the key, then either an UPDATE of
     * last_sent and acknowledged (keeping the row's id and user_id) or an INSERT;
     * returns the row as it now is.
     */
    method CreateOrUpdateReminderState(userId: int, reminderId: int, date: Date, now: nat,
                                       acknowledged: bool := false)
      returns (row: ReminderState)
      requires Valid()
      modifies this`states, this`nextStateId
      ensures Valid()
      ensures states == old(states)[StateKey(reminderId, date) := row]
      ensures row.reminderId == reminderId && row.date == date
      ensures row.lastSent == now && row.acknowledged == acknowledged
      ensures StateKey(reminderId, date) in old(states) ==>
                row.id == old(states)[StateKey(reminderId, date)].id &&
                row.userId == old(states)[StateKey(reminderId, date)].userId &&
                nextStateId == old(nextStateId)
      ensures StateKey(reminderId, date) !in old(states) ==>
                row.id == old(nextStateId) && row.userId == userId && nextStateId == old(nextStateId) + 1
    {
      var key := StateKey(reminderId, date);
      if key in states {
        row := states[key].(lastSent := now, acknowledged := acknowledged);
        states := states[key := row];
      } else {
        row := ReminderState(nextStateId, userId, reminderId, date, now, acknowledged);
        forall k | k in states
          ensures states[k].id != row.id
        {
        }
        states := states[key := row];
        nextStateId := nextStateId + 1;
      }
    }

    /**
     * acknowledge_reminder: sets the flag on an existing row only; the result is whether
     * the row exists. Acknowledging twice leaves the table as the first call left it.
     */
    method AcknowledgeReminder(reminderId: int, date: Date) returns (found: bool)
      requires Valid()
      modifies this`states
      ensures Valid()
      ensures found <==> StateKey(reminderId, date) in old(states)
      ensures states.Keys == old(states).Keys
      ensures forall k :: k in states ==>
                states[k] == if k == StateKey(reminderId, date) then old(states)[k].(acknowledged := true) else old(states)[k]
      ensures found && old(states)[StateKey(reminderId, date)].acknowledged ==> states == old(states)
    {
      var key := StateKey(reminderId, date);
      if key in states {
        states := states[key := states[key].(acknowledged := true)];
        found := true;
      } else {
        found := false;
      }
    }

    /** is_reminder_acknowledged: a row exists for the key and its flag is set. */
    method IsReminderAcknowledged(reminderId: int, date: Date) returns (acked: bool)
      requires Valid()
      ensures acked <==> exists k :: k in states && states[k].reminderId == reminderId &&
                                     states[k].date == date && states[k].acknowledged
    {
      var state := GetReminderState(reminderId, date);
      acked := state.Some? && state.value.acknowledged;
    }
  }
}
