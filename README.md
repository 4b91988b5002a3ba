# TakeYourPillsBot: reminder store and conversation history

This project models the two stateful parts of the bot in Dafny and proves properties about them.

- **The reminder store of `database.py`** (`database.dfy`, module `Database`). It has three tables:
  - `users`, keyed by the chat user's id, holding a timezone that defaults to `'UTC'`;
  - `reminders`, holding a time text and a soft-delete `active` flag;
  - `reminder_states`, with one row per (reminder id, date), holding the last send time and the acknowledgement flag.

  The class `ReminderStore` holds these tables as a map, a sequence and a map. Each of its methods does what the source's SQL does: it reads, then inserts or updates. `Valid()` states the table invariants:
  - `user_id` is unique;
  - the AUTOINCREMENT ids are distinct, and since rows are never deleted, the reminder at position i has id i + 1;
  - each state row is stored under its own (reminder id, date) key.
- **The text order of `ORDER BY time`** (`collation.dfy`, module `Collation`). This is SQLite's BINARY collation, which is the lexicographic order of code points. The module proves that it is a total order.
- **The per-user conversation history of `bot.py`** (`conversation.dfy`, module `Conversation`). This is the `user_conversations` dictionary, as the class `ConversationStore`. `/start` and `/clear` empty the caller's history. A text message does the following:
  - appends the user's turn;
  - cuts the history to its last 10 entries;
  - passes the result to the language model;
  - appends the assistant's turn if the model answers.

  The model call is a `ChatOutcome` parameter: either `Replied(content)` or `Failed`. `Step` and `Run` replay handlers one after another. They are used to state:
  - isolation between users;
  - the 11-entry bound;
  - that the stored history is always the most recent part of what was said since the last reset.

The clock (`datetime.utcnow()`) is the parameter `now: nat`. A calendar date is the value `Date(year, month, day)`, since the source keys state rows by its ISO text.

## Model

| member | source | states |
|---|---|---|
| `Collation.TextLeReflexive` | database.py:108 | Every time text sorts before or equal to itself under the BINARY collation. |
| `Collation.TextLeTotal` | database.py:108 | Any two time texts are comparable, so `ORDER BY time` is well defined. |
| `Collation.TextLeTransitive` | database.py:108 | The text order is transitive. |
| `Collation.TextLeAntisymmetric` | database.py:108 | Two texts that each sort before the other are equal. |
| `Database.WithUser` | database.py:47-68 | After get-or-create, the user exists. Every existing row is unchanged. A new row has the next id and timezone `'UTC'`. |
| `Database.WithUserIdempotent` | database.py:47-68 | A second get-or-create of the same user leaves the table as the first left it, whatever the next free id is. |
| `Database.WithUserKeyed` | database.py:11-16 | Get-or-create keeps one row per `user_id`, with distinct ids below the next free id. |
| `Database.ActiveOwnedBy` | database.py:107-109 | The `WHERE user_id = ? AND active = 1` selection. Each row that matches keeps its multiplicity. Every other row is dropped. |
| `Database.ActiveWithTimezone` | database.py:119-124 | The join. Each active reminder whose owner has a users row appears with that owner's timezone, with its multiplicity. Nothing else appears. |
| `Database.NumberedRowsOnce` | database.py:20-27 | In a table numbered by AUTOINCREMENT, every row occurs exactly once. |
| `Database.InsertByTime` | database.py:108 | Inserting a row into a sorted list adds exactly that row (multiset). |
| `Database.InsertByTimeSorted` | database.py:108 | Inserting a row keeps a list sorted by time. |
| `Database.SortByTime` | database.py:108 | The result is sorted by time and is a permutation of its input. |
| `Database.ReminderStore.constructor` | database.py:7-44 | `init_db` on a fresh database gives three empty tables that satisfy the invariants. |
| `Database.ReminderStore.GetOrCreateUser` | database.py:47-68 | Returns the existing row unchanged if there is one. Otherwise inserts and returns a row with timezone `'UTC'` and a fresh id. The other tables are not modified. |
| `Database.ReminderStore.SetUserTimezone` | database.py:71-81 | Creates the user if absent, then sets that user's timezone. Always returns true. Other users are unchanged. |
| `Database.ReminderStore.GetUserTimezone` | database.py:84-87 | Returns the stored timezone, or `'UTC'` for an unknown user, who is created as a side effect. |
| `Database.ReminderStore.AddReminder` | database.py:90-100 | Ensures the owner exists and appends an active reminder with the given time. Returns an id that no existing reminder has. Existing reminders are unchanged. |
| `Database.ReminderStore.GetUserReminders` | database.py:103-112 | Returns exactly the user's active reminders, each once, sorted by time. |
| `Database.ReminderStore.GetAllActiveReminders` | database.py:115-126 | Returns each active reminder whose owner has a users row, once, paired with the owner's timezone. Reminders of unknown owners are dropped. |
| `Database.ReminderStore.RemoveReminder` | database.py:129-137 | Soft-delete. Returns true if and only if a row matches both id and owner, also when that row is already inactive. Only that row is changed, and only its `active` flag. No row is removed. |
| `Database.ReminderStore.GetReminderById` | database.py:210-218 | Returns a row exactly when one has that id, active or not, and the row it returns has that id. |
| `Database.ReminderStore.GetReminderState` | database.py:140-149 | Returns a row exactly when one matches the reminder id and date, and the row it returns matches them. |
| `Database.ReminderStore.CreateOrUpdateReminderState` | database.py:152-189 | Keeps one row per (reminder id, date). An existing row gets `last_sent = now` and the given flag, which may reset an acknowledgement, and keeps its id and `user_id`. Otherwise a new row is inserted with a fresh id. Returns the resulting row. |
| `Database.ReminderStore.AcknowledgeReminder` | database.py:192-201 | Sets the flag only on an existing row and never creates one. Returns true if and only if the row exists. A repeat call changes nothing. |
| `Database.ReminderStore.IsReminderAcknowledged` | database.py:204-207 | True if and only if a row exists for (reminder id, date) with its flag set. |
| `Conversation.Truncate` | bot.py:103-105 | Keeps the last min(n, 10) entries, in order. |
| `Conversation.Prompt` | bot.py:97-117 | The history passed to the model has min(n + 1, 10) entries, where n is the stored length, and is a suffix of the stored history followed by the new user turn. It is the whole history plus that turn when fewer than 10 entries were stored. |
| `Conversation.AfterText` | bot.py:97-131 | The stored history after a message has at most 11 entries and is a suffix of the old history followed by the new turns. On failure it is the prompt, which ends with the user turn. On success it is the prompt plus the assistant turn, directly after the user turn. |
| `Conversation.Step` | bot.py:32-131 | A handler changes only the calling user's entry and adds that entry if it is missing. |
| `Conversation.RunIsolated` | bot.py:88-131 | After any sequence of handlers, a user's history equals the result of running only that user's own events. |
| `Conversation.RunOneSuffixOfTranscript` | bot.py:97-131 | The stored history is always a suffix of everything said since the last `/start` or `/clear`: truncation only drops the oldest entries. |
| `Conversation.RunOneBounded` | bot.py:103-131 | No sequence of handlers takes a history past 11 entries. |
| `Conversation.StepBounded` | bot.py:103-131 | Every handler keeps all histories at 11 entries or fewer. |
| `Conversation.ExtendHistory` | bot.py:97-131 | The list operations of `handle_message` (append, slice `[-10:]`, append) compute exactly `Prompt` and `AfterText`. |
| `Conversation.ConversationStore.constructor` | bot.py:29 | The dictionary starts empty. |
| `Conversation.ConversationStore.Start` | bot.py:32-35 | The caller's history becomes `[]`. Every other user's history is unchanged. |
| `Conversation.ConversationStore.Clear` | bot.py:51-54 | The caller's history becomes `[]`. Every other user's history is unchanged. |
| `Conversation.ConversationStore.HandleMessage` | bot.py:86-142 | Returns the prompt the model sees, and updates only the caller's history, as `AfterText` does. |

## Left out

- The recurrence rules (weekly, monthly and advanced daily), the polling scheduler, re-notify timing and the work-status questions. None of these is in `database.py` or `bot.py`. The `reminders` table has only a `time` column and an `active` flag.
- aiosqlite connections, commits, `row_factory` and the DDL. The tables are the class's fields, and the store starts empty, as after `init_db` on a new file.
- The `created_at` columns. They are filled by the database clock and read by nothing in the core.
- SQLite foreign keys. The source does not enable them, so the model does not enforce them either: a state row may name any reminder id.
- The ISO formatting of dates and timestamps. A date is a `Date` value and a timestamp is a `nat`.
- `acknowledged` is an `INTEGER` column, modelled as a `bool`. The source only ever writes 0 or 1 to it.
- Database.ReminderStore.GetAllActiveReminders: SQL gives the join no order, so the contract does not state one. The model returns rows in id order.
- Database.ReminderStore.GetUserReminders: `ORDER BY time` leaves the order of equal times unspecified, so the contract does not fix it.
- Concurrency. The handlers and database calls are `async`, and a read-then-write upsert could interleave with an acknowledgement. The model runs operations one at a time.
- The Telegram wiring (`Application`, handler registration, `run_polling`), `reply_text`, `send_action`, logging, and the `/help` and `/info` texts.
- The `ollama.Client.chat` call. It is a foreign library, so the model uses the outcome parameter. An exception raised by `send_action` or `reply_text` is not modelled separately: for the history it behaves like a failed call or like a success that has already been recorded.
- `meme_api.py` (an HTTP fetch with a constant fallback text) and `config.py` (environment loading) are not part of this model.
