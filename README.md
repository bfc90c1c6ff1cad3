# Crypto-trader ledger, modelled in Dafny

This project models the ledger at the heart of the crypto-trader REST API (Flask, SQLAlchemy).
The API keeps crypto exchanges. Each exchange owns a list of currencies; the first one is its
settlement currency. A trade moves money between two currencies of the same exchange and is
recorded. Five request handlers act on the database:

- create an exchange;
- deposit into it;
- apply a batch of currency edits (POST, PUT or DELETE items);
- trade;
- query the trade history.

Each handler either commits everything it did or fails and leaves the database as it was.

The model has these parts:

- `db_model.dfy` (module `DbModel`): the three tables as a `Store` value.
  - Rows are kept in key order, with the next key of each table.
  - The table constraints: a unique (shortcut, exchange) pair, a unique exchange name, and the
    key discipline.
  - The `Session` class holds the committed database and the session's pending view.
    `AddObject`, `SaveChanges`, `Rollback` and `GetOrCreateCurrency` are the session helpers of
    `db_model.py`.
- `validators.dfy` (module `Validators`): `str.upper()`, `str.isalpha()` and the
  three-letter shortcut rule.
- `currency_batch.dfy` (module `CurrencyBatch`): what one batch item does to a store, the batch
  as a left fold ending in one commit, and the lemmas about it.
- `crypto.dfy` (module `Crypto`): the handlers, as methods that change the `Session`. Each one
  is proved against the functions above.
- `history.dfy` (module `History`): the history query as a pure filter, then offset, then
  limit.
- `scenario.dfy` (module `Scenario`): the request sequences of the project's test suite,
  replayed on a fresh database through the handlers' contracts. It proves the counts those
  tests expect.

Failures are the Python exception classes the code raises:

- `BackendError`;
- `ValueError`;
- `AttributeError`, from `.upper()` on a missing key;
- `IndexError`, from `exchange.currency[0]` on an empty list;
- `IntegrityError`, from a flush or commit that breaks a constraint.

The HTTP layer turns all of them into status 400.

Three points where the code does something a reader might not expect; the model follows the
code:

- The batch answer lists every currency of the exchange, the settlement currency included.
  The handler's docstring (app/api1/crypto.py:117) speaks of crypto-currencies, but the query
  at app/api1/crypto.py:173 has no crypto filter, and app/tests/tests.py:53 expects three rows
  after two POSTs on an exchange with one settlement currency.
- A PUT item calls `.upper()` on its shortcut before it checks the id. So an item with no
  shortcut key fails with `AttributeError` even when its id is missing too.
- The session autoflushes before a query. In a batch, the lookup of a PUT item
  (app/api1/crypto.py:156) and the bulk delete of a DELETE item (app/api1/crypto.py:170)
  write the rows staged so far. So a batch with a POST that repeats a shortcut of the
  exchange fails at its next PUT or DELETE, with `IntegrityError` unless that item's own
  earlier check raises first, or else at the commit; it never commits.

## Model

| member | source | states |
|---|---|---|
| DbModel.FirstWhere | app/api1/crypto.py:202-203 | `filter_by(...).first()`: the position of the first row in key order satisfying the filter; none when no row does |
| DbModel.ExchangeIndex | app/api1/crypto.py:100 | `Exchange.query.get(id)` finds the exchange with that key, or reports that no exchange has it |
| DbModel.FirstCurrencyOf | app/api1/crypto.py:105 | `exchange.currency[0]`: the first currency in key order owned by the exchange; none when it owns none |
| DbModel.CurrenciesOf | app/api1/crypto.py:173 | `filter_by(exchange_id=eid).all()` holds exactly the currencies owned by `eid` |
| DbModel.NameTaken | app/api1/crypto.py:81 | some exchange already has that name |
| DbModel.Without | app/api1/crypto.py:168-170 | the bulk delete keeps exactly the rows that do not have both that id and that exchange |
| DbModel.SameOwnersKeepShaped | app/db_model.py:21-31 | editing non-key columns of currencies keeps every key invariant |
| DbModel.SameKeysKeepConsistent | app/db_model.py:31 | editing columns other than shortcut and exchange keeps the (shortcut, exchange) constraint |
| DbModel.Consistent | app/db_model.py:31 | the two unique constraints: no two currencies share both shortcut and exchange (line 31), no two exchanges share a name (line 57) |
| DbModel.Insert | app/db_model.py:23 | a flushed row keeps the old rows in place, takes the next key of its table (a nested currency list takes successive keys), and the counter moves past the new rows |
| DbModel.InsertKeepsShaped | app/db_model.py:23 | after an insert the keys stay positive, increasing and below the counter |
| DbModel.FirstMatch | app/db_model.py:120 | finds the first currency equal on every given keyword, or none |
| DbModel.Session.constructor | app/db_model.py:7 | a fresh database is empty, consistent and has nothing staged |
| DbModel.Session.AddObject | app/db_model.py:102-108 | stages exactly the new row; nothing is committed |
| DbModel.Session.Rollback | app/db_model.py:98 | discards everything staged; the committed database is unchanged |
| DbModel.Session.Flush | app/db_model.py:120 | the autoflush of a session query passes exactly when the staged rows meet the unique constraints, and fails with `IntegrityError` otherwise; it changes nothing |
| DbModel.Session.SaveChanges | app/db_model.py:86-99 | stages the instance if given, then commits; it succeeds exactly when the constraints hold. On success the database is the staged store; on failure it is unchanged, the error is `IntegrityError`, and nothing stays staged |
| DbModel.Session.GetOrCreateCurrency | app/db_model.py:112-127 | its query first flushes: staged rows that break a unique constraint fail with `IntegrityError` and nothing changes. Otherwise, if a staged row equals every given field, returns the first and adds nothing; otherwise, when the filter gives every NOT NULL column and an existing exchange, stages a new row with exactly those fields (total 0 unless given), and else fails with `IntegrityError`; never commits |
| DbModel.Matches | app/db_model.py:120 | `filter_by(**kwargs)`: a row matches when it equals every keyword given; a keyword not given is not compared |
| DbModel.Creatable | app/db_model.py:125-127 | the fields a new row needs: shortcut, rate and crypto flag (NOT NULL without a default, app/db_model.py:25-29), plus the model's own demand of an existing owning exchange |
| Validators.IsAlpha | app/api1/crypto.py:76 | `str.isalpha()`: not empty, and every character a letter |
| Validators.ShortcutAccepted | app/api1/crypto.py:135 | the shortcut as given, upper-cased, has length 3 and is alphabetic |
| Validators.NameAccepted | app/api1/crypto.py:137-138 | a missing or empty name passes; any other name must be alphabetic |
| Validators.Upper | app/api1/crypto.py:71 | `str.upper()`: same length, no lower-case letter left, letters stay letters, every other character unchanged |
| Validators.ShortcutAcceptedIff | app/api1/crypto.py:74-75 | a shortcut is accepted exactly when the text given is three letters, in any case |
| Validators.AcceptedShortcutIsCapitals | app/api1/crypto.py:130-136 | an accepted shortcut is stored as three capital letters |
| Validators.UpperKeepsCapitals | app/api1/crypto.py:186-187 | text with no lower-case letter is unchanged by upper-casing |
| Validators.UpperIdempotent | app/api1/crypto.py:150 | upper-casing twice is upper-casing once |
| CurrencyBatch.PostItem | app/api1/crypto.py:128-144 | a successful POST leaves the exchanges and trades as they were and appends exactly one currency after the old ones |
| CurrencyBatch.PutItem | app/api1/crypto.py:147-165 | a successful PUT found the staged rows consistent at its autoflush, leaves the exchanges and trades as they were, and keeps every currency's key and owner in place |
| CurrencyBatch.DeleteItem | app/api1/crypto.py:168-170 | a DELETE succeeds exactly when the staged rows pass its autoflush; it then leaves the exchanges and trades as they were and never adds a currency |
| CurrencyBatch.ApplyItem | app/api1/crypto.py:124-170 | no item, whatever its verb, changes the exchanges or the trades |
| CurrencyBatch.ApplyItems | app/api1/crypto.py:124-170 | the loop over the items, first item first, never changes the exchanges or the trades |
| CurrencyBatch.Batch | app/api1/crypto.py:119-172 | an unknown exchange fails with `BackendError`; a committed batch meets the unique constraints and keeps the exchanges and trades |
| CurrencyBatch.Edited | app/api1/crypto.py:160-165 | each truthy field of the item (name, upper-cased shortcut, rate) overwrites the stored one; every other column stays |
| CurrencyBatch.CryptoById | app/api1/crypto.py:156 | finds the crypto-currency of this exchange with that id, or reports that there is none |
| CurrencyBatch.PostEffect | app/api1/crypto.py:128-144 | a POST fails with `AttributeError` (no shortcut), `BackendError` (empty shortcut), `ValueError` (a non-empty shortcut that is malformed, or a bad name) or `BackendError` (falsy rate, once shortcut and name pass). Otherwise it adds exactly one crypto-currency of this exchange, with total 0, the upper-cased shortcut and the next key |
| CurrencyBatch.PutEffect | app/api1/crypto.py:147-165 | a PUT succeeds exactly when the shortcut key is present, the id is truthy, the staged rows pass the lookup's autoflush and the exchange has a crypto-currency with that id. A missing shortcut key fails with `AttributeError`, a falsy id with `BackendError`, a failed autoflush with `IntegrityError`. On success it overwrites only the truthy fields of that currency; the upper-cased shortcut is not format-checked |
| CurrencyBatch.PutKeepsSettlement | app/api1/crypto.py:156-158 | a PUT never changes a currency whose crypto flag is false |
| CurrencyBatch.PutReachesEveryCrypto | app/api1/crypto.py:156 | every crypto-currency of the exchange can be edited through its own id |
| CurrencyBatch.DeleteEffect | app/api1/crypto.py:168-170 | a DELETE fails, with `IntegrityError`, exactly when the staged rows fail its autoflush. Otherwise it removes this exchange's currencies with that id, whatever their crypto flag; with no match it changes nothing |
| CurrencyBatch.WithoutNothing | app/api1/crypto.py:170 | a delete that matches no row leaves the table as it was |
| CurrencyBatch.WithoutKeepsIds | app/api1/crypto.py:170 | deleting rows keeps the keys increasing |
| CurrencyBatch.ApplyItemKeepsShaped | app/api1/crypto.py:124-170 | every successful item keeps the key invariants |
| CurrencyBatch.ApplyItemsConcat | app/api1/crypto.py:124 | the items apply in order: a batch split in two is the second part applied after the first |
| CurrencyBatch.ApplyItemsStopAtError | app/api1/crypto.py:124-158 | once an item raises, the later items do not matter |
| CurrencyBatch.ApplyItemFrame | app/api1/crypto.py:124-170 | one item changes neither the exchanges nor the trades nor another exchange's currencies |
| CurrencyBatch.ApplyItemsFrame | app/api1/crypto.py:124-170 | the same holds for any number of items |
| CurrencyBatch.StaysInconsistent | app/api1/crypto.py:124-170 | once the staged rows break a unique constraint, no later item repairs them: a POST only appends, and a PUT or DELETE fails at its autoflush |
| CurrencyBatch.DuplicatePostRefused | app/db_model.py:31 | a batch that posts a shortcut the exchange already has never commits, whatever items follow; if no later item raises another error first, it fails with `IntegrityError` |
| CurrencyBatch.UnknownExchangeFails | app/api1/crypto.py:119-122 | a batch on an exchange that does not exist fails with `BackendError`, whatever its items |
| CurrencyBatch.BatchCommits | app/api1/crypto.py:172 | a committed batch leaves the constraints holding, with the same exchanges and trades, and changes only that exchange's currencies |
| Crypto.CurrencyByShortcut | app/api1/crypto.py:202-203 | finds the currency of this exchange with that shortcut, whatever its crypto flag, or none |
| Crypto.CreatedExchange | app/api1/crypto.py:81-85 | a new exchange with a free name keeps the constraints, and its settlement currency is its first currency |
| Crypto.CreateExchange | app/api1/crypto.py:68-89 | fails exactly when the shortcut, the name or a given currency name is malformed (`ValueError`), or the name is taken (`BackendError`); a failure changes nothing. Otherwise it adds exactly one exchange and one currency (upper-cased shortcut, rate 1, total 0, not crypto), which is the exchange's first currency |
| Crypto.Deposit | app/api1/crypto.py:97-108 | an unknown exchange fails with `BackendError` and changes nothing. Otherwise only the total of the exchange's first currency changes, by exactly `amount` of either sign; an exchange with no currency fails with `IndexError` |
| Crypto.StagePost | app/api1/crypto.py:128-144 | the POST branch stages exactly what the batch's POST step computes, or reports its error and stages nothing |
| Crypto.StagePut | app/api1/crypto.py:147-165 | the PUT branch, with its autoflush, edits the one currency in the session as the batch's PUT step says, or reports its error and stages nothing |
| Crypto.StageDelete | app/api1/crypto.py:168-170 | the DELETE branch flushes, then deletes in the session as the batch's DELETE step says, or reports the flush's `IntegrityError` and stages nothing |
| Crypto.StageItems | app/api1/crypto.py:124-170 | the loop stages the items in order and stops at the first error |
| Crypto.UpdateCurrencies | app/api1/crypto.py:116-175 | the request succeeds exactly when the batch does. On success the database is the batch's result and the answer lists all currencies of the exchange; on any failing item or commit the database is unchanged and the error is that item's or the commit's |
| Crypto.Transfer | app/api1/crypto.py:214-217 | the in-currency loses `amount`, the out-currency gains `amount * rate_in * rate_out`, and no other row or column changes |
| Crypto.TradeAllowed | app/api1/crypto.py:189-211 | the trade's checks: both shortcuts well formed and different, the exchange known, both shortcuts present in it, and the in-total at least `amount` |
| Crypto.ExecuteTrade | app/api1/crypto.py:183-222 | fails when a shortcut is malformed (`ValueError`), or with `BackendError` when the shortcuts are equal, the exchange is unknown, a shortcut is missing in that exchange, or the in-total is below `amount` (equal is allowed); a failure changes nothing. On success it applies the transfer and appends exactly one trade dated `now` |
| History.Filtered | app/api1/crypto.py:233-245 | keeps exactly the trades that pass every filter given |
| History.NamedIds | app/api1/crypto.py:243-244 | the keys of every currency, of any exchange, whose name contains the search text |
| History.Selected | app/api1/crypto.py:234-245 | each filter applies only when its argument is truthy: exchange id, dates inclusive at both ends, and the search on either currency of the trade |
| History.Skipped | app/api1/crypto.py:247 | `OFFSET n` skips none for a missing or non-positive `n`, exactly `n` rows when the list has that many, and the whole list when `n` exceeds it |
| History.Kept | app/api1/crypto.py:247 | `LIMIT n` keeps the whole list for a missing or negative `n`, and otherwise `n` rows or the whole list, whichever is fewer |
| History.Page | app/api1/crypto.py:247 | `offset(...).limit(...)`: skip the rows `Skipped` gives, then keep the rows `Kept` gives |
| History.Query | app/api1/crypto.py:229-249 | the history holds no more rows than the trade table, and each is a stored trade that passes every filter given |
| History.QueryWindow | app/api1/crypto.py:247-249 | the answer is the filtered trades, in store order, from the offset on, as many as the limit allows |
| History.FilteredConcat | app/api1/crypto.py:233-245 | filtering keeps store order |
| History.FalsyFiltersSelectAll | app/api1/crypto.py:234-242 | falsy filters (exchange id 0, empty search, no dates) are ignored |
| History.SearchSelects | app/api1/crypto.py:242-245 | the search keeps a trade exactly when its in- or out-currency has a name containing the text |
| History.OneTradeHistory | app/tests/tests.py:70-78 | with one trade, the history holds it, and offset 1 returns nothing |
| Scenario.ApiScenario | app/tests/tests.py:29-78 | the test's requests succeed in turn: the first batch lists 3 currencies, the second 2, the history 1 trade, and with offset 1 none |
| Scenario.FailureScenario | app/tests/tests.py:80-92 | a two-letter shortcut is refused with `ValueError`, and a deposit to exchange 33 with `BackendError` |

## Left out

- Flask and flask_restx plumbing (request parsing, DTO models, routes, status codes) is not
  modelled. Inputs are typed parameters; the five error kinds stand for the 400 answers.
- Marshmallow schemas and JSON dumping are left out; answers are the model's own values.
- Logging has no effect on state, so it is left out.
- `str.upper()` and `str.isalpha()` are modelled on ASCII letters only. Python's Unicode tables
  are not modelled.
- `datetime.strptime` is left out: dates are integers, and the trade's creation time is the
  `now` parameter.
- `LIKE` wildcards (`%`, `_`) in the search text, and SQLite's case-insensitive `LIKE`, are
  not modelled: the search is exact substring containment.
- Floats are modelled as Dafny `real`; rounding is not modelled.
- The `amount` column of the trade table is an Integer column. The model stores the amount as
  given, as SQLite's type affinity does for 4.2.
- Row order is key order. SQL leaves the order of a query without `ORDER BY` unspecified.
- SQLite may reuse the largest deleted row id. The model never reuses a key.
- The unique constraints are checked at every autoflush (the PUT lookup, the DELETE, the
  `get_or_create` query) and at commit, each time on the whole staged state. SQLite checks
  them statement by statement inside one flush, in the order SQLAlchemy's unit of work
  chooses; that order is not modelled.
- Queries other than these run on an idle session, with nothing staged, so their autoflush
  writes nothing and is not modelled.
- The `String(30)` and `String(3)` column lengths are not enforced (SQLite does not enforce
  them either).
- Concurrent requests are not modelled; the model is single-threaded.
- Exchanges are never deleted, since no handler deletes one.
- `add_object(currency)` before `save_changes(exchange)` in exchange creation
  (app/api1/crypto.py:84) is modelled as one staged exchange row with its nested currency. The
  relationship cascade adds the same row.
- A batch item's `method` is one of POST, PUT, DELETE. The request model restricts it to these
  (app/api1/crypto.py:30), so other values are not modelled.
- DbModel.Session.GetOrCreateCurrency: modelled for the currency table only, which is the only
  model it is meant for here. It does not take an id or a `name IS NULL` filter. The model keeps
  every currency owned by an exchange that exists, so it refuses, with `IntegrityError` and
  nothing staged, a filter that has no `exchange_id` or names an exchange that does not exist.
  The source stages such a row and commits it: `exchange_id` is nullable
  (app/db_model.py:28), and SQLite does not enforce the foreign key. A filter missing
  `shortcut`, `actual_rate` or `crypto` is also refused at once; in the source that row fails
  with `IntegrityError` at the next flush instead. No handler calls `get_or_create`.
- DbModel.Session.AddObject: requires that a currency row names an exchange key already handed
  out. The foreign key is not enforced in SQLite, but every caller meets this.
- The application factory, configuration and error handlers are not part of this model.
