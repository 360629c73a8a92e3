# Allow-listed query dispatcher, modelled in Dafny

The marketing-campaign actions expose two operations backed by an allow-list
of named SQL queries (the `allowed_queries` table: query name, SQL text,
description):

- `get_allowed_queries` lists every allowed query by name and description.
- `execute_allowed_query` takes a request `{query_name, params}` and looks
  the name up in the allow-list. An unknown name is rejected with a fixed
  message. For the two range queries `purchases_by_amount_range` and
  `customers_by_email_open_rate`, a "no upper limit" parameter pattern is
  rewritten in place in the caller's list. The allowed SQL then runs against
  the target database. The rows come back joined by newlines, and an sqlite3
  error comes back as `"An error occurred: " + message`. Any other
  exception raised while binding or executing propagates to the caller.

The model has three modules:

- `Joining` (joining.dfy) is Python's `sep.join`, with lemmas that give its
  shape.
- `AllowedQueries` (allowed_queries.dfy) holds the store as a sequence of
  rows. It has the first-match lookup that `fetchone` performs and the
  listing. The listing is a method with the source's append loop, proved
  against the function `Listing`.
- `Dispatcher` (dispatcher.dfy) holds the request. It is a class whose
  `params` is an `array`, because the rewrite updates the caller's list in
  place. The module also has the rewrite rule (`RewriteApplies`, `Rewrite`
  and the in-place `ApplyUpperLimitRewrite`), the result shaping, the
  specification function `Dispatch` on values, and the method
  `ExecuteAllowedQuery`, proved against `Dispatch`.

Things the source reaches outside itself for become parameters:

- The SQL engine is a function
  `(sql, params) -> Rows(rows) | SqlError(msg) | OtherError(exception)`.
  It covers connecting to the target database, binding and `fetchall`.
  `SqlError` stands for an `sqlite3.Error`, which the dispatcher catches.
  `OtherError` stands for any other exception, for instance the
  `OverflowError` raised when an integer outside 64 bits is bound. The
  dispatcher does not catch it, so the call ends with `Raised(exception)`
  instead of returned text, and the parameters have already been rewritten.
- Python's `str(row)` is a function `Row -> string`.
- The allow-list store is a `seq<AllowedQuery>` in the order the database
  returns its rows.

Whether the target database is reached at all is observable in the model.
`ExecuteAllowedQuery` returns the statement it handed to the engine, or
`None` when it rejected the name before connecting.

Parameters are tagged scalars (`Int`, `Real`, `Bool`, `Text`, `Null`).
The trigger `params[3] == 0` is modelled by `IsZero`, which is true of `0`,
`0.0` and `False`, as Python's equality makes it.

Two details of the code that the model follows:

- The target connection is closed only on success (actions.py:104). The
  error path returns without closing it, so the model makes no claim about
  closing.
- Each listing block ends in `\n` and the blocks are joined by `\n`, so
  consecutive blocks are separated by a blank line and the listing ends in
  a newline (actions.py:41-43).

## Model

| member | source | states |
|---|---|---|
| `Joining.Join` | actions.py:43 | `sep.join(parts)`: empty for no parts, otherwise led by the first part |
| `Joining.JoinIsHeadThenPrefixed` | actions.py:102 | a non-empty `sep.join(parts)` is the first part followed by every later part, each preceded by `sep` |
| `Joining.JoinSnoc` | actions.py:39-43 | appending a part to a non-empty list appends `sep` and that part to the join |
| `AllowedQueries.FirstMatch` | actions.py:68-72 | `fetchone` on the name filter: none exactly when no row has the name; otherwise the index of a row with the name and no earlier row with it |
| `AllowedQueries.LookupSql` | actions.py:68-79 | the lookup is empty exactly when no row has the name; otherwise it is the SQL of a row with that name |
| `AllowedQueries.FirstRowWins` | actions.py:68-79 | the SQL returned is that of the first row carrying the name, whatever rows with the same name follow |
| `AllowedQueries.LookupIgnoresLaterRows` | actions.py:72 | rows after a matching row never change the lookup |
| `AllowedQueries.Block` | actions.py:41 | one row's block, `"Query Name: {name}\nDescription: {description}\n"`, with no SQL text in it |
| `AllowedQueries.Listing` | actions.py:38-45 | `"No allowed queries found."` exactly when the store is empty; otherwise the header, joined by newlines to one block per row |
| `AllowedQueries.GetAllowedQueries` | actions.py:38-45 | the append loop yields the header plus one block per row, joined by newlines; the result is `"No allowed queries found."` exactly when the store is empty |
| `AllowedQueries.ListingShape` | actions.py:39-43 | a non-empty listing is `"Allowed Queries with Details:"` followed, in store order, by a newline and each row's name/description block |
| `AllowedQueries.ListingOmitsSql` | actions.py:40-41 | two stores that agree on names and descriptions list identically, so the SQL column never shows |
| `Dispatcher.IsZero` | actions.py:87 | Python's `params[3] == 0`: never true of a string or `None`; an integer exactly when it is 0, a float exactly when it is 0.0, a boolean exactly when it is `False` |
| `Dispatcher.RewriteApplies` | actions.py:82-87 | the trigger holds exactly when the name is `purchases_by_amount_range` or `customers_by_email_open_rate`, there are at least 4 parameters, and `params[3] == 0` |
| `Dispatcher.Rewrite` | actions.py:82-92 | the rewrite keeps the length and every index other than 2 and 3; when the trigger holds, entry 2 becomes 1 and entry 3 becomes 100000; otherwise nothing changes |
| `Dispatcher.RewriteChangesIff` | actions.py:82-87 | the parameters change if and only if the name is one of the two range queries, there are at least 4 parameters and `params[3] == 0` |
| `Dispatcher.RewriteIdempotent` | actions.py:87-92 | rewriting twice equals rewriting once |
| `Dispatcher.RewriteOnlyNamedQueries` | actions.py:82-85 | any name other than the two range queries leaves the parameters unchanged |
| `Dispatcher.RewriteExamples` | actions.py:82-92 | `[10, 20, 0, 0]` becomes `[10, 20, 1, 100000]`; a non-zero or non-numeric fourth entry, or a list of 3, is left alone; `0.0` and `False` trigger it |
| `Dispatcher.QueryExecutionParams.constructor` | actions.py:15-17 | a request carries the query name and the caller's parameter list |
| `Dispatcher.ApplyUpperLimitRewrite` | actions.py:82-92 | the in-place update leaves the array equal to `Rewrite` of its old contents, and changes nothing but that array |
| `Dispatcher.RenderRows` | actions.py:102 | `"\n".join(str(row) for row in results)`: `""` for no rows, otherwise led by the first row's text |
| `Dispatcher.RenderRowsShape` | actions.py:101-102 | zero rows give `""`; otherwise the first row's text, then every later row on its own line in row order |
| `Dispatcher.RenderRowsSnoc` | actions.py:102 | one more row adds a newline and its text at the end |
| `Dispatcher.Shape` | actions.py:99-108 | only non-sqlite3 exceptions propagate; an sqlite3 error returns `"An error occurred: "` followed by exactly its message; zero rows return `""` |
| `Dispatcher.Dispatch` | actions.py:65-108 | the engine is reached exactly when some row has the name; if not, the text is the rejection and the params are untouched; if so, the engine gets the looked-up SQL and the rewritten params, and the reply is the shaped engine result; an exception propagates exactly when the engine raises something other than an sqlite3 error |
| `Dispatcher.UnknownNameRejected` | actions.py:76-77 | an unknown name returns `"Query not allowed or does not exist."`, leaves the params unchanged and submits nothing |
| `Dispatcher.KnownNameExecuted` | actions.py:79-108 | for a listed name, the first matching row's SQL runs on the rewritten params; an sqlite3 error returns `"An error occurred: " + msg`, rows return their newline join, and any other exception propagates with the params already rewritten |
| `Dispatcher.EmptyResultIsNotRejection` | actions.py:101-105 | a listed query that returns no rows yields `""`, which differs from the rejection message |
| `Dispatcher.ExecuteAllowedQuery` | actions.py:49-108 | the method's reply, the caller's array afterwards and the statement it submits are those of `Dispatch` on the old parameters; only the request's array is modified |

## Left out

- Opening and closing the SQLite connections, SQL parsing and execution, and `fetchall` are abstracted into the engine parameter. No claim is made about closing connections, since the code leaves the target connection open on the error path.
- Neither SELECT has an `ORDER BY` (actions.py:33, 69), so SQL does not fix the order of rows. The model assumes both see the rows in the same order, the store's scan order. "First row wins" among duplicate names holds for that order, not as a guarantee of SQL.
- A failure to open or read the allow-list store is not modelled. In the source it propagates as an uncaught exception; the model takes the store's rows as given.
- The `print` diagnostics (actions.py:42, 97) are output side effects with nothing to state.
- The `@action` decorator and pydantic validation of the request (actions.py:9-20, 48) are framework plumbing.
- Python's `str(row)` tuple rendering is an opaque parameter, so the model says nothing about the text of a single row.
- Parameters that are nested lists or dictionaries are not modelled. They are never equal to 0, so they could not trigger the rewrite. Rejecting them at binding is inside the engine parameter.
- Which exceptions the engine raises for which inputs is not modelled. An integer outside SQLite's 64-bit range is a legal `Int` in the model; it is up to the engine parameter to answer `OtherError` for it, as CPython's sqlite3 module does.
- Python's `-0.0 == 0` has no counterpart, because Dafny's `real` has no negative zero.
- The hard-coded database file paths (actions.py:30, 60-63) have no counterpart.
- The fixed-query marketing actions (`identify_customers`, `filter_customers_by_engagement`, `query_exclusive_offers_by_category`, `send_emails`) are not part of this model; actions.py holds only the dispatcher.
