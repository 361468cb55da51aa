# tirefire: a conditional update that reports whether the row exists

tirefire extends diesel's PostgreSQL update statements with `check_if_exists(key)`.
It wraps an `UPDATE ... WHERE ...` statement and the primary-key value of the
target row into an `UpdateAndQueryStatement`. That statement renders as one SQL
statement built around a common table expression:

    WITH found AS (<find row by key>), updated AS (<the update> RETURNING *)
    SELECT found.<pk>, updated.<pk> FROM found LEFT JOIN updated ON found.<pk> = updated.<pk>

`execute_and_check` loads the `(found key, updated key)` rows and classifies
them into three outcomes:

- the error `NotFound` when no row comes back;
- `Updated` when the first row's two keys agree;
- `NotUpdatedButExists` when they do not.

The project models this in four modules:

- `Wrappers`: the `Option` and `Result` types.
- `QueryBuilder`: the slice of diesel the core uses.
  - The error type, with `NotFound`.
  - The output pass `AstPass`, a class whose `pushes` field logs every append
    (literal SQL or a quoted identifier). `Contents()` is the text those
    appends leave in the buffer.
  - A `safeToCache` flag for the prepared-statement cache.
  - The lemmas saying that rendering distributes over a sequence of appends.
- `UpdateCte`: the statement types, `CheckIfExists`, the query identity, and
  `ExecuteAndCheck`, the pure classifier of loaded rows.
  - `WalkAst` is the imperative SQL writer. It is proved against `CteWalk`,
    which gives for every combination of collaborator failures the appends
    made and the status returned.
  - When rendering succeeds, `CteText` and `CteIdentifiers` state the exact
    text and which identifiers were pushed.
- `CteSemantics`: a small relational semantics of the statement.
  - A table is a sequence of rows, a where clause is a predicate on rows, and
    a changeset is a function on rows.
  - `found`, `updated`, the left join and the table after the update are
    recursive functions. Both subqueries see the table as it was before the
    statement.
  - Keys are unique and the changeset keeps each row's key. Under these
    conditions, `ExecuteIsIntended` proves that interpreting the statement's
    rows gives exactly the intended outcome: not found, found but not
    updated, or updated.
  - Further lemmas cover the row afterwards, the returned rows' shape,
    issuing the same statement twice, and a changeset that rewrites the
    primary key. When no changed row takes the sought key, such a changeset
    is reported as `NotUpdatedButExists` although the row changed. When
    another changed row takes the sought key (two rows swapping keys), it is
    reported as `Updated`, and the row that then has the key is not the
    target row changed.

The code does not raise an error when a returning clause is already present.
The wrapper is simply not offered for such statements: the model's
`UpdateStatement` has no returning clause. A first row whose two keys are both
present but different is not an error either: it is reported as
`NotUpdatedButExists`. The model follows the code in both places. The
semantics shows that this shape never arises when keys are unique and kept.

## Model

| member | source | states |
|---|---|---|
| UpdateCte.CheckIfExists | src/lib.rs:39-46 | the wrapped statement holds exactly the given update and key |
| UpdateCte.CheckIfExistsInjective | src/lib.rs:40-45 | two wrapped statements are equal exactly when their updates and keys are |
| UpdateCte.QueryId | src/lib.rs:57-63 | there is no static query id, and the query id is absent |
| UpdateCte.ExecuteAndCheck | src/lib.rs:96-107 | a failed load is passed on; no rows gives `NotFound`; otherwise the result is `Updated` exactly when the first row's two keys are equal, else `NotUpdatedButExists` |
| UpdateCte.OnlyFirstRowDecides | src/lib.rs:100-102 | rows after the first never change the outcome |
| UpdateCte.ExecuteAndCheckShapes | src/lib.rs:92-95 | no rows, `(k, null)` and `(k, k)` give not found, not updated and updated |
| QueryBuilder.StatusOf | src/lib.rs:150 | a sub-step's status succeeds exactly when the sub-step does, and carries its error otherwise, as `?` propagates it |
| QueryBuilder.RenderConcat | src/lib.rs:146-173 | the buffer text of a sequence of appends is the text of its parts in order |
| QueryBuilder.IdentifiersConcat | src/lib.rs:146-173 | the identifiers pushed by a sequence of appends are those of its parts in order |
| QueryBuilder.AstPass.UnsafeToCachePrepared | src/lib.rs:147 | the pass is marked unsafe to cache and nothing is appended |
| QueryBuilder.AstPass.PushSql | src/lib.rs:148 | exactly the given literal is appended |
| QueryBuilder.AstPass.PushIdentifier | src/lib.rs:161 | a successful quote appends the identifier with its quoted form; a failed one appends nothing and returns the quoting error |
| UpdateCte.WalkAst | src/lib.rs:146-173 | the pass becomes unsafe to cache; the appends and the returned status are those of `CteWalk` for the statement, and the buffer text grows by their rendering; on success both sub-walks and the quoting succeeded and the buffer grows by exactly the CTE text |
| UpdateCte.WalkSubqueries | src/lib.rs:147-155 | writes the two named subqueries, stopping after the first failing sub-walk and returning its error |
| UpdateCte.PushSelectList | src/lib.rs:157-163 | writes `SELECT found.<pk>, updated.<pk>` or stops at the quoting failure |
| UpdateCte.PushJoin | src/lib.rs:165-170 | writes the left join on the two primary keys; on a quoting failure it has appended only ` FROM found LEFT JOIN updated ON` and ` found.` and returns the quoting error |
| UpdateCte.CteWalkOutcome | src/lib.rs:146-173 | rendering succeeds exactly when the find subquery, the update and the quoting all succeed; it reports the first failure in that order; on success the appends are the full CTE |
| UpdateCte.CteText | src/lib.rs:148-170 | on success, the buffer receives exactly the CTE text |
| UpdateCte.CteIdentifiers | src/lib.rs:159-170 | the statement's own appends push only the primary-key column as an identifier, four times, and the last append is that identifier |
| CteSemantics.Lookup | src/lib.rs:126 | the row found for a key has that key and is the first such row, and no row is found exactly when no row has the key |
| CteSemantics.Found | src/lib.rs:126 | `found` holds nothing but the sought key |
| CteSemantics.Apply | src/lib.rs:127 | the table after the update changes exactly the rows satisfying the where clause, in place |
| CteSemantics.UpdatedKeys | src/lib.rs:127 | `updated` (the update with `RETURNING *`) yields exactly the keys, after the change, of the rows the where clause admits |
| CteSemantics.Matches | src/lib.rs:131-136 | every joined row for a found key is that key paired with itself, and there is none exactly when the key is not among the `updated` keys |
| CteSemantics.LeftJoin | src/lib.rs:131-136 | the left join is empty exactly when `found` is; every found key appears paired with itself when `updated` has it and with null otherwise; each joined row pairs a found key with null or with an equal `updated` key |
| CteSemantics.FoundAbsent | src/lib.rs:126 | a key no row has gives an empty `found` |
| CteSemantics.FoundPresent | src/lib.rs:126 | with unique keys, a present key gives `found` holding it once |
| CteSemantics.NoMatch | src/lib.rs:127-136 | with a changeset that keeps the key, if no row with the key passes the where clause, no `updated` key joins it |
| CteSemantics.OneMatch | src/lib.rs:127-136 | with unique keys and a changeset that keeps the key, if the row with the key passes the where clause, exactly one `updated` key joins it |
| CteSemantics.Evaluate | src/lib.rs:123-137 | issuing the statement returns no rows exactly when `found` is empty, and leaves a table of the same size; `ExecuteIsIntended`, `LoadedShape` and `RowAfter` state the rest |
| CteSemantics.Execute | src/lib.rs:96-107 | issuing the statement and classifying its rows never yields any error but `NotFound`, yields it exactly when no rows come back, and otherwise yields `Updated` exactly when the first row's `updated` key is the sought key |
| CteSemantics.ExecuteIsIntended | src/lib.rs:11-13 | with unique, kept keys, the statement returns no row, `(k, null)` or `(k, k)` according to whether the row is missing, rejected or updated, and the interpretation gives exactly the intended outcome |
| CteSemantics.MissingRowIsNotFound | src/lib.rs:95 | a key no row has yields no rows and the `NotFound` error, without any assumption on the table |
| CteSemantics.LoadedShape | src/lib.rs:128-136 | every returned row is `(k, null)` or `(k, k)` for the sought key |
| CteSemantics.ApplyKeepsKeys | src/lib.rs:127 | an update that keeps keys keeps every row's key and so keeps keys unique |
| CteSemantics.LookupApply | src/lib.rs:127 | with a changeset that keeps the key, afterwards the row with the key is the changed row if it passed the where clause and the same row otherwise |
| CteSemantics.RowAfter | src/lib.rs:92-95 | with unique keys and a changeset that keeps the key, after `Updated` the row is the changed row; after `NotUpdatedButExists` it is unchanged; after not found there is still none |
| CteSemantics.ApplyNothing | src/lib.rs:127 | a where clause that admits no row changes no row and makes `updated` empty |
| CteSemantics.AdmitsNone | src/lib.rs:127 | with unique keys, a where clause that filters on the key and rejects the keyed row admits no row at all |
| CteSemantics.NotFoundChangesNothing | src/lib.rs:92-95 | with a where clause that filters on the key, a missing key gives `NotFound` and leaves the whole table unchanged |
| CteSemantics.RejectedChangesNothing | src/lib.rs:92-95 | with unique keys and a where clause that filters on the key, a rejected row gives `(k, null)` and `NotUpdatedButExists` and leaves the whole table unchanged |
| CteSemantics.RepeatedUpdate | src/lib.rs:20-22 | with unique keys and a changeset that keeps the key, when the changed row no longer satisfies the where clause, the statement first reports `Updated`, then `NotUpdatedButExists` when issued again on the new table |
| CteSemantics.KeyChangeReadsAsNotUpdated | src/lib.rs:126-136 | a changeset that rewrites the primary key of the target row changes the row, yet, when no changed row takes the sought key, the statement reports `NotUpdatedButExists` |
| CteSemantics.KeySwapReadsAsUpdated | src/lib.rs:126-136 | a changeset that swaps the keys of two rows is reported as `Updated` for key 1, although the row with key 1 afterwards is the other row, unchanged in its columns, and the target row now has key 2 |
| CteSemantics.ObjectsUpdated | src/lib.rs:209-213 | on the `objects` table, the runtime update of an object at generation 5 is reported as updated and the runtime changes |
| CteSemantics.ObjectsNotUpdated | src/lib.rs:209-213 | the same update of an object at generation 1 is reported as not updated and the table is unchanged |
| CteSemantics.ObjectsNotFound | src/lib.rs:209-213 | the same update of an absent object is reported as not found, and the table is unchanged |

## Left out

- Connection and loading (`PgConnection`, `load`): the loaded rows, or the load error, are an input of `ExecuteAndCheck`. In the semantics, loading always succeeds.
- The SQL of the find-by-key subquery and of the update statement: diesel renders these, and they are opaque functions in `Fragments` that return text or an error. When one fails, the model appends nothing for it; diesel may already have written part of its text.
- Identifiers the sub-walks push themselves (the table and column names of the find subquery and of the update) are folded into the opaque fragment text, so `Identifiers` sees only the statement's own identifier pushes.
- Identifier quoting (`push_identifier`'s escaping) is an opaque function of the pass that returns the quoted text or an error.
- diesel's separate pass modes (collecting SQL, bind parameters, cacheability) are merged into one pass that records appends and the cache flag. Bind parameters are not modelled.
- The trait bounds on the implementations (lines 74-89, 110-121, 138-145) and the result SQL type are type-level constraints with no runtime behaviour.
- The column aliases `found_<pk>` and `updated_<pk>` in the doc comment are not emitted by the code, and the model follows the code.
- The database's own checks (a unique-key violation raised by a changeset that collides with another key, for instance) are not modelled; the semantics assumes unique keys where it needs them.
- The tests (lines 176-251) print or run statements; only the update shape they build is used, in the `objects` lemmas.
- The semantics evaluates one statement alone on a fixed table. Races with concurrent writers, which the store's isolation level governs, are not modelled.
- src/main.rs is not part of this model.
