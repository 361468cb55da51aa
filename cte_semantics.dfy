/**
 * A small relational semantics for the conditional-update statement, enough to
 * show that the statement and the interpretation of its rows together tell the
 * three outcomes apart. The table is the sequence of its rows; both named
 * subqueries read the table as it was before the statement, as one statement's
 * subqueries do.
 */
module CteSemantics {
  import opened Wrappers
  import opened QueryBuilder
  import opened UpdateCte

  /** A row: its primary key and its other columns. */
  datatype Row<K, C> = Row(id: K, columns: C)

  /** An update's where clause, as a condition on rows. */
  type Guard<!K, !C> = Row<K, C> -> bool

  /** An update's changeset, as the row it makes of each row it changes. */
  type Changeset<!K, !C> = Row<K, C> -> Row<K, C>

  /** A conditional update over this semantics' tables. */
  type Statement<!K, !C> = UpdateAndQueryStatement<K, Guard<K, C>, Changeset<K, C>>

  /** The primary key is a key: no two rows share it. */
  ghost predicate UniqueKeys<K(!new), C(!new)>(rows: seq<Row<K, C>>)
  {
    forall i, j | 0 <= i < |rows| && 0 <= j < |rows| && i != j :: rows[i].id != rows[j].id
  }

  /** The changeset leaves the primary-key column alone. */
  ghost predicate KeepsKey<K(!new), C(!new)>(changeset: Changeset<K, C>)
  {
    forall r :: changeset(r).id == r.id
  }

  /** The where clause admits no row but the one with primary key `key`, as a filter on the key does. */
  ghost predicate TargetsKey<K(!new), C(!new)>(guard: Guard<K, C>, key: K)
  {
    forall r :: guard(r) ==> r.id == key
  }

  /** The row with primary key `key`, if there is one (the first such, should keys repeat). */
  function Lookup<K(==,!new), C(!new)>(rows: seq<Row<K, C>>, key: K): (r: Option<Row<K, C>>)
    ensures r.Some? ==> r.value in rows && r.value.id == key
    ensures r.None? <==> forall i | 0 <= i < |rows| :: rows[i].id != key
    ensures r.Some? ==> exists i | 0 <= i < |rows| :: rows[i] == r.value && forall j | 0 <= j < i :: rows[j].id != key
  {
    if rows == [] then None
    else if rows[0].id == key then Some(rows[0])
    else Lookup(rows[1..], key)
  }

  /** `found`: the primary keys of the rows whose key equals `key`. */
  function Found<K(==,!new), C(!new)>(rows: seq<Row<K, C>>, key: K): (r: seq<K>)
    ensures forall x | x in r :: x == key
  {
    if rows == [] then []
    else (if rows[0].id == key then [rows[0].id] else []) + Found(rows[1..], key)
  }

  /** `updated`: the primary keys `RETURNING *` yields, those of the changed rows, taken after the change. */
  function UpdatedKeys<K(==,!new), C(!new)>(rows: seq<Row<K, C>>, guard: Guard<K, C>, changeset: Changeset<K, C>): (r: seq<K>)
    ensures forall i | 0 <= i < |rows| && guard(rows[i]) :: changeset(rows[i]).id in r
    ensures forall x | x in r :: exists i | 0 <= i < |rows| :: guard(rows[i]) && changeset(rows[i]).id == x
  {
    if rows == [] then []
    else (if guard(rows[0]) then [changeset(rows[0]).id] else []) + UpdatedKeys(rows[1..], guard, changeset)
  }

  /** The table after the update: every row that satisfies the guard is changed, the others are kept. */
  function Apply<K(==,!new), C(!new)>(rows: seq<Row<K, C>>, guard: Guard<K, C>, changeset: Changeset<K, C>): (r: seq<Row<K, C>>)
    ensures |r| == |rows|
    ensures forall i | 0 <= i < |rows| :: r[i] == (if guard(rows[i]) then changeset(rows[i]) else rows[i])
  {
    if rows == [] then []
    else [if guard(rows[0]) then changeset(rows[0]) else rows[0]] + Apply(rows[1..], guard, changeset)
  }

  /** The rows of the join for one `found` key: one per `updated` key equal to it. */
  function Matches<K(==)>(found: K, updated: seq<K>): (r: seq<LoadedRow<K>>)
    ensures forall x | x in r :: x == (Some(found), Some(found))
    ensures r == [] <==> found !in updated
  {
    if updated == [] then []
    else (if updated[0] == found then [(Some(found), Some(updated[0]))] else []) + Matches(found, updated[1..])
  }

  /**
   * `found LEFT JOIN updated ON found.<pk> = updated.<pk>`, projected on the two
   * keys: every `found` key with each `updated` key equal to it, or with null
   * when there is none.
   */
  function LeftJoin<K(==)>(found: seq<K>, updated: seq<K>): (r: seq<LoadedRow<K>>)
    ensures r == [] <==> found == []
    ensures forall f | f in found :: (Some(f), if f in updated then Some(f) else None) in r
    ensures forall x | x in r :: x.0.Some? && x.0.value in found && (x.1.None? || (x.1 == x.0 && x.1.value in updated))
    ensures forall x | x in r && x.1.None? :: x.0.value !in updated
  {
    if found == [] then []
    else
      var m := Matches(found[0], updated);
      assert m != [] ==> m[0] in m;
      assert forall f | f in found :: f == found[0] || f in found[1..];
      (if m == [] then [(Some(found[0]), None)] else m) + LeftJoin(found[1..], updated)
  }

  /** What evaluating the statement produces: the rows it returns and the table afterwards. */
  datatype Evaluation<K, C> = Evaluation(loaded: seq<LoadedRow<K>>, after: seq<Row<K, C>>)

  /** Evaluates the statement against the table `rows`. */
  function Evaluate<K(==,!new), C(!new)>(stmt: Statement<K, C>, rows: seq<Row<K, C>>): (r: Evaluation<K, C>)
    ensures r.loaded == [] <==> Found(rows, stmt.key) == []
    ensures |r.after| == |rows|
  {
    var guard, changeset := stmt.updateStatement.whereClause, stmt.updateStatement.changeset;
    Evaluation(LeftJoin(Found(rows, stmt.key), UpdatedKeys(rows, guard, changeset)),
               Apply(rows, guard, changeset))
  }

  /** Issues the statement against the table `rows` and classifies what it returns. */
  function Execute<K(==,!new), C(!new)>(stmt: Statement<K, C>, rows: seq<Row<K, C>>): (r: QueryResult<UpdateAndQueryResult>)
    ensures r.Success? || r == Failure(NotFound)
    ensures r == Failure(NotFound) <==> Evaluate(stmt, rows).loaded == []
    ensures r.Success? ==> (r.value == Updated <==> Evaluate(stmt, rows).loaded[0].1 == Some(stmt.key))
  {
    ExecuteAndCheck(Success(Evaluate(stmt, rows).loaded))
  }

  /** The outcome the wrapper promises: not found, found but not updated, or updated. */
  function Intended<K(==,!new), C(!new)>(stmt: Statement<K, C>, rows: seq<Row<K, C>>): QueryResult<UpdateAndQueryResult>
  {
    match Lookup(rows, stmt.key)
    case None => Failure(NotFound)
    case Some(r) => if stmt.updateStatement.whereClause(r) then Success(Updated) else Success(NotUpdatedButExists)
  }

  // ---------------------------------------------------------------------------
  // The subqueries

  /** No row has the key: `found` is empty. */
  lemma {:induction false} FoundAbsent<K(!new), C(!new)>(rows: seq<Row<K, C>>, key: K)
    requires Lookup(rows, key).None?
    ensures Found(rows, key) == []
  {
    if rows != [] {
      FoundAbsent(rows[1..], key);
    }
  }

  /** A row has the key, and keys are unique: `found` holds the key once. */
  lemma {:induction false} FoundPresent<K(!new), C(!new)>(rows: seq<Row<K, C>>, key: K)
    requires UniqueKeys(rows) && Lookup(rows, key).Some?
    ensures Found(rows, key) == [key]
  {
    UniqueTail(rows);
    if rows[0].id == key {
      FoundAbsent(rows[1..], key);
    } else {
      FoundPresent(rows[1..], key);
    }
  }

  /** The rows after the first keep unique keys, none of them the first row's key. */
  lemma UniqueTail<K(!new), C(!new)>(rows: seq<Row<K, C>>)
    requires UniqueKeys(rows) && rows != []
    ensures UniqueKeys(rows[1..])
    ensures forall i | 0 <= i < |rows[1..]| :: rows[1..][i].id != rows[0].id
  {
    forall i | 0 <= i < |rows[1..]|
      ensures rows[1..][i].id != rows[0].id
    {
      assert rows[1..][i] == rows[i + 1];
    }
  }

  /** The join rows of a concatenation of `updated` keys. */
  lemma {:induction false} MatchesConcat<K>(found: K, a: seq<K>, b: seq<K>)
    ensures Matches(found, a + b) == Matches(found, a) + Matches(found, b)
  {
    if a != [] {
      assert (a + b)[0] == a[0] && (a + b)[1..] == a[1..] + b;
      MatchesConcat(found, a[1..], b);
    } else {
      assert a + b == b;
    }
  }

  /** No row with the key passes the guard, and the changeset keeps keys: no `updated` key matches. */
  lemma {:induction false} NoMatch<K(!new), C(!new)>(rows: seq<Row<K, C>>, key: K, guard: Guard<K, C>, changeset: Changeset<K, C>)
    requires KeepsKey(changeset)
    requires forall i | 0 <= i < |rows| && rows[i].id == key :: !guard(rows[i])
    ensures Matches(key, UpdatedKeys(rows, guard, changeset)) == []
  {
    if rows != [] {
      var head := if guard(rows[0]) then [changeset(rows[0]).id] else [];
      MatchesConcat(key, head, UpdatedKeys(rows[1..], guard, changeset));
      assert forall i | 0 <= i < |rows[1..]| && rows[1..][i].id == key :: !guard(rows[1..][i]) by {
        forall i | 0 <= i < |rows[1..]| && rows[1..][i].id == key
          ensures !guard(rows[1..][i])
        {
          assert rows[1..][i] == rows[i + 1];
        }
      }
      NoMatch(rows[1..], key, guard, changeset);
    }
  }

  /** The row with the key passes the guard, keys are unique and kept: exactly one `updated` key matches. */
  lemma {:induction false} OneMatch<K(!new), C(!new)>(rows: seq<Row<K, C>>, key: K, guard: Guard<K, C>, changeset: Changeset<K, C>)
    requires UniqueKeys(rows) && KeepsKey(changeset)
    requires Lookup(rows, key).Some? && guard(Lookup(rows, key).value)
    ensures Matches(key, UpdatedKeys(rows, guard, changeset)) == [(Some(key), Some(key))]
  {
    var head := if guard(rows[0]) then [changeset(rows[0]).id] else [];
    MatchesConcat(key, head, UpdatedKeys(rows[1..], guard, changeset));
    UniqueTail(rows);
    if rows[0].id == key {
      NoMatch(rows[1..], key, guard, changeset);
    } else {
      OneMatch(rows[1..], key, guard, changeset);
    }
  }

  // ---------------------------------------------------------------------------
  // The three outcomes

  /**
   * With unique keys and a changeset that keeps keys, the statement returns no
   * row for a missing key, `(key, null)` for a row the guard rejects, and
   * `(key, key)` for a row it updates; so the interpretation yields exactly the
   * intended outcome.
   */
  lemma ExecuteIsIntended<K(!new), C(!new)>(stmt: Statement<K, C>, rows: seq<Row<K, C>>)
    requires UniqueKeys(rows) && KeepsKey(stmt.updateStatement.changeset)
    ensures var key := stmt.key;
            var loaded := Evaluate(stmt, rows).loaded;
            match Lookup(rows, key)
            case None => loaded == []
            case Some(r) => loaded == [(Some(key), if stmt.updateStatement.whereClause(r) then Some(key) else None)]
    ensures Execute(stmt, rows) == Intended(stmt, rows)
  {
    var key, guard, changeset := stmt.key, stmt.updateStatement.whereClause, stmt.updateStatement.changeset;
    var updated := UpdatedKeys(rows, guard, changeset);
    match Lookup(rows, key)
    case None =>
      FoundAbsent(rows, key);
    case Some(r) =>
      FoundPresent(rows, key);
      assert LeftJoin([key], updated) == (var m := Matches(key, updated); if m == [] then [(Some(key), None)] else m);
      if guard(r) {
        OneMatch(rows, key, guard, changeset);
      } else {
        var j :| 0 <= j < |rows| && rows[j] == r;
        assert forall i | 0 <= i < |rows| && rows[i].id == key :: i == j;
        NoMatch(rows, key, guard, changeset);
      }
  }

  /** A key no row has yields the not-found error. */
  lemma MissingRowIsNotFound<K(!new), C(!new)>(stmt: Statement<K, C>, rows: seq<Row<K, C>>)
    requires Lookup(rows, stmt.key).None?
    ensures Evaluate(stmt, rows).loaded == [] && Execute(stmt, rows) == Failure(NotFound)
  {
    FoundAbsent(rows, stmt.key);
  }

  /** Whatever the table, every returned row is `(key, null)` or `(key, key)`: the keys never disagree. */
  lemma {:induction false} LoadedShape<K(!new), C(!new)>(stmt: Statement<K, C>, rows: seq<Row<K, C>>)
    ensures forall x | x in Evaluate(stmt, rows).loaded :: x.0 == Some(stmt.key) && x.1 in {None, Some(stmt.key)}
  {
    JoinShape(Found(rows, stmt.key), UpdatedKeys(rows, stmt.updateStatement.whereClause, stmt.updateStatement.changeset), stmt.key);
  }

  lemma {:induction false} JoinShape<K>(found: seq<K>, updated: seq<K>, key: K)
    requires forall x | x in found :: x == key
    ensures forall x | x in LeftJoin(found, updated) :: x.0 == Some(key) && x.1 in {None, Some(key)}
  {
    if found != [] {
      assert forall x | x in found[1..] :: x in found;
      JoinShape(found[1..], updated, key);
      var m := Matches(found[0], updated);
      var head := if m == [] then [(Some(found[0]), None)] else m;
      assert LeftJoin(found, updated) == head + LeftJoin(found[1..], updated);
      forall x | x in head
        ensures x.0 == Some(key) && x.1 in {None, Some(key)}
      {
        assert found[0] in found;
      }
    }
  }

  // ---------------------------------------------------------------------------
  // The table afterwards

  /** With a changeset that keeps keys, updating keeps every row's key, so the keys stay unique. */
  lemma ApplyKeepsKeys<K(!new), C(!new)>(rows: seq<Row<K, C>>, guard: Guard<K, C>, changeset: Changeset<K, C>)
    requires KeepsKey(changeset)
    ensures forall i | 0 <= i < |rows| :: Apply(rows, guard, changeset)[i].id == rows[i].id
    ensures UniqueKeys(rows) ==> UniqueKeys(Apply(rows, guard, changeset))
  {
  }

  /**
   * The row with the key afterwards: the changed row when the outcome is
   * `Updated`, the same row when it is `NotUpdatedButExists`, and still none when
   * the key was not found.
   */
  lemma {:induction false} RowAfter<K(!new), C(!new)>(stmt: Statement<K, C>, rows: seq<Row<K, C>>)
    requires UniqueKeys(rows) && KeepsKey(stmt.updateStatement.changeset)
    ensures var after := Lookup(Evaluate(stmt, rows).after, stmt.key);
            var before := Lookup(rows, stmt.key);
            match Execute(stmt, rows)
            case Failure(_) => after.None?
            case Success(Updated) => before.Some? && after == Some(stmt.updateStatement.changeset(before.value))
            case Success(NotUpdatedButExists) => after == before
  {
    ExecuteIsIntended(stmt, rows);
    LookupApply(rows, stmt.key, stmt.updateStatement.whereClause, stmt.updateStatement.changeset);
  }

  lemma {:induction false} LookupApply<K(!new), C(!new)>(rows: seq<Row<K, C>>, key: K, guard: Guard<K, C>, changeset: Changeset<K, C>)
    requires KeepsKey(changeset)
    ensures Lookup(Apply(rows, guard, changeset), key)
            == match Lookup(rows, key)
               case None => None
               case Some(r) => Some(if guard(r) then changeset(r) else r)
  {
    if rows != [] {
      var rest := Apply(rows[1..], guard, changeset);
      assert Apply(rows, guard, changeset)[1..] == rest;
      LookupApply(rows[1..], key, guard, changeset);
    }
  }

  /** A where clause that admits no row of the table leaves the table as it was. */
  lemma ApplyNothing<K(!new), C(!new)>(rows: seq<Row<K, C>>, guard: Guard<K, C>, changeset: Changeset<K, C>)
    requires forall i | 0 <= i < |rows| :: !guard(rows[i])
    ensures Apply(rows, guard, changeset) == rows
    ensures UpdatedKeys(rows, guard, changeset) == []
  {
  }

  /**
   * A missing key, under a where clause that filters on the key: the statement
   * reports not found, and no row is created or altered.
   */
  lemma NotFoundChangesNothing<K(!new), C(!new)>(stmt: Statement<K, C>, rows: seq<Row<K, C>>)
    requires Lookup(rows, stmt.key).None? && TargetsKey(stmt.updateStatement.whereClause, stmt.key)
    ensures Execute(stmt, rows) == Failure(NotFound)
    ensures Evaluate(stmt, rows).after == rows
  {
    MissingRowIsNotFound(stmt, rows);
    ApplyNothing(rows, stmt.updateStatement.whereClause, stmt.updateStatement.changeset);
  }

  /**
   * A row the where clause rejects, under a where clause that filters on the key:
   * the statement reports the row found but not updated, and the whole table is
   * left as it was, whatever the changeset.
   */
  lemma RejectedChangesNothing<K(!new), C(!new)>(stmt: Statement<K, C>, rows: seq<Row<K, C>>)
    requires UniqueKeys(rows) && TargetsKey(stmt.updateStatement.whereClause, stmt.key)
    requires Lookup(rows, stmt.key).Some? && !stmt.updateStatement.whereClause(Lookup(rows, stmt.key).value)
    ensures Evaluate(stmt, rows).loaded == [(Some(stmt.key), None)]
    ensures Execute(stmt, rows) == Success(NotUpdatedButExists)
    ensures Evaluate(stmt, rows).after == rows
  {
    var key, guard := stmt.key, stmt.updateStatement.whereClause;
    AdmitsNone(rows, key, guard);
    ApplyNothing(rows, guard, stmt.updateStatement.changeset);
    FoundPresent(rows, key);
    assert LeftJoin([key], []) == [(Some(key), None)];
  }

  /** A where clause that filters on the key and rejects the row with that key admits no row at all. */
  lemma AdmitsNone<K(!new), C(!new)>(rows: seq<Row<K, C>>, key: K, guard: Guard<K, C>)
    requires UniqueKeys(rows) && TargetsKey(guard, key)
    requires Lookup(rows, key).Some? && !guard(Lookup(rows, key).value)
    ensures forall i | 0 <= i < |rows| :: !guard(rows[i])
  {
    var j :| 0 <= j < |rows| && rows[j] == Lookup(rows, key).value;
    assert forall i | 0 <= i < |rows| && rows[i].id == key :: i == j;
  }

  /**
   * An update whose guard the changed row no longer satisfies (a counter pushed
   * past a threshold, say): the first statement updates, the same statement
   * issued again finds the row but does not update it.
   */
  lemma RepeatedUpdate<K(!new), C(!new)>(stmt: Statement<K, C>, rows: seq<Row<K, C>>)
    requires UniqueKeys(rows) && KeepsKey(stmt.updateStatement.changeset)
    requires Lookup(rows, stmt.key).Some?
    requires var r := Lookup(rows, stmt.key).value;
             stmt.updateStatement.whereClause(r) && !stmt.updateStatement.whereClause(stmt.updateStatement.changeset(r))
    ensures Execute(stmt, rows) == Success(Updated)
    ensures Execute(stmt, Evaluate(stmt, rows).after) == Success(NotUpdatedButExists)
  {
    var after := Evaluate(stmt, rows).after;
    ExecuteIsIntended(stmt, rows);
    ApplyKeepsKeys(rows, stmt.updateStatement.whereClause, stmt.updateStatement.changeset);
    LookupApply(rows, stmt.key, stmt.updateStatement.whereClause, stmt.updateStatement.changeset);
    ExecuteIsIntended(stmt, after);
  }

  /**
   * A changeset that rewrites the primary key of the row it updates defeats the
   * join: `RETURNING *` yields the new key, `found` holds the old one, and the
   * statement reports `NotUpdatedButExists` although the row was changed.
   */
  lemma {:induction false} KeyChangeReadsAsNotUpdated<K(!new), C(!new)>(stmt: Statement<K, C>, rows: seq<Row<K, C>>, i: nat)
    requires UniqueKeys(rows) && i < |rows| && rows[i].id == stmt.key
    requires forall j | 0 <= j < |rows| && stmt.updateStatement.whereClause(rows[j]) ::
               stmt.updateStatement.changeset(rows[j]).id != stmt.key
    requires stmt.updateStatement.whereClause(rows[i])
    ensures Evaluate(stmt, rows).after[i] == stmt.updateStatement.changeset(rows[i]) != rows[i]
    ensures Execute(stmt, rows) == Success(NotUpdatedButExists)
  {
    var key, guard, changeset := stmt.key, stmt.updateStatement.whereClause, stmt.updateStatement.changeset;
    assert Lookup(rows, key).Some?;
    FoundPresent(rows, key);
    UpdatedKeysAvoid(rows, key, guard, changeset);
    assert LeftJoin([key], UpdatedKeys(rows, guard, changeset)) == [(Some(key), None)];
  }

  /**
   * A changeset that swaps the keys of two rows misleads the join the other way:
   * row 1 becomes row 2 and row 2 becomes row 1, `updated` holds key 1 again, and
   * the statement reports `Updated` for key 1, although the row with key 1
   * afterwards is the other row with its columns unchanged.
   */
  lemma KeySwapReadsAsUpdated()
    ensures var stmt := CheckIfExists(
              UpdateStatement(Table("t", "id"),
                (r: Row<int, int>) => true,
                (r: Row<int, int>) => Row(3 - r.id, r.columns)),
              1);
            var rows := [Row(1, 10), Row(2, 20)];
            && UniqueKeys(rows) && UniqueKeys(Evaluate(stmt, rows).after)
            && Execute(stmt, rows) == Success(Updated)
            && Evaluate(stmt, rows).after == [Row(2, 10), Row(1, 20)]
            && Lookup(Evaluate(stmt, rows).after, 1) == Some(Row(1, 20))
  {
  }

  /** No changed row carries `key` afterwards: `key` is not among the `updated` keys. */
  lemma {:induction false} UpdatedKeysAvoid<K(!new), C(!new)>(rows: seq<Row<K, C>>, key: K, guard: Guard<K, C>, changeset: Changeset<K, C>)
    requires forall j | 0 <= j < |rows| && guard(rows[j]) :: changeset(rows[j]).id != key
    ensures key !in UpdatedKeys(rows, guard, changeset)
  {
    if rows != [] {
      assert forall j | 0 <= j < |rows[1..]| && guard(rows[1..][j]) :: changeset(rows[1..][j]).id != key by {
        forall j | 0 <= j < |rows[1..]| && guard(rows[1..][j])
          ensures changeset(rows[1..][j]).id != key
        {
          assert rows[1..][j] == rows[j + 1];
        }
      }
      UpdatedKeysAvoid(rows[1..], key, guard, changeset);
    }
  }

  // ---------------------------------------------------------------------------
  // The update of the `objects (id, runtime, gen)` table

  /** `UPDATE objects SET runtime = 'new-runtime' WHERE id = <key> AND gen >= 2`, wrapped for `key`. */
  function ObjectsUpdate(key: int): Statement<int, (string, int)>
  {
    CheckIfExists(
      UpdateStatement(
        Table("objects", "id"),
        (r: Row<int, (string, int)>) => r.id == key && r.columns.1 >= 2,
        (r: Row<int, (string, int)>) => Row(r.id, ("new-runtime", r.columns.1))),
      key)
  }

  /** Object 1 at generation 5 and object 2 at generation 1, both with runtime `old`. */
  function Objects(): seq<Row<int, (string, int)>>
  {
    [Row(1, ("old", 5)), Row(2, ("old", 1))]
  }

  /** Object 1 passes the generation check: it is reported updated and its runtime changes. */
  lemma ObjectsUpdated()
    ensures Execute(ObjectsUpdate(1), Objects()) == Success(Updated)
    ensures Evaluate(ObjectsUpdate(1), Objects()).after == [Row(1, ("new-runtime", 5)), Row(2, ("old", 1))]
  {
    ExecuteIsIntended(ObjectsUpdate(1), Objects());
  }

  /** Object 2 fails the generation check: it is reported found but not updated, and the table is unchanged. */
  lemma ObjectsNotUpdated()
    ensures Execute(ObjectsUpdate(2), Objects()) == Success(NotUpdatedButExists)
    ensures Evaluate(ObjectsUpdate(2), Objects()).after == Objects()
  {
    ExecuteIsIntended(ObjectsUpdate(2), Objects());
  }

  /** There is no object 3: the statement reports not found. */
  lemma ObjectsNotFound()
    ensures Execute(ObjectsUpdate(3), Objects()) == Failure(NotFound)
    ensures Evaluate(ObjectsUpdate(3), Objects()).after == Objects()
  {
    NotFoundChangesNothing(ObjectsUpdate(3), Objects());
  }
}
