/**
 * A conditional update that tells apart "row missing", "row found but not
 * updated" and "row updated", in one statement built around a common table
 * expression:
 *
 *   WITH found AS (<find by key>), updated AS (<update> RETURNING *)
 *   SELECT found.<pk>, updated.<pk> FROM found LEFT JOIN updated ON found.<pk> = updated.<pk>
 */
module UpdateCte {
  import opened Wrappers
  import opened QueryBuilder

  /** The identity of a table: its name and the name of its (non-null) primary-key column. */
  datatype Table = Table(name: string, primaryKey: string)

  /**
   * An update statement on `table` with where clause `whereClause` and changeset
   * `changeset`. It has no returning clause: the wrapper is only offered for
   * update statements that do not carry one yet.
   */
  datatype UpdateStatement<U, V> = UpdateStatement(table: Table, whereClause: U, changeset: V)

  /** An update statement paired with the primary-key value of the row it targets. */
  datatype UpdateAndQueryStatement<K, U, V> = UpdateAndQueryStatement(updateStatement: UpdateStatement<U, V>, key: K)

  /** What the caller learns when the row exists. */
  datatype UpdateAndQueryResult =
    | Updated              // the row exists and was updated
    | NotUpdatedButExists  // the row exists, but was not updated

  /** Wraps an update statement so that it also reports whether the row with primary key `key` exists. */
  function CheckIfExists<K, U, V>(update: UpdateStatement<U, V>, key: K): (r: UpdateAndQueryStatement<K, U, V>)
    ensures r.updateStatement == update && r.key == key
  {
    UpdateAndQueryStatement(update, key)
  }

  /** Wrapping forgets nothing: two wrapped statements are equal only if their updates and keys are. */
  lemma CheckIfExistsInjective<K, U, V>(u1: UpdateStatement<U, V>, k1: K, u2: UpdateStatement<U, V>, k2: K)
    ensures CheckIfExists(u1, k1) == CheckIfExists(u2, k2) <==> u1 == u2 && k1 == k2
  {
  }

  // ---------------------------------------------------------------------------
  // Query identity

  /** A stand-in for a runtime type identity. */
  datatype TypeId = TypeId(id: nat)

  /** The statement's shape embeds the table and key per call, so it has no static query id. */
  const HAS_STATIC_QUERY_ID: bool := false

  /** The statement has no query id at all. */
  function QueryId(): (id: Option<TypeId>)
    ensures id.None? && !HAS_STATIC_QUERY_ID
  {
    None
  }

  // ---------------------------------------------------------------------------
  // Outcome interpretation

  /** One loaded result row: the primary key from `found` and the primary key from `updated`, both nullable. */
  type LoadedRow<K> = (Option<K>, Option<K>)

  /**
   * Classifies the rows loaded from the statement. A failed load is passed on
   * unchanged; no row at all means the key matched nothing; otherwise only the
   * first row counts, and it reports an update exactly when its two keys agree.
   */
  function ExecuteAndCheck<K(==)>(loaded: QueryResult<seq<LoadedRow<K>>>): (r: QueryResult<UpdateAndQueryResult>)
    ensures loaded.Failure? ==> r == Failure(loaded.error)
    ensures loaded.Success? && |loaded.value| == 0 ==> r == Failure(NotFound)
    ensures loaded.Success? && |loaded.value| > 0 ==>
              r.Success? && (r.value == Updated <==> loaded.value[0].0 == loaded.value[0].1)
  {
    match loaded
    case Failure(e) => Failure(e)
    case Success(rows) =>
      if |rows| == 0 then Failure(NotFound)
      else if rows[0].0 == rows[0].1 then Success(Updated)
      else Success(NotUpdatedButExists)
  }

  /** Rows after the first one never change the outcome. */
  lemma OnlyFirstRowDecides<K>(row: LoadedRow<K>, rest: seq<LoadedRow<K>>)
    ensures ExecuteAndCheck(Success([row] + rest)) == ExecuteAndCheck(Success([row]))
  {
  }

  /** The three shapes the statement can produce map to the three outcomes. */
  lemma ExecuteAndCheckShapes<K>(k: K)
    ensures ExecuteAndCheck<K>(Success([])) == Failure(NotFound)
    ensures ExecuteAndCheck(Success([(Some(k), None)])) == Success(NotUpdatedButExists)
    ensures ExecuteAndCheck(Success([(Some(k), Some(k))])) == Success(Updated)
  {
  }

  // ---------------------------------------------------------------------------
  // SQL text assembly

  /**
   * The renderings this core delegates to the query builder: the find-by-key
   * subquery of a table, and the update statement itself. Either may fail.
   */
  datatype Fragments<-K, !U, !V> = Fragments(
    find: (Table, K) -> QueryResult<string>,
    update: UpdateStatement<U, V> -> QueryResult<string>)

  /** The two named subqueries: `found` by key, and `updated` returning every column of each row it changed. */
  function CteSubqueries(find: string, update: string): seq<Piece>
  {
    [Sql("WITH found AS ("), Sql(find), Sql("), updated AS ("), Sql(update), Sql(" RETURNING *) ")]
  }

  /** The select list: the primary key of `found`, then that of `updated`. */
  function CteSelect(pk: string, quoted: string): seq<Piece>
  {
    [Sql("SELECT"), Sql(" found."), Identifier(pk, quoted), Sql(", updated."), Identifier(pk, quoted)]
  }

  /** The left join of `found` to `updated` and its condition, primary key against primary key. */
  function CteJoin(pk: string, quoted: string): seq<Piece>
  {
    [Sql(" FROM found LEFT JOIN updated ON"), Sql(" found."), Identifier(pk, quoted),
     Sql(" = "), Sql("updated."), Identifier(pk, quoted)]
  }

  /** Every append of a successful rendering, in order. */
  function CtePieces(find: string, update: string, pk: string, quoted: string): seq<Piece>
  {
    CteSubqueries(find, update) + CteSelect(pk, quoted) + CteJoin(pk, quoted)
  }

  /** The effect of a rendering: its status and the appends it made before finishing or failing. */
  datatype Walk = Walk(status: QueryResult<()>, pieces: seq<Piece>)

  /** What rendering `stmt` does, given the delegated renderings and the identifier quoting. */
  ghost function CteWalk<K, U, V>(stmt: UpdateAndQueryStatement<K, U, V>, fragments: Fragments<K, U, V>,
                                  quote: string -> QueryResult<string>): Walk
  {
    var table := stmt.updateStatement.table;
    match fragments.find(table, stmt.key)
    case Failure(e) => Walk(Failure(e), [Sql("WITH found AS (")])
    case Success(f) =>
      match fragments.update(stmt.updateStatement)
      case Failure(e) => Walk(Failure(e), [Sql("WITH found AS ("), Sql(f), Sql("), updated AS (")])
      case Success(u) =>
        match quote(table.primaryKey)
        case Failure(e) => Walk(Failure(e), CteSubqueries(f, u) + [Sql("SELECT"), Sql(" found.")])
        case Success(q) => Walk(Success(()), CtePieces(f, u, table.primaryKey, q))
  }

  /**
   * Renders `stmt` into `out`: marks the statement unsafe to cache, then appends
   * the CTE text piece by piece, stopping at the first delegated rendering or
   * identifier quoting that fails.
   */
  method WalkAst<K, U, V>(stmt: UpdateAndQueryStatement<K, U, V>, fragments: Fragments<K, U, V>, out: AstPass)
    returns (r: QueryResult<()>)
    modifies out
    ensures !out.safeToCache
    ensures r == CteWalk(stmt, fragments, out.quote).status
    ensures out.pushes == old(out.pushes) + CteWalk(stmt, fragments, out.quote).pieces
    ensures out.Contents() == old(out.Contents()) + Render(CteWalk(stmt, fragments, out.quote).pieces)
    ensures r.Success? ==>
              var find := fragments.find(stmt.updateStatement.table, stmt.key);
              var update := fragments.update(stmt.updateStatement);
              var quoted := out.quote(stmt.updateStatement.table.primaryKey);
              && find.Success? && update.Success? && quoted.Success?
              && out.Contents()
                 == old(out.Contents())
                    + (("WITH found AS (" + find.value + "), updated AS (") + (update.value + " RETURNING *) ")
                       + (("SELECT" + " found.") + (quoted.value + ", updated." + quoted.value))
                       + ((" FROM found LEFT JOIN updated ON" + " found." + quoted.value)
                          + (" = " + "updated." + quoted.value)))
  {
    ghost var w := CteWalk(stmt, fragments, out.quote);
    ghost var before := out.pushes;
    r := WalkSubqueries(stmt, fragments, out);
    if r.Success? {
      var name := stmt.updateStatement.table.primaryKey;
      r := PushSelectList(out, name);
      if r.Success? {
        r := PushJoin(out, name);
      }
    }
    assert out.pushes == before + w.pieces;
    RenderConcat(before, w.pieces);
    CteWalkOutcome(stmt, fragments, out.quote);
    if r.Success? {
      ghost var find := fragments.find(stmt.updateStatement.table, stmt.key);
      ghost var update := fragments.update(stmt.updateStatement);
      ghost var quoted := out.quote(stmt.updateStatement.table.primaryKey);
      CteText(find.value, update.value, stmt.updateStatement.table.primaryKey, quoted.value);
    }
  }

  /**
   * Marks the statement unsafe to cache and appends the `found` and `updated`
   * subqueries, failing with the error of the first delegated rendering that fails.
   */
  method WalkSubqueries<K, U, V>(stmt: UpdateAndQueryStatement<K, U, V>, fragments: Fragments<K, U, V>, out: AstPass)
    returns (r: QueryResult<()>)
    modifies out
    ensures !out.safeToCache
    ensures var find := fragments.find(stmt.updateStatement.table, stmt.key);
            var update := fragments.update(stmt.updateStatement);
            && r == (if find.Failure? then StatusOf(find) else StatusOf(update))
            && (find.Failure? ==> out.pushes == old(out.pushes) + [Sql("WITH found AS (")])
            && (find.Success? && update.Failure? ==>
                  out.pushes == old(out.pushes) + [Sql("WITH found AS ("), Sql(find.value), Sql("), updated AS (")])
            && (r.Success? ==> out.pushes == old(out.pushes) + CteSubqueries(find.value, update.value))
  {
    out.UnsafeToCachePrepared();
    out.PushSql("WITH found AS (");
    var subquery := fragments.find(stmt.updateStatement.table, stmt.key);
    if subquery.Failure? {
      return Failure(subquery.error);
    }
    out.PushSql(subquery.value);
    out.PushSql("), updated AS (");
    var update := fragments.update(stmt.updateStatement);
    if update.Failure? {
      return Failure(update.error);
    }
    out.PushSql(update.value);
    out.PushSql(" RETURNING *) ");
    r := Success(());
  }

  /** Appends the select list of the CTE, failing if the primary key cannot be quoted. */
  method PushSelectList(out: AstPass, name: string) returns (r: QueryResult<()>)
    modifies out
    ensures out.safeToCache == old(out.safeToCache)
    ensures r == StatusOf(out.quote(name))
    ensures r.Failure? ==> out.pushes == old(out.pushes) + [Sql("SELECT"), Sql(" found.")]
    ensures r.Success? ==> out.pushes == old(out.pushes) + CteSelect(name, out.quote(name).value)
  {
    out.PushSql("SELECT");
    out.PushSql(" found.");
    r := out.PushIdentifier(name);
    if r.Failure? {
      return;
    }
    out.PushSql(", updated.");
    r := out.PushIdentifier(name);
  }

  /** Appends the join of `found` to `updated` on their primary keys, failing if the key cannot be quoted. */
  method PushJoin(out: AstPass, name: string) returns (r: QueryResult<()>)
    modifies out
    ensures out.safeToCache == old(out.safeToCache)
    ensures r == StatusOf(out.quote(name))
    ensures r.Failure? ==> out.pushes == old(out.pushes) + [Sql(" FROM found LEFT JOIN updated ON"), Sql(" found.")]
    ensures r.Success? ==> out.pushes == old(out.pushes) + CteJoin(name, out.quote(name).value)
  {
    out.PushSql(" FROM found LEFT JOIN updated ON");
    out.PushSql(" found.");
    r := out.PushIdentifier(name);
    if r.Failure? {
      return;
    }
    out.PushSql(" = ");
    out.PushSql("updated.");
    r := out.PushIdentifier(name);
  }

  /** The text of the two subqueries, and of what precedes the update. */
  lemma SubqueriesText(find: string, update: string)
    ensures Render([Sql("WITH found AS ("), Sql(find), Sql("), updated AS (")])
            == "WITH found AS (" + find + "), updated AS ("
    ensures Render(CteSubqueries(find, update))
            == ("WITH found AS (" + find + "), updated AS (") + (update + " RETURNING *) ")
  {
    var a, b, c, d, e := Sql("WITH found AS ("), Sql(find), Sql("), updated AS ("), Sql(update), Sql(" RETURNING *) ");
    RenderTriple(a, b, c);
    RenderPair(d, e);
    RenderConcat([a, b, c], [d, e]);
    assert [a, b, c] + [d, e] == CteSubqueries(find, update);
  }

  /** The text of the select list, and of what precedes its first identifier. */
  lemma SelectText(pk: string, quoted: string)
    ensures Render([Sql("SELECT"), Sql(" found.")]) == "SELECT" + " found."
    ensures Render(CteSelect(pk, quoted)) == ("SELECT" + " found.") + (quoted + ", updated." + quoted)
  {
    var a, b, c, d, e := Sql("SELECT"), Sql(" found."), Identifier(pk, quoted), Sql(", updated."), Identifier(pk, quoted);
    RenderPair(a, b);
    RenderTriple(c, d, e);
    RenderConcat([a, b], [c, d, e]);
    assert [a, b] + [c, d, e] == CteSelect(pk, quoted);
  }

  /** The text of the join and its condition. */
  lemma JoinText(pk: string, quoted: string)
    ensures Render(CteJoin(pk, quoted))
            == (" FROM found LEFT JOIN updated ON" + " found." + quoted) + (" = " + "updated." + quoted)
  {
    var a, b, c := Sql(" FROM found LEFT JOIN updated ON"), Sql(" found."), Identifier(pk, quoted);
    var d, e, f := Sql(" = "), Sql("updated."), Identifier(pk, quoted);
    RenderTriple(a, b, c);
    RenderTriple(d, e, f);
    RenderConcat([a, b, c], [d, e, f]);
    assert [a, b, c] + [d, e, f] == CteJoin(pk, quoted);
  }

  /** The subqueries push no identifier. */
  lemma SubqueriesIdentifiers(find: string, update: string)
    ensures Identifiers(CteSubqueries(find, update)) == []
  {
    var a, b, c, d, e := Sql("WITH found AS ("), Sql(find), Sql("), updated AS ("), Sql(update), Sql(" RETURNING *) ");
    IdentifiersTriple(a, b, c);
    IdentifiersPair(d, e);
    IdentifiersConcat([a, b, c], [d, e]);
    assert [a, b, c] + [d, e] == CteSubqueries(find, update);
  }

  /** The select list pushes the primary key twice. */
  lemma SelectIdentifiers(pk: string, quoted: string)
    ensures Identifiers(CteSelect(pk, quoted)) == [pk, pk]
  {
    var a, b, c, d, e := Sql("SELECT"), Sql(" found."), Identifier(pk, quoted), Sql(", updated."), Identifier(pk, quoted);
    IdentifiersPair(a, b);
    IdentifiersTriple(c, d, e);
    IdentifiersConcat([a, b], [c, d, e]);
    assert [a, b] + [c, d, e] == CteSelect(pk, quoted);
  }

  /** The join pushes the primary key twice. */
  lemma JoinIdentifiers(pk: string, quoted: string)
    ensures Identifiers(CteJoin(pk, quoted)) == [pk, pk]
  {
    var a, b, c := Sql(" FROM found LEFT JOIN updated ON"), Sql(" found."), Identifier(pk, quoted);
    var d, e, f := Sql(" = "), Sql("updated."), Identifier(pk, quoted);
    IdentifiersTriple(a, b, c);
    IdentifiersTriple(d, e, f);
    IdentifiersConcat([a, b, c], [d, e, f]);
    assert [a, b, c] + [d, e, f] == CteJoin(pk, quoted);
  }

  /**
   * A successful rendering writes exactly the CTE text, push by push: the two
   * subqueries, then the quoted primary key of `found` and of `updated`, then
   * the left join on those two keys.
   */
  lemma {:induction false} CteText(find: string, update: string, pk: string, quoted: string)
    ensures Render(CtePieces(find, update, pk, quoted))
            == ("WITH found AS (" + find + "), updated AS (") + (update + " RETURNING *) ")
               + (("SELECT" + " found.") + (quoted + ", updated." + quoted))
               + ((" FROM found LEFT JOIN updated ON" + " found." + quoted) + (" = " + "updated." + quoted))
  {
    SubqueriesText(find, update);
    SelectText(pk, quoted);
    JoinText(pk, quoted);
    RenderConcat(CteSubqueries(find, update), CteSelect(pk, quoted));
    RenderConcat(CteSubqueries(find, update) + CteSelect(pk, quoted), CteJoin(pk, quoted));
  }

  /**
   * The statement's own appends push only the primary key as an identifier,
   * exactly four times, and nothing is appended after the last one.
   */
  lemma {:induction false} CteIdentifiers(find: string, update: string, pk: string, quoted: string)
    ensures Identifiers(CtePieces(find, update, pk, quoted)) == [pk, pk, pk, pk]
    ensures var p := CtePieces(find, update, pk, quoted); p[|p| - 1] == Identifier(pk, quoted)
  {
    SubqueriesIdentifiers(find, update);
    SelectIdentifiers(pk, quoted);
    JoinIdentifiers(pk, quoted);
    IdentifiersConcat(CteSubqueries(find, update), CteSelect(pk, quoted));
    IdentifiersConcat(CteSubqueries(find, update) + CteSelect(pk, quoted), CteJoin(pk, quoted));
  }
  /**
   * Rendering succeeds exactly when both delegated renderings and the quoting
   * succeed, and then it appends the full CTE; otherwise it reports the first
   * failure, in the order find subquery, update, primary-key quoting.
   */
  lemma CteWalkOutcome<K, U, V>(stmt: UpdateAndQueryStatement<K, U, V>, fragments: Fragments<K, U, V>,
                                quote: string -> QueryResult<string>)
    ensures var w := CteWalk(stmt, fragments, quote);
            var find := fragments.find(stmt.updateStatement.table, stmt.key);
            var update := fragments.update(stmt.updateStatement);
            var quoted := quote(stmt.updateStatement.table.primaryKey);
            && (w.status.Success? <==> find.Success? && update.Success? && quoted.Success?)
            && (find.Failure? ==> w.status == Failure(find.error))
            && (find.Success? && update.Failure? ==> w.status == Failure(update.error))
            && (find.Success? && update.Success? && quoted.Failure? ==> w.status == Failure(quoted.error))
            && (w.status.Success? ==>
                  w.pieces == CtePieces(find.value, update.value, stmt.updateStatement.table.primaryKey, quoted.value))
  {
  }
}
