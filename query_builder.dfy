/**
 * The slice of the query-builder library that the conditional-update core
 * relies on: its error type, and the output pass into which a statement
 * writes its SQL text.
 */
module QueryBuilder {
  import opened Wrappers

  /** The library's error type, reduced to the kinds this core can produce or pass on. */
  datatype Error =
    | NotFound                          // no row where exactly one was expected
    | QueryBuilderError(message: string) // a fragment could not be rendered
    | DatabaseError(message: string)     // the store rejected or failed the statement

  type QueryResult<T> = Result<T, Error>

  /** One append to the output buffer: literal SQL text, or an identifier together with its quoted form. */
  datatype Piece = Sql(text: string) | Identifier(name: string, quoted: string)

  /** The text a piece contributes to the buffer. */
  function Text(p: Piece): string
  {
    match p
    case Sql(t) => t
    case Identifier(_, q) => q
  }

  /** The text a sequence of appends leaves in the buffer, in order. */
  function Render(pieces: seq<Piece>): string
  {
    if pieces == [] then [] else Render(pieces[..|pieces| - 1]) + Text(pieces[|pieces| - 1])
  }

  /** Appending one piece appends its text. */
  lemma RenderSnoc(p: seq<Piece>, x: Piece)
    ensures Render(p + [x]) == Render(p) + Text(x)
  {
    assert (p + [x])[..|p|] == p;
  }

  /** The status of an operation whose value is not needed, as `?` passes it on. */
  function StatusOf<T>(x: QueryResult<T>): (r: QueryResult<()>)
    ensures r.Success? <==> x.Success?
    ensures x.Failure? ==> r.error == x.error
  {
    match x
    case Success(_) => Success(())
    case Failure(e) => Failure(e)
  }

  /** Rendering distributes over a split of the appends: the buffer is only ever appended to. */
  lemma {:induction false} RenderConcat(a: seq<Piece>, b: seq<Piece>)
    ensures Render(a + b) == Render(a) + Render(b)
  {
    if b == [] {
      assert a + b == a;
    } else {
      var b' := b[..|b| - 1];
      assert (a + b)[..|a + b| - 1] == a + b';
      RenderConcat(a, b');
    }
  }

  /** The rendering of two appends, and of three. */
  lemma RenderPair(a: Piece, b: Piece)
    ensures Render([a, b]) == Text(a) + Text(b)
  {
    RenderSnoc([], a);
    assert [] + [a] == [a];
    RenderSnoc([a], b);
    assert [a] + [b] == [a, b];
  }

  lemma RenderTriple(a: Piece, b: Piece, c: Piece)
    ensures Render([a, b, c]) == Text(a) + Text(b) + Text(c)
  {
    RenderPair(a, b);
    RenderSnoc([a, b], c);
    assert [a, b] + [c] == [a, b, c];
  }

  /** The identifier name a piece contributes: none for literal SQL. */
  function NameOf(p: Piece): seq<string>
  {
    if p.Identifier? then [p.name] else []
  }

  /** The names of the identifiers among the appends, in order. */
  function Identifiers(pieces: seq<Piece>): seq<string>
  {
    if pieces == [] then [] else Identifiers(pieces[..|pieces| - 1]) + NameOf(pieces[|pieces| - 1])
  }

  /** Appending one piece appends its name exactly when it is an identifier. */
  lemma IdentifiersSnoc(p: seq<Piece>, x: Piece)
    ensures Identifiers(p + [x]) == Identifiers(p) + NameOf(x)
  {
    assert (p + [x])[..|p|] == p;
  }

  /** The identifiers of two appends, and of three. */
  lemma IdentifiersPair(a: Piece, b: Piece)
    ensures Identifiers([a, b]) == NameOf(a) + NameOf(b)
  {
    IdentifiersSnoc([], a);
    assert [] + [a] == [a];
    IdentifiersSnoc([a], b);
    assert [a] + [b] == [a, b];
  }

  lemma IdentifiersTriple(a: Piece, b: Piece, c: Piece)
    ensures Identifiers([a, b, c]) == NameOf(a) + NameOf(b) + NameOf(c)
  {
    IdentifiersPair(a, b);
    IdentifiersSnoc([a, b], c);
    assert [a, b] + [c] == [a, b, c];
  }

  lemma {:induction false} IdentifiersConcat(a: seq<Piece>, b: seq<Piece>)
    ensures Identifiers(a + b) == Identifiers(a) + Identifiers(b)
  {
    if b == [] {
      assert a + b == a;
    } else {
      var b' := b[..|b| - 1];
      assert (a + b)[..|a + b| - 1] == a + b';
      IdentifiersConcat(a, b');
    }
  }

  /**
   * The output pass of a SQL rendering. The buffer is kept as the sequence of
   * pushes made into it, so that the text can be read back push by push; the
   * text itself is `Contents()`. `safeToCache` says whether the rendered statement
   * may be cached as a prepared statement.
   */
  class AstPass {
    var pushes: seq<Piece>
    var safeToCache: bool
    /** The backend's identifier quoting, which may fail. */
    const quote: string -> QueryResult<string>

    /** The SQL text written so far. */
    function Contents(): string
      reads this
    {
      Render(pushes)
    }

    constructor (quote: string -> QueryResult<string>)
      ensures this.quote == quote && pushes == [] && safeToCache
    {
      this.quote := quote;
      pushes := [];
      safeToCache := true;
    }

    /** Marks the statement being rendered as unsafe to cache; the text is untouched. */
    method UnsafeToCachePrepared()
      modifies this
      ensures !safeToCache && pushes == old(pushes)
    {
      safeToCache := false;
    }

    /** Appends literal SQL text. */
    method PushSql(s: string)
      modifies this
      ensures safeToCache == old(safeToCache) && pushes == old(pushes) + [Sql(s)]
    {
      pushes := pushes + [Sql(s)];
    }

    /** Appends the quoted form of an identifier, or fails with the quoting error and appends nothing. */
    method PushIdentifier(name: string) returns (r: QueryResult<()> )
      modifies this
      ensures safeToCache == old(safeToCache)
      ensures r == StatusOf(quote(name))
      ensures quote(name).Failure? ==> pushes == old(pushes)
      ensures quote(name).Success? ==> pushes == old(pushes) + [Identifier(name, quote(name).value)]
    {
      match quote(name)
      case Failure(e) =>
        r := Failure(e);
      case Success(q) =>
        pushes := pushes + [Identifier(name, q)];
        r := Success(());
    }
  }
}
