/** The SQL text the create-query route synthesises from a layer, a table
    and an optional row limit (`build_sql_query`, main.py:296-319). */
module SqlBuilder {
  import opened Common
  import opened Text

  /** The query up to the quoted layer, over four lines. */
  const SelectFrom: string := "SELECT\n\t*\nFROM\n\t"
  const Quote: string := "\""
  /** Everything up to the opening quote of the layer. */
  const Header: string := SelectFrom + Quote
  /** Between layer and table: closing quote, dot, opening quote. */
  const Separator: string := Quote + "." + Quote
  /** What introduces the limit. */
  const LimitClause: string := "\nLIMIT "

  /** `SELECT * FROM "layer"."table"` laid out over four lines, then
      `LIMIT n` on a line of its own when a limit is given.  The identifiers
      are quoted but embedded quotes are not escaped. */
  function BuildSqlQuery(layer: string, table: string, limit: Option<int>): (sql: string)
    ensures Header <= sql
    ensures limit.None? <==> sql[|sql| - 1] == '"'
  {
    var quotedLayer := Quote + layer + Quote;
    var quotedTable := Quote + table + Quote;
    var base := SelectFrom + quotedLayer + "." + quotedTable;
    if limit.Some? then base + LimitClause + IntToString(limit.value) else base
  }

  /** The longest prefix of `s` that holds no double quote. */
  function UntilQuote(s: string): (p: string)
    ensures p <= s && '"' !in p
    ensures |p| < |s| ==> s[|p|] == '"'
  {
    if s == [] || s[0] == '"' then [] else [s[0]] + UntilQuote(s[1..])
  }

  /** Reads back layer, table and limit from a query text of the shape
      `BuildSqlQuery` produces, taking each identifier up to the next quote. */
  function ParseSqlQuery(sql: string): Option<(string, string, Option<int>)> {
    if Header <= sql then ParseIdentifiers(sql[|Header|..]) else None
  }

  /** `layer"."table"` followed by the limit tail. */
  function ParseIdentifiers(s: string): Option<(string, string, Option<int>)> {
    var layer := UntilQuote(s);
    var rest := s[|layer|..];
    if !(Separator <= rest) then None else
    var afterSeparator := rest[|Separator|..];
    var table := UntilQuote(afterSeparator);
    var afterTable := afterSeparator[|table|..];
    if afterTable == [] || afterTable[0] != '"' then None else
    match ParseLimitTail(afterTable[1..])
    case Some(limit) => Some((layer, table, limit))
    case None => None
  }

  /** Nothing at all, or `\nLIMIT ` and an integer. */
  function ParseLimitTail(tail: string): Option<Option<int>> {
    if tail == [] then Some(None)
    else if !(LimitClause <= tail) then None
    else
      match ParseInt(tail[|LimitClause|..])
      case Some(n) => Some(Some(n))
      case None => None
  }

  /** The query text cut at the quotes. */
  lemma BuildSqlQueryParts(layer: string, table: string, limit: Option<int>)
    ensures BuildSqlQuery(layer, table, limit) == Header + AfterHeader(layer, table, limit)
  {
    var base := SelectFrom + (Quote + layer + Quote) + "." + (Quote + table + Quote);
    var identifiers := layer + Separator + table + Quote;
    BaseParts(layer, table);
    if limit.Some? {
      Associative(base, LimitClause, IntToString(limit.value));
      Associative(Header, identifiers, LimitTail(limit));
    } else {
      assert identifiers + "" == identifiers;
    }
  }

  /** The query without its limit, cut at the first quote. */
  lemma BaseParts(layer: string, table: string)
    ensures SelectFrom + (Quote + layer + Quote) + "." + (Quote + table + Quote)
            == Header + (layer + Separator + table + Quote)
  {
    Regroup(SelectFrom, Quote, ".", layer, table);
  }

  lemma Associative(a: string, b: string, c: string)
    ensures a + b + c == a + (b + c)
  {
  }

  /** The regrouping behind `BuildSqlQueryParts`, on arbitrary pieces. */
  lemma Regroup(open: string, q: string, dot: string, x: string, y: string)
    ensures open + (q + x + q) + dot + (q + y + q) == (open + q) + (x + (q + dot + q) + y + q)
  {
    calc {
      open + (q + x + q) + dot + (q + y + q);
      (open + q) + x + q + dot + q + y + q;
      (open + q) + (x + (q + dot + q) + y + q);
    }
  }

  /** Everything after the opening quote of the layer. */
  function AfterHeader(layer: string, table: string, limit: Option<int>): string {
    layer + Separator + table + Quote + LimitTail(limit)
  }

  /** What follows the closing quote of the table. */
  function LimitTail(limit: Option<int>): string {
    if limit.Some? then LimitClause + IntToString(limit.value) else ""
  }

  lemma {:induction false} UntilQuoteStopsAtQuote(x: string, y: string)
    requires '"' !in x
    requires y == [] || y[0] == '"'
    ensures UntilQuote(x + y) == x
    decreases |x|
  {
    if x != [] {
      assert (x + y)[1..] == x[1..] + y;
      UntilQuoteStopsAtQuote(x[1..], y);
    } else {
      assert x + y == y;
    }
  }

  lemma LimitTailParses(limit: Option<int>)
    ensures ParseLimitTail(LimitTail(limit)) == Some(limit)
  {
    if limit.Some? {
      var tail := LimitTail(limit);
      assert tail[|LimitClause|..] == IntToString(limit.value);
      IntToStringRoundTrip(limit.value);
    }
  }

  lemma IdentifiersParse(layer: string, table: string, tail: string)
    requires '"' !in layer && '"' !in table
    ensures ParseIdentifiers(layer + Separator + table + Quote + tail)
            == (match ParseLimitTail(tail)
                case Some(limit) => Some((layer, table, limit))
                case None => None)
  {
    var s := layer + Separator + table + Quote + tail;
    assert s == layer + (Separator + table + Quote + tail);
    UntilQuoteStopsAtQuote(layer, Separator + table + Quote + tail);
    var rest := s[|layer|..];
    assert rest == Separator + table + Quote + tail;
    var afterSeparator := rest[|Separator|..];
    assert afterSeparator == table + (Quote + tail);
    UntilQuoteStopsAtQuote(table, Quote + tail);
    var afterTable := afterSeparator[|table|..];
    assert afterTable == Quote + tail;
    assert afterTable[1..] == tail;
  }

  /** Layer, table and limit can be read back from the query text whenever
      the identifiers hold no double quote. */
  lemma BuildThenParse(layer: string, table: string, limit: Option<int>)
    requires '"' !in layer && '"' !in table
    ensures ParseSqlQuery(BuildSqlQuery(layer, table, limit)) == Some((layer, table, limit))
  {
    var rest := AfterHeader(layer, table, limit);
    BuildSqlQueryParts(layer, table, limit);
    HeaderStripped(rest);
    IdentifiersParse(layer, table, LimitTail(limit));
    LimitTailParses(limit);
  }

  lemma HeaderStripped(rest: string)
    ensures ParseSqlQuery(Header + rest) == ParseIdentifiers(rest)
  {
    assert (Header + rest)[|Header|..] == rest;
  }

  /** Because quotes are not escaped, a quote-dot-quote inside the layer and
      the same sequence inside the table produce the same query text: the
      text does not determine the identifiers. */
  lemma QuotesAreNotEscaped(x: string, y: string, z: string, limit: Option<int>)
    ensures BuildSqlQuery(x + Separator + y, z, limit) == BuildSqlQuery(x, y + Separator + z, limit)
  {
    BuildSqlQueryParts(x + Separator + y, z, limit);
    BuildSqlQueryParts(x, y + Separator + z, limit);
    var a := x + Separator;
    assert a + (y + Separator + z) == (a + (y + Separator)) + z;
    assert a + (y + Separator) == a + y + Separator;
    assert AfterHeader(x + Separator + y, z, limit) == AfterHeader(x, y + Separator + z, limit);
  }
}
