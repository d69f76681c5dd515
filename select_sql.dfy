/** The clause state of a SELECT statement as a value, and the renderer that
    turns it into SQL text plus a parameter map. */
module SelectSql {
  import opened Values
  import opened Text
  import opened Quoting
  import opened Expressions

  datatype JoinKind = Inner | Left | Right | Cross

  /** One JOIN entry; `on == Nil` is a join without a condition. */
  datatype JoinInfo = JoinInfo(kind: JoinKind, table: string, on: Expr)

  /** A built statement: its text and its parameters. */
  datatype Query = Query(sql: string, params: Params)

  /** A UNION entry, holding the sub-query's text and parameters as they
      were when it was appended. */
  datatype UnionInfo = UnionInfo(all: bool, sql: string, params: Params)

  datatype Clauses = Clauses(
    selects: seq<string>,
    distinct: bool,
    option: string,
    from: seq<string>,
    joins: seq<JoinInfo>,
    where: Expr,
    groupBy: seq<string>,
    having: Expr,
    orderBy: seq<string>,
    limit: Option<nat>,
    offset: Option<nat>,
    bound: Params,
    unions: seq<UnionInfo>)

  /** The state of a fresh `Select(cols...)`. */
  function Initial(cols: seq<string>): Clauses
  {
    Clauses(cols, false, "", [], [], Nil, [], Nil, [], None, None, map[], [])
  }

  /** Quoted names separated by `, `. */
  function ColumnList(cols: seq<string>): string
  {
    Join(QuoteAll(cols), ", ")
  }

  /** Appending columns appends their quoted text after a `, `. */
  lemma ColumnListAppend(a: seq<string>, b: seq<string>)
    requires a != [] && b != []
    ensures ColumnList(a + b) == ColumnList(a) + ", " + ColumnList(b)
  {
    assert QuoteAll(a + b) == QuoteAll(a) + QuoteAll(b);
    JoinAppend(QuoteAll(a), QuoteAll(b), ", ");
  }

  function SelectClause(c: Clauses): string
  {
    "SELECT "
    + (if c.distinct then "DISTINCT " else "")
    + (if c.option != "" then c.option + " " else "")
    + (if c.selects == [] then "*" else ColumnList(c.selects))
  }

  function FromClause(c: Clauses): string
  {
    if c.from == [] then "" else "FROM " + ColumnList(c.from)
  }

  function KindWord(k: JoinKind): string
  {
    match k
    case Inner => "INNER JOIN"
    case Left => "LEFT JOIN"
    case Right => "RIGHT JOIN"
    case Cross => "CROSS JOIN"
  }

  /** One join: its kind, the quoted table and, only when the condition has
      text, `ON` and the condition unquoted. */
  function JoinTerm(j: JoinInfo): string
  {
    var on := Render(j.on);
    KindWord(j.kind) + " " + QuoteName(j.table) + (if on == "" then "" else " ON " + on)
  }

  function JoinTerms(joins: seq<JoinInfo>): (r: seq<string>)
    ensures |r| == |joins|
    ensures forall i :: 0 <= i < |r| ==> r[i] == JoinTerm(joins[i])
  {
    if joins == [] then [] else [JoinTerm(joins[0])] + JoinTerms(joins[1..])
  }

  function JoinClause(c: Clauses): string
  {
    Join(JoinTerms(c.joins), " ")
  }

  function WhereClause(c: Clauses): string
  {
    var w := Render(c.where);
    if w == "" then "" else "WHERE " + w
  }

  function GroupByClause(c: Clauses): string
  {
    if c.groupBy == [] then "" else "GROUP BY " + ColumnList(c.groupBy)
  }

  function HavingClause(c: Clauses): string
  {
    var h := Render(c.having);
    if h == "" then "" else "HAVING " + h
  }

  function OrderByClause(c: Clauses): string
  {
    if c.orderBy == [] then "" else "ORDER BY " + Join(OrderTerms(c.orderBy), ", ")
  }

  function LimitClause(c: Clauses): string
  {
    match c.limit
    case None => ""
    case Some(n) => "LIMIT " + NatToString(n)
  }

  function OffsetClause(c: Clauses): string
  {
    match c.offset
    case None => ""
    case Some(n) => "OFFSET " + NatToString(n)
  }

  /** The clauses in their fixed order. */
  function ClauseTexts(c: Clauses): seq<string>
  {
    [SelectClause(c), FromClause(c), JoinClause(c), WhereClause(c), GroupByClause(c),
     HavingClause(c), OrderByClause(c), LimitClause(c), OffsetClause(c)]
  }

  /** The statement without its unions: the non-empty clauses, space-separated. */
  function Statement(c: Clauses): (r: string)
    ensures SelectClause(c) <= r
  {
    var t := ClauseTexts(c);
    assert NonEmpty(t) == [t[0]] + NonEmpty(t[1..]);
    JoinStartsWithFirst(NonEmpty(t), " ");
    Join(NonEmpty(t), " ")
  }

  function UnionTerm(u: UnionInfo): string
  {
    (if u.all then "UNION ALL" else "UNION") + " (" + u.sql + ")"
  }

  function UnionTerms(us: seq<UnionInfo>): (r: seq<string>)
    ensures |r| == |us|
    ensures forall i :: 0 <= i < |r| ==> r[i] == UnionTerm(us[i])
  {
    if us == [] then [] else [UnionTerm(us[0])] + UnionTerms(us[1..])
  }

  /** `SQL()`: with unions, the statement is parenthesised and followed by
      each union in append order. */
  function BuildSql(c: Clauses): (r: string)
    ensures c.unions == [] ==> r == Statement(c) && SelectClause(c) <= r
    ensures c.unions != [] ==> "(" + Statement(c) + ") " <= r
  {
    if c.unions == [] then Statement(c)
    else "(" + Statement(c) + ") " + Join(UnionTerms(c.unions), " ")
  }

  function JoinParams(joins: seq<JoinInfo>): Params
  {
    if joins == [] then map[] else ExprParams(joins[0].on) + JoinParams(joins[1..])
  }

  function UnionParams(us: seq<UnionInfo>): Params
  {
    if us == [] then map[] else us[0].params + UnionParams(us[1..])
  }

  /** `Params()`: every clause's parameters, then the bound ones, which win
      on a name clash. */
  function BuildParams(c: Clauses): (p: Params)
    ensures p.Keys == JoinParams(c.joins).Keys + ExprParams(c.where).Keys
                      + ExprParams(c.having).Keys + UnionParams(c.unions).Keys + c.bound.Keys
    ensures forall k :: k in c.bound ==> p[k] == c.bound[k]
  {
    JoinParams(c.joins) + ExprParams(c.where) + ExprParams(c.having) + UnionParams(c.unions) + c.bound
  }

  /** A query with nothing after its FROM clause renders as SELECT and FROM
      alone: every empty clause is left out, with no stray space. */
  lemma EmptyClausesOmitted(c: Clauses)
    requires c.joins == [] && Vacuous(c.where) && c.groupBy == []
    requires Vacuous(c.having) && c.orderBy == [] && c.limit == None && c.offset == None
    requires c.unions == []
    ensures BuildSql(c) == if c.from == [] then SelectClause(c) else SelectClause(c) + " " + FromClause(c)
  {
    assert JoinClause(c) == "" && WhereClause(c) == "" && HavingClause(c) == "";
    assert LimitClause(c) == "" && OffsetClause(c) == "";
    assert FromClause(c) == "" <==> c.from == [];
    JoinLeadingPair(SelectClause(c), FromClause(c), JoinClause(c), WhereClause(c), GroupByClause(c),
                    HavingClause(c), OrderByClause(c), LimitClause(c), OffsetClause(c), " ");
  }

  /** With every clause present and no unions, the statement is all nine
      clauses in their fixed order, one space apart. */
  lemma AllClausesPresent(c: Clauses)
    requires c.unions == []
    requires SelectClause(c) != "" && FromClause(c) != "" && JoinClause(c) != "" && WhereClause(c) != ""
    requires GroupByClause(c) != "" && HavingClause(c) != "" && OrderByClause(c) != ""
    requires LimitClause(c) != "" && OffsetClause(c) != ""
    ensures BuildSql(c) == SelectClause(c) + " " + FromClause(c) + " " + JoinClause(c) + " " + WhereClause(c)
                           + " " + GroupByClause(c) + " " + HavingClause(c) + " " + OrderByClause(c)
                           + " " + LimitClause(c) + " " + OffsetClause(c)
  {
    JoinNineNonEmpty(SelectClause(c), FromClause(c), JoinClause(c), WhereClause(c), GroupByClause(c),
                     HavingClause(c), OrderByClause(c), LimitClause(c), OffsetClause(c), " ");
  }

  /** An empty column list renders as `*`. */
  lemma SelectStar(c: Clauses)
    requires c.selects == [] && !c.distinct && c.option == ""
    ensures SelectClause(c) == "SELECT *"
  {
  }

  /** The clause texts do not depend on the unions. */
  lemma ClausesIgnoreUnions(c: Clauses, us: seq<UnionInfo>)
    ensures Statement(c.(unions := us)) == Statement(c)
  {
    var c' := c.(unions := us);
    assert SelectClause(c') == SelectClause(c) && FromClause(c') == FromClause(c);
    assert JoinClause(c') == JoinClause(c) && WhereClause(c') == WhereClause(c);
    assert GroupByClause(c') == GroupByClause(c) && HavingClause(c') == HavingClause(c);
    assert OrderByClause(c') == OrderByClause(c);
    assert LimitClause(c') == LimitClause(c) && OffsetClause(c') == OffsetClause(c);
    assert ClauseTexts(c') == ClauseTexts(c);
  }

  /** The first union parenthesises the statement rendered so far. */
  lemma FirstUnion(c: Clauses, u: UnionInfo)
    requires c.unions == []
    ensures BuildSql(c.(unions := [u])) == "(" + BuildSql(c) + ") " + UnionTerm(u)
  {
    ClausesIgnoreUnions(c, [u]);
    assert UnionTerms([u]) == [UnionTerm(u)];
  }

  /** Every further union is appended after the earlier ones. */
  lemma UnionAppend(c: Clauses, u: UnionInfo)
    requires c.unions != []
    ensures BuildSql(c.(unions := c.unions + [u])) == BuildSql(c) + " " + UnionTerm(u)
  {
    ClausesIgnoreUnions(c, c.unions + [u]);
    assert UnionTerms(c.unions + [u]) == UnionTerms(c.unions) + [UnionTerm(u)];
    JoinAppend(UnionTerms(c.unions), [UnionTerm(u)], " ");
  }

  /** Parameters are independent of the SQL text's clause order: bound
      parameters alone give exactly the bound map. */
  lemma BoundParamsOnly(c: Clauses)
    requires JoinParams(c.joins) == map[] && ExprParams(c.where) == map[]
    requires ExprParams(c.having) == map[] && UnionParams(c.unions) == map[]
    ensures BuildParams(c) == c.bound
  {
  }
}
