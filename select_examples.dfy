/** The scenarios of select_test.go, replayed on the model: the exact SQL
    text and parameter counts of TestSelectQuery, the error and ordering
    cases of the hook tests, and the `Model` cases of TestSelectQuery_Model. */
module SelectExamples {
  import opened Values
  import opened Text
  import opened Quoting
  import opened Expressions
  import opened SelectSql
  import opened Hooks
  import opened Binder
  import opened SelectBuilder

  lemma Quote1(a: string)
    requires IsPlain(a)
    ensures ColumnList([a]) == "`" + a + "`"
  {
    assert QuoteAll([a]) == ["`" + a + "`"];
  }

  lemma Quote2(a: string, b: string)
    requires IsPlain(a) && IsPlain(b)
    ensures ColumnList([a, b]) == "`" + a + "`, `" + b + "`"
  {
    assert QuoteAll([a, b]) == ["`" + a + "`", "`" + b + "`"];
    Join2("`" + a + "`", "`" + b + "`", ", ");
  }

  lemma Quote3(a: string, b: string, c: string)
    requires IsPlain(a) && IsPlain(b) && IsPlain(c)
    ensures ColumnList([a, b, c]) == "`" + a + "`, `" + b + "`, `" + c + "`"
  {
    assert QuoteAll([a, b, c]) == ["`" + a + "`", "`" + b + "`", "`" + c + "`"];
    Join3("`" + a + "`", "`" + b + "`", "`" + c + "`", ", ");
  }

  /** `Select().From(table)` with nothing else renders `SELECT * FROM` and
      the quoted table. */
  lemma StarFrom(c: Clauses, table: string)
    requires c == Initial([]).(from := [table]) && IsPlain(table)
    ensures BuildSql(c) == "SELECT * FROM `" + table + "`"
  {
    EmptyClausesOmitted(c);
    SelectStar(c);
    Quote1(table);
    StarFromText(table);
  }

  lemma StarFromText(table: string)
    ensures "SELECT *" + " " + ("FROM " + ("`" + table + "`")) == "SELECT * FROM `" + table + "`"
  {
    assert "SELECT *" + " " + "FROM " + "`" == "SELECT * FROM `";
  }

  lemma UsersText()
    ensures "SELECT * FROM `" + "users" + "`" == "SELECT * FROM `users`"
  {
  }

  /** `Select().From("users")` renders `SELECT * FROM` the quoted table and
      has no parameters. */
  lemma MinimalRendering(c: Clauses)
    requires c == Initial([]).(from := ["users"])
    ensures BuildSql(c) == "SELECT * FROM `users`"
    ensures BuildParams(c) == map[]
  {
    StarFrom(c, "users");
    UsersText();
    BoundParamsOnly(c);
  }

  /** `Select().From("users")`. */
  method MinimalSelect() returns (q: Query)
    ensures q.sql == "SELECT * FROM `users`"
    ensures |q.params| == 0
  {
    var s := new SelectQuery([]);
    s.From(["users"]);
    ghost var c := s.Clauses();
    assert c == Initial([]).(from := ["users"]);
    q := s.Build();
    MinimalRendering(c);
  }

  /** The clause state the full statement of TestSelectQuery builds. */
  predicate IsFull(c: Clauses)
  {
    && c.selects == ["id", "name", "age"] && c.distinct && c.option == "CALC" && c.from == ["users"]
    && c.joins == [JoinInfo(Inner, "profile", Raw("user.id=profile.id", map[])),
                   JoinInfo(Left, "team", Nil), JoinInfo(Right, "dept", Nil)]
    && c.where == Compound(OR, Compound(AND, Raw("age>30", map[]), Raw("status=1", map[])), Raw("type=2", map[]))
    && c.groupBy == ["id", "age"]
    && c.having == Compound(OR, Compound(AND, Raw("id>10", map[]), Raw("id<20", map[])), Raw("type=3", map[]))
    && c.orderBy == ["age DESC", "type", "id"]
    && c.limit == Some(10) && c.offset == Some(20)
    && c.bound == map["id" := Int(1)] + map["age" := Int(30)]
    && c.unions == []
  }

  const FullSql: string :=
    "SELECT DISTINCT CALC `id`, `name`, `age`" + " " + "FROM `users`" + " "
    + "INNER JOIN `profile` ON user.id=profile.id LEFT JOIN `team` RIGHT JOIN `dept`" + " "
    + "WHERE ((age>30) AND (status=1)) OR (type=2)" + " " + "GROUP BY `id`, `age`" + " "
    + "HAVING ((id>10) AND (id<20)) OR (type=3)" + " " + "ORDER BY `age` DESC, `type`, `id`" + " "
    + "LIMIT 10" + " " + "OFFSET 20"

  lemma FullSelectClause(c: Clauses)
    requires c.selects == ["id", "name", "age"] && c.distinct && c.option == "CALC"
    ensures SelectClause(c) == "SELECT DISTINCT CALC `id`, `name`, `age`"
  {
    Quote3("id", "name", "age");
    SelectText();
  }

  lemma SelectText()
    ensures "SELECT " + "DISTINCT " + ("CALC" + " ") + ("`" + "id" + "`, `" + "name" + "`, `" + "age" + "`")
            == "SELECT DISTINCT CALC `id`, `name`, `age`"
  {
  }

  lemma FullFromClause(c: Clauses)
    requires c.from == ["users"]
    ensures FromClause(c) == "FROM `users`"
  {
    Quote1("users");
  }

  lemma JoinTermOn(kind: JoinKind, table: string, on: string)
    requires IsPlain(table) && on != ""
    ensures JoinTerm(JoinInfo(kind, table, Raw(on, map[]))) == KindWord(kind) + " `" + table + "` ON " + on
  {
  }

  lemma JoinTermBare(kind: JoinKind, table: string)
    requires IsPlain(table)
    ensures JoinTerm(JoinInfo(kind, table, Nil)) == KindWord(kind) + " `" + table + "`"
  {
  }

  lemma InnerJoinText()
    ensures "INNER JOIN" + " `" + "profile" + "` ON " + "user.id=profile.id" == "INNER JOIN `profile` ON user.id=profile.id"
  {
  }

  lemma OuterJoinTexts()
    ensures "LEFT JOIN" + " `" + "team" + "`" == "LEFT JOIN `team`"
    ensures "RIGHT JOIN" + " `" + "dept" + "`" == "RIGHT JOIN `dept`"
  {
  }

  lemma JoinsText()
    ensures "INNER JOIN `profile` ON user.id=profile.id" + " " + "LEFT JOIN `team`" + " " + "RIGHT JOIN `dept`"
            == "INNER JOIN `profile` ON user.id=profile.id LEFT JOIN `team` RIGHT JOIN `dept`"
  {
  }

  lemma FullJoinClause(c: Clauses)
    requires c.joins == [JoinInfo(Inner, "profile", Raw("user.id=profile.id", map[])),
                         JoinInfo(Left, "team", Nil), JoinInfo(Right, "dept", Nil)]
    ensures JoinClause(c) == "INNER JOIN `profile` ON user.id=profile.id LEFT JOIN `team` RIGHT JOIN `dept`"
  {
    var on := "user.id=profile.id";
    assert |on| > 0;
    JoinTermOn(Inner, "profile", on);
    JoinTermBare(Left, "team");
    JoinTermBare(Right, "dept");
    InnerJoinText();
    OuterJoinTexts();
    JoinsText();
    var t0, t1, t2 := "INNER JOIN `profile` ON user.id=profile.id", "LEFT JOIN `team`", "RIGHT JOIN `dept`";
    assert JoinTerms(c.joins) == [t0, t1, t2];
    Join3(t0, t1, t2, " ");
  }

  lemma WhereText()
    ensures Render(Combine(OR, Combine(AND, Raw("age>30", map[]), Raw("status=1", map[])), Raw("type=2", map[])))
            == "((age>30) AND (status=1)) OR (type=2)"
  {
    var a, b, d := "age>30", "status=1", "type=2";
    assert |a| > 0 && |b| > 0 && |d| > 0;
    WhereAndOr(a, b, d, map[], map[], map[]);
    WhereLiteral();
  }

  lemma WhereLiteral()
    ensures "((" + "age>30" + ") AND (" + "status=1" + ")) OR (" + "type=2" + ")"
            == "((age>30) AND (status=1)) OR (type=2)"
  {
  }

  lemma WherePrefix()
    ensures "WHERE " + "((age>30) AND (status=1)) OR (type=2)" == "WHERE ((age>30) AND (status=1)) OR (type=2)"
  {
  }

  lemma FullWhereClause(c: Clauses)
    requires c.where == Compound(OR, Compound(AND, Raw("age>30", map[]), Raw("status=1", map[])), Raw("type=2", map[]))
    ensures WhereClause(c) == "WHERE ((age>30) AND (status=1)) OR (type=2)"
  {
    WhereText();
    assert c.where == Combine(OR, Combine(AND, Raw("age>30", map[]), Raw("status=1", map[])), Raw("type=2", map[]));
    var w := "((age>30) AND (status=1)) OR (type=2)";
    assert Render(c.where) == w;
    WherePrefix();
  }

  lemma HavingText()
    ensures Render(Combine(OR, Combine(AND, Raw("id>10", map[]), Raw("id<20", map[])), Raw("type=3", map[])))
            == "((id>10) AND (id<20)) OR (type=3)"
  {
    var a, b, d := "id>10", "id<20", "type=3";
    assert |a| > 0 && |b| > 0 && |d| > 0;
    WhereAndOr(a, b, d, map[], map[], map[]);
    HavingLiteral();
  }

  lemma HavingLiteral()
    ensures "((" + "id>10" + ") AND (" + "id<20" + ")) OR (" + "type=3" + ")"
            == "((id>10) AND (id<20)) OR (type=3)"
  {
  }

  lemma HavingPrefix()
    ensures "HAVING " + "((id>10) AND (id<20)) OR (type=3)" == "HAVING ((id>10) AND (id<20)) OR (type=3)"
  {
  }

  lemma FullHavingClause(c: Clauses)
    requires c.having == Compound(OR, Compound(AND, Raw("id>10", map[]), Raw("id<20", map[])), Raw("type=3", map[]))
    ensures HavingClause(c) == "HAVING ((id>10) AND (id<20)) OR (type=3)"
  {
    HavingText();
    assert c.having == Combine(OR, Combine(AND, Raw("id>10", map[]), Raw("id<20", map[])), Raw("type=3", map[]));
    var h := "((id>10) AND (id<20)) OR (type=3)";
    assert Render(c.having) == h;
    HavingPrefix();
  }

  lemma FullGroupByClause(c: Clauses)
    requires c.groupBy == ["id", "age"]
    ensures GroupByClause(c) == "GROUP BY `id`, `age`"
  {
    Quote2("id", "age");
  }

  lemma AgeDescTerm()
    ensures OrderTerm("age DESC") == "`age` DESC"
  {
    assert IsDirection("DESC");
    AgeDescText();
    OrderTermWithDirection("age", "DESC");
  }

  lemma AgeDescText()
    ensures "age" + " " + "DESC" == "age DESC"
    ensures "`" + "age" + "`" + " " + "DESC" == "`age` DESC"
  {
  }

  lemma PlainTerm(n: string)
    requires IsPlain(n) && forall i :: 0 <= i < |n| ==> !IsSpace(n[i])
    ensures OrderTerm(n) == "`" + n + "`"
  {
  }

  lemma OrderByText()
    ensures "ORDER BY " + ("`age` DESC" + ", " + "`type`" + ", " + "`id`") == "ORDER BY `age` DESC, `type`, `id`"
  {
  }

  /** Three ORDER BY terms, comma-separated after the keyword. */
  lemma OrderByThree(c: Clauses, t0: string, t1: string, t2: string)
    requires |c.orderBy| == 3
    requires OrderTerm(c.orderBy[0]) == t0 && OrderTerm(c.orderBy[1]) == t1 && OrderTerm(c.orderBy[2]) == t2
    ensures OrderByClause(c) == "ORDER BY " + (t0 + ", " + t1 + ", " + t2)
  {
    var r := OrderTerms(c.orderBy);
    assert r == [t0, t1, t2];
    Join3(t0, t1, t2, ", ");
  }

  lemma TypeTerm()
    ensures OrderTerm("type") == "`type`"
  {
    var n := "type";
    assert forall i :: 0 <= i < |n| ==> !IsSpace(n[i]);
    PlainTerm(n);
    TypeQuoted();
  }

  lemma TypeQuoted()
    ensures "`" + "type" + "`" == "`type`"
  {
  }

  lemma IdTerm()
    ensures OrderTerm("id") == "`id`"
  {
    var n := "id";
    assert forall i :: 0 <= i < |n| ==> !IsSpace(n[i]);
    PlainTerm(n);
    IdQuoted();
  }

  lemma IdQuoted()
    ensures "`" + "id" + "`" == "`id`"
  {
  }

  lemma FullOrderByClause(c: Clauses)
    requires c.orderBy == ["age DESC", "type", "id"]
    ensures OrderByClause(c) == "ORDER BY `age` DESC, `type`, `id`"
  {
    AgeDescTerm();
    TypeTerm();
    IdTerm();
    OrderByThree(c, "`age` DESC", "`type`", "`id`");
    OrderByText();
  }

  lemma FullPaging(c: Clauses)
    requires c.limit == Some(10) && c.offset == Some(20)
    ensures LimitClause(c) == "LIMIT 10"
    ensures OffsetClause(c) == "OFFSET 20"
  {
    assert NatToString(10) == "10";
    assert NatToString(20) == "20";
  }

  lemma FullHead(c: Clauses)
    requires IsFull(c)
    ensures SelectClause(c) == "SELECT DISTINCT CALC `id`, `name`, `age`"
    ensures FromClause(c) == "FROM `users`"
    ensures JoinClause(c) == "INNER JOIN `profile` ON user.id=profile.id LEFT JOIN `team` RIGHT JOIN `dept`"
  {
    FullSelectClause(c);
    FullFromClause(c);
    FullJoinClause(c);
  }

  lemma FullFilters(c: Clauses)
    requires IsFull(c)
    ensures WhereClause(c) == "WHERE ((age>30) AND (status=1)) OR (type=2)"
    ensures GroupByClause(c) == "GROUP BY `id`, `age`"
    ensures HavingClause(c) == "HAVING ((id>10) AND (id<20)) OR (type=3)"
  {
    FullWhereClause(c);
    FullGroupByClause(c);
    FullHavingClause(c);
  }

  lemma FullTail(c: Clauses)
    requires IsFull(c)
    ensures OrderByClause(c) == "ORDER BY `age` DESC, `type`, `id`"
    ensures LimitClause(c) == "LIMIT 10" && OffsetClause(c) == "OFFSET 20"
  {
    FullOrderByClause(c);
    FullPaging(c);
  }

  /** The full statement of TestSelectQuery: every clause present, in order. */
  lemma FullRendering(c: Clauses)
    requires IsFull(c)
    ensures BuildSql(c) == FullSql
  {
    FullHead(c);
    FullFilters(c);
    FullTail(c);
    AllClausesPresent(c);
  }

  /** Its parameters: the two bound ones; the filters carry none. */
  lemma FullParams(c: Clauses)
    requires IsFull(c)
    ensures BuildParams(c) == map["id" := Int(1), "age" := Int(30)]
    ensures |BuildParams(c)| == 2
  {
    var j := c.joins;
    assert j[1..][1..][1..] == [];
    assert JoinParams(j[1..][1..][1..]) == map[];
    assert JoinParams(j[1..][1..]) == map[];
    assert JoinParams(j[1..]) == map[];
    assert JoinParams(j) == map[];
    assert ExprParams(c.where) == map[] && ExprParams(c.having) == map[];
    BoundParamsOnly(c);
    assert BuildParams(c).Keys == {"id", "age"};
  }

  /** The fluent chain of the full statement, call by call, in three
      stretches: the columns and joins, the filters and orderings, then the
      paging and the bound parameters. */
  method ChainColumns(s: SelectQuery)
    requires s.selects == ["id", "name"]
    modifies s`selects, s`distinct, s`option, s`from, s`joins
    ensures s.selects == ["id", "name", "age"] && s.distinct && s.option == "CALC" && s.from == ["users"]
    ensures s.joins == old(s.joins) + [JoinInfo(Inner, "profile", Raw("user.id=profile.id", map[])),
                                       JoinInfo(Left, "team", Nil), JoinInfo(Right, "dept", Nil)]
  {
    s.AndSelect(["age"]);
    s.Distinct(true);
    s.SelectOption("CALC");
    s.From(["users"]);
    s.InnerJoin("profile", Raw("user.id=profile.id", map[]));
    s.LeftJoin("team", Nil);
    s.RightJoin("dept", Nil);
  }

  method ChainFilters(s: SelectQuery)
    modifies s`where, s`having, s`groupBy, s`orderBy
    ensures s.where == Compound(OR, Compound(AND, Raw("age>30", map[]), Raw("status=1", map[])), Raw("type=2", map[]))
    ensures s.having == Compound(OR, Compound(AND, Raw("id>10", map[]), Raw("id<20", map[])), Raw("type=3", map[]))
    ensures s.orderBy == ["age DESC", "type", "id"] && s.groupBy == ["id", "age"]
  {
    s.Where(Raw("age>30", map[]));
    s.AndWhere(Raw("status=1", map[]));
    s.OrWhere(Raw("type=2", map[]));
    s.OrderBy(["age DESC", "type"]);
    s.AndOrderBy(["id"]);
    s.GroupBy(["id"]);
    s.AndGroupBy(["age"]);
    s.Having(Raw("id>10", map[]));
    s.AndHaving(Raw("id<20", map[]));
    s.OrHaving(Raw("type=3", map[]));
  }

  method ChainPaging(s: SelectQuery)
    modifies s`limit, s`offset, s`bound
    ensures s.limit == Some(10) && s.offset == Some(20)
    ensures s.bound == map["id" := Int(1)] + map["age" := Int(30)]
  {
    s.Limit(10);
    s.Offset(20);
    s.Bind(map["id" := Int(1)]);
    s.AndBind(map["age" := Int(30)]);
  }

  /** The whole chain, from `Select("id", "name")` on. */
  method FullChain() returns (s: SelectQuery)
    ensures IsFull(s.Clauses())
  {
    s := new SelectQuery(["id", "name"]);
    ChainColumns(s);
    ChainFilters(s);
    ChainPaging(s);
  }

  /** The full statement of TestSelectQuery, its text and its two parameters. */
  method FullSelect() returns (q: Query)
    ensures q.sql == FullSql
    ensures |q.params| == 2
  {
    var s := FullChain();
    ghost var c := s.Clauses();
    q := s.Build();
    FullRendering(c);
    FullParams(c);
  }

  /** `AndBind` on a fresh query starts the parameter map. */
  method AndBindOnFreshQuery() returns (q: Query)
    ensures q.params == map["id" := Int(1)]
    ensures |q.params| == 1
  {
    var s := new SelectQuery([]);
    s.AndBind(map["id" := Int(1)]);
    ghost var c := s.Clauses();
    assert c == Initial([]).(bound := map["id" := Int(1)]);
    q := s.Build();
    BoundParamsOnly(c);
    assert q.params.Keys == {"id"};
  }

  lemma UnionPieces()
    ensures "(" + ("SELECT * FROM `" + "profiles" + "`") + ") " == "(SELECT * FROM `profiles`) "
    ensures "UNION" + " (" + ("SELECT * FROM `" + "users" + "`") + ")" == "UNION (SELECT * FROM `users`)"
  {
  }

  lemma UnionAllPiece()
    ensures "UNION ALL" + " (" + ("SELECT * FROM `" + "posts" + "`") + ")" == "UNION ALL (SELECT * FROM `posts`)"
  {
  }

  /** `Select().From(table)` on a fresh builder, built. */
  method StarQuery(table: string) returns (q: Query)
    requires IsPlain(table)
    ensures q.sql == "SELECT * FROM `" + table + "`" && q.params == map[]
  {
    var s := new SelectQuery([]);
    s.From([table]);
    ghost var c := s.Clauses();
    assert c == Initial([]).(from := [table]);
    q := s.Build();
    StarFrom(c, table);
    BoundParamsOnly(c);
  }

  /** The text of `Select().From("profiles").Union(q1).UnionAll(q2)` for
      the two sub-queries of TestSelectQuery. */
  lemma UnionRendering(base: Clauses, q1: Query, q2: Query)
    requires base == Initial([]).(from := ["profiles"])
    requires q1.sql == "SELECT * FROM `" + "users" + "`" && q2.sql == "SELECT * FROM `" + "posts" + "`"
    ensures BuildSql(base.(unions := [UnionInfo(false, q1.sql, q1.params), UnionInfo(true, q2.sql, q2.params)]))
            == "(SELECT * FROM `profiles`) "
               + ("UNION (SELECT * FROM `users`)" + " " + "UNION ALL (SELECT * FROM `posts`)")
  {
    var u1, u2 := UnionInfo(false, q1.sql, q1.params), UnionInfo(true, q2.sql, q2.params);
    StarFrom(base, "profiles");
    ClausesIgnoreUnions(base, [u1, u2]);
    assert UnionTerms([u1, u2]) == [UnionTerm(u1), UnionTerm(u2)];
    Join2(UnionTerm(u1), UnionTerm(u2), " ");
    UnionPieces();
    UnionAllPiece();
  }

  /** `Select().From("profiles").Union(q1).UnionAll(q2)`. */
  method UnionSelect() returns (q: Query)
    ensures q.sql == "(SELECT * FROM `profiles`) "
                     + ("UNION (SELECT * FROM `users`)" + " " + "UNION ALL (SELECT * FROM `posts`)")
  {
    var q1 := StarQuery("users");
    var q2 := StarQuery("posts");
    var s := new SelectQuery([]);
    s.From(["profiles"]);
    ghost var base := s.Clauses();
    s.Union(q1);
    s.UnionAll(q2);
    assert s.Clauses() == base.(unions := [UnionInfo(false, q1.sql, q1.params), UnionInfo(true, q2.sql, q2.params)]);
    q := s.Build();
    UnionRendering(base, q1, q2);
  }

  /** A union keeps the text the sub-query had when it was appended: later
      changes to the sub-query's builder do not reach it. */
  method UnionTakesSnapshot() returns (before: string, after: string)
    ensures before == after
  {
    var sub := new SelectQuery([]);
    sub.From(["users"]);
    var s := new SelectQuery([]);
    s.From(["profiles"]);
    var q1 := sub.Build();
    s.Union(q1);
    before := s.SQL();
    sub.From(["posts"]);
    sub.Where(Raw("id=1", map[]));
    after := s.SQL();
  }

  /** `Select(a...).AndSelect(b...)` renders as `Select(a..., b...)`. */
  method AndSelectAppends(a: seq<string>, b: seq<string>) returns (split: string, whole: string)
    ensures split == whole
  {
    var s1 := new SelectQuery(a);
    s1.AndSelect(b);
    var s2 := new SelectQuery(a + b);
    split := s1.SQL();
    whole := s2.SQL();
  }

  /** A hook that returns an error without calling on: the caller gets that
      error, on every path. */
  method HookErrors(exec: Status, op: Target -> Status) returns (row: Outcome, one: Outcome, all: Outcome)
    ensures row.status == Err(HookError("test"))
    ensures one.status == Err(HookError("test"))
    ensures all.status == Err(HookError("test"))
    ensures !OpInvoked(row.trace) && !OpInvoked(one.trace) && !OpInvoked(all.trace)
  {
    var s := new SelectQuery([]);
    s.WithExecHook(Hook("exec", ExecAbort(HookError("test"))));
    row := s.Execute(exec);
    var s1 := new SelectQuery([]);
    s1.WithOneHook(Hook("one", BindAbort(HookError("test"))));
    one := s1.One(NoTarget, op);
    var s2 := new SelectQuery([]);
    s2.WithAllHook(Hook("all", BindAbort(HookError("test"))));
    all := s2.All(NoTarget, op);
  }

  /** An Exec hook that returns nil without calling on is invoked once, the
      caller gets nil, and nothing is executed, on Row, Rows, One(nil),
      All(nil) and Column(nil) alike. */
  method ExecHookReturnsNil(exec: Status, op: Target -> Status) returns (row: Outcome, one: Outcome, all: Outcome)
    ensures row == Outcome([HookCalled("calls")], Ok)
    ensures one == Outcome([HookCalled("calls")], Ok)
    ensures all == Outcome([HookCalled("calls")], Ok)
  {
    var s := new SelectQuery([]);
    s.WithExecHook(Hook("calls", ExecReturn));
    row := s.Execute(exec);
    one := s.One(NoTarget, op);
    all := s.All(NoTarget, op);
  }

  /** An Exec hook that calls on and a One (All) hook that returns nil: the
      trace is exactly ["exec", "one"] (["exec", "all"]). */
  method HookCallOrder(op: Target -> Status) returns (one: Outcome, all: Outcome)
    ensures one == Outcome([HookCalled("exec"), HookCalled("one")], Ok)
    ensures all == Outcome([HookCalled("exec"), HookCalled("all")], Ok)
  {
    var s := new SelectQuery([]);
    s.WithExecHook(Hook("exec", ExecProceed));
    s.WithOneHook(Hook("one", BindReturn));
    assert s.execHooks == [Hook("exec", ExecProceed)] && s.oneHooks == [Hook("one", BindReturn)];
    one := s.One(NoTarget, op);
    ExecThenBindReturn("exec", "one", NoTarget, op);
    var s2 := new SelectQuery([]);
    s2.WithExecHook(Hook("exec", ExecProceed));
    s2.WithAllHook(Hook("all", BindReturn));
    assert s2.execHooks == [Hook("exec", ExecProceed)] && s2.allHooks == [Hook("all", BindReturn)];
    all := s2.All(NoTarget, op);
    ExecThenBindReturn("exec", "all", NoTarget, op);
  }

  lemma ExecThenBindReturn(e: string, b: string, target: Target, op: Target -> Status)
    ensures Run([Hook(e, ExecProceed)], [Hook(b, BindReturn)], target, op)
            == Outcome([HookCalled(e), HookCalled(b)], Ok)
  {
    var inner := BindChain([Hook(b, BindReturn)], target, op);
    assert inner == Outcome([HookCalled(b)], Ok);
    var hooks := [Hook(e, ExecProceed)];
    assert hooks[1..] == [];
    assert ExecChain(hooks[1..], inner) == inner;
    assert ExecChain(hooks, inner) == Prepend([HookCalled(e)], inner);
    assert [HookCalled(e)] + [HookCalled(b)] == [HookCalled(e), HookCalled(b)];
  }

  /** An Exec hook that calls on around Row(): it is invoked once and the
      statement runs once, with its status returned. */
  method ExecHookCallsOp(exec: Status) returns (row: Outcome)
    ensures row == Outcome([HookCalled("calls"), OpCalled(NoTarget)], exec)
  {
    var s := new SelectQuery(["id"]);
    s.WithExecHook(Hook("calls", ExecProceed));
    row := s.Execute(exec);
    assert [Hook("calls", ExecProceed)][1..] == [];
  }

  /** A One or All hook that calls on with its own destination: the rows are
      bound there instead of into the caller's. */
  method BindHookCallsOp(op: Target -> Status) returns (one: Outcome, all: Outcome)
    ensures one == Outcome([HookCalled("calls"), OpCalled(Into("other"))], op(Into("other")))
    ensures all == Outcome([HookCalled("calls"), OpCalled(Into("others"))], op(Into("others")))
  {
    var s1 := new SelectQuery(["id"]);
    s1.WithOneHook(Hook("calls", BindProceed(Some(Into("other")))));
    assert s1.execHooks == [] && s1.oneHooks == [Hook("calls", BindProceed(Some(Into("other"))))];
    one := s1.One(NoTarget, op);
    SubstitutingHook("calls", Into("other"), NoTarget, op);
    var s2 := new SelectQuery(["id"]);
    s2.WithAllHook(Hook("calls", BindProceed(Some(Into("others")))));
    assert s2.execHooks == [] && s2.allHooks == [Hook("calls", BindProceed(Some(Into("others"))))];
    all := s2.All(NoTarget, op);
    SubstitutingHook("calls", Into("others"), NoTarget, op);
  }

  /** A single One/All hook that calls on with destination `other`. */
  lemma SubstitutingHook(name: string, other: Target, target: Target, op: Target -> Status)
    ensures Run([], [Hook(name, BindProceed(Some(other)))], target, op)
            == Outcome([HookCalled(name), OpCalled(other)], op(other))
  {
    var hooks := [Hook(name, BindProceed(Some(other)))];
    assert hooks[1..] == [];
    assert BindChain(hooks[1..], other, op) == Outcome([OpCalled(other)], op(other));
    assert [HookCalled(name)] + [OpCalled(other)] == [HookCalled(name), OpCalled(other)];
  }

  /** The customer table of the test database, by id. */
  function Customers(): seq<Row>
  {
    [map["id" := Int(1), "email" := Str("user1@example.com")],
     map["id" := Int(2), "email" := Str("user2@example.com")],
     map["id" := Int(3), "email" := Str("user3@example.com")]]
  }

  /** How the database reads the two filters `id=1` and `id=2`. */
  predicate IdFilter(text: string, row: Row)
  {
    "id" in row
    && ((text == "id=1" && row["id"] == Int(1)) || (text == "id=2" && row["id"] == Int(2)))
  }

  /** `Where(id=1).Model(2, &customer)` finds no row; `Where(id=2).Model(2, ...)`
      binds customer 2. */
  method ModelCases(sem: RawSemantics) returns (conflict: Outcome, conflictRow: Option<Row>,
                                                agree: Outcome, agreeRow: Option<Row>)
    requires sem == ((t, row) => IdFilter(t, row))
    ensures conflict == Outcome([OpCalled(Into("customer"))], Err(ErrNoRows)) && conflictRow == None
    ensures agree == Outcome([OpCalled(Into("customer"))], Ok)
    ensures agreeRow == Some(Customers()[1]) && agreeRow.value["email"] == Str("user2@example.com")
  {
    var customer := Destination("customer", StructPointer(["id"]));
    var s := new SelectQuery([]);
    s.Where(Raw("id=1", map[]));
    ModelWhereConflict(Raw("id=1", map[]), "id", Int(1), Int(2), Customers(), sem, None, None);
    conflict, conflictRow := s.Model(Int(2), customer, Customers(), sem);
    var s2 := new SelectQuery([]);
    s2.Where(Raw("id=2", map[]));
    ModelFindsKey(Raw("id=2", map[]), "id", Int(2), Customers(), sem, 1);
    agree, agreeRow := s2.Model(Int(2), customer, Customers(), sem);
  }

  /** The destination errors come before any lookup and bind nothing. */
  method ModelDestinationErrors(sem: RawSemantics) returns (notStruct: Outcome, noPk: Outcome, twoPks: Outcome)
    ensures notStruct == Outcome([], Err(VarTypeError("must be a pointer to a struct")))
    ensures noPk == Outcome([], Err(MissingPKError))
    ensures twoPks == Outcome([], Err(CompositePKError))
  {
    var s := new SelectQuery([]);
    var row: Option<Row>;
    notStruct, row := s.Model(Int(1), Destination("i", NotStructPointer), Customers(), sem);
    noPk, row := s.Model(Int(1), Destination("a", StructPointer([])), Customers(), sem);
    twoPks, row := s.Model(Int(1), Destination("b", StructPointer(["ID1", "ID2"])), Customers(), sem);
  }

  /** `Model(2, &customer)` with no WHERE binds customer 2. */
  method ModelWithoutWhere(sem: RawSemantics) returns (out: Outcome, row: Option<Row>)
    ensures out == Outcome([OpCalled(Into("customer"))], Ok)
    ensures row == Some(Customers()[1]) && row.value["email"] == Str("user2@example.com")
  {
    var s := new SelectQuery([]);
    ModelFindsKey(Nil, "id", Int(2), Customers(), sem, 1);
    out, row := s.Model(Int(2), Destination("customer", StructPointer(["id"])), Customers(), sem);
  }

  /** `Limit(0).Model(2, &customer)`: the statement returns no row, so
      nothing is bound even though customer 2 exists. */
  method ModelWithLimitZero(sem: RawSemantics) returns (out: Outcome, row: Option<Row>)
    ensures out == Outcome([OpCalled(Into("customer"))], Err(ErrNoRows)) && row == None
  {
    var s := new SelectQuery([]);
    s.Limit(0);
    out, row := s.Model(Int(2), Destination("customer", StructPointer(["id"])), Customers(), sem);
  }
}
