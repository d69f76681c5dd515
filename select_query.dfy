/** The fluent SELECT builder. Each method changes only the clause it names,
    either replacing or appending to it; `SQL()` and `Params()` render the
    current state, and the execution paths run the registered hooks around
    an abstract database operation. */
module SelectBuilder {
  import opened Values
  import opened Expressions
  import opened SelectSql
  import opened Hooks
  import opened Binder

  class SelectQuery {
    var selects: seq<string>
    var distinct: bool
    var option: string
    var from: seq<string>
    var joins: seq<JoinInfo>
    var where: Expr
    var groupBy: seq<string>
    var having: Expr
    var orderBy: seq<string>
    var limit: Option<nat>
    var offset: Option<nat>
    var bound: Params
    var unions: seq<UnionInfo>
    var execHooks: seq<ExecHook>
    var oneHooks: seq<BindHook>
    var allHooks: seq<BindHook>

    /** `db.Select(cols...)`. */
    constructor (cols: seq<string>)
      ensures Clauses() == Initial(cols)
      ensures execHooks == [] && oneHooks == [] && allHooks == []
    {
      selects, distinct, option, from, joins := cols, false, "", [], [];
      where, groupBy, having, orderBy := Nil, [], Nil, [];
      limit, offset, bound, unions := None, None, map[], [];
      execHooks, oneHooks, allHooks := [], [], [];
    }

    /** The clause state as a value. */
    function Clauses(): Clauses
      reads this
    {
      SelectSql.Clauses(selects, distinct, option, from, joins, where, groupBy, having,
                        orderBy, limit, offset, bound, unions)
    }

    /** The statement text: it opens with the SELECT clause, or with the
        parenthesised statement when unions are attached. */
    function SQL(): (r: string)
      reads this
      ensures unions == [] ==> SelectClause(Clauses()) <= r
      ensures unions != [] ==> "(" + Statement(Clauses()) + ") " <= r
    {
      BuildSql(Clauses())
    }

    /** The parameters: every clause's names, with the bound values winning. */
    function Params(): (r: Params)
      reads this
      ensures ExprParams(where).Keys + ExprParams(having).Keys + bound.Keys <= r.Keys
      ensures forall k :: k in bound ==> r[k] == bound[k]
    {
      BuildParams(Clauses())
    }

    method Select(cols: seq<string>)
      modifies this`selects
      ensures selects == cols
      ensures Clauses() == old(Clauses()).(selects := selects)
    {
      selects := cols;
    }

    method AndSelect(cols: seq<string>)
      modifies this`selects
      ensures selects == old(selects) + cols
      ensures Clauses() == old(Clauses()).(selects := selects)
    {
      selects := selects + cols;
    }

    method Distinct(b: bool)
      modifies this`distinct
      ensures distinct == b
      ensures Clauses() == old(Clauses()).(distinct := distinct)
    {
      distinct := b;
    }

    method SelectOption(s: string)
      modifies this`option
      ensures option == s
      ensures Clauses() == old(Clauses()).(option := option)
    {
      option := s;
    }

    method From(tables: seq<string>)
      modifies this`from
      ensures from == tables
      ensures Clauses() == old(Clauses()).(from := from)
    {
      from := tables;
    }

    method Where(e: Expr)
      modifies this`where
      ensures where == e
      ensures Clauses() == old(Clauses()).(where := where)
    {
      where := e;
    }

    method AndWhere(e: Expr)
      modifies this`where
      ensures where == Combine(AND, old(where), e)
      ensures Clauses() == old(Clauses()).(where := where)
    {
      where := Combine(AND, where, e);
    }

    method OrWhere(e: Expr)
      modifies this`where
      ensures where == Combine(OR, old(where), e)
      ensures Clauses() == old(Clauses()).(where := where)
    {
      where := Combine(OR, where, e);
    }

    method Join(kind: JoinKind, table: string, on: Expr)
      modifies this`joins
      ensures joins == old(joins) + [JoinInfo(kind, table, on)]
      ensures Clauses() == old(Clauses()).(joins := joins)
    {
      joins := joins + [JoinInfo(kind, table, on)];
    }

    method InnerJoin(table: string, on: Expr)
      modifies this`joins
      ensures joins == old(joins) + [JoinInfo(Inner, table, on)]
      ensures Clauses() == old(Clauses()).(joins := joins)
    {
      Join(Inner, table, on);
    }

    method LeftJoin(table: string, on: Expr)
      modifies this`joins
      ensures joins == old(joins) + [JoinInfo(Left, table, on)]
      ensures Clauses() == old(Clauses()).(joins := joins)
    {
      Join(Left, table, on);
    }

    method RightJoin(table: string, on: Expr)
      modifies this`joins
      ensures joins == old(joins) + [JoinInfo(Right, table, on)]
      ensures Clauses() == old(Clauses()).(joins := joins)
    {
      Join(Right, table, on);
    }

    method CrossJoin(table: string, on: Expr)
      modifies this`joins
      ensures joins == old(joins) + [JoinInfo(Cross, table, on)]
      ensures Clauses() == old(Clauses()).(joins := joins)
    {
      Join(Cross, table, on);
    }

    method OrderBy(cols: seq<string>)
      modifies this`orderBy
      ensures orderBy == cols
      ensures Clauses() == old(Clauses()).(orderBy := orderBy)
    {
      orderBy := cols;
    }

    method AndOrderBy(cols: seq<string>)
      modifies this`orderBy
      ensures orderBy == old(orderBy) + cols
      ensures Clauses() == old(Clauses()).(orderBy := orderBy)
    {
      orderBy := orderBy + cols;
    }

    method GroupBy(cols: seq<string>)
      modifies this`groupBy
      ensures groupBy == cols
      ensures Clauses() == old(Clauses()).(groupBy := groupBy)
    {
      groupBy := cols;
    }

    method AndGroupBy(cols: seq<string>)
      modifies this`groupBy
      ensures groupBy == old(groupBy) + cols
      ensures Clauses() == old(Clauses()).(groupBy := groupBy)
    {
      groupBy := groupBy + cols;
    }

    method Having(e: Expr)
      modifies this`having
      ensures having == e
      ensures Clauses() == old(Clauses()).(having := having)
    {
      having := e;
    }

    method AndHaving(e: Expr)
      modifies this`having
      ensures having == Combine(AND, old(having), e)
      ensures Clauses() == old(Clauses()).(having := having)
    {
      having := Combine(AND, having, e);
    }

    method OrHaving(e: Expr)
      modifies this`having
      ensures having == Combine(OR, old(having), e)
      ensures Clauses() == old(Clauses()).(having := having)
    {
      having := Combine(OR, having, e);
    }

    /** A negative limit removes the clause. */
    method Limit(n: int)
      modifies this`limit
      ensures limit == if n >= 0 then Some(n) else None
      ensures Clauses() == old(Clauses()).(limit := limit)
    {
      limit := if n >= 0 then Some(n) else None;
    }

    /** A negative offset removes the clause. */
    method Offset(n: int)
      modifies this`offset
      ensures offset == if n >= 0 then Some(n) else None
      ensures Clauses() == old(Clauses()).(offset := offset)
    {
      offset := if n >= 0 then Some(n) else None;
    }

    method Bind(p: Params)
      modifies this`bound
      ensures bound == p
      ensures Clauses() == old(Clauses()).(bound := bound)
    {
      bound := p;
    }

    /** Merges into the bound parameters; a later value wins on a clash. */
    method AndBind(p: Params)
      modifies this`bound
      ensures bound == old(bound) + p
      ensures bound.Keys == old(bound).Keys + p.Keys
      ensures Clauses() == old(Clauses()).(bound := bound)
    {
      bound := bound + p;
    }

    /** Appends `UNION (q)`; the text and parameters of `q` are taken now. */
    method Union(q: Query)
      modifies this`unions
      ensures unions == old(unions) + [UnionInfo(false, q.sql, q.params)]
      ensures Clauses() == old(Clauses()).(unions := unions)
    {
      unions := unions + [UnionInfo(false, q.sql, q.params)];
    }

    /** Appends `UNION ALL (q)`. */
    method UnionAll(q: Query)
      modifies this`unions
      ensures unions == old(unions) + [UnionInfo(true, q.sql, q.params)]
      ensures Clauses() == old(Clauses()).(unions := unions)
    {
      unions := unions + [UnionInfo(true, q.sql, q.params)];
    }

    /** The built statement; building changes nothing, so the builder can go
        on being changed and built again. */
    method Build() returns (q: Query)
      ensures q.sql == SQL() && q.params == Params()
    {
      q := Query(SQL(), Params());
    }

    method WithExecHook(h: ExecHook)
      modifies this`execHooks
      ensures execHooks == old(execHooks) + [h]
    {
      execHooks := execHooks + [h];
    }

    method WithOneHook(h: BindHook)
      modifies this`oneHooks
      ensures oneHooks == old(oneHooks) + [h]
    {
      oneHooks := oneHooks + [h];
    }

    method WithAllHook(h: BindHook)
      modifies this`allHooks
      ensures allHooks == old(allHooks) + [h]
    {
      allHooks := allHooks + [h];
    }

    /** `Row`, `Rows` and `Column`: the Exec hooks around one execution whose
        status is `exec`. One/All hooks play no part. */
    method Execute(exec: Status) returns (out: Outcome)
      ensures out == ExecChain(execHooks, Outcome([OpCalled(NoTarget)], exec))
    {
      out := Invoke(execHooks, [], NoTarget, _ => exec);
    }

    /** `One(dest)`: the Exec hooks around the One hooks around binding the
        first row through `op`. */
    method One(dest: Target, op: Target -> Status) returns (out: Outcome)
      ensures out == Run(execHooks, oneHooks, dest, op)
    {
      out := Invoke(execHooks, oneHooks, dest, op);
    }

    /** `All(dest)`: the Exec hooks around the All hooks around binding every
        row through `op`. */
    method All(dest: Target, op: Target -> Status) returns (out: Outcome)
      ensures out == Run(execHooks, allHooks, dest, op)
    {
      out := Invoke(execHooks, allHooks, dest, op);
    }

    /** `Model(pk, dest)`: a destination error is returned before any hook
        runs; otherwise the lookup goes through the One path, whose operation
        binds the first row of the result window (WHERE filter AND key,
        then OFFSET and LIMIT). `bound` is the row bound, into whichever
        destination the One hooks pass on, or `None` when nothing is bound. */
    method Model(pk: Value, dest: Destination, rows: seq<Row>, sem: RawSemantics)
      returns (out: Outcome, bound: Option<Row>)
      ensures PrimaryKeyColumn(dest.shape).Failure?
              ==> out == Outcome([], Err(PrimaryKeyColumn(dest.shape).error)) && bound == None
      ensures PrimaryKeyColumn(dest.shape).Success?
              ==> out == Run(execHooks, oneHooks, Into(dest.name),
                             Always(StatusOf(ModelLookup(where, pk, dest.shape, rows, sem, limit, offset))))
      ensures PrimaryKeyColumn(dest.shape).Success?
              ==> (bound.Some?
                   <==> (forall i :: 0 <= i < |execHooks| ==> execHooks[i].action.ExecProceed?)
                        && (forall i :: 0 <= i < |oneHooks| ==> oneHooks[i].action.BindProceed?)
                        && ModelLookup(where, pk, dest.shape, rows, sem, limit, offset).Success?)
      ensures bound.Some? ==> bound.value == ModelLookup(where, pk, dest.shape, rows, sem, limit, offset).value
    {
      var found := ModelLookup(where, pk, dest.shape, rows, sem, limit, offset);
      match PrimaryKeyColumn(dest.shape) {
        case Failure(e) =>
          out, bound := Outcome([], Err(e)), None;
        case Success(col) =>
          out := One(Into(dest.name), Always(StatusOf(found)));
          RunInvokesOp(execHooks, oneHooks, Into(dest.name), Always(StatusOf(found)));
          bound := if found.Success? && OpInvoked(out.trace) then Some(found.value) else None;
      }
    }
  }

  /** The operation that ends with `s` whatever the destination. */
  function Always(s: Status): Target -> Status
  {
    _ => s
  }
}
