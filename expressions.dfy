/** Filter expressions of WHERE, HAVING and JOIN ... ON: a raw SQL fragment
    with its own parameters, a binary AND/OR combination, or no filter. */
module Expressions {
  import opened Values

  datatype Connector = AND | OR

  datatype Expr =
    | Nil
    | Raw(text: string, params: Params)
    | Compound(conn: Connector, left: Expr, right: Expr)

  function Word(c: Connector): string
  {
    match c
    case AND => "AND"
    case OR => "OR"
  }

  /** An expression with no text at all: it renders to nothing. */
  predicate Vacuous(e: Expr)
  {
    match e
    case Nil => true
    case Raw(t, _) => t == ""
    case Compound(_, lhs, rhs) => Vacuous(lhs) && Vacuous(rhs)
  }

  /** The SQL text of an expression. An operand that renders empty is
      dropped; two non-empty operands are each parenthesised and joined by
      the connector. Raw text is never quoted or altered. */
  function Render(e: Expr): (r: string)
    ensures r == "" <==> Vacuous(e)
  {
    match e
    case Nil => ""
    case Raw(t, _) => t
    case Compound(c, lhs, rhs) =>
      var ls, rs := Render(lhs), Render(rhs);
      if ls == "" then rs
      else if rs == "" then ls
      else "(" + ls + ") " + Word(c) + " (" + rs + ")"
  }

  /** The parameters an expression contributes; on a name clash the later
      operand wins. A raw fragment contributes its parameters even when its
      text is empty. */
  function ExprParams(e: Expr): Params
  {
    match e
    case Nil => map[]
    case Raw(_, p) => p
    case Compound(_, lhs, rhs) => ExprParams(lhs) + ExprParams(rhs)
  }

  /** `And(a, b)` / `Or(a, b)`: no filter combined with anything is that
      other operand, with no vacuous wrapper around it. */
  function Combine(c: Connector, a: Expr, b: Expr): (e: Expr)
    ensures Render(e) == (if Vacuous(a) then Render(b)
                          else if Vacuous(b) then Render(a)
                          else "(" + Render(a) + ") " + Word(c) + " (" + Render(b) + ")")
    ensures ExprParams(e) == ExprParams(a) + ExprParams(b)
    ensures a == Nil ==> e == b
  {
    if a == Nil then b
    else if b == Nil then a
    else Compound(c, a, b)
  }

  /** `Where(A).AndWhere(B).OrWhere(C)` renders `((A) AND (B)) OR (C)`, with
      the parameters of all three. */
  lemma WhereAndOr(a: string, b: string, c: string, pa: Params, pb: Params, pc: Params)
    requires a != "" && b != "" && c != ""
    ensures Render(Combine(OR, Combine(AND, Raw(a, pa), Raw(b, pb)), Raw(c, pc)))
            == "((" + a + ") AND (" + b + ")) OR (" + c + ")"
    ensures ExprParams(Combine(OR, Combine(AND, Raw(a, pa), Raw(b, pb)), Raw(c, pc))) == pa + pb + pc
  {
    var ab := Combine(AND, Raw(a, pa), Raw(b, pb));
    var lhs := "(" + a + ") AND (" + b + ")";
    assert Render(ab) == lhs;
    assert Render(Combine(OR, ab, Raw(c, pc))) == "(" + lhs + ") OR (" + c + ")";
    NestedParens(a, b, c);
  }

  lemma NestedParens(a: string, b: string, c: string)
    ensures "(" + ("(" + a + ") AND (" + b + ")") + ") OR (" + c + ")"
            == "((" + a + ") AND (" + b + ")) OR (" + c + ")"
  {
    assert "(" + "(" == "((";
    assert ")" + ") OR (" == ")) OR (";
  }

  /** How the database reads a raw fragment against a row. */
  type RawSemantics = (string, Row) -> bool

  /** Whether a row passes the filter, given the meaning of raw fragments.
      Parts that render to nothing filter nothing, exactly as they are
      absent from the SQL text. */
  predicate Holds(e: Expr, row: Row, sem: RawSemantics)
  {
    match e
    case Nil => true
    case Raw(t, _) => t == "" || sem(t, row)
    case Compound(c, lhs, rhs) =>
      if Vacuous(lhs) then Holds(rhs, row, sem)
      else if Vacuous(rhs) then Holds(lhs, row, sem)
      else if c == AND then Holds(lhs, row, sem) && Holds(rhs, row, sem)
      else Holds(lhs, row, sem) || Holds(rhs, row, sem)
  }

  lemma {:induction false} VacuousHolds(e: Expr, row: Row, sem: RawSemantics)
    requires Vacuous(e)
    ensures Holds(e, row, sem)
  {
    match e
    case Nil =>
    case Raw(_, _) =>
    case Compound(_, lhs, rhs) => VacuousHolds(rhs, row, sem);
  }

  /** AND-combining keeps exactly the rows both operands keep, whatever the
      operands are. */
  lemma CombineAndHolds(a: Expr, b: Expr, row: Row, sem: RawSemantics)
    ensures Holds(Combine(AND, a, b), row, sem) == (Holds(a, row, sem) && Holds(b, row, sem))
  {
    if Vacuous(a) { VacuousHolds(a, row, sem); }
    if Vacuous(b) { VacuousHolds(b, row, sem); }
  }

  /** OR-combining two real filters keeps the rows either one keeps. */
  lemma CombineOrHolds(a: Expr, b: Expr, row: Row, sem: RawSemantics)
    requires !Vacuous(a) && !Vacuous(b)
    ensures Holds(Combine(OR, a, b), row, sem) == (Holds(a, row, sem) || Holds(b, row, sem))
  {
  }
}
