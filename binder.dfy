/** The primary-key lookup behind `Model(pk, dest)`: the destination checks,
    then the first row that passes the existing WHERE filter AND the
    primary-key condition. The schema lookup is reduced to what it reports
    about the destination; the table is an abstract list of rows in result
    order. */
module Binder {
  import opened Values
  import opened Expressions

  /** What the schema lookup reports about a destination: not a pointer to a
      struct, or a struct pointer with its `db:"pk"` columns. */
  datatype Shape = NotStructPointer | StructPointer(pkColumns: seq<string>)

  datatype Destination = Destination(name: string, shape: Shape)

  const NotStructMessage: string := "must be a pointer to a struct"

  /** The single primary-key column, or the error `Model` returns. */
  function PrimaryKeyColumn(shape: Shape): (r: Result<string>)
    ensures r == Failure(VarTypeError(NotStructMessage)) <==> shape.NotStructPointer?
    ensures r == Failure(MissingPKError) <==> shape.StructPointer? && |shape.pkColumns| == 0
    ensures r == Failure(CompositePKError) <==> shape.StructPointer? && |shape.pkColumns| > 1
    ensures r.Success? <==> shape.StructPointer? && |shape.pkColumns| == 1
    ensures r.Success? ==> r.value == shape.pkColumns[0]
  {
    match shape
    case NotStructPointer => Failure(VarTypeError(NotStructMessage))
    case StructPointer(pks) =>
      if |pks| == 1 then Success(pks[0])
      else if |pks| == 0 then Failure(MissingPKError)
      else Failure(CompositePKError)
  }

  /** The WHERE filter already on the query, AND the key column equal to `pk`. */
  predicate PkMatch(where: Expr, column: string, pk: Value, row: Row, sem: RawSemantics)
  {
    Holds(where, row, sem) && column in row && row[column] == pk
  }

  /** The row `One` binds: the first one that matches, or `ErrNoRows`. */
  function FirstMatch(rows: seq<Row>, where: Expr, column: string, pk: Value, sem: RawSemantics): (r: Result<Row>)
    ensures r.Failure? <==> forall i :: 0 <= i < |rows| ==> !PkMatch(where, column, pk, rows[i], sem)
    ensures r.Failure? ==> r.error == ErrNoRows
    ensures r.Success? ==>
              exists i :: 0 <= i < |rows| && rows[i] == r.value && PkMatch(where, column, pk, rows[i], sem)
                          && forall j :: 0 <= j < i ==> !PkMatch(where, column, pk, rows[j], sem)
  {
    if rows == [] then Failure(ErrNoRows)
    else
      var rest := Matching(rows[1..], where, column, pk, sem);
      assert Matching(rows, where, column, pk, sem)
             == (if PkMatch(where, column, pk, rows[0], sem) then [rows[0]] else []) + rest;
      if PkMatch(where, column, pk, rows[0], sem) then Success(rows[0])
    else
      var r := FirstMatch(rows[1..], where, column, pk, sem);
      assert forall i :: 1 <= i < |rows| ==> rows[i] == rows[1..][i - 1];
      r
  }

  /** The rows the lookup statement returns, in result order: those that
      pass the WHERE filter AND the key condition. */
  function Matching(rows: seq<Row>, where: Expr, column: string, pk: Value, sem: RawSemantics): (r: seq<Row>)
    ensures |r| <= |rows|
    ensures forall x :: x in r <==> x in rows && PkMatch(where, column, pk, x, sem)
    ensures r == [] <==> forall i :: 0 <= i < |rows| ==> !PkMatch(where, column, pk, rows[i], sem)
  {
    if rows == [] then []
    else
      assert forall i :: 1 <= i < |rows| ==> rows[i] == rows[1..][i - 1];
      assert forall x :: x in rows <==> x == rows[0] || x in rows[1..];
      (if PkMatch(where, column, pk, rows[0], sem) then [rows[0]] else []) + Matching(rows[1..], where, column, pk, sem)
  }

  /** The row at position `n` of that result, or `ErrNoRows` past its end. */
  function MatchAt(rows: seq<Row>, where: Expr, column: string, pk: Value, sem: RawSemantics, n: nat): (r: Result<Row>)
    ensures r.Success? <==> n < |Matching(rows, where, column, pk, sem)|
    ensures r.Success? ==> r.value == Matching(rows, where, column, pk, sem)[n]
    ensures r.Failure? ==> r.error == ErrNoRows
  {
    if rows == [] then Failure(ErrNoRows)
    else
      var rest := Matching(rows[1..], where, column, pk, sem);
      assert Matching(rows, where, column, pk, sem)
             == (if PkMatch(where, column, pk, rows[0], sem) then [rows[0]] else []) + rest;
      if PkMatch(where, column, pk, rows[0], sem) then
      if n == 0 then Success(rows[0]) else MatchAt(rows[1..], where, column, pk, sem, n - 1)
    else MatchAt(rows[1..], where, column, pk, sem, n)
  }

  /** The first row of the result is the first matching row of the table. */
  lemma {:induction false} FirstMatchIsFirstResult(rows: seq<Row>, where: Expr, column: string, pk: Value, sem: RawSemantics)
    ensures FirstMatch(rows, where, column, pk, sem) == MatchAt(rows, where, column, pk, sem, 0)
  {
    if rows != [] && !PkMatch(where, column, pk, rows[0], sem) {
      FirstMatchIsFirstResult(rows[1..], where, column, pk, sem);
    }
  }

  /** The number of result rows an OFFSET skips. */
  function Skip(offset: Option<nat>): nat
  {
    if offset.Some? then offset.value else 0
  }

  /** `Model(pk, dest)` on a query whose WHERE filter is `where` and whose
      LIMIT and OFFSET are `limit` and `offset`: `One` binds the first row of
      the result window, and `LIMIT 0` leaves no row at all. */
  function ModelLookup(where: Expr, pk: Value, shape: Shape, rows: seq<Row>, sem: RawSemantics,
                       limit: Option<nat>, offset: Option<nat>): (r: Result<Row>)
    ensures shape.NotStructPointer? ==> r == Failure(VarTypeError(NotStructMessage))
    ensures shape.StructPointer? && |shape.pkColumns| == 0 ==> r == Failure(MissingPKError)
    ensures shape.StructPointer? && |shape.pkColumns| > 1 ==> r == Failure(CompositePKError)
    ensures r.Success? ==> shape.StructPointer? && |shape.pkColumns| == 1 && r.value in rows
                           && PkMatch(where, shape.pkColumns[0], pk, r.value, sem)
                           && Skip(offset) < |Matching(rows, where, shape.pkColumns[0], pk, sem)|
                           && r.value == Matching(rows, where, shape.pkColumns[0], pk, sem)[Skip(offset)]
    ensures r == Failure(ErrNoRows)
            <==> shape.StructPointer? && |shape.pkColumns| == 1
                 && (limit == Some(0) || Skip(offset) >= |Matching(rows, where, shape.pkColumns[0], pk, sem)|)
  {
    match PrimaryKeyColumn(shape)
    case Failure(e) => Failure(e)
    case Success(col) =>
      if limit == Some(0) then Failure(ErrNoRows)
      else
        var r := MatchAt(rows, where, col, pk, sem, Skip(offset));
        assert r.Success? ==> r.value in Matching(rows, where, col, pk, sem);
        r
  }

  /** An existing WHERE that pins the key column to another value leaves no
      row for `Model`, whatever the LIMIT and OFFSET: the two conditions are
      ANDed, never replaced. */
  lemma ModelWhereConflict(where: Expr, column: string, v: Value, pk: Value, rows: seq<Row>, sem: RawSemantics,
                           limit: Option<nat>, offset: Option<nat>)
    requires forall row :: Holds(where, row, sem) ==> column in row && row[column] == v
    requires pk != v
    ensures ModelLookup(where, pk, StructPointer([column]), rows, sem, limit, offset) == Failure(ErrNoRows)
  {
  }

  /** With a consistent WHERE and no paging, `Model` finds the first row
      carrying the key. */
  lemma {:induction false} ModelFindsKey(where: Expr, column: string, pk: Value, rows: seq<Row>, sem: RawSemantics, k: nat)
    requires k < |rows| && column in rows[k] && rows[k][column] == pk && Holds(where, rows[k], sem)
    requires forall j :: 0 <= j < k ==> !(column in rows[j] && rows[j][column] == pk)
    ensures ModelLookup(where, pk, StructPointer([column]), rows, sem, None, None) == Success(rows[k])
  {
    if k > 0 {
      ModelFindsKey(where, column, pk, rows[1..], sem, k - 1);
    }
  }
}
