/**
 * The request handlers: each takes the fields it reads from the request
 * body or path and returns what it does with them, which is either a 400
 * answer, a failure before any statement is built (a TypeError the
 * handler's catch turns into a 500), or one statement handed to the driver.
 *
 * Body fields are JSON values and reach the SQL text through template
 * interpolation (`Render`); path parameters are always strings. An
 * object-valued field is an `Option`: `None` stands for a field that is
 * absent or `null`, on which reading a property or `Object.keys` throws.
 */
module Gateway {
  import opened Wrappers
  import opened Js
  import opened Columns
  import opened Dml
  import opened Ddl

  datatype Response =
    | BadRequest(message: string)   // HTTP 400, `{ error: message }`
    | ServerError                   // HTTP 500: an exception before the statement reached the driver
    | Execute(statement: Statement) // the statement and parameters given to `pool.execute`

  /** A statement without bound parameters. */
  function Plain(sql: string): Statement {
    Statement(sql, [])
  }

  const TABLE_REQUIRED := "Table name and columns are required"

  /**
   * POST /api/table/create. A falsy table name, a missing `columns` or an
   * empty one is answered with 400 and no statement; otherwise the
   * CREATE TABLE statement is executed.
   */
  function TableCreate(tableName: Value, columns: Option<seq<Column>>): (r: Response)
    ensures r.BadRequest? <==> !Truthy(tableName) || columns.None? || |columns.value| == 0
    ensures r.BadRequest? ==> r.message == TABLE_REQUIRED
    ensures !r.BadRequest? ==>
      r.Execute? && r.statement.params == [] && |columns.value| >= 1
      && r.statement.sql == CreateTableSql(Render(tableName), columns.value)
  {
    if !Truthy(tableName) || columns.None? || |columns.value| == 0 then BadRequest(TABLE_REQUIRED)
    else Execute(Plain(CreateTableSql(Render(tableName), columns.value)))
  }

  /** POST /api/table/alter/add-column. Reading a field of a missing or null `column` throws. */
  function AlterAddColumn(tableName: Value, column: Option<Column>): (r: Response)
    ensures r.ServerError? <==> column.None?
    ensures r.Execute? <==> column.Some?
    ensures r.Execute? ==> r.statement == Plain(AddColumnSql(Render(tableName), column.value))
  {
    match column
    case None => ServerError
    case Some(c) => Execute(Plain(AddColumnSql(Render(tableName), c)))
  }

  /** POST /api/table/alter/modify-column. Reading a field of a missing or null `column` throws. */
  function AlterModifyColumn(tableName: Value, column: Option<Column>): (r: Response)
    ensures r.ServerError? <==> column.None?
    ensures r.Execute? <==> column.Some?
    ensures r.Execute? ==> r.statement == Plain(ModifyColumnSql(Render(tableName), column.value))
  {
    match column
    case None => ServerError
    case Some(c) => Execute(Plain(ModifyColumnSql(Render(tableName), c)))
  }

  /** POST /api/table/alter/drop-column. */
  function AlterDropColumn(tableName: Value, columnName: Value): (r: Response)
    ensures r.Execute? && r.statement.params == []
    ensures ' ' !in Render(tableName) ==>
      Parse(r.statement.sql) == Some(Command.DropColumn(Render(tableName), Render(columnName)))
  {
    Execute(Plain(DropColumnSql(Render(tableName), Render(columnName))))
  }

  /** DELETE /api/table/drop/:tableName. */
  function TableDrop(tableName: string): (r: Response)
    ensures r.Execute? && r.statement.params == []
    ensures Parse(r.statement.sql) == Some(Command.DropTable(tableName))
  {
    Execute(Plain(DropTableSql(tableName)))
  }

  /** POST /api/data/insert. `Object.keys` of a missing or null `data` throws. */
  function DataInsert(tableName: Value, data: Option<Record>): (r: Response)
    ensures r.ServerError? <==> data.None?
    ensures r.Execute? <==> data.Some?
    ensures r.Execute? ==> r.statement == Insert(Render(tableName), data.value)
  {
    match data
    case None => ServerError
    case Some(d) => Execute(Insert(Render(tableName), d))
  }

  /** PUT /api/data/update. `Object.keys` of a missing or null `data` or `where` throws. */
  function DataUpdate(tableName: Value, data: Option<Record>, where: Option<Record>): (r: Response)
    ensures r.ServerError? <==> data.None? || where.None?
    ensures r.Execute? <==> data.Some? && where.Some?
    ensures r.Execute? ==> r.statement == Update(Render(tableName), data.value, where.value)
  {
    if data.None? || where.None? then ServerError
    else Execute(Update(Render(tableName), data.value, where.value))
  }

  /** DELETE /api/data/delete. `Object.keys` of a missing or null `where` throws. */
  function DataDelete(tableName: Value, where: Option<Record>): (r: Response)
    ensures r.ServerError? <==> where.None?
    ensures r.Execute? <==> where.Some?
    ensures r.Execute? ==> r.statement == Delete(Render(tableName), where.value)
  {
    match where
    case None => ServerError
    case Some(w) => Execute(Delete(Render(tableName), w))
  }

  /** GET /api/data/select/:tableName. */
  function DataSelect(tableName: string): (r: Response)
    ensures r.Execute? && r.statement.params == []
    ensures Parse(r.statement.sql) == Some(SelectAll(tableName))
  {
    Execute(Plain(SelectSql(tableName)))
  }

  /** POST /api/constraint/add/primary-key. */
  function ConstraintAddPrimaryKey(tableName: Value, columnName: Value, constraintName: Value): (r: Response)
    ensures r.Execute? && r.statement.params == []
    ensures ' ' !in Render(tableName) && ' ' !in Render(constraintName) ==>
      Parse(r.statement.sql) == Some(AddPrimaryKey(Render(tableName), Render(constraintName), Render(columnName)))
  {
    Execute(Plain(AddPrimaryKeySql(Render(tableName), Render(columnName), Render(constraintName))))
  }

  /** POST /api/constraint/add/foreign-key. */
  function ConstraintAddForeignKey(tableName: Value, columnName: Value, refTable: Value, refColumn: Value, constraintName: Value): (r: Response)
    ensures r.Execute? && r.statement.params == []
    ensures (' ' !in Render(tableName) && ' ' !in Render(constraintName)
             && ')' !in Render(columnName) && '(' !in Render(refTable)) ==>
      Parse(r.statement.sql)
      == Some(AddForeignKey(Render(tableName), Render(constraintName), Render(columnName), Render(refTable), Render(refColumn)))
  {
    Execute(Plain(AddForeignKeySql(Render(tableName), Render(columnName), Render(refTable), Render(refColumn), Render(constraintName))))
  }

  /** POST /api/constraint/add/unique. */
  function ConstraintAddUnique(tableName: Value, columnName: Value, constraintName: Value): (r: Response)
    ensures r.Execute? && r.statement.params == []
    ensures ' ' !in Render(tableName) && ' ' !in Render(constraintName) ==>
      Parse(r.statement.sql) == Some(AddUnique(Render(tableName), Render(constraintName), Render(columnName)))
  {
    Execute(Plain(AddUniqueSql(Render(tableName), Render(columnName), Render(constraintName))))
  }

  /**
   * DELETE /api/constraint/drop: the statement drops the primary key, the
   * named foreign key or the named index, as `constraintType` selects.
   */
  function ConstraintDrop(tableName: Value, constraintName: Value, constraintType: Value): (r: Response)
    ensures r.Execute? && r.statement.params == []
    ensures ParseAlterOn(Render(tableName), r.statement.sql)
      == Some(DropConstraintCommand(Render(tableName), Render(constraintName), constraintType))
    ensures ' ' !in Render(tableName) ==>
      Parse(r.statement.sql) == Some(DropConstraintCommand(Render(tableName), Render(constraintName), constraintType))
  {
    Execute(Plain(DropConstraintSql(Render(tableName), Render(constraintName), constraintType)))
  }

  /** GET /api/table/structure/:tableName. */
  function TableStructure(tableName: string): (r: Response)
    ensures r.Execute? && r.statement.params == []
    ensures Parse(r.statement.sql) == Some(Describe(tableName))
  {
    Execute(Plain(DescribeSql(tableName)))
  }

  /**
   * GET /api/tables runs the fixed statement `SHOW TABLES` and answers with
   * the first value of each row (a row is its values in column order; an
   * empty row yields `undefined`).
   */
  function TablesList(rows: seq<seq<Value>>): (names: seq<Value>)
    ensures |names| == |rows|
    ensures forall i :: 0 <= i < |rows| && rows[i] != [] ==> names[i] == rows[i][0]
    ensures forall i :: 0 <= i < |rows| && rows[i] == [] ==> names[i] == Undefined
  {
    seq(|rows|, i requires 0 <= i < |rows| => if rows[i] == [] then Undefined else rows[i][0])
  }
}
