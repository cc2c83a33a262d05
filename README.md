# SQL statement assembly of the table-manager server

The server is a small Express application in front of a MySQL connection
pool. Each HTTP endpoint reads a few fields from the request body or path,
assembles one SQL statement as text, and hands it to `pool.execute`. A
handful of endpoints also pass positional parameters for `?` marks. This
project models that assembly: what statement each endpoint builds from its
inputs, when it answers 400 or fails before it reaches the database, and
what the statement means once the driver binds its parameters.

Modules:

- `Wrappers`: an `Option` type.
- `Js`: the JavaScript values a JSON body can carry, as far as the handlers
  use them (`undefined`, `null`, booleans, safe integers, strings). Also
  covers truthiness and `Render`, the text that template interpolation
  `${v}` inserts. A number is limited to the safe integers (magnitude at most
  2^53 - 1), which JavaScript writes as plain decimal digits; such a numeral
  is proved to read back as the same number.
- `Text`: `Join` (`Array.prototype.join`), counting a character, prefixes,
  and cutting at the first occurrence of a character.
- `Columns`: a column description and the two column serialisers. The
  CREATE TABLE one emits length, NOT NULL, AUTO_INCREMENT, PRIMARY KEY,
  UNIQUE and DEFAULT. The ADD/MODIFY COLUMN one emits only length, NOT NULL
  and DEFAULT. Each serialiser is characterised by the list of modifiers it
  emits: a fixed order, each present exactly when its field is truthy.
- `Dml`: INSERT, UPDATE and DELETE. A record is the key/value list that
  `Object.keys`/`Object.values` produce. `Bind` models the driver's
  positional binding: the i-th `?` takes the i-th parameter. It is the
  reference against which the statements are proved to put each value next
  to its own key.
- `Ddl`: the fixed-shape statements (DROP TABLE, DROP COLUMN, SELECT,
  DESCRIBE, the three ADD CONSTRAINT forms, the DROP constraint dispatch).
  It also has `Parse`, a reader of those statements. Each builder's contract
  states that its text reads back as the command it was asked for.
- `Gateway`: one function per endpoint. Each returns `BadRequest` (400),
  `ServerError` (a TypeError thrown before `pool.execute`, which the catch
  turns into 500) or `Execute` (the statement and parameters given to the
  driver). An object-valued body field is an `Option`, and `None` stands for
  a field that is absent or `null`.

## Model

| member | source | states |
|---|---|---|
| Js.Truthy | server.js:46-51 | The `if (col.x)` tests: exactly `undefined`, `null`, `false`, `0` and `""` are falsy. |
| Js.Render | server.js:45 | Interpolation writes nothing only for the empty string; `0`, `false`, `null` and `undefined` all write text. A number's text starts with `-` exactly when it is negative. |
| Js.NatToDecimal | server.js:46 | The numeral written for a non-negative safe integer is non-empty and all digits. It starts with `0` only for zero and has one digit exactly below ten. |
| Js.DecimalRoundTrip | server.js:46 | Reading back the decimal numeral of a non-negative integer gives that integer. |
| Js.NumberRenderRoundTrip | server.js:51 | Interpolating any safe integer writes an optional minus sign followed by digits, and that numeral reads back as the same integer. |
| Text.JoinAppend | server.js:53 | Joining one more part appends the separator and that part, so the parts appear in input order. |
| Text.CountJoin | server.js:136 | When the separator has no `?`, the `?` count of a joined list is the sum over its parts. |
| Columns.Modifiers | server.js:45-51 | The modifiers a CREATE TABLE column gets are in the fixed order length, NOT NULL, AUTO_INCREMENT, PRIMARY KEY, UNIQUE, DEFAULT. Each is present exactly when its field is truthy, and it carries that field's value. |
| Columns.FullDef | server.js:44-52 | A CREATE TABLE column definition is `name type` followed by exactly those modifiers, each written as its clause. |
| Columns.KeepReduced | server.js:69-72 | The reduced modifier list holds exactly the length, NOT NULL and DEFAULT entries of the full one. |
| Columns.ReducedDef | server.js:69-72 | The ADD/MODIFY COLUMN definition is `name type` followed by the CREATE TABLE modifier list with AUTO_INCREMENT, PRIMARY KEY and UNIQUE removed, order kept. It equals the CREATE TABLE definition of the same column with those three flags cleared. |
| Columns.FalsyLengthOmitted | server.js:46 | A falsy length (`0`, `""`, `null`, `false`) gives the same definition as no length, in both serialisers. |
| Columns.FalsyDefaultOmitted | server.js:51 | A falsy default gives the same definition as no default, in both serialisers. |
| Columns.CreateTableSql | server.js:53-55 | The statement starts with `CREATE TABLE t (` and ends with `)`. With one column it is exactly that column's full definition between them. |
| Columns.CreateTableAppend | server.js:44-55 | Appending a column to the request inserts `, ` and its definition just before the closing parenthesis. Definitions follow input order. |
| Columns.AddColumnSql | server.js:69-74 | ADD COLUMN is `ALTER TABLE t ADD COLUMN` followed by `name type` and the reduced modifier list, in the frame it shares with MODIFY COLUMN. |
| Columns.ModifyColumnSql | server.js:102-107 | MODIFY COLUMN is the same frame and the same reduced definition, with the keyword `MODIFY` instead of `ADD`. |
| Dml.Bind | server.js:140 | Binding positional parameters succeeds exactly when the statement has as many `?` marks as there are parameters. |
| Dml.BindKeepsTextAndOrder | server.js:140 | A successful binding keeps all text outside the marks and uses the parameters in the order given. |
| Dml.EqualitiesBind | server.js:153-154 | With no `?` in any key, the `key = ?` list has one mark per key. Binding it to the values gives each key its own value. |
| Dml.MarksBind | server.js:136-137 | The placeholder list has one mark per value, and binding it yields the values in order. |
| Dml.MarksCount | server.js:136 | The placeholder list holds exactly one `?` per key. |
| Dml.InsertSql | server.js:135-139 | The INSERT text holds one `?` per key, plus the marks written inside the table name and the keys. |
| Dml.InsertBindsInOrder | server.js:135-140 | With no `?` in the identifiers, binding the INSERT puts the i-th value into the i-th VALUES slot, whose column is the i-th key. |
| Dml.Insert | server.js:135-140 | The parameters are the record's values in key order, one per key. The statement binds exactly when no identifier contains `?`, and it then puts the i-th value in the i-th VALUES slot, under the i-th key. |
| Dml.UpdateSql | server.js:153-159 | The UPDATE text holds one `?` per data key and one per where key, plus the marks inside the identifiers. |
| Dml.UpdateBindsInOrder | server.js:153-160 | With no `?` in the identifiers, each SET key is bound to its own data value and each WHERE key to its own where value. |
| Dml.Update | server.js:153-160 | The parameters are the data values, then the where values. The statement binds exactly when no identifier contains `?`; each SET key then gets its own data value and each WHERE key its own where value, in key order. |
| Dml.DeleteSql | server.js:173-176 | The DELETE text holds one `?` per where key, plus the marks inside the identifiers. |
| Dml.DeleteBindsInOrder | server.js:173-177 | With no `?` in the identifiers, binding the DELETE compares each WHERE key with its own value, in key order. |
| Dml.Delete | server.js:173-177 | The parameters are the where values in key order, one per where key. The statement binds exactly when no identifier contains `?`, and each WHERE key is then compared with its own value. |
| Ddl.DropTableSql | server.js:121 | The DROP TABLE statement reads back as dropping exactly the given table. |
| Ddl.DropColumnSql | server.js:88 | For a table name without spaces, the DROP COLUMN statement reads back as dropping the given column from the given table. |
| Ddl.SelectSql | server.js:190 | The SELECT statement reads back as selecting every row of the given table. |
| Ddl.DescribeSql | server.js:280 | The DESCRIBE statement reads back as describing the given table. |
| Ddl.AddPrimaryKeySql | server.js:204 | For table and constraint names without spaces, the statement reads back as a primary key with that name on that column. |
| Ddl.AddForeignKeySql | server.js:218-219 | For names without spaces or stray parentheses, the two-line statement reads back as that foreign key. It names the column, the referenced table and the referenced column. |
| Ddl.AddUniqueSql | server.js:233 | For table and constraint names without spaces, the statement reads back as a unique constraint with that name on that column. |
| Ddl.DropConstraintSql | server.js:247-254 | For every table name, the action after `ALTER TABLE <table> ` reads back as the command the type selects; for a table name without spaces, so does the whole statement. Only the exact string `"PRIMARY KEY"` drops the primary key and `"FOREIGN KEY"` the named foreign key. Any other value, absent included, drops the named index. |
| Ddl.DropPrimaryKeyIgnoresName | server.js:248-249 | Dropping a primary key builds the same statement whatever constraint name is given. |
| Gateway.TableCreate | server.js:38-56 | Answers 400 with the fixed message exactly when the name is falsy or `columns` is missing, null or empty. Otherwise it executes the CREATE TABLE statement without parameters. |
| Gateway.AlterAddColumn | server.js:67-75 | Fails with 500 exactly when `column` is missing or null. Otherwise it executes ADD COLUMN with the reduced definition. |
| Gateway.AlterModifyColumn | server.js:100-108 | Fails with 500 exactly when `column` is missing or null. Otherwise it executes MODIFY COLUMN with the reduced definition. |
| Gateway.AlterDropColumn | server.js:86-89 | Always executes a parameterless statement. For a table name without spaces, it reads back as dropping the given column. |
| Gateway.TableDrop | server.js:119-122 | Always executes a parameterless statement that reads back as dropping the path's table. |
| Gateway.DataInsert | server.js:133-140 | Fails with 500 exactly when `data` is missing or null. Otherwise it executes the INSERT with the record's values as parameters. |
| Gateway.DataUpdate | server.js:151-160 | Fails with 500 exactly when `data` or `where` is missing or null. Otherwise it executes the UPDATE with the data values, then the where values. |
| Gateway.DataDelete | server.js:171-177 | Fails with 500 exactly when `where` is missing or null. Otherwise it executes the DELETE with the where values. |
| Gateway.DataSelect | server.js:188-191 | Executes a parameterless statement that reads back as selecting all rows of the path's table. |
| Gateway.ConstraintAddPrimaryKey | server.js:202-205 | Executes a parameterless statement that reads back as the requested primary key, for names without spaces. |
| Gateway.ConstraintAddForeignKey | server.js:216-220 | Executes a parameterless statement. When the table and constraint names have no space, the column has no `)` and the referenced table has no `(`, the statement reads back as the requested foreign key. |
| Gateway.ConstraintAddUnique | server.js:231-234 | Executes a parameterless statement. When the table and constraint names have no space, it reads back as the requested unique constraint. |
| Gateway.ConstraintDrop | server.js:245-256 | Executes a parameterless statement whose action after `ALTER TABLE <table> ` reads back, for every table name, as the drop the constraint type selects; for a table name without spaces the whole statement does. |
| Gateway.TableStructure | server.js:279-280 | Executes a parameterless statement that reads back as describing the path's table. |
| Gateway.TablesList | server.js:267-268 | Answers one name per row, namely the row's first value, and `undefined` for a row without values. |

## Left out

- Express routing, JSON body parsing, the connection pool and the `.then`/`.catch` connection log are not modelled. Neither are the success bodies (`success`, `message`, `insertId`, `affectedRows`, `data`, `structure`) and the listen call.
- Database errors: an `Execute` response stands for the statement handed to `pool.execute`. What MySQL then does with it, including the 500 answer when it rejects the statement, is not modelled. Neither are the rows of SELECT, DESCRIBE and SHOW TABLES.
- Gateway.TablesList: GET /api/tables executes the fixed text `SHOW TABLES`, which takes no input, so only the mapping of its rows is modelled. A row is given as its values in column order, because the driver's row objects are not modelled.
- Js.Render: numbers are limited to the safe integers, magnitude at most 2^53 - 1. Larger numbers are not modelled. JavaScript writes them with rounded digits above 2^53 and in exponent form from 1e21.
- Non-integer numbers, `NaN`, `-0`, objects and arrays as field values are not modelled. Their interpolation (`[object Object]`, comma-joined arrays, float formatting) is left out.
- `columns` that is a non-array (a string has a `length` and no `map`) or holds a non-object element is not modelled. A column is always a record of the six fields plus name and type.
- Gateway.AlterAddColumn: the model distinguishes only a `column` that is absent or `null` (reading a field throws) from a column record. A non-object `column` is not modelled: a number reads every field as `undefined`, while a string also has a `length` (`"abc"` gives `undefined undefined(3)`). The same holds for Gateway.AlterModifyColumn.
- Records are key/value lists in `Object.keys` order. The engine's reordering of integer-like keys to the front is left out. Duplicate keys, which a JSON object cannot carry past parsing, are not excluded.
- Dml.Bind: every `?` character counts as a mark. The driver's own skipping of `?` inside quoted literals or comments is left out. So is its rejection of `undefined` parameters.
- Identifiers and values reach the SQL text verbatim, with no quoting or escaping. The model keeps this and states its consequences only as hypotheses: no `?` in identifiers for the DML statements, and no spaces in names for reading DDL back.
- Ddl.Parse reads only the statement shapes the builders produce. It is a partner for proving the builders faithful, not a SQL parser. Ddl.ParseAlterOn reads an ALTER statement whose table name is already known, so that name may contain spaces.
