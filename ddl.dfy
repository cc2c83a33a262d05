/**
 * The fixed-shape statements: DROP TABLE, ALTER TABLE ... DROP COLUMN,
 * SELECT *, DESCRIBE, the three ADD CONSTRAINT forms and the three
 * DROP-constraint forms chosen by `constraintType`.
 *
 * Each builder interpolates its identifiers verbatim. `Parse` reads a
 * statement text back into the command it expresses; each builder's
 * contract shows that, as long as the identifiers do not contain the
 * characters that delimit them, the text carries every field of the
 * request and nothing else.
 */
module Ddl {
  import opened Wrappers
  import opened Js
  import opened Text

  /** The drop statement reads back as dropping exactly that table. */
  function DropTableSql(table: string): (sql: string)
    ensures Parse(sql) == Some(DropTable(table))
  {
    StripPrefixOfConcat("DROP TABLE ", table);
    "DROP TABLE " + table
  }

  /** `ALTER TABLE <table> <action>`: the frame of every ALTER statement below. */
  function AlterSql(table: string, action: string): string {
    "ALTER TABLE " + table + " " + action
  }

  /** `ADD CONSTRAINT <constraint> <body>`. */
  function AddConstraintSql(constraint: string, body: string): string {
    "ADD CONSTRAINT " + constraint + " " + body
  }

  /**
   * The drop-column statement: when the table name has no space (the
   * character that ends it), it reads back as dropping that column of that
   * table.
   */
  function DropColumnSql(table: string, column: string): (sql: string)
    ensures ' ' !in table ==> Parse(sql) == Some(DropColumn(table, column))
  {
    var sql := AlterSql(table, "DROP COLUMN " + column);
    if ' ' !in table then
      ParseAlterTable(table, "DROP COLUMN " + column);
      ParseAlterDropColumn(table, column);
      sql
    else sql
  }

  /** The select-all statement reads back as selecting every row of that table. */
  function SelectSql(table: string): (sql: string)
    ensures Parse(sql) == Some(SelectAll(table))
  {
    var sql := "SELECT * FROM " + table;
    assert sql[0] == 'S';
    StripPrefixOfConcat("SELECT * FROM ", table);
    sql
  }

  /** The describe statement reads back as describing that table. */
  function DescribeSql(table: string): (sql: string)
    ensures Parse(sql) == Some(Describe(table))
  {
    var sql := "DESCRIBE " + table;
    assert sql[0] == 'D' && sql[1] == 'E';
    StripPrefixOfConcat("DESCRIBE ", table);
    sql
  }

  /**
   * The primary-key statement reads back, when the table and constraint
   * names have no space, as that constraint on that column of that table.
   */
  function AddPrimaryKeySql(table: string, column: string, constraint: string): (sql: string)
    ensures ' ' !in table && ' ' !in constraint ==>
      Parse(sql) == Some(AddPrimaryKey(table, constraint, column))
  {
    var body := "PRIMARY KEY (" + column + ")";
    var sql := AlterSql(table, AddConstraintSql(constraint, body));
    if ' ' !in table && ' ' !in constraint then
      ParseAlterTable(table, AddConstraintSql(constraint, body));
      ParseAddConstraint(table, constraint, body);
      ParseConstraintPrimaryKey(table, constraint, column);
      sql
    else sql
  }

  /**
   * The foreign-key template literal spans two source lines: after the
   * space that follows the constraint name, the statement carries a line
   * break and the nineteen spaces that indent the second line.
   */
  const FOREIGN_KEY_INDENT: string := "\n                   "

  /**
   * The foreign-key statement reads back when the table and constraint
   * names have no space, the column has no `)` and the referenced table
   * has no `(`: those are the characters that end each field.
   */
  function AddForeignKeySql(table: string, column: string, refTable: string, refColumn: string, constraint: string): (sql: string)
    ensures ' ' !in table && ' ' !in constraint && ')' !in column && '(' !in refTable ==>
      Parse(sql) == Some(AddForeignKey(table, constraint, column, refTable, refColumn))
  {
    var body := FOREIGN_KEY_INDENT + "FOREIGN KEY (" + column + ") REFERENCES " + refTable + "(" + refColumn + ")";
    var sql := AlterSql(table, AddConstraintSql(constraint, body));
    if ' ' !in table && ' ' !in constraint && ')' !in column && '(' !in refTable then
      ForeignKeyBody(column, refTable, refColumn);
      ParseAlterTable(table, AddConstraintSql(constraint, body));
      ParseAddConstraint(table, constraint, body);
      ParseConstraintForeignKey(table, constraint, column + ") REFERENCES " + (refTable + "(" + refColumn + ")"));
      ParseReferenceOf(table, constraint, column, refTable, refColumn);
      sql
    else sql
  }

  /**
   * The unique statement reads back, when the table and constraint names
   * have no space, as that constraint on that column of that table.
   */
  function AddUniqueSql(table: string, column: string, constraint: string): (sql: string)
    ensures ' ' !in table && ' ' !in constraint ==>
      Parse(sql) == Some(AddUnique(table, constraint, column))
  {
    var body := "UNIQUE (" + column + ")";
    var sql := AlterSql(table, AddConstraintSql(constraint, body));
    if ' ' !in table && ' ' !in constraint then
      ParseAlterTable(table, AddConstraintSql(constraint, body));
      ParseAddConstraint(table, constraint, body);
      ParseConstraintUnique(table, constraint, column);
      sql
    else sql
  }

  /**
   * The DROP-constraint dispatch: only the exact string "PRIMARY KEY" or
   * "FOREIGN KEY" (strict equality, so no other type and no other casing)
   * selects those forms; anything else, a missing type included, drops an
   * index. For every table name, the action after `ALTER TABLE <table> `
   * reads back as the command the type selects; with a table name free of
   * spaces, so does the whole statement.
   */
  function DropConstraintSql(table: string, constraint: string, constraintType: Value): (sql: string)
    ensures ParseAlterOn(table, sql) == Some(DropConstraintCommand(table, constraint, constraintType))
    ensures ' ' !in table ==> Parse(sql) == Some(DropConstraintCommand(table, constraint, constraintType))
  {
    if constraintType == Str("PRIMARY KEY") then
      var sql := AlterSql(table, "DROP PRIMARY KEY");
      AlterOn(table, "DROP PRIMARY KEY");
      if ' ' !in table then ParseAlterTable(table, "DROP PRIMARY KEY"); sql else sql
    else if constraintType == Str("FOREIGN KEY") then
      var sql := AlterSql(table, "DROP FOREIGN KEY " + constraint);
      AlterOn(table, "DROP FOREIGN KEY " + constraint);
      ParseAlterDropForeignKey(table, constraint);
      if ' ' !in table then ParseAlterTable(table, "DROP FOREIGN KEY " + constraint); sql else sql
    else
      var sql := AlterSql(table, "DROP INDEX " + constraint);
      AlterOn(table, "DROP INDEX " + constraint);
      ParseAlterDropIndex(table, constraint);
      if ' ' !in table then ParseAlterTable(table, "DROP INDEX " + constraint); sql else sql
  }

  /** Dropping a primary key does not use the constraint name. */
  lemma DropPrimaryKeyIgnoresName(table: string, name1: string, name2: string)
    ensures DropConstraintSql(table, name1, Str("PRIMARY KEY")) == DropConstraintSql(table, name2, Str("PRIMARY KEY"))
  {
  }

  // ---------------------------------------------------------------------
  // Reading a statement back
  // ---------------------------------------------------------------------

  /** What a fixed-shape statement asks the database to do. */
  datatype Command =
    | DropTable(table: string)
    | DropColumn(table: string, column: string)
    | SelectAll(table: string)
    | Describe(table: string)
    | AddPrimaryKey(table: string, constraint: string, column: string)
    | AddForeignKey(table: string, constraint: string, column: string, refTable: string, refColumn: string)
    | AddUnique(table: string, constraint: string, column: string)
    | DropPrimaryKey(table: string)
    | DropForeignKey(table: string, constraint: string)
    | DropIndex(table: string, constraint: string)

  /** The command a DROP-constraint request asks for. */
  function DropConstraintCommand(table: string, constraint: string, constraintType: Value): Command {
    if constraintType == Str("PRIMARY KEY") then DropPrimaryKey(table)
    else if constraintType == Str("FOREIGN KEY") then DropForeignKey(table, constraint)
    else DropIndex(table, constraint)
  }

  /** `s` without its last character, when that character is `)`. */
  function Unclose(s: string): Option<string> {
    if |s| > 0 && s[|s| - 1] == ')' then Some(s[..|s| - 1]) else None
  }

  lemma UncloseOfConcat(s: string)
    ensures Unclose(s + ")") == Some(s)
  {
    assert (s + ")")[..|s|] == s;
  }

  /** Reads a statement produced by one of the builders above. */
  function Parse(sql: string): Option<Command> {
    if StartsWith(sql, "DROP TABLE ") then Some(DropTable(sql[11..]))
    else if StartsWith(sql, "SELECT * FROM ") then Some(SelectAll(sql[14..]))
    else if StartsWith(sql, "DESCRIBE ") then Some(Describe(sql[9..]))
    else if StartsWith(sql, "ALTER TABLE ") then
      match Cut(sql[12..], ' ')
      case None => None
      case Some(parts) => ParseAlter(parts.0, parts.1)
    else None
  }

  /**
   * Reads an ALTER statement on a table whose name is already known, so
   * that the name may hold any character, a space included.
   */
  function ParseAlterOn(table: string, sql: string): Option<Command> {
    match StripPrefix(sql, "ALTER TABLE " + table + " ")
    case None => None
    case Some(action) => ParseAlter(table, action)
  }

  /** Reads what follows `ALTER TABLE <table> `. */
  function ParseAlter(table: string, rest: string): Option<Command> {
    if rest == "DROP PRIMARY KEY" then Some(DropPrimaryKey(table))
    else if StartsWith(rest, "DROP COLUMN ") then Some(DropColumn(table, rest[12..]))
    else if StartsWith(rest, "DROP FOREIGN KEY ") then Some(DropForeignKey(table, rest[17..]))
    else if StartsWith(rest, "DROP INDEX ") then Some(DropIndex(table, rest[11..]))
    else if StartsWith(rest, "ADD CONSTRAINT ") then
      match Cut(rest[15..], ' ')
      case None => None
      case Some(parts) => ParseConstraint(table, parts.0, parts.1)
    else None
  }

  /** Reads what follows `ALTER TABLE <table> ADD CONSTRAINT <name> `. */
  function ParseConstraint(table: string, name: string, rest: string): Option<Command> {
    if StartsWith(rest, "PRIMARY KEY (") then
      match Unclose(rest[13..])
      case None => None
      case Some(column) => Some(AddPrimaryKey(table, name, column))
    else if StartsWith(rest, "UNIQUE (") then
      match Unclose(rest[8..])
      case None => None
      case Some(column) => Some(AddUnique(table, name, column))
    else if StartsWith(rest, FOREIGN_KEY_INDENT + "FOREIGN KEY (") then
      ParseReference(table, name, rest[|FOREIGN_KEY_INDENT| + 13..])
    else None
  }

  /** Reads `<column>) REFERENCES <refTable>(<refColumn>)`. */
  function ParseReference(table: string, name: string, rest: string): Option<Command> {
    match Cut(rest, ')')
    case None => None
    case Some(p) =>
      match StripPrefix(p.1, " REFERENCES ")
      case None => None
      case Some(target) =>
        match Cut(target, '(')
        case None => None
        case Some(q) =>
          match Unclose(q.1)
          case None => None
          case Some(refColumn) => Some(AddForeignKey(table, name, p.0, q.0, refColumn))
  }

  // ---------------------------------------------------------------------
  // The steps of each read-back
  // ---------------------------------------------------------------------

  /** Past `ALTER TABLE `, the table name runs up to the first space. */
  lemma ParseAlterTable(table: string, rest: string)
    requires ' ' !in table
    ensures Parse(AlterSql(table, rest)) == ParseAlter(table, rest)
  {
    var sql := AlterSql(table, rest);
    assert sql[0] == 'A';
    NotStartsWith(sql, "DROP TABLE ", 0);
    NotStartsWith(sql, "SELECT * FROM ", 0);
    NotStartsWith(sql, "DESCRIBE ", 0);
    assert sql == "ALTER TABLE " + (table + [' '] + rest);
    StripPrefixOfConcat("ALTER TABLE ", table + [' '] + rest);
    CutOfConcat(table, ' ', rest);
  }

  /** Knowing the table, the action is whatever follows its name and a space. */
  lemma AlterOn(table: string, action: string)
    ensures ParseAlterOn(table, AlterSql(table, action)) == ParseAlter(table, action)
  {
    assert AlterSql(table, action) == ("ALTER TABLE " + table + " ") + action;
    StripPrefixOfConcat("ALTER TABLE " + table + " ", action);
  }

  /** Past `ADD CONSTRAINT `, the constraint name runs up to the first space. */
  lemma ParseAddConstraint(table: string, name: string, rest: string)
    requires ' ' !in name
    ensures ParseAlter(table, AddConstraintSql(name, rest)) == ParseConstraint(table, name, rest)
  {
    var s := AddConstraintSql(name, rest);
    assert s[0] == 'A';
    assert s != "DROP PRIMARY KEY";
    NotStartsWith(s, "DROP COLUMN ", 0);
    NotStartsWith(s, "DROP FOREIGN KEY ", 0);
    NotStartsWith(s, "DROP INDEX ", 0);
    assert s == "ADD CONSTRAINT " + (name + [' '] + rest);
    StripPrefixOfConcat("ADD CONSTRAINT ", name + [' '] + rest);
    CutOfConcat(name, ' ', rest);
  }

  lemma ParseAlterDropColumn(table: string, column: string)
    ensures ParseAlter(table, "DROP COLUMN " + column) == Some(DropColumn(table, column))
  {
    var rest := "DROP COLUMN " + column;
    assert rest[5] == 'C';
    assert rest != "DROP PRIMARY KEY";
    StripPrefixOfConcat("DROP COLUMN ", column);
  }

  lemma ParseAlterDropForeignKey(table: string, constraint: string)
    ensures ParseAlter(table, "DROP FOREIGN KEY " + constraint) == Some(DropForeignKey(table, constraint))
  {
    var rest := "DROP FOREIGN KEY " + constraint;
    assert rest[5] == 'F';
    assert rest != "DROP PRIMARY KEY";
    NotStartsWith(rest, "DROP COLUMN ", 5);
    StripPrefixOfConcat("DROP FOREIGN KEY ", constraint);
  }

  lemma ParseAlterDropIndex(table: string, constraint: string)
    ensures ParseAlter(table, "DROP INDEX " + constraint) == Some(DropIndex(table, constraint))
  {
    var rest := "DROP INDEX " + constraint;
    assert rest[5] == 'I';
    assert rest != "DROP PRIMARY KEY";
    NotStartsWith(rest, "DROP COLUMN ", 5);
    NotStartsWith(rest, "DROP FOREIGN KEY ", 5);
    StripPrefixOfConcat("DROP INDEX ", constraint);
  }

  lemma ParseConstraintPrimaryKey(table: string, name: string, column: string)
    ensures ParseConstraint(table, name, "PRIMARY KEY (" + column + ")") == Some(AddPrimaryKey(table, name, column))
  {
    assert "PRIMARY KEY (" + column + ")" == "PRIMARY KEY (" + (column + ")");
    StripPrefixOfConcat("PRIMARY KEY (", column + ")");
    UncloseOfConcat(column);
  }

  lemma ParseConstraintUnique(table: string, name: string, column: string)
    ensures ParseConstraint(table, name, "UNIQUE (" + column + ")") == Some(AddUnique(table, name, column))
  {
    var body := "UNIQUE (" + column + ")";
    assert body[0] == 'U';
    NotStartsWith(body, "PRIMARY KEY (", 0);
    assert body == "UNIQUE (" + (column + ")");
    StripPrefixOfConcat("UNIQUE (", column + ")");
    UncloseOfConcat(column);
  }

  lemma ParseConstraintForeignKey(table: string, name: string, reference: string)
    ensures ParseConstraint(table, name, FOREIGN_KEY_INDENT + "FOREIGN KEY (" + reference)
      == ParseReference(table, name, reference)
  {
    var lead := FOREIGN_KEY_INDENT + "FOREIGN KEY (";
    var body := lead + reference;
    assert body[0] == '\n';
    NotStartsWith(body, "PRIMARY KEY (", 0);
    NotStartsWith(body, "UNIQUE (", 0);
    assert |lead| == |FOREIGN_KEY_INDENT| + 13;
    StripPrefixOfConcat(lead, reference);
  }

  /** The foreign-key body is its lead followed by the part `ParseReference` reads. */
  lemma ForeignKeyBody(column: string, refTable: string, refColumn: string)
    ensures FOREIGN_KEY_INDENT + "FOREIGN KEY (" + column + ") REFERENCES " + refTable + "(" + refColumn + ")"
      == FOREIGN_KEY_INDENT + "FOREIGN KEY (" + (column + ") REFERENCES " + (refTable + "(" + refColumn + ")"))
  {
    var lead := FOREIGN_KEY_INDENT + "FOREIGN KEY (";
    Regroup5(lead + column + ") REFERENCES ", refTable, "(", refColumn, ")");
    Regroup4(lead, column, ") REFERENCES ", refTable + "(" + refColumn + ")");
  }

  /** Reads `<refTable>(<refColumn>)` back into its two fields. */
  lemma ReadTarget(refTable: string, refColumn: string)
    requires '(' !in refTable
    ensures var q := Cut(refTable + "(" + refColumn + ")", '(');
      q.Some? && q.value.0 == refTable && Unclose(q.value.1) == Some(refColumn)
  {
    assert refTable + "(" + refColumn + ")" == refTable + ['('] + (refColumn + ")");
    CutOfConcat(refTable, '(', refColumn + ")");
    UncloseOfConcat(refColumn);
  }

  /** Reads `<column>) REFERENCES <refTable>(<refColumn>)` back into its three fields. */
  lemma ParseReferenceOf(table: string, name: string, column: string, refTable: string, refColumn: string)
    requires ')' !in column && '(' !in refTable
    ensures ParseReference(table, name, column + ") REFERENCES " + (refTable + "(" + refColumn + ")"))
      == Some(AddForeignKey(table, name, column, refTable, refColumn))
  {
    var target := refTable + "(" + refColumn + ")";
    assert column + ") REFERENCES " + target == column + [')'] + (" REFERENCES " + target);
    CutOfConcat(column, ')', " REFERENCES " + target);
    StripPrefixOfConcat(" REFERENCES ", target);
    ReadTarget(refTable, refColumn);
  }
}
