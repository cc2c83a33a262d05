/**
 * Column definitions and the statements built from them: CREATE TABLE, and
 * ALTER TABLE ... ADD COLUMN / MODIFY COLUMN.
 *
 * A column is serialised as its name, a space, its type, then a run of
 * optional modifiers, each appended only when its field is truthy. The full
 * serialiser (CREATE TABLE) knows six modifiers; the reduced one
 * (ADD/MODIFY COLUMN) knows only the length, NOT NULL and DEFAULT.
 * Identifiers and DEFAULT values are written verbatim, without quoting.
 */
module Columns {
  import opened Js
  import opened Text

  /** A column record of the request body; a field the client omits is `Undefined`. */
  datatype Column = Column(
    name: Value,
    typeName: Value,
    length: Value,
    notNull: Value,
    autoIncrement: Value,
    primaryKey: Value,
    unique: Value,
    defaultValue: Value)

  /** `text` when `flag` holds, nothing otherwise: one conditional `+=`. */
  function When(flag: bool, text: string): string {
    if flag then text else ""
  }

  /** `${name} ${type}`, the part every definition starts with. */
  function Head(c: Column): string {
    Render(c.name) + " " + Render(c.typeName)
  }

  /**
   * The definition CREATE TABLE writes for one column: the head followed by
   * the column's modifiers, in rank order, each spelled as its clause.
   */
  function FullDef(c: Column): (r: string)
    ensures r == Appended(Head(c), Modifiers(c))
  {
    SlotTexts(c);
    SlotsSpellModifiers(c);
    Head(c)
    + When(Truthy(c.length), "(" + Render(c.length) + ")")
    + When(Truthy(c.notNull), " NOT NULL")
    + When(Truthy(c.autoIncrement), " AUTO_INCREMENT")
    + When(Truthy(c.primaryKey), " PRIMARY KEY")
    + When(Truthy(c.unique), " UNIQUE")
    + When(Truthy(c.defaultValue), " DEFAULT " + Render(c.defaultValue))
  }

  /**
   * The definition ADD COLUMN and MODIFY COLUMN write for one column: the
   * CREATE TABLE definition of the same column with its AUTO_INCREMENT,
   * PRIMARY KEY and UNIQUE flags cleared, that is, the head followed by the
   * CREATE TABLE modifier list without those three, order kept.
   */
  function ReducedDef(c: Column): (r: string)
    ensures r == FullDef(c.(autoIncrement := Undefined, primaryKey := Undefined, unique := Undefined))
    ensures r == Appended(Head(c), KeepReduced(Modifiers(c)))
  {
    ClearedFullDef(c);
    ClearedModifiers(c);
    Head(c)
    + When(Truthy(c.length), "(" + Render(c.length) + ")")
    + When(Truthy(c.notNull), " NOT NULL")
    + When(Truthy(c.defaultValue), " DEFAULT " + Render(c.defaultValue))
  }

  // ---------------------------------------------------------------------
  // The modifiers as a list: a reference description of the suffix that
  // follows the head, independent of the chain of appends.
  // ---------------------------------------------------------------------

  datatype Modifier =
    | Length(len: Value)
    | NotNull
    | AutoIncrement
    | PrimaryKey
    | Unique
    | Default(value: Value)

  /** The fixed position of each modifier in a definition. */
  function Rank(m: Modifier): nat {
    match m
    case Length(_) => 0
    case NotNull => 1
    case AutoIncrement => 2
    case PrimaryKey => 3
    case Unique => 4
    case Default(_) => 5
  }

  function Spelling(m: Modifier): string {
    match m
    case Length(len) => "(" + Render(len) + ")"
    case NotNull => " NOT NULL"
    case AutoIncrement => " AUTO_INCREMENT"
    case PrimaryKey => " PRIMARY KEY"
    case Unique => " UNIQUE"
    case Default(v) => " DEFAULT " + Render(v)
  }

  /** `def` with the spelling of each modifier of `ms` appended in turn, as the chain of `def +=` does. */
  function Appended(def: string, ms: seq<Modifier>): string
    decreases ms
  {
    if ms == [] then def else Appended(def + Spelling(ms[0]), ms[1..])
  }

  lemma {:induction false} AppendedConcat(def: string, a: seq<Modifier>, b: seq<Modifier>)
    ensures Appended(def, a + b) == Appended(Appended(def, a), b)
    decreases a
  {
    if a == [] {
      assert a + b == b;
    } else {
      assert (a + b)[1..] == a[1..] + b;
      AppendedConcat(def + Spelling(a[0]), a[1..], b);
    }
  }

  /** A modifier agrees with the column when it carries that column's own value. */
  predicate Carries(c: Column, m: Modifier) {
    match m
    case Length(len) => len == c.length
    case Default(v) => v == c.defaultValue
    case _ => true
  }

  /** The field of `c` that switches `m` on is truthy. */
  predicate Enabled(c: Column, m: Modifier) {
    match m
    case Length(_) => Truthy(c.length)
    case NotNull => Truthy(c.notNull)
    case AutoIncrement => Truthy(c.autoIncrement)
    case PrimaryKey => Truthy(c.primaryKey)
    case Unique => Truthy(c.unique)
    case Default(_) => Truthy(c.defaultValue)
  }

  /** The modifier of rank `k`, carrying the column's value where it has one. */
  function Candidate(c: Column, k: nat): (m: Modifier)
    requires k < 6
    ensures Rank(m) == k && Carries(c, m)
  {
    match k
    case 0 => Length(c.length)
    case 1 => NotNull
    case 2 => AutoIncrement
    case 3 => PrimaryKey
    case 4 => Unique
    case _ => Default(c.defaultValue)
  }

  /** Rank and the column's values leave one modifier per rank. */
  lemma CandidateUnique(c: Column, m: Modifier)
    requires Rank(m) < 6 && Carries(c, m)
    ensures m == Candidate(c, Rank(m))
  {
  }

  /** The modifier of rank `k` that `c` asks for, if any. */
  function Slot(c: Column, k: nat): seq<Modifier>
    requires k < 6
  {
    if Enabled(c, Candidate(c, k)) then [Candidate(c, k)] else []
  }

  /** The modifiers of rank `k` and above that `c` asks for. */
  function ModifiersFrom(c: Column, k: nat): seq<Modifier>
    requires k <= 6
    decreases 6 - k
  {
    if k == 6 then [] else Slot(c, k) + ModifiersFrom(c, k + 1)
  }

  /** Those modifiers come in rank order, and are exactly the ones the column enables. */
  lemma {:induction false} ModifiersFromSpec(c: Column, k: nat)
    requires k <= 6
    ensures var ms := ModifiersFrom(c, k);
      && (forall i, j :: 0 <= i < j < |ms| ==> Rank(ms[i]) < Rank(ms[j]))
      && (forall m :: m in ms <==> k <= Rank(m) && Carries(c, m) && Enabled(c, m))
    decreases 6 - k
  {
    if k < 6 {
      ModifiersFromSpec(c, k + 1);
      forall m | Rank(m) == k && Carries(c, m) {
        CandidateUnique(c, m);
      }
    }
  }

  /**
   * The modifiers the CREATE TABLE serialiser emits for `c`: in the fixed
   * order length, NOT NULL, AUTO_INCREMENT, PRIMARY KEY, UNIQUE, DEFAULT,
   * each one exactly when its field is truthy and carrying that field's value.
   */
  function Modifiers(c: Column): (ms: seq<Modifier>)
    ensures forall i, j :: 0 <= i < j < |ms| ==> Rank(ms[i]) < Rank(ms[j])
    ensures forall m :: m in ms <==> Carries(c, m) && Enabled(c, m)
  {
    ModifiersFromSpec(c, 0);
    ModifiersFrom(c, 0)
  }

  /** The modifiers the reduced serialiser knows. */
  predicate InReducedSet(m: Modifier) {
    m.Length? || m.NotNull? || m.Default?
  }

  /** `ms` without the modifiers the reduced serialiser does not know, order kept. */
  function KeepReduced(ms: seq<Modifier>): (r: seq<Modifier>)
    ensures forall m :: m in r <==> m in ms && InReducedSet(m)
  {
    if ms == [] then []
    else (if InReducedSet(ms[0]) then [ms[0]] else []) + KeepReduced(ms[1..])
  }

  /** What the rank-`k` step of the serialiser appends for `c`. */
  function SlotText(c: Column, k: nat): string
    requires k < 6
  {
    When(Enabled(c, Candidate(c, k)), Spelling(Candidate(c, k)))
  }

  /** Appending the modifiers from rank `k` on appends the rank-`k` text, then the rest. */
  lemma AppendedStep(c: Column, def: string, k: nat)
    requires k < 6
    ensures Appended(def, ModifiersFrom(c, k)) == Appended(def + SlotText(c, k), ModifiersFrom(c, k + 1))
  {
    AppendedConcat(def, Slot(c, k), ModifiersFrom(c, k + 1));
    if Slot(c, k) != [] {
      assert Slot(c, k)[1..] == [];
    } else {
      assert def + "" == def;
    }
  }

  /** Each step of the chain of appends in FullDef is the text of one rank. */
  lemma SlotTexts(c: Column)
    ensures SlotText(c, 0) == When(Truthy(c.length), "(" + Render(c.length) + ")")
    ensures SlotText(c, 1) == When(Truthy(c.notNull), " NOT NULL")
    ensures SlotText(c, 2) == When(Truthy(c.autoIncrement), " AUTO_INCREMENT")
    ensures SlotText(c, 3) == When(Truthy(c.primaryKey), " PRIMARY KEY")
    ensures SlotText(c, 4) == When(Truthy(c.unique), " UNIQUE")
    ensures SlotText(c, 5) == When(Truthy(c.defaultValue), " DEFAULT " + Render(c.defaultValue))
  {
  }

  /** Appending the six rank texts in turn spells the modifier list. */
  lemma SlotsSpellModifiers(c: Column)
    ensures Head(c) + SlotText(c, 0) + SlotText(c, 1) + SlotText(c, 2) + SlotText(c, 3) + SlotText(c, 4) + SlotText(c, 5)
      == Appended(Head(c), Modifiers(c))
  {
    var d0 := Head(c);
    var d1 := d0 + SlotText(c, 0);
    var d2 := d1 + SlotText(c, 1);
    var d3 := d2 + SlotText(c, 2);
    var d4 := d3 + SlotText(c, 3);
    var d5 := d4 + SlotText(c, 4);
    var d6 := d5 + SlotText(c, 5);
    AppendedStep(c, d0, 0);
    AppendedStep(c, d1, 1);
    AppendedStep(c, d2, 2);
    AppendedStep(c, d3, 3);
    AppendedStep(c, d4, 4);
    AppendedStep(c, d5, 5);
    assert Appended(d6, ModifiersFrom(c, 6)) == d6;
  }

  /** The CREATE TABLE definition of a column without key flags has only the reduced clauses. */
  lemma ClearedFullDef(c: Column)
    ensures FullDef(c.(autoIncrement := Undefined, primaryKey := Undefined, unique := Undefined))
      == Head(c)
         + When(Truthy(c.length), "(" + Render(c.length) + ")")
         + When(Truthy(c.notNull), " NOT NULL")
         + When(Truthy(c.defaultValue), " DEFAULT " + Render(c.defaultValue))
  {
    var c' := c.(autoIncrement := Undefined, primaryKey := Undefined, unique := Undefined);
    var d := Head(c) + When(Truthy(c.length), "(" + Render(c.length) + ")") + When(Truthy(c.notNull), " NOT NULL");
    assert Head(c') == Head(c);
    assert When(Truthy(Undefined), " AUTO_INCREMENT") == "";
    assert When(Truthy(Undefined), " PRIMARY KEY") == "";
    assert When(Truthy(Undefined), " UNIQUE") == "";
    assert d + "" + "" + "" == d;
  }

  /** Clearing the key flags removes exactly the key modifiers, order kept. */
  lemma ClearedModifiers(c: Column)
    ensures Modifiers(c.(autoIncrement := Undefined, primaryKey := Undefined, unique := Undefined))
      == KeepReduced(Modifiers(c))
  {
    ReducedFrom(c, 0);
  }

  /** Dropping the key modifiers from rank `k` on leaves what the flag-cleared column asks for. */
  lemma {:induction false} ReducedFrom(c: Column, k: nat)
    requires k <= 6
    ensures KeepReduced(ModifiersFrom(c, k))
      == ModifiersFrom(c.(autoIncrement := Undefined, primaryKey := Undefined, unique := Undefined), k)
    decreases 6 - k
  {
    if k < 6 {
      ReducedFrom(c, k + 1);
      KeepReducedConcat(Slot(c, k), ModifiersFrom(c, k + 1));
      if Slot(c, k) != [] {
        assert Slot(c, k)[1..] == [];
      }
    }
  }

  lemma {:induction false} KeepReducedConcat(a: seq<Modifier>, b: seq<Modifier>)
    ensures KeepReduced(a + b) == KeepReduced(a) + KeepReduced(b)
  {
    if a == [] {
      assert a + b == b;
    } else {
      assert (a + b)[1..] == a[1..] + b;
      KeepReducedConcat(a[1..], b);
    }
  }

  /** A falsy length (`0`, `""`, `null`, `false`) is left out, as if absent. */
  lemma FalsyLengthOmitted(c: Column, v: Value)
    requires !Truthy(v)
    ensures FullDef(c.(length := v)) == FullDef(c.(length := Undefined))
    ensures ReducedDef(c.(length := v)) == ReducedDef(c.(length := Undefined))
  {
  }

  /** A falsy default (`0`, `""`, `null`, `false`) is left out, as if absent. */
  lemma FalsyDefaultOmitted(c: Column, v: Value)
    requires !Truthy(v)
    ensures FullDef(c.(defaultValue := v)) == FullDef(c.(defaultValue := Undefined))
    ensures ReducedDef(c.(defaultValue := v)) == ReducedDef(c.(defaultValue := Undefined))
  {
  }

  // ---------------------------------------------------------------------
  // Statements
  // ---------------------------------------------------------------------

  /** The column definitions of a CREATE TABLE, one per input column, in input order. */
  function ColumnDefs(columns: seq<Column>): seq<string> {
    seq(|columns|, i requires 0 <= i < |columns| => FullDef(columns[i]))
  }

  /**
   * The CREATE TABLE statement: the column definitions, in input order,
   * between `CREATE TABLE <table> (` and `)`. A single column is written
   * alone; CreateTableAppend says what each further column adds.
   */
  function CreateTableSql(table: string, columns: seq<Column>): (r: string)
    ensures StartsWith(r, "CREATE TABLE " + table + " (") && r[|r| - 1] == ')'
    ensures |columns| == 1 ==> r == "CREATE TABLE " + table + " (" + FullDef(columns[0]) + ")"
  {
    var open := "CREATE TABLE " + table + " (";
    var inner := Join(ColumnDefs(columns), ", ");
    Enclosed(open, inner);
    if |columns| == 1 then SingleColumnDefs(columns); open + inner + ")" else open + inner + ")"
  }

  /** A single column's definitions list is its full definition alone. */
  lemma SingleColumnDefs(columns: seq<Column>)
    requires |columns| == 1
    ensures Join(ColumnDefs(columns), ", ") == FullDef(columns[0])
  {
    assert ColumnDefs(columns) == [FullDef(columns[0])];
  }

  /**
   * Adding a column at the end of the request adds its definition, after a
   * `", "`, just before the closing parenthesis: definitions appear in
   * input order. With the one-column case of CreateTableSql this determines the statement.
   */
  lemma CreateTableAppend(table: string, columns: seq<Column>, c: Column)
    requires |columns| >= 1
    ensures var before := CreateTableSql(table, columns);
      CreateTableSql(table, columns + [c]) == before[..|before| - 1] + ", " + FullDef(c) + ")"
  {
    var defs := ColumnDefs(columns);
    var d := FullDef(c);
    ColumnDefsAppend(columns, c);
    JoinAppend(defs, ", ", d);
    var open := "CREATE TABLE " + table + " (";
    var prefix := open + Join(defs, ", ");
    Regroup4(open, Join(defs, ", "), ", ", d);
    assert CreateTableSql(table, columns + [c]) == prefix + ", " + d + ")";
    assert (prefix + ")")[..|prefix|] == prefix;
  }

  /** One more column adds one more definition at the end. */
  lemma ColumnDefsAppend(columns: seq<Column>, c: Column)
    ensures ColumnDefs(columns + [c]) == ColumnDefs(columns) + [FullDef(c)]
  {
  }

  /** `ALTER TABLE <table> <keyword> COLUMN <definition>`: the frame shared by ADD and MODIFY. */
  function AlterColumnSql(table: string, keyword: string, def: string): string {
    "ALTER TABLE " + table + " " + keyword + " COLUMN " + def
  }

  /**
   * ALTER TABLE ... ADD COLUMN: the head and the reduced modifier list of
   * `c`, in the frame it shares with MODIFY COLUMN.
   */
  function AddColumnSql(table: string, c: Column): (r: string)
    ensures r == AlterColumnSql(table, "ADD", Appended(Head(c), KeepReduced(Modifiers(c))))
  {
    AlterColumnSql(table, "ADD", ReducedDef(c))
  }

  /**
   * ALTER TABLE ... MODIFY COLUMN: the head and the reduced modifier list
   * of `c`, in the frame it shares with ADD COLUMN.
   */
  function ModifyColumnSql(table: string, c: Column): (r: string)
    ensures r == AlterColumnSql(table, "MODIFY", Appended(Head(c), KeepReduced(Modifiers(c))))
  {
    AlterColumnSql(table, "MODIFY", ReducedDef(c))
  }
}
