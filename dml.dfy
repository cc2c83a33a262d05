/**
 * The parameterised statements: INSERT, UPDATE and DELETE. Identifiers
 * (the table name and the keys of `data` and `where`) are written into
 * the text; the values travel separately as bound parameters, one per `?`.
 *
 * `Bind` gives the meaning of a statement with its parameters: each `?`,
 * left to right, stands for the next parameter. The lemmas at the end show
 * that every key ends up next to its own value.
 */
module Dml {
  import opened Wrappers
  import opened Js
  import opened Text

  /** A request object (`data`, `where`) as its entries in `Object.keys` order. */
  type Record = seq<(string, Value)>

  /** `Object.keys(r)`. */
  function Keys(r: Record): seq<string> {
    seq(|r|, i requires 0 <= i < |r| => r[i].0)
  }

  /** `Object.values(r)`. */
  function Values(r: Record): seq<Value> {
    seq(|r|, i requires 0 <= i < |r| => r[i].1)
  }

  /** `Object.keys(r).map(key => `${key} = ?`)`. */
  function Equalities(r: Record): seq<string> {
    seq(|r|, i requires 0 <= i < |r| => r[i].0 + " = ?")
  }

  /** `Object.keys(r).map(() => '?')` for a record of `n` entries. */
  function Marks(n: nat): seq<string> {
    seq(n, i requires 0 <= i < n => "?")
  }

  /** A statement text and the parameter list handed to the driver with it. */
  datatype Statement = Statement(sql: string, params: seq<Value>)

  // ---------------------------------------------------------------------
  // Positional binding
  // ---------------------------------------------------------------------

  /** One position of a bound statement: a character of the text, or a parameter. */
  datatype Piece = Lit(c: char) | Arg(v: Value)

  /** The text with every parameter shown as the `?` it replaced. */
  function Erase(ps: seq<Piece>): string {
    if ps == [] then [] else [if ps[0].Lit? then ps[0].c else '?'] + Erase(ps[1..])
  }

  /** The parameters of a bound statement, left to right. */
  function ArgsOf(ps: seq<Piece>): seq<Value> {
    if ps == [] then [] else (if ps[0].Arg? then [ps[0].v] else []) + ArgsOf(ps[1..])
  }

  function Cons(p: Piece, r: Option<seq<Piece>>): Option<seq<Piece>> {
    match r
    case None => None
    case Some(ps) => Some([p] + ps)
  }

  /**
   * Puts the parameters in place of the `?` marks, the first parameter at the
   * first mark and so on. It fails exactly when the number of marks and the
   * number of parameters differ; otherwise the text outside the marks is kept
   * and the parameters appear in the order given.
   */
  function Bind(sql: string, params: seq<Value>): (r: Option<seq<Piece>>)
    ensures r.Some? <==> Count(sql, '?') == |params|
    decreases |sql|
  {
    if sql == [] then
      (if params == [] then Some([]) else None)
    else if sql[0] == '?' then
      (if params == [] then None else Cons(Arg(params[0]), Bind(sql[1..], params[1..])))
    else
      Cons(Lit(sql[0]), Bind(sql[1..], params))
  }

  /**
   * A successful binding keeps the text outside the marks and places the
   * parameters in the order given.
   */
  lemma {:induction false} BindKeepsTextAndOrder(sql: string, params: seq<Value>)
    requires Count(sql, '?') == |params|
    ensures Erase(Bind(sql, params).value) == sql
    ensures ArgsOf(Bind(sql, params).value) == params
    decreases |sql|
  {
    if sql != [] {
      var ps := Bind(sql, params).value;
      if sql[0] == '?' {
        BindKeepsTextAndOrder(sql[1..], params[1..]);
        assert ps == [Arg(params[0])] + Bind(sql[1..], params[1..]).value;
        assert ps[1..] == Bind(sql[1..], params[1..]).value;
        assert params == [params[0]] + params[1..];
      } else {
        BindKeepsTextAndOrder(sql[1..], params);
        assert ps == [Lit(sql[0])] + Bind(sql[1..], params).value;
        assert ps[1..] == Bind(sql[1..], params).value;
      }
      assert sql == [sql[0]] + sql[1..];
    }
  }

  /** The characters of `s`, as literal pieces. */
  function Lits(s: string): seq<Piece> {
    seq(|s|, i requires 0 <= i < |s| => Lit(s[i]))
  }

  /** Text without marks binds to itself and takes no parameters. */
  lemma {:induction false} BindLiteral(s: string)
    requires '?' !in s
    ensures Bind(s, []) == Some(Lits(s))
    decreases |s|
  {
    if s != [] {
      assert s[0] != '?' && '?' !in s[1..] by {
        assert s == [s[0]] + s[1..];
      }
      BindLiteral(s[1..]);
      assert Bind(s, []) == Cons(Lit(s[0]), Bind(s[1..], []));
      assert Cons(Lit(s[0]), Some(Lits(s[1..]))) == Some([Lit(s[0])] + Lits(s[1..]));
      assert Lits(s) == [Lit(s[0])] + Lits(s[1..]);
    } else {
      assert Lits(s) == [];
    }
  }

  /** Binding splits at any point where the marks before it use up the parameters before it. */
  lemma {:induction false} BindConcat(a: string, b: string, p: seq<Value>, q: seq<Value>)
    requires Count(a, '?') == |p| && Count(b, '?') == |q|
    ensures Count(a + b, '?') == |p + q|
    ensures Bind(a + b, p + q) == Some(Bind(a, p).value + Bind(b, q).value)
    decreases |a|, 1
  {
    CountConcat(a, b, '?');
    if a == [] {
      assert p == [];
      assert a + b == b && p + q == q;
      assert Bind(a, p) == Some([]);
      assert [] + Bind(b, q).value == Bind(b, q).value;
    } else if a[0] == '?' {
      BindConcatMark(a, b, p, q);
    } else {
      BindConcatLit(a, b, p, q);
    }
  }

  /** Prepending a piece to a concatenation prepends it to the first part. */
  lemma ConsPrefix(piece: Piece, x: seq<Piece>, y: seq<Piece>)
    ensures Cons(piece, Some(x + y)) == Some(Cons(piece, Some(x)).value + y)
  {
    assert [piece] + (x + y) == ([piece] + x) + y;
  }

  /** BindConcat when `a` starts with a mark. */
  lemma {:induction false} BindConcatMark(a: string, b: string, p: seq<Value>, q: seq<Value>)
    requires Count(a, '?') == |p| && Count(b, '?') == |q|
    requires a != [] && a[0] == '?'
    ensures Bind(a + b, p + q) == Some(Bind(a, p).value + Bind(b, q).value)
    decreases |a|, 0
  {
    assert (a + b)[1..] == a[1..] + b;
    assert (p + q)[1..] == p[1..] + q;
    BindConcat(a[1..], b, p[1..], q);
    assert (a + b)[0] == '?' && (p + q)[0] == p[0];
    var x, y := Bind(a[1..], p[1..]).value, Bind(b, q).value;
    assert Bind(a, p) == Cons(Arg(p[0]), Some(x));
    assert Bind(a + b, p + q) == Cons(Arg(p[0]), Some(x + y));
    ConsPrefix(Arg(p[0]), x, y);
  }

  /** BindConcat when `a` starts with literal text. */
  lemma {:induction false} BindConcatLit(a: string, b: string, p: seq<Value>, q: seq<Value>)
    requires Count(a, '?') == |p| && Count(b, '?') == |q|
    requires a != [] && a[0] != '?'
    ensures Bind(a + b, p + q) == Some(Bind(a, p).value + Bind(b, q).value)
    decreases |a|, 0
  {
    assert (a + b)[1..] == a[1..] + b;
    BindConcat(a[1..], b, p, q);
    assert (a + b)[0] == a[0];
    var x, y := Bind(a[1..], p).value, Bind(b, q).value;
    assert Bind(a, p) == Cons(Lit(a[0]), Some(x));
    assert Bind(a + b, p + q) == Cons(Lit(a[0]), Some(x + y));
    ConsPrefix(Lit(a[0]), x, y);
  }

  /** A single mark takes a single parameter. */
  lemma BindMark(v: Value)
    ensures Count("?", '?') == 1
    ensures Bind("?", [v]) == Some([Arg(v)])
  {
    assert "?"[0] == '?' && "?"[1..] == [];
    assert [v][0] == v && [v][1..] == [];
    assert Bind([], []) == Some([]);
    assert Bind("?", [v]) == Cons(Arg(v), Bind([], []));
    assert Cons(Arg(v), Some([])) == Some([Arg(v)] + []);
    assert [Arg(v)] + [] == [Arg(v)];
  }

  /** `k = <v>` for each entry, `sep` between entries: the reference meaning of a SET or WHERE list. */
  function Assignments(r: Record, sep: string): seq<Piece>
    decreases |r|
  {
    if |r| == 0 then []
    else if |r| == 1 then Lits(r[0].0 + " = ") + [Arg(r[0].1)]
    else Lits(r[0].0 + " = ") + [Arg(r[0].1)] + Lits(sep) + Assignments(r[1..], sep)
  }

  /** The values, `sep` between them: the reference meaning of a VALUES list. */
  function ArgList(vs: seq<Value>, sep: string): seq<Piece>
    decreases |vs|
  {
    if |vs| == 0 then []
    else if |vs| == 1 then [Arg(vs[0])]
    else [Arg(vs[0])] + Lits(sep) + ArgList(vs[1..], sep)
  }

  /** No key of `r` contains a `?`. */
  predicate KeysAvoidMarks(r: Record) {
    forall i :: 0 <= i < |r| ==> '?' !in r[i].0
  }

  /** A single `key = ?` takes a single parameter, which lands after the key. */
  lemma EqualityBind(k: string, v: Value)
    requires '?' !in k
    ensures Count(k + " = ?", '?') == 1
    ensures Bind(k + " = ?", [v]) == Some(Lits(k + " = ") + [Arg(v)])
  {
    var head := k + " = ";
    assert k + " = ?" == head + "?";
    assert '?' !in head;
    CountAbsent(head, '?');
    BindLiteral(head);
    BindMark(v);
    BindConcat(head, "?", [], [v]);
    assert [] + [v] == [v];
  }

  /** A separator followed by a bound list binds to the separator's text followed by that list. */
  lemma SeparatorBind(sep: string, tail: string, vs: seq<Value>, ps: seq<Piece>)
    requires '?' !in sep && Count(tail, '?') == |vs| && Bind(tail, vs) == Some(ps)
    ensures Count(sep + tail, '?') == |vs|
    ensures Bind(sep + tail, vs) == Some(Lits(sep) + ps)
  {
    CountAbsent(sep, '?');
    BindLiteral(sep);
    BindConcat(sep, tail, [], vs);
    assert [] + vs == vs;
  }

  /** A `key = ?` list bound to the record's values gives each key its own value. */
  lemma {:induction false} EqualitiesBind(r: Record, sep: string)
    requires '?' !in sep && KeysAvoidMarks(r)
    ensures Count(Join(Equalities(r), sep), '?') == |r|
    ensures Bind(Join(Equalities(r), sep), Values(r)) == Some(Assignments(r, sep))
    decreases |r|
  {
    if |r| == 0 {
    } else {
      var k, v := r[0].0, r[0].1;
      assert k + " = ?" == Equalities(r)[0];
      if |r| == 1 {
        EqualityBind(k, v);
        assert Values(r) == [v];
      } else {
        var rest := r[1..];
        assert Equalities(r)[1..] == Equalities(rest);
        assert Values(r) == [v] + Values(rest);
        EqualitiesBind(rest, sep);
        var tail := Join(Equalities(rest), sep);
        ConsEqualitiesBind(k, v, sep, tail, Values(rest), Assignments(rest, sep));
        assert Join(Equalities(r), sep) == (k + " = ?") + (sep + tail);
        assert Assignments(r, sep) == Lits(k + " = ") + [Arg(v)] + Lits(sep) + Assignments(rest, sep);
      }
    }
  }

  /** One more `key = ?` in front of a bound list binds its key to one more value in front. */
  lemma ConsEqualitiesBind(k: string, v: Value, sep: string, tail: string, vs: seq<Value>, ps: seq<Piece>)
    requires '?' !in k && '?' !in sep && Count(tail, '?') == |vs| && Bind(tail, vs) == Some(ps)
    ensures Count((k + " = ?") + (sep + tail), '?') == 1 + |vs|
    ensures Bind((k + " = ?") + (sep + tail), [v] + vs) == Some(Lits(k + " = ") + [Arg(v)] + Lits(sep) + ps)
  {
    EqualityBind(k, v);
    SeparatorBind(sep, tail, vs, ps);
    BindConcat(k + " = ?", sep + tail, [v], vs);
    var x := Lits(k + " = ");
    assert (x + [Arg(v)]) + (Lits(sep) + ps) == x + [Arg(v)] + Lits(sep) + ps;
  }

  /** A `?, ?, ...` list bound to values gives those values, in order. */
  lemma {:induction false} MarksBind(vs: seq<Value>, sep: string)
    requires '?' !in sep
    ensures Count(Join(Marks(|vs|), sep), '?') == |vs|
    ensures Bind(Join(Marks(|vs|), sep), vs) == Some(ArgList(vs, sep))
    decreases |vs|
  {
    if |vs| == 0 {
    } else {
      BindMark(vs[0]);
      if |vs| == 1 {
        assert Marks(|vs|) == ["?"];
      } else {
        var rest := vs[1..];
        assert Marks(|vs|)[1..] == Marks(|rest|);
        MarksBind(rest, sep);
        CountAbsent(sep, '?');
        BindLiteral(sep);
        var tail := Join(Marks(|rest|), sep);
        BindConcat(sep, tail, [], rest);
        assert [] + rest == rest;
        BindConcat("?", sep + tail, [vs[0]], rest);
        assert vs == [vs[0]] + rest;
        assert Join(Marks(|vs|), sep) == "?" + (sep + tail);
        var y, z := Lits(sep), ArgList(rest, sep);
        assert Bind(sep + tail, rest).value == y + z;
        assert ArgList(vs, sep) == [Arg(vs[0])] + y + z;
        assert [Arg(vs[0])] + (y + z) == [Arg(vs[0])] + y + z;
      }
    }
  }

  // ---------------------------------------------------------------------
  // Counting the marks
  // ---------------------------------------------------------------------

  /** The `?` characters written inside the keys of `r`. */
  function KeyMarks(r: Record): nat {
    if r == [] then 0 else Count(r[0].0, '?') + KeyMarks(r[1..])
  }

  lemma {:induction false} KeyMarksZero(r: Record)
    ensures KeyMarks(r) == 0 <==> KeysAvoidMarks(r)
  {
    if r != [] {
      KeyMarksZero(r[1..]);
      CountAbsent(r[0].0, '?');
      assert forall i :: 1 <= i < |r| ==> r[i] == r[1..][i - 1];
    }
  }

  lemma {:induction false} KeysCount(r: Record)
    ensures CountAll(Keys(r), '?') == KeyMarks(r)
  {
    if r != [] {
      assert Keys(r)[1..] == Keys(r[1..]);
      KeysCount(r[1..]);
    }
  }

  lemma {:induction false} EqualitiesCount(r: Record)
    ensures CountAll(Equalities(r), '?') == KeyMarks(r) + |r|
  {
    if r != [] {
      assert Equalities(r)[1..] == Equalities(r[1..]);
      EqualitiesCount(r[1..]);
      CountConcat(r[0].0, " = ?", '?');
      assert Count(" = ?", '?') == 1;
    }
  }

  lemma MarksCount(n: nat)
    ensures CountAll(Marks(n), '?') == n
    decreases n
  {
    if n > 0 {
      assert Marks(n)[1..] == Marks(n - 1);
      MarksCount(n - 1);
    }
  }

  // ---------------------------------------------------------------------
  // The three statements
  // ---------------------------------------------------------------------

  /**
   * The INSERT text: the keys as the column list and one `?` per key as the
   * VALUES list. It holds one `?` per key, plus whatever `?` the table name
   * and the keys themselves carry.
   */
  function InsertSql(table: string, data: Record): (sql: string)
    ensures Count(sql, '?') == |data| + Count(table, '?') + KeyMarks(data)
  {
    var cols := Join(Keys(data), ", ");
    var marks := Join(Marks(|data|), ", ");
    var sql := "INSERT INTO " + table + " (" + cols + ") VALUES (" + marks + ")";
    CountJoin(Keys(data), ", ", '?');
    KeysCount(data);
    CountJoin(Marks(|data|), ", ", '?');
    MarksCount(|data|);
    CountBetween("INSERT INTO ", table, " (", '?');
    CountConcat("INSERT INTO " + table + " (", cols, '?');
    CountPlusFree("INSERT INTO " + table + " (" + cols, ") VALUES (", '?');
    CountConcat("INSERT INTO " + table + " (" + cols + ") VALUES (", marks, '?');
    CountPlusFree("INSERT INTO " + table + " (" + cols + ") VALUES (" + marks, ")", '?');
    sql
  }

  /** With no `?` in the identifiers, the i-th value fills the i-th slot of the VALUES list. */
  lemma InsertBindsInOrder(table: string, data: Record)
    requires '?' !in table && KeysAvoidMarks(data)
    ensures Bind(InsertSql(table, data), Values(data))
      == Some(Lits("INSERT INTO " + table + " (" + Join(Keys(data), ", ") + ") VALUES (")
              + ArgList(Values(data), ", ") + Lits(")"))
  {
    var cols := Join(Keys(data), ", ");
    var marks := Join(Marks(|data|), ", ");
    var pre := "INSERT INTO " + table + " (" + cols + ") VALUES (";
    assert InsertSql(table, data) == pre + marks + ")";
    JoinAvoids(Keys(data), ", ", '?');
    assert '?' !in pre;
    CountAbsent(pre, '?');
    BindLiteral(pre);
    MarksBind(Values(data), ", ");
    BindLiteral(")");
    assert Count(")", '?') == 0 by { CountAbsent(")", '?'); }
    BindConcat(pre, marks, [], Values(data));
    assert [] + Values(data) == Values(data);
    BindConcat(pre + marks, ")", Values(data), []);
    assert Values(data) + [] == Values(data);
  }

  /**
   * POST /api/data/insert: the INSERT text with the record's values as
   * parameters. There are as many parameters as keys, so the driver can pair
   * marks with parameters exactly when no identifier contains a `?`; then
   * the i-th value fills the i-th slot of the VALUES list, whose column is
   * the i-th key.
   */
  function Insert(table: string, data: Record): (st: Statement)
    ensures |st.params| == |data|
      && Count(st.sql, '?') == |st.params| + Count(table, '?') + KeyMarks(data)
    ensures st.params == Values(data)
    ensures Bind(st.sql, st.params).Some? <==> '?' !in table && KeysAvoidMarks(data)
    ensures '?' !in table && KeysAvoidMarks(data) ==>
      Bind(st.sql, st.params)
      == Some(Lits("INSERT INTO " + table + " (" + Join(Keys(data), ", ") + ") VALUES (")
              + ArgList(Values(data), ", ") + Lits(")"))
  {
    CountAbsent(table, '?');
    KeyMarksZero(data);
    var st := Statement(InsertSql(table, data), Values(data));
    if '?' !in table && KeysAvoidMarks(data) then InsertBindsInOrder(table, data); st else st
  }

  /**
   * The UPDATE text: a `key = ?` per `data` key after SET, joined by `, `,
   * and a `key = ?` per `where` key after WHERE, joined by ` AND `.
   */
  function UpdateSql(table: string, data: Record, where: Record): (sql: string)
    ensures Count(sql, '?') == |data| + |where| + Count(table, '?') + KeyMarks(data) + KeyMarks(where)
  {
    var assigns := Join(Equalities(data), ", ");
    var cond := Join(Equalities(where), " AND ");
    var sql := "UPDATE " + table + " SET " + assigns + " WHERE " + cond;
    CountJoin(Equalities(data), ", ", '?');
    EqualitiesCount(data);
    CountJoin(Equalities(where), " AND ", '?');
    EqualitiesCount(where);
    CountBetween("UPDATE ", table, " SET ", '?');
    CountConcat("UPDATE " + table + " SET ", assigns, '?');
    CountPlusFree("UPDATE " + table + " SET " + assigns, " WHERE ", '?');
    CountConcat("UPDATE " + table + " SET " + assigns + " WHERE ", cond, '?');
    sql
  }

  /** With no `?` in the identifiers, each SET and each WHERE key is bound to its own value. */
  lemma UpdateBindsInOrder(table: string, data: Record, where: Record)
    requires '?' !in table && KeysAvoidMarks(data) && KeysAvoidMarks(where)
    ensures Bind(UpdateSql(table, data, where), Values(data) + Values(where))
      == Some(Lits("UPDATE " + table + " SET ") + Assignments(data, ", ")
              + Lits(" WHERE ") + Assignments(where, " AND "))
  {
    var assigns := Join(Equalities(data), ", ");
    var cond := Join(Equalities(where), " AND ");
    var pre := "UPDATE " + table + " SET ";
    assert UpdateSql(table, data, where) == pre + assigns + " WHERE " + cond;
    assert '?' !in pre;
    CountAbsent(pre, '?');
    BindLiteral(pre);
    EqualitiesBind(data, ", ");
    assert '?' !in " WHERE ";
    CountAbsent(" WHERE ", '?');
    BindLiteral(" WHERE ");
    EqualitiesBind(where, " AND ");
    BindConcat(pre, assigns, [], Values(data));
    assert [] + Values(data) == Values(data);
    BindConcat(pre + assigns, " WHERE ", Values(data), []);
    assert Values(data) + [] == Values(data);
    BindConcat(pre + assigns + " WHERE ", cond, Values(data), Values(where));
  }

  /**
   * PUT /api/data/update: the UPDATE text with the `data` values followed
   * by the `where` values as parameters. When no identifier contains a `?`,
   * binding gives each SET key its own `data` value and each WHERE key its
   * own `where` value, in key order; otherwise marks and parameters cannot
   * be paired.
   */
  function Update(table: string, data: Record, where: Record): (st: Statement)
    ensures |st.params| == |data| + |where|
      && Count(st.sql, '?') == |st.params| + Count(table, '?') + KeyMarks(data) + KeyMarks(where)
    ensures st.params[..|data|] == Values(data) && st.params[|data|..] == Values(where)
    ensures Bind(st.sql, st.params).Some? <==> '?' !in table && KeysAvoidMarks(data) && KeysAvoidMarks(where)
    ensures '?' !in table && KeysAvoidMarks(data) && KeysAvoidMarks(where) ==>
      Bind(st.sql, st.params)
      == Some(Lits("UPDATE " + table + " SET ") + Assignments(data, ", ")
              + Lits(" WHERE ") + Assignments(where, " AND "))
  {
    CountAbsent(table, '?');
    KeyMarksZero(data);
    KeyMarksZero(where);
    var st := Statement(UpdateSql(table, data, where), Values(data) + Values(where));
    assert st.params[..|data|] == Values(data);
    assert st.params[|data|..] == Values(where);
    if '?' !in table && KeysAvoidMarks(data) && KeysAvoidMarks(where) then
      UpdateBindsInOrder(table, data, where); st
    else st
  }

  /** The DELETE text: a `key = ?` per `where` key after WHERE, joined by ` AND `. */
  function DeleteSql(table: string, where: Record): (sql: string)
    ensures Count(sql, '?') == |where| + Count(table, '?') + KeyMarks(where)
  {
    var cond := Join(Equalities(where), " AND ");
    var sql := "DELETE FROM " + table + " WHERE " + cond;
    CountJoin(Equalities(where), " AND ", '?');
    EqualitiesCount(where);
    CountBetween("DELETE FROM ", table, " WHERE ", '?');
    CountConcat("DELETE FROM " + table + " WHERE ", cond, '?');
    sql
  }

  /** With no `?` in the identifiers, each WHERE key is compared with its own value. */
  lemma DeleteBindsInOrder(table: string, where: Record)
    requires '?' !in table && KeysAvoidMarks(where)
    ensures Bind(DeleteSql(table, where), Values(where))
      == Some(Lits("DELETE FROM " + table + " WHERE ") + Assignments(where, " AND "))
  {
    var cond := Join(Equalities(where), " AND ");
    var pre := "DELETE FROM " + table + " WHERE ";
    assert DeleteSql(table, where) == pre + cond;
    assert '?' !in pre;
    CountAbsent(pre, '?');
    BindLiteral(pre);
    EqualitiesBind(where, " AND ");
    BindConcat(pre, cond, [], Values(where));
    assert [] + Values(where) == Values(where);
  }

  /**
   * DELETE /api/data/delete: the DELETE text with the `where` values, in key
   * order, as parameters; when no identifier contains a `?`, each WHERE key
   * is compared with its own value.
   */
  function Delete(table: string, where: Record): (st: Statement)
    ensures |st.params| == |where|
      && Count(st.sql, '?') == |st.params| + Count(table, '?') + KeyMarks(where)
    ensures st.params == Values(where)
    ensures Bind(st.sql, st.params).Some? <==> '?' !in table && KeysAvoidMarks(where)
    ensures '?' !in table && KeysAvoidMarks(where) ==>
      Bind(st.sql, st.params) == Some(Lits("DELETE FROM " + table + " WHERE ") + Assignments(where, " AND "))
  {
    CountAbsent(table, '?');
    KeyMarksZero(where);
    var st := Statement(DeleteSql(table, where), Values(where));
    if '?' !in table && KeysAvoidMarks(where) then DeleteBindsInOrder(table, where); st else st
  }
}
