/** The fluent SQL builder `Demir\Database\Query`: one text field per clause, a mode, and
    `build`, which glues the fields the mode uses and cleans up the spaces. A PHP field that
    was never set is `null` and interpolates as the empty text, so it is modelled as `""`;
    no method ever sets a field to `""`. */
module QueryBuilder {
  import opened Wrappers
  import opened Text
  import opened ColumnLists
  import opened Spacing

  /** The `$mode` field. */
  datatype Mode = SelectMode | InsertMode | UpdateMode | DeleteMode

  /** The exception `join` raises for a wrong number of arguments. */
  datatype QueryError = InvalidArguments

  /** `sprintf('%s %s %s %s %s %s %s %s', …)` of select mode. */
  function SelectText(select: string, from: string, join: string, where: string,
                      having: string, groupBy: string, orderBy: string, limit: string): string
  {
    select + " " + from + " " + join + " " + where + " " + having + " " + groupBy + " "
      + orderBy + " " + limit
  }

  /** `sprintf('%s %s %s %s', …)` of update and delete modes. */
  function ChangeText(head: string, where: string, orderBy: string, limit: string): string
  {
    head + " " + where + " " + orderBy + " " + limit
  }

  /** `str_replace('FROM ', '', $this->from)`: the table named by the FROM clause, that is,
      the clause cut at every `FROM ` and glued back without it; a text without `FROM `
      is left as it is. */
  function TableName(from: string): (r: string)
    ensures r == Join("", Split(from, "FROM "))
    ensures !Contains(from, "FROM ") ==> r == from
  {
    ReplaceAllIsSplitJoin(from, "FROM ", "");
    ReplaceAllUnlessPresent(from, "FROM ", "");
    ReplaceAll(from, "FROM ", "")
  }

  /** A `where` or `having` call on a string: seed the keyword when the field is still
      unset, then append a space and the clause. */
  function Appended(field: string, seed: string, clause: string): string
  {
    (if field == "" then seed else field) + " " + clause
  }

  /** The field after one `Appended` call per clause, in order. */
  function AppendedAll(field: string, seed: string, clauses: seq<string>): string
    decreases |clauses|
  {
    if clauses == [] then field
    else AppendedAll(Appended(field, seed, clauses[0]), seed, clauses[1..])
  }

  /** The text an insert, update or on-duplicate call adds for its argument. */
  function PayloadText<V>(data: Payload<V>, kind: ListKind): string
  {
    match data
    case Literal(text) => text
    case Map(entries) =>
      if kind == ForInsert then ColumnsAndPlaceholders(Keys(entries)) else Assignments(Keys(entries))
  }

  class Query {
    var select: string
    var from: string
    var where: string
    var having: string
    var join: string
    var orderBy: string
    var groupBy: string
    var limit: string
    var insert: string
    var update: string
    var delete: string
    var mode: Mode

    /** A fresh builder selects every column of no table yet, in select mode. */
    constructor ()
      ensures select == "SELECT *" && mode == SelectMode
      ensures from == "" && where == "" && having == "" && join == ""
      ensures orderBy == "" && groupBy == "" && limit == ""
      ensures insert == "" && update == "" && delete == ""
    {
      select := "SELECT *";
      from, where, having, join := "", "", "", "";
      orderBy, groupBy, limit := "", "", "";
      insert, update, delete := "", "", "";
      mode := SelectMode;
    }

    method Select(columns: string := "*")
      modifies this`select
      ensures select == "SELECT " + columns
    {
      select := "SELECT " + columns;
    }

    method From(source: string)
      modifies this`from
      ensures from == "FROM " + source
    {
      from := "FROM " + source;
    }

    /** `table($from, $select)`: `select($select)` followed by `from($from)`. */
    method Table(source: string, columns: string := "*")
      modifies this`select, this`from
      ensures select == "SELECT " + columns && from == "FROM " + source
    {
      Select(columns);
      From(source);
    }

    method Where(condition: string)
      modifies this`where
      ensures where == Appended(old(where), "WHERE ", condition)
    {
      if where == "" {
        where := "WHERE ";
      }
      where := where + " " + condition;
    }

    method Having(condition: string)
      modifies this`having
      ensures having == Appended(old(having), "HAVING ", condition)
    {
      if having == "" {
        having := "HAVING ";
      }
      having := having + " " + condition;
    }

    /** `join(...)` with its variadic arguments as a sequence: one argument is an inner
        join, two are a join type and a table, anything else raises and changes nothing. */
    method Join(args: seq<string>) returns (outcome: Outcome<QueryError>)
      modifies this`join
      ensures outcome.Pass? <==> |args| == 1 || |args| == 2
      ensures |args| == 1 ==> join == old(join) + "INNER JOIN " + args[0] + " "
      ensures |args| == 2 ==> join == old(join) + Upper(args[0]) + " JOIN " + args[1] + " "
      ensures outcome.Fail? ==> outcome.error == InvalidArguments && join == old(join)
    {
      var kind: string, table: string;
      if |args| == 1 {
        kind, table := "INNER", args[0];
      } else if |args| == 2 {
        kind, table := Upper(args[0]), args[1];
      } else {
        return Fail(InvalidArguments);
      }
      join := join + kind + " JOIN " + table + " ";
      outcome := Pass;
    }

    method OrderBy(order: string)
      modifies this`orderBy
      ensures orderBy == "ORDER BY " + order
    {
      orderBy := "ORDER BY " + order;
    }

    method GroupBy(group: string)
      modifies this`groupBy
      ensures groupBy == "GROUP BY " + group
    {
      groupBy := "GROUP BY " + group;
    }

    method Limit(bound: string)
      modifies this`limit
      ensures limit == "LIMIT " + bound
    {
      limit := "LIMIT " + bound;
    }

    method Insert<V>(data: Payload<V>)
      modifies this`mode, this`insert
      ensures mode == InsertMode
      ensures insert == "INSERT INTO " + TableName(from) + " " + PayloadText(data, ForInsert)
    {
      mode := InsertMode;
      var table := TableName(from);
      insert := "INSERT INTO " + table + " ";
      match data {
        case Literal(text) =>
          insert := insert + text;
        case Map(entries) =>
          var list := ArrayToString(entries, ForInsert);
          insert := insert + list;
      }
    }

    method OnDuplicateKeyUpdate<V>(data: Payload<V>)
      modifies this`insert
      ensures insert == old(insert) + " ON DUPLICATE KEY UPDATE " + PayloadText(data, ForUpdate)
    {
      insert := insert + " ON DUPLICATE KEY UPDATE ";
      match data {
        case Literal(text) =>
          insert := insert + text;
        case Map(entries) =>
          var list := ArrayToString(entries, ForUpdate);
          insert := insert + list;
      }
    }

    method Update<V>(data: Payload<V>)
      modifies this`mode, this`update
      ensures mode == UpdateMode
      ensures update == "UPDATE " + TableName(from) + " SET " + PayloadText(data, ForUpdate)
    {
      mode := UpdateMode;
      var table := TableName(from);
      update := "UPDATE " + table + " SET ";
      match data {
        case Literal(text) =>
          update := update + text;
        case Map(entries) =>
          var list := ArrayToString(entries, ForUpdate);
          update := update + list;
      }
    }

    method Delete()
      modifies this`mode, this`delete
      ensures mode == DeleteMode
      ensures delete == "DELETE FROM " + TableName(from) + " "
    {
      mode := DeleteMode;
      var table := TableName(from);
      delete := "DELETE FROM " + table + " ";
    }

    /** The text `build` assembles from the fields its mode uses, before the clean-up. */
    function Raw(): string
      reads this
    {
      match mode
      case SelectMode => SelectText(select, from, join, where, having, groupBy, orderBy, limit)
      case InsertMode => insert
      case UpdateMode => ChangeText(update, where, orderBy, limit)
      case DeleteMode => ChangeText(delete, where, orderBy, limit)
    }

    /** `build()`: only the fields of the current mode reach the text, which has no blank
        at either end. */
    function Build(): (s: string)
      reads this
      ensures mode == SelectMode ==>
        s == Normalize(SelectText(select, from, join, where, having, groupBy, orderBy, limit))
      ensures mode == InsertMode ==> s == Normalize(insert)
      ensures mode == UpdateMode ==> s == Normalize(ChangeText(update, where, orderBy, limit))
      ensures mode == DeleteMode ==> s == Normalize(ChangeText(delete, where, orderBy, limit))
      ensures |s| > 0 ==> s[0] !in Blank && s[|s| - 1] !in Blank
    {
      Normalize(Raw())
    }
  }

  /** `build()` keeps every `?` placeholder of the fields its mode uses. */
  lemma BuildKeepsPlaceholders(q: Query)
    ensures Count(q.Build(), '?') == Count(q.Raw(), '?')
  {
    NormalizeCount(q.Raw());
  }

  // ---------------------------------------------------------------------------
  // Lemmas about the clause texts

  /** The seven unset fields of a fresh builder vanish from its text. */
  lemma FreshRendersSelectAll()
    ensures Normalize(SelectText("SELECT *", "", "", "", "", "", "", "")) == "SELECT *"
  {
    assert Clean("SELECT *");
    assert SelectText("SELECT *", "", "", "", "", "", "", "") == "SELECT *" + "       ";
    SqueezeLast("SELECT *", "       ");
    TrimTrailing("SELECT *", Collapse(7));
  }

  /** The table of a FROM clause set by `from(t)` is `t` again. */
  lemma TableNameOfFrom(t: string)
    requires !Contains(t, "FROM ")
    ensures TableName("FROM " + t) == t
  {
    var s := "FROM " + t;
    assert s[..5] == "FROM ";
    assert s[5..] == t;
    ReplaceAllAbsent(t, "FROM ", "");
  }

  /** Successive `where` (or `having`) calls on an unset field keep their clauses in
      call order, each after one space. */
  lemma {:induction false} AppendedInOrder(field: string, seed: string, clauses: seq<string>)
    requires |clauses| > 0 && seed != ""
    requires field == "" || field == seed
    ensures AppendedAll(field, seed, clauses) == seed + " " + Join(" ", clauses)
    decreases |clauses|
  {
    var first := Appended(field, seed, clauses[0]);
    assert first == seed + " " + clauses[0];
    if |clauses| > 1 {
      AppendedAfter(first, seed, clauses[1..]);
      JoinCons(" ", clauses[0], clauses[1..]);
      assert [clauses[0]] + clauses[1..] == clauses;
    }
  }

  lemma {:induction false} AppendedAfter(field: string, seed: string, clauses: seq<string>)
    requires field != ""
    ensures AppendedAll(field, seed, clauses)
         == if clauses == [] then field else field + " " + Join(" ", clauses)
    decreases |clauses|
  {
    if clauses != [] {
      var next := field + " " + clauses[0];
      AppendedAfter(next, seed, clauses[1..]);
      JoinCons(" ", clauses[0], clauses[1..]);
      assert [clauses[0]] + clauses[1..] == clauses;
    }
  }

  /** The insert field with a map names the columns in map order and has one placeholder
      per entry. */
  lemma InsertPlaceholders(table: string, keys: seq<string>)
    requires Without(keys, '?') && '?' !in table
    ensures Count("INSERT INTO " + table + " " + ColumnsAndPlaceholders(keys), '?') == |keys|
  {
    CountColumnsAndPlaceholders(keys);
    CountNone(table, '?');
    CountNone("INSERT INTO ", '?');
    CountConcat("INSERT INTO ", table, '?');
    CountConcat("INSERT INTO " + table, " ", '?');
    CountConcat("INSERT INTO " + table + " ", ColumnsAndPlaceholders(keys), '?');
  }

  // ---------------------------------------------------------------------------
  // Clean texts

  lemma {:induction false} JoinWithout(sep: string, parts: seq<string>, c: char)
    requires c !in sep
    requires forall i :: 0 <= i < |parts| ==> c !in parts[i]
    ensures c !in Join(sep, parts)
    decreases |parts|
  {
    if |parts| > 1 {
      JoinWithout(sep, parts[1..], c);
    }
  }

  /** Plain keys give a clean column list. */
  lemma CleanColumns(keys: seq<string>)
    requires PlainNames(keys)
    ensures Clean(ColumnsAndPlaceholders(keys))
  {
    forall i | 0 <= i < |keys| ensures ' ' !in keys[i] {
      assert forall j :: 0 <= j < |keys[i]| ==> keys[i][j] != ' ';
    }
    JoinWithout(",", keys, ' ');
    JoinWithout(",", Fill(|keys|, "?"), ' ');
    var cols := "(" + Join(",", keys) + ")";
    var vals := "(" + Placeholders(|keys|) + ")";
    CleanWord(cols);
    CleanWord(vals);
    CleanGlue(cols, " VALUES ", vals);
    ColumnsShape(Join(",", keys), Placeholders(|keys|));
  }

  lemma ColumnsShape(columns: string, values: string)
    ensures "(" + columns + ") VALUES (" + values + ")" == "(" + columns + ")" + " VALUES " + ("(" + values + ")")
  {
  }

  /** Column names with no blank and no `?` in them. */
  predicate PlainNames(keys: seq<string>)
  {
    forall k, i :: 0 <= k < |keys| && 0 <= i < |keys[k]| ==> keys[k][i] !in Blank && keys[k][i] != '?'
  }

  /** Plain keys give a clean assignment list when there is at least one. */
  lemma CleanAssignments(keys: seq<string>)
    requires |keys| > 0 && PlainNames(keys)
    ensures Clean(Assignments(keys))
  {
    var parts := Suffixed(keys, "=?");
    forall i | 0 <= i < |parts| ensures ' ' !in parts[i] {
      assert forall j :: 0 <= j < |keys[i]| ==> keys[i][j] != ' ';
      assert parts[i] == keys[i] + "=?";
    }
    JoinWithout(",", parts, ' ');
    var a := Assignments(keys);
    JoinEndsWithLast(",", parts);
    JoinCons(",", parts[0], parts[1..]);
    assert [parts[0]] + parts[1..] == parts;
    if |keys[0]| == 0 {
      assert a[0] == '=';
    } else {
      assert a[0] == keys[0][0];
    }
    CleanWord(a);
  }
}

/** The builder chains of the library's usage example, proved for every table, condition,
    ordering and limit text that the clean-up leaves alone (`Clean`). */
module QueryUsage {
  import opened Text
  import opened ColumnLists
  import opened Spacing
  import opened QueryBuilder

  // ---------------------------------------------------------------------------
  // Clean clause texts

  lemma ClausesClean(t: string, o: string, l: string)
    requires Clean(t) && Clean(o) && Clean(l)
    ensures Clean("FROM " + t) && Clean("ORDER BY " + o) && Clean("LIMIT " + l)
  {
    CleanPrefix("FROM ", t);
    CleanPrefix("ORDER BY ", o);
    CleanPrefix("LIMIT ", l);
  }

  // ---------------------------------------------------------------------------
  // The texts `build` cleans up

  /** The select text of `select(sel)->from(t)->where(c)->orderBy(o)->limit(l)`, squeezed:
      the gaps that the unset join, having and group-by fields leave become one space. */
  lemma SelectSqueeze(sel: string, f: string, c: string, ob: string, lm: string)
    requires Clean(sel) && Clean(f) && Clean(c) && Clean(ob) && Clean(lm)
    ensures Squeeze(SelectText(sel, f, "", "WHERE " + " " + c, "", "", ob, lm))
         == "" + sel + " " + f + " " + "WHERE" + " " + c + " " + ob + " " + lm
  {
    CleanWord("WHERE");
    var r4 := ob + " " + lm;
    var r3 := c + "   " + r4;
    var r2 := "WHERE" + "  " + r3;
    var r1 := f + "  " + r2;
    var p1 := "" + sel + " ";
    var p2 := p1 + f + " ";
    var p3 := p2 + "WHERE" + " ";
    var p4 := p3 + c + " ";
    calc {
      Squeeze(SelectText(sel, f, "", "WHERE " + " " + c, "", "", ob, lm));
      { SelectShape(sel, f, c, ob, lm); }
      "" + Squeeze(sel + " " + r1);
      { SqueezeSingle("", sel, " ", r1); }
      p1 + Squeeze(f + "  " + r2);
      { SqueezeSingle(p1, f, "  ", r2); }
      p2 + Squeeze("WHERE" + "  " + r3);
      { SqueezeSingle(p2, "WHERE", "  ", r3); }
      p3 + Squeeze(c + "   " + r4);
      { SqueezeSingle(p3, c, "   ", r4); }
      p4 + Squeeze(ob + " " + lm);
      { SqueezeSingle(p4, ob, " ", lm); SqueezeClean(lm); }
      p4 + ob + " " + lm;
    }
  }

  lemma SelectShape(sel: string, f: string, c: string, ob: string, lm: string)
    ensures SelectText(sel, f, "", "WHERE " + " " + c, "", "", ob, lm)
         == sel + " " + (f + "  " + ("WHERE" + "  " + (c + "   " + (ob + " " + lm))))
  {
  }

  lemma SelectWords(sel: string, t: string, c: string, o: string, l: string)
    ensures "" + sel + " " + ("FROM " + t) + " " + "WHERE" + " " + c + " " + ("ORDER BY " + o)
            + " " + ("LIMIT " + l)
         == sel + " FROM " + t + " WHERE " + c + " ORDER BY " + o + " LIMIT " + l
  {
  }

  /** `select(sel)->from(t)->where(c)->orderBy(o)->limit(l)` renders each clause once,
      separated by single spaces. */
  lemma SelectWhereOrderLimit(sel: string, t: string, c: string, o: string, l: string)
    requires Clean(sel) && Clean(t) && Clean(c) && Clean(o) && Clean(l)
    ensures Normalize(SelectText(sel, "FROM " + t, "", "WHERE " + " " + c, "", "", "ORDER BY " + o, "LIMIT " + l))
         == sel + " FROM " + t + " WHERE " + c + " ORDER BY " + o + " LIMIT " + l
  {
    ClausesClean(t, o, l);
    SelectSqueeze(sel, "FROM " + t, c, "ORDER BY " + o, "LIMIT " + l);
    SelectWords(sel, t, c, o, l);
    TrimClean(sel + " FROM " + t + " WHERE " + c + " ORDER BY " + o + " LIMIT " + l);
  }

  /** The select text of `table(t)->orderBy(o)`, squeezed: the five spaces that the unset
      join, where, having and group-by fields leave between the clauses become two. */
  lemma SortedSqueeze(f: string, ob: string)
    requires Clean(f) && Clean(ob)
    ensures Squeeze(SelectText("SELECT *", f, "", "", "", "", ob, ""))
         == "" + "SELECT *" + " " + f + "  " + ob + " "
  {
    assert Clean("SELECT *");
    var r2 := ob + " ";
    var r1 := f + "     " + r2;
    var p1 := "" + "SELECT *" + " ";
    var p2 := p1 + f + "  ";
    assert Collapse(5) == 2 && Spaces(2) == "  ";
    calc {
      Squeeze(SelectText("SELECT *", f, "", "", "", "", ob, ""));
      { assert SelectText("SELECT *", f, "", "", "", "", ob, "") == "SELECT *" + " " + r1; }
      "" + Squeeze("SELECT *" + " " + r1);
      { SqueezeSingle("", "SELECT *", " ", r1); }
      p1 + Squeeze(f + "     " + r2);
      { SqueezeStepAfter(p1, f, "     ", r2); }
      p2 + Squeeze(ob + " ");
      { SqueezeSingleLast(p2, ob, " "); }
      p2 + ob + " ";
    }
  }

  lemma SortedWords(t: string, o: string)
    ensures "" + "SELECT *" + " " + ("FROM " + t) + "  " + ("ORDER BY " + o) + " "
         == "SELECT * FROM " + t + "  ORDER BY " + o + Spaces(1)
  {
    assert Spaces(1) == " ";
  }

  /** `table(t)->orderBy(o)` with no filter: two spaces are left where the unset clauses
      were, since the clean-up is not a full collapse. */
  lemma OrderWithoutWhere(t: string, o: string)
    requires Clean(t) && Clean(o)
    ensures Normalize(SelectText("SELECT *", "FROM " + t, "", "", "", "", "ORDER BY " + o, ""))
         == "SELECT * FROM " + t + "  ORDER BY " + o
  {
    CleanPrefix("FROM ", t);
    CleanPrefix("ORDER BY ", o);
    SortedSqueeze("FROM " + t, "ORDER BY " + o);
    SortedWords(t, o);
    TrimTrailing("SELECT * FROM " + t + "  ORDER BY " + o, 1);
  }

  /** The update text of `where(c)->update(...)`, squeezed. */
  lemma UpdateSqueeze(u: string, c: string)
    requires Clean(u) && Clean(c)
    ensures Squeeze(ChangeText(u, "WHERE " + " " + c, "", "")) == "" + u + " " + "WHERE" + " " + c + " "
  {
    CleanWord("WHERE");
    var r2 := c + "  ";
    var r1 := "WHERE" + "  " + r2;
    var p1 := "" + u + " ";
    var p2 := p1 + "WHERE" + " ";
    calc {
      Squeeze(ChangeText(u, "WHERE " + " " + c, "", ""));
      { assert ChangeText(u, "WHERE " + " " + c, "", "") == u + " " + r1; }
      "" + Squeeze(u + " " + r1);
      { SqueezeSingle("", u, " ", r1); }
      p1 + Squeeze("WHERE" + "  " + r2);
      { SqueezeSingle(p1, "WHERE", "  ", r2); }
      p2 + Squeeze(c + "  ");
      { SqueezeSingleLast(p2, c, "  "); }
      p2 + c + " ";
    }
  }

  /** `where(c)->update(...)` renders the assignments, then the filter. */
  lemma UpdateWhere(u: string, c: string)
    requires Clean(u) && Clean(c)
    ensures Normalize(ChangeText(u, "WHERE " + " " + c, "", "")) == u + " WHERE " + c
  {
    UpdateSqueeze(u, c);
    assert "" + u + " " + "WHERE" + " " + c + " " == u + " WHERE " + c + Spaces(1);
    TrimTrailing(u + " WHERE " + c, 1);
  }

  /** The delete text of `where(c)->delete()->orderBy(o)`, squeezed. */
  lemma DeleteSqueeze(d: string, c: string, ob: string)
    requires Clean(d) && Clean(c) && Clean(ob)
    ensures Squeeze(ChangeText(d + " ", "WHERE " + " " + c, ob, ""))
         == "" + d + " " + "WHERE" + " " + c + " " + ob + " "
  {
    CleanWord("WHERE");
    var r3 := ob + " ";
    var r2 := c + " " + r3;
    var r1 := "WHERE" + "  " + r2;
    var p1 := "" + d + " ";
    var p2 := p1 + "WHERE" + " ";
    var p3 := p2 + c + " ";
    calc {
      Squeeze(ChangeText(d + " ", "WHERE " + " " + c, ob, ""));
      { assert ChangeText(d + " ", "WHERE " + " " + c, ob, "") == d + "  " + r1; }
      "" + Squeeze(d + "  " + r1);
      { SqueezeSingle("", d, "  ", r1); }
      p1 + Squeeze("WHERE" + "  " + r2);
      { SqueezeSingle(p1, "WHERE", "  ", r2); }
      p2 + Squeeze(c + " " + r3);
      { SqueezeSingle(p2, c, " ", r3); }
      p3 + Squeeze(ob + " ");
      { SqueezeSingleLast(p3, ob, " "); }
      p3 + ob + " ";
    }
  }

  lemma DeleteWords(t: string, c: string, o: string)
    ensures "" + ("DELETE FROM " + t) + " " + "WHERE" + " " + c + " " + ("ORDER BY " + o) + " "
         == "DELETE FROM " + t + " WHERE " + c + " ORDER BY " + o + Spaces(1)
  {
    assert Spaces(1) == " ";
  }

  /** `where(c)->delete()->orderBy(o)` renders the delete head, the filter and the order. */
  lemma DeleteWhereOrder(t: string, c: string, o: string)
    requires Clean(t) && Clean(c) && Clean(o)
    ensures Normalize(ChangeText("DELETE FROM " + t + " ", "WHERE " + " " + c, "ORDER BY " + o, ""))
         == "DELETE FROM " + t + " WHERE " + c + " ORDER BY " + o
  {
    CleanPrefix("DELETE FROM ", t);
    CleanPrefix("ORDER BY ", o);
    DeleteSqueeze("DELETE FROM " + t, c, "ORDER BY " + o);
    DeleteWords(t, c, o);
    TrimTrailing("DELETE FROM " + t + " WHERE " + c + " ORDER BY " + o, 1);
  }

  // ---------------------------------------------------------------------------
  // Insert and update texts

  /** An insert, update or on-duplicate argument whose text the clean-up leaves alone:
      clean literal text, or plain column names (at least one for an assignment list). */
  predicate Ready<V>(data: Payload<V>, kind: ListKind)
  {
    match data
    case Literal(text) => Clean(text)
    case Map(entries) => PlainNames(Keys(entries)) && (kind == ForUpdate ==> |entries| > 0)
  }

  lemma ReadyClean<V>(data: Payload<V>, kind: ListKind)
    requires Ready(data, kind)
    ensures Clean(PayloadText(data, kind))
  {
    if data.Map? {
      if kind == ForInsert {
        CleanColumns(Keys(data.entries));
      } else {
        CleanAssignments(Keys(data.entries));
      }
    }
  }

  lemma PlainWithout(keys: seq<string>)
    requires PlainNames(keys)
    ensures Without(keys, '?') && Without(keys, ' ')
  {
  }

  /** The text of `table(t)->insert(data)` is `INSERT INTO t ` and the insert list. */
  lemma InsertText<V>(t: string, data: Payload<V>)
    requires Clean(t) && Ready(data, ForInsert)
    ensures Clean("INSERT INTO " + t + " " + PayloadText(data, ForInsert))
  {
    CleanPrefix("INSERT INTO ", t);
    ReadyClean(data, ForInsert);
    CleanJoin("INSERT INTO " + t, PayloadText(data, ForInsert));
  }

  /** The on-duplicate suffix keeps the insert text clean. */
  lemma OnDuplicateText<V>(ins: string, dup: Payload<V>)
    requires Clean(ins) && Ready(dup, ForUpdate)
    ensures Clean(ins + " ON DUPLICATE KEY UPDATE " + PayloadText(dup, ForUpdate))
  {
    ReadyClean(dup, ForUpdate);
    CleanGlue(ins, " ON DUPLICATE KEY UPDATE ", PayloadText(dup, ForUpdate));
  }

  /** The assignments of `table(t)->update(data)`. */
  lemma UpdateText<V>(t: string, data: Payload<V>)
    requires Clean(t) && Ready(data, ForUpdate)
    ensures Clean("UPDATE " + t + " SET " + PayloadText(data, ForUpdate))
  {
    CleanPrefix("UPDATE ", t);
    ReadyClean(data, ForUpdate);
    CleanGlue("UPDATE " + t, " SET ", PayloadText(data, ForUpdate));
  }

  /** `select('*')` with a filter, an order and a limit: the general case for `*`. */
  lemma SelectAllWhereOrderLimit(t: string, c: string, o: string, l: string)
    requires Clean(t) && Clean(c) && Clean(o) && Clean(l)
    ensures Normalize(SelectText("SELECT *", "FROM " + t, "", "WHERE " + " " + c, "", "", "ORDER BY " + o, "LIMIT " + l))
         == "SELECT * FROM " + t + " WHERE " + c + " ORDER BY " + o + " LIMIT " + l
  {
    assert Clean("SELECT *");
    SelectWhereOrderLimit("SELECT *", t, c, o, l);
    SelectAllText(t, c, o, l);
  }

  lemma SelectAllText(t: string, c: string, o: string, l: string)
    ensures "SELECT *" + " FROM " + t + " WHERE " + c + " ORDER BY " + o + " LIMIT " + l
         == "SELECT * FROM " + t + " WHERE " + c + " ORDER BY " + o + " LIMIT " + l
  {
  }

  /** Two `where` calls on an unset filter give one `WHERE`, then both conditions. */
  lemma TwoWheres(c1: string, c2: string)
    ensures Appended(Appended("", "WHERE ", c1), "WHERE ", c2) == "WHERE " + " " + (c1 + " " + c2)
  {
    assert Appended("", "WHERE ", c1) == "WHERE " + " " + c1;
  }

  lemma TwoConditionsWords(cols: string, t: string, c1: string, c2: string, o: string, l: string)
    ensures "SELECT " + cols + " FROM " + t + " WHERE " + (c1 + " " + c2) + " ORDER BY " + o + " LIMIT " + l
         == "SELECT " + cols + " FROM " + t + " WHERE " + c1 + " " + c2 + " ORDER BY " + o + " LIMIT " + l
  {
  }

  /** `select(cols)` with two filter conditions, an order and a limit. */
  lemma TwoConditions(cols: string, t: string, c1: string, c2: string, o: string, l: string)
    requires Clean(cols) && Clean(t) && Clean(c1) && Clean(c2) && Clean(o) && Clean(l)
    ensures Normalize(SelectText("SELECT " + cols, "FROM " + t, "", Appended(Appended("", "WHERE ", c1), "WHERE ", c2),
                                 "", "", "ORDER BY " + o, "LIMIT " + l))
         == "SELECT " + cols + " FROM " + t + " WHERE " + c1 + " " + c2 + " ORDER BY " + o + " LIMIT " + l
  {
    CleanPrefix("SELECT ", cols);
    CleanJoin(c1, c2);
    TwoWheres(c1, c2);
    SelectWhereOrderLimit("SELECT " + cols, t, c1 + " " + c2, o, l);
    TwoConditionsWords(cols, t, c1, c2, o, l);
  }

  /** The insert text with an on-duplicate suffix is clean, so `build` leaves it alone. */
  lemma InsertOrUpdateText<V>(t: string, data: Payload<V>, dup: Payload<V>)
    requires Clean(t) && Ready(data, ForInsert) && Ready(dup, ForUpdate)
    ensures Normalize("INSERT INTO " + t + " " + PayloadText(data, ForInsert)
                      + " ON DUPLICATE KEY UPDATE " + PayloadText(dup, ForUpdate))
         == "INSERT INTO " + t + " " + PayloadText(data, ForInsert)
            + " ON DUPLICATE KEY UPDATE " + PayloadText(dup, ForUpdate)
  {
    var ins := "INSERT INTO " + t + " " + PayloadText(data, ForInsert);
    InsertText(t, data);
    OnDuplicateText(ins, dup);
    NormalizeClean(ins + " ON DUPLICATE KEY UPDATE " + PayloadText(dup, ForUpdate));
  }

  /** One placeholder per entry of both maps. */
  lemma InsertOrUpdateCount<V>(t: string, data: seq<(string, V)>, dup: seq<(string, V)>)
    requires '?' !in t && PlainNames(Keys(data)) && PlainNames(Keys(dup))
    ensures Count("INSERT INTO " + t + " " + ColumnsAndPlaceholders(Keys(data))
                  + " ON DUPLICATE KEY UPDATE " + Assignments(Keys(dup)), '?') == |data| + |dup|
  {
    var ins := "INSERT INTO " + t + " " + ColumnsAndPlaceholders(Keys(data));
    PlainWithout(Keys(data));
    PlainWithout(Keys(dup));
    InsertPlaceholders(t, Keys(data));
    CountAssignments(Keys(dup));
    CountNone(" ON DUPLICATE KEY UPDATE ", '?');
    CountConcat(ins, " ON DUPLICATE KEY UPDATE ", '?');
    CountConcat(ins + " ON DUPLICATE KEY UPDATE ", Assignments(Keys(dup)), '?');
  }

  // ---------------------------------------------------------------------------
  // What a builder in a given state renders

  /** A builder whose fields hold `select('*')->from(t)->where(c)->orderBy(o)->limit(l)`. */
  lemma RendersFeatured(q: Query, t: string, c: string, o: string, l: string)
    requires Clean(t) && Clean(c) && Clean(o) && Clean(l)
    requires q.mode == SelectMode && q.select == "SELECT *" && q.from == "FROM " + t
    requires q.join == "" && q.where == "WHERE " + " " + c && q.having == "" && q.groupBy == ""
    requires q.orderBy == "ORDER BY " + o && q.limit == "LIMIT " + l
    ensures q.Build() == "SELECT * FROM " + t + " WHERE " + c + " ORDER BY " + o + " LIMIT " + l
  {
    SelectAllWhereOrderLimit(t, c, o, l);
  }

  /** The same builder after `select(cols)`. */
  lemma RendersSelected(q: Query, cols: string, t: string, c: string, o: string, l: string)
    requires Clean(cols) && Clean(t) && Clean(c) && Clean(o) && Clean(l)
    requires q.mode == SelectMode && q.select == "SELECT " + cols && q.from == "FROM " + t
    requires q.join == "" && q.where == "WHERE " + " " + c && q.having == "" && q.groupBy == ""
    requires q.orderBy == "ORDER BY " + o && q.limit == "LIMIT " + l
    ensures q.Build() == "SELECT " + cols + " FROM " + t + " WHERE " + c + " ORDER BY " + o + " LIMIT " + l
  {
    CleanPrefix("SELECT ", cols);
    SelectWhereOrderLimit("SELECT " + cols, t, c, o, l);
  }

  /** A builder with two `where` calls keeps both conditions, in call order. */
  lemma RendersTwoConditions(q: Query, cols: string, t: string, c1: string, c2: string, o: string, l: string)
    requires Clean(cols) && Clean(t) && Clean(c1) && Clean(c2) && Clean(o) && Clean(l)
    requires q.mode == SelectMode && q.select == "SELECT " + cols && q.from == "FROM " + t
    requires q.join == "" && q.where == Appended(Appended("", "WHERE ", c1), "WHERE ", c2)
    requires q.having == "" && q.groupBy == ""
    requires q.orderBy == "ORDER BY " + o && q.limit == "LIMIT " + l
    ensures q.Build()
         == "SELECT " + cols + " FROM " + t + " WHERE " + c1 + " " + c2 + " ORDER BY " + o + " LIMIT " + l
  {
    TwoConditions(cols, t, c1, c2, o, l);
  }

  /** A builder whose fields hold `table(t)->orderBy(o)`. */
  lemma RendersSorted(q: Query, t: string, o: string)
    requires Clean(t) && Clean(o)
    requires q.mode == SelectMode && q.select == "SELECT *" && q.from == "FROM " + t
    requires q.join == "" && q.where == "" && q.having == "" && q.groupBy == ""
    requires q.orderBy == "ORDER BY " + o && q.limit == ""
    ensures q.Build() == "SELECT * FROM " + t + "  ORDER BY " + o
  {
    OrderWithoutWhere(t, o);
  }

  /** A builder in insert mode whose insert field holds `table(t)->insert(data)`. */
  lemma RendersInsert<V>(q: Query, t: string, data: Payload<V>)
    requires Clean(t) && !Contains(t, "FROM ") && Ready(data, ForInsert)
    requires q.mode == InsertMode
    requires q.insert == "INSERT INTO " + TableName("FROM " + t) + " " + PayloadText(data, ForInsert)
    ensures q.Build() == "INSERT INTO " + t + " " + PayloadText(data, ForInsert)
    ensures data.Map? && '?' !in t ==> Count(q.Build(), '?') == |data.entries|
  {
    TableNameOfFrom(t);
    InsertText(t, data);
    NormalizeClean(q.insert);
    if data.Map? && '?' !in t {
      PlainWithout(Keys(data.entries));
      InsertPlaceholders(t, Keys(data.entries));
    }
  }

  /** The same after `onDuplicateKeyUpdate(dup)`. */
  lemma RendersInsertOrUpdate<V>(q: Query, t: string, data: Payload<V>, dup: Payload<V>)
    requires Clean(t) && !Contains(t, "FROM ") && Ready(data, ForInsert) && Ready(dup, ForUpdate)
    requires q.mode == InsertMode
    requires q.insert == "INSERT INTO " + TableName("FROM " + t) + " " + PayloadText(data, ForInsert)
                         + " ON DUPLICATE KEY UPDATE " + PayloadText(dup, ForUpdate)
    ensures q.Build() == "INSERT INTO " + t + " " + PayloadText(data, ForInsert)
                         + " ON DUPLICATE KEY UPDATE " + PayloadText(dup, ForUpdate)
    ensures data.Map? && dup.Map? && '?' !in t ==> Count(q.Build(), '?') == |data.entries| + |dup.entries|
  {
    TableNameOfFrom(t);
    InsertOrUpdateText(t, data, dup);
    if data.Map? && dup.Map? && '?' !in t {
      InsertOrUpdateCount(t, data.entries, dup.entries);
    }
  }

  /** A builder in update mode holding `table(t)->where(c)->update(data)`. */
  lemma RendersUpdate<V>(q: Query, t: string, c: string, data: Payload<V>)
    requires Clean(t) && !Contains(t, "FROM ") && Clean(c) && Ready(data, ForUpdate)
    requires q.mode == UpdateMode
    requires q.update == "UPDATE " + TableName("FROM " + t) + " SET " + PayloadText(data, ForUpdate)
    requires q.where == "WHERE " + " " + c && q.orderBy == "" && q.limit == ""
    ensures q.Build() == "UPDATE " + t + " SET " + PayloadText(data, ForUpdate) + " WHERE " + c
  {
    TableNameOfFrom(t);
    UpdateText(t, data);
    UpdateWhere(q.update, c);
  }

  /** A builder in delete mode holding `table(t)->where(c)->delete()->orderBy(o)`. */
  lemma RendersDelete(q: Query, t: string, c: string, o: string)
    requires Clean(t) && !Contains(t, "FROM ") && Clean(c) && Clean(o)
    requires q.mode == DeleteMode && q.delete == "DELETE FROM " + TableName("FROM " + t) + " "
    requires q.where == "WHERE " + " " + c && q.orderBy == "ORDER BY " + o && q.limit == ""
    ensures q.Build() == "DELETE FROM " + t + " WHERE " + c + " ORDER BY " + o
  {
    TableNameOfFrom(t);
    DeleteWhereOrder(t, c, o);
  }

  // ---------------------------------------------------------------------------
  // The builder chains

  /** `(new Query)->build()`: a fresh builder renders the select-all of no table. */
  method FreshBuild() returns (s: string)
    ensures s == "SELECT *"
  {
    var q := new Query();
    FreshRendersSelectAll();
    s := q.Build();
  }

  /** `$query->select('*')->from(t)->where(c)->orderBy(o)->limit(l)`, rendered, then
      rendered again after `select(cols)`: the second select replaces the first. */
  method FeaturedPosts(t: string, c: string, o: string, l: string, cols: string)
    returns (first: string, second: string)
    requires Clean(t) && Clean(c) && Clean(o) && Clean(l) && Clean(cols)
    ensures first == "SELECT * FROM " + t + " WHERE " + c + " ORDER BY " + o + " LIMIT " + l
    ensures second == "SELECT " + cols + " FROM " + t + " WHERE " + c + " ORDER BY " + o + " LIMIT " + l
  {
    var q := new Query();
    q.Select("*");
    q.From(t);
    q.Where(c);
    q.OrderBy(o);
    q.Limit(l);
    RendersFeatured(q, t, c, o, l);
    first := q.Build();
    q.Select(cols);
    RendersSelected(q, cols, t, c, o, l);
    second := q.Build();
  }

  /** `table(t)->where(c1)->where(c2)->orderBy(o)->limit(l)->select(cols)`: both
      conditions are kept, in call order. */
  method PublishedAndFeatured(t: string, c1: string, c2: string, o: string, l: string, cols: string)
    returns (s: string)
    requires Clean(t) && Clean(c1) && Clean(c2) && Clean(o) && Clean(l) && Clean(cols)
    ensures s == "SELECT " + cols + " FROM " + t + " WHERE " + c1 + " " + c2 + " ORDER BY " + o + " LIMIT " + l
  {
    var q := new Query();
    q.Table(t);
    q.Where(c1);
    q.Where(c2);
    q.OrderBy(o);
    q.Limit(l);
    q.Select(cols);
    RendersTwoConditions(q, cols, t, c1, c2, o, l);
    s := q.Build();
  }

  /** `table(t)->orderBy(o)`: two spaces are left where the unset clauses were. */
  method SortedPosts(t: string, o: string) returns (s: string)
    requires Clean(t) && Clean(o)
    ensures s == "SELECT * FROM " + t + "  ORDER BY " + o
  {
    var q := new Query();
    q.Table(t);
    q.OrderBy(o);
    RendersSorted(q, t, o);
    s := q.Build();
  }

  /** `table(t)->insert(data)`: the insert statement alone, with one placeholder per
      entry of a map. */
  method InsertRow<V>(t: string, data: Payload<V>) returns (s: string)
    requires Clean(t) && !Contains(t, "FROM ") && Ready(data, ForInsert)
    ensures s == "INSERT INTO " + t + " " + PayloadText(data, ForInsert)
    ensures data.Map? && '?' !in t ==> Count(s, '?') == |data.entries|
  {
    var q := new Query();
    q.Table(t);
    q.Insert(data);
    RendersInsert(q, t, data);
    s := q.Build();
  }

  /** `table(t)->insert(data)->onDuplicateKeyUpdate(dup)`: one placeholder per entry of
      both maps, the assignment list without a trailing comma. */
  method InsertOrUpdate<V>(t: string, data: Payload<V>, dup: Payload<V>) returns (s: string)
    requires Clean(t) && !Contains(t, "FROM ") && Ready(data, ForInsert) && Ready(dup, ForUpdate)
    ensures s == "INSERT INTO " + t + " " + PayloadText(data, ForInsert)
               + " ON DUPLICATE KEY UPDATE " + PayloadText(dup, ForUpdate)
    ensures data.Map? && dup.Map? && '?' !in t ==> Count(s, '?') == |data.entries| + |dup.entries|
  {
    var q := new Query();
    q.Table(t);
    q.Insert(data);
    q.OnDuplicateKeyUpdate(dup);
    RendersInsertOrUpdate(q, t, data, dup);
    s := q.Build();
  }

  /** `table(t)->where(c)->update(data)`: the assignments come before the filter even
      though the filter was given first. */
  method UpdateRow<V>(t: string, c: string, data: Payload<V>) returns (s: string)
    requires Clean(t) && !Contains(t, "FROM ") && Clean(c) && Ready(data, ForUpdate)
    ensures s == "UPDATE " + t + " SET " + PayloadText(data, ForUpdate) + " WHERE " + c
  {
    var q := new Query();
    q.Table(t);
    q.Where(c);
    q.Update(data);
    RendersUpdate(q, t, c, data);
    s := q.Build();
  }

  /** `table(t)->where(c)->delete()->orderBy(o)`. */
  method DeleteRows(t: string, c: string, o: string) returns (s: string)
    requires Clean(t) && !Contains(t, "FROM ") && Clean(c) && Clean(o)
    ensures s == "DELETE FROM " + t + " WHERE " + c + " ORDER BY " + o
  {
    var q := new Query();
    q.Table(t);
    q.Where(c);
    q.Delete();
    q.OrderBy(o);
    RendersDelete(q, t, c, o);
    s := q.Build();
  }
}
