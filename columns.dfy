/** The text a column => value array turns into: the column list with its placeholders
    (for INSERT), the `col=?` assignment list (for UPDATE and ON DUPLICATE KEY UPDATE) and
    the `col=? AND …` filter. `Query::arrayToString` and `CRUD::arrayToString` are the same
    code and are modelled once, here, together with `CRUD::buildWhere`. */
module ColumnLists {
  import opened Text

  /** An argument that PHP accepts either as literal SQL text or as an array of
      column => value entries, in the array's own order. */
  datatype Payload<V> = Literal(text: string) | Map(entries: seq<(string, V)>)

  /** The `$type` argument of arrayToString. */
  datatype ListKind = ForInsert | ForUpdate

  /** `array_keys` of a column => value array. */
  function Keys<V>(data: seq<(string, V)>): (ks: seq<string>)
    ensures |ks| == |data|
    ensures forall i :: 0 <= i < |data| ==> ks[i] == data[i].0
  {
    seq(|data|, i requires 0 <= i < |data| => data[i].0)
  }

  /** `array_values` of a column => value array. */
  function Values<V>(data: seq<(string, V)>): (vs: seq<V>)
    ensures |vs| == |data|
    ensures forall i :: 0 <= i < |data| ==> vs[i] == data[i].1
  {
    seq(|data|, i requires 0 <= i < |data| => data[i].1)
  }

  /** Each part with `t` appended. */
  function Suffixed(parts: seq<string>, t: string): (r: seq<string>)
    ensures |r| == |parts|
    ensures forall i :: 0 <= i < |parts| ==> r[i] == parts[i] + t
  {
    seq(|parts|, i requires 0 <= i < |parts| => parts[i] + t)
  }

  /** PHP's `array_fill(0, n, x)`. */
  function Fill(n: nat, x: string): (r: seq<string>)
    ensures |r| == n && forall i :: 0 <= i < n ==> r[i] == x
  {
    seq(n, _ => x)
  }

  /** `?,?,…,?` with `n` placeholders. */
  function Placeholders(n: nat): string
  {
    Join(",", Fill(n, "?"))
  }

  /** `(k1,…,kn) VALUES (?,…,?)`. */
  function ColumnsAndPlaceholders(keys: seq<string>): string
  {
    "(" + Join(",", keys) + ") VALUES (" + Placeholders(|keys|) + ")"
  }

  /** `k1=?,…,kn=?`, and the empty text for no columns. */
  function Assignments(keys: seq<string>): string
  {
    Join(",", Suffixed(keys, "=?"))
  }

  /** `WHERE k1=? AND … AND kn=?`, and `WHERE` alone for no columns. */
  function WhereClause(keys: seq<string>): string
  {
    if keys == [] then "WHERE" else "WHERE " + Join(" AND ", Suffixed(keys, "=?"))
  }

  /** What a `.=` loop accumulates: every part followed by `t`. */
  function Terminated(parts: seq<string>, t: string): string
  {
    if parts == [] then "" else Terminated(parts[..|parts| - 1], t) + parts[|parts| - 1] + t
  }

  /** No column name holds the character `c`. */
  predicate Without(keys: seq<string>, c: char)
  {
    forall k, i :: 0 <= k < |keys| && 0 <= i < |keys[k]| ==> keys[k][i] != c
  }

  // ---------------------------------------------------------------------------
  // The loops of the source

  /** `arrayToString($data, $type)`: the insert form joins keys and placeholders, the
      update form appends `key=?,` per entry and then strips the trailing commas. */
  method ArrayToString<V>(data: seq<(string, V)>, kind: ListKind) returns (s: string)
    ensures kind == ForInsert ==> s == ColumnsAndPlaceholders(Keys(data))
    ensures kind == ForUpdate ==> s == Assignments(Keys(data))
  {
    s := "";
    match kind {
      case ForInsert =>
        var columns := Join(",", Keys(data));
        var values := Join(",", Fill(|data|, "?"));
        s := "(" + columns + ") VALUES (" + values + ")";
      case ForUpdate =>
        ghost var parts := Suffixed(Keys(data), "=?");
        var i := 0;
        while i < |data|
          invariant 0 <= i <= |data|
          invariant s == Terminated(parts[..i], ",")
        {
          assert parts[..i + 1][..i] == parts[..i];
          s := s + data[i].0 + "=?,";
          i := i + 1;
        }
        assert parts[..|data|] == parts;
        if |data| > 0 {
          TrailingSeparatorStripped(parts, ",", "", {','});
          assert "" + Terminated(parts, ",") == s;
        }
        s := RTrim(s, {','});
    }
  }

  /** `buildWhere($array)`: appends `key=? AND ` per entry to `WHERE ` and then calls
      `rtrim(…, ' AND ')`, which strips every trailing space, `A`, `N` and `D`. */
  method BuildWhere<V>(data: seq<(string, V)>) returns (s: string)
    ensures s == WhereClause(Keys(data))
  {
    ghost var parts := Suffixed(Keys(data), "=?");
    var whereString := "WHERE ";
    var i := 0;
    while i < |data|
      invariant 0 <= i <= |data|
      invariant whereString == "WHERE " + Terminated(parts[..i], " AND ")
    {
      assert parts[..i + 1][..i] == parts[..i];
      whereString := whereString + data[i].0 + "=? AND ";
      i := i + 1;
    }
    assert parts[..|data|] == parts;
    if |data| == 0 {
      RTrimSuffix("WHERE", " ", {' ', 'A', 'N', 'D'});
      assert "WHERE" + " " == "WHERE ";
    } else {
      TrailingSeparatorStripped(parts, " AND ", "WHERE ", {' ', 'A', 'N', 'D'});
    }
    s := RTrim(whereString, {' ', 'A', 'N', 'D'});
  }

  // ---------------------------------------------------------------------------
  // Lemmas

  lemma {:induction false} TerminatedIsJoin(parts: seq<string>, t: string)
    requires |parts| > 0
    ensures Terminated(parts, t) == Join(t, parts) + t
    decreases |parts|
  {
    var init := parts[..|parts| - 1];
    if |parts| == 1 {
      assert init == [];
    } else {
      TerminatedIsJoin(init, t);
      assert init + [parts[|parts| - 1]] == parts;
      JoinSnoc(t, init, parts[|parts| - 1]);
    }
  }

  lemma JoinEndsWithLast(sep: string, parts: seq<string>)
    requires |parts| > 0 && |parts[|parts| - 1]| > 0
    ensures |Join(sep, parts)| > 0
    ensures Join(sep, parts)[|Join(sep, parts)| - 1] == parts[|parts| - 1][|parts[|parts| - 1]| - 1]
  {
    if |parts| > 1 {
      var init := parts[..|parts| - 1];
      assert init + [parts[|parts| - 1]] == parts;
      JoinSnoc(sep, init, parts[|parts| - 1]);
    }
  }

  /** Stripping the separator characters off `prefix + part1 + sep + … + partn + sep`
      leaves `prefix + part1 + sep + … + partn`, when every part ends in `?` and every
      character of the separator is stripped. */
  lemma TrailingSeparatorStripped(parts: seq<string>, sep: string, prefix: string, cs: set<char>)
    requires |parts| > 0
    requires forall i :: 0 <= i < |parts| ==> |parts[i]| > 0 && parts[i][|parts[i]| - 1] == '?'
    requires '?' !in cs
    requires forall i :: 0 <= i < |sep| ==> sep[i] in cs
    ensures RTrim(prefix + Terminated(parts, sep), cs) == prefix + Join(sep, parts)
  {
    TerminatedIsJoin(parts, sep);
    JoinEndsWithLast(sep, parts);
    var p := prefix + Join(sep, parts);
    assert p[|p| - 1] == '?';
    assert prefix + Terminated(parts, sep) == p + sep;
    RTrimSuffix(p, sep, cs);
  }

  /** The placeholders of the INSERT column list are one per column. */
  lemma CountColumnsAndPlaceholders(keys: seq<string>)
    requires Without(keys, '?')
    ensures Count(ColumnsAndPlaceholders(keys), '?') == |keys|
  {
    forall k | 0 <= k < |keys| ensures Count(keys[k], '?') == 0 {
      CountNone(keys[k], '?');
    }
    CountJoin(",", keys, '?', 0);
    CountJoin(",", Fill(|keys|, "?"), '?', 1);
    CountNone("(", '?');
    CountNone(") VALUES (", '?');
    CountNone(")", '?');
    CountBetween("(", Join(",", keys), ") VALUES (", Placeholders(|keys|), ")", '?');
  }

  lemma CountBetween(a: string, x: string, b: string, y: string, e: string, c: char)
    requires Count(a, c) == 0 && Count(b, c) == 0 && Count(e, c) == 0
    ensures Count(a + x + b + y + e, c) == Count(x, c) + Count(y, c)
  {
    CountConcat(a + x + b + y, e, c);
    CountConcat(a + x + b, y, c);
    CountConcat(a + x, b, c);
    CountConcat(a, x, c);
  }

  lemma CountSuffixed(keys: seq<string>)
    requires Without(keys, '?')
    ensures forall i :: 0 <= i < |keys| ==> Count(Suffixed(keys, "=?")[i], '?') == 1
  {
    forall i | 0 <= i < |keys| ensures Count(Suffixed(keys, "=?")[i], '?') == 1 {
      CountNone(keys[i], '?');
      CountConcat(keys[i], "=?", '?');
    }
  }

  /** The assignment list holds one placeholder per column. */
  lemma CountAssignments(keys: seq<string>)
    requires Without(keys, '?')
    ensures Count(Assignments(keys), '?') == |keys|
  {
    CountSuffixed(keys);
    CountJoin(",", Suffixed(keys, "=?"), '?', 1);
  }

  /** The filter holds one placeholder per column. */
  lemma CountWhereClause(keys: seq<string>)
    requires Without(keys, '?')
    ensures Count(WhereClause(keys), '?') == |keys|
  {
    if keys == [] {
      CountNone("WHERE", '?');
    } else {
      CountSuffixed(keys);
      CountJoin(" AND ", Suffixed(keys, "=?"), '?', 1);
      CountConcat("WHERE ", Join(" AND ", Suffixed(keys, "=?")), '?');
    }
  }

  /** The column list names the columns in the array's order: splitting it at the commas
      gives the keys back. */
  lemma ColumnOrder(keys: seq<string>)
    requires |keys| > 0 && Without(keys, ',')
    ensures Split(Join(",", keys), ",") == keys
  {
    SplitJoinChar(keys, ',');
  }
}
