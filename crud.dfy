/** The statement assembly of `Demir\Database\CRUD`: `insert`, `update` and `delete` build
    an SQL text and the ordered list of values its `?` placeholders stand for, and hand
    both to `query`. Here they return the pair instead of executing it. */
module Crud {
  import opened Text
  import opened ColumnLists

  /** What `query` would be given: the SQL text and its parameters, in order. */
  datatype Statement<V> = Statement(sql: string, params: seq<V>)

  /** The `ON DUPLICATE KEY UPDATE` suffix of `insert`, absent for an empty array. */
  function DuplicateSuffix<V>(onDuplicate: seq<(string, V)>): string
  {
    if onDuplicate == [] then "" else " ON DUPLICATE KEY UPDATE " + Assignments(Keys(onDuplicate))
  }

  /** The text `update` and `delete` put after the head: the filter built from an array,
      or the caller's text as it is. */
  function Condition<V>(statements: Payload<V>): string
  {
    match statements
    case Map(entries) => WhereClause(Keys(entries))
    case Literal(text) => text
  }

  /** The values the condition's placeholders stand for: the array's values, or the
      caller's parameters when the condition is text. */
  function ConditionParams<V>(statements: Payload<V>, parameters: seq<V>): seq<V>
  {
    match statements
    case Map(entries) => Values(entries)
    case Literal(_) => parameters
  }

  /** Column names and a table name without `?`, so that every placeholder in the text
      is one the library wrote. */
  predicate NoStrayPlaceholders(table: string, keys: seq<string>)
  {
    '?' !in table && Without(keys, '?')
  }

  // ---------------------------------------------------------------------------
  // The three statements

  /** `CRUD::insert($tableName, $columnsAndValues, $onDuplicateKeyUpdate = [])`. */
  method Insert<V>(table: string, data: seq<(string, V)>, onDuplicate: seq<(string, V)> := [])
    returns (st: Statement<V>)
    ensures st.sql == "INSERT INTO " + table + " " + ColumnsAndPlaceholders(Keys(data)) + DuplicateSuffix(onDuplicate)
    ensures st.params == Values(data) + Values(onDuplicate)
    ensures NoStrayPlaceholders(table, Keys(data)) && Without(Keys(onDuplicate), '?') ==>
              Count(st.sql, '?') == |st.params|
  {
    var parameters: seq<V> := [];
    var insertString := "INSERT INTO " + table + " ";
    var list := ArrayToString(data, ForInsert);
    insertString := insertString + list;
    parameters := parameters + Values(data);
    if onDuplicate != [] {
      insertString := insertString + " ON DUPLICATE KEY UPDATE ";
      var assignments := ArrayToString(onDuplicate, ForUpdate);
      insertString := insertString + assignments;
      parameters := parameters + Values(onDuplicate);
    } else {
      assert Values(onDuplicate) == [];
    }
    st := Statement(insertString, parameters);
    if NoStrayPlaceholders(table, Keys(data)) && Without(Keys(onDuplicate), '?') {
      InsertCount(table, data, onDuplicate);
    }
  }

  /** `CRUD::update($tableName, $columnsAndValues, $statements = '', $parameters = [])`. */
  method Update<V>(table: string, data: seq<(string, V)>, statements: Payload<V> := Literal(""),
                   parameters: seq<V> := [])
    returns (st: Statement<V>)
    ensures st.sql == "UPDATE " + table + " SET " + Assignments(Keys(data)) + " " + Condition(statements)
    ensures st.params == Values(data) + ConditionParams(statements, parameters)
    ensures statements.Map? && NoStrayPlaceholders(table, Keys(data)) && Without(Keys(statements.entries), '?') ==>
              Count(st.sql, '?') == |st.params|
  {
    var updateString := "UPDATE " + table + " SET ";
    var list := ArrayToString(data, ForUpdate);
    updateString := updateString + list;
    var params := Values(data);
    match statements {
      case Map(entries) =>
        var where := BuildWhere(entries);
        updateString := updateString + " " + where;
        params := params + Values(entries);
      case Literal(text) =>
        updateString := updateString + " " + text;
        params := params + parameters;
    }
    st := Statement(updateString, params);
    if statements.Map? && NoStrayPlaceholders(table, Keys(data)) && Without(Keys(statements.entries), '?') {
      UpdateCount(table, data, statements.entries);
    }
  }

  /** `CRUD::delete($tableName, $statements = '', $parameters = [])`. */
  method Delete<V>(table: string, statements: Payload<V> := Literal(""), parameters: seq<V> := [])
    returns (st: Statement<V>)
    ensures st.sql == "DELETE FROM " + table + " " + Condition(statements)
    ensures st.params == ConditionParams(statements, parameters)
    ensures statements.Map? && NoStrayPlaceholders(table, Keys(statements.entries)) ==>
              Count(st.sql, '?') == |st.params|
  {
    var deleteString: string;
    var params: seq<V>;
    match statements {
      case Map(entries) =>
        var where := BuildWhere(entries);
        deleteString := "DELETE FROM " + table + " " + where;
        params := Values(entries);
      case Literal(text) =>
        deleteString := "DELETE FROM " + table + " " + text;
        params := parameters;
    }
    st := Statement(deleteString, params);
    if statements.Map? && NoStrayPlaceholders(table, Keys(statements.entries)) {
      DeleteCount(table, statements.entries);
    }
  }

  // ---------------------------------------------------------------------------
  // One placeholder per parameter

  /** A text prefix without `c` adds nothing to the count. */
  lemma CountAfter(head: string, body: string, c: char)
    requires forall i :: 0 <= i < |head| ==> head[i] != c
    ensures Count(head + body, c) == Count(body, c)
  {
    CountNone(head, c);
    CountConcat(head, body, c);
  }

  lemma InsertCount<V>(table: string, data: seq<(string, V)>, onDuplicate: seq<(string, V)>)
    requires NoStrayPlaceholders(table, Keys(data)) && Without(Keys(onDuplicate), '?')
    ensures Count("INSERT INTO " + table + " " + ColumnsAndPlaceholders(Keys(data)) + DuplicateSuffix(onDuplicate), '?')
         == |data| + |onDuplicate|
  {
    var head := "INSERT INTO " + table + " ";
    CountAfter(head, ColumnsAndPlaceholders(Keys(data)), '?');
    CountColumnsAndPlaceholders(Keys(data));
    CountConcat(head + ColumnsAndPlaceholders(Keys(data)), DuplicateSuffix(onDuplicate), '?');
    if onDuplicate == [] {
      assert Count(DuplicateSuffix(onDuplicate), '?') == 0;
    } else {
      CountAfter(" ON DUPLICATE KEY UPDATE ", Assignments(Keys(onDuplicate)), '?');
      CountAssignments(Keys(onDuplicate));
    }
  }

  lemma UpdateCount<V>(table: string, data: seq<(string, V)>, entries: seq<(string, V)>)
    requires NoStrayPlaceholders(table, Keys(data)) && Without(Keys(entries), '?')
    ensures Count("UPDATE " + table + " SET " + Assignments(Keys(data)) + " " + WhereClause(Keys(entries)), '?')
         == |data| + |entries|
  {
    var head := "UPDATE " + table + " SET ";
    CountAfter(head, Assignments(Keys(data)), '?');
    CountAssignments(Keys(data));
    CountConcat(head + Assignments(Keys(data)) + " ", WhereClause(Keys(entries)), '?');
    CountConcat(head + Assignments(Keys(data)), " ", '?');
    CountNone(" ", '?');
    CountWhereClause(Keys(entries));
  }

  lemma DeleteCount<V>(table: string, entries: seq<(string, V)>)
    requires NoStrayPlaceholders(table, Keys(entries))
    ensures Count("DELETE FROM " + table + " " + WhereClause(Keys(entries)), '?') == |entries|
  {
    CountAfter("DELETE FROM " + table + " ", WhereClause(Keys(entries)), '?');
    CountWhereClause(Keys(entries));
  }
}
