/** `Table.getCreateQuery`: the `CREATE TABLE` statement for a table's columns and
    primary keys, with its two validation rules on auto-increment columns. */
module Tables {
  import opened Base
  import opened Columns

  /** Parts joined by a separator. */
  function Join(parts: seq<string>, sep: string): string {
    if |parts| == 0 then ""
    else if |parts| == 1 then parts[0]
    else Join(parts[..|parts| - 1], sep) + sep + parts[|parts| - 1]
  }

  /** Every part followed by ", ", as the builder loops append them. */
  function Terminated(parts: seq<string>): string {
    if parts == [] then "" else Terminated(parts[..|parts| - 1]) + parts[|parts| - 1] + ", "
  }

  predicate EndsWith(s: string, suffix: string) {
    |suffix| <= |s| && s[|s| - |suffix|..] == suffix
  }

  /** The number of auto-increment columns: `IntegerColumn`s with `autoIncrement` set. */
  function AutoIncrementCount(cols: seq<Column>): nat {
    if cols == [] then 0
    else AutoIncrementCount(cols[..|cols| - 1]) + (if cols[|cols| - 1].IsAutoIncrement() then 1 else 0)
  }

  predicate HasPrimaryKeys(primaryKeys: Option<seq<string>>) {
    primaryKeys.Some? && |primaryKeys.value| > 0
  }

  /** `(length)` after the type, only for a positive length. */
  function LengthSpec(length: int): string {
    if length > 0 then "(" + IntToString(length) + ")" else ""
  }

  /** The part of a column's definition before its NOT NULL / AUTO_INCREMENT flags. */
  function ColumnLead(c: Column): string {
    "`" + c.name + "` " + TypeName(c.kind) + LengthSpec(c.length)
  }

  /** One column: backquoted name, type, optional length, then ` NOT NULL` and ` AUTO_INCREMENT`. */
  function ColumnDefinition(c: Column): string {
    ColumnLead(c) + (if !c.nullable then " NOT NULL" else "") + (if c.IsAutoIncrement() then " AUTO_INCREMENT" else "")
  }

  function ColumnDefinitions(cols: seq<Column>): (defs: seq<string>)
    ensures |defs| == |cols|
  {
    seq(|cols|, i requires 0 <= i < |cols| => ColumnDefinition(cols[i]))
  }

  /** Each name in backquotes. */
  function Quoted(names: seq<string>): (qs: seq<string>)
    ensures |qs| == |names|
  {
    seq(|names|, i requires 0 <= i < |names| => "`" + names[i] + "`")
  }

  /** `CREATE TABLE [IF NOT EXISTS] `name``. */
  function TableHead(name: string, ignoreExisting: bool): string {
    "CREATE TABLE " + (if ignoreExisting then "IF NOT EXISTS " else "") + "`" + name + "`"
  }

  /** ` (` and the column definitions joined by `, `. With no columns the builder's
      trailing-separator strip removes the ` (` itself, so nothing is left. */
  function ColumnsClause(cols: seq<Column>): string {
    if cols == [] then "" else " (" + Join(ColumnDefinitions(cols), ", ")
  }

  /** `, PRIMARY KEY (`k1`, `k2`)` when there are primary keys, empty otherwise. */
  function PrimaryKeyClause(primaryKeys: Option<seq<string>>): string {
    if HasPrimaryKeys(primaryKeys) then ", PRIMARY KEY (" + Join(Quoted(primaryKeys.value), ", ") + ")" else ""
  }

  function TooManyAutoIncrementMessage(n: int): string {
    "Inappropriate amount of auto incrementing tables (" + IntToString(n) + ">1)"
  }

  const MissingPrimaryKeyMessage := "There must be a primary key set if there is an auto incrementing column"

  /** The statement `getCreateQuery` builds, or the exception it throws. Both
      rejections are `IllegalArgumentException`s; a statement starts with
      `CREATE TABLE `, carries `IF NOT EXISTS ` exactly when asked to (otherwise
      the backquoted name follows at once), and ends with `);`. */
  function CreateQuery(name: string, cols: seq<Column>, primaryKeys: Option<seq<string>>, ignoreExisting: bool)
    : (r: Result<string, JavaException>)
    ensures r.Failure? ==> r.error.IllegalArgumentException?
    ensures r.Success? ==>
      var q := r.value;
      && |q| >= 17
      && q[..13] == "CREATE TABLE "
      && (ignoreExisting ==> |q| >= 31 && q[13..27] == "IF NOT EXISTS ")
      && (!ignoreExisting ==> q[13] == '`')
      && q[|q| - 2..] == ");"
  {
    var n := AutoIncrementCount(cols);
    if n > 1 then
      Failure(IllegalArgumentException(TooManyAutoIncrementMessage(n)))
    else if n > 0 && !HasPrimaryKeys(primaryKeys) then
      Failure(IllegalArgumentException(MissingPrimaryKeyMessage))
    else
      var body := ColumnsClause(cols) + PrimaryKeyClause(primaryKeys);
      Assoc(TableHead(name, ignoreExisting), ColumnsClause(cols), PrimaryKeyClause(primaryKeys));
      Assoc(TableHead(name, ignoreExisting), body, ");");
      HeadFrame(name, ignoreExisting, body + ");");
      Success(TableHead(name, ignoreExisting) + ColumnsClause(cols) + PrimaryKeyClause(primaryKeys) + ");")
  }

  class Table {
    const name: string
    const columns: array<Column>
    const primaryKeys: array?<string>

    /** The required-args constructor: no primary keys. */
    constructor (name: string, columns: array<Column>)
      ensures this.name == name && this.columns == columns && primaryKeys == null
    {
      this.name, this.columns, this.primaryKeys := name, columns, null;
    }

    /** The all-args constructor. */
    constructor WithPrimaryKeys(name: string, columns: array<Column>, primaryKeys: array?<string>)
      ensures this.name == name && this.columns == columns && this.primaryKeys == primaryKeys
    {
      this.name, this.columns, this.primaryKeys := name, columns, primaryKeys;
    }

    function PrimaryKeys(): Option<seq<string>>
      reads primaryKeys
    {
      if primaryKeys == null then None else Some(primaryKeys[..])
    }

    /** `getCreateQuery(ignoreExisting)`: counts the auto-increment columns, appends
        every column and a trailing `, ` to a builder, strips the last two
        characters, checks for primary keys, appends them the same way and closes
        with `);`. */
    method GetCreateQuery(ignoreExisting: bool) returns (r: Result<string, JavaException>)
      ensures r == CreateQuery(name, columns[..], PrimaryKeys(), ignoreExisting)
    {
      ghost var head := TableHead(name, ignoreExisting);
      var count := CountAutoIncrement(columns);
      if count > 1 {
        return Failure(IllegalArgumentException(TooManyAutoIncrementMessage(count)));
      }
      var builder := AppendColumns(TableHead(name, ignoreExisting) + " (", columns);
      var query := builder[..|builder| - 2];
      ColumnsStripped(head, columns[..]);
      ghost var withColumns := head + ColumnsClause(columns[..]);
      assert query == withColumns;
      if count > 0 && (primaryKeys == null || primaryKeys.Length < 1) {
        return Failure(IllegalArgumentException(MissingPrimaryKeyMessage));
      }
      if primaryKeys != null && primaryKeys.Length > 0 {
        query := AppendPrimaryKeys(query, primaryKeys);
      } else {
        AppendEmpty(query);
      }
      assert query == withColumns + PrimaryKeyClause(PrimaryKeys());
      query := query + ");";
      r := Success(query);
    }
  }

  /** The first loop of `getCreateQuery`: how many columns auto-increment. */
  method CountAutoIncrement(columns: array<Column>) returns (count: nat)
    ensures count == AutoIncrementCount(columns[..])
  {
    count := 0;
    for i := 0 to columns.Length
      invariant count == AutoIncrementCount(columns[..i])
    {
      assert columns[..i + 1][..i] == columns[..i];
      if columns[i].IsAutoIncrement() {
        count := count + 1;
      }
    }
    assert columns[..columns.Length] == columns[..];
  }

  /** The second loop of `getCreateQuery`: every column's definition followed by `, `. */
  method AppendColumns(head: string, columns: array<Column>) returns (builder: string)
    ensures builder == head + Terminated(ColumnDefinitions(columns[..]))
  {
    builder := head;
    for i := 0 to columns.Length
      invariant builder == head + Terminated(ColumnDefinitions(columns[..i]))
    {
      ghost var done := Terminated(ColumnDefinitions(columns[..i]));
      ghost var piece := ColumnDefinition(columns[i]);
      Assoc(head, done, piece);
      Assoc(head, done + piece, ", ");
      builder := AppendColumn(builder, columns[i]);
      DefinitionsSnoc(columns[..], i);
    }
    assert columns[..columns.Length] == columns[..];
  }

  /** One more column adds its definition to the terminated list. */
  lemma DefinitionsSnoc(cols: seq<Column>, i: nat)
    requires i < |cols|
    ensures Terminated(ColumnDefinitions(cols[..i + 1]))
      == Terminated(ColumnDefinitions(cols[..i])) + ColumnDefinition(cols[i]) + ", "
  {
    assert ColumnDefinitions(cols[..i + 1]) == ColumnDefinitions(cols[..i]) + [ColumnDefinition(cols[i])];
    TerminatedSnoc(ColumnDefinitions(cols[..i]), ColumnDefinition(cols[i]));
  }

  /** Stripping the builder's last two characters leaves the head and the column
      clause; with no columns that removes the ` (` itself. */
  lemma ColumnsStripped(tableHead: string, cols: seq<Column>)
    ensures var b := tableHead + " (" + Terminated(ColumnDefinitions(cols));
      |b| >= 2 && b[..|b| - 2] == tableHead + ColumnsClause(cols)
  {
    if cols == [] {
      assert ColumnDefinitions(cols) == [];
      DropSuffix(tableHead, " (");
      AppendEmpty(tableHead);
      AppendEmpty(tableHead + " (");
    } else {
      StripLastSeparator(tableHead + " (", ColumnDefinitions(cols));
      Assoc(tableHead, " (", Join(ColumnDefinitions(cols), ", "));
    }
  }

  /** The primary-key part of `getCreateQuery`: ` , PRIMARY KEY (`, every key
      backquoted and followed by `, `, the last separator stripped, then `)`. */
  method AppendPrimaryKeys(start: string, primaryKeys: array<string>) returns (query: string)
    requires primaryKeys.Length > 0
    ensures query == start + PrimaryKeyClause(Some(primaryKeys[..]))
  {
    query := start + ", PRIMARY KEY (";
    ghost var keysHead := query;
    for i := 0 to primaryKeys.Length
      invariant query == keysHead + Terminated(Quoted(primaryKeys[..i]))
    {
      ghost var done := Terminated(Quoted(primaryKeys[..i]));
      ghost var key := "`" + primaryKeys[i] + "`";
      Assoc(keysHead, done, key);
      Assoc(keysHead, done + key, ", ");
      query := query + ("`" + primaryKeys[i] + "`") + ", ";
      TerminatedSnoc(Quoted(primaryKeys[..i]), "`" + primaryKeys[i] + "`");
      assert Quoted(primaryKeys[..i + 1]) == Quoted(primaryKeys[..i]) + ["`" + primaryKeys[i] + "`"];
    }
    assert primaryKeys[..primaryKeys.Length] == primaryKeys[..];
    StripLastSeparator(keysHead, Quoted(primaryKeys[..]));
    ghost var keys := Join(Quoted(primaryKeys[..]), ", ");
    Assoc(start, ", PRIMARY KEY (", keys);
    Assoc(start, ", PRIMARY KEY (" + keys, ")");
    query := query[..|query| - 2] + ")";
  }

  /** One pass of the column loop: the column's definition and a trailing `, `. */
  method AppendColumn(builder: string, column: Column) returns (b: string)
    ensures b == builder + ColumnDefinition(column) + ", "
  {
    var autoIncrement := column.IsAutoIncrement();
    ghost var piece := "`" + column.name + "` " + TypeName(column.kind);
    b := builder + ("`" + column.name + "` " + TypeName(column.kind));
    if column.length > 0 {
      Assoc(builder, piece, "(" + IntToString(column.length) + ")");
      b := b + ("(" + IntToString(column.length) + ")");
      piece := piece + ("(" + IntToString(column.length) + ")");
    }
    assert b == builder + piece && piece == ColumnLead(column);
    if !column.nullable {
      Assoc(builder, piece, " NOT NULL");
      b := b + " NOT NULL";
      piece := piece + " NOT NULL";
    }
    assert b == builder + piece && piece == ColumnLead(column) + (if !column.nullable then " NOT NULL" else "");
    if autoIncrement {
      Assoc(builder, piece, " AUTO_INCREMENT");
      b := b + " AUTO_INCREMENT";
      piece := piece + " AUTO_INCREMENT";
    }
    assert b == builder + piece && piece == ColumnDefinition(column);
    Assoc(builder, piece, ", ");
    b := b + ", ";
  }

  lemma DropSuffix(a: string, b: string)
    ensures (a + b)[..|a|] == a
  {
  }

  lemma AppendEmpty(a: string)
    ensures a + "" == a
  {
  }

  lemma Assoc(a: string, b: string, c: string)
    ensures a + b + c == a + (b + c)
  {
  }

  lemma TerminatedSnoc(parts: seq<string>, last: string)
    ensures Terminated(parts + [last]) == Terminated(parts) + last + ", "
  {
    assert (parts + [last])[..|parts|] == parts;
  }

  /** A non-empty `Terminated` list is the joined list plus one trailing separator. */
  lemma {:induction false} TerminatedIsJoinPlusSeparator(parts: seq<string>)
    requires parts != []
    ensures Terminated(parts) == Join(parts, ", ") + ", "
    decreases |parts|
  {
    if |parts| > 1 {
      var init := parts[..|parts| - 1];
      TerminatedIsJoinPlusSeparator(init);
    }
  }

  /** Stripping the last two characters after the builder loop leaves the joined list. */
  lemma StripLastSeparator(prefix: string, parts: seq<string>)
    requires parts != []
    ensures |prefix + Terminated(parts)| >= 2
    ensures (prefix + Terminated(parts))[..|prefix + Terminated(parts)| - 2] == prefix + Join(parts, ", ")
  {
    TerminatedIsJoinPlusSeparator(parts);
    var s := prefix + Join(parts, ", ");
    assert prefix + Terminated(parts) == s + ", ";
  }

  /** The statement is rejected exactly when there is more than one auto-increment
      column, or one without primary keys. */
  lemma CreateQueryRejects(name: string, cols: seq<Column>, primaryKeys: Option<seq<string>>, ignoreExisting: bool)
    ensures CreateQuery(name, cols, primaryKeys, ignoreExisting).Failure? <==>
      AutoIncrementCount(cols) > 1 || (AutoIncrementCount(cols) == 1 && !HasPrimaryKeys(primaryKeys))
  {
  }

  /** No auto-increment column is counted unless some `IntegerColumn` has the flag;
      `VarcharColumn` and `LongColumn` never count. */
  lemma {:induction false} AutoIncrementCountZero(cols: seq<Column>)
    ensures AutoIncrementCount(cols) == 0 <==> forall i :: 0 <= i < |cols| ==> !cols[i].IsAutoIncrement()
    decreases |cols|
  {
    if cols != [] {
      var init := cols[..|cols| - 1];
      AutoIncrementCountZero(init);
      assert forall i :: 0 <= i < |init| ==> init[i] == cols[i];
    }
  }

  /** Two distinct auto-increment columns always make the statement fail. */
  lemma {:induction false} TwoAutoIncrementColumnsRejected(cols: seq<Column>, i: nat, j: nat)
    requires i < j < |cols|
    requires cols[i].IsAutoIncrement() && cols[j].IsAutoIncrement()
    ensures AutoIncrementCount(cols) >= 2
    decreases |cols|
  {
    var init := cols[..|cols| - 1];
    if j < |cols| - 1 {
      TwoAutoIncrementColumnsRejected(init, i, j);
    } else {
      AutoIncrementCountZero(init);
      assert init[i] == cols[i];
    }
  }

  /** The head of the statement, whatever follows it. */
  lemma HeadFrame(name: string, ignoreExisting: bool, tail: string)
    requires |tail| >= 2 && tail[|tail| - 2..] == ");"
    ensures var q := TableHead(name, ignoreExisting) + tail;
      && |q| >= 17
      && q[..13] == "CREATE TABLE "
      && (ignoreExisting ==> |q| >= 31 && q[13..27] == "IF NOT EXISTS ")
      && (!ignoreExisting ==> q[13] == '`')
      && q[|q| - 2..] == ");"
  {
    var quoted := "`" + name + "`" + tail;
    var mid := if ignoreExisting then "IF NOT EXISTS " else "";
    assert TableHead(name, ignoreExisting) + tail == "CREATE TABLE " + (mid + quoted);
  }

  /** The primary-key clause is present exactly when there are primary keys, and
      then lists them backquoted, in order. */
  lemma PrimaryKeyClauseShape(primaryKeys: Option<seq<string>>)
    ensures PrimaryKeyClause(primaryKeys) != "" <==> HasPrimaryKeys(primaryKeys)
    ensures HasPrimaryKeys(primaryKeys) ==>
      PrimaryKeyClause(primaryKeys) == ", PRIMARY KEY (" + Join(Quoted(primaryKeys.value), ", ") + ")"
  {
  }

  /** What the tail of a column definition says: whether it has a `(length)`,
      whether it is nullable, whether it auto-increments. */
  function ParseColumnTail(d: string): (bool, bool, bool) {
    var autoIncrement := EndsWith(d, " AUTO_INCREMENT");
    var rest := if autoIncrement then d[..|d| - 15] else d;
    var notNull := EndsWith(rest, " NOT NULL");
    var lead := if notNull then rest[..|rest| - 9] else rest;
    (EndsWith(lead, ")"), !notNull, autoIncrement)
  }

  /** The last character of a column's lead: `)` after a length, otherwise the
      last letter of the type name. */
  lemma ColumnLeadEnding(c: Column)
    ensures |ColumnLead(c)| >= 6
    ensures var l := ColumnLead(c);
      if c.length > 0 then l[|l| - 1] == ')'
      else l[|l| - 1] in {'T', 'R', 'G'} && (l[|l| - 1] == 'T' ==> l[|l| - 3] == 'I')
  {
    var l := ColumnLead(c);
    var typed := "`" + c.name + "` " + TypeName(c.kind);
    if c.length > 0 {
      assert l == typed + ("(" + IntToString(c.length) + ")");
    } else {
      assert l == "`" + c.name + "` " + TypeName(c.kind);
    }
  }

  /** A column definition determines the column's length marker, nullability and
      auto-increment flag: ` NOT NULL` appears exactly when the column is not
      nullable, ` AUTO_INCREMENT` exactly for an auto-increment `IntegerColumn`,
      and `(length)` exactly for a positive length. */
  lemma ColumnDefinitionFlags(c: Column)
    ensures ParseColumnTail(ColumnDefinition(c)) == (c.length > 0, c.nullable, c.IsAutoIncrement())
  {
    var l := ColumnLead(c);
    ColumnLeadEnding(c);
    assert EndsWith(l, ")") <==> l[|l| - 1] == ')' by {
      assert l[|l| - 1..] == [l[|l| - 1]];
    }
    FlagsParsed(l, !c.nullable, c.IsAutoIncrement());
  }

  /** Parsing the tail of a lead with flags appended recovers the flags. */
  lemma FlagsParsed(lead: string, notNull: bool, autoIncrement: bool)
    requires NoAutoIncrementEnding(lead) && lead[|lead| - 1] != 'L'
    ensures ParseColumnTail(lead + (if notNull then " NOT NULL" else "") + (if autoIncrement then " AUTO_INCREMENT" else ""))
      == (EndsWith(lead, ")"), !notNull, autoIncrement)
  {
    NotNullStage(lead, notNull);
    AutoIncrementStage(lead + (if notNull then " NOT NULL" else ""), autoIncrement);
  }

  /** Whether a string ending in `s` could carry ` AUTO_INCREMENT` at its end. */
  predicate NoAutoIncrementEnding(s: string) {
    |s| >= 3 && (s[|s| - 1] != 'T' || s[|s| - 3] != 'E')
  }

  /** The ` AUTO_INCREMENT` flag is recognised and stripped exactly when appended. */
  lemma AutoIncrementStage(rest: string, flag: bool)
    requires NoAutoIncrementEnding(rest)
    ensures var d := rest + (if flag then " AUTO_INCREMENT" else "");
      EndsWith(d, " AUTO_INCREMENT") == flag && (if flag then d[..|d| - 15] else d) == rest
  {
    if flag {
      FlagStrips(rest, " AUTO_INCREMENT");
    } else {
      AppendEmpty(rest);
      LastCharsDiffer(rest, " AUTO_INCREMENT", if rest[|rest| - 1] != 'T' then 1 else 3);
    }
  }

  /** The ` NOT NULL` flag is recognised and stripped exactly when appended, and
      leaves no ending that could pass for ` AUTO_INCREMENT`. */
  lemma NotNullStage(lead: string, flag: bool)
    requires NoAutoIncrementEnding(lead) && lead[|lead| - 1] != 'L'
    ensures var r := lead + (if flag then " NOT NULL" else "");
      && EndsWith(r, " NOT NULL") == flag && (if flag then r[..|r| - 9] else r) == lead
      && NoAutoIncrementEnding(r)
  {
    if flag {
      FlagStrips(lead, " NOT NULL");
      assert (lead + " NOT NULL")[|lead| + 8] == 'L';
    } else {
      AppendEmpty(lead);
      LastCharsDiffer(lead, " NOT NULL", 1);
    }
  }

  /** A string whose k-th character from the end differs from the suffix's does not end with it. */
  lemma LastCharsDiffer(s: string, suffix: string, k: nat)
    requires 1 <= k <= |suffix| && k <= |s| && s[|s| - k] != suffix[|suffix| - k]
    ensures !EndsWith(s, suffix)
  {
  }

  /** A flag appended to a definition is recognised and stripped again. */
  lemma FlagStrips(s: string, flag: string)
    ensures EndsWith(s + flag, flag)
    ensures (s + flag)[..|s + flag| - |flag|] == s
  {
    assert (s + flag)[|s|..] == flag;
  }

}
