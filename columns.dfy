/** The MySQL column descriptors: `Column` and its three subclasses. Dafny has no
    class inheritance here, so the subclass is a tag on one class and each Java
    constructor is a named constructor. */
module Columns {
  import opened Base

  /** Which subclass a column is; only `IntegerColumn` carries `autoIncrement`. */
  datatype ColumnKind = IntegerKind(autoIncrement: bool) | VarcharKind | LongKind

  /** A column value of the subclass's Java type (`Integer`, `String`, `Long`). */
  datatype ColumnValue = IntegerValue(i: Int32) | VarcharValue(s: string) | LongValue(l: Int64)

  /** The value's type matches the column's generic type argument. */
  predicate Fits(kind: ColumnKind, v: ColumnValue) {
    match kind
    case IntegerKind(_) => v.IntegerValue?
    case VarcharKind => v.VarcharValue?
    case LongKind => v.LongValue?
  }

  /** `getType` of each subclass. */
  function TypeName(kind: ColumnKind): (t: string)
    ensures t == "INT" <==> kind.IntegerKind?
    ensures t == "VARCHAR" <==> kind.VarcharKind?
    ensures t == "LONG" <==> kind.LongKind?
  {
    match kind
    case IntegerKind(_) => "INT"
    case VarcharKind => "VARCHAR"
    case LongKind => "LONG"
  }

  /** `value.toString()`: a string is itself, and a number's rendering reads back
      to the number. */
  function ValueString(v: ColumnValue): (s: string)
    ensures v.VarcharValue? ==> s == v.s
    ensures v.IntegerValue? ==> ParseInt(s) == Some(v.i as int)
    ensures v.LongValue? ==> ParseInt(s) == Some(v.l as int)
  {
    match v
    case IntegerValue(i) => IntToStringRoundTrip(i); IntToString(i)
    case VarcharValue(s) => s
    case LongValue(l) => IntToStringRoundTrip(l); IntToString(l)
  }

  /** The three type names are distinct, non-empty and free of backquotes, so a
      rendered type cannot be confused with a quoted name or with another type. */
  lemma TypeNamesAreDistinct(a: ColumnKind, b: ColumnKind)
    ensures TypeName(a) == TypeName(b) <==> a.IntegerKind? == b.IntegerKind? && a.VarcharKind? == b.VarcharKind?
    ensures |TypeName(a)| > 0 && '`' !in TypeName(a)
  {
  }

  class Column {
    const name: string
    var value: Option<ColumnValue>
    const length: Int32
    const nullable: bool
    const kind: ColumnKind

    /** The value, when set, has the subclass's type. */
    ghost predicate Typed()
      reads this
    {
      value.Some? ==> Fits(kind, value.value)
    }

    /** Whether this is an `IntegerColumn` with `autoIncrement` set. */
    predicate IsAutoIncrement() {
      kind.IntegerKind? && kind.autoIncrement
    }

    /** `IntegerColumn(name, value)`: via `Column(name, value)`, length -1, not nullable, no auto-increment. */
    constructor IntegerWithValue(name: string, value: Option<Int32>)
      ensures this.name == name && this.value == (if value.Some? then Some(IntegerValue(value.value)) else None)
      ensures length == -1 && !nullable && kind == IntegerKind(false) && Typed()
    {
      this.name := name;
      this.value := if value.Some? then Some(IntegerValue(value.value)) else None;
      length, nullable, kind := -1, false, IntegerKind(false);
    }

    /** `IntegerColumn(name, nullable)`: length 0, no auto-increment, no value. */
    constructor IntegerNullable(name: string, nullable: bool)
      ensures this.name == name && value == None && length == 0 && this.nullable == nullable
      ensures kind == IntegerKind(false) && Typed()
    {
      this.name, value, length, this.nullable, kind := name, None, 0, nullable, IntegerKind(false);
    }

    /** `IntegerColumn(name, autoIncrement, nullable)`: length 0, no value. */
    constructor IntegerAutoIncrement(name: string, autoIncrement: bool, nullable: bool)
      ensures this.name == name && value == None && length == 0 && this.nullable == nullable
      ensures kind == IntegerKind(autoIncrement) && Typed()
    {
      this.name, value, length, this.nullable, kind := name, None, 0, nullable, IntegerKind(autoIncrement);
    }

    /** `IntegerColumn(name, length, autoIncrement, nullable)`: via the required-args constructor, no value. */
    constructor Integer(name: string, length: Int32, autoIncrement: bool, nullable: bool)
      ensures this.name == name && value == None && this.length == length && this.nullable == nullable
      ensures kind == IntegerKind(autoIncrement) && Typed()
    {
      this.name, value, this.length, this.nullable, kind := name, None, length, nullable, IntegerKind(autoIncrement);
    }

    /** `VarcharColumn(name, value)`: via `Column(name, value)`, length -1, not nullable. */
    constructor VarcharWithValue(name: string, value: Option<string>)
      ensures this.name == name && this.value == (if value.Some? then Some(VarcharValue(value.value)) else None)
      ensures length == -1 && !nullable && kind == VarcharKind && Typed()
    {
      this.name := name;
      this.value := if value.Some? then Some(VarcharValue(value.value)) else None;
      length, nullable, kind := -1, false, VarcharKind;
    }

    /** `VarcharColumn(name, length, nullable)`: via the required-args constructor, no value. */
    constructor Varchar(name: string, length: Int32, nullable: bool)
      ensures this.name == name && value == None && this.length == length && this.nullable == nullable
      ensures kind == VarcharKind && Typed()
    {
      this.name, value, this.length, this.nullable, kind := name, None, length, nullable, VarcharKind;
    }

    /** `LongColumn(name, value)`: via `Column(name, value)`, length -1, not nullable. */
    constructor LongWithValue(name: string, value: Option<Int64>)
      ensures this.name == name && this.value == (if value.Some? then Some(LongValue(value.value)) else None)
      ensures length == -1 && !nullable && kind == LongKind && Typed()
    {
      this.name := name;
      this.value := if value.Some? then Some(LongValue(value.value)) else None;
      length, nullable, kind := -1, false, LongKind;
    }

    /** `LongColumn(name, nullable)`: length 0, no value. */
    constructor LongNullable(name: string, nullable: bool)
      ensures this.name == name && value == None && length == 0 && this.nullable == nullable
      ensures kind == LongKind && Typed()
    {
      this.name, value, length, this.nullable, kind := name, None, 0, nullable, LongKind;
    }

    /** `LongColumn(name, length, nullable)`: via the required-args constructor, no value. */
    constructor Long(name: string, length: Int32, nullable: bool)
      ensures this.name == name && value == None && this.length == length && this.nullable == nullable
      ensures kind == LongKind && Typed()
    {
      this.name, value, this.length, this.nullable, kind := name, None, length, nullable, LongKind;
    }

    /** The Lombok setter: the only field that changes after construction. */
    method SetValue(v: Option<ColumnValue>)
      requires v.Some? ==> Fits(kind, v.value)
      modifies this
      ensures value == v && Typed()
    {
      value := v;
    }

    /** The value a statement is bound to: `value.toString()`, or SQL null. */
    function BoundValue(): (s: Option<string>)
      reads this
      ensures s.None? <==> value.None?
    {
      if value.None? then None else Some(ValueString(value.value))
    }
  }
}
