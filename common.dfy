/**
 * Values shared by the whole model: failure-compatible wrappers, the engine's
 * error codes, bytes, and the parts of schemas, columns, data blocks and
 * table-creation requests that the modelled code builds or inspects.
 */
module Common {

  datatype Option<+T> = None | Some(value: T)

  datatype Result<+R, +E> = Ok(value: R) | Err(error: E) {
    predicate IsFailure() { Err? }
    function PropagateFailure<U>(): Result<U, E>
      requires Err?
    {
      Err(error)
    }
    function Extract(): R
      requires Ok?
    {
      value
    }
  }

  /** The error codes of the engine that the modelled code raises; any other
      error (from I/O, from an aggregate function, from the meta service) is
      carried unchanged as `Other`. */
  datatype ErrorCode =
    | LogicalError(message: string)
    | SemanticError(message: string)
    | UnexpectedError(message: string)
    | Other(code: nat, message: string)

  newtype byte = x: int | 0 <= x < 256

  type Bytes = seq<byte>

  const COMMA: byte := 44

  /** Column data types that appear in the modelled schemas. */
  datatype DataType = Int64 | UInt32 | UInt64 | Vu8 | Timestamp(precision: nat)

  /** `DataField::new` builds a non-nullable field, `DataField::new_nullable` a nullable one. */
  datatype DataField = DataField(name: string, dataType: DataType, nullable: bool)

  type DataSchema = seq<DataField>

  /** A column built by `Series::from_data` from a vector of values. */
  datatype Column =
    | Int64Column(i64s: seq<int>)
    | UInt32Column(u32s: seq<nat>)
    | UInt64Column(u64s: seq<nat>)
    | BytesColumn(strings: seq<Bytes>)
    | NullableUInt32Column(optU32s: seq<Option<nat>>)

  function ColumnLength(c: Column): nat {
    match c
    case Int64Column(v) => |v|
    case UInt32Column(v) => |v|
    case UInt64Column(v) => |v|
    case BytesColumn(v) => |v|
    case NullableUInt32Column(v) => |v|
  }

  /** Whether a column can stand under a field: its values have the field's
      type (timestamps are stored as `u32` seconds) and only a nullable
      field holds optional values. */
  predicate Fits(c: Column, f: DataField) {
    match c
    case Int64Column(_) => f.dataType == Int64 && !f.nullable
    case UInt32Column(_) => (f.dataType == UInt32 || f.dataType.Timestamp?) && !f.nullable
    case UInt64Column(_) => f.dataType == UInt64 && !f.nullable
    case BytesColumn(_) => f.dataType == Vu8 && !f.nullable
    case NullableUInt32Column(_) => (f.dataType == UInt32 || f.dataType.Timestamp?) && f.nullable
  }

  /** A columnar batch; the aggregation transform treats it as opaque. */
  datatype DataBlock = DataBlock(schema: DataSchema, columns: seq<Column>)

  /** The parts of a `CreateTableReq` that the table creators fill in. */
  datatype TableNameIdent = TableNameIdent(tenant: string, dbName: string, tableName: string)
  datatype TableMeta = TableMeta(schema: DataSchema, engine: string, engineOptions: map<string, string>)
  datatype CreateTableReq = CreateTableReq(ifNotExists: bool, nameIdent: TableNameIdent, tableMeta: TableMeta)

  /** The decimal digits of `n`, as `format!("{}", n)` writes an unsigned integer. */
  function NatToString(n: nat): (s: string)
    ensures |s| > 0
    ensures forall i :: 0 <= i < |s| ==> '0' <= s[i] <= '9'
  {
    var d := ('0' as int + n % 10) as char;
    if n < 10 then [d] else NatToString(n / 10) + [d]
  }

  /** The number a string of decimal digits denotes. */
  function DigitsValue(s: string): nat
    requires forall i :: 0 <= i < |s| ==> '0' <= s[i] <= '9'
  {
    if |s| == 0 then 0
    else DigitsValue(s[..|s| - 1]) * 10 + (s[|s| - 1] as int - '0' as int)
  }

  /** The digits written for `n` denote `n`, with no leading zero. */
  lemma {:induction false} NatToStringValue(n: nat)
    ensures DigitsValue(NatToString(n)) == n
    ensures NatToString(n)[0] == '0' ==> n == 0
  {
    var s := NatToString(n);
    if n >= 10 {
      NatToStringValue(n / 10);
      assert s[..|s| - 1] == NatToString(n / 10);
    }
  }
}
