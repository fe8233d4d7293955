/**
  What is bound, stored and read comes back: the meaning of an argument, the column the server keeps it in, and the
  conversions of both packages, joined. Column and parameter kinds are the numbers of the SDK's header.
 */
module ReadBack {
  import opened Basics
  import opened IntegerText
  import opened BindGraph
  import opened Parameters
  import opened NativeBind
  import Cursor

  /** A column of this kind holding this cell keeps the parameter. Integers and floats are kept as text. */
  predicate Stores(p: Param, kind: int, cell: Option<seq<Byte>>, isFloat: seq<Byte> -> bool) {
    match p
    case NullParam => cell == None
    case IntParam(n) => (kind == 1 || kind == 5) && cell == Some(Ascii(Decimal(n)))
    case DoubleParam(text) => (kind == 2 || kind == 9) && cell == Some(text) && isFloat(text)
    case TextParam(text) => (kind == 3 || kind == 6 || kind == 7 || kind == 8) && cell == Some(text)
    case BlobParam(bytes) => kind == 4 && cell == Some(bytes)
    case Garbage => false
  }

  /** An argument as a Go value read from a column: nil, int64, float64, string or a byte slice. */
  function AsRead(v: Value): Cursor.Converted {
    match v
    case NullValue => Cursor.NilValue
    case IntValue(n) => Cursor.IntegerValue(n)
    case DoubleValue(_, text) => Cursor.FloatValue(text)
    case TextValue(text) => Cursor.TextOf(text)
    case BlobValue(bytes) => Cursor.BytesValue(bytes)
    case ZeroBlobValue(size) => Cursor.BytesValue(if size < 0 then [] else Zeros(size))
    case OtherValue => Cursor.NilValue
  }

  function AllAsRead(args: seq<Value>): seq<Cursor.Converted> { seq(|args|, i requires 0 <= i < |args| => AsRead(args[i])) }

  lemma IntegerReadBack(n: Int64, kind: int, isFloat: seq<Byte> -> bool)
    requires kind == 1 || kind == 5
    ensures Cursor.ValueInterface(kind, Ascii(Decimal(n)), isFloat) == Some(Cursor.IntegerValue(n))
  {
    TextSurvives(n);
    PrintParse(n);
  }

  /**
    An argument that was bound and is stored comes back, from the adapter's Next and from a Scan into an `any`, as the
    value it was, exactly when its length fits a C int.
   */
  lemma ReadBackExactly(v: Value, kind: int, cell: Option<seq<Byte>>, isFloat: seq<Byte> -> bool)
    requires Stores(Truncated(v), kind, cell, isFloat)
    ensures Cursor.DriverValue(kind, cell, isFloat) == Some(AsRead(v)) <==> Fits(v)
    ensures Cursor.ScanValue(Cursor.AnyTarget, kind, cell, isFloat) == Cursor.DriverValue(kind, cell, isFloat)
  {
    TruncatedIsDenoted(v);
    match v
    case IntValue(n) => IntegerReadBack(n, kind, isFloat);
    case _ =>
  }

  /** The same for what a slot of the one-shot graph means. */
  lemma SlotReadBack(v: Value, kind: int, cell: Option<seq<Byte>>, isFloat: seq<Byte> -> bool)
    requires SlotFor(v) != Unset && Stores(Meaning(SlotFor(v)), kind, cell, isFloat)
    ensures Cursor.DriverValue(kind, cell, isFloat) == Some(AsRead(v)) <==> Fits(v)
  {
    SlotMeansArgument(v);
    ReadBackExactly(v, kind, cell, isFloat);
  }

  /** A row of stored arguments is delivered by the adapter as those arguments, in order. */
  lemma {:induction false} RowReadBack(args: seq<Value>, types: seq<int>, row: seq<Option<seq<Byte>>>, isFloat: seq<Byte> -> bool)
    requires |args| == |types| == |row|
    requires forall i :: 0 <= i < |args| ==> Fits(args[i]) && Stores(Denote(args[i]), types[i], row[i], isFloat)
    ensures Cursor.ConvertRow(types, row, isFloat) == Some(AllAsRead(args))
    decreases |args|
  {
    if args != [] {
      var last := |args| - 1;
      assert AllAsRead(args) == AllAsRead(args[..last]) + [AsRead(args[last])];
      RowReadBack(args[..last], types[..last], row[..last], isFloat);
      TruncatedIsDenoted(args[last]);
      ReadBackExactly(args[last], types[last], row[last], isFloat);
    }
  }

  /** The destinations that take an argument of this kind, `any` apart. */
  predicate Takes(target: Cursor.Target, v: Value) {
    match v
    case IntValue(_) => target.Int64Target? || target.NullInt64Target?
    case DoubleValue(_, _) => target.Float64Target? || target.NullFloat64Target?
    case TextValue(_) => target.StringTarget? || target.NullStringTarget?
    case BlobValue(_) => target.BytesTarget? || target.NullBytesTarget?
    case ZeroBlobValue(_) => target.BytesTarget? || target.NullBytesTarget?
    case _ => false
  }

  /** A stored argument scans into the destinations made for it. */
  lemma ScanReadBack(v: Value, target: Cursor.Target, kind: int, cell: Option<seq<Byte>>, isFloat: seq<Byte> -> bool)
    requires Takes(target, v) && Fits(v) && Stores(Denote(v), kind, cell, isFloat)
    ensures Cursor.ScanValue(target, kind, cell, isFloat) == Some(AsRead(v))
  {
    if v.IntValue? { IntegerReadBack(v.n, 1, isFloat); }
  }

  /** Text and bytes destinations take any cell unchanged, whatever the column. A `Value` takes it with the column's kind. */
  lemma RawReadBack(raw: seq<Byte>, kind: int, isFloat: seq<Byte> -> bool)
    ensures Cursor.ScanValue(Cursor.StringTarget, kind, Some(raw), isFloat) == Some(AsRead(TextValue(raw)))
    ensures Cursor.ScanValue(Cursor.NullStringTarget, kind, Some(raw), isFloat) == Some(AsRead(TextValue(raw)))
    ensures Cursor.ScanValue(Cursor.BytesTarget, kind, Some(raw), isFloat) == Some(AsRead(BlobValue(raw)))
    ensures Cursor.ScanValue(Cursor.NullBytesTarget, kind, Some(raw), isFloat) == Some(AsRead(BlobValue(raw)))
    ensures Cursor.ScanValue(Cursor.ValueTarget, kind, Some(raw), isFloat) == Some(Cursor.RawColumn(kind, Some(raw)))
    ensures Cursor.ScanValue(Cursor.NilTarget, kind, Some(raw), isFloat) == None
    ensures Cursor.ScanValue(Cursor.OtherTarget, kind, Some(raw), isFloat) == None
  {
  }

  /** Number destinations take a cell exactly if it is such a number, whatever the column. */
  lemma NumberReadBack(raw: seq<Byte>, n: int, kind: int, isFloat: seq<Byte> -> bool)
    requires raw == Ascii(Decimal(n))
    ensures forall target :: target == Cursor.Int64Target || target == Cursor.NullInt64Target ==>
              Cursor.ScanValue(target, kind, Some(raw), isFloat)
              == if -0x8000_0000_0000_0000 <= n <= 0x7FFF_FFFF_FFFF_FFFF then Some(Cursor.IntegerValue(n)) else None
    ensures forall target, text :: target == Cursor.Float64Target || target == Cursor.NullFloat64Target ==>
              Cursor.ScanValue(target, kind, Some(text), isFloat) == if isFloat(text) then Some(Cursor.FloatValue(text)) else None
  {
    TextSurvives(n);
    PrintParse(n);
  }

  /** A NULL is nil for the adapter, and scans as nil into exactly the destinations that have one. */
  lemma NullReadBack(target: Cursor.Target, kind: int, isFloat: seq<Byte> -> bool)
    ensures Cursor.DriverValue(kind, None, isFloat) == Some(Cursor.NilValue)
    ensures Cursor.ScanValue(target, kind, None, isFloat)
            == if target == Cursor.ValueTarget then Some(Cursor.RawColumn(kind, None))
               else if target == Cursor.AnyTarget || target == Cursor.BytesTarget || target == Cursor.NullInt64Target
                       || target == Cursor.NullFloat64Target || target == Cursor.NullStringTarget || target == Cursor.NullBytesTarget
               then Some(Cursor.NilValue) else None
  {
  }

  /** The kinds on the wire. */
  lemma WireKinds(v: Value)
    requires SlotFor(v) != Unset
    ensures match SlotFor(v)
            case Bytes(kind, _) =>
              kind == (if v.IntValue? then 8 else if v.DoubleValue? then 2 else if v.TextValue? then 3 else 4)
              && (v.IntValue? || v.DoubleValue? || v.TextValue? || v.BlobValue?)
            case Null => v.NullValue? && BIND_NULL == 5
            case Unset => false
  {
  }
}
