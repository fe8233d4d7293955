/** A cursor as a value: its position, its sticky error, and what iterating it delivers. */
module Cursor {
  import opened Basics
  import opened Errors
  import opened IntegerText
  import opened BindGraph
  import opened Parameters

  /** `current` is the one-based row the cursor stands on, 0 before the first; `sdkRow` is the row the SDK stands on. */
  datatype Cursor = Cursor(open: bool, total: int, current: int, sdkRow: int, err: Option<Error>)

  /** The cursor after a call, and what the call returned. */
  datatype Nexted = Nexted(cursor: Cursor, more: bool)
  datatype Sought = Sought(cursor: Cursor, err: Option<Error>)

  /** The row count comes from a C int. */
  predicate Sized(c: Cursor) { 0 <= c.total < 0x8000_0000 && 0 <= c.current }

  predicate Positioned(c: Cursor) { Sized(c) && c.current <= c.total }

  /** `NextContext` under a context whose check gives `ended`. */
  function Next(c: Cursor, ended: Option<Error>): Nexted {
    if ended.Some? then Nexted(c.(err := ended), false)
    else if !c.open then Nexted(c.(err := if c.err == None then Some(Closed) else c.err), false)
    else if c.err.Some? || c.current >= c.total then Nexted(c, false)
    else Nexted(c.(current := c.current + 1, sdkRow := c.current + 1), true)
  }

  /** `NextContext` when the native seek may fail, which makes its error sticky. */
  predicate NextStep(c: Cursor, c': Cursor, more: bool, ended: Option<Error>) {
    || Nexted(c', more) == Next(c, ended)
    || (Next(c, ended).more && !more && c' == c.(err := Some(InvalidArgument)))
  }

  const SEEK_NEXT := -2
  const SEEK_FIRST := -3
  const SEEK_LAST := -4
  const SEEK_PREV := -5

  /** The row `cubesql_cursor_seek` goes to: four negative arguments are relative. */
  function SeekTarget(index: int, at: int, total: int): int {
    if index == SEEK_NEXT then at + 1
    else if index == SEEK_FIRST then 1
    else if index == SEEK_PREV then at - 1
    else if index == SEEK_LAST then total
    else index
  }

  /** `SeekContext`. The native seek sees the row as a C int and succeeds only if its target is a row of the cursor. */
  function Seek(c: Cursor, row: int, ended: Option<Error>): Sought {
    var target := SeekTarget(CInt(row), c.sdkRow, c.total);
    if ended.Some? then Sought(c, ended)
    else if row <= 0 then Sought(c, Some(InvalidArgument))
    else if !c.open then Sought(c, Some(Closed))
    else if !(1 <= target <= c.total) then Sought(c, Some(InvalidArgument))
    else Sought(c.(current := row, sdkRow := target, err := None), None)
  }

  /** The cursor after `n` calls of Next, and what the last of them returned. */
  function After(c: Cursor, n: nat): Cursor {
    if n == 0 then c else Next(After(c, n - 1), None).cursor
  }

  function Returned(c: Cursor, n: nat): bool
    requires n > 0
  {
    Next(After(c, n - 1), None).more
  }

  /** `c` moved to `row` by calls of Next: the SDK moves along, if there was any move. */
  function StandingOn(c: Cursor, row: int): Cursor {
    c.(current := row, sdkRow := if row == c.current then c.sdkRow else row)
  }

  /** From any position, Next visits exactly the remaining rows, each once and in order, then stays at the end. */
  lemma {:induction false} NextVisitsTheRest(c: Cursor, n: nat)
    requires Positioned(c) && c.open && c.err == None
    ensures After(c, n) == StandingOn(c, if n <= c.total - c.current then c.current + n else c.total)
    ensures n > 0 ==> (Returned(c, n) <==> n <= c.total - c.current)
  {
    if n > 0 { NextVisitsTheRest(c, n - 1); }
  }

  /** After a successful Seek(k) to an int32, whatever error was sticky, iteration visits k + 1 .. total. */
  lemma SeekThenRest(c: Cursor, k: int, n: nat)
    requires Sized(c) && Seek(c, k, None).err == None && k < 0x8000_0000
    ensures var row := if n <= c.total - k then k + n else c.total;
            After(Seek(c, k, None).cursor, n) == c.(err := None, current := row, sdkRow := row)
    ensures n > 0 ==> (Returned(Seek(c, k, None).cursor, n) <==> n <= c.total - k)
  {
    NextVisitsTheRest(Seek(c, k, None).cursor, n);
  }

  /** A successful Seek stands on a row of the cursor exactly when its argument is an int32. */
  lemma SeekLandsExactly(c: Cursor, k: int)
    requires Sized(c) && Seek(c, k, None).err == None
    ensures Positioned(Seek(c, k, None).cursor) <==> k < 0x8000_0000
  {
  }

  /**
    The arguments that succeed without standing on a row, exactly: those past int32 whose low 32 bits are the number
    of a row, or one of the SDK's four relative seeks to a row.
   */
  lemma SeekMissesExactly(c: Cursor, k: int)
    requires Sized(c) && c.open && k > 0
    ensures Seek(c, k, None).err == None && !Positioned(Seek(c, k, None).cursor)
            <==> && k >= 0x8000_0000
                 && var low := k % 0x1_0000_0000;
                    || 1 <= low <= c.total
                    || (low == 0x1_0000_0000 - 2 && 0 <= c.sdkRow < c.total)
                    || (low == 0x1_0000_0000 - 3 && c.total > 0)
                    || (low == 0x1_0000_0000 - 4 && c.total > 0)
                    || (low == 0x1_0000_0000 - 5 && 1 < c.sdkRow <= c.total + 1)
  {
  }

  /** Rows 2^32 + 1 (row 1) and 2^32 - 3 (the first row) of a one-row cursor: both seeks leave it past the end. */
  lemma SeekWrapsAround(k: int)
    requires k == 0x1_0000_0001 || k == 0x1_0000_0000 - 3
    ensures var c := Seek(Cursor(true, 1, 0, 1, None), k, None);
            c.err == None && c.cursor.current > c.cursor.total && !Next(c.cursor, None).more
  {
  }

  predicate NextCalled(c: Cursor, c': Cursor, ended: Option<Error>) {
    NextStep(c, c', true, ended) || NextStep(c, c', false, ended)
  }

  /** A run of Next calls, under contexts that end as they like, and of failed Seek calls, which change nothing. */
  predicate WithoutSeek(run: seq<Cursor>, ended: seq<Option<Error>>) {
    && |run| == |ended| + 1
    && forall i :: 0 <= i < |ended| ==> run[i + 1] == run[i] || NextCalled(run[i], run[i + 1], ended[i])
  }

  /** An error keeps the position frozen, and every Next false, until a Seek succeeds. */
  lemma {:induction false} StickyErrorFreezes(run: seq<Cursor>, ended: seq<Option<Error>>, i: nat, c: Cursor)
    requires WithoutSeek(run, ended) && i < |run| && run[0].err.Some?
    ensures run[i].current == run[0].current && run[i].err.Some?
    ensures !NextStep(run[i], c, true, None)
    decreases i
  {
    if i > 0 { StickyErrorFreezes(run, ended, i - 1, c); }
  }

  // ---------------------------------------------------------------- values

  const TYPE_INTEGER := 1
  const TYPE_FLOAT := 2
  const TYPE_BLOB := 4
  const TYPE_BOOLEAN := 5
  const TYPE_CURRENCY := 9

  /** A converted column. A float is identified with the text it was parsed from. */
  datatype Converted =
    | NilValue
    | IntegerValue(n: int)
    | FloatValue(text: seq<Byte>)
    | BytesValue(data: seq<Byte>)
    | TextOf(data: seq<Byte>)
    | RawColumn(kind: int, cell: Option<seq<Byte>>)

  /** `valueInterface`; `isFloat` says which texts `strconv.ParseFloat` accepts. None is ErrScan. */
  function ValueInterface(kind: int, raw: seq<Byte>, isFloat: seq<Byte> -> bool): Option<Converted> {
    if kind == TYPE_INTEGER || kind == TYPE_BOOLEAN then
      (match ParseInt64(FromAscii(raw)) case Some(n) => Some(IntegerValue(n)) case None => None)
    else if kind == TYPE_FLOAT || kind == TYPE_CURRENCY then
      (if isFloat(raw) then Some(FloatValue(raw)) else None)
    else if kind == TYPE_BLOB then Some(BytesValue(raw))
    else Some(TextOf(raw))
  }

  /** `driverValue`. */
  function DriverValue(kind: int, cell: Option<seq<Byte>>, isFloat: seq<Byte> -> bool): Option<Converted> {
    match cell
    case None => Some(NilValue)
    case Some(raw) => ValueInterface(kind, raw, isFloat)
  }

  /** An integer column holding the text of an int64 is read back as that int64 by both packages. */
  lemma IntegerColumn(n: int, isFloat: seq<Byte> -> bool)
    requires IsInt64(n)
    ensures DriverValue(TYPE_INTEGER, Some(Ascii(Decimal(n))), isFloat) == Some(IntegerValue(n))
    ensures ValueInterface(TYPE_INTEGER, Ascii(Decimal(n)), isFloat) == Some(IntegerValue(n))
  {
    TextSurvives(n);
    PrintParse(n);
  }

  /** The pointer types `scanValue` knows; `NilTarget` is a nil destination. */
  datatype Target =
    | NilTarget | AnyTarget | Int64Target | Float64Target | StringTarget | BytesTarget
    | NullInt64Target | NullFloat64Target | NullStringTarget | NullBytesTarget | ValueTarget | OtherTarget

  predicate Nullable(target: Target) {
    || target.AnyTarget? || target.BytesTarget? || target.ValueTarget?
    || target.NullInt64Target? || target.NullFloat64Target? || target.NullStringTarget? || target.NullBytesTarget?
  }

  /** `scanValue`; an invalid `Null...` value is nil. None is ErrScan. */
  function ScanValue(target: Target, kind: int, cell: Option<seq<Byte>>, isFloat: seq<Byte> -> bool): Option<Converted> {
    match cell
    case None => if target.ValueTarget? then Some(RawColumn(kind, None)) else if Nullable(target) then Some(NilValue) else None
    case Some(raw) =>
      match target
      case AnyTarget => ValueInterface(kind, raw, isFloat)
      case Int64Target => ValueInterface(TYPE_INTEGER, raw, isFloat)
      case NullInt64Target => ValueInterface(TYPE_INTEGER, raw, isFloat)
      case Float64Target => ValueInterface(TYPE_FLOAT, raw, isFloat)
      case NullFloat64Target => ValueInterface(TYPE_FLOAT, raw, isFloat)
      case StringTarget => Some(TextOf(raw))
      case NullStringTarget => Some(TextOf(raw))
      case BytesTarget => Some(BytesValue(raw))
      case NullBytesTarget => Some(BytesValue(raw))
      case ValueTarget => Some(RawColumn(kind, cell))
      case _ => None
  }

  /** The first `n` destinations hold the scanned columns. */
  predicate Scanned(targets: seq<Target>, values: seq<Converted>, n: int, types: seq<int>, row: seq<Option<seq<Byte>>>,
                    isFloat: seq<Byte> -> bool)
  {
    && 0 <= n <= |targets| && n <= |values| && n <= |types| && n <= |row|
    && forall i :: 0 <= i < n ==> ScanValue(targets[i], types[i], row[i], isFloat) == Some(values[i])
  }

  /** An int64 destination takes a printed integer of any column type exactly when it is in range, and never a NULL. */
  lemma Int64Destination(n: int, kind: int, isFloat: seq<Byte> -> bool)
    ensures ScanValue(Int64Target, kind, Some(Ascii(Decimal(n))), isFloat) == if IsInt64(n) then Some(IntegerValue(n)) else None
    ensures ScanValue(Int64Target, kind, None, isFloat) == None
  {
    TextSurvives(n);
    PrintParse(n);
  }

  // ---------------------------------------------------------------- the adapter's drain loop

  /** A row of the result set, converted; None when a column does not convert. */
  function ConvertRow(types: seq<int>, row: seq<Option<seq<Byte>>>, isFloat: seq<Byte> -> bool): Option<seq<Converted>>
    requires |row| == |types|
  {
    if row == [] then Some([])
    else
      var last := |row| - 1;
      var rest := ConvertRow(types[..last], row[..last], isFloat);
      var value := DriverValue(types[last], row[last], isFloat);
      if rest == None || value == None then None else Some(rest.value + [value.value])
  }

  /** A column of the row does not convert. */
  predicate Unconverted(types: seq<int>, row: seq<Option<seq<Byte>>>, isFloat: seq<Byte> -> bool)
    requires |row| == |types|
  {
    exists i :: 0 <= i < |row| && DriverValue(types[i], row[i], isFloat) == None
  }

  /** A row converts exactly when each of its columns does, to the conversions in order. */
  lemma {:induction false} ConvertExactly(types: seq<int>, row: seq<Option<seq<Byte>>>, isFloat: seq<Byte> -> bool)
    requires |row| == |types|
    ensures ConvertRow(types, row, isFloat) == None <==> Unconverted(types, row, isFloat)
    ensures var converted := ConvertRow(types, row, isFloat);
            converted.Some? ==>
              && |converted.value| == |row|
              && forall i :: 0 <= i < |row| ==> DriverValue(types[i], row[i], isFloat) == Some(converted.value[i])
  {
    hide DriverValue;
    if row != [] {
      var last := |row| - 1;
      ConvertExactly(types[..last], row[..last], isFloat);
      if Unconverted(types[..last], row[..last], isFloat) {
        var i :| 0 <= i < last && DriverValue(types[..last][i], row[..last][i], isFloat) == None;
        assert DriverValue(types[i], row[i], isFloat) == None;
      }
    }
  }

  lemma ConvertNone(types: seq<int>, row: seq<Option<seq<Byte>>>, isFloat: seq<Byte> -> bool)
    ensures ConvertRow(types[..0], row[..0], isFloat) == Some([])
  {
  }

  lemma ConvertNext(types: seq<int>, row: seq<Option<seq<Byte>>>, isFloat: seq<Byte> -> bool, n: nat,
                    values: seq<Converted>, value: Converted)
    requires n < |types| == |row|
    requires ConvertRow(types[..n], row[..n], isFloat) == Some(values)
    requires DriverValue(types[n], row[n], isFloat) == Some(value)
    ensures ConvertRow(types[..n + 1], row[..n + 1], isFloat) == Some(values + [value])
  {
    hide DriverValue;
    assert types[..n + 1][..n] == types[..n] && row[..n + 1][..n] == row[..n];
  }

  /** What one call of the adapter's Next gives database/sql. */
  datatype Delivery = Row(values: seq<Converted>) | EndOfFile | Failure

  predicate Table(types: seq<int>, cells: seq<seq<Option<seq<Byte>>>>) {
    forall i :: 0 <= i < |cells| ==> |cells[i]| == |types|
  }

  /** One call of `rows.Next` on an open cursor under a background context. */
  predicate Deliver(c: Cursor, c': Cursor, types: seq<int>, cells: seq<seq<Option<seq<Byte>>>>,
                    isFloat: seq<Byte> -> bool, out: Delivery)
    requires Table(types, cells) && c.total == |cells| && Sized(c)
  {
    match out
    case Row(values) => NextStep(c, c', true, None) && ConvertRow(types, cells[c'.current - 1], isFloat) == Some(values)
    case EndOfFile => NextStep(c, c', false, None) && c'.err == None
    case Failure => NextStep(c, c', true, None) || (NextStep(c, c', false, None) && c'.err.Some?)
  }

  ghost predicate IsDrain(run: seq<Cursor>, types: seq<int>, cells: seq<seq<Option<seq<Byte>>>>,
                          isFloat: seq<Byte> -> bool, outs: seq<Delivery>)
    requires Table(types, cells)
  {
    && |run| == |outs| + 1
    && (forall i :: 0 <= i < |run| ==> run[i].total == |cells| && Positioned(run[i]))
    && forall i :: 0 <= i < |outs| ==> Deliver(run[i], run[i + 1], types, cells, isFloat, outs[i])
  }

  /** Without failures, draining a fresh cursor of any length delivers its rows in order, then end-of-file forever. */
  lemma {:induction false} DrainDeliversTheList(run: seq<Cursor>, types: seq<int>, cells: seq<seq<Option<seq<Byte>>>>,
                                                isFloat: seq<Byte> -> bool, outs: seq<Delivery>, k: nat)
    requires Table(types, cells) && IsDrain(run, types, cells, isFloat, outs) && k <= |outs|
    requires run[0].open && run[0].current == 0 && run[0].err == None && Failure !in outs
    ensures run[k] == StandingOn(run[0], if k <= |cells| then k else |cells|)
    ensures k < |outs| ==> if k < |cells| then outs[k].Row? && ConvertRow(types, cells[k], isFloat) == Some(outs[k].values)
                           else outs[k] == EndOfFile
    decreases k
  {
    if k > 0 {
      DrainDeliversTheList(run, types, cells, isFloat, outs, k - 1);
      assert Deliver(run[k - 1], run[k], types, cells, isFloat, outs[k - 1]);
    }
    if k < |outs| {
      assert Deliver(run[k], run[k + 1], types, cells, isFloat, outs[k]);
      assert outs[k] in outs;
    }
  }

  /** Each delivery brings the end closer, so every drain ends. */
  lemma DeliveryDecreases(c: Cursor, c': Cursor, types: seq<int>, cells: seq<seq<Option<seq<Byte>>>>,
                          isFloat: seq<Byte> -> bool, out: Delivery)
    requires Table(types, cells) && c.total == |cells| && Positioned(c) && Deliver(c, c', types, cells, isFloat, out)
    ensures out.Row? ==> 0 <= c'.total - c'.current < c.total - c.current
    ensures Positioned(c') && c'.total == c.total
  {
  }
}
