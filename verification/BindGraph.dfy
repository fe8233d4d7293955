/**
  The C-owned graph of one-shot bind parameters, in place, on an explicit heap.

  `Heap.live` is the set of blocks that have been allocated and not freed: an allocation may fail,
  and freeing a block that is not live is not allowed, so a verified program never frees a block twice.
  Environment assumption: the SDK reads the value buffers it is given but does not write them; the three
  arrays that hold them it may overwrite in any way.
 */
module BindGraph {
  import opened Basics
  import opened IntegerText

  newtype Byte = x: int | 0 <= x < 256

  const BIND_DOUBLE := 2
  const BIND_TEXT := 3
  const BIND_BLOB := 4
  const BIND_NULL := 5
  const BIND_INT64 := 8

  const OK := 0
  const ERR_INVALID := -10000
  const ERR_MEMORY := -10001

  predicate IsKind(kind: int) { kind in {BIND_DOUBLE, BIND_TEXT, BIND_BLOB, BIND_NULL, BIND_INT64} }

  /** What a slot of the graph says to the SDK. */
  datatype Slot = Unset | Null | Bytes(kind: int, data: seq<Byte>)

  /** A value buffer, written once, when it is allocated. */
  class Buffer {
    const bytes: seq<Byte>

    constructor (bytes: seq<Byte>)
      ensures this.bytes == bytes
    {
      this.bytes := bytes;
    }
  }

  class Heap {
    ghost var live: set<object>

    constructor ()
      ensures live == {}
    {
      live := {};
    }

    /** `calloc` of an array: zeroed, or null. */
    method Calloc<T>(n: nat, zero: T) returns (block: array?<T>)
      modifies this
      ensures block == null ==> live == old(live)
      ensures block != null ==> fresh(block) && block.Length == n && live == old(live) + {block}
      ensures block != null ==> forall i :: 0 <= i < n ==> block[i] == zero
    {
      var exhausted: bool := *;
      if exhausted {
        block := null;
      } else {
        block := new T[n](_ => zero);
        live := live + {block};
      }
    }

    /** `calloc` of a value buffer and `memcpy` of `data` to its start. */
    method Copy(allocation: nat, data: seq<Byte>) returns (buffer: Buffer?)
      requires |data| <= allocation
      modifies this
      ensures buffer == null ==> live == old(live)
      ensures buffer != null ==> fresh(buffer) && live == old(live) + {buffer}
      ensures buffer != null ==> |buffer.bytes| == allocation && buffer.bytes[..|data|] == data
      ensures buffer != null ==> forall i :: |data| <= i < allocation ==> buffer.bytes[i] == 0
    {
      var exhausted: bool := *;
      if exhausted {
        buffer := null;
      } else {
        buffer := new Buffer(data + seq(allocation - |data|, _ => 0));
        live := live + {buffer};
      }
    }

    /** `free`, which ignores null. */
    method Free(block: object?)
      requires block != null ==> block in live
      modifies this
      ensures live == if block == null then old(live) else old(live) - {block}
    {
      if block != null {
        live := live - {block};
      }
    }
  }

  /** The SDK behind `cubesql_bind`. */
  class Sdk {
    ghost var received: seq<seq<Slot>>

    constructor ()
      ensures received == []
    {
      received := [];
    }

    /** Sends the parameters. */
    method Bind(values: array<Buffer?>, sizes: array<int>, types: array<int>) returns (result: int)
      requires Wellformed(values[..], sizes[..], types[..]) && 0 !in types[..]
      modifies this, values, sizes, types
      ensures received == old(received) + [old(Slots(values[..], sizes[..], types[..]))]
    {
      received := received + [Slots(values[..], sizes[..], types[..])];
      result := *;
    }
  }

  // ---------------------------------------------------------------- text as bytes

  function Ascii(text: string): (data: seq<Byte>)
    ensures |data| == |text|
  {
    seq(|text|, i requires 0 <= i < |text| => (text[i] as int % 256) as Byte)
  }

  function FromAscii(data: seq<Byte>): (text: string)
    ensures |text| == |data|
  {
    seq(|data|, i requires 0 <= i < |data| => data[i] as int as char)
  }

  lemma {:induction false} DigitsAreAscii(n: nat)
    ensures forall i :: 0 <= i < |Digits(n)| ==> Digits(n)[i] as int < 128
  {
    if n >= 10 { DigitsAreAscii(n / 10); }
  }

  /** The text of an integer survives being stored as bytes. */
  lemma TextSurvives(n: int)
    ensures FromAscii(Ascii(Decimal(n))) == Decimal(n)
  {
    DigitsAreAscii(if n < 0 then -n else n);
  }

  // ---------------------------------------------------------------- contents of a graph

  /** The SDK can read the buffer: text and numbers with their terminator, BLOB bytes exactly. */
  predicate Readable(value: Buffer?, size: int, kind: int) {
    && value != null && 0 <= size
    && if kind == BIND_BLOB then size <= |value.bytes| else size < |value.bytes| && value.bytes[size] == 0
  }

  /** A slot is unset, NULL without a buffer, or a typed buffer the SDK can read. */
  predicate Wellformed(values: seq<Buffer?>, sizes: seq<int>, types: seq<int>) {
    && |values| == |sizes| == |types|
    && forall i :: 0 <= i < |values| ==>
         && (types[i] == 0 || IsKind(types[i]))
         && if types[i] == 0 || types[i] == BIND_NULL then values[i] == null else Readable(values[i], sizes[i], types[i])
  }

  function SlotOf(value: Buffer?, size: int, kind: int): Slot {
    if kind == 0 then Unset
    else if kind != BIND_NULL && Readable(value, size, kind) then Bytes(kind, value.bytes[..size])
    else Null
  }

  function Slots(values: seq<Buffer?>, sizes: seq<int>, types: seq<int>): seq<Slot>
    requires Wellformed(values, sizes, types)
  {
    seq(|values|, i requires 0 <= i < |values| => SlotOf(values[i], sizes[i], types[i]))
  }

  lemma StoreKeepsWellformed(values: seq<Buffer?>, sizes: seq<int>, types: seq<int>,
                             slot: nat, copy: Buffer?, length: int, kind: int)
    requires Wellformed(values, sizes, types) && slot < |values| && IsKind(kind)
    requires if kind == BIND_NULL then copy == null else Readable(copy, length, kind)
    ensures Wellformed(values[slot := copy], sizes[slot := length], types[slot := kind])
    ensures Slots(values[slot := copy], sizes[slot := length], types[slot := kind])
         == Slots(values, sizes, types)[slot := SlotOf(copy, length, kind)]
  {
  }

  // ---------------------------------------------------------------- ownership of value buffers

  function Block(p: Buffer?): set<object> { if p == null then {} else {p} }

  function Buffers(values: seq<Buffer?>): set<object> {
    set i | 0 <= i < |values| && values[i] != null :: values[i] as object
  }

  /** Each slot owns at most one block, and no block has two owners. */
  predicate SoleOwners(live: set<object>, values: seq<Buffer?>) {
    && Buffers(values) <= live
    && forall i, j :: 0 <= i < j < |values| && values[i] != null ==> values[i] != values[j]
  }

  /** Freeing what a slot held and giving it a block nobody owns. */
  lemma StoreKeepsOwners(live: set<object>, values: seq<Buffer?>, slot: nat, copy: Buffer?)
    requires SoleOwners(live, values) && slot < |values|
    requires Block(copy) <= live && Block(copy) !! Buffers(values)
    ensures SoleOwners(live - Block(values[slot]), values[slot := copy])
    ensures Buffers(values[slot := copy]) == Buffers(values) - Block(values[slot]) + Block(copy)
  {
    var values' := values[slot := copy];
    forall b | b in Buffers(values) - Block(values[slot]) ensures b in Buffers(values') {
      var i :| 0 <= i < |values| && values[i] == b;
      assert values'[i] == b;
    }
    forall b | b in Buffers(values') ensures b in Buffers(values) - Block(values[slot]) + Block(copy) {
      var i :| 0 <= i < |values'| && values'[i] == b;
      assert i != slot ==> values[i] == b;
    }
    assert copy != null ==> values'[slot] == copy;
  }

  lemma BuffersGrow(values: seq<Buffer?>, n: nat)
    requires n < |values|
    ensures Buffers(values[..n + 1]) == Buffers(values[..n]) + Block(values[n])
  {
    assert values[..n + 1] == values[..n] + [values[n]];
    forall b | b in Buffers(values[..n]) ensures b in Buffers(values[..n + 1]) {
      var i :| 0 <= i < n && values[i] == b;
      assert values[..n + 1][i] == b;
    }
    assert values[n] != null ==> values[..n + 1][n] == values[n];
  }

  lemma OutsideKept(live: set<object>, footprint: set<object>, lost: set<object>, gained: set<object>)
    requires lost <= footprint && gained !! live
    ensures live + gained - lost - (footprint - lost + gained) == live - footprint
  {
  }

  // ---------------------------------------------------------------- the graph

  /** `struct csqlgo_bind`. */
  class Bind {
    const heap: Heap
    var count: int
    var values: array?<Buffer?>
    var sizes: array?<int>
    var types: array?<int>

    constructor (heap: Heap)
      ensures this.heap == heap && count == 0 && values == null && sizes == null && types == null
    {
      this.heap := heap;
      count, values, sizes, types := 0, null, null, null;
    }

    /** The value array; nothing before it is allocated. */
    ghost function Values(): seq<Buffer?>
      reads this, values
    {
      if values == null then [] else values[..]
    }

    ghost function Footprint(): set<object>
      reads this, values
    {
      Buffers(Values()) + {this} + (if values == null then {} else {values}) + (if sizes == null then {} else {sizes})
        + (if types == null then {} else {types})
    }

    /** Every block is live and has one owner; also of a graph whose construction stopped halfway. */
    ghost predicate Owned()
      reads this, heap, values
    {
      && this in heap.live
      && (values != null ==> values in heap.live && (count == values.Length || (count == 0 && Buffers(values[..]) == {})))
      && (sizes != null ==> sizes in heap.live)
      && (types != null ==> types in heap.live && types != sizes)
      && SoleOwners(heap.live, Values())
    }

    ghost predicate Valid()
      reads this, heap, values, sizes, types
    {
      && Owned()
      && values != null && sizes != null && types != null
      && 0 < count == values.Length == sizes.Length == types.Length
      && Wellformed(values[..], sizes[..], types[..])
    }

    /** What the graph says to the SDK, parameter by parameter. */
    ghost function Contents(): seq<Slot>
      requires Valid()
      reads this, heap, values, sizes, types
    {
      Slots(values[..], sizes[..], types[..])
    }

    /** The three zeroed arrays, any of which may be missing. */
    method Allocate(n: nat)
      requires Owned() && count == 0 && values == null && sizes == null && types == null
      modifies this, heap
      ensures Owned() && count == 0
      ensures values != null ==> fresh(values) && values.Length == n && forall i :: 0 <= i < n ==> values[i] == null
      ensures sizes != null ==> fresh(sizes) && sizes.Length == n && forall i :: 0 <= i < n ==> sizes[i] == 0
      ensures types != null ==> fresh(types) && types.Length == n && forall i :: 0 <= i < n ==> types[i] == 0
      ensures heap.live == old(heap.live) + Footprint()
    {
      values := heap.Calloc(n, null);
      sizes := heap.Calloc(n, 0);
      types := heap.Calloc(n, 0);
      assert Buffers(Values()) == {};
      hide Buffers;
    }

    /** `csqlgo_bind_close`. */
    method Close()
      requires Owned()
      modifies heap
      ensures heap.live == old(heap.live) - old(Footprint())
    {
      if values != null {
        var index := 0;
        while index < count
          invariant 0 <= index <= count
          invariant heap.live == old(heap.live) - Buffers(values[..index])
        {
          BuffersGrow(values[..], index);
          assert values[..][..index] == values[..index] && values[..][..index + 1] == values[..index + 1];
          heap.Free(values[index]);
          index := index + 1;
        }
        assert values[..values.Length] == values[..];
      }
      heap.Free(values);
      heap.Free(sizes);
      heap.Free(types);
      heap.Free(this);
    }

    /** Frees what the slot held and gives it a new buffer. */
    method Store(slot: int, copy: Buffer?, length: int, kind: int)
      requires Valid() && 0 <= slot < count && IsKind(kind)
      requires if kind == BIND_NULL then copy == null else Readable(copy, length, kind)
      requires Block(copy) <= heap.live && Block(copy) !! Buffers(Values())
      modifies heap, values, sizes, types
      ensures Valid() && values[..] == old(values[..])[slot := copy]
      ensures Contents() == old(Contents())[slot := SlotOf(copy, length, kind)]
      ensures heap.live == old(heap.live) - Block(old(values[slot]))
      ensures Footprint() == old(Footprint()) - Block(old(values[slot])) + Block(copy)
    {
      ghost var was := values[..];
      StoreKeepsOwners(heap.live, was, slot, copy);
      StoreKeepsWellformed(was, sizes[..], types[..], slot, copy, length, kind);
      hide Buffers, SoleOwners, Wellformed, Slots, SlotOf, Readable;
      heap.Free(values[slot]);
      values[slot] := copy;
      sizes[slot] := length;
      types[slot] := kind;
      assert heap.live == old(heap.live) - Block(was[slot]);
      assert values[..] == was[slot := copy];
      assert sizes[..] == old(sizes[..])[slot := length] && types[..] == old(types[..])[slot := kind];
    }

    /** `csqlgo_bind_set_bytes`. The graph copies the caller's bytes before it gives up the old buffer. */
    method SetBytes(index: int, value: Option<seq<Byte>>, length: int, kind: int) returns (result: int)
      requires Valid() && IsKind(kind)
      requires kind == BIND_NULL ==> length == 0
      requires value.Some? ==> length <= |value.value|
      modifies heap, values, sizes, types
      ensures Valid()
      ensures heap.live - Footprint() == old(heap.live - Footprint())
      ensures result == OK || result == ERR_INVALID || result == ERR_MEMORY
      ensures result == ERR_INVALID <==> index <= 0 || index > count || length < 0 || (value == None && length > 0)
      ensures result != OK ==> Contents() == old(Contents()) && heap.live == old(heap.live)
      ensures result == OK ==>
                Contents() == old(Contents())[index - 1 :=
                  if kind == BIND_NULL then Null else Bytes(kind, if value == None then [] else value.value[..length])]
    {
      if index <= 0 || index > count || length < 0 {
        return ERR_INVALID;
      }
      if value == None && length > 0 {
        return ERR_INVALID;
      }
      var slot := index - 1;
      var copy: Buffer? := null;
      if kind != BIND_NULL {
        var allocation := if kind == BIND_BLOB then (if length > 0 then length else 1) else length + 1;
        copy := heap.Copy(allocation, if value == None then [] else value.value[..length]);
        if copy == null {
          return ERR_MEMORY;
        }
      }
      OutsideKept(old(heap.live), Footprint(), Block(values[slot]), Block(copy));
      Store(slot, copy, length, kind);
      return OK;
    }

    /** `csqlgo_bind_set_int64`: the length check after printing never fails. */
    method SetInt64(index: int, value: int) returns (result: int)
      requires Valid() && IsInt64(value)
      modifies heap, values, sizes, types
      ensures Valid()
      ensures heap.live - Footprint() == old(heap.live - Footprint())
      ensures result == OK || result == ERR_INVALID || result == ERR_MEMORY
      ensures result == ERR_INVALID <==> index <= 0 || index > count
      ensures result != OK ==> Contents() == old(Contents()) && heap.live == old(heap.live)
      ensures result == OK ==> Contents() == old(Contents())[index - 1 := Bytes(BIND_INT64, Ascii(Decimal(value)))]
    {
      var buffer := Ascii(Decimal(value));
      DecimalFits(value);
      if |buffer| >= BUFFER_SIZE {
        return ERR_INVALID;
      }
      assert buffer[..|buffer|] == buffer;
      result := SetBytes(index, Some(buffer), |buffer|, BIND_INT64);
    }

    /** `csqlgo_bind_set_double`; `text` is what "%.17g" prints. */
    method SetDouble(index: int, text: seq<Byte>) returns (result: int)
      requires Valid()
      modifies heap, values, sizes, types
      ensures Valid()
      ensures heap.live - Footprint() == old(heap.live - Footprint())
      ensures result == OK || result == ERR_INVALID || result == ERR_MEMORY
      ensures result == ERR_INVALID <==> index <= 0 || index > count || |text| >= BUFFER_SIZE
      ensures result != OK ==> Contents() == old(Contents()) && heap.live == old(heap.live)
      ensures result == OK ==> Contents() == old(Contents())[index - 1 := Bytes(BIND_DOUBLE, text)]
    {
      if |text| >= BUFFER_SIZE {
        return ERR_INVALID;
      }
      assert text[..|text|] == text;
      result := SetBytes(index, Some(text), |text|, BIND_DOUBLE);
    }

    /** `csqlgo_bind_set_blob`. */
    method SetBlob(index: int, value: Option<seq<Byte>>, length: int) returns (result: int)
      requires Valid() && (value.Some? ==> length <= |value.value|)
      modifies heap, values, sizes, types
      ensures Valid()
      ensures heap.live - Footprint() == old(heap.live - Footprint())
      ensures result == OK || result == ERR_INVALID || result == ERR_MEMORY
      ensures result == ERR_INVALID <==> index <= 0 || index > count || length <= 0 || value == None
      ensures result != OK ==> Contents() == old(Contents()) && heap.live == old(heap.live)
      ensures result == OK ==> Contents() == old(Contents())[index - 1 := Bytes(BIND_BLOB, value.value[..length])]
    {
      if length <= 0 {
        return ERR_INVALID;
      }
      result := SetBytes(index, value, length, BIND_BLOB);
    }

    /** The check `csqlgo_conn_execute_bind` begins with. */
    method AllSet() returns (complete: bool)
      requires Valid()
      ensures complete <==> Unset !in Contents()
      ensures complete <==> 0 !in types[..]
    {
      var index := 0;
      while index < count
        invariant 0 <= index <= count
        invariant forall i :: 0 <= i < index ==> types[i] != 0
      {
        if types[index] == 0 {
          assert types[..][index] == 0 && Contents()[index] == Unset;
          return false;
        }
        index := index + 1;
      }
      return true;
    }

    /** The arrays handed to the SDK: all three copies, or none and nothing left allocated. */
    method CopyArrays() returns (values': array?<Buffer?>, sizes': array?<int>, types': array?<int>)
      requires Valid()
      modifies heap
      ensures values' == null || sizes' == null || types' == null ==> heap.live == old(heap.live)
      ensures values' != null && sizes' != null && types' != null ==>
                && fresh(values') && fresh(sizes') && fresh(types') && sizes' != types'
                && values'[..] == values[..] && sizes'[..] == sizes[..] && types'[..] == types[..]
                && heap.live == old(heap.live) + {values'} + {sizes'} + {types'}
    {
      hide Buffers, SoleOwners, Wellformed, Slots;
      values' := heap.Calloc(count, null);
      sizes' := heap.Calloc(count, 0);
      types' := heap.Calloc(count, 0);
      if values' == null || sizes' == null || types' == null {
        heap.Free(values');
        heap.Free(sizes');
        heap.Free(types');
        return;
      }
      forall i | 0 <= i < count { values'[i] := values[i]; }
      forall i | 0 <= i < count { sizes'[i] := sizes[i]; }
      forall i | 0 <= i < count { types'[i] := types[i]; }
    }

    /** `csqlgo_conn_execute_bind`: the SDK gets copies of the arrays, so nothing it does to them reaches the graph. */
    method Execute(sdk: Sdk) returns (result: int)
      requires Valid()
      modifies heap, sdk
      ensures Valid() && heap.live == old(heap.live)
      ensures Contents() == old(Contents())
      ensures Unset in Contents() ==> result == ERR_INVALID && sdk.received == old(sdk.received)
      ensures Unset !in Contents() ==>
                || sdk.received == old(sdk.received) + [Contents()]
                || (result == ERR_MEMORY && sdk.received == old(sdk.received))
    {
      var complete := AllSet();
      if !complete {
        return ERR_INVALID;
      }
      var values', sizes', types' := CopyArrays();
      hide Buffers, SoleOwners, Wellformed, Slots;
      if values' == null || sizes' == null || types' == null {
        return ERR_MEMORY;
      }
      result := sdk.Bind(values', sizes', types');
      heap.Free(values');
      heap.Free(sizes');
      heap.Free(types');
      assert heap.live == old(heap.live);
    }
  }

  /** `csqlgo_bind_new`: a graph of unset slots, or null without a leak. */
  method NewBind(heap: Heap, count: int) returns (bind: Bind?)
    modifies heap
    ensures count <= 0 ==> bind == null
    ensures bind == null ==> heap.live == old(heap.live)
    ensures bind != null ==>
              && fresh(bind) && bind.heap == heap && bind.count == count && bind.Valid()
              && bind.Contents() == seq(count, _ => Unset)
              && fresh(bind.Footprint()) && heap.live == old(heap.live) + bind.Footprint()
  {
    if count <= 0 {
      return null;
    }
    var exhausted: bool := *;
    if exhausted {
      return null;
    }
    bind := new Bind(heap);
    heap.live := heap.live + {bind};
    bind.Allocate(count);
    if bind.values == null || bind.sizes == null || bind.types == null {
      bind.Close();
      return null;
    }
    bind.count := count;
    ghost var values, sizes, types := bind.values[..], bind.sizes[..], bind.types[..];
    assert Buffers(values) == {};
    assert Wellformed(values, sizes, types) && Slots(values, sizes, types) == seq(count, _ => Unset);
    hide Buffers, SoleOwners, Wellformed, Slots;
  }
}
