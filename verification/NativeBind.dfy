/** `csdk.Bind`: the Go owner of a C bind graph. */
module NativeBind {
  import opened Basics
  import opened Errors
  import opened IntegerText
  import opened BindGraph
  import opened Parameters

  /** `csdk.Error` without a message, as `publicError` passes it on. */
  function CodeError(result: int): Option<Error> {
    if result == OK then None
    else if result == ERR_INVALID then Some(InvalidArgument)
    else Some(Sdk(result, Classify(result, NO_PHRASES)))
  }

  /** The slot an accepted value fills; `Unset` for a value no setter accepts. */
  function SlotFor(v: Value): Slot {
    var n := CInt(Length(v));
    match v
    case NullValue => Null
    case IntValue(i) => Bytes(BIND_INT64, Ascii(Decimal(i)))
    case DoubleValue(finite, text) => if finite then Bytes(BIND_DOUBLE, text) else Unset
    case TextValue(text) => if 0 <= n <= |text| then Bytes(BIND_TEXT, text[..n]) else Unset
    case BlobValue(bytes) => if 0 < n <= |bytes| then Bytes(BIND_BLOB, bytes[..n]) else Unset
    case _ => Unset
  }

  /** A filled slot means to the server what the argument says, up to its length as C sees it. */
  lemma SlotMeansArgument(v: Value)
    requires SlotFor(v) != Unset
    ensures Meaning(SlotFor(v)) == Truncated(v) != Garbage && !EmptyBlob(v) && !v.ZeroBlobValue?
  {
    if v.IntValue? { IntSlotMeans(v.n); }
  }

  /** The first `n` slots hold the first `n` arguments. */
  ghost predicate Filled(slots: seq<Slot>, args: seq<Value>, n: int) {
    && 0 <= n <= |slots| && n <= |args|
    && forall i :: 0 <= i < n ==> slots[i] == SlotFor(args[i]) != Unset
  }

  lemma NoneFilled(slots: seq<Slot>, args: seq<Value>)
    ensures Filled(slots, args, 0)
  {
  }

  lemma FilledNext(slots: seq<Slot>, args: seq<Value>, n: int)
    requires Filled(slots, args, n) && n < |slots| && n < |args| && SlotFor(args[n]) != Unset
    ensures Filled(slots[n := SlotFor(args[n])], args, n + 1)
  {
    hide SlotFor;
  }

  lemma SlotsMeanArguments(slots: seq<Slot>, args: seq<Value>)
    requires |slots| == |args| && Filled(slots, args, |args|)
    ensures MeanAll(slots) == TruncateAll(args)
  {
    forall i | 0 <= i < |args| ensures Meaning(slots[i]) == Truncated(args[i]) {
      SlotMeansArgument(args[i]);
    }
  }

  class GoBind {
    const heap: Heap
    var ptr: Bind?

    constructor (heap: Heap, ptr: Bind?)
      ensures this.heap == heap && this.ptr == ptr
    {
      this.heap, this.ptr := heap, ptr;
    }

    ghost predicate Valid()
      reads this, heap, ptr, if ptr == null then {} else Parts(ptr)
    {
      ptr != null ==> ptr.heap == heap && ptr.Valid()
    }

    /** The arrays of a graph. */
    static ghost function Parts(bind: Bind): set<object>
      reads bind
    {
      var values: set<object> := if bind.values == null then {} else {bind.values};
      values + (if bind.sizes == null then {} else {bind.sizes}) + (if bind.types == null then {} else {bind.types})
    }

    /** `Close`, also of a closed graph. */
    method Close()
      requires Valid()
      modifies this, heap
      ensures Valid() && ptr == null
      ensures heap.live == if old(ptr) == null then old(heap.live) else old(heap.live) - old(ptr.Footprint())
    {
      if ptr == null {
        return;
      }
      var bind := ptr;
      ptr := null;
      bind.Close();
    }

    /** The setter `setOneShot` picks for a value. A failure leaves every slot as it was. */
    method Set(index: int, value: Value) returns (err: Option<Error>)
      requires Valid()
      modifies heap, if ptr == null then {} else Parts(ptr)
      ensures Valid()
      ensures ptr == null ==> err.Some? && heap.live == old(heap.live)
      ensures ptr != null ==> heap.live - ptr.Footprint() == old(heap.live - ptr.Footprint())
      ensures ptr != null && err.Some? ==> ptr.Contents() == old(ptr.Contents())
      ensures err == None ==>
                && 0 < CInt(index) <= ptr.count && SlotFor(value) != Unset
                && ptr.Contents() == old(ptr.Contents())[CInt(index) - 1 := SlotFor(value)]
      ensures ptr != null && 0 < CInt(index) <= ptr.count && value.IntValue? ==> err != Some(InvalidArgument)
      ensures err == Some(Unsupported) ==> EmptyBlob(value) || value.ZeroBlobValue?
      ensures ptr != null ==> Attempted(err)
    {
      hide Buffers, SoleOwners, Wellformed, Slots, Decimal, Ascii;
      if || value.OtherValue?
         || (value.DoubleValue? && !value.finite)
         || (index <= 0 && (value.TextValue? || value.BlobValue? || value.ZeroBlobValue?))
         || (value.ZeroBlobValue? && value.size < 0) {
        return Some(InvalidArgument);
      }
      if ptr == null {
        return Some(Closed);
      }
      if EmptyBlob(value) || value.ZeroBlobValue? {
        return Some(Unsupported);
      }
      var result: int;
      match value {
        case NullValue => result := ptr.SetBytes(CInt(index), None, 0, BIND_NULL);
        case IntValue(n) => result := ptr.SetInt64(CInt(index), n);
        case DoubleValue(_, text) => result := ptr.SetDouble(CInt(index), text);
        case TextValue(text) =>
          result := ptr.SetBytes(CInt(index), if text == [] then None else Some(text), CInt(|text|), BIND_TEXT);
        case BlobValue(bytes) => result := ptr.SetBlob(CInt(index), Some(bytes), CInt(|bytes|));
      }
      return CodeError(result);
    }
  }

  /** `NewBind`. */
  method NewGoBind(heap: Heap, count: int) returns (bind: GoBind?, err: Option<Error>)
    modifies heap
    ensures err.Some? <==> bind == null
    ensures err.Some? ==> heap.live == old(heap.live) && !err.value.Unsupported?
    ensures Attempted(err)
    ensures bind != null ==>
              && fresh(bind) && bind.heap == heap && bind.ptr != null && fresh(bind.ptr)
              && fresh(GoBind.Parts(bind.ptr)) && bind.Valid()
              && fresh(bind.ptr.Footprint()) && heap.live == old(heap.live) + bind.ptr.Footprint()
              && bind.ptr.count == CInt(count) && bind.ptr.Contents() == seq(CInt(count), _ => Unset)
  {
    if count <= 0 {
      return null, Some(InvalidArgument);
    }
    var ptr := NewBind(heap, CInt(count));
    if ptr == null {
      return null, CodeError(ERR_MEMORY);
    }
    bind := new GoBind(heap, ptr);
    return bind, None;
  }
}
