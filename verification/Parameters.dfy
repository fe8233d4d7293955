/** What statement arguments mean, and what reaches the server for them on each binding path. */
module Parameters {
  import opened Basics
  import opened IntegerText
  import opened BindGraph

  type Int64 = n: int | IsInt64(n)

  /** An argument of Exec or Query. Finite doubles are identified with the text "%.17g" prints for them. */
  datatype Value =
    | NullValue
    | IntValue(n: Int64)
    | DoubleValue(finite: bool, text: seq<Byte>)
    | TextValue(text: seq<Byte>)
    | BlobValue(bytes: seq<Byte>)
    | ZeroBlobValue(size: int)
    | OtherValue                      // any Go type the package does not bind

  /** A parameter as the server sees it. */
  datatype Param =
    | NullParam
    | IntParam(n: int)
    | DoubleParam(text: seq<Byte>)
    | TextParam(text: seq<Byte>)
    | BlobParam(bytes: seq<Byte>)
    | Garbage

  /** Go's conversion of an int to a C int keeps the low 32 bits. */
  function CInt(n: int): (c: int)
    ensures -0x8000_0000 <= c < 0x8000_0000
    ensures c == n <==> -0x8000_0000 <= n < 0x8000_0000
    ensures 0 <= n ==> c <= n
  {
    (n + 0x8000_0000) % 0x1_0000_0000 - 0x8000_0000
  }

  function Zeros(n: nat): seq<Byte> { seq(n, _ => 0) }

  predicate EmptyBlob(v: Value) { v.BlobValue? && v.bytes == [] }

  /** The meaning the documentation gives an argument: an empty byte slice is a zero-length BLOB. */
  function Denote(v: Value): Param {
    match v
    case NullValue => NullParam
    case IntValue(n) => IntParam(n)
    case DoubleValue(finite, text) => if finite then DoubleParam(text) else Garbage
    case TextValue(text) => TextParam(text)
    case BlobValue(bytes) => BlobParam(bytes)
    case ZeroBlobValue(size) => if size < 0 then Garbage else BlobParam(Zeros(size))
    case OtherValue => Garbage
  }

  /** The length an argument hands to C. */
  function Length(v: Value): int {
    match v
    case TextValue(text) => |text|
    case BlobValue(bytes) => |bytes|
    case ZeroBlobValue(size) => size
    case _ => 0
  }

  /** An argument whose length a C int holds. */
  predicate Fits(v: Value) { Length(v) < 0x8000_0000 }

  /** What is bound for an accepted argument, given the length that C sees. */
  function Truncated(v: Value): Param {
    var n := CInt(Length(v));
    match v
    case TextValue(text) => if 0 <= n <= |text| then TextParam(text[..n]) else Garbage
    case BlobValue(bytes) => if 0 <= n <= |bytes| then BlobParam(bytes[..n]) else Garbage
    case ZeroBlobValue(size) => if n < 0 || size < 0 then Garbage else BlobParam(Zeros(n))
    case _ => Denote(v)
  }

  /** An argument reaches the server with its meaning exactly when its length fits a C int. */
  lemma TruncatedIsDenoted(v: Value)
    ensures Truncated(v) == Denote(v) <==> Fits(v)
  {
    match v
    case TextValue(text) => assert text[..|text|] == text;
    case BlobValue(bytes) => assert bytes[..|bytes|] == bytes;
    case ZeroBlobValue(size) =>
      if size >= 0 && CInt(size) >= 0 && Truncated(v) == Denote(v) { assert |Zeros(size)| == size && |Zeros(CInt(size))| == CInt(size); }
    case _ =>
  }

  /** A zeroblob of 2^32 bytes is bound as an empty one. */
  lemma HugeZeroBlobIsEmpty()
    ensures Truncated(ZeroBlobValue(0x1_0000_0000)) == BlobParam([]) != Denote(ZeroBlobValue(0x1_0000_0000))
  {
    assert |Zeros(0x1_0000_0000)| == 0x1_0000_0000;
  }

  /** What a slot of the one-shot graph means to the server. */
  function Meaning(s: Slot): Param {
    match s
    case Unset => Garbage
    case Null => NullParam
    case Bytes(kind, data) =>
      if kind == BIND_INT64 then (match ParseInt64(FromAscii(data)) case Some(n) => IntParam(n) case None => Garbage)
      else if kind == BIND_DOUBLE then DoubleParam(data)
      else if kind == BIND_TEXT then TextParam(data)
      else if kind == BIND_BLOB then BlobParam(data)
      else Garbage
  }

  /** An int64 survives being printed into its slot and read back. */
  lemma IntSlotMeans(n: Int64)
    ensures Meaning(Bytes(BIND_INT64, Ascii(Decimal(n)))) == IntParam(n)
  {
    TextSurvives(n);
    PrintParse(n);
  }

  /** Parameters by their one-based index. */
  function Numbered(params: seq<Param>): (m: map<int, Param>)
    ensures forall i :: i in m <==> 1 <= i <= |params|
    ensures forall i :: 0 <= i < |params| ==> m[i + 1] == params[i]
  {
    if params == [] then map[]
    else Numbered(params[..|params| - 1])[|params| := params[|params| - 1]]
  }

  function DenoteAll(args: seq<Value>): seq<Param> { seq(|args|, i requires 0 <= i < |args| => Denote(args[i])) }

  function TruncateAll(args: seq<Value>): seq<Param> { seq(|args|, i requires 0 <= i < |args| => Truncated(args[i])) }

  /** One more argument in its place. */
  lemma NumberedNext(args: seq<Value>, index: nat)
    requires index < |args|
    ensures Numbered(TruncateAll(args[..index + 1])) == Numbered(TruncateAll(args[..index]))[index + 1 := Truncated(args[index])]
    ensures args[..0] == [] && Numbered(TruncateAll([])) == map[]
  {
    var params := TruncateAll(args[..index + 1]);
    assert params[..index] == TruncateAll(args[..index]);
  }

  function MeanAll(slots: seq<Slot>): seq<Param> { seq(|slots|, i requires 0 <= i < |slots| => Meaning(slots[i])) }

  /** A whole argument list keeps its meaning exactly when every length fits. */
  lemma ListIsDenoted(args: seq<Value>)
    ensures TruncateAll(args) == DenoteAll(args) <==> forall i :: 0 <= i < |args| ==> Fits(args[i])
  {
    forall i | 0 <= i < |args| ensures TruncateAll(args)[i] == DenoteAll(args)[i] <==> Fits(args[i]) {
      TruncatedIsDenoted(args[i]);
    }
    if TruncateAll(args) == DenoteAll(args) {
      forall i | 0 <= i < |args| ensures Fits(args[i]) {
        assert TruncateAll(args)[i] == DenoteAll(args)[i];
      }
    }
  }
}
