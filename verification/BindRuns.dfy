/** Whole lives of a bind graph: any sequence of sets and executions, then the close. */
module BindRuns {
  import opened Basics
  import opened BindGraph

  datatype Op =
    | Set(index: int, data: Option<seq<Byte>>, kind: int)
    | Execute

  /** The bytes a set offers; a null pointer comes with length zero. */
  function Data(op: Op): seq<Byte>
    requires op.Set?
  {
    if op.kind == BIND_NULL || op.data == None then [] else op.data.value
  }

  /** The slots after one operation that returned `result`. */
  function Applied(slots: seq<Slot>, op: Op, result: int): seq<Slot> {
    if op.Set? && result == OK && 1 <= op.index <= |slots| then
      slots[op.index - 1 := if op.kind == BIND_NULL then Null else Bytes(op.kind, Data(op))]
    else slots
  }

  /** The slots of a graph of `count` slots after operations and their results: a set counts exactly if it succeeded. */
  function Replay(count: nat, ops: seq<Op>, results: seq<int>): (slots: seq<Slot>)
    requires |ops| == |results|
    ensures |slots| == count
  {
    if ops == [] then seq(count, _ => Unset)
    else
      var last := |ops| - 1;
      Applied(Replay(count, ops[..last], results[..last]), ops[last], results[last])
  }

  /** Executions, and sets that failed, do not change what the next execution sends. */
  lemma {:induction false} QuietOpsKeepSlots(count: nat, ops: seq<Op>, results: seq<int>, n: nat)
    requires |ops| == |results| && n <= |ops|
    requires forall i :: n <= i < |ops| ==> ops[i].Execute? || results[i] != OK
    ensures Replay(count, ops, results) == Replay(count, ops[..n], results[..n])
    decreases |ops|
  {
    if n < |ops| {
      var last := |ops| - 1;
      QuietOpsKeepSlots(count, ops[..last], results[..last], n);
      assert ops[..last][..n] == ops[..n] && results[..last][..n] == results[..n];
    } else {
      assert ops[..n] == ops && results[..n] == results;
    }
  }

  /** What the SDK received is the graph's contents at the moments of executions, in order; no successful one is missing. */
  ghost predicate SentInOrder(received: seq<seq<Slot>>, count: nat, ops: seq<Op>, results: seq<int>, moments: seq<nat>)
    requires |ops| == |results|
  {
    && |received| == |moments|
    && (forall j :: 0 <= j < |moments| ==> moments[j] < |ops| && ops[moments[j]].Execute?)
    && (forall j, k :: 0 <= j < k < |moments| ==> moments[j] < moments[k])
    && (forall i :: 0 <= i < |ops| && ops[i].Execute? && results[i] == OK ==> i in moments)
    && (forall j :: 0 <= j < |moments| ==> received[j] == Replay(count, ops[..moments[j]], results[..moments[j]]))
  }

  lemma ReplayGrows(count: nat, ops: seq<Op>, results: seq<int>, op: Op, result: int)
    requires |ops| == |results|
    ensures Replay(count, ops + [op], results + [result]) == Applied(Replay(count, ops, results), op, result)
  {
    assert (ops + [op])[..|ops|] == ops && (results + [result])[..|ops|] == results;
  }

  lemma SentGrows(received: seq<seq<Slot>>, count: nat, ops: seq<Op>, results: seq<int>, moments: seq<nat>, op: Op, result: int)
    requires |ops| == |results| && SentInOrder(received, count, ops, results, moments)
    ensures !(op.Execute? && result == OK) ==> SentInOrder(received, count, ops + [op], results + [result], moments)
    ensures op.Execute? ==>
              SentInOrder(received + [Replay(count, ops, results)], count, ops + [op], results + [result], moments + [|ops|])
  {
    forall n: nat | n <= |ops| ensures (ops + [op])[..n] == ops[..n] && (results + [result])[..n] == results[..n] {
    }
    assert ops[..|ops|] == ops && results[..|ops|] == results;
  }

  /** The log of executions after one more operation. */
  lemma NextMoments(before: seq<seq<Slot>>, received: seq<seq<Slot>>, received': seq<seq<Slot>>, count: nat,
                    ops: seq<Op>, index: nat, results: seq<int>, result: int, moments: seq<nat>)
    returns (moments': seq<nat>)
    requires index < |ops| && |results| == index && before <= received
    requires SentInOrder(received[|before|..], count, ops[..index], results, moments)
    requires || (received' == received && !(ops[index].Execute? && result == OK))
             || (ops[index].Execute? && received' == received + [Replay(count, ops[..index], results)])
    ensures before <= received'
    ensures SentInOrder(received'[|before|..], count, ops[..index + 1], results + [result], moments')
    ensures Replay(count, ops[..index + 1], results + [result]) == Applied(Replay(count, ops[..index], results), ops[index], result)
  {
    hide SentInOrder, Replay, Applied;
    SentGrows(received[|before|..], count, ops[..index], results, moments, ops[index], result);
    ReplayGrows(count, ops[..index], results, ops[index], result);
    assert ops[..index + 1] == ops[..index] + [ops[index]];
    moments' := moments;
    if received' != received {
      assert received'[|before|..] == received[|before|..] + [Replay(count, ops[..index], results)];
      moments' := moments + [index];
    }
  }

  /** One operation. */
  method Run(bind: Bind, sdk: Sdk, op: Op) returns (result: int)
    requires bind.Valid() && (op.Set? ==> IsKind(op.kind))
    modifies bind.heap, bind.values, bind.sizes, bind.types, sdk
    ensures bind.Valid() && bind.Contents() == Applied(old(bind.Contents()), op, result)
    ensures bind.heap.live - bind.Footprint() == old(bind.heap.live - bind.Footprint())
    ensures || (sdk.received == old(sdk.received) && !(op.Execute? && result == OK))
            || (op.Execute? && sdk.received == old(sdk.received) + [old(bind.Contents())])
  {
    match op
    case Execute => result := bind.Execute(sdk);
    case Set(index, _, kind) =>
      var data := Data(op);
      assert data[..|data|] == data;
      result := bind.SetBytes(index, if data == [] then None else Some(data), |data|, kind);
  }

  /**
    A graph of any size through any operations, every allocation of which may fail: nothing leaks, and each
    execution sends what the successful sets before it put there, whatever the SDK did to the arrays it was given.
   */
  method Live(heap: Heap, sdk: Sdk, count: nat, ops: seq<Op>)
    returns (made: bool, results: seq<int>, ghost moments: seq<nat>)
    requires forall i :: 0 <= i < |ops| && ops[i].Set? ==> IsKind(ops[i].kind)
    modifies heap, sdk
    ensures heap.live == old(heap.live)
    ensures !made ==> sdk.received == old(sdk.received)
    ensures made ==>
              && |results| == |ops| && old(sdk.received) <= sdk.received
              && SentInOrder(sdk.received[|old(sdk.received)|..], count, ops, results, moments)
  {
    results, moments := [], [];
    var bind := NewBind(heap, count);
    if bind == null { return false, [], []; }
    made := true;
    ghost var before := sdk.received;
    assert sdk.received[|before|..] == [];
    for index := 0 to |ops|
      invariant |results| == index
      invariant bind.Valid() && bind.count == count && bind.heap == heap
      invariant fresh(bind) && fresh(bind.values) && fresh(bind.sizes) && fresh(bind.types)
      invariant heap.live - bind.Footprint() == old(heap.live)
      invariant bind.Contents() == Replay(count, ops[..index], results)
      invariant before <= sdk.received
      invariant SentInOrder(sdk.received[|before|..], count, ops[..index], results, moments)
    {
      hide Replay, SentInOrder, Wellformed, Slots, Buffers, SoleOwners, Applied;
      ghost var received := sdk.received;
      var result := Run(bind, sdk, ops[index]);
      moments := NextMoments(before, received, sdk.received, count, ops, index, results, result, moments);
      results := results + [result];
    }
    assert ops[..|ops|] == ops;
    bind.Close();
  }
}
