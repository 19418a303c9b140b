/**
 * Tool-call bookkeeping of the chat route: streamed tool-call fragments are merged
 * into per-index slots of a sparse array, and the finished calls are split into the
 * ones the upstream provider executes itself and the ones the route executes.
 */
module ToolCalls {
  import opened Wrappers

  /** One slot of the `toolCalls` array: `{ id, function: { name, arguments } }`. */
  datatype ToolCall = ToolCall(id: string, name: string, arguments: string)

  /**
   * One streamed tool-call delta. A missing or empty `id`, `function.name` or
   * `function.arguments` is "" (the route tests each for truthiness only).
   */
  datatype Fragment = Fragment(index: Option<nat>, id: string, name: string, arguments: string)

  /** `tc.index ?? 0` */
  function SlotIndex(f: Fragment): nat {
    match f.index
    case Some(i) => i
    case None => 0
  }

  /** The sparse array `toolCalls`: the assigned indices and the array's `length`. */
  datatype Slots = Slots(table: map<nat, ToolCall>, length: nat)

  const NoSlots := Slots(map[], 0)

  /** A JavaScript array's length is one past its highest assigned index. */
  predicate ValidSlots(s: Slots) {
    && (forall i :: i in s.table ==> i < s.length)
    && (s.length > 0 ==> s.length - 1 in s.table)
  }

  /** The effect of one fragment on the array. */
  function Merge(s: Slots, f: Fragment): (r: Slots)
    ensures r.table.Keys == s.table.Keys + {SlotIndex(f)}
    ensures forall i :: i in s.table && i != SlotIndex(f) ==> r.table[i] == s.table[i]
    ensures SlotIndex(f) !in s.table ==> r.table[SlotIndex(f)].id == f.id
    ensures ValidSlots(s) ==> ValidSlots(r)
  {
    var idx := SlotIndex(f);
    var created :=
      if idx !in s.table then
        Slots(s.table[idx := ToolCall(f.id, "", "")], if idx + 1 > s.length then idx + 1 else s.length)
      else s;
    var slot := created.table[idx];
    var slot1 := if f.id != "" then slot.(id := f.id) else slot;
    var slot2 := if f.name != "" then slot1.(name := f.name) else slot1;
    var slot3 := if f.arguments != "" then slot2.(arguments := slot2.arguments + f.arguments) else slot2;
    created.(table := created.table[idx := slot3])
  }

  /** The effect of a sequence of fragments, in arrival order. */
  function MergeAll(s: Slots, fs: seq<Fragment>): Slots {
    if fs == [] then s else Merge(MergeAll(s, fs[..|fs| - 1]), fs[|fs| - 1])
  }

  /** The `for (const tc of delta.tool_calls)` loop, updating the slots in place. */
  method AccumulateToolCalls(slots: Slots, fragments: seq<Fragment>) returns (r: Slots)
    ensures r == MergeAll(slots, fragments)
  {
    r := slots;
    for k := 0 to |fragments|
      invariant r == MergeAll(slots, fragments[..k])
    {
      assert fragments[..k + 1][..k] == fragments[..k];
      var tc := fragments[k];
      var idx := match tc.index case Some(i) => i case None => 0;
      ghost var before := r;
      if idx !in r.table {
        r := Slots(r.table[idx := ToolCall(tc.id, "", "")], if idx + 1 > r.length then idx + 1 else r.length);
      }
      var slot := r.table[idx];
      if tc.id != "" {
        slot := slot.(id := tc.id);
      }
      if tc.name != "" {
        slot := slot.(name := tc.name);
      }
      if tc.arguments != "" {
        slot := slot.(arguments := slot.arguments + tc.arguments);
      }
      r := r.(table := r.table[idx := slot]);
      assert r == Merge(before, tc);
    }
    assert fragments[..|fragments|] == fragments;
  }

  /** The fragments addressed to slot `i`, in arrival order. */
  function ForSlot(fs: seq<Fragment>, i: nat): seq<Fragment> {
    if fs == [] then []
    else ForSlot(fs[..|fs| - 1], i) + (if SlotIndex(fs[|fs| - 1]) == i then [fs[|fs| - 1]] else [])
  }

  /** The argument fragments concatenated in arrival order. */
  function JoinArguments(fs: seq<Fragment>): string {
    if fs == [] then "" else JoinArguments(fs[..|fs| - 1]) + fs[|fs| - 1].arguments
  }

  /** The last non-empty id, or "" when there is none. */
  function LastId(fs: seq<Fragment>): string {
    if fs == [] then ""
    else if fs[|fs| - 1].id != "" then fs[|fs| - 1].id
    else LastId(fs[..|fs| - 1])
  }

  /** The last non-empty name, or "" when there is none. */
  function LastName(fs: seq<Fragment>): string {
    if fs == [] then ""
    else if fs[|fs| - 1].name != "" then fs[|fs| - 1].name
    else LastName(fs[..|fs| - 1])
  }

  /**
   * After a stream of fragments, slot `i` exists exactly when some fragment addressed it;
   * its arguments are the in-order concatenation of that slot's argument fragments, and
   * its id and name are the last non-empty ones received for it.
   */
  lemma {:induction false} MergeAllSlot(fs: seq<Fragment>, i: nat)
    ensures i in MergeAll(NoSlots, fs).table <==> ForSlot(fs, i) != []
    ensures i in MergeAll(NoSlots, fs).table ==>
      var g := ForSlot(fs, i);
      MergeAll(NoSlots, fs).table[i] == ToolCall(LastId(g), LastName(g), JoinArguments(g))
  {
    if fs != [] {
      var p, f := fs[..|fs| - 1], fs[|fs| - 1];
      MergeAllSlot(p, i);
      if SlotIndex(f) == i {
        var g := ForSlot(p, i);
        assert ForSlot(fs, i) == g + [f];
        assert (g + [f])[..|g|] == g;
        if g == [] {
          assert i !in MergeAll(NoSlots, p).table;
        }
      } else {
        assert ForSlot(fs, i) == ForSlot(p, i);
      }
    }
  }

  /** Merging a concatenated stream is merging its two parts one after the other. */
  lemma {:induction false} MergeAllAppend(s: Slots, a: seq<Fragment>, b: seq<Fragment>)
    ensures MergeAll(s, a + b) == MergeAll(MergeAll(s, a), b)
    decreases |b|
  {
    if b == [] {
      assert a + b == a;
    } else {
      assert (a + b)[..|a + b| - 1] == a + b[..|b| - 1];
      MergeAllAppend(s, a, b[..|b| - 1]);
    }
  }

  /** Merging from an empty array keeps `length` one past the highest assigned index. */
  lemma {:induction false} MergeAllValid(s: Slots, fs: seq<Fragment>)
    requires ValidSlots(s)
    ensures ValidSlots(MergeAll(s, fs))
  {
    if fs != [] {
      MergeAllValid(s, fs[..|fs| - 1]);
    }
  }

  /** The assigned slots below `n`, in index order. */
  function DenseBelow(t: map<nat, ToolCall>, n: nat): seq<ToolCall> {
    if n == 0 then []
    else DenseBelow(t, n - 1) + (if n - 1 in t then [t[n - 1]] else [])
  }

  /** The slots in the order `filter` and `map` visit them: ascending index, holes skipped. */
  function Dense(s: Slots): seq<ToolCall> {
    DenseBelow(s.table, s.length)
  }

  /** The assigned indices below `n`, ascending: where `DenseBelow` takes its entries from. */
  function IndicesBelow(t: map<nat, ToolCall>, n: nat): seq<nat> {
    if n == 0 then []
    else IndicesBelow(t, n - 1) + (if n - 1 in t then [n - 1] else [])
  }

  /**
   * The `k`-th listed call is the slot at the `k`-th assigned index, the indices ascend,
   * and they are exactly the assigned indices below `n`.
   */
  lemma {:induction false} DenseBelowIndices(t: map<nat, ToolCall>, n: nat)
    ensures var ix := IndicesBelow(t, n);
      && |ix| == |DenseBelow(t, n)|
      && (forall k :: 0 <= k < |ix| ==> ix[k] < n && ix[k] in t && DenseBelow(t, n)[k] == t[ix[k]])
      && (forall j, k :: 0 <= j < k < |ix| ==> ix[j] < ix[k])
      && (forall i :: i in t && i < n ==> i in ix)
  {
    if n > 0 {
      DenseBelowIndices(t, n - 1);
    }
  }

  /** The indices of a list as a set. */
  function Elements(ix: seq<nat>): set<nat> {
    if ix == [] then {} else Elements(ix[..|ix| - 1]) + {ix[|ix| - 1]}
  }

  /** Ascending indices are distinct, so there are as many of them as in their set. */
  lemma {:induction false} AscendingCount(ix: seq<nat>)
    requires forall j, k :: 0 <= j < k < |ix| ==> ix[j] < ix[k]
    ensures forall i :: i in Elements(ix) <==> i in ix
    ensures |Elements(ix)| == |ix|
  {
    if ix != [] {
      var init, last := ix[..|ix| - 1], ix[|ix| - 1];
      AscendingCount(init);
      assert last !in Elements(init) by {
        forall j | 0 <= j < |init| ensures init[j] != last {
          assert init[j] == ix[j];
        }
      }
      assert Elements(ix) == Elements(init) + {last};
      assert |Elements(ix)| == |Elements(init)| + 1;
      forall i ensures i in Elements(ix) <==> i in ix {
        assert ix == init + [last];
        assert i in ix <==> i in init || i == last;
      }
    }
  }

  lemma DenseBelowContents(t: map<nat, ToolCall>, n: nat)
    ensures forall c :: c in DenseBelow(t, n) ==> c in t.Values
    ensures forall i :: i in t && i < n ==> t[i] in DenseBelow(t, n)
  {
    DenseBelowIndices(t, n);
    var ix := IndicesBelow(t, n);
    forall i | i in t && i < n ensures t[i] in DenseBelow(t, n) {
      var k :| 0 <= k < |ix| && ix[k] == i;
      assert DenseBelow(t, n)[k] == t[i];
    }
    forall c | c in DenseBelow(t, n) ensures c in t.Values {
      var k :| 0 <= k < |DenseBelow(t, n)| && DenseBelow(t, n)[k] == c;
      assert t[ix[k]] == c;
    }
  }

  /**
   * The listed calls are exactly the assigned slots, one entry per slot, in ascending
   * index order (the order `filter` and `map` visit a sparse array), and
   * `toolCalls.length > 0` (which counts holes) holds exactly when there is a call to list.
   */
  lemma DenseSlots(s: Slots)
    requires ValidSlots(s)
    ensures forall c :: c in Dense(s) ==> c in s.table.Values
    ensures forall i :: i in s.table ==> s.table[i] in Dense(s)
    ensures |Dense(s)| == |s.table|
    ensures var ix := IndicesBelow(s.table, s.length);
      && |ix| == |Dense(s)|
      && (forall k :: 0 <= k < |ix| ==> ix[k] in s.table && Dense(s)[k] == s.table[ix[k]])
      && (forall j, k :: 0 <= j < k < |ix| ==> ix[j] < ix[k])
    ensures s.length > 0 <==> Dense(s) != []
  {
    DenseBelowContents(s.table, s.length);
    DenseBelowIndices(s.table, s.length);
    DenseCount(s);
    if s.length > 0 {
      assert s.table[s.length - 1] in Dense(s);
    }
  }

  lemma DenseCount(s: Slots)
    requires ValidSlots(s)
    ensures |Dense(s)| == |s.table|
  {
    DenseBelowIndices(s.table, s.length);
    var ix := IndicesBelow(s.table, s.length);
    AscendingCount(ix);
    assert Elements(ix) == s.table.Keys;
  }

  /** The names the provider executes itself. */
  const ServerToolNames: seq<string> := ["web_search", "x_search", "code_execution"]

  predicate IsServerTool(c: ToolCall) {
    c.name in ServerToolNames
  }

  /** `toolCalls.filter(tc => serverToolNames.includes(tc.function.name))` */
  function ServerCalls(cs: seq<ToolCall>): seq<ToolCall> {
    if cs == [] then []
    else (if IsServerTool(cs[0]) then [cs[0]] else []) + ServerCalls(cs[1..])
  }

  /** `toolCalls.filter(tc => !serverToolNames.includes(tc.function.name))` */
  function ClientCalls(cs: seq<ToolCall>): seq<ToolCall> {
    if cs == [] then []
    else (if IsServerTool(cs[0]) then [] else [cs[0]]) + ClientCalls(cs[1..])
  }

  /** Every call lands in exactly one of the two lists, as often as it occurs. */
  lemma {:induction false} PartitionCalls(cs: seq<ToolCall>)
    ensures multiset(ServerCalls(cs)) + multiset(ClientCalls(cs)) == multiset(cs)
    ensures |ServerCalls(cs)| + |ClientCalls(cs)| == |cs|
  {
    if cs != [] {
      PartitionCalls(cs[1..]);
      assert cs == [cs[0]] + cs[1..];
    }
  }

  /** The server list holds only calls to server tools, the client list only the others. */
  lemma {:induction false} PartitionSides(cs: seq<ToolCall>)
    ensures forall c :: c in ServerCalls(cs) ==> c in cs && IsServerTool(c)
    ensures forall c :: c in ClientCalls(cs) ==> c in cs && !IsServerTool(c)
  {
    if cs != [] {
      PartitionSides(cs[1..]);
      assert cs == [cs[0]] + cs[1..];
    }
  }

  /** The server list keeps the original relative order: filtering distributes over concatenation. */
  lemma {:induction false} ServerCallsAppend(a: seq<ToolCall>, b: seq<ToolCall>)
    ensures ServerCalls(a + b) == ServerCalls(a) + ServerCalls(b)
  {
    if a == [] {
      assert a + b == b;
    } else {
      assert (a + b)[1..] == a[1..] + b;
      assert (a + b)[0] == a[0];
      ServerCallsAppend(a[1..], b);
    }
  }

  /** The client list keeps the original relative order: filtering distributes over concatenation. */
  lemma {:induction false} ClientCallsAppend(a: seq<ToolCall>, b: seq<ToolCall>)
    ensures ClientCalls(a + b) == ClientCalls(a) + ClientCalls(b)
  {
    if a == [] {
      assert a + b == b;
    } else {
      assert (a + b)[1..] == a[1..] + b;
      assert (a + b)[0] == a[0];
      ClientCallsAppend(a[1..], b);
    }
  }
}
