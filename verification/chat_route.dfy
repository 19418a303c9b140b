/**
 * The chat route's event relay and agentic loop. One round sends the history upstream,
 * reads the streamed reply line by line, relays content and server-tool output to the
 * browser, and accumulates streamed tool calls; a round that ends with tool calls records
 * them and their results in the history and asks again, for at most five rounds.
 *
 * The network is left out: the upstream reply to a history is the parameter `upstream`,
 * and `JSON.parse` is the parameters `parse` (an event payload) and `parseArgs` (a tool's
 * arguments), `None` standing for a parse that throws.
 */
module ChatRoute {
  import opened Wrappers
  import opened SseLines
  import opened ToolCalls
  import opened ClientTools

  /** One entry of `delta.tool_outputs`; a missing `content` is "". */
  datatype ToolOutput = ToolOutput(toolCallId: Option<string>, content: string)

  /**
   * `parsed.choices[0].delta`: a missing `content` is "", missing `tool_calls` are [],
   * and `tool_outputs` is kept optional because an empty list still replaces the old one.
   */
  datatype Delta = Delta(content: string, toolCalls: seq<Fragment>, toolOutputs: Option<seq<ToolOutput>>)

  /** The `result` of a `tool_result` event. */
  datatype Report =
    | ServerExecuted(summary: string)
    | ClientExecuted(result: ToolResult, clientAction: Option<ClientAction>)

  /** The frames written to the browser, each one `data: ...` event. */
  datatype Event =
    | ContentEvent(content: string)
    | ServerToolOutput(content: string)
    | ToolCallsStart(tools: seq<string>)
    | ToolExecuting(name: string, args: Args)
    | ToolResultEvent(name: string, result: Report)
    | DoneEvent                        // data: [DONE]
    | ErrorEvent                       // { type: "error", message: "Connection failed" }

  predicate Terminal(e: Event) {
    e.DoneEvent? || e.ErrorEvent?
  }

  predicate NoTerminal(es: seq<Event>) {
    forall k :: 0 <= k < |es| ==> !Terminal(es[k])
  }

  /** The `content` of a `role: "tool"` message. */
  datatype ToolContent = OutputText(text: string) | ResultJson(result: ToolResult)

  /** The conversation history sent upstream. */
  datatype Message =
    | SystemMessage(content: string)
    | InputMessage(role: string, content: string)
    | AssistantMessage(text: Option<string>, toolCalls: seq<ToolCall>)
    | ToolMessage(toolCallId: string, reply: ToolContent)

  /** The locals of one round: `fullContent`, `toolCalls`, `toolOutputs`, and the frames written. */
  datatype RoundState = RoundState(content: string, slots: Slots, outputs: seq<ToolOutput>, events: seq<Event>)

  const EmptyRound := RoundState("", NoSlots, [], [])

  const DataPrefix := "data: "
  const DonePayload := "[DONE]"

  predicate IsDataLine(line: string) {
    |line| >= |DataPrefix| && line[..|DataPrefix|] == DataPrefix
  }

  // ---------------------------------------------------------------- one event

  /** The `tool_outputs` that carry content, relayed as `server_tool_output` frames. */
  function OutputEvents(outs: seq<ToolOutput>): seq<Event> {
    if outs == [] then []
    else
      var o := outs[|outs| - 1];
      OutputEvents(outs[..|outs| - 1]) + (if o.content != "" then [ServerToolOutput(o.content)] else [])
  }

  /** The outputs with content, in their order. */
  function WithContent(outs: seq<ToolOutput>): seq<ToolOutput> {
    if outs == [] then []
    else
      var o := outs[|outs| - 1];
      WithContent(outs[..|outs| - 1]) + (if o.content != "" then [o] else [])
  }

  /** Exactly the outputs with content are relayed, in order, each as a frame carrying its content. */
  lemma {:induction false} OutputEventsKind(outs: seq<ToolOutput>)
    ensures |OutputEvents(outs)| == |WithContent(outs)|
    ensures forall k :: 0 <= k < |OutputEvents(outs)| ==>
      OutputEvents(outs)[k] == ServerToolOutput(WithContent(outs)[k].content)
  {
    if outs != [] {
      OutputEventsKind(outs[..|outs| - 1]);
    }
  }

  /** The outputs with content are those of the list whose content is not empty, and no others. */
  lemma {:induction false} WithContentSpec(outs: seq<ToolOutput>)
    ensures |WithContent(outs)| <= |outs|
    ensures forall k :: 0 <= k < |WithContent(outs)| ==> WithContent(outs)[k] in outs && WithContent(outs)[k].content != ""
    ensures forall o :: o in outs && o.content != "" ==> o in WithContent(outs)
  {
    if outs != [] {
      var init := outs[..|outs| - 1];
      WithContentSpec(init);
      assert outs == init + [outs[|outs| - 1]];
    }
  }

  /** Keeping the outputs with content keeps their order: it distributes over concatenation. */
  lemma {:induction false} WithContentAppend(a: seq<ToolOutput>, b: seq<ToolOutput>)
    ensures WithContent(a + b) == WithContent(a) + WithContent(b)
    decreases |b|
  {
    if b == [] {
      assert a + b == a;
    } else {
      assert (a + b)[..|a + b| - 1] == a + b[..|b| - 1];
      WithContentAppend(a, b[..|b| - 1]);
    }
  }

  /** The text of the `content` frames, joined in order: the answer as the browser shows it. */
  function RelayedText(es: seq<Event>): string {
    if es == [] then ""
    else RelayedText(es[..|es| - 1]) + (if es[|es| - 1].ContentEvent? then es[|es| - 1].content else "")
  }

  lemma {:induction false} RelayedTextAppend(a: seq<Event>, b: seq<Event>)
    ensures RelayedText(a + b) == RelayedText(a) + RelayedText(b)
    decreases |b|
  {
    if b == [] {
      assert a + b == a;
    } else {
      assert (a + b)[..|a + b| - 1] == a + b[..|b| - 1];
      RelayedTextAppend(a, b[..|b| - 1]);
    }
  }

  /** The text of the `server_tool_output` frames, in order: the tool output the browser is shown. */
  function RelayedOutputs(es: seq<Event>): seq<string> {
    if es == [] then []
    else RelayedOutputs(es[..|es| - 1]) + (if es[|es| - 1].ServerToolOutput? then [es[|es| - 1].content] else [])
  }

  lemma {:induction false} RelayedOutputsAppend(a: seq<Event>, b: seq<Event>)
    ensures RelayedOutputs(a + b) == RelayedOutputs(a) + RelayedOutputs(b)
    decreases |b|
  {
    if b == [] {
      assert a + b == a;
    } else {
      assert (a + b)[..|a + b| - 1] == a + b[..|b| - 1];
      RelayedOutputsAppend(a, b[..|b| - 1]);
    }
  }

  /** The contents of a list of tool outputs, in order. */
  function Texts(outs: seq<ToolOutput>): seq<string> {
    if outs == [] then [] else Texts(outs[..|outs| - 1]) + [outs[|outs| - 1].content]
  }

  lemma {:induction false} TextsAppend(a: seq<ToolOutput>, b: seq<ToolOutput>)
    ensures Texts(a + b) == Texts(a) + Texts(b)
    decreases |b|
  {
    if b == [] {
      assert a + b == a;
    } else {
      assert (a + b)[..|a + b| - 1] == a + b[..|b| - 1];
      TextsAppend(a, b[..|b| - 1]);
    }
  }

  /** The frames relayed for a `tool_outputs` list carry the contents of its outputs with content, in order. */
  lemma {:induction false} OutputEventsRelayed(outs: seq<ToolOutput>)
    ensures RelayedOutputs(OutputEvents(outs)) == Texts(WithContent(outs))
  {
    if outs != [] {
      var init, o := outs[..|outs| - 1], outs[|outs| - 1];
      OutputEventsRelayed(init);
      var e := if o.content != "" then [ServerToolOutput(o.content)] else [];
      var w := if o.content != "" then [o] else [];
      RelayedOutputsAppend(OutputEvents(init), e);
      TextsAppend(WithContent(init), w);
      assert RelayedOutputs(e) == Texts(w);
    }
  }

  /** Frames without `content` frames add no text. */
  lemma {:induction false} RelayedTextNone(es: seq<Event>)
    requires forall k :: 0 <= k < |es| ==> !es[k].ContentEvent?
    ensures RelayedText(es) == ""
  {
    if es != [] {
      RelayedTextNone(es[..|es| - 1]);
    }
  }

  /** The effect of one parsed delta on the round. */
  function HandleDelta(st: RoundState, d: Delta): RoundState {
    var st1 :=
      if d.content != "" then st.(content := st.content + d.content, events := st.events + [ContentEvent(d.content)])
      else st;
    var st2 := st1.(slots := MergeAll(st1.slots, d.toolCalls));
    match d.toolOutputs
    case None => st2
    case Some(outs) => st2.(outputs := outs, events := st2.events + OutputEvents(outs))
  }

  /** The delta a line stands for, if the route acts on it at all. */
  function Payload(line: string, parse: string -> Option<Delta>): Option<Delta> {
    if IsDataLine(line) && line[|DataPrefix|..] != DonePayload then parse(line[|DataPrefix|..]) else None
  }

  /**
   * One complete line. Only a `data: ` line whose payload is not `[DONE]` and parses can
   * change anything; every other line leaves the round exactly as it was.
   */
  function HandleLine(st: RoundState, line: string, parse: string -> Option<Delta>): (r: RoundState)
    ensures !IsDataLine(line) ==> r == st
    ensures IsDataLine(line) && line[|DataPrefix|..] == DonePayload ==> r == st
    ensures IsDataLine(line) && parse(line[|DataPrefix|..]).None? ==> r == st
    ensures r != st ==> IsDataLine(line) && line[|DataPrefix|..] != DonePayload && parse(line[|DataPrefix|..]).Some?
  {
    match Payload(line, parse)
    case None => st
    case Some(d) => HandleDelta(st, d)
  }

  /** The lines of a round, in order. */
  function RelayLines(st: RoundState, lines: seq<string>, parse: string -> Option<Delta>): RoundState {
    if lines == [] then st
    else HandleLine(RelayLines(st, lines[..|lines| - 1], parse), lines[|lines| - 1], parse)
  }

  /** A whole upstream reply: every complete line of the concatenated chunks, in order. */
  function StreamRound(chunks: seq<string>, parse: string -> Option<Delta>): RoundState {
    RelayLines(EmptyRound, SplitBuffer(Concat(chunks)).0, parse)
  }

  /** The body of the `try` for one parsed delta, with its two inner loops. */
  method ApplyDelta(st: RoundState, d: Delta) returns (r: RoundState)
    ensures r == HandleDelta(st, d)
  {
    r := st;
    if d.content != "" {
      r := r.(content := r.content + d.content, events := r.events + [ContentEvent(d.content)]);
    }
    var slots := AccumulateToolCalls(r.slots, d.toolCalls);
    r := r.(slots := slots);
    if d.toolOutputs.Some? {
      var outs := d.toolOutputs.value;
      r := r.(outputs := outs);
      ghost var base := r;
      for k := 0 to |outs|
        invariant r == base.(events := r.events)
        invariant r.events == base.events + OutputEvents(outs[..k])
      {
        assert outs[..k + 1][..k] == outs[..k];
        ghost var sent := OutputEvents(outs[..k]);
        if outs[k].content != "" {
          r := r.(events := r.events + [ServerToolOutput(outs[k].content)]);
          assert OutputEvents(outs[..k + 1]) == sent + [ServerToolOutput(outs[k].content)];
        } else {
          assert OutputEvents(outs[..k + 1]) == sent;
        }
      }
      assert outs[..|outs|] == outs;
    }
  }

  /** `for (const line of lines)`: the complete lines of one chunk, in order. */
  method HandleLines(st0: RoundState, lines: seq<string>, parse: string -> Option<Delta>) returns (st: RoundState)
    ensures st == RelayLines(st0, lines, parse)
  {
    st := st0;
    for j := 0 to |lines|
      invariant st == RelayLines(st0, lines[..j], parse)
    {
      assert lines[..j + 1][..j] == lines[..j];
      var line := lines[j];
      if IsDataLine(line) {
        var data := line[|DataPrefix|..];
        if data != DonePayload {
          var parsed := parse(data);
          if parsed.Some? {
            st := ApplyDelta(st, parsed.value);
          }
        }
      }
    }
    assert lines[..|lines|] == lines;
  }

  /**
   * The read loop of one round: each chunk is appended to the buffer, the complete lines
   * are handled and the partial line is carried over. The result is that of handling all
   * complete lines of the whole reply at once, and the final buffer is its unfinished tail
   * (which the route never handles).
   */
  method ReadStream(chunks: seq<string>, parse: string -> Option<Delta>) returns (st: RoundState, buffer: string)
    ensures st == StreamRound(chunks, parse)
    ensures buffer == SplitBuffer(Concat(chunks)).1
    ensures Unlines(SplitBuffer(Concat(chunks)).0) + buffer == Concat(chunks)
  {
    st, buffer := EmptyRound, "";
    ghost var handled: seq<string> := [];
    var k := 0;
    assert Split("") == [""];
    while k < |chunks|
      invariant 0 <= k <= |chunks|
      invariant SplitBuffer(Concat(chunks[..k])) == (handled, buffer)
      invariant st == RelayLines(EmptyRound, handled, parse)
    {
      assert chunks[..k + 1][..k] == chunks[..k];
      ChunkBoundary(Concat(chunks[..k]), chunks[k]);
      var (lines, rest) := SplitBuffer(buffer + chunks[k]);
      buffer := rest;
      st := HandleLines(st, lines, parse);
      RelayLinesAppend(EmptyRound, handled, lines, parse);
      handled := handled + lines;
      k := k + 1;
    }
    assert chunks[..|chunks|] == chunks;
  }

  lemma {:induction false} RelayLinesAppend(st: RoundState, a: seq<string>, b: seq<string>, parse: string -> Option<Delta>)
    ensures RelayLines(st, a + b, parse) == RelayLines(RelayLines(st, a, parse), b, parse)
    decreases |b|
  {
    if b == [] {
      assert a + b == a;
    } else {
      assert (a + b)[..|a + b| - 1] == a + b[..|b| - 1];
      RelayLinesAppend(st, a, b[..|b| - 1], parse);
    }
  }

  // ---------------------------------------------------------------- facts about a round

  /** The deltas a round acts on, in order. */
  function Deltas(lines: seq<string>, parse: string -> Option<Delta>): seq<Delta> {
    if lines == [] then []
    else
      Deltas(lines[..|lines| - 1], parse)
      + match Payload(lines[|lines| - 1], parse) case None => [] case Some(d) => [d]
  }

  function ApplyDeltas(st: RoundState, ds: seq<Delta>): RoundState {
    if ds == [] then st else HandleDelta(ApplyDeltas(st, ds[..|ds| - 1]), ds[|ds| - 1])
  }

  /** `fullContent`: the content deltas joined in order. */
  function JoinContent(ds: seq<Delta>): string {
    if ds == [] then "" else JoinContent(ds[..|ds| - 1]) + ds[|ds| - 1].content
  }

  /** All tool-call fragments of the deltas, in arrival order. */
  function AllFragments(ds: seq<Delta>): seq<Fragment> {
    if ds == [] then [] else AllFragments(ds[..|ds| - 1]) + ds[|ds| - 1].toolCalls
  }

  /** Every `tool_outputs` list of the deltas, joined in arrival order. */
  function AllOutputs(ds: seq<Delta>): seq<ToolOutput> {
    if ds == [] then [] else AllOutputs(ds[..|ds| - 1]) + OutputsOf(ds[|ds| - 1])
  }

  /** The `tool_outputs` list a delta carries, empty when it carries none. */
  function OutputsOf(d: Delta): seq<ToolOutput> {
    if d.toolOutputs.Some? then d.toolOutputs.value else []
  }

  lemma OutputsJoin(before: seq<string>, a: seq<ToolOutput>, b: seq<ToolOutput>)
    ensures before + Texts(WithContent(a)) + Texts(WithContent(b)) == before + Texts(WithContent(a + b))
  {
    WithContentAppend(a, b);
    TextsAppend(WithContent(a), WithContent(b));
  }

  /** `toolOutputs` after the deltas, starting from `init`: each list received replaces the one before. */
  function LastOutputs(init: seq<ToolOutput>, ds: seq<Delta>): seq<ToolOutput> {
    if ds == [] then init
    else match ds[|ds| - 1].toolOutputs
      case Some(outs) => outs
      case None => LastOutputs(init, ds[..|ds| - 1])
  }

  /** The list left is the latest one any delta carried, or `init` when none carried one. */
  lemma {:induction false} LastOutputsLatest(init: seq<ToolOutput>, ds: seq<Delta>)
    ensures (forall k :: 0 <= k < |ds| ==> ds[k].toolOutputs.None?) ==> LastOutputs(init, ds) == init
    ensures forall k :: 0 <= k < |ds| && ds[k].toolOutputs.Some? && (forall j :: k < j < |ds| ==> ds[j].toolOutputs.None?) ==>
      LastOutputs(init, ds) == ds[k].toolOutputs.value
  {
    if ds != [] {
      var init' := ds[..|ds| - 1];
      LastOutputsLatest(init, init');
      if ds[|ds| - 1].toolOutputs.None? {
        forall k | 0 <= k < |ds| - 1 && ds[k].toolOutputs.Some? && (forall j :: k < j < |ds| ==> ds[j].toolOutputs.None?)
          ensures LastOutputs(init, ds) == ds[k].toolOutputs.value
        {
          assert ds[k] == init'[k];
          forall j | k < j < |init'| ensures init'[j].toolOutputs.None? {
            assert init'[j] == ds[j];
          }
        }
        if forall k :: 0 <= k < |ds| ==> ds[k].toolOutputs.None? {
          forall k | 0 <= k < |init'| ensures init'[k].toolOutputs.None? {
            assert init'[k] == ds[k];
          }
        }
      }
    }
  }

  /** Handling lines is handling the deltas they carry; every other line is skipped. */
  lemma {:induction false} RelayLinesDeltas(st: RoundState, lines: seq<string>, parse: string -> Option<Delta>)
    ensures RelayLines(st, lines, parse) == ApplyDeltas(st, Deltas(lines, parse))
  {
    if lines != [] {
      var init := lines[..|lines| - 1];
      RelayLinesDeltas(st, init, parse);
      var ds := Deltas(init, parse);
      match Payload(lines[|lines| - 1], parse)
      case None =>
        assert Deltas(lines, parse) == ds;
      case Some(d) =>
        assert Deltas(lines, parse) == ds + [d];
        assert (ds + [d])[..|ds|] == ds;
    }
  }

  /**
   * Over a round's deltas, `fullContent` grows by their content in order, the slots are
   * those fragments merged in order, and no frame written is `[DONE]` or an error.
   */
  lemma {:induction false} ApplyDeltasSummary(st: RoundState, ds: seq<Delta>)
    ensures ApplyDeltas(st, ds).content == st.content + JoinContent(ds)
    ensures ApplyDeltas(st, ds).slots == MergeAll(st.slots, AllFragments(ds))
    ensures NoTerminal(st.events) ==> NoTerminal(ApplyDeltas(st, ds).events)
    ensures RelayedText(ApplyDeltas(st, ds).events) == RelayedText(st.events) + JoinContent(ds)
  {
    ApplyDeltasText(st, ds);
    ApplyDeltasRelayed(st, ds);
    ApplyDeltasSlots(st, ds);
  }

  lemma {:induction false} ApplyDeltasText(st: RoundState, ds: seq<Delta>)
    ensures ApplyDeltas(st, ds).content == st.content + JoinContent(ds)
  {
    if ds != [] {
      var init, d := ds[..|ds| - 1], ds[|ds| - 1];
      ApplyDeltasText(st, init);
      HandleDeltaKeeps(ApplyDeltas(st, init), d);
    }
  }

  lemma {:induction false} ApplyDeltasRelayed(st: RoundState, ds: seq<Delta>)
    ensures RelayedText(ApplyDeltas(st, ds).events) == RelayedText(st.events) + JoinContent(ds)
  {
    if ds != [] {
      var init, d := ds[..|ds| - 1], ds[|ds| - 1];
      ApplyDeltasRelayed(st, init);
      HandleDeltaKeeps(ApplyDeltas(st, init), d);
    }
  }

  lemma {:induction false} ApplyDeltasSlots(st: RoundState, ds: seq<Delta>)
    ensures ApplyDeltas(st, ds).slots == MergeAll(st.slots, AllFragments(ds))
    ensures NoTerminal(st.events) ==> NoTerminal(ApplyDeltas(st, ds).events)
  {
    if ds != [] {
      var init, d := ds[..|ds| - 1], ds[|ds| - 1];
      ApplyDeltasSlots(st, init);
      MergeAllAppend(st.slots, AllFragments(init), d.toolCalls);
      HandleDeltaKeeps(ApplyDeltas(st, init), d);
    }
  }

  /**
   * Over a round's deltas, `toolOutputs` is the last list received, and the
   * `server_tool_output` frames carry the outputs with content of every list, in order.
   */
  lemma {:induction false} ApplyDeltasOutputs(st: RoundState, ds: seq<Delta>)
    ensures ApplyDeltas(st, ds).outputs == LastOutputs(st.outputs, ds)
    ensures RelayedOutputs(ApplyDeltas(st, ds).events) == RelayedOutputs(st.events) + Texts(WithContent(AllOutputs(ds)))
  {
    if ds != [] {
      var init, d := ds[..|ds| - 1], ds[|ds| - 1];
      ApplyDeltasOutputs(st, init);
      var a := ApplyDeltas(st, init);
      HandleDeltaFrames(a, d);
      OutputsJoin(RelayedOutputs(st.events), AllOutputs(init), OutputsOf(d));
    }
  }

  /**
   * One delta adds its content to `fullContent`, merges its fragments into the slots,
   * adds exactly its content to the text relayed, and writes no `[DONE]` or error frame.
   */
  lemma HandleDeltaKeeps(st: RoundState, d: Delta)
    ensures HandleDelta(st, d).content == st.content + d.content
    ensures HandleDelta(st, d).slots == MergeAll(st.slots, d.toolCalls)
    ensures NoTerminal(st.events) ==> NoTerminal(HandleDelta(st, d).events)
    ensures RelayedText(HandleDelta(st, d).events) == RelayedText(st.events) + d.content
  {
    var added := if d.content != "" then [ContentEvent(d.content)] else [];
    var es := st.events + added;
    var outs := OutputEvents(OutputsOf(d));
    assert HandleDelta(st, d).events == es + outs;
    OutputFrames(OutputsOf(d));
    HandleDeltaText(st.events, added, outs, d.content);
    if NoTerminal(st.events) {
      DeltaFramesClean(st.events, added, outs, d.content);
    }
  }

  /**
   * One delta replaces `toolOutputs` when it carries a list. It writes a `content` frame
   * only for non-empty content, then one `server_tool_output` frame for each output of its
   * list with content, in order.
   */
  lemma HandleDeltaFrames(st: RoundState, d: Delta)
    ensures HandleDelta(st, d).outputs == if d.toolOutputs.Some? then d.toolOutputs.value else st.outputs
    ensures HandleDelta(st, d).events
         == st.events + (if d.content != "" then [ContentEvent(d.content)] else [])
            + (if d.toolOutputs.Some? then OutputEvents(d.toolOutputs.value) else [])
    ensures RelayedOutputs(HandleDelta(st, d).events) == RelayedOutputs(st.events) + Texts(WithContent(OutputsOf(d)))
  {
    var added := if d.content != "" then [ContentEvent(d.content)] else [];
    if d.toolOutputs.Some? {
      HandleDeltaRelayed(st.events, added, d.content, d.toolOutputs.value);
    } else {
      HandleDeltaRelayed(st.events, added, d.content, []);
      assert st.events + added + OutputEvents([]) == st.events + added;
    }
  }

  /** A delta adds at most a text frame and `server_tool_output` frames, none of them terminal. */
  lemma DeltaFramesClean(events: seq<Event>, added: seq<Event>, outs: seq<Event>, text: string)
    requires added == if text != "" then [ContentEvent(text)] else []
    requires forall k :: 0 <= k < |outs| ==> outs[k].ServerToolOutput?
    requires NoTerminal(events)
    ensures NoTerminal(events + added + outs)
  {
    NoTerminalAppend(events, added);
    NoTerminalAppend(events + added, outs);
  }

  lemma HandleDeltaRelayed(events: seq<Event>, added: seq<Event>, text: string, outs: seq<ToolOutput>)
    requires added == if text != "" then [ContentEvent(text)] else []
    ensures RelayedOutputs(events + added + OutputEvents(outs)) == RelayedOutputs(events) + Texts(WithContent(outs))
  {
    RelayedOutputsAppend(events + added, OutputEvents(outs));
    RelayedOutputsAppend(events, added);
    if text != "" {
      assert added[..0] == [];
    }
    assert RelayedOutputs(added) == [];
    OutputEventsRelayed(outs);
  }

  /** The frames relayed for a delta's tool outputs are all `server_tool_output` frames. */
  lemma OutputFrames(outs: seq<ToolOutput>)
    ensures forall k :: 0 <= k < |OutputEvents(outs)| ==> OutputEvents(outs)[k].ServerToolOutput?
  {
    OutputEventsKind(outs);
  }


  lemma HandleDeltaText(events: seq<Event>, added: seq<Event>, outs: seq<Event>, text: string)
    requires added == if text != "" then [ContentEvent(text)] else []
    requires forall k :: 0 <= k < |outs| ==> outs[k].ServerToolOutput?
    ensures RelayedText(events + added + outs) == RelayedText(events) + text
  {
    RelayedTextNone(outs);
    RelayedTextAppend(events + added, outs);
    RelayedTextAppend(events, added);
    assert RelayedText(added) == text;
  }

  /**
   * The slot table a reply leaves: slot `i` exists exactly when some fragment of the
   * reply addressed it, and holds the last non-empty id and name and the in-order
   * concatenation of the argument fragments received for it.
   */
  lemma StreamSlots(chunks: seq<string>, parse: string -> Option<Delta>, i: nat)
    ensures var fs := AllFragments(Deltas(SplitBuffer(Concat(chunks)).0, parse));
      var slots := StreamRound(chunks, parse).slots;
      && ValidSlots(slots)
      && (i in slots.table <==> ForSlot(fs, i) != [])
      && (i in slots.table ==>
            slots.table[i] == ToolCall(LastId(ForSlot(fs, i)), LastName(ForSlot(fs, i)), JoinArguments(ForSlot(fs, i))))
  {
    var lines := SplitBuffer(Concat(chunks)).0;
    var ds := Deltas(lines, parse);
    RelayLinesDeltas(EmptyRound, lines, parse);
    ApplyDeltasSummary(EmptyRound, ds);
    MergeAllSlot(AllFragments(ds), i);
    MergeAllValid(NoSlots, AllFragments(ds));
  }

  /**
   * After a reply, `toolOutputs` is the last list any of its deltas carried (or empty), and
   * the `server_tool_output` frames relayed carry the outputs with content of all its lists,
   * in order.
   */
  lemma StreamOutputs(chunks: seq<string>, parse: string -> Option<Delta>)
    ensures StreamRound(chunks, parse).outputs == LastOutputs([], Deltas(SplitBuffer(Concat(chunks)).0, parse))
    ensures RelayedOutputs(StreamRound(chunks, parse).events)
         == Texts(WithContent(AllOutputs(Deltas(SplitBuffer(Concat(chunks)).0, parse))))
  {
    var lines := SplitBuffer(Concat(chunks)).0;
    var ds := Deltas(lines, parse);
    RelayLinesDeltas(EmptyRound, lines, parse);
    ApplyDeltasOutputs(EmptyRound, ds);
    var all := Texts(WithContent(AllOutputs(ds)));
    assert RelayedOutputs(EmptyRound.events) == [];
    assert [] + all == all;
  }

  /**
   * A reply's `fullContent` is its content deltas in order; the `content` frames relayed to
   * the browser carry exactly that text; and it writes no terminal frame.
   */
  lemma StreamContent(chunks: seq<string>, parse: string -> Option<Delta>)
    ensures StreamRound(chunks, parse).content == JoinContent(Deltas(SplitBuffer(Concat(chunks)).0, parse))
    ensures RelayedText(StreamRound(chunks, parse).events) == StreamRound(chunks, parse).content
    ensures NoTerminal(StreamRound(chunks, parse).events)
  {
    var lines := SplitBuffer(Concat(chunks)).0;
    RelayLinesDeltas(EmptyRound, lines, parse);
    ApplyDeltasSummary(EmptyRound, Deltas(lines, parse));
  }

  // ---------------------------------------------------------------- dispatching a round's tool calls

  /** Where dispatch stands: still going, or stopped by an exception (a tool's arguments failed to parse). */
  datatype Progress = Going(messages: seq<Message>, events: seq<Event>) | Thrown(events: seq<Event>)

  const DefaultSummary := "Search completed"
  const SummaryLimit := 200

  /** `toolOutputs.find(o => o.tool_call_id === id)` */
  function FindOutput(outs: seq<ToolOutput>, id: string): Option<ToolOutput> {
    if outs == [] then None
    else if outs[0].toolCallId == Some(id) then Some(outs[0])
    else FindOutput(outs[1..], id)
  }

  /** The output found is the first one naming the call; there is none only if no output names it. */
  lemma {:induction false} FindOutputFirst(outs: seq<ToolOutput>, id: string)
    ensures var r := FindOutput(outs, id);
      && (r.Some? ==> exists k :: 0 <= k < |outs| && outs[k] == r.value && r.value.toolCallId == Some(id)
                                  && forall j :: 0 <= j < k ==> outs[j].toolCallId != Some(id))
      && (r.None? ==> forall j :: 0 <= j < |outs| ==> outs[j].toolCallId != Some(id))
  {
    if outs != [] && outs[0].toolCallId != Some(id) {
      FindOutputFirst(outs[1..], id);
      var r := FindOutput(outs, id);
      if r.Some? {
        var k :| 0 <= k < |outs[1..]| && outs[1..][k] == r.value && r.value.toolCallId == Some(id)
                 && forall j :: 0 <= j < k ==> outs[1..][j].toolCallId != Some(id);
        assert outs[k + 1] == r.value;
        forall j | 0 <= j < k + 1 ensures outs[j].toolCallId != Some(id) {
          if j > 0 { assert outs[j] == outs[1..][j - 1]; }
        }
      } else {
        forall j | 0 <= j < |outs| ensures outs[j].toolCallId != Some(id) {
          if j > 0 { assert outs[j] == outs[1..][j - 1]; }
        }
      }
    }
  }

  /**
   * `output?.content || "Search completed"`: never empty; the content of the output found
   * for the call when it has any, the default otherwise.
   */
  function ResultContent(c: ToolCall, outs: seq<ToolOutput>): (text: string)
    ensures text != ""
    ensures text == DefaultSummary || (FindOutput(outs, c.id).Some? && FindOutput(outs, c.id).value.content == text)
    ensures FindOutput(outs, c.id).Some? && FindOutput(outs, c.id).value.content != "" ==>
      text == FindOutput(outs, c.id).value.content
    ensures FindOutput(outs, c.id).None? ==> text == DefaultSummary
  {
    match FindOutput(outs, c.id)
    case Some(o) => if o.content != "" then o.content else DefaultSummary
    case None => DefaultSummary
  }

  /** `text.substring(0, 200)` */
  function Summary(text: string): (r: string)
    ensures |r| <= SummaryLimit
    ensures r <= text
    ensures |text| <= SummaryLimit ==> r == text
    ensures |text| > SummaryLimit ==> |r| == SummaryLimit
  {
    if |text| <= SummaryLimit then text else text[..SummaryLimit]
  }

  /** `toolCall.function.arguments || "{}"` */
  function ArgsText(arguments: string): string {
    if arguments == "" then "{}" else arguments
  }

  /** `toolCalls.map(tc => tc.function.name)` */
  function Names(cs: seq<ToolCall>): seq<string> {
    if cs == [] then [] else [cs[0].name] + Names(cs[1..])
  }

  /** `JSON.parse(toolCall.function.arguments || "{}")`, `None` when it throws. */
  function ArgsOf(c: ToolCall, parseArgs: string -> Option<Args>): Option<Args> {
    parseArgs(ArgsText(c.arguments))
  }

  /** One server-side call: already executed upstream, so only reported and answered. */
  function ServeCall(p: Progress, c: ToolCall, outs: seq<ToolOutput>, parseArgs: string -> Option<Args>): Progress {
    match p
    case Thrown(_) => p
    case Going(ms, es) =>
      match ArgsOf(c, parseArgs)
      case None => Thrown(es)
      case Some(a) =>
        var text := ResultContent(c, outs);
        Going(ms + [ToolMessage(c.id, OutputText(text))],
              es + [ToolExecuting(c.name, a), ToolResultEvent(c.name, ServerExecuted(Summary(text)))])
  }

  function ServeAll(p: Progress, cs: seq<ToolCall>, outs: seq<ToolOutput>, parseArgs: string -> Option<Args>): Progress
    decreases |cs|
  {
    if cs == [] then p else ServeAll(ServeCall(p, cs[0], outs, parseArgs), cs[1..], outs, parseArgs)
  }

  /**
   * One client-side call: announced, executed here, reported, and answered with its
   * result. A `null` argument list makes `scroll_to` throw after the announcement.
   */
  function ExecuteCall(p: Progress, c: ToolCall, parseArgs: string -> Option<Args>): Progress {
    match p
    case Thrown(_) => p
    case Going(ms, es) =>
      match ArgsOf(c, parseArgs)
      case None => Thrown(es)
      case Some(a) =>
        var announced := es + [ToolExecuting(c.name, a)];
        match ExecuteClientTool(c.name, a)
        case None => Thrown(announced)
        case Some(e) =>
          Going(ms + [ToolMessage(c.id, ResultJson(e.result))],
                announced + [ToolResultEvent(c.name, ClientExecuted(e.result, e.clientAction))])
  }

  function ExecuteAll(p: Progress, cs: seq<ToolCall>, parseArgs: string -> Option<Args>): Progress
    decreases |cs|
  {
    if cs == [] then p else ExecuteAll(ExecuteCall(p, cs[0], parseArgs), cs[1..], parseArgs)
  }

  /** `fullContent || null` */
  function AssistantText(content: string): Option<string> {
    if content == "" then None else Some(content)
  }

  /** The tool-call branch of a round: announce, record, then answer server calls and client calls. */
  function DispatchRound(messages: seq<Message>, events: seq<Event>, st: RoundState, parseArgs: string -> Option<Args>): Progress {
    var calls := Dense(st.slots);
    var start := Going(messages + [AssistantMessage(AssistantText(st.content), calls)],
                       events + [ToolCallsStart(Names(calls))]);
    ExecuteAll(ServeAll(start, ServerCalls(calls), st.outputs, parseArgs), ClientCalls(calls), parseArgs)
  }

  lemma {:induction false} ServeAllThrown(es: seq<Event>, cs: seq<ToolCall>, outs: seq<ToolOutput>, parseArgs: string -> Option<Args>)
    ensures ServeAll(Thrown(es), cs, outs, parseArgs) == Thrown(es)
  {
    if cs != [] {
      ServeAllThrown(es, cs[1..], outs, parseArgs);
    }
  }

  lemma {:induction false} ExecuteAllThrown(es: seq<Event>, cs: seq<ToolCall>, parseArgs: string -> Option<Args>)
    ensures ExecuteAll(Thrown(es), cs, parseArgs) == Thrown(es)
  {
    if cs != [] {
      ExecuteAllThrown(es, cs[1..], parseArgs);
    }
  }

  /** The `if (toolCalls.length > 0)` branch, with its two loops over the split calls. */
  method Dispatch(messages: seq<Message>, events: seq<Event>, st: RoundState, parseArgs: string -> Option<Args>)
    returns (p: Progress)
    ensures p == DispatchRound(messages, events, st, parseArgs)
  {
    var calls := Dense(st.slots);
    var clientToolCalls := ClientCalls(calls);
    var serverToolCalls := ServerCalls(calls);
    var ms := messages + [AssistantMessage(AssistantText(st.content), calls)];
    var es := events + [ToolCallsStart(Names(calls))];
    ghost var start := Going(ms, es);
    for i := 0 to |serverToolCalls|
      invariant ServeAll(Going(ms, es), serverToolCalls[i..], st.outputs, parseArgs)
             == ServeAll(start, serverToolCalls, st.outputs, parseArgs)
    {
      var toolCall := serverToolCalls[i];
      assert serverToolCalls[i..][1..] == serverToolCalls[i + 1..];
      var args := parseArgs(ArgsText(toolCall.arguments));
      if args.None? {
        p := Thrown(es);
        ServeAllThrown(es, serverToolCalls[i + 1..], st.outputs, parseArgs);
        ExecuteAllThrown(es, clientToolCalls, parseArgs);
        return;
      }
      var resultContent := ResultContent(toolCall, st.outputs);
      es := es + [ToolExecuting(toolCall.name, args.value),
                  ToolResultEvent(toolCall.name, ServerExecuted(Summary(resultContent)))];
      ms := ms + [ToolMessage(toolCall.id, OutputText(resultContent))];
    }
    ghost var served := Going(ms, es);
    for i := 0 to |clientToolCalls|
      invariant ExecuteAll(Going(ms, es), clientToolCalls[i..], parseArgs)
             == ExecuteAll(served, clientToolCalls, parseArgs)
    {
      var toolCall := clientToolCalls[i];
      assert clientToolCalls[i..][1..] == clientToolCalls[i + 1..];
      var toolArgs := parseArgs(ArgsText(toolCall.arguments));
      if toolArgs.None? {
        p := Thrown(es);
        ExecuteAllThrown(es, clientToolCalls[i + 1..], parseArgs);
        return;
      }
      es := es + [ToolExecuting(toolCall.name, toolArgs.value)];
      var execution := ExecuteClientTool(toolCall.name, toolArgs.value);
      if execution.None? {
        p := Thrown(es);
        ExecuteAllThrown(es, clientToolCalls[i + 1..], parseArgs);
        return;
      }
      var toolResult, clientAction := execution.value.result, execution.value.clientAction;
      es := es + [ToolResultEvent(toolCall.name, ClientExecuted(toolResult, clientAction))];
      ms := ms + [ToolMessage(toolCall.id, ResultJson(toolResult))];
    }
    p := Going(ms, es);
  }

  // ---------------------------------------------------------------- facts about dispatch

  /** A client call runs to completion: its arguments parse and `executeClientTool` does not throw. */
  predicate Runs(c: ToolCall, parseArgs: string -> Option<Args>) {
    ArgsOf(c, parseArgs).Some? && ExecuteClientTool(c.name, ArgsOf(c, parseArgs).value).Some?
  }

  predicate AllParse(cs: seq<ToolCall>, parseArgs: string -> Option<Args>) {
    forall k :: 0 <= k < |cs| ==> ArgsOf(cs[k], parseArgs).Some?
  }

  predicate AllRun(cs: seq<ToolCall>, parseArgs: string -> Option<Args>) {
    forall k :: 0 <= k < |cs| ==> Runs(cs[k], parseArgs)
  }

  /** `replies` answer the server calls one to one, in order: the call's id and its result content. */
  predicate Served(replies: seq<Message>, cs: seq<ToolCall>, outs: seq<ToolOutput>) {
    && |replies| == |cs|
    && forall k :: 0 <= k < |cs| ==> replies[k] == ToolMessage(cs[k].id, OutputText(ResultContent(cs[k], outs)))
  }

  /** `replies` answer the client calls one to one, in order: the call's id and the tool's result. */
  predicate Executed(replies: seq<Message>, cs: seq<ToolCall>, parseArgs: string -> Option<Args>) {
    && |replies| == |cs|
    && forall k :: 0 <= k < |cs| ==>
         && Runs(cs[k], parseArgs)
         && replies[k] == ToolMessage(cs[k].id, ResultJson(ExecuteClientTool(cs[k].name, ArgsOf(cs[k], parseArgs).value).value.result))
  }

  /**
   * `frames` report the server calls one to one, in order: for each call, `tool_executing`
   * with its parsed arguments, then `tool_result` with the first 200 characters of its
   * result content.
   */
  predicate ServerReports(frames: seq<Event>, cs: seq<ToolCall>, outs: seq<ToolOutput>, parseArgs: string -> Option<Args>)
    decreases |cs|
  {
    if cs == [] then frames == []
    else
      && |frames| >= 2
      && ArgsOf(cs[0], parseArgs).Some?
      && frames[0] == ToolExecuting(cs[0].name, ArgsOf(cs[0], parseArgs).value)
      && frames[1] == ToolResultEvent(cs[0].name, ServerExecuted(Summary(ResultContent(cs[0], outs))))
      && ServerReports(frames[2..], cs[1..], outs, parseArgs)
  }

  /**
   * `frames` report the client calls one to one, in order: for each call, `tool_executing`
   * with its parsed arguments, then `tool_result` with `executeClientTool`'s result and the
   * client action.
   */
  predicate ClientReports(frames: seq<Event>, cs: seq<ToolCall>, parseArgs: string -> Option<Args>)
    decreases |cs|
  {
    if cs == [] then frames == []
    else
      && |frames| >= 2
      && Runs(cs[0], parseArgs)
      && frames[0] == ToolExecuting(cs[0].name, ArgsOf(cs[0], parseArgs).value)
      && frames[1] == ToolResultEvent(cs[0].name,
           ClientExecuted(ExecuteClientTool(cs[0].name, ArgsOf(cs[0], parseArgs).value).value.result,
                          ExecuteClientTool(cs[0].name, ArgsOf(cs[0], parseArgs).value).value.clientAction))
      && ClientReports(frames[2..], cs[1..], parseArgs)
  }

  /**
   * When the server loop gets through, the frames it adds are, for each call in order,
   * `tool_executing` with its arguments and `tool_result` with its summary.
   */
  lemma {:induction false} ServeAllReports(ms: seq<Message>, es: seq<Event>, cs: seq<ToolCall>, outs: seq<ToolOutput>,
                                           parseArgs: string -> Option<Args>)
    ensures var p := ServeAll(Going(ms, es), cs, outs, parseArgs);
      && es <= p.events
      && (p.Going? ==> |p.events| == |es| + 2 * |cs| && ServerReports(p.events[|es|..], cs, outs, parseArgs))
    decreases |cs|
  {
    var p := ServeAll(Going(ms, es), cs, outs, parseArgs);
    if cs == [] {
      assert p.events[|es|..] == [];
    } else {
      var p1 := ServeCall(Going(ms, es), cs[0], outs, parseArgs);
      if p1.Thrown? {
        ServeAllThrown(p1.events, cs[1..], outs, parseArgs);
      } else {
        ServeAllReports(p1.messages, p1.events, cs[1..], outs, parseArgs);
        if p.Going? {
          var a, b := p1.events[|es|], p1.events[|es| + 1];
          var rest := p.events[|p1.events|..];
          assert p1.events == es + [a, b];
          assert p.events[|es|..] == [a, b] + rest;
          assert p.events[|es|..][2..] == rest;
        }
      }
    }
  }

  /**
   * When the client loop gets through, the frames it adds are, for each call in order,
   * `tool_executing` with its arguments and `tool_result` with the tool's result and the
   * client action that asks the page to scroll.
   */
  lemma {:induction false} ExecuteAllReports(ms: seq<Message>, es: seq<Event>, cs: seq<ToolCall>,
                                             parseArgs: string -> Option<Args>)
    ensures var p := ExecuteAll(Going(ms, es), cs, parseArgs);
      && es <= p.events
      && (p.Going? ==> |p.events| == |es| + 2 * |cs| && ClientReports(p.events[|es|..], cs, parseArgs))
    decreases |cs|
  {
    var p := ExecuteAll(Going(ms, es), cs, parseArgs);
    if cs == [] {
      assert p.events[|es|..] == [];
    } else {
      var p1 := ExecuteCall(Going(ms, es), cs[0], parseArgs);
      if p1.Thrown? {
        ExecuteAllThrown(p1.events, cs[1..], parseArgs);
      } else {
        ExecuteAllReports(p1.messages, p1.events, cs[1..], parseArgs);
        if p.Going? {
          var a, b := p1.events[|es|], p1.events[|es| + 1];
          var rest := p.events[|p1.events|..];
          assert p1.events == es + [a, b];
          assert p.events[|es|..] == [a, b] + rest;
          assert p.events[|es|..][2..] == rest;
        }
      }
    }
  }

  /** The position of the first server call whose arguments fail to parse, or `|cs|`. */
  function FirstUnparsed(cs: seq<ToolCall>, parseArgs: string -> Option<Args>): (j: nat)
    ensures j <= |cs|
    ensures j < |cs| ==> ArgsOf(cs[j], parseArgs).None?
    ensures forall i :: 0 <= i < j ==> ArgsOf(cs[i], parseArgs).Some?
    decreases |cs|
  {
    if cs == [] || ArgsOf(cs[0], parseArgs).None? then 0
    else
      var j := 1 + FirstUnparsed(cs[1..], parseArgs);
      assert forall i :: 1 <= i < j ==> cs[i] == cs[1..][i - 1];
      j
  }

  /** The position of the first client call that does not run to completion, or `|cs|`. */
  function FirstUnrun(cs: seq<ToolCall>, parseArgs: string -> Option<Args>): (j: nat)
    ensures j <= |cs|
    ensures j < |cs| ==> !Runs(cs[j], parseArgs)
    ensures forall i :: 0 <= i < j ==> Runs(cs[i], parseArgs)
    decreases |cs|
  {
    if cs == [] || !Runs(cs[0], parseArgs) then 0
    else
      var j := 1 + FirstUnrun(cs[1..], parseArgs);
      assert forall i :: 1 <= i < j ==> cs[i] == cs[1..][i - 1];
      j
  }

  lemma {:induction false} ServeAllSplit(p: Progress, a: seq<ToolCall>, b: seq<ToolCall>, outs: seq<ToolOutput>,
                                         parseArgs: string -> Option<Args>)
    ensures ServeAll(p, a + b, outs, parseArgs) == ServeAll(ServeAll(p, a, outs, parseArgs), b, outs, parseArgs)
    decreases |a|
  {
    if a == [] {
      assert a + b == b;
    } else {
      assert (a + b)[0] == a[0] && (a + b)[1..] == a[1..] + b;
      ServeAllSplit(ServeCall(p, a[0], outs, parseArgs), a[1..], b, outs, parseArgs);
    }
  }

  lemma {:induction false} ExecuteAllSplit(p: Progress, a: seq<ToolCall>, b: seq<ToolCall>, parseArgs: string -> Option<Args>)
    ensures ExecuteAll(p, a + b, parseArgs) == ExecuteAll(ExecuteAll(p, a, parseArgs), b, parseArgs)
    decreases |a|
  {
    if a == [] {
      assert a + b == b;
    } else {
      assert (a + b)[0] == a[0] && (a + b)[1..] == a[1..] + b;
      ExecuteAllSplit(ExecuteCall(p, a[0], parseArgs), a[1..], b, parseArgs);
    }
  }

  /** A client call that does not run throws, after its `tool_executing` frame when its arguments parsed. */
  lemma ExecuteCallThrows(q: Progress, c: ToolCall, parseArgs: string -> Option<Args>)
    requires q.Going? && !Runs(c, parseArgs)
    ensures ExecuteCall(q, c, parseArgs)
         == Thrown(q.events + if ArgsOf(c, parseArgs).Some? then [ToolExecuting(c.name, ArgsOf(c, parseArgs).value)] else [])
  {
  }

  /**
   * When the server loop throws, it does so at the first call whose arguments fail to
   * parse, before writing anything for it: the frames are the reports of the calls before
   * it, in order, and nothing else.
   */
  lemma ServeAllStopped(ms: seq<Message>, es: seq<Event>, cs: seq<ToolCall>, outs: seq<ToolOutput>,
                        parseArgs: string -> Option<Args>)
    ensures var p := ServeAll(Going(ms, es), cs, outs, parseArgs);
      var j := FirstUnparsed(cs, parseArgs);
      p.Thrown? ==>
        && j < |cs|
        && |p.events| == |es| + 2 * j
        && p.events[..|es|] == es
        && ServerReports(p.events[|es|..], cs[..j], outs, parseArgs)
  {
    var j := FirstUnparsed(cs, parseArgs);
    ServeAllGoes(ms, es, cs, outs, parseArgs);
    if j < |cs| {
      var before, after := cs[..j], cs[j..];
      assert cs == before + after;
      ServeAllSplit(Going(ms, es), before, after, outs, parseArgs);
      ServeAllGoes(ms, es, before, outs, parseArgs);
      ServeAllReports(ms, es, before, outs, parseArgs);
      var q := ServeAll(Going(ms, es), before, outs, parseArgs);
      assert after[0] == cs[j];
      var q1 := ServeCall(q, after[0], outs, parseArgs);
      assert q1 == Thrown(q.events);
      ServeAllThrown(q.events, after[1..], outs, parseArgs);
    }
  }

  /**
   * When the client loop throws, it does so at the first call that does not run: the
   * frames are the reports of the calls before it, in order, then, when that call's
   * arguments parsed (and `executeClientTool` threw), its `tool_executing` frame.
   */
  lemma ExecuteAllStopped(ms: seq<Message>, es: seq<Event>, cs: seq<ToolCall>, parseArgs: string -> Option<Args>)
    ensures var p := ExecuteAll(Going(ms, es), cs, parseArgs);
      var j := FirstUnrun(cs, parseArgs);
      p.Thrown? ==>
        && j < |cs|
        && |es| + 2 * j <= |p.events|
        && p.events[..|es|] == es
        && ClientReports(p.events[|es|..|es| + 2 * j], cs[..j], parseArgs)
        && p.events[|es| + 2 * j..]
           == if ArgsOf(cs[j], parseArgs).Some? then [ToolExecuting(cs[j].name, ArgsOf(cs[j], parseArgs).value)] else []
  {
    var j := FirstUnrun(cs, parseArgs);
    ExecuteAllGoes(ms, es, cs, parseArgs);
    if j < |cs| {
      var before, after := cs[..j], cs[j..];
      assert cs == before + after;
      ExecuteAllSplit(Going(ms, es), before, after, parseArgs);
      ExecuteAllGoes(ms, es, before, parseArgs);
      ExecuteAllReports(ms, es, before, parseArgs);
      var q := ExecuteAll(Going(ms, es), before, parseArgs);
      assert after[0] == cs[j];
      ExecuteCallThrows(q, cs[j], parseArgs);
      var q1 := ExecuteCall(q, after[0], parseArgs);
      ExecuteAllThrown(q1.events, after[1..], parseArgs);
      assert q1.events[|es|..|es| + 2 * j] == q.events[|es|..];
    }
  }

  lemma ServedCons(m: Message, rest: seq<Message>, c: ToolCall, cs: seq<ToolCall>, outs: seq<ToolOutput>)
    requires m == ToolMessage(c.id, OutputText(ResultContent(c, outs))) && Served(rest, cs, outs)
    ensures Served([m] + rest, [c] + cs, outs)
  {
    forall k | 1 <= k < |cs| + 1
      ensures ([m] + rest)[k] == ToolMessage(([c] + cs)[k].id, OutputText(ResultContent(([c] + cs)[k], outs)))
    {
      assert ([m] + rest)[k] == rest[k - 1] && ([c] + cs)[k] == cs[k - 1];
    }
  }

  lemma ExecutedCons(m: Message, rest: seq<Message>, c: ToolCall, cs: seq<ToolCall>, parseArgs: string -> Option<Args>)
    requires Runs(c, parseArgs)
    requires m == ToolMessage(c.id, ResultJson(ExecuteClientTool(c.name, ArgsOf(c, parseArgs).value).value.result))
    requires Executed(rest, cs, parseArgs)
    ensures Executed([m] + rest, [c] + cs, parseArgs)
  {
    forall k | 1 <= k < |cs| + 1
      ensures Runs(([c] + cs)[k], parseArgs)
      ensures ([m] + rest)[k] == ToolMessage(([c] + cs)[k].id,
                ResultJson(ExecuteClientTool(([c] + cs)[k].name, ArgsOf(([c] + cs)[k], parseArgs).value).value.result))
    {
      assert ([m] + rest)[k] == rest[k - 1] && ([c] + cs)[k] == cs[k - 1];
    }
  }

  lemma AllParseCons(c: ToolCall, cs: seq<ToolCall>, parseArgs: string -> Option<Args>)
    ensures AllParse([c] + cs, parseArgs) <==> ArgsOf(c, parseArgs).Some? && AllParse(cs, parseArgs)
  {
    if ArgsOf(c, parseArgs).Some? && AllParse(cs, parseArgs) {
      forall k | 1 <= k < |cs| + 1 ensures ArgsOf(([c] + cs)[k], parseArgs).Some? {
        assert ([c] + cs)[k] == cs[k - 1];
      }
    }
    if AllParse([c] + cs, parseArgs) {
      assert ([c] + cs)[0] == c;
      forall k | 0 <= k < |cs| ensures ArgsOf(cs[k], parseArgs).Some? {
        assert ([c] + cs)[k + 1] == cs[k];
      }
    }
  }

  lemma AllRunCons(c: ToolCall, cs: seq<ToolCall>, parseArgs: string -> Option<Args>)
    ensures AllRun([c] + cs, parseArgs) <==> Runs(c, parseArgs) && AllRun(cs, parseArgs)
  {
    if Runs(c, parseArgs) && AllRun(cs, parseArgs) {
      forall k | 1 <= k < |cs| + 1 ensures Runs(([c] + cs)[k], parseArgs) {
        assert ([c] + cs)[k] == cs[k - 1];
      }
    }
    if AllRun([c] + cs, parseArgs) {
      assert ([c] + cs)[0] == c;
      forall k | 0 <= k < |cs| ensures Runs(cs[k], parseArgs) {
        assert ([c] + cs)[k + 1] == cs[k];
      }
    }
  }

  /** The outcome half of `ServeAllAnswers`: frames only grow, and the loop gets through exactly when every call does. */
  lemma {:induction false} ServeAllGoes(ms: seq<Message>, es: seq<Event>, cs: seq<ToolCall>, outs: seq<ToolOutput>, parseArgs: string -> Option<Args>)
    ensures var p := ServeAll(Going(ms, es), cs, outs, parseArgs);
      && es <= p.events
      && (p.Going? <==> AllParse(cs, parseArgs))
    decreases |cs|
  {
    if cs != [] {
      assert cs == [cs[0]] + cs[1..];
      AllParseCons(cs[0], cs[1..], parseArgs);
      var p1 := ServeCall(Going(ms, es), cs[0], outs, parseArgs);
      if p1.Thrown? {
        ServeAllThrown(p1.events, cs[1..], outs, parseArgs);
      } else {
        ServeAllGoes(p1.messages, p1.events, cs[1..], outs, parseArgs);
      }
    }
  }

  /** The history half of `ServeAllAnswers`. */
  lemma {:induction false} ServeAllHistory(ms: seq<Message>, es: seq<Event>, cs: seq<ToolCall>, outs: seq<ToolOutput>, parseArgs: string -> Option<Args>)
    ensures var p := ServeAll(Going(ms, es), cs, outs, parseArgs);
      && es <= p.events
      && (p.Going? <==> AllParse(cs, parseArgs))
      && (p.Going? ==> |ms| <= |p.messages| && p.messages[..|ms|] == ms && Served(p.messages[|ms|..], cs, outs))
  {
    ServeAllGoes(ms, es, cs, outs, parseArgs);
    ServeAllMessages(ms, es, cs, outs, parseArgs);
  }

  lemma {:induction false} ServeAllMessages(ms: seq<Message>, es: seq<Event>, cs: seq<ToolCall>, outs: seq<ToolOutput>, parseArgs: string -> Option<Args>)
    ensures var p := ServeAll(Going(ms, es), cs, outs, parseArgs);
      p.Going? ==> |ms| <= |p.messages| && p.messages[..|ms|] == ms && Served(p.messages[|ms|..], cs, outs)
    decreases |cs|
  {
    var p := ServeAll(Going(ms, es), cs, outs, parseArgs);
    if cs == [] {
      assert p.messages[|ms|..] == [];
    } else {
      assert cs == [cs[0]] + cs[1..];
      var p1 := ServeCall(Going(ms, es), cs[0], outs, parseArgs);
      if p1.Thrown? {
        ServeAllThrown(p1.events, cs[1..], outs, parseArgs);
      } else {
        ServeAllMessages(p1.messages, p1.events, cs[1..], outs, parseArgs);
        if p.Going? {
          var tail := p.messages[|p1.messages|..];
          assert p.messages[|ms|..] == [p1.messages[|ms|]] + tail;
          ServedCons(p1.messages[|ms|], tail, cs[0], cs[1..], outs);
        }
      }
    }
  }

  /** The outcome half of `ExecuteAllAnswers`: frames only grow, and the loop gets through exactly when every call does. */
  lemma {:induction false} ExecuteAllGoes(ms: seq<Message>, es: seq<Event>, cs: seq<ToolCall>, parseArgs: string -> Option<Args>)
    ensures var p := ExecuteAll(Going(ms, es), cs, parseArgs);
      && es <= p.events
      && (p.Going? <==> AllRun(cs, parseArgs))
    decreases |cs|
  {
    if cs != [] {
      assert cs == [cs[0]] + cs[1..];
      AllRunCons(cs[0], cs[1..], parseArgs);
      var p1 := ExecuteCall(Going(ms, es), cs[0], parseArgs);
      if p1.Thrown? {
        ExecuteAllThrown(p1.events, cs[1..], parseArgs);
      } else {
        ExecuteAllGoes(p1.messages, p1.events, cs[1..], parseArgs);
      }
    }
  }

  /** The history half of `ExecuteAllAnswers`. */
  lemma {:induction false} ExecuteAllHistory(ms: seq<Message>, es: seq<Event>, cs: seq<ToolCall>, parseArgs: string -> Option<Args>)
    ensures var p := ExecuteAll(Going(ms, es), cs, parseArgs);
      && es <= p.events
      && (p.Going? <==> AllRun(cs, parseArgs))
      && (p.Going? ==> |ms| <= |p.messages| && p.messages[..|ms|] == ms && Executed(p.messages[|ms|..], cs, parseArgs))
  {
    ExecuteAllGoes(ms, es, cs, parseArgs);
    ExecuteAllMessages(ms, es, cs, parseArgs);
  }

  lemma {:induction false} ExecuteAllMessages(ms: seq<Message>, es: seq<Event>, cs: seq<ToolCall>, parseArgs: string -> Option<Args>)
    ensures var p := ExecuteAll(Going(ms, es), cs, parseArgs);
      p.Going? ==> |ms| <= |p.messages| && p.messages[..|ms|] == ms && Executed(p.messages[|ms|..], cs, parseArgs)
    decreases |cs|
  {
    var p := ExecuteAll(Going(ms, es), cs, parseArgs);
    if cs == [] {
      assert p.messages[|ms|..] == [];
    } else {
      assert cs == [cs[0]] + cs[1..];
      var p1 := ExecuteCall(Going(ms, es), cs[0], parseArgs);
      if p1.Thrown? {
        ExecuteAllThrown(p1.events, cs[1..], parseArgs);
      } else {
        ExecuteAllMessages(p1.messages, p1.events, cs[1..], parseArgs);
        if p.Going? {
          var tail := p.messages[|p1.messages|..];
          assert p.messages[|ms|..] == [p1.messages[|ms|]] + tail;
          ExecutedCons(p1.messages[|ms|], tail, cs[0], cs[1..], parseArgs);
        }
      }
    }
  }

  /**
   * The server loop gets through exactly when every call's arguments parse. It then
   * appends one tool message per call, in order, carrying the call's id and its result
   * content, and the frames it adds report each call in order: `tool_executing` with the
   * arguments, then `tool_result` with the summary.
   */
  lemma ServeAllAnswers(ms: seq<Message>, es: seq<Event>, cs: seq<ToolCall>, outs: seq<ToolOutput>, parseArgs: string -> Option<Args>)
    ensures var p := ServeAll(Going(ms, es), cs, outs, parseArgs);
      && es <= p.events
      && (p.Going? <==> AllParse(cs, parseArgs))
      && (p.Going? ==> |ms| <= |p.messages| && p.messages[..|ms|] == ms && Served(p.messages[|ms|..], cs, outs))
      && (p.Going? ==> ServerReports(p.events[|es|..], cs, outs, parseArgs))
  {
    ServeAllHistory(ms, es, cs, outs, parseArgs);
    ServeAllReports(ms, es, cs, outs, parseArgs);
  }

  /**
   * The client loop gets through exactly when every call's arguments parse and no call
   * throws. It then appends one tool message per call, in order, carrying the call's id
   * and `executeClientTool`'s result, and the frames it adds report each call in order:
   * `tool_executing` with the arguments, then `tool_result` with the result and the client
   * action that asks the page to scroll.
   */
  lemma ExecuteAllAnswers(ms: seq<Message>, es: seq<Event>, cs: seq<ToolCall>, parseArgs: string -> Option<Args>)
    ensures var p := ExecuteAll(Going(ms, es), cs, parseArgs);
      && es <= p.events
      && (p.Going? <==> AllRun(cs, parseArgs))
      && (p.Going? ==> |ms| <= |p.messages| && p.messages[..|ms|] == ms && Executed(p.messages[|ms|..], cs, parseArgs))
      && (p.Going? ==> ClientReports(p.events[|es|..], cs, parseArgs))
  {
    ExecuteAllHistory(ms, es, cs, parseArgs);
    ExecuteAllReports(ms, es, cs, parseArgs);
  }

  /**
   * A round with tool calls announces all of them first. It gets through exactly when
   * every server call's arguments parse and every client call runs; the history then grows
   * by one assistant message carrying every call, the answers to the server calls (their
   * result content) and then the answers to the client calls (the tools' results).
   */
  lemma DispatchHistory(messages: seq<Message>, events: seq<Event>, st: RoundState, parseArgs: string -> Option<Args>)
    ensures var p := DispatchRound(messages, events, st, parseArgs);
      var calls := Dense(st.slots);
      var server, client := ServerCalls(calls), ClientCalls(calls);
      var n := |messages|;
      && events + [ToolCallsStart(Names(calls))] <= p.events
      && (p.Going? <==> AllParse(server, parseArgs) && AllRun(client, parseArgs))
      && (p.Going? ==>
            && |p.messages| == n + 1 + |server| + |client|
            && |server| + |client| == |calls|
            && p.messages[..n] == messages
            && p.messages[n] == AssistantMessage(AssistantText(st.content), calls)
            && Served(p.messages[n + 1..n + 1 + |server|], server, st.outputs)
            && Executed(p.messages[n + 1 + |server|..], client, parseArgs))
  {
    var calls := Dense(st.slots);
    var server, client := ServerCalls(calls), ClientCalls(calls);
    var ms0 := messages + [AssistantMessage(AssistantText(st.content), calls)];
    var es0 := events + [ToolCallsStart(Names(calls))];
    PartitionCalls(calls);
    ServeThenExecute(ms0, es0, server, client, st.outputs, parseArgs);
    var p := DispatchRound(messages, events, st, parseArgs);
    if p.Going? {
      var n := |messages|;
      assert p.messages[..n] == p.messages[..n + 1][..n];
      assert p.messages[n] == p.messages[..n + 1][n];
    }
  }

  /**
   * The frames of a round with tool calls that gets through: the frames so far, the
   * `tool_calls_start` announcement, then the reports of the server calls and then those of
   * the client calls, each in order, and nothing else.
   */
  lemma DispatchReports(messages: seq<Message>, events: seq<Event>, st: RoundState, parseArgs: string -> Option<Args>)
    ensures var p := DispatchRound(messages, events, st, parseArgs);
      var calls := Dense(st.slots);
      var server, client := ServerCalls(calls), ClientCalls(calls);
      var start := events + [ToolCallsStart(Names(calls))];
      var m := |start|;
      p.Going? ==>
        && |p.events| == m + 2 * |server| + 2 * |client|
        && p.events[..m] == start
        && ServerReports(p.events[m..m + 2 * |server|], server, st.outputs, parseArgs)
        && ClientReports(p.events[m + 2 * |server|..], client, parseArgs)
  {
    var calls := Dense(st.slots);
    var ms0 := messages + [AssistantMessage(AssistantText(st.content), calls)];
    var es0 := events + [ToolCallsStart(Names(calls))];
    var server, client := ServerCalls(calls), ClientCalls(calls);
    ReportsThenReports(ms0, es0, server, client, st.outputs, parseArgs);
  }

  /** The frames of both loops of dispatch, one after the other, from the frames `es`. */
  lemma ReportsThenReports(ms: seq<Message>, es: seq<Event>, server: seq<ToolCall>, client: seq<ToolCall>,
                           outs: seq<ToolOutput>, parseArgs: string -> Option<Args>)
    ensures var p := ExecuteAll(ServeAll(Going(ms, es), server, outs, parseArgs), client, parseArgs);
      var m := |es|;
      p.Going? ==>
        && |p.events| == m + 2 * |server| + 2 * |client|
        && p.events[..m] == es
        && ServerReports(p.events[m..m + 2 * |server|], server, outs, parseArgs)
        && ClientReports(p.events[m + 2 * |server|..], client, parseArgs)
  {
    ServeAllReports(ms, es, server, outs, parseArgs);
    var served := ServeAll(Going(ms, es), server, outs, parseArgs);
    var p := ExecuteAll(served, client, parseArgs);
    if served.Thrown? {
      ExecuteAllThrown(served.events, client, parseArgs);
    } else {
      ExecuteAllReports(served.messages, served.events, client, parseArgs);
      if p.Going? {
        ReportsJoin(es, served.events, p.events, server, client, outs, parseArgs);
      }
    }
  }

  /** The server loop's frames followed by the client loop's, cut back apart. */
  lemma ReportsJoin(es: seq<Event>, mid: seq<Event>, all: seq<Event>, server: seq<ToolCall>, client: seq<ToolCall>,
                    outs: seq<ToolOutput>, parseArgs: string -> Option<Args>)
    requires es <= mid <= all
    requires |mid| == |es| + 2 * |server| && ServerReports(mid[|es|..], server, outs, parseArgs)
    requires |all| == |mid| + 2 * |client| && ClientReports(all[|mid|..], client, parseArgs)
    ensures var m := |es|;
      && |all| == m + 2 * |server| + 2 * |client|
      && all[..m] == es
      && ServerReports(all[m..m + 2 * |server|], server, outs, parseArgs)
      && ClientReports(all[m + 2 * |server|..], client, parseArgs)
  {
    assert all[|es|..|mid|] == mid[|es|..];
  }

  /** Both loops of dispatch, one after the other, from the history `ms` and frames `es`. */
  lemma ServeThenExecute(ms: seq<Message>, es: seq<Event>, server: seq<ToolCall>, client: seq<ToolCall>,
                         outs: seq<ToolOutput>, parseArgs: string -> Option<Args>)
    ensures var p := ExecuteAll(ServeAll(Going(ms, es), server, outs, parseArgs), client, parseArgs);
      var m := |ms|;
      && es <= p.events
      && (p.Going? <==> AllParse(server, parseArgs) && AllRun(client, parseArgs))
      && (p.Going? ==>
            && |p.messages| == m + |server| + |client|
            && p.messages[..m] == ms
            && Served(p.messages[m..m + |server|], server, outs)
            && Executed(p.messages[m + |server|..], client, parseArgs))
  {
    var served := ServeAll(Going(ms, es), server, outs, parseArgs);
    var p := ExecuteAll(served, client, parseArgs);
    ServeAllHistory(ms, es, server, outs, parseArgs);
    if served.Thrown? {
      ExecuteAllThrown(served.events, client, parseArgs);
    } else {
      ExecuteAllHistory(served.messages, served.events, client, parseArgs);
      if p.Going? {
        var m, mid := |ms|, served.messages;
        assert p.messages[m..|mid|] == p.messages[..|mid|][m..];
        assert p.messages[..m] == p.messages[..|mid|][..m];
      }
    }
  }

  // ---------------------------------------------------------------- the agentic loop

  /**
   * The upstream reply to one request: refused (the request fails, `!response.ok` or no
   * body), streamed in chunks to its end, or broken off (`reader.read()` rejects) after the
   * chunks received so far.
   */
  datatype Upstream = Rejected | Streamed(chunks: seq<string>) | Broken(chunks: seq<string>)

  /** How the loop ended: a round without tool calls, five rounds used up, or the `catch`. */
  datatype Finish = Answered | LimitReached | Failed

  /**
   * Everything written to the browser, the history as of the last round that completed,
   * the number of upstream requests, and how the loop ended.
   */
  datatype Transcript = Transcript(events: seq<Event>, messages: seq<Message>, requests: nat, finish: Finish)

  const MaxIterations: nat := 5

  /** How one iteration ends: the loop stops (frames so far and why), or goes round again. */
  datatype RoundEnd =
    | Stop(events: seq<Event>, finish: Finish)
    | Again(messages: seq<Message>, events: seq<Event>)

  /** One iteration of the loop: one request upstream, its reply relayed, its tool calls dispatched. */
  function Round(messages: seq<Message>, events: seq<Event>, upstream: seq<Message> -> Upstream,
                 parse: string -> Option<Delta>, parseArgs: string -> Option<Args>): RoundEnd
  {
    match upstream(messages)
    case Rejected => Stop(events, Failed)
    case Broken(chunks) => Stop(events + StreamRound(chunks, parse).events, Failed)
    case Streamed(chunks) =>
      var st := StreamRound(chunks, parse);
      var es := events + st.events;
      if st.slots.length == 0 then Stop(es, Answered)
      else
        match DispatchRound(messages, es, st, parseArgs)
        case Thrown(es') => Stop(es', Failed)
        case Going(ms', es') => Again(ms', es')
  }

  /** The last frame: the error frame from the `catch`, `[DONE]` otherwise. */
  function FinalFrame(finish: Finish): Event {
    if finish == Failed then ErrorEvent else DoneEvent
  }

  /** One iteration of the loop as a function of the history and the frames so far. */
  type Step = (seq<Message>, seq<Event>) -> RoundEnd

  /** The rounds still allowed by `fuel`, from the given history, frames and request count. */
  function Rounds(fuel: nat, messages: seq<Message>, events: seq<Event>, requests: nat, step: Step): Transcript
    decreases fuel
  {
    if fuel == 0 then Transcript(events + [DoneEvent], messages, requests, LimitReached)
    else
      match step(messages, events)
      case Stop(es, finish) => Transcript(es + [FinalFrame(finish)], messages, requests + 1, finish)
      case Again(ms, es) => Rounds(fuel - 1, ms, es, requests + 1, step)
  }

  /** The history the route starts from: the system prompt, then the browser's messages. */
  function InitialHistory(systemPrompt: string, input: seq<Message>): seq<Message> {
    [SystemMessage(systemPrompt)] + input
  }

  /** The round of this route, with its upstream and its parsers fixed. */
  function RouteStep(upstream: seq<Message> -> Upstream, parse: string -> Option<Delta>,
                     parseArgs: string -> Option<Args>): Step
  {
    (ms, es) => Round(ms, es, upstream, parse, parseArgs)
  }

  /**
   * The whole exchange of one `POST`, given the body's `messages` (`None` when it is
   * missing: spreading it throws before the first request, and the browser gets only the
   * error frame).
   */
  function Chat(systemPrompt: string, input: Option<seq<Message>>, upstream: seq<Message> -> Upstream,
                parse: string -> Option<Delta>, parseArgs: string -> Option<Args>): Transcript
  {
    match input
    case None => Transcript([ErrorEvent], [], 0, Failed)
    case Some(ms) => Rounds(MaxIterations, InitialHistory(systemPrompt, ms), [], 0, RouteStep(upstream, parse, parseArgs))
  }

  /** The body of one iteration of `while (iterationCount < maxIterations)`. */
  method RunRound(messages: seq<Message>, events: seq<Event>, upstream: seq<Message> -> Upstream,
                  parse: string -> Option<Delta>, parseArgs: string -> Option<Args>) returns (r: RoundEnd)
    ensures r == Round(messages, events, upstream, parse, parseArgs)
  {
    var response := upstream(messages);
    if response.Rejected? {
      return Stop(events, Failed);
    }
    var st, _ := ReadStream(response.chunks, parse);
    var es := events + st.events;
    if response.Broken? {
      return Stop(es, Failed);
    }
    if st.slots.length > 0 {
      var p := Dispatch(messages, es, st, parseArgs);
      if p.Thrown? {
        return Stop(p.events, Failed);
      }
      return Again(p.messages, p.events);
    }
    return Stop(es, Answered);
  }

  /** A round that goes round again leaves the rest of the exchange to the remaining fuel. */
  lemma RoundsAgain(fuel: nat, messages: seq<Message>, events: seq<Event>, requests: nat, step: Step)
    requires fuel > 0 && step(messages, events).Again?
    ensures var r := step(messages, events);
      Rounds(fuel, messages, events, requests, step) == Rounds(fuel - 1, r.messages, r.events, requests + 1, step)
  {
  }

  /** The route's asynchronous block: the bounded agentic loop and its final frame. */
  method Post(systemPrompt: string, input: Option<seq<Message>>, upstream: seq<Message> -> Upstream,
              parse: string -> Option<Delta>, parseArgs: string -> Option<Args>) returns (t: Transcript)
    ensures t == Chat(systemPrompt, input, upstream, parse, parseArgs)
  {
    if input.None? {
      return Transcript([FinalFrame(Failed)], [], 0, Failed);
    }
    ghost var step := RouteStep(upstream, parse, parseArgs);
    var messages := [SystemMessage(systemPrompt)] + input.value;
    var events: seq<Event> := [];
    var iterationCount: nat := 0;
    var finish := LimitReached;
    ghost var fuel: nat := MaxIterations;
    ghost var chat := Chat(systemPrompt, input, upstream, parse, parseArgs);
    assert chat == Rounds(fuel, messages, events, iterationCount, step);
    while iterationCount < MaxIterations
      invariant iterationCount <= MaxIterations
      invariant fuel == MaxIterations - iterationCount
      invariant Rounds(fuel, messages, events, iterationCount, step) == chat
    {
      iterationCount := iterationCount + 1;
      var r := RunRound(messages, events, upstream, parse, parseArgs);
      assert r == step(messages, events);
      if r.Stop? {
        events, finish := r.events, r.finish;
        break;
      }
      RoundsAgain(fuel, messages, events, iterationCount - 1, step);
      messages, events, fuel := r.messages, r.events, fuel - 1;
    }
    t := Transcript(events + [FinalFrame(finish)], messages, iterationCount, finish);
    assert t == chat;
  }

  // ---------------------------------------------------------------- facts about the loop

  /**
   * Each round makes exactly one upstream request: the loop makes at least one and never
   * more than its fuel allows, and when the fuel runs out it has made all of them.
   */
  lemma {:induction false} RoundsRequests(fuel: nat, messages: seq<Message>, events: seq<Event>, requests: nat, step: Step)
    requires forall ms, es :: step(ms, es).Stop? ==> step(ms, es).finish != LimitReached
    ensures var t := Rounds(fuel, messages, events, requests, step);
      && requests <= t.requests <= requests + fuel
      && (t.finish == LimitReached ==> t.requests == requests + fuel)
      && (fuel > 0 ==> t.requests > requests)
    decreases fuel
  {
    if fuel > 0 {
      var r := step(messages, events);
      if r.Again? {
        RoundsRequests(fuel - 1, r.messages, r.events, requests + 1, step);
      }
    }
  }

  /**
   * One round keeps the frames already written and the history already sent, and writes
   * no `[DONE]` or error frame of its own.
   */
  lemma RoundKeeps(messages: seq<Message>, events: seq<Event>, upstream: seq<Message> -> Upstream,
                   parse: string -> Option<Delta>, parseArgs: string -> Option<Args>)
    ensures var r := Round(messages, events, upstream, parse, parseArgs);
      && events <= r.events
      && (NoTerminal(events) ==> NoTerminal(r.events))
      && (r.Again? ==> messages <= r.messages)
      && (r.Stop? ==> r.finish != LimitReached)
  {
    if !upstream(messages).Rejected? {
      var chunks := upstream(messages).chunks;
      var st := StreamRound(chunks, parse);
      var es := events + st.events;
      StreamContent(chunks, parse);
      if NoTerminal(events) {
        NoTerminalAppend(events, st.events);
      }
      if upstream(messages).Streamed? && st.slots.length != 0 {
        var p := DispatchRound(messages, es, st, parseArgs);
        if NoTerminal(es) {
          DispatchFrames(messages, es, st, parseArgs);
        }
        DispatchHistory(messages, es, st, parseArgs);
        if p.Going? {
          assert messages <= p.messages by {
            assert p.messages[..|messages|] == messages;
          }
        }
      }
    }
  }

  /** The reply to `ms` arrives whole and asks for no tool: the round that sent `ms` answers. */
  predicate Answering(ms: seq<Message>, upstream: seq<Message> -> Upstream, parse: string -> Option<Delta>) {
    upstream(ms).Streamed? && StreamRound(upstream(ms).chunks, parse).slots.length == 0
  }

  /**
   * The reply to `ms` arrives whole with tool calls, every server call's arguments parse
   * and every client call runs: the round that sent `ms` asks again.
   */
  predicate Continuing(ms: seq<Message>, upstream: seq<Message> -> Upstream, parse: string -> Option<Delta>,
                       parseArgs: string -> Option<Args>) {
    && upstream(ms).Streamed?
    && var st := StreamRound(upstream(ms).chunks, parse);
       && st.slots.length > 0
       && AllParse(ServerCalls(Dense(st.slots)), parseArgs)
       && AllRun(ClientCalls(Dense(st.slots)), parseArgs)
  }

  /**
   * The loop's stopping rule for one round: it ends the loop with an answer exactly when
   * the reply has no tool calls (`break`), goes round again exactly when the reply has tool
   * calls and dispatching them does not throw (`continue`), and fails otherwise.
   */
  lemma RoundEnds(messages: seq<Message>, events: seq<Event>, upstream: seq<Message> -> Upstream,
                  parse: string -> Option<Delta>, parseArgs: string -> Option<Args>)
    ensures var r := Round(messages, events, upstream, parse, parseArgs);
      && (r.Stop? && r.finish == Answered <==> Answering(messages, upstream, parse))
      && (r.Again? <==> Continuing(messages, upstream, parse, parseArgs))
      && (r.Stop? && r.finish == Failed <==> !Answering(messages, upstream, parse) && !Continuing(messages, upstream, parse, parseArgs))
  {
    if upstream(messages).Streamed? {
      var st := StreamRound(upstream(messages).chunks, parse);
      if st.slots.length > 0 {
        DispatchGoes(messages, events + st.events, st, parseArgs);
      }
    }
  }

  /** The reply a round relays: what its stream leaves, or nothing when the request is refused. */
  function Reply(ms: seq<Message>, upstream: seq<Message> -> Upstream, parse: string -> Option<Delta>): RoundState {
    if upstream(ms).Rejected? then EmptyRound else StreamRound(upstream(ms).chunks, parse)
  }

  /** The dispatch of a round's tool calls, after the frames of its reply. */
  function Dispatched(ms: seq<Message>, es: seq<Event>, upstream: seq<Message> -> Upstream,
                      parse: string -> Option<Delta>, parseArgs: string -> Option<Args>): Progress
  {
    DispatchRound(ms, es + Reply(ms, upstream, parse).events, Reply(ms, upstream, parse), parseArgs)
  }

  /**
   * What one round writes and hands on. A refused request writes nothing. Otherwise the
   * reply's frames are relayed after the frames so far: a read that rejects and an answer
   * stop right after them; a reply with tool calls goes on with the frames and history
   * its dispatch leaves.
   */
  lemma RoundResult(messages: seq<Message>, events: seq<Event>, upstream: seq<Message> -> Upstream,
                    parse: string -> Option<Delta>, parseArgs: string -> Option<Args>)
    ensures var r := Round(messages, events, upstream, parse, parseArgs);
      var st := Reply(messages, upstream, parse);
      var p := Dispatched(messages, events, upstream, parse, parseArgs);
      && (upstream(messages).Rejected? ==> r == Stop(events, Failed))
      && (!upstream(messages).Rejected? ==> events + st.events <= r.events)
      && (upstream(messages).Broken? ==> r == Stop(events + st.events, Failed))
      && (Answering(messages, upstream, parse) ==> r == Stop(events + st.events, Answered))
      && (upstream(messages).Streamed? && st.slots.length > 0 ==>
            && r.events == p.events
            && (r.Again? <==> p.Going?)
            && (r.Again? ==> r.messages == p.messages))
  {
    var st := Reply(messages, upstream, parse);
    if upstream(messages).Streamed? && st.slots.length > 0 {
      DispatchHistory(messages, events + st.events, st, parseArgs);
    }
  }

  /** Dispatch gets through exactly when every server call's arguments parse and every client call runs. */
  lemma DispatchGoes(messages: seq<Message>, events: seq<Event>, st: RoundState, parseArgs: string -> Option<Args>)
    ensures DispatchRound(messages, events, st, parseArgs).Going?
        <==> AllParse(ServerCalls(Dense(st.slots)), parseArgs) && AllRun(ClientCalls(Dense(st.slots)), parseArgs)
  {
    var calls := Dense(st.slots);
    var ms0 := messages + [AssistantMessage(AssistantText(st.content), calls)];
    var es0 := events + [ToolCallsStart(Names(calls))];
    ServeAllHistory(ms0, es0, ServerCalls(calls), st.outputs, parseArgs);
    var served := ServeAll(Going(ms0, es0), ServerCalls(calls), st.outputs, parseArgs);
    if served.Thrown? {
      ExecuteAllThrown(served.events, ClientCalls(calls), parseArgs);
    } else {
      ExecuteAllHistory(served.messages, served.events, ClientCalls(calls), parseArgs);
    }
  }

  /** The history and frames each round of the loop starts from, in order. */
  function Trace(fuel: nat, messages: seq<Message>, events: seq<Event>, step: Step): seq<(seq<Message>, seq<Event>)>
    decreases fuel
  {
    if fuel == 0 then []
    else
      match step(messages, events)
      case Stop(_, _) => [(messages, events)]
      case Again(ms, es) => [(messages, events)] + Trace(fuel - 1, ms, es, step)
  }

  /**
   * The rounds the loop runs: one request each; every round but the last goes again and
   * hands its history and frames to the next; the loop ends by the limit exactly when every
   * round, as many as the fuel allows, went again, and otherwise the way the last round
   * stopped.
   */
  lemma {:induction false} RoundsTrace(fuel: nat, messages: seq<Message>, events: seq<Event>, requests: nat, step: Step)
    requires forall ms, es :: step(ms, es).Stop? ==> step(ms, es).finish != LimitReached
    ensures var t := Rounds(fuel, messages, events, requests, step);
      var tr := Trace(fuel, messages, events, step);
      && t.requests == requests + |tr|
      && |tr| <= fuel
      && (fuel > 0 ==> |tr| > 0 && tr[0] == (messages, events))
      && (forall k :: 0 <= k < |tr| - 1 ==>
            step(tr[k].0, tr[k].1).Again? && tr[k + 1] == (step(tr[k].0, tr[k].1).messages, step(tr[k].0, tr[k].1).events))
      && (t.finish == LimitReached <==> |tr| == fuel && forall k :: 0 <= k < |tr| ==> step(tr[k].0, tr[k].1).Again?)
      && (t.finish != LimitReached ==>
            |tr| > 0 && step(tr[|tr| - 1].0, tr[|tr| - 1].1).Stop? && step(tr[|tr| - 1].0, tr[|tr| - 1].1).finish == t.finish)
    decreases fuel
  {
    if fuel > 0 {
      var r := step(messages, events);
      if r.Again? {
        RoundsTrace(fuel - 1, r.messages, r.events, requests + 1, step);
        var rest := Trace(fuel - 1, r.messages, r.events, step);
        TraceCons(messages, events, rest, step);
      }
    }
  }

  /** Putting a round that goes again in front of the rounds after it. */
  lemma TraceCons(messages: seq<Message>, events: seq<Event>, rest: seq<(seq<Message>, seq<Event>)>, step: Step)
    requires step(messages, events).Again?
    requires |rest| > 0 ==> rest[0] == (step(messages, events).messages, step(messages, events).events)
    requires forall k :: 0 <= k < |rest| - 1 ==>
      step(rest[k].0, rest[k].1).Again? && rest[k + 1] == (step(rest[k].0, rest[k].1).messages, step(rest[k].0, rest[k].1).events)
    ensures var tr := [(messages, events)] + rest;
      && (forall k :: 0 <= k < |tr| - 1 ==>
            step(tr[k].0, tr[k].1).Again? && tr[k + 1] == (step(tr[k].0, tr[k].1).messages, step(tr[k].0, tr[k].1).events))
      && ((forall k :: 0 <= k < |tr| ==> step(tr[k].0, tr[k].1).Again?) <==> forall k :: 0 <= k < |rest| ==> step(rest[k].0, rest[k].1).Again?)
  {
    var tr := [(messages, events)] + rest;
    forall k | 1 <= k < |tr| ensures tr[k] == rest[k - 1] {
    }
    if forall k :: 0 <= k < |rest| ==> step(rest[k].0, rest[k].1).Again? {
      forall k | 0 <= k < |tr| ensures step(tr[k].0, tr[k].1).Again? {
        if k > 0 { assert tr[k] == rest[k - 1]; }
      }
    }
    if forall k :: 0 <= k < |tr| ==> step(tr[k].0, tr[k].1).Again? {
      forall k | 0 <= k < |rest| ensures step(rest[k].0, rest[k].1).Again? {
        assert rest[k] == tr[k + 1];
      }
    }
  }

  /**
   * How the loop ends, in terms of its last round: the frames that round leaves, then the
   * final frame; the history is the one that round sent, or the one it hands on when the
   * limit ends the loop.
   */
  lemma {:induction false} RoundsLast(fuel: nat, messages: seq<Message>, events: seq<Event>, requests: nat, step: Step)
    requires fuel > 0
    ensures var t := Rounds(fuel, messages, events, requests, step);
      var tr := Trace(fuel, messages, events, step);
      && |tr| > 0
      && var r := step(tr[|tr| - 1].0, tr[|tr| - 1].1);
         && t.events == r.events + [FinalFrame(t.finish)]
         && t.messages == (if r.Again? then r.messages else tr[|tr| - 1].0)
         && (r.Stop? ==> t.finish == r.finish)
    decreases fuel
  {
    var r := step(messages, events);
    if r.Again? && fuel > 1 {
      RoundsLast(fuel - 1, r.messages, r.events, requests + 1, step);
      var rest := Trace(fuel - 1, r.messages, r.events, step);
      assert Trace(fuel, messages, events, step) == [(messages, events)] + rest;
      assert ([(messages, events)] + rest)[|rest|] == rest[|rest| - 1];
    } else if r.Again? {
      assert Trace(fuel - 1, r.messages, r.events, step) == [];
    }
  }

  /** The history only grows, as long as every round keeps what was sent before. */
  lemma {:induction false} RoundsHistory(fuel: nat, messages: seq<Message>, events: seq<Event>, requests: nat, step: Step)
    requires forall ms, es :: step(ms, es).Again? ==> ms <= step(ms, es).messages
    ensures messages <= Rounds(fuel, messages, events, requests, step).messages
    decreases fuel
  {
    if fuel > 0 {
      var r := step(messages, events);
      if r.Again? {
        RoundsHistory(fuel - 1, r.messages, r.events, requests + 1, step);
      }
    }
  }

  /**
   * `t` extends the frames `events`, and its last frame, and only its last, is `[DONE]` or
   * the error frame: the error frame exactly when the loop failed.
   */
  predicate Closes(events: seq<Event>, t: Transcript) {
    && events <= t.events && |t.events| > |events|
    && t.events[|t.events| - 1] == FinalFrame(t.finish)
    && NoTerminal(t.events[..|t.events| - 1])
  }

  /** A round that keeps the frames already written and writes no final frame of its own. */
  ghost predicate KeepsFrames(step: Step) {
    forall ms, es :: NoTerminal(es) ==> es <= step(ms, es).events && NoTerminal(step(ms, es).events)
  }

  /**
   * With rounds that keep the frames, the frames only grow, and the browser sees exactly
   * one final frame, at the end.
   */
  lemma {:induction false} RoundsFrames(fuel: nat, messages: seq<Message>, events: seq<Event>, requests: nat, step: Step)
    requires NoTerminal(events) && KeepsFrames(step)
    ensures Closes(events, Rounds(fuel, messages, events, requests, step))
    decreases fuel
  {
    var t := Rounds(fuel, messages, events, requests, step);
    if fuel == 0 {
      CloseFrames(events, events, t);
    } else {
      var r := step(messages, events);
      if r.Stop? {
        CloseFrames(events, r.events, t);
      } else {
        RoundsFrames(fuel - 1, r.messages, r.events, requests + 1, step);
      }
    }
  }

  lemma CloseFrames(events: seq<Event>, es: seq<Event>, t: Transcript)
    requires events <= es && NoTerminal(es)
    requires t.events == es + [FinalFrame(t.finish)]
    ensures Closes(events, t)
  {
    assert t.events[..|t.events| - 1] == es;
  }

  lemma NoTerminalAppend(a: seq<Event>, b: seq<Event>)
    requires NoTerminal(a) && NoTerminal(b)
    ensures NoTerminal(a + b)
  {
    forall k | 0 <= k < |a + b| ensures !Terminal((a + b)[k]) {
      if k >= |a| { assert (a + b)[k] == b[k - |a|]; }
    }
  }

  /** Dispatch writes no `[DONE]` or error frame of its own. */
  lemma DispatchFrames(messages: seq<Message>, events: seq<Event>, st: RoundState, parseArgs: string -> Option<Args>)
    requires NoTerminal(events)
    ensures events <= DispatchRound(messages, events, st, parseArgs).events
    ensures NoTerminal(DispatchRound(messages, events, st, parseArgs).events)
  {
    DispatchHistory(messages, events, st, parseArgs);
    var calls := Dense(st.slots);
    var ms0 := messages + [AssistantMessage(AssistantText(st.content), calls)];
    var es0 := events + [ToolCallsStart(Names(calls))];
    assert NoTerminal(es0) by {
      forall k | 0 <= k < |es0| ensures !Terminal(es0[k]) {
        if k < |events| { assert es0[k] == events[k]; }
      }
    }
    ServeAllFrames(Going(ms0, es0), ServerCalls(calls), st.outputs, parseArgs);
    var served := ServeAll(Going(ms0, es0), ServerCalls(calls), st.outputs, parseArgs);
    ExecuteAllFrames(served, ClientCalls(calls), parseArgs);
  }

  lemma {:induction false} ServeAllFrames(p: Progress, cs: seq<ToolCall>, outs: seq<ToolOutput>, parseArgs: string -> Option<Args>)
    requires NoTerminal(p.events)
    ensures NoTerminal(ServeAll(p, cs, outs, parseArgs).events)
    decreases |cs|
  {
    if cs != [] {
      var p1 := ServeCall(p, cs[0], outs, parseArgs);
      assert NoTerminal(p1.events) by {
        forall k | 0 <= k < |p1.events| ensures !Terminal(p1.events[k]) {
          if k < |p.events| { assert p1.events[k] == p.events[k]; }
        }
      }
      ServeAllFrames(p1, cs[1..], outs, parseArgs);
    }
  }

  lemma {:induction false} ExecuteAllFrames(p: Progress, cs: seq<ToolCall>, parseArgs: string -> Option<Args>)
    requires NoTerminal(p.events)
    ensures NoTerminal(ExecuteAll(p, cs, parseArgs).events)
    decreases |cs|
  {
    if cs != [] {
      var p1 := ExecuteCall(p, cs[0], parseArgs);
      assert NoTerminal(p1.events) by {
        forall k | 0 <= k < |p1.events| ensures !Terminal(p1.events[k]) {
          if k < |p.events| { assert p1.events[k] == p.events[k]; }
        }
      }
      ExecuteAllFrames(p1, cs[1..], parseArgs);
    }
  }

  /**
   * The browser sees exactly one final frame, `[DONE]` on success and the error frame on
   * failure. Without `messages` no request is made and the exchange fails. Otherwise one
   * `POST` sends between one and five upstream requests, and the history always begins
   * with the system prompt followed by the browser's messages.
   */
  lemma ChatFacts(systemPrompt: string, input: Option<seq<Message>>, upstream: seq<Message> -> Upstream,
                  parse: string -> Option<Delta>, parseArgs: string -> Option<Args>)
    ensures var t := Chat(systemPrompt, input, upstream, parse, parseArgs);
      && Closes([], t)
      && (input.None? ==> t.requests == 0 && t.finish == Failed)
      && (input.Some? ==>
            && 1 <= t.requests <= MaxIterations
            && (t.finish == LimitReached ==> t.requests == MaxIterations)
            && InitialHistory(systemPrompt, input.value) <= t.messages)
  {
    if input.None? {
      var t := Chat(systemPrompt, input, upstream, parse, parseArgs);
      assert t.events[..0] == [];
      return;
    }
    var h := InitialHistory(systemPrompt, input.value);
    var step := RouteStep(upstream, parse, parseArgs);
    forall ms, es ensures
      && (NoTerminal(es) ==> es <= step(ms, es).events && NoTerminal(step(ms, es).events))
      && (step(ms, es).Again? ==> ms <= step(ms, es).messages)
      && (step(ms, es).Stop? ==> step(ms, es).finish != LimitReached)
    {
      RoundKeeps(ms, es, upstream, parse, parseArgs);
    }
    RoundsRequests(MaxIterations, h, [], 0, step);
    RoundsHistory(MaxIterations, h, [], 0, step);
    RoundsFrames(MaxIterations, h, [], 0, step);
  }

  /**
   * The loop's stopping rule over a whole `POST`: the first round sends the initial
   * history; every round but the last got a reply with tool calls and went again; the loop
   * ends with `[DONE]` after an answer exactly when the last reply had no tool calls, by the
   * limit exactly when all five rounds went again, and with the error frame otherwise.
   */
  lemma ChatStops(systemPrompt: string, input: seq<Message>, upstream: seq<Message> -> Upstream,
                  parse: string -> Option<Delta>, parseArgs: string -> Option<Args>)
    ensures var t := Chat(systemPrompt, Some(input), upstream, parse, parseArgs);
      var tr := Trace(MaxIterations, InitialHistory(systemPrompt, input), [], RouteStep(upstream, parse, parseArgs));
      var last := tr[|tr| - 1].0;
      && 1 <= |tr| == t.requests
      && tr[0].0 == InitialHistory(systemPrompt, input)
      && (forall k :: 0 <= k < |tr| - 1 ==> Continuing(tr[k].0, upstream, parse, parseArgs))
      && (t.finish == Answered <==> Answering(last, upstream, parse))
      && (t.finish == LimitReached <==> |tr| == MaxIterations && Continuing(last, upstream, parse, parseArgs))
      && (t.finish == Failed <==> !Answering(last, upstream, parse) && !Continuing(last, upstream, parse, parseArgs))
  {
    var h := InitialHistory(systemPrompt, input);
    var step := RouteStep(upstream, parse, parseArgs);
    forall ms, es ensures
      && (step(ms, es).Stop? && step(ms, es).finish == Answered <==> Answering(ms, upstream, parse))
      && (step(ms, es).Again? <==> Continuing(ms, upstream, parse, parseArgs))
      && (step(ms, es).Stop? ==> step(ms, es).finish != LimitReached)
    {
      RoundEnds(ms, es, upstream, parse, parseArgs);
      RoundKeeps(ms, es, upstream, parse, parseArgs);
    }
    RoundsTrace(MaxIterations, h, [], 0, step);
  }

  /**
   * Each round after the first sends the history that the previous round's dispatch left
   * (its assistant message and tool answers), after the frames that dispatch wrote.
   */
  predicate HandsOn(tr: seq<(seq<Message>, seq<Event>)>, upstream: seq<Message> -> Upstream,
                    parse: string -> Option<Delta>, parseArgs: string -> Option<Args>)
  {
    forall k :: 0 <= k < |tr| - 1 ==>
      && Dispatched(tr[k].0, tr[k].1, upstream, parse, parseArgs).Going?
      && tr[k + 1] == (Dispatched(tr[k].0, tr[k].1, upstream, parse, parseArgs).messages,
                    Dispatched(tr[k].0, tr[k].1, upstream, parse, parseArgs).events)
  }

  /**
   * What the browser is shown at the end, given the last round's history `last` and frames
   * `lastEvents`: after an answer, the last reply's frames and then `[DONE]`; when the limit
   * ends the loop, the frames and history of the last dispatch and then `[DONE]`; on
   * failure, at least the last reply's frames and then the error frame.
   */
  predicate Shows(t: Transcript, last: seq<Message>, lastEvents: seq<Event>, upstream: seq<Message> -> Upstream,
                  parse: string -> Option<Delta>, parseArgs: string -> Option<Args>)
  {
    var relayed := lastEvents + Reply(last, upstream, parse).events;
    var p := Dispatched(last, lastEvents, upstream, parse, parseArgs);
    && (t.finish == Answered ==> t.events == relayed + [DoneEvent] && t.messages == last)
    && (t.finish == LimitReached ==> p.Going? && t.events == p.events + [DoneEvent] && t.messages == p.messages)
    && (t.finish == Failed ==> relayed <= t.events && |t.events| > 0 && t.events[|t.events| - 1] == ErrorEvent)
  }

  /**
   * What a whole `POST` sends: the first request carries the initial history, and each
   * later one the history the previous round's dispatch left, as `HandsOn` says.
   */
  lemma ChatHandsOn(systemPrompt: string, input: seq<Message>, upstream: seq<Message> -> Upstream,
                    parse: string -> Option<Delta>, parseArgs: string -> Option<Args>)
    ensures var tr := Trace(MaxIterations, InitialHistory(systemPrompt, input), [], RouteStep(upstream, parse, parseArgs));
      && 1 <= |tr|
      && tr[0] == (InitialHistory(systemPrompt, input), [])
      && HandsOn(tr, upstream, parse, parseArgs)
  {
    var h := InitialHistory(systemPrompt, input);
    var step := RouteStep(upstream, parse, parseArgs);
    forall ms, es ensures step(ms, es).Stop? ==> step(ms, es).finish != LimitReached {
      RoundKeeps(ms, es, upstream, parse, parseArgs);
    }
    RoundsTrace(MaxIterations, h, [], 0, step);
    var tr := Trace(MaxIterations, h, [], step);
    forall k | 0 <= k < |tr| - 1
      ensures Dispatched(tr[k].0, tr[k].1, upstream, parse, parseArgs).Going?
      ensures tr[k + 1] == (Dispatched(tr[k].0, tr[k].1, upstream, parse, parseArgs).messages,
                            Dispatched(tr[k].0, tr[k].1, upstream, parse, parseArgs).events)
    {
      RoundResult(tr[k].0, tr[k].1, upstream, parse, parseArgs);
    }
  }

  /** What the browser is shown at the end of a `POST`, in terms of its last round, as `Shows` says. */
  lemma ChatShows(systemPrompt: string, input: seq<Message>, upstream: seq<Message> -> Upstream,
                  parse: string -> Option<Delta>, parseArgs: string -> Option<Args>)
    ensures var t := Chat(systemPrompt, Some(input), upstream, parse, parseArgs);
      var tr := Trace(MaxIterations, InitialHistory(systemPrompt, input), [], RouteStep(upstream, parse, parseArgs));
      && 1 <= |tr|
      && Shows(t, tr[|tr| - 1].0, tr[|tr| - 1].1, upstream, parse, parseArgs)
  {
    var h := InitialHistory(systemPrompt, input);
    var step := RouteStep(upstream, parse, parseArgs);
    forall ms, es ensures step(ms, es).Stop? ==> step(ms, es).finish != LimitReached {
      RoundKeeps(ms, es, upstream, parse, parseArgs);
    }
    RoundsTrace(MaxIterations, h, [], 0, step);
    RoundsLast(MaxIterations, h, [], 0, step);
    var tr := Trace(MaxIterations, h, [], step);
    LastShows(Chat(systemPrompt, Some(input), upstream, parse, parseArgs), tr[|tr| - 1].0, tr[|tr| - 1].1,
              upstream, parse, parseArgs);
  }

  /** The end of the exchange, from how its last round ended. */
  lemma LastShows(t: Transcript, last: seq<Message>, lastEvents: seq<Event>, upstream: seq<Message> -> Upstream,
                  parse: string -> Option<Delta>, parseArgs: string -> Option<Args>)
    requires var r := Round(last, lastEvents, upstream, parse, parseArgs);
      && t.events == r.events + [FinalFrame(t.finish)]
      && t.messages == (if r.Again? then r.messages else last)
      && (r.Stop? <==> t.finish != LimitReached)
      && (r.Stop? ==> t.finish == r.finish)
    ensures Shows(t, last, lastEvents, upstream, parse, parseArgs)
  {
    RoundResult(last, lastEvents, upstream, parse, parseArgs);
    RoundEnds(last, lastEvents, upstream, parse, parseArgs);
  }
}
