/** The ReAct loop: trim the history, ask the model, dispatch its tool calls, feed the replies
    back, until the model stops, the budget is spent or the run is cancelled. */
module React {
  import opened Wrappers
  import opened Messages
  import opened History
  import Dispatch

  datatype CompactionConfig = CompactionConfig(maxContextTokens: nat, triggerAtPct: nat, keepRecent: nat)

  datatype AgentConfig = AgentConfig(
    maxIterations: nat, historyWindow: nat, compaction: Option<CompactionConfig>,
    gate: Dispatch.Gate, toolbox: set<string>)

  datatype Chunk = Chunk(delta: string, done: bool, calls: seq<ToolCall>)

  datatype StreamItem = Item(chunk: Chunk) | Broken(message: string)

  datatype Reply = Refused(message: string) | Stream(items: seq<StreamItem>)

  /** Everything the loop cannot see into, as arbitrary functions: the token estimate, the
      summariser and the model (by iteration), the n-th look at the cancellation token, the
      interleaving of each dispatch, and the text a tool outcome is rendered to. */
  datatype World = World(
    estimate: seq<Message> -> nat,
    summarise: nat -> seq<Message> -> Summary,
    model: (nat, seq<Message>) -> Reply,
    cancelled: nat -> bool,
    schedule: (nat, seq<ToolCall>) -> seq<Dispatch.Step>,
    render: Dispatch.Outcome -> string)
  {
    /** Each dispatch runs to its end (DispatchSafety.NeverStuck: it always can). */
    ghost predicate Valid(cfg: AgentConfig) {
      forall i, calls :: Dispatch.Complete(Dispatch.Config(calls, cfg.toolbox, cfg.gate), schedule(i, calls))
    }
  }

  datatype StopReason = Completed | MaxIterations | Cancelled

  datatype AgentEvent =
    | TextDelta(delta: string)
    | Tool(event: Dispatch.Event)
    | IterationCompleted(iteration: nat)
    | Done(stop: StopReason)
    | Error(message: string)

  datatype RunResult =
    | Finished(stop: StopReason, messages: seq<Message>, iterations: nat)
    | Failed(message: string)

  /** The calls of a dispatched turn, and the state in which the dispatch ended. */
  datatype DispatchRecord = DispatchRecord(calls: seq<ToolCall>, end: Dispatch.State)

  /** What (part of) a run did on the way. `turns` counts the model turns collected,
      `compactions` the successful ones, `dispatches` the tool dispatches and how each ended. */
  datatype Work = Work(events: seq<AgentEvent>, requests: seq<seq<Message>>, dispatches: seq<DispatchRecord>,
                       compactions: nat, turns: nat)

  datatype Trace = Trace(result: RunResult, work: Work)

  // ---- one model turn --------------------------------------------------------------------

  datatype Turn = Turn(text: string, calls: seq<ToolCall>)

  datatype Collected = Got(turn: Turn) | Broke(message: string)

  function Collect(items: seq<StreamItem>, acc: Turn): (Collected, seq<AgentEvent>)
    decreases |items|
  {
    if items == [] then (Got(acc), [])
    else match items[0]
      case Broken(message) => (Broke(message), [Error(message)])
      case Item(chunk) =>
        var acc1 := Turn(acc.text + chunk.delta, if chunk.done then chunk.calls else acc.calls);
        var (got, events) := Collect(items[1..], acc1);
        (got, (if chunk.delta == "" then [] else [TextDelta(chunk.delta)]) + events)
  }

  /** A whole model call. A refused one reports its error from a task of its own; that task
      holds the event channel open, so its event comes last on a stream that then ends. */
  function CollectReply(reply: Reply): (Collected, seq<AgentEvent>) {
    match reply
    case Refused(message) => (Broke(message), [Error(message)])
    case Stream(items) => Collect(items, Turn("", []))
  }

  method CollectModelTurn(reply: Reply) returns (got: Collected, events: seq<AgentEvent>)
    ensures (got, events) == CollectReply(reply)
  {
    if reply.Refused? { return Broke(reply.message), [Error(reply.message)]; }
    var items := reply.items;
    var text, calls := "", [];
    events := [];
    ghost var whole := Collect(items, Turn("", []));
    assert items[0..] == items;
    for i := 0 to |items|
      invariant Collect(items[i..], Turn(text, calls)).0 == whole.0
      invariant events + Collect(items[i..], Turn(text, calls)).1 == whole.1
    {
      assert items[i..][0] == items[i] && items[i..][1..] == items[i + 1..];
      match items[i]
      case Broken(message) =>
        assert events + [Error(message)] == whole.1;
        events := events + [Error(message)];
        return Broke(message), events;
      case Item(chunk) =>
        assert chunk.delta == "" ==> text + chunk.delta == text;
        ghost var rest := Collect(items[i + 1..],
          Turn(text + chunk.delta, if chunk.done then chunk.calls else calls)).1;
        assert events + ([TextDelta(chunk.delta)] + rest) == events + [TextDelta(chunk.delta)] + rest;
        if chunk.delta != "" {
          text := text + chunk.delta;
          events := events + [TextDelta(chunk.delta)];
        } else {
          assert [] + rest == rest;
        }
        if chunk.done { calls := chunk.calls; }
    }
    assert items[|items|..] == [] && events + [] == events;
    got := Got(Turn(text, calls));
  }

  function TextOf(events: seq<AgentEvent>): string {
    if events == [] then ""
    else (if events[0].TextDelta? then events[0].delta else "") + TextOf(events[1..])
  }

  /** The calls of the last chunk marked done, if any. */
  function LastCalls(items: seq<StreamItem>, default: seq<ToolCall>): seq<ToolCall> {
    if items == [] then default
    else LastCalls(items[1..],
                   if items[0].Item? && items[0].chunk.done then items[0].chunk.calls else default)
  }

  predicate Unbroken(items: seq<StreamItem>) { forall i :: 0 <= i < |items| ==> items[i].Item? }

  /** The streamed deltas are never empty and concatenate to the turn's text; its calls are
      those of the last done chunk; a turn is collected exactly when the stream never broke. */
  lemma {:induction false} CollectedTurn(items: seq<StreamItem>, acc: Turn)
    ensures var (got, events) := Collect(items, acc);
            && (got.Got? <==> Unbroken(items))
            && (got.Got? ==>
                  && got.turn.text == acc.text + TextOf(events)
                  && got.turn.calls == LastCalls(items, acc.calls))
            && (forall i :: 0 <= i < |events| ==>
                  events[i].Error? || (events[i].TextDelta? && events[i].delta != ""))
            && (forall i :: 0 <= i < |events| && events[i].Error? ==> got.Broke? && i == |events| - 1)
    decreases |items|
  {
    if items != [] && items[0].Item? {
      var chunk := items[0].chunk;
      var acc1 := Turn(acc.text + chunk.delta, if chunk.done then chunk.calls else acc.calls);
      CollectedTurn(items[1..], acc1);
      assert Unbroken(items) <==> Unbroken(items[1..]);
      var (got, events) := Collect(items[1..], acc1);
      if chunk.delta != "" {
        assert ([TextDelta(chunk.delta)] + events)[1..] == events;
      } else {
        assert [] + events == events && acc.text + "" == acc.text;
      }
    }
  }

  function AssistantMessage(t: Turn): Message {
    if t.calls == [] then Message(Assistant, t.text, [], None)
    else if t.text == "" then Message(Assistant, "", t.calls, None)
    else Message(Assistant, t.text, t.calls, None)
  }

  function ToolMessage(w: World, call: ToolCall, outcome: Dispatch.Outcome): Message {
    Message(Role.Tool, w.render(outcome), [], Some(call.id))
  }

  function Replies(w: World, calls: seq<ToolCall>, outcomes: seq<Dispatch.Outcome>): seq<Message>
    requires |calls| == |outcomes|
  {
    seq(|calls|, i requires 0 <= i < |calls| => ToolMessage(w, calls[i], outcomes[i]))
  }

  // ---- the loop --------------------------------------------------------------------------

  function TriggerThreshold(c: CompactionConfig): nat {
    var product := c.maxContextTokens * c.triggerAtPct;
    (if product <= USIZE_MAX then product else USIZE_MAX) / 100
  }

  /** The history sent in iteration `i`, and whether a compaction succeeded. */
  function Trimmed(cfg: AgentConfig, w: World, i: nat, messages: seq<Message>): (seq<Message>, bool) {
    if cfg.compaction.Some? && w.estimate(messages) > TriggerThreshold(cfg.compaction.value) then
      var (out, outcome) := CompactResult(messages, cfg.compaction.value.keepRecent, w.summarise(i));
      (out, outcome.Compacted?)
    else (Slid(messages, cfg.historyWindow), false)
  }

  function Dispatched(cfg: AgentConfig, w: World, i: nat, calls: seq<ToolCall>): Dispatch.State
    requires w.Valid(cfg)
    ensures |Dispatched(cfg, w, i, calls).branches| == |calls|
  {
    var c := Dispatch.Config(calls, cfg.toolbox, cfg.gate);
    Dispatch.Run(c, Dispatch.Init(c), w.schedule(i, calls)).value
  }

  function ToolEvents(events: seq<Dispatch.Event>): seq<AgentEvent> {
    seq(|events|, i requires 0 <= i < |events| => AgentEvent.Tool(events[i]))
  }

  datatype Iteration =
    | Stop(trace: Trace)
    | Continue(work: Work, messages: seq<Message>)

  /** One pass round the loop: iteration `i` with `messages` as the history so far. */
  function Iterate(cfg: AgentConfig, w: World, i: nat, messages: seq<Message>): Iteration
    requires w.Valid(cfg)
  {
    if w.cancelled(2 * i) then
      Stop(Trace(Finished(Cancelled, messages, i), Work([Done(Cancelled)], [], [], 0, 0)))
    else if i >= cfg.maxIterations then
      Stop(Trace(Finished(MaxIterations, messages, i), Work([Done(MaxIterations)], [], [], 0, 0)))
    else
      var (request, compacted) := Trimmed(cfg, w, i, messages);
      Ask(cfg, w, i, request, Work([], [request], [], if compacted then 1 else 0, 0))
  }

  /** The model call of a pass and what follows; `work` is what the pass did so far. */
  function Ask(cfg: AgentConfig, w: World, i: nat, request: seq<Message>, work: Work): Iteration
    requires w.Valid(cfg)
  {
    var (got, events) := CollectReply(w.model(i, request));
    match got
    case Broke(message) => Stop(Trace(Failed(message), work.(events := events)))
    case Got(turn) => Act(cfg, w, i, turn, request, work.(events := events, turns := 1))
  }

  /** The rest of a pass once the model's turn is collected. */
  function Act(cfg: AgentConfig, w: World, i: nat, turn: Turn, request: seq<Message>, work: Work): Iteration
    requires w.Valid(cfg)
  {
    var ms := request + [AssistantMessage(turn)];
    if turn.calls == [] then
      Stop(Trace(Finished(Completed, ms, i + 1),
                 work.(events := work.events + [IterationCompleted(i), Done(Completed)])))
    else if w.cancelled(2 * i + 1) then
      Stop(Trace(Finished(Cancelled, ms, i + 1), work.(events := work.events + [Done(Cancelled)])))
    else
      var s := Dispatched(cfg, w, i, turn.calls);
      var c := Dispatch.Config(turn.calls, cfg.toolbox, cfg.gate);
      Continue(work.(events := work.events + ToolEvents(s.events) + [IterationCompleted(i)],
                     dispatches := [DispatchRecord(turn.calls, s)]),
               ms + Replies(w, turn.calls, Dispatch.Outcomes(c, s.branches)))
  }

  function WorkOf(pass: Iteration): Work {
    match pass
    case Stop(trace) => trace.work
    case Continue(work, _) => work
  }

  function Join(a: Work, b: Work): Work {
    Work(a.events + b.events, a.requests + b.requests, a.dispatches + b.dispatches,
         a.compactions + b.compactions, a.turns + b.turns)
  }

  /** The run from iteration `i` on. */
  function RunFrom(cfg: AgentConfig, w: World, i: nat, messages: seq<Message>): Trace
    requires w.Valid(cfg)
    decreases if i <= cfg.maxIterations then cfg.maxIterations - i else 0
  {
    match Iterate(cfg, w, i, messages)
    case Stop(trace) => trace
    case Continue(work, messages1) =>
      var rest := RunFrom(cfg, w, i + 1, messages1);
      Trace(rest.result, Join(work, rest.work))
  }

  // ---- the loop as the program runs it ---------------------------------------------------

  method AppendReplies(w: World, messages: seq<Message>, calls: seq<ToolCall>, outcomes: seq<Dispatch.Outcome>)
    returns (out: seq<Message>)
    requires |calls| == |outcomes|
    ensures out == messages + Replies(w, calls, outcomes)
  {
    out := messages;
    for k := 0 to |calls|
      invariant out == messages + Replies(w, calls[..k], outcomes[..k])
    {
      out := out + [ToolMessage(w, calls[k], outcomes[k])];
    }
    assert calls[..|calls|] == calls && outcomes[..|calls|] == outcomes;
  }

  method TrimHistory(cfg: AgentConfig, w: World, i: nat, messages: seq<Message>)
    returns (out: seq<Message>, compacted: bool)
    ensures (out, compacted) == Trimmed(cfg, w, i, messages)
  {
    if cfg.compaction.Some? && w.estimate(messages) > TriggerThreshold(cfg.compaction.value) {
      var outcome;
      out, outcome := Compact(messages, cfg.compaction.value.keepRecent, w.summarise(i));
      compacted := outcome.Compacted?;
    } else {
      out := Slide(messages, cfg.historyWindow);
      compacted := false;
    }
  }

  lemma JoinAssoc(a: Work, b: Work, c: Work)
    ensures Join(Join(a, b), c) == Join(a, Join(b, c))
  {
    assert (a.events + b.events) + c.events == a.events + (b.events + c.events);
    assert (a.requests + b.requests) + c.requests == a.requests + (b.requests + c.requests);
    assert (a.dispatches + b.dispatches) + c.dispatches == a.dispatches + (b.dispatches + c.dispatches);
  }

  method RunInner(cfg: AgentConfig, w: World, initial: seq<Message>) returns (t: Trace)
    requires w.Valid(cfg)
    ensures t == RunFrom(cfg, w, 0, initial)
  {
    var messages, i: nat, work := initial, 0, Work([], [], [], 0, 0);
    ghost var whole := RunFrom(cfg, w, 0, initial);
    while true
      invariant i <= cfg.maxIterations
      invariant var rest := RunFrom(cfg, w, i, messages);
                whole.result == rest.result && whole.work == Join(work, rest.work)
      decreases cfg.maxIterations - i
    {
      var pass := RunPass(cfg, w, i, messages);
      match pass
      case Stop(trace) => return Trace(trace.result, Join(work, trace.work));
      case Continue(done, messages1) =>
        JoinAssoc(work, done, RunFrom(cfg, w, i + 1, messages1).work);
        messages, work, i := messages1, Join(work, done), i + 1;
    }
  }

  method RunPass(cfg: AgentConfig, w: World, i: nat, history: seq<Message>) returns (pass: Iteration)
    requires w.Valid(cfg)
    ensures pass == Iterate(cfg, w, i, history)
  {
    if w.cancelled(2 * i) {
      return Stop(Trace(Finished(Cancelled, history, i), Work([Done(Cancelled)], [], [], 0, 0)));
    }
    if i >= cfg.maxIterations {
      return Stop(Trace(Finished(MaxIterations, history, i), Work([Done(MaxIterations)], [], [], 0, 0)));
    }
    var messages, compacted := TrimHistory(cfg, w, i, history);
    var work := Work([], [messages], [], if compacted then 1 else 0, 0);
    var got, events := CollectModelTurn(w.model(i, messages));
    work := work.(events := events);
    if got.Broke? { return Stop(Trace(Failed(got.message), work)); }
    work := work.(turns := 1);
    var turn := got.turn;
    ghost var request := messages;
    messages := messages + [AssistantMessage(turn)];
    if turn.calls == [] {
      work := work.(events := work.events + [IterationCompleted(i), Done(Completed)]);
      return Stop(Trace(Finished(Completed, messages, i + 1), work));
    }
    if w.cancelled(2 * i + 1) {
      work := work.(events := work.events + [Done(Cancelled)]);
      return Stop(Trace(Finished(Cancelled, messages, i + 1), work));
    }
    var s := Dispatched(cfg, w, i, turn.calls);
    var c := Dispatch.Config(turn.calls, cfg.toolbox, cfg.gate);
    messages := AppendReplies(w, messages, turn.calls, Dispatch.Outcomes(c, s.branches));
    work := work.(events := work.events + ToolEvents(s.events) + [IterationCompleted(i)],
                  dispatches := [DispatchRecord(turn.calls, s)]);
    return Continue(work, messages);
  }
}
