/** What a run of the ReAct loop writes into its transcript and onto its event stream, pass by pass,
    in terms of what the model streamed and the tools returned. */
module Transcripts {
  import opened Wrappers
  import opened Messages
  import opened History
  import opened React
  import ReactTheorems
  import Dispatch
  import DispatchOutcomes

  // ---- one pass --------------------------------------------------------------------------

  function MessagesOf(pass: Iteration): seq<Message> {
    match pass
    case Continue(_, messages) => messages
    case Stop(trace) => if trace.result.Finished? then trace.result.messages else []
  }

  lemma {:induction false} TextConcat(a: seq<AgentEvent>, b: seq<AgentEvent>)
    ensures TextOf(a + b) == TextOf(a) + TextOf(b)
  {
    if a == [] {
      assert a + b == b;
    } else {
      var first := if a[0].TextDelta? then a[0].delta else "";
      assert (a + b)[1..] == a[1..] + b;
      TextConcat(a[1..], b);
      assert first + (TextOf(a[1..]) + TextOf(b)) == first + TextOf(a[1..]) + TextOf(b);
    }
  }

  lemma {:induction false} NoText(events: seq<AgentEvent>)
    requires forall k :: 0 <= k < |events| ==> !events[k].TextDelta?
    ensures TextOf(events) == ""
  {
    if events != [] { NoText(events[1..]); }
  }

  lemma TextThen(events: seq<AgentEvent>, more: seq<AgentEvent>)
    requires forall k :: 0 <= k < |more| ==> !more[k].TextDelta?
    ensures TextOf(events + more) == TextOf(events)
  {
    TextConcat(events, more);
    NoText(more);
  }

  /** The message a pass appends for the model's turn: all the text it streamed, and the calls of its
      last done chunk. */
  predicate SpeaksFor(m: Message, events: seq<AgentEvent>, items: seq<StreamItem>) {
    m == Message(Assistant, TextOf(events), LastCalls(items, []), None)
  }

  /** Message `k` of the replies answers call `k`, with what is reported as its outcome. */
  predicate Answers(w: World, reply: Message, end: Dispatch.State, calls: seq<ToolCall>, k: nat)
    requires k < |calls| <= |end.events|
  {
    var e := end.events[|end.events| - |calls| + k];
    && e.Finished? && e.call == calls[k]
    && reply == Message(Role.Tool, w.render(e.outcome), [], Some(calls[k].id))
  }

  predicate AllAnswered(w: World, replies: seq<Message>, end: Dispatch.State, calls: seq<ToolCall>) {
    && |replies| == |calls| <= |end.events|
    && forall k :: 0 <= k < |calls| ==> Answers(w, replies[k], end, calls, k)
  }

  predicate Appends(w: World, pass: Iteration, request: seq<Message>, items: seq<StreamItem>) {
    var work, messages, calls := WorkOf(pass), MessagesOf(pass), LastCalls(items, []);
    && |request| < |messages| && messages[..|request|] == request
    && SpeaksFor(messages[|request|], work.events, items)
    && (pass.Stop? ==> |messages| == |request| + 1)
    && (pass.Continue? ==>
          && |work.dispatches| == 1 && work.dispatches[0].calls == calls
          && AllAnswered(w, messages[|request| + 1..], work.dispatches[0].end, calls))
  }

  lemma StopAppends(cfg: AgentConfig, w: World, i: nat, turn: Turn, request: seq<Message>, work: Work,
                    items: seq<StreamItem>)
    requires w.Valid(cfg) && turn.text == TextOf(work.events) && turn.calls == LastCalls(items, [])
    requires turn.calls == [] || w.cancelled(2 * i + 1)
    ensures Appends(w, Act(cfg, w, i, turn, request, work), request, items)
  {
    TextThen(work.events, [IterationCompleted(i), Done(Completed)]);
    TextThen(work.events, [Done(Cancelled)]);
    var messages := MessagesOf(Act(cfg, w, i, turn, request, work));
    assert messages[..|request|] == request;
  }

  lemma ReplyAnswers(c: Dispatch.Config, steps: seq<Dispatch.Step>, w: World, k: nat)
    requires Dispatch.Complete(c, steps) && k < |c.calls|
    ensures var end := Dispatch.Run(c, Dispatch.Init(c), steps).value;
            && |c.calls| <= |end.events|
            && Answers(w, Replies(w, c.calls, Dispatch.Outcomes(c, end.branches))[k], end, c.calls, k)
  {
    hide Dispatch.Next, DispatchOutcomes.Told, Dispatch.OutcomeOf;
    DispatchOutcomes.OutcomesTold(c, steps, k);
  }

  lemma RepliesAnswer(cfg: AgentConfig, w: World, i: nat, calls: seq<ToolCall>)
    requires w.Valid(cfg) && calls != []
    ensures var end := Dispatched(cfg, w, i, calls);
            var c := Dispatch.Config(calls, cfg.toolbox, cfg.gate);
            AllAnswered(w, Replies(w, calls, Dispatch.Outcomes(c, end.branches)), end, calls)
  {
    var c, steps := Dispatch.Config(calls, cfg.toolbox, cfg.gate), w.schedule(i, calls);
    assert Dispatch.Complete(c, steps);
    hide Answers, Dispatch.Next, Dispatch.Outcomes, Dispatch.Complete;
    ReplyAnswers(c, steps, w, 0);
    forall k | 0 <= k < |calls|
      ensures Answers(w, Replies(w, calls, Dispatch.Outcomes(c, Dispatched(cfg, w, i, calls).branches))[k],
                      Dispatched(cfg, w, i, calls), calls, k)
    {
      ReplyAnswers(c, steps, w, k);
    }
  }

  lemma Behind(request: seq<Message>, m: Message, replies: seq<Message>)
    ensures var messages := request + [m] + replies;
            && messages[..|request|] == request && messages[|request|] == m && messages[|request| + 1..] == replies
  {}

  lemma ContinueAppends(cfg: AgentConfig, w: World, i: nat, turn: Turn, request: seq<Message>, work: Work,
                        items: seq<StreamItem>)
    requires w.Valid(cfg) && turn.text == TextOf(work.events) && turn.calls == LastCalls(items, [])
    requires turn.calls != [] && !w.cancelled(2 * i + 1)
    ensures Appends(w, Act(cfg, w, i, turn, request, work), request, items)
  {
    var end := Dispatched(cfg, w, i, turn.calls);
    TextThen(work.events, ToolEvents(end.events) + [IterationCompleted(i)]);
    assert work.events + ToolEvents(end.events) + [IterationCompleted(i)]
           == work.events + (ToolEvents(end.events) + [IterationCompleted(i)]);
    RepliesAnswer(cfg, w, i, turn.calls);
    hide AllAnswered, Dispatched, LastCalls, TextOf, Replies, ToolEvents, Dispatch.Outcomes;
    var c := Dispatch.Config(turn.calls, cfg.toolbox, cfg.gate);
    Behind(request, AssistantMessage(turn), Replies(w, turn.calls, Dispatch.Outcomes(c, end.branches)));
  }

  // ---- the whole pass --------------------------------------------------------------------

  /** What is sent to the model in iteration `i`: compacted, if compaction is on and more than its
      share of the context is taken, in whole tokens and with the product saturating at 64 bits;
      else slid. */
  lemma RequestIs(cfg: AgentConfig, w: World, i: nat, ms: seq<Message>)
    requires w.Valid(cfg) && !w.cancelled(2 * i) && i < cfg.maxIterations
    ensures var requests := WorkOf(Iterate(cfg, w, i, ms)).requests;
            && |requests| == 1
            && match cfg.compaction
               case None => requests[0] == Slid(ms, cfg.historyWindow)
               case Some(k) =>
                 var share := k.maxContextTokens * k.triggerAtPct;
                 var full := 100 * w.estimate(ms) > if share <= USIZE_MAX then share else USIZE_MAX;
                 requests[0] == if full then CompactResult(ms, k.keepRecent, w.summarise(i)).0
                                else Slid(ms, cfg.historyWindow)
  {
    ReactTheorems.PassRequests(cfg, w, i, ms);
  }

  predicate Speaks(w: World, pass: Iteration, i: nat, request: seq<Message>, items: seq<StreamItem>) {
    var calls := LastCalls(items, []);
    && Appends(w, pass, request, items) && WorkOf(pass).turns == 1
    && (pass.Continue? <==> calls != [] && !w.cancelled(2 * i + 1))
    && (pass.Stop? ==>
          && pass.trace.result.Finished? && pass.trace.result.iterations == i + 1
          && pass.trace.result.stop == if calls == [] then Completed else Cancelled)
    && EventsTold(pass, i)
  }

  predicate OnlyText(events: seq<AgentEvent>) { forall k :: 0 <= k < |events| ==> events[k].TextDelta? }

  /** The events of a pass: the streamed text; then, if it goes on, all that the dispatch reported and
      the iteration mark; if it completes the run, the mark and the end; if it was cancelled
      before its tools, the end. */
  predicate EventsTold(pass: Iteration, i: nat) {
    var events, n := WorkOf(pass).events, |WorkOf(pass).events|;
    match pass
    case Continue(work, _) =>
      && |work.dispatches| == 1
      && var tools := ToolEvents(work.dispatches[0].end.events);
         && |tools| + 1 <= n && OnlyText(events[..n - 1 - |tools|])
         && events[n - 1 - |tools|..] == tools + [IterationCompleted(i)]
    case Stop(trace) =>
      trace.result.Finished? ==>
        if trace.result.stop.Completed?
        then n >= 2 && events[n - 2..] == [IterationCompleted(i), Done(Completed)] && OnlyText(events[..n - 2])
        else n >= 1 && events[n - 1..] == [Done(trace.result.stop)] && OnlyText(events[..n - 1])
  }

  predicate Fails(pass: Iteration, message: string) {
    && pass.Stop? && pass.trace.result == Failed(message)
    && var events := pass.trace.work.events;
       events != [] && events[|events| - 1] == Error(message) && OnlyText(events[..|events| - 1])
  }

  /** Where a stream breaks first, if it does. */
  function BreakOf(items: seq<StreamItem>): (m: Option<string>)
    ensures m.None? <==> Unbroken(items)
  {
    if items == [] then None
    else match items[0]
      case Broken(message) => Some(message)
      case Item(_) => BreakOf(items[1..])
  }

  lemma {:induction false} BreaksAs(items: seq<StreamItem>, acc: Turn)
    requires !Unbroken(items)
    ensures var (got, events) := Collect(items, acc);
            && got == Broke(BreakOf(items).value)
            && events != [] && events[|events| - 1] == Error(BreakOf(items).value) && OnlyText(events[..|events| - 1])
    decreases |items|
  {
    if items[0].Item? {
      var chunk := items[0].chunk;
      BreaksAs(items[1..], Turn(acc.text + chunk.delta, if chunk.done then chunk.calls else acc.calls));
    }
  }

  /** What a pass comes to once the model has answered. */
  predicate Replied(w: World, pass: Iteration, i: nat, request: seq<Message>, reply: Reply) {
    match reply
    case Refused(message) => Fails(pass, message)
    case Stream(items) =>
      match BreakOf(items)
      case Some(message) => Fails(pass, message)
      case None => Speaks(w, pass, i, request, items)
  }

  lemma ActEvents(cfg: AgentConfig, w: World, i: nat, turn: Turn, request: seq<Message>, work: Work)
    requires w.Valid(cfg) && OnlyText(work.events)
    ensures EventsTold(Act(cfg, w, i, turn, request, work), i)
  {
    hide Dispatched, Replies;
    var pass, text := Act(cfg, w, i, turn, request, work), work.events;
    var events := WorkOf(pass).events;
    if pass.Continue? {
      var tools := ToolEvents(Dispatched(cfg, w, i, turn.calls).events);
      assert events == text + (tools + [IterationCompleted(i)]);
    }
    assert events[..|text|] == text;
  }

  lemma ActTold(cfg: AgentConfig, w: World, i: nat, turn: Turn, request: seq<Message>, work: Work,
                items: seq<StreamItem>)
    requires w.Valid(cfg) && turn.text == TextOf(work.events) && turn.calls == LastCalls(items, [])
    requires OnlyText(work.events)
    requires work.turns == 1
    ensures Speaks(w, Act(cfg, w, i, turn, request, work), i, request, items)
  {
    ActEvents(cfg, w, i, turn, request, work);
    if turn.calls == [] || w.cancelled(2 * i + 1) {
      StopAppends(cfg, w, i, turn, request, work, items);
    } else {
      ContinueAppends(cfg, w, i, turn, request, work, items);
    }
    hide Appends, EventsTold;
  }

  lemma AskTold(cfg: AgentConfig, w: World, i: nat, request: seq<Message>, work: Work)
    requires w.Valid(cfg)
    ensures Replied(w, Ask(cfg, w, i, request, work), i, request, w.model(i, request))
  {
    var reply := w.model(i, request);
    if reply.Stream? {
      var (got, events) := Collect(reply.items, Turn("", []));
      CollectedTurn(reply.items, Turn("", []));
      if got.Got? {
        assert "" + TextOf(events) == TextOf(events);
        ActTold(cfg, w, i, got.turn, request, work.(events := events, turns := 1), reply.items);
      } else {
        BreaksAs(reply.items, Turn("", []));
      }
    }
    hide Speaks;
  }

  /** A pass, whatever the model does. It stops unasked when the run is cancelled or out of
      iterations. It fails when the model refuses or its stream breaks, with that error as the last
      event. Else it appends what the model streamed, goes on exactly when that asks for tools
      and the run is not cancelled by then, and answers each call with its reported outcome. */
  lemma PassTold(cfg: AgentConfig, w: World, i: nat, ms: seq<Message>)
    requires w.Valid(cfg)
    ensures var pass := Iterate(cfg, w, i, ms);
            if w.cancelled(2 * i) || i >= cfg.maxIterations then
              && pass.Stop? && pass.trace.work.requests == [] && pass.trace.work.turns == 0
              && pass.trace.result == Finished(if w.cancelled(2 * i) then Cancelled else MaxIterations, ms, i)
            else
              && |WorkOf(pass).requests| == 1
              && var request := WorkOf(pass).requests[0];
                 Replied(w, pass, i, request, w.model(i, request))
  {
    if !w.cancelled(2 * i) && i < cfg.maxIterations {
      ReactTheorems.PassRequests(cfg, w, i, ms);
      var (request, compacted) := Trimmed(cfg, w, i, ms);
      hide Replied;
      AskTold(cfg, w, i, request, Work([], [request], [], if compacted then 1 else 0, 0));
    }
  }

  // ---- whole runs ------------------------------------------------------------------------

  /** The events since the latest iteration mark. */
  function SinceMark(events: seq<AgentEvent>): seq<AgentEvent> {
    if events == [] || events[|events| - 1].IterationCompleted? then []
    else SinceMark(events[..|events| - 1]) + [events[|events| - 1]]
  }

  lemma {:induction false} SinceMarkJoin(a: seq<AgentEvent>, b: seq<AgentEvent>)
    requires a != [] && a[|a| - 1].IterationCompleted?
    ensures SinceMark(a + b) == SinceMark(b)
  {
    if b == [] {
      assert a + b == a;
    } else {
      assert (a + b)[..|a + b| - 1] == a + b[..|b| - 1];
      SinceMarkJoin(a, b[..|b| - 1]);
    }
  }

  lemma {:induction false} NoMark(events: seq<AgentEvent>)
    requires forall k :: 0 <= k < |events| ==> !events[k].IterationCompleted?
    ensures SinceMark(events) == events
  {
    if events != [] {
      NoMark(events[..|events| - 1]);
      assert events[..|events| - 1] + [events[|events| - 1]] == events;
    }
  }

  /** The last message of a completed run is the final answer: no calls, and all the text streamed
      since the previous iteration mark. */
  predicate EndsInAnswer(t: Trace) {
    t.result.Finished? && t.result.stop.Completed? ==>
      var messages, events := t.result.messages, t.work.events;
      && messages != [] && |events| >= 2
      && var last := messages[|messages| - 1];
         last == Message(Assistant, TextOf(SinceMark(events[..|events| - 2])), [], None)
  }

  lemma SpeaksAnswer(w: World, pass: Iteration, i: nat, request: seq<Message>, items: seq<StreamItem>)
    requires pass.Stop? && Speaks(w, pass, i, request, items)
    ensures EndsInAnswer(pass.trace)
  {
    var events := pass.trace.work.events;
    var n := |events| - 2;
    if pass.trace.result.stop.Completed? {
      AnswerText(events[..n], events[n..], i);
      assert events == events[..n] + events[n..];
    }
  }

  lemma AnswerText(events: seq<AgentEvent>, more: seq<AgentEvent>, i: nat)
    requires OnlyText(events) && more == [IterationCompleted(i), Done(Completed)]
    ensures TextOf(events + more) == TextOf(SinceMark(events))
  {
    TextThen(events, more);
    NoMark(events);
  }

  lemma PassEndsInAnswer(cfg: AgentConfig, w: World, i: nat, ms: seq<Message>)
    requires w.Valid(cfg) && Iterate(cfg, w, i, ms).Stop?
    ensures EndsInAnswer(Iterate(cfg, w, i, ms).trace)
  {
    PassTold(cfg, w, i, ms);
    var pass := Iterate(cfg, w, i, ms);
    hide Iterate, Speaks, SinceMark, TextOf;
    if pass.trace.work.requests != [] {
      var request := pass.trace.work.requests[0];
      var reply := w.model(i, request);
      if reply.Stream? && BreakOf(reply.items).None? { SpeaksAnswer(w, pass, i, request, reply.items); }
    }
  }

  lemma LaterAnswer(pass: Iteration, rest: Trace)
    requires pass.Continue? && pass.work.events != [] && EndsInAnswer(rest)
    requires pass.work.events[|pass.work.events| - 1].IterationCompleted?
    ensures EndsInAnswer(Trace(rest.result, Join(pass.work, rest.work)))
  {
    var a, b := pass.work.events, rest.work.events;
    if |b| >= 2 {
      assert (a + b)[..|a + b| - 2] == a + b[..|b| - 2];
      SinceMarkJoin(a, b[..|b| - 2]);
    }
  }

  /** The last message of a completed run is all the text of its last pass, without calls. */
  lemma {:induction false} FinalAnswer(cfg: AgentConfig, w: World, i: nat, ms: seq<Message>)
    requires w.Valid(cfg)
    ensures EndsInAnswer(RunFrom(cfg, w, i, ms))
    decreases if i <= cfg.maxIterations then cfg.maxIterations - i else 0
  {
    hide EndsInAnswer, Iterate;
    var pass := Iterate(cfg, w, i, ms);
    if pass.Stop? {
      PassEndsInAnswer(cfg, w, i, ms);
    } else {
      PassTold(cfg, w, i, ms);
      FinalAnswer(cfg, w, i + 1, pass.messages);
      LaterAnswer(pass, RunFrom(cfg, w, i + 1, pass.messages));
    }
  }

  /** What the loop says at the top of iteration `n`, when it stops there. */
  function AtTop(w: World, n: nat): StopReason { if w.cancelled(2 * n) then Cancelled else MaxIterations }

  /** Why a run stopped, read off what it returns: an answer without calls completes it; calls left
      unanswered, or else a fired token, cancel it; and only a run out of iterations says so. */
  predicate StopsFor(cfg: AgentConfig, w: World, t: Trace, i: nat, ms: seq<Message>) {
    t.result.Finished? ==>
      var stop, messages, n := t.result.stop, t.result.messages, t.result.iterations;
      && (stop.MaxIterations? ==> n >= cfg.maxIterations)
      && if t.work.turns == 0 then messages == ms && n == i && stop == AtTop(w, n)
         else messages != [] && StopsOn(w, messages[|messages| - 1], stop, n)
  }

  predicate StopsOn(w: World, last: Message, stop: StopReason, n: nat) {
    && (last.role.Assistant? && last.calls == [] ==> stop.Completed?)
    && (last.Calls() ==> stop.Cancelled? && n > 0 && w.cancelled(2 * n - 1))
    && (last.role.Tool? ==> stop == AtTop(w, n))
    && (last.role.Assistant? || last.role.Tool?)
  }

  predicate PassStopsFor(cfg: AgentConfig, w: World, pass: Iteration, i: nat, ms: seq<Message>) {
    && (pass.Stop? ==> StopsFor(cfg, w, pass.trace, i, ms))
    && (pass.Continue? ==>
          pass.work.turns == 1 && pass.messages != [] && pass.messages[|pass.messages| - 1].role.Tool?)
  }

  lemma LastReplyIsTool(w: World, reply: Message, end: Dispatch.State, calls: seq<ToolCall>, k: nat)
    requires k < |calls| <= |end.events| && Answers(w, reply, end, calls, k)
    ensures reply.role.Tool?
  {}

  lemma SpeaksStops(cfg: AgentConfig, w: World, pass: Iteration, i: nat, request: seq<Message>,
                    items: seq<StreamItem>, ms: seq<Message>)
    requires Speaks(w, pass, i, request, items)
    ensures PassStopsFor(cfg, w, pass, i, ms)
  {
    hide LastCalls, TextOf, EventsTold, Answers;
    if pass.Continue? {
      var replies, calls := pass.messages[|request| + 1..], LastCalls(items, []);
      var k := |calls| - 1;
      LastReplyIsTool(w, replies[k], pass.work.dispatches[0].end, calls, k);
      assert replies[k] == pass.messages[|pass.messages| - 1];
    }
  }

  lemma PassStops(cfg: AgentConfig, w: World, i: nat, ms: seq<Message>)
    requires w.Valid(cfg)
    ensures PassStopsFor(cfg, w, Iterate(cfg, w, i, ms), i, ms)
  {
    PassTold(cfg, w, i, ms);
    var pass := Iterate(cfg, w, i, ms);
    hide Iterate, Speaks;
    if WorkOf(pass).requests != [] {
      var request := WorkOf(pass).requests[0];
      var reply := w.model(i, request);
      if reply.Stream? && BreakOf(reply.items).None? { SpeaksStops(cfg, w, pass, i, request, reply.items, ms); }
    }
  }

  lemma {:induction false} RunStops(cfg: AgentConfig, w: World, i: nat, ms: seq<Message>)
    requires w.Valid(cfg)
    ensures StopsFor(cfg, w, RunFrom(cfg, w, i, ms), i, ms)
    decreases if i <= cfg.maxIterations then cfg.maxIterations - i else 0
  {
    PassStops(cfg, w, i, ms);
    hide StopsOn, Iterate;
    var pass := Iterate(cfg, w, i, ms);
    if pass.Continue? {
      RunStops(cfg, w, i + 1, pass.messages);
      LaterStops(cfg, w, pass, i, RunFrom(cfg, w, i + 1, pass.messages), ms);
    }
  }

  lemma LaterStops(cfg: AgentConfig, w: World, pass: Iteration, i: nat, rest: Trace, ms: seq<Message>)
    requires pass.Continue? && pass.work.turns == 1
    requires pass.messages != [] && pass.messages[|pass.messages| - 1].role.Tool?
    requires StopsFor(cfg, w, rest, i + 1, pass.messages)
    ensures StopsFor(cfg, w, Trace(rest.result, Join(pass.work, rest.work)), i, ms)
  {}
}
