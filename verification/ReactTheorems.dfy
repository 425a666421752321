/** The ReAct loop over whole runs, against an arbitrary model, summariser, gate, operator and
    set of clients. */
module ReactTheorems {
  import opened Messages
  import opened History
  import opened React
  import opened Ledgers

  // ---- pairing of tool calls and replies -------------------------------------------------

  lemma AppendTail(ms: seq<Message>, more: seq<Message>)
    requires forall m :: m in more ==> !m.role.System?
    ensures TailOf(ms + more) == TailOf(ms) + more && Systems(ms + more) == Systems(ms)
  {
    KeepConcat(ms, more, false);
    KeepConcat(ms, more, true);
    KeepUniform(more, false);
  }

  lemma BlockPaired(w: World, t: Turn, outcomes: seq<Dispatch.Outcome>)
    requires |t.calls| == |outcomes|
    ensures Paired([AssistantMessage(t)] + Replies(w, t.calls, outcomes))
  {
    var block := [AssistantMessage(t)] + Replies(w, t.calls, outcomes);
    assert block[1..1 + |t.calls|] == Replies(w, t.calls, outcomes);
    assert block[1 + |t.calls|..] == [];
  }

  lemma TrimmedKeepsPairing(cfg: AgentConfig, w: World, i: nat, ms: seq<Message>)
    requires Paired(TailOf(ms))
    ensures Paired(TailOf(Trimmed(cfg, w, i, ms).0))
  {
    SlideKeepsPairing(ms, cfg.historyWindow);
    if cfg.compaction.Some? {
      CompactKeepsPairing(ms, cfg.compaction.value.keepRecent, w.summarise(i));
    }
  }

  /** A returned transcript: paired, except that a cancel between a model turn and its dispatch
      leaves exactly that turn, the last message, unanswered. */
  predicate WellEnded(r: RunResult) {
    r.Finished? ==>
      if r.stop.Cancelled? && r.messages != [] && r.messages[|r.messages| - 1].Calls()
      then Paired(TailOf(r.messages[..|r.messages| - 1]))
      else Paired(TailOf(r.messages))
  }

  predicate AllPaired(requests: seq<seq<Message>>) {
    forall i :: 0 <= i < |requests| ==> Paired(TailOf(requests[i]))
  }

  lemma UnpairedLast(ms: seq<Message>, m: Message)
    requires m.Calls()
    ensures !Paired(TailOf(ms + [m]))
  {
    AppendTail(ms, [m]);
    EndsOpen(TailOf(ms), m);
  }

  lemma {:induction false} EndsOpen(tail: seq<Message>, m: Message)
    requires m.Calls()
    ensures !Paired(tail + [m])
    decreases |tail|
  {
    var t := tail + [m];
    if tail != [] {
      var k := if t[0].Calls() then |t[0].calls| else 0;
      if 1 + k <= |tail| {
        assert t[1 + k..] == tail[1 + k..] + [m];
        EndsOpen(tail[1 + k..], m);
      } else if 1 + k == |t| {
        assert t[1..1 + k][k - 1] == m;
      }
    }
  }

  lemma ActRequests(cfg: AgentConfig, w: World, i: nat, turn: Turn, request: seq<Message>, work: Work)
    requires w.Valid(cfg)
    ensures WorkOf(Act(cfg, w, i, turn, request, work)).requests == work.requests
  {}

  lemma AskRequests(cfg: AgentConfig, w: World, i: nat, request: seq<Message>, work: Work)
    requires w.Valid(cfg)
    ensures WorkOf(Ask(cfg, w, i, request, work)).requests == work.requests
  {
    var (got, events) := CollectReply(w.model(i, request));
    if got.Got? { ActRequests(cfg, w, i, got.turn, request, work.(events := events, turns := 1)); }
  }

  /** A pass either stops before its request or makes exactly one, the trimmed history. */
  lemma PassRequests(cfg: AgentConfig, w: World, i: nat, ms: seq<Message>)
    requires w.Valid(cfg)
    ensures WorkOf(Iterate(cfg, w, i, ms)).requests ==
            if w.cancelled(2 * i) || i >= cfg.maxIterations then [] else [Trimmed(cfg, w, i, ms).0]
  {
    var (request, compacted) := Trimmed(cfg, w, i, ms);
    AskRequests(cfg, w, i, request, Work([], [request], [], if compacted then 1 else 0, 0));
  }

  /** A pass that stopped did so well; one that goes on left a paired history. */
  predicate PassPaired(it: Iteration) {
    match it
    case Stop(trace) => WellEnded(trace.result)
    case Continue(_, messages) => Paired(TailOf(messages))
  }

  lemma ActKeepsPairing(cfg: AgentConfig, w: World, i: nat, turn: Turn, request: seq<Message>, work: Work)
    requires w.Valid(cfg) && Paired(TailOf(request))
    ensures PassPaired(Act(cfg, w, i, turn, request, work))
  {
    var last := AssistantMessage(turn);
    AppendTail(request, [last]);
    assert (request + [last])[..|request|] == request;
    if turn.calls == [] {
      PairedConcat(TailOf(request), [last]);
    } else {
      var s := Dispatched(cfg, w, i, turn.calls);
      AnsweredBlock(cfg, w, turn, request,
                    Dispatch.Outcomes(Dispatch.Config(turn.calls, cfg.toolbox, cfg.gate), s.branches));
    }
  }

  lemma AnsweredBlock(cfg: AgentConfig, w: World, turn: Turn, request: seq<Message>, outcomes: seq<Dispatch.Outcome>)
    requires Paired(TailOf(request)) && |outcomes| == |turn.calls|
    ensures Paired(TailOf(request + [AssistantMessage(turn)] + Replies(w, turn.calls, outcomes)))
  {
    var last, replies := AssistantMessage(turn), Replies(w, turn.calls, outcomes);
    BlockPaired(w, turn, outcomes);
    PairedConcat(TailOf(request), [last] + replies);
    AppendTail(request, [last] + replies);
    assert request + [last] + replies == request + ([last] + replies);
  }

  lemma AskKeepsPairing(cfg: AgentConfig, w: World, i: nat, request: seq<Message>, work: Work)
    requires w.Valid(cfg) && Paired(TailOf(request))
    ensures PassPaired(Ask(cfg, w, i, request, work))
  {
    var (got, events) := CollectReply(w.model(i, request));
    if got.Got? { ActKeepsPairing(cfg, w, i, got.turn, request, work.(events := events, turns := 1)); }
  }

  lemma PairedEndsWell(ms: seq<Message>, stop: StopReason, i: nat)
    requires Paired(TailOf(ms))
    ensures WellEnded(Finished(stop, ms, i))
  {
    if ms != [] && ms[|ms| - 1].Calls() {
      assert ms[..|ms| - 1] + [ms[|ms| - 1]] == ms;
      UnpairedLast(ms[..|ms| - 1], ms[|ms| - 1]);
    }
  }

  lemma IterateKeepsPairing(cfg: AgentConfig, w: World, i: nat, ms: seq<Message>)
    requires w.Valid(cfg) && Paired(TailOf(ms))
    ensures PassPaired(Iterate(cfg, w, i, ms))
  {
    if w.cancelled(2 * i) || i >= cfg.maxIterations {
      PairedEndsWell(ms, Cancelled, i);
      PairedEndsWell(ms, MaxIterations, i);
    } else {
      TrimmedKeepsPairing(cfg, w, i, ms);
      var (request, compacted) := Trimmed(cfg, w, i, ms);
      AskKeepsPairing(cfg, w, i, request, Work([], [request], [], if compacted then 1 else 0, 0));
    }
  }

  lemma PassRequestsPaired(cfg: AgentConfig, w: World, i: nat, ms: seq<Message>)
    requires w.Valid(cfg) && Paired(TailOf(ms))
    ensures AllPaired(WorkOf(Iterate(cfg, w, i, ms)).requests)
  {
    PassRequests(cfg, w, i, ms);
    TrimmedKeepsPairing(cfg, w, i, ms);
  }

  lemma GoesOnInTime(cfg: AgentConfig, w: World, i: nat, ms: seq<Message>)
    requires w.Valid(cfg) && Iterate(cfg, w, i, ms).Continue?
    ensures i < cfg.maxIterations
  {}

  /** From a paired history every request of the whole run is paired, whatever mix of slide,
      compaction and fallback trims it. */
  lemma {:induction false} RequestsArePaired(cfg: AgentConfig, w: World, i: nat, ms: seq<Message>)
    requires w.Valid(cfg) && Paired(TailOf(ms))
    ensures AllPaired(RunFrom(cfg, w, i, ms).work.requests)
    decreases if i <= cfg.maxIterations then cfg.maxIterations - i else 0
  {
    PassRequestsPaired(cfg, w, i, ms);
    IterateKeepsPairing(cfg, w, i, ms);
    var it := Iterate(cfg, w, i, ms);
    hide Iterate, Paired, TailOf;
    if it.Continue? {
      GoesOnInTime(cfg, w, i, ms);
      RequestsArePaired(cfg, w, i + 1, it.messages);
    }
  }

  /** And the transcript it returns is well ended. */
  lemma {:induction false} TranscriptEndsWell(cfg: AgentConfig, w: World, i: nat, ms: seq<Message>)
    requires w.Valid(cfg) && Paired(TailOf(ms))
    ensures WellEnded(RunFrom(cfg, w, i, ms).result)
    decreases if i <= cfg.maxIterations then cfg.maxIterations - i else 0
  {
    IterateKeepsPairing(cfg, w, i, ms);
    var it := Iterate(cfg, w, i, ms);
    hide Iterate, Paired, TailOf, WellEnded;
    if it.Continue? {
      GoesOnInTime(cfg, w, i, ms);
      TranscriptEndsWell(cfg, w, i + 1, it.messages);
    }
  }

  // ---- iteration counts and events -------------------------------------------------------

  function Labels(events: seq<AgentEvent>): seq<nat> {
    if events == [] then []
    else (if events[0].IterationCompleted? then [events[0].iteration] else []) + Labels(events[1..])
  }

  /** Neither an iteration mark nor a Done. */
  predicate Plain(events: seq<AgentEvent>) {
    forall i :: 0 <= i < |events| ==> !events[i].IterationCompleted? && !events[i].Done?
  }

  predicate NoDone(events: seq<AgentEvent>) { forall i :: 0 <= i < |events| ==> !events[i].Done? }

  lemma {:induction false} LabelsConcat(a: seq<AgentEvent>, b: seq<AgentEvent>)
    ensures Labels(a + b) == Labels(a) + Labels(b)
  {
    if a == [] {
      assert a + b == b;
    } else {
      var first := if a[0].IterationCompleted? then [a[0].iteration] else [];
      assert (a + b)[1..] == a[1..] + b;
      LabelsConcat(a[1..], b);
      assert first + (Labels(a[1..]) + Labels(b)) == first + Labels(a[1..]) + Labels(b);
    }
  }

  lemma {:induction false} LabelsPlain(events: seq<AgentEvent>)
    requires Plain(events)
    ensures Labels(events) == []
  {
    if events != [] { LabelsPlain(events[1..]); }
  }

  /** `labels` is i, i+1, i+2, ... */
  predicate Consecutive(labels: seq<nat>, i: nat) {
    forall k :: 0 <= k < |labels| ==> labels[k] == i + k
  }

  /** What the events of one pass look like. */
  predicate PassEvents(it: Iteration, i: nat) {
    match it
    case Continue(work, _) => NoDone(work.events) && Labels(work.events) == [i]
    case Stop(t) =>
      var events := t.work.events;
      match t.result
      case Failed(_) => Plain(events) && Labels(events) == []
      case Finished(stop, _, _) =>
        && events != [] && events[|events| - 1] == Done(stop) && NoDone(events[..|events| - 1])
        && Labels(events) == if stop.Completed? then [i] else []
  }

  lemma FinalEvents(events: seq<AgentEvent>, i: nat, stop: StopReason)
    requires Plain(events)
    ensures Labels(events + [IterationCompleted(i), Done(stop)]) == [i]
    ensures Labels(events + [Done(stop)]) == []
    ensures NoDone((events + [IterationCompleted(i), Done(stop)])[..|events| + 1])
    ensures NoDone((events + [Done(stop)])[..|events|])
  {
    LabelsPlain(events);
    LabelsConcat(events, [IterationCompleted(i), Done(stop)]);
    LabelsConcat(events, [Done(stop)]);
    assert [IterationCompleted(i), Done(stop)][1..] == [Done(stop)];
    assert Labels([Done(stop)]) == [];
  }

  lemma ContinuedEvents(events: seq<AgentEvent>, tools: seq<Dispatch.Event>, i: nat)
    requires Plain(events)
    ensures Labels(events + ToolEvents(tools) + [IterationCompleted(i)]) == [i]
    ensures NoDone(events + ToolEvents(tools) + [IterationCompleted(i)])
  {
    var plain := events + ToolEvents(tools);
    LabelsPlain(plain);
    LabelsConcat(plain, [IterationCompleted(i)]);
  }

  lemma ActEvents(cfg: AgentConfig, w: World, i: nat, turn: Turn, request: seq<Message>, work: Work)
    requires w.Valid(cfg) && Plain(work.events)
    ensures PassEvents(Act(cfg, w, i, turn, request, work), i)
  {
    FinalEvents(work.events, i, Completed);
    FinalEvents(work.events, i, Cancelled);
    ContinuedEvents(work.events, Dispatched(cfg, w, i, turn.calls).events, i);
  }

  lemma AskEvents(cfg: AgentConfig, w: World, i: nat, request: seq<Message>, work: Work)
    requires w.Valid(cfg) && work.events == []
    ensures PassEvents(Ask(cfg, w, i, request, work), i)
  {
    var reply := w.model(i, request);
    if reply.Stream? { CollectedTurn(reply.items, Turn("", [])); }
    var (got, events) := CollectReply(reply);
    LabelsPlain(events);
    if got.Got? { ActEvents(cfg, w, i, got.turn, request, work.(events := events, turns := 1)); }
  }

  lemma IterateEvents(cfg: AgentConfig, w: World, i: nat, ms: seq<Message>)
    requires w.Valid(cfg)
    ensures PassEvents(Iterate(cfg, w, i, ms), i)
  {
    if w.cancelled(2 * i) || i >= cfg.maxIterations {
      OnlyDone(i, Cancelled);
      OnlyDone(i, MaxIterations);
    } else {
      var (request, compacted) := Trimmed(cfg, w, i, ms);
      AskEvents(cfg, w, i, request, Work([], [request], [], if compacted then 1 else 0, 0));
    }
  }

  lemma OnlyDone(i: nat, stop: StopReason)
    ensures Labels([Done(stop)]) == [] && NoDone([Done(stop)][..0])
  {
    assert [Done(stop)][1..] == [];
  }

  /** What the counts and events of a run from iteration `i` on add up to. */
  predicate Accounted(t: Trace, i: nat, max: nat) {
    && i + |t.work.requests| <= max
    && t.work.turns <= |t.work.requests|
    && Consecutive(Labels(t.work.events), i)
    && (match t.result
        case Failed(_) => NoDone(t.work.events)
        case Finished(stop, _, iterations) =>
          var events := t.work.events;
          && iterations == i + t.work.turns && t.work.turns == |t.work.requests|
          && (stop.MaxIterations? ==> iterations == max)
          && events != [] && events[|events| - 1] == Done(stop) && NoDone(events[..|events| - 1]))
  }

  lemma AccountedJoin(work: Work, t: Trace, i: nat, max: nat)
    requires |work.requests| == work.turns == 1 && NoDone(work.events) && Labels(work.events) == [i]
    requires Accounted(t, i + 1, max)
    ensures Accounted(Trace(t.result, Join(work, t.work)), i, max)
  {
    LabelsConcat(work.events, t.work.events);
    var events := work.events + t.work.events;
    if t.result.Finished? {
      assert events[..|events| - 1] == work.events + t.work.events[..|t.work.events| - 1];
    }
  }

  lemma IterateCounts(cfg: AgentConfig, w: World, i: nat, ms: seq<Message>)
    requires w.Valid(cfg) && i <= cfg.maxIterations
    ensures var it := Iterate(cfg, w, i, ms);
            && (it.Continue? ==> i < cfg.maxIterations && |it.work.requests| == it.work.turns == 1)
            && (it.Stop? ==>
                  var work := it.trace.work;
                  && i + |work.requests| <= cfg.maxIterations && work.turns <= |work.requests|
                  && (it.trace.result.Finished? ==>
                        && it.trace.result.iterations == i + work.turns && work.turns == |work.requests|
                        && (it.trace.result.stop.MaxIterations? ==> i == cfg.maxIterations && work.turns == 0)))
  {}

  /** Over a whole run: at most maxIterations model calls; the reported iteration count is the
      number of model turns collected, on every exit; iteration marks are numbered without
      gaps; a finished run emits exactly one Done, as its last event, and a failed run none. */
  lemma {:induction false} RunCounts(cfg: AgentConfig, w: World, i: nat, ms: seq<Message>)
    requires w.Valid(cfg) && i <= cfg.maxIterations
    ensures Accounted(RunFrom(cfg, w, i, ms), i, cfg.maxIterations)
    decreases cfg.maxIterations - i
  {
    hide Iterate;
    IterateEvents(cfg, w, i, ms);
    IterateCounts(cfg, w, i, ms);
    var it := Iterate(cfg, w, i, ms);
    if it.Continue? {
      RunCounts(cfg, w, i + 1, it.messages);
      AccountedJoin(it.work, RunFrom(cfg, w, i + 1, it.messages), i, cfg.maxIterations);
    }
  }

  // ---- system messages, window, reach ----------------------------------------------------

  lemma TrimmedSystems(cfg: AgentConfig, w: World, i: nat, ms: seq<Message>)
    ensures var (out, compacted) := Trimmed(cfg, w, i, ms);
            |Systems(out)| == |Systems(ms)| + if compacted then 1 else 0
  {
    if cfg.historyWindow > 0 { SlidParts(ms, cfg.historyWindow); }
    if cfg.compaction.Some? {
      var keep := cfg.compaction.value.keepRecent;
      if CompactResult(ms, keep, w.summarise(i)).1.Compacted? {
        var split := CompactedShape(ms, keep, w.summarise(i));
      } else {
        NotCompactedShape(ms, keep, w.summarise(i));
      }
    }
  }

  lemma IterateSystems(cfg: AgentConfig, w: World, i: nat, ms: seq<Message>)
    requires w.Valid(cfg)
    ensures var it := Iterate(cfg, w, i, ms);
            && (it.Continue? ==> |Systems(it.messages)| == |Systems(ms)| + it.work.compactions)
            && (it.Stop? && it.trace.result.Finished? ==>
                  |Systems(it.trace.result.messages)| == |Systems(ms)| + it.trace.work.compactions)
  {
    TrimmedSystems(cfg, w, i, ms);
    var request := Trimmed(cfg, w, i, ms).0;
    var got := CollectReply(w.model(i, request)).0;
    if got.Got? {
      var turn := got.turn;
      var s := Dispatched(cfg, w, i, turn.calls);
      var outcomes := Dispatch.Outcomes(Dispatch.Config(turn.calls, cfg.toolbox, cfg.gate), s.branches);
      AppendTail(request, [AssistantMessage(turn)]);
      AppendTail(request + [AssistantMessage(turn)], Replies(w, turn.calls, outcomes));
    }
  }

  /** A run gains exactly one system message per successful compaction. */
  lemma {:induction false} RunSystems(cfg: AgentConfig, w: World, i: nat, ms: seq<Message>)
    requires w.Valid(cfg)
    ensures var t := RunFrom(cfg, w, i, ms);
            t.result.Finished? ==> |Systems(t.result.messages)| == |Systems(ms)| + t.work.compactions
    decreases if i <= cfg.maxIterations then cfg.maxIterations - i else 0
  {
    hide Iterate, Systems;
    IterateSystems(cfg, w, i, ms);
    var it := Iterate(cfg, w, i, ms);
    if it.Continue? { GoesOnInTime(cfg, w, i, ms); RunSystems(cfg, w, i + 1, it.messages); }
  }

  lemma PassWindow(cfg: AgentConfig, w: World, i: nat, ms: seq<Message>)
    requires w.Valid(cfg) && cfg.compaction.None? && cfg.historyWindow > 0
    ensures forall k :: 0 <= k < |WorkOf(Iterate(cfg, w, i, ms)).requests| ==>
              |TailOf(WorkOf(Iterate(cfg, w, i, ms)).requests[k])| <= cfg.historyWindow
  {
    hide Iterate, TailOf;
    PassRequests(cfg, w, i, ms);
    SlidParts(ms, cfg.historyWindow);
    var cut := TrimCut(TailOf(ms), cfg.historyWindow);
  }

  /** Without compaction no request carries more than the window's worth of tail. */
  lemma {:induction false} RunWindow(cfg: AgentConfig, w: World, i: nat, ms: seq<Message>, k: nat)
    requires w.Valid(cfg) && cfg.compaction.None? && cfg.historyWindow > 0
    requires k < |RunFrom(cfg, w, i, ms).work.requests|
    ensures |TailOf(RunFrom(cfg, w, i, ms).work.requests[k])| <= cfg.historyWindow
    decreases if i <= cfg.maxIterations then cfg.maxIterations - i else 0
  {
    hide Iterate, TailOf;
    PassWindow(cfg, w, i, ms);
    var it := Iterate(cfg, w, i, ms);
    var request := RunFrom(cfg, w, i, ms).work.requests[k];
    if k < |WorkOf(it).requests| {
      assert request == WorkOf(it).requests[k];
    } else {
      GoesOnInTime(cfg, w, i, ms);
      var rest := k - |it.work.requests|;
      assert request == RunFrom(cfg, w, i + 1, it.messages).work.requests[rest];
      RunWindow(cfg, w, i + 1, it.messages, rest);
    }
  }

  /** Each record is of a complete dispatch under this configuration. */
  ghost predicate Genuine(cfg: AgentConfig, records: seq<DispatchRecord>) {
    forall k :: 0 <= k < |records| ==> IsDispatch(cfg.gate, cfg.toolbox, records[k].calls, records[k].end)
  }

  lemma ActIsGenuine(cfg: AgentConfig, w: World, i: nat, turn: Turn, request: seq<Message>, work: Work)
    requires w.Valid(cfg) && work.dispatches == []
    ensures Genuine(cfg, WorkOf(Act(cfg, w, i, turn, request, work)).dispatches)
  {
    assert Dispatch.Complete(Dispatch.Config(turn.calls, cfg.toolbox, cfg.gate), w.schedule(i, turn.calls));
  }

  lemma AskIsGenuine(cfg: AgentConfig, w: World, i: nat, request: seq<Message>, work: Work)
    requires w.Valid(cfg) && work.dispatches == []
    ensures Genuine(cfg, WorkOf(Ask(cfg, w, i, request, work)).dispatches)
  {
    var (got, events) := CollectReply(w.model(i, request));
    if got.Got? { ActIsGenuine(cfg, w, i, got.turn, request, work.(events := events, turns := 1)); }
  }

  lemma PassIsGenuine(cfg: AgentConfig, w: World, i: nat, ms: seq<Message>)
    requires w.Valid(cfg)
    ensures Genuine(cfg, WorkOf(Iterate(cfg, w, i, ms)).dispatches)
  {
    if !w.cancelled(2 * i) && i < cfg.maxIterations {
      var (request, compacted) := Trimmed(cfg, w, i, ms);
      AskIsGenuine(cfg, w, i, request, Work([], [request], [], if compacted then 1 else 0, 0));
    }
  }

  lemma {:induction false} RunIsGenuine(cfg: AgentConfig, w: World, i: nat, ms: seq<Message>)
    requires w.Valid(cfg)
    ensures Genuine(cfg, RunFrom(cfg, w, i, ms).work.dispatches)
    decreases if i <= cfg.maxIterations then cfg.maxIterations - i else 0
  {
    PassIsGenuine(cfg, w, i, ms);
    var it := Iterate(cfg, w, i, ms);
    if it.Continue? { RunIsGenuine(cfg, w, i + 1, it.messages); }
  }

  /** The ledger of several dispatches, one after the other. */
  ghost function LedgerOver(cfg: AgentConfig, records: seq<DispatchRecord>): Ledger
    requires Genuine(cfg, records)
  {
    if records == [] then NO_LEDGER
    else
      assert IsDispatch(cfg.gate, cfg.toolbox, records[0].calls, records[0].end);
      DispatchAccounts(cfg.gate, cfg.toolbox, records[0].calls, records[0].end);
      Merge(LedgerOf(Dispatch.Config(records[0].calls, cfg.toolbox, cfg.gate), records[0].end),
            LedgerOver(cfg, records[1..]))
  }

  lemma {:induction false} LedgerAccounts(cfg: AgentConfig, records: seq<DispatchRecord>)
    requires Genuine(cfg, records)
    ensures Accounts(cfg.gate, cfg.toolbox, LedgerOver(cfg, records))
    ensures |LedgerOver(cfg, records).dispatched| == |records|
    ensures forall k :: 0 <= k < |records| ==> LedgerOver(cfg, records).dispatched[k] == records[k].calls
  {
    if records != [] {
      var r := records[0];
      assert IsDispatch(cfg.gate, cfg.toolbox, r.calls, r.end);
      DispatchAccounts(cfg.gate, cfg.toolbox, r.calls, r.end);
      LedgerAccounts(cfg, records[1..]);
      MergeAccounts(cfg.gate, cfg.toolbox, LedgerOf(Dispatch.Config(r.calls, cfg.toolbox, cfg.gate), r.end),
                    LedgerOver(cfg, records[1..]));
    }
  }

  /** The ledger of a whole run. */
  ghost function RunLedger(cfg: AgentConfig, w: World, ms: seq<Message>): Ledger
    requires w.Valid(cfg)
  {
    RunIsGenuine(cfg, w, 0, ms);
    LedgerOver(cfg, RunFrom(cfg, w, 0, ms).work.dispatches)
  }

  /** Over a whole run, with any model output and any gate: every call that reached a client was
      let through by the gate or the operator and names a tool of the toolbox, and under a
      consult gate a read-only one; it reached it at most as often as the model asked for it
      within the limit, summed over all dispatched turns; the gate was asked about exactly the
      within-limit calls it must be asked about; and the observer was told of exactly the
      within-limit calls denied outright, once each. */
  lemma RunAccounts(cfg: AgentConfig, w: World, ms: seq<Message>)
    requires w.Valid(cfg)
    ensures Accounts(cfg.gate, cfg.toolbox, RunLedger(cfg, w, ms))
  {
    RunIsGenuine(cfg, w, 0, ms);
    LedgerAccounts(cfg, RunFrom(cfg, w, 0, ms).work.dispatches);
  }

  // ---- worlds exist ----------------------------------------------------------------------

  lemma CompletionExists(c: Dispatch.Config)
    ensures exists steps :: Dispatch.Complete(c, steps)
  {
    DispatchSafety.InitInv(c, 0);
    var steps := DispatchSafety.NeverStuck(c, Dispatch.Init(c));
    assert Dispatch.Complete(c, steps);
  }

  ghost function SomeCompletion(c: Dispatch.Config): (steps: seq<Dispatch.Step>)
    ensures Dispatch.Complete(c, steps)
  {
    CompletionExists(c);
    var steps :| Dispatch.Complete(c, steps);
    steps
  }

  /** Whatever the model, the summariser, the estimate, the cancellations and the rendering do,
      there are dispatch schedules that make them a world the theorems speak about. */
  lemma ValidWorldExists(cfg: AgentConfig, w: World) returns (valid: World)
    ensures valid.Valid(cfg) && valid == w.(schedule := valid.schedule)
  {
    valid := w.(schedule := (i, calls) => SomeCompletion(Dispatch.Config(calls, cfg.toolbox, cfg.gate)));
  }
}
