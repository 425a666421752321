/** What each call of a dispatch comes back with, read off the steps of the run: what its gate, its
    operator and its client answered. */
module DispatchOutcomes {
  import opened Wrappers
  import opened Dispatch
  import DispatchSafety
  import Messages

  // ---- runs, one step longer -------------------------------------------------------------

  lemma {:induction false} RunSnoc(c: Config, s: State, steps: seq<Step>)
    requires |s.branches| == |c.calls| && steps != [] && Run(c, s, steps).Some?
    ensures var n := |steps| - 1;
            && Run(c, s, steps[..n]).Some?
            && Next(c, Run(c, s, steps[..n]).value, steps[n]) == Run(c, s, steps)
    decreases |steps|
  {
    hide Next;
    var n := |steps| - 1;
    if n == 0 {
      assert steps[1..] == [] && steps[..n] == [];
    } else {
      assert steps[1..][..n - 1] == steps[..n][1..];
      RunSnoc(c, Next(c, s, steps[0]).value, steps[1..]);
    }
  }

  // ---- what a branch has heard -----------------------------------------------------------

  predicate Going(p: Phase) {
    p.Cleared? || p.Calling? || (p.Settled? && (p.path.Ran? || p.path.NotInToolbox?))
  }

  /** Where a branch can be once its operator has decided. */
  predicate AfterDecision(d: Decision, p: Phase) {
    || (p.Deciding? && p.decision == d)
    || (if d.Allowed? then Going(p) else p.Settled? && p.path.NotDecided? && p.path.decision == d)
  }

  predicate Suspended(e: nat, p: Phase) {
    || p == Announcing(e) || p == Waiting(e) || (p.Deciding? && p.escalation == e) || Going(p)
    || p == Settled(WaitCancelled(e)) || (p.Settled? && p.path.NotDecided? && p.path.escalation == e)
  }

  /** Where a branch can be once its gate has answered. */
  predicate AfterVerdict(v: Verdict, p: Phase) {
    match v
    case Allow => Going(p)
    case Deny(reason) => p == Settled(GateDenied(reason))
    case Suspend(e) => Suspended(e, p)
  }

  /** Consult mode denies the call before anybody is asked. */
  predicate ConsultDenies(c: Config, i: nat)
    requires i < |c.calls|
  {
    c.gate.Consult? && c.calls[i].name !in c.gate.readOnly
  }

  /** The answers among the steps and the phase of branch `i` tell the same story. */
  ghost predicate Heard(c: Config, steps: seq<Step>, i: nat, p: Phase)
    requires i < |c.calls|
  {
    && (forall v :: GateReturns(i, v) in steps ==> AfterVerdict(v, p))
    && (forall d :: Decide(i, d) in steps ==> AfterDecision(d, p))
    && (forall r :: ClientReturns(i, r) in steps ==> p == Settled(Ran(r)))
    && (SeeCancel(i) in steps ==> p.Settled? && p.path.WaitCancelled?)
    && (ConsultDenies(c, i) ==>
          p.Fresh? || p.Denying? || p == Settled(OverLimit) || p == Settled(GateDenied(CONSULT_DENY_REASON)))
    && Answered(c, steps, i, p)
  }

  /** And the phase remembers an answer that was given. */
  ghost predicate Answered(c: Config, steps: seq<Step>, i: nat, p: Phase)
    requires i < |c.calls|
  {
    match p
    case Announcing(e) => GateReturns(i, Suspend(e)) in steps
    case Waiting(e) => GateReturns(i, Suspend(e)) in steps
    case Deciding(e, d) => GateReturns(i, Suspend(e)) in steps && Decide(i, d) in steps
    case Settled(GateDenied(reason)) =>
      GateReturns(i, Deny(reason)) in steps || ConsultDenies(c, i)
    case Settled(NotDecided(_, d)) => Decide(i, d) in steps && !d.Allowed?
    case Settled(WaitCancelled(_)) => SeeCancel(i) in steps
    case Settled(Ran(r)) => ClientReturns(i, r) in steps
    case Settled(NotInToolbox) => c.calls[i].name !in c.toolbox
    case Settled(OverLimit) => i >= MAX_TOOL_CALLS_PER_TURN
    case Denying => ConsultDenies(c, i)
    case _ => true
  }

  ghost predicate AllHeard(c: Config, steps: seq<Step>, s: State) {
    && |s.branches| == |c.calls|
    && forall i :: 0 <= i < |s.branches| ==> Heard(c, steps, i, s.branches[i].phase)
  }

  /** No step of its own among the steps yet. */
  ghost predicate Unheard(steps: seq<Step>, i: nat) {
    && (forall v :: GateReturns(i, v) !in steps) && (forall d :: Decide(i, d) !in steps)
    && (forall r :: ClientReturns(i, r) !in steps) && SeeCancel(i) !in steps
  }

  lemma FreshIsUnheard(c: Config, steps: seq<Step>, i: nat, p: Phase)
    requires i < |c.calls| && Heard(c, steps, i, p) && (p.Fresh? || p.Checking? || p.Denying?)
    ensures Unheard(steps, i)
  {}

  lemma OtherHeard(c: Config, steps: seq<Step>, i: nat, p: Phase, step: Step)
    requires i < |c.calls| && Heard(c, steps, i, p)
    requires step.GateReturns? || step.Decide? || step.ClientReturns? || step.SeeCancel? ==> step.i != i
    ensures Heard(c, steps + [step], i, p)
  {}

  lemma BeginHeard(c: Config, steps: seq<Step>, s: State, i: nat)
    requires i < |s.branches| == |c.calls| && s.branches[i].phase.Fresh? && Heard(c, steps, i, Fresh)
    ensures Heard(c, steps + [Begin(i)], i, Begun(c, s, i).branches[i].phase)
  {
    DispatchSafety.ScopeNamesTool(c.calls[i].name, if c.gate.Consult? then c.gate.readOnly else {});
    FreshIsUnheard(c, steps, i, Fresh);
  }

  lemma OwnHeard(c: Config, steps: seq<Step>, s: State, i: nat, step: Step)
    requires i < |s.branches| == |c.calls| && Heard(c, steps, i, s.branches[i].phase)
    requires BranchStep(c, s, i, step).Some? && step.i == i && !step.Begin?
    ensures Heard(c, steps + [step], i, BranchStep(c, s, i, step).value.branches[i].phase)
  {}

  lemma {:induction false} RunHeard(c: Config, steps: seq<Step>)
    requires Run(c, Init(c), steps).Some?
    ensures AllHeard(c, steps, Run(c, Init(c), steps).value)
    decreases |steps|
  {
    if steps != [] {
      var n := |steps| - 1;
      RunSnoc(c, Init(c), steps);
      RunHeard(c, steps[..n]);
      assert steps == steps[..n] + [steps[n]];
      StepHeard(c, steps[..n], Run(c, Init(c), steps[..n]).value, steps[n]);
    }
  }

  lemma StepHeard(c: Config, steps: seq<Step>, s: State, step: Step)
    requires AllHeard(c, steps, s) && Next(c, s, step).Some?
    ensures AllHeard(c, steps + [step], Next(c, s, step).value)
  {
    var s1 := Next(c, s, step).value;
    forall i | 0 <= i < |s1.branches| ensures Heard(c, steps + [step], i, s1.branches[i].phase) {
      var own := !step.EmitStarted? && !step.Launch? && !step.Cancel? && !step.Join? && !step.EmitFinished?;
      if own && step.i == i {
        if step.Begin? { BeginHeard(c, steps, s, i); } else { OwnHeard(c, steps, s, i, step); }
      } else {
        assert s1.branches[i] == s.branches[i];
        OtherHeard(c, steps, i, s.branches[i].phase, step);
      }
    }
  }

  // ---- what the call comes back with -----------------------------------------------------

  predicate EndsWith(text: string, suffix: string) {
    |suffix| <= |text| && text[|text| - |suffix|..] == suffix
  }

  predicate StartsWith(text: string, prefix: string) { |prefix| <= |text| && text[..|prefix|] == prefix }

  /** A call that never reached a client: no output, and an error that says why. */
  ghost predicate Refused(c: Config, steps: seq<Step>, i: nat, o: Outcome)
    requires i < |c.calls|
  {
    && !o.ok && o.output == "" && o.error.Some?
    && (i >= MAX_TOOL_CALLS_PER_TURN ==>
          StartsWith(o.error.value, "rejected: this turn requested " + Messages.Decimal(|c.calls|)))
    && (i < MAX_TOOL_CALLS_PER_TURN && ConsultDenies(c, i) ==> EndsWith(o.error.value, CONSULT_DENY_REASON))
    && (forall reason :: GateReturns(i, Deny(reason)) in steps ==> EndsWith(o.error.value, reason))
    && (forall reason :: Decide(i, Denied(reason)) in steps ==> EndsWith(o.error.value, reason))
    && (Decide(i, TimedOut) in steps ==> o.error == Some(TIMEOUT_ERROR))
    && (Decide(i, ChannelDropped) in steps ==> o.error == Some(DROPPED_ERROR))
    && (SeeCancel(i) in steps ==> o.error == Some(CANCELLED_ERROR))
    && (GateReturns(i, Allow) in steps || Decide(i, Allowed) in steps ==>
          EndsWith(o.error.value, "tool \"" + c.calls[i].name + "\" not in toolbox"))
  }

  /** The outcome of call `i` is what its client returned, if it reached one. */
  ghost predicate Told(c: Config, steps: seq<Step>, i: nat, o: Outcome)
    requires i < |c.calls|
  {
    && (forall text :: ClientReturns(i, ToolOk(text)) in steps ==> o == Outcome(true, text, None))
    && (forall text :: ClientReturns(i, ToolError(text)) in steps ==> o == Outcome(false, text, Some(text)))
    && (forall m :: ClientReturns(i, Transport(m)) in steps ==> o == Outcome(false, "", Some(m)))
    && ((forall r :: ClientReturns(i, r) !in steps) ==> Refused(c, steps, i, o))
  }

  lemma EndsInSuffix(a: string, b: string)
    ensures EndsWith(a + b, b) && StartsWith(a + b, a)
  {}

  lemma LimitText(c: Config, i: nat)
    requires i < |c.calls|
    ensures var o := OutcomeOf(c, i, OverLimit);
            o.error.Some? && StartsWith(o.error.value, "rejected: this turn requested " + Messages.Decimal(|c.calls|))
  {
    var start := "rejected: this turn requested " + Messages.Decimal(|c.calls|);
    assert OutcomeOf(c, i, OverLimit).error.value[..|start|] == start;
  }

  lemma RefusedTold(c: Config, steps: seq<Step>, i: nat, path: Path)
    requires i < |c.calls| && Heard(c, steps, i, Settled(path)) && !path.Ran?
    requires path.OverLimit? <==> i >= MAX_TOOL_CALLS_PER_TURN
    ensures Refused(c, steps, i, OutcomeOf(c, i, path))
  {
    hide Messages.Decimal;
    match path
    case GateDenied(reason) => EndsInSuffix("HOTL gate denied tool '" + c.calls[i].name + "': ", reason);
    case NotDecided(_, Denied(reason)) => EndsInSuffix("HotL suspended \U{2192} ", reason);
    case OverLimit => LimitText(c, i);
    case _ =>
  }

  lemma SettledTold(c: Config, steps: seq<Step>, i: nat, path: Path)
    requires i < |c.calls| && Heard(c, steps, i, Settled(path))
    requires path.OverLimit? <==> i >= MAX_TOOL_CALLS_PER_TURN
    ensures Told(c, steps, i, OutcomeOf(c, i, path))
  {
    if !path.Ran? {
      hide Refused, OutcomeOf;
      RefusedTold(c, steps, i, path);
    }
  }

  /** Every call of a complete dispatch comes back, and is reported as finished, with what its client
      returned; a call that reached no client with no output and an error that ends with the
      gate's or the operator's own reason, where there is one. */
  lemma OutcomesTold(c: Config, steps: seq<Step>, i: nat)
    requires Complete(c, steps) && i < |c.calls|
    ensures var s := Run(c, Init(c), steps).value;
            var o := Outcomes(c, s.branches)[i];
            && |s.events| >= |c.calls| && s.events[|s.events| - |c.calls| + i] == Finished(c.calls[i], o)
            && Told(c, steps, i, o)
  {
    hide Told, Next, DispatchSafety.Approved;
    var s := Run(c, Init(c), steps).value;
    DispatchSafety.EventOrder(c, steps);
    DispatchSafety.CallsExplained(c, steps, i);
    RunHeard(c, steps);
    SettledTold(c, steps, i, s.branches[i].phase.path);
  }

  // ---- what is announced -----------------------------------------------------------------

  /** A suspension event is about a call that its gate suspended; a resolution carries what its
      operator decided. */
  ghost predicate Announced(c: Config, steps: seq<Step>, e: Event) {
    match e
    case Pending(escalation, tool) =>
      exists i :: 0 <= i < |c.calls| && GateReturns(i, Suspend(escalation)) in steps && tool == c.calls[i].name
    case Resolved(escalation, resolution) =>
      exists i, d ::
        && Decide(i, d) in steps && GateReturns(i, Suspend(escalation)) in steps
        && (resolution.ResolvedAllow? <==> d.Allowed?) && (resolution.ResolvedTimeout? <==> d.TimedOut?)
    case _ => true
  }

  lemma AnnouncedLater(c: Config, steps: seq<Step>, e: Event, step: Step)
    requires Announced(c, steps, e)
    ensures Announced(c, steps + [step], e)
  {
    match e
    case Pending(escalation, tool) =>
      var i :| 0 <= i < |c.calls| && GateReturns(i, Suspend(escalation)) in steps && tool == c.calls[i].name;
      assert GateReturns(i, Suspend(escalation)) in steps + [step];
    case Resolved(escalation, resolution) =>
      var i, d :| && Decide(i, d) in steps && GateReturns(i, Suspend(escalation)) in steps
                  && (resolution.ResolvedAllow? <==> d.Allowed?) && (resolution.ResolvedTimeout? <==> d.TimedOut?);
      assert Decide(i, d) in steps + [step] && GateReturns(i, Suspend(escalation)) in steps + [step];
    case _ =>
  }

  lemma StepAnnounces(c: Config, steps: seq<Step>, s: State, step: Step)
    requires AllHeard(c, steps, s) && Next(c, s, step).Some?
    ensures var s1 := Next(c, s, step).value;
            || s1.events == s.events
            || (|s1.events| == |s.events| + 1 && s.events <= s1.events
                && Announced(c, steps + [step], s1.events[|s.events|]))
  {
    var s1 := Next(c, s, step).value;
    if step.Announce? {
      assert Heard(c, steps, step.i, s.branches[step.i].phase);
      assert GateReturns(step.i, Suspend(s.branches[step.i].phase.escalation)) in steps + [step];
    } else if step.AnnounceDecision? {
      var p := s.branches[step.i].phase;
      assert Heard(c, steps, step.i, p);
      assert Decide(step.i, p.decision) in steps + [step];
      assert GateReturns(step.i, Suspend(p.escalation)) in steps + [step];
    }
  }

  /** In every run: what the event stream says about suspensions is what the gate asked for and the
      operator decided, a timeout announced as one and an approval as one. */
  lemma {:induction false} SuspensionsTold(c: Config, steps: seq<Step>, k: nat)
    requires Run(c, Init(c), steps).Some? && k < |Run(c, Init(c), steps).value.events|
    ensures Announced(c, steps, Run(c, Init(c), steps).value.events[k])
    decreases |steps|
  {
    if steps != [] {
      var n := |steps| - 1;
      RunSnoc(c, Init(c), steps);
      var s := Run(c, Init(c), steps[..n]).value;
      RunHeard(c, steps[..n]);
      StepAnnounces(c, steps[..n], s, steps[n]);
      assert steps == steps[..n] + [steps[n]];
      if k < |s.events| {
        SuspensionsTold(c, steps[..n], k);
        AnnouncedLater(c, steps[..n], s.events[k], steps[n]);
      }
    }
  }

  /** The select of a waiting branch is biased: once the run is cancelled no operator is heard. */
  lemma {:induction false} CancelWins(c: Config, steps: seq<Step>, k: nat)
    requires Run(c, Init(c), steps).Some? && k < |steps|
    ensures Run(c, Init(c), steps).value.cancelled <==> Cancel in steps
    ensures steps[k].Decide? ==> Cancel !in steps[..k]
    ensures steps[k].SeeCancel? ==> Cancel in steps[..k]
    decreases |steps|
  {
    var n := |steps| - 1;
    RunSnoc(c, Init(c), steps);
    assert steps == steps[..n] + [steps[n]];
    if n > 0 {
      CancelWins(c, steps[..n], if k < n then k else 0);
      if k < n { assert steps[..n][..k] == steps[..k]; }
    }
  }
}
