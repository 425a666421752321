/** Parallel tool dispatch: one task per call, each consulting the gate, perhaps waiting for an
    operator, then invoking its client. A step runs one task from one `await` to the next;
    gates, operators and clients answer anything, at any time. */
module Dispatch {
  import opened Wrappers
  import opened Messages

  const MAX_TOOL_CALLS_PER_TURN: nat := 32
  const SCOPE_PREFIX := "tool_call."
  const CONSULT_DENY_REASON := "consult mode: write tools are disabled"
  const TIMEOUT_ERROR := "HotL suspended \U{2192} timeout: operator did not decide before expires_at"
  const DROPPED_ERROR := "HotL suspended \U{2192} registry channel dropped"
  const CANCELLED_ERROR := "HotL suspension cancelled by parent operation"

  /** The configured gate; `Consult` wraps an inner gate, or none, and may have an observer. */
  datatype Gate = NoGate | Plain | Consult(readOnly: set<string>, hasInner: bool, observed: bool)

  datatype Config = Config(calls: seq<ToolCall>, toolbox: set<string>, gate: Gate)

  datatype Verdict = Allow | Deny(reason: string) | Suspend(escalation: nat)

  /** How a suspension ticket resolves when the run is not cancelled first. */
  datatype Decision = Allowed | Denied(reason: string) | TimedOut | ChannelDropped

  datatype ClientResult = ToolOk(text: string) | ToolError(text: string) | Transport(message: string)

  /** How a branch ended. */
  datatype Path =
    | OverLimit
    | GateDenied(reason: string)
    | NotDecided(escalation: nat, decision: Decision)   // anything but Allowed
    | WaitCancelled(escalation: nat)
    | NotInToolbox
    | Ran(result: ClientResult)

  datatype Phase =
    | Fresh
    | Denying                                     // notifying the denial observer
    | Checking                                    // inside the gate
    | Announcing(escalation: nat)                 // about to emit HotlPending
    | Waiting(escalation: nat)                    // on the ticket
    | Deciding(escalation: nat, decision: Decision)  // about to emit HotlResolved
    | Cleared
    | Calling                                     // inside the client
    | Settled(path: Path)

  /** A branch, and what its gate and its operator said. */
  datatype Branch = Branch(phase: Phase, verdict: Option<Verdict>, decision: Option<Decision>)

  datatype Resolution = ResolvedAllow | ResolvedDeny | ResolvedTimeout

  datatype Outcome = Outcome(ok: bool, output: string, error: Option<string>)

  datatype Event =
    | Started(call: ToolCall)
    | Pending(escalation: nat, tool: string)
    | Resolved(escalation: nat, resolution: Resolution)
    | Finished(call: ToolCall, outcome: Outcome)
  {
    predicate Hotl() { Pending? || Resolved? }
  }

  datatype Stage = Starting(k: nat) | Racing | Finishing(k: nat)

  /** `checked`, `observed` and `invoked` log, by call index, the consultations of the wrapped
      (or only) gate, the denial notifications and the client invocations. */
  datatype State = State(
    stage: Stage, branches: seq<Branch>, cancelled: bool, events: seq<Event>,
    checked: seq<nat>, observed: seq<nat>, invoked: seq<nat>)

  datatype Step =
    | EmitStarted
    | Launch
    | Begin(i: nat)
    | Notified(i: nat)
    | GateReturns(i: nat, verdict: Verdict)
    | Announce(i: nat)
    | Decide(i: nat, decision: Decision)
    | SeeCancel(i: nat)
    | AnnounceDecision(i: nat)
    | Invoke(i: nat)
    | ClientReturns(i: nat, result: ClientResult)
    | Cancel
    | Join
    | EmitFinished

  function Init(c: Config): State {
    State(Starting(0), seq(|c.calls|, _ => Branch(Fresh, None, None)), false, [], [], [], [])
  }

  /** `ConsultGate::denied_tool`: the tool a consult gate must deny for this scope. */
  function DeniedTool(scope: string, readOnly: set<string>): Option<string> {
    if SCOPE_PREFIX <= scope then
      var tool := scope[|SCOPE_PREFIX|..];
      if tool in readOnly then None else Some(tool)
    else None
  }

  function Resolve(d: Decision): Resolution {
    match d
    case Allowed => ResolvedAllow
    case Denied(_) => ResolvedDeny
    case TimedOut => ResolvedTimeout
    case ChannelDropped => ResolvedDeny
  }

  function OutcomeOf(c: Config, i: nat, path: Path): Outcome
    requires i < |c.calls|
  {
    match path
    case OverLimit =>
      Outcome(false, "", Some("rejected: this turn requested " + Decimal(|c.calls|) + " tool calls; only the first "
        + Decimal(MAX_TOOL_CALLS_PER_TURN) + " run per turn. Re-issue the remaining calls in a follow-up turn."))
    case GateDenied(reason) =>
      Outcome(false, "", Some("HOTL gate denied tool '" + c.calls[i].name + "': " + reason))
    case NotDecided(_, Denied(reason)) => Outcome(false, "", Some("HotL suspended \U{2192} " + reason))
    case NotDecided(_, TimedOut) => Outcome(false, "", Some(TIMEOUT_ERROR))
    case NotDecided(_, _) => Outcome(false, "", Some(DROPPED_ERROR))
    case WaitCancelled(_) => Outcome(false, "", Some(CANCELLED_ERROR))
    case NotInToolbox => Outcome(false, "", Some("tool \"" + c.calls[i].name + "\" not in toolbox"))
    case Ran(ToolOk(text)) => Outcome(true, text, None)
    case Ran(ToolError(text)) => Outcome(false, text, Some(text))
    case Ran(Transport(message)) => Outcome(false, "", Some(message))
  }

  function PathOf(b: Branch): Path { if b.phase.Settled? then b.phase.path else NotInToolbox }

  /** The outcome vector, aligned with the calls. */
  function Outcomes(c: Config, branches: seq<Branch>): seq<Outcome>
    requires |branches| == |c.calls|
  {
    seq(|c.calls|, i requires 0 <= i < |c.calls| => OutcomeOf(c, i, PathOf(branches[i])))
  }

  function At(s: State, i: nat, b: Branch): State
    requires i < |s.branches|
  {
    s.(branches := s.branches[i := b])
  }

  function To(s: State, i: nat, phase: Phase): State
    requires i < |s.branches|
  {
    At(s, i, s.branches[i].(phase := phase))
  }

  function Emit(s: State, e: Event): State { s.(events := s.events + [e]) }

  /** The first stretch of a branch: the fan-out limit, then the gate. */
  function Begun(c: Config, s: State, i: nat): State
    requires i < |s.branches| == |c.calls|
  {
    var b := s.branches[i];
    if i >= MAX_TOOL_CALLS_PER_TURN then To(s, i, Settled(OverLimit))
    else
      match c.gate
      case NoGate => To(s, i, Cleared)
      case Plain => To(s, i, Checking).(checked := s.checked + [i])
      case Consult(readOnly, hasInner, observed) =>
        match DeniedTool(SCOPE_PREFIX + c.calls[i].name, readOnly)
        case Some(_) =>
          var denied := b.(verdict := Some(Deny(CONSULT_DENY_REASON)));
          if observed then At(s, i, denied.(phase := Denying)).(observed := s.observed + [i])
          else At(s, i, denied.(phase := Settled(GateDenied(CONSULT_DENY_REASON))))
        case None =>
          if hasInner then To(s, i, Checking).(checked := s.checked + [i])
          else At(s, i, b.(phase := Cleared, verdict := Some(Allow)))
  }

  function BranchStep(c: Config, s: State, i: nat, step: Step): (r: Option<State>)
    requires i < |s.branches| == |c.calls|
    ensures r.Some? ==> |r.value.branches| == |c.calls|
  {
    var b := s.branches[i];
    match (step, b.phase)
    case (Begin(_), Fresh) => Some(Begun(c, s, i))
    case (Notified(_), Denying) => Some(To(s, i, Settled(GateDenied(CONSULT_DENY_REASON))))
    case (GateReturns(_, v), Checking) =>
      Some(At(s, i, b.(verdict := Some(v), phase :=
        match v
        case Allow => Cleared
        case Deny(reason) => Settled(GateDenied(reason))
        case Suspend(e) => Announcing(e))))
    case (Announce(_), Announcing(e)) => Some(Emit(To(s, i, Waiting(e)), Pending(e, c.calls[i].name)))
    // The select is biased: a fired cancel wins over a decision.
    case (Decide(_, d), Waiting(e)) =>
      if s.cancelled then None else Some(At(s, i, b.(phase := Deciding(e, d), decision := Some(d))))
    case (SeeCancel(_), Waiting(e)) =>
      if s.cancelled then Some(To(s, i, Settled(WaitCancelled(e)))) else None
    case (AnnounceDecision(_), Deciding(e, d)) =>
      Some(Emit(To(s, i, if d.Allowed? then Cleared else Settled(NotDecided(e, d))), Resolved(e, Resolve(d))))
    case (Invoke(_), Cleared) =>
      Some(if c.calls[i].name in c.toolbox
           then To(s, i, Calling).(invoked := s.invoked + [i])
           else To(s, i, Settled(NotInToolbox)))
    case (ClientReturns(_, r), Calling) => Some(To(s, i, Settled(Ran(r))))
    case _ => None
  }

  predicate AllSettled(branches: seq<Branch>) {
    forall i :: 0 <= i < |branches| ==> branches[i].phase.Settled?
  }

  function Next(c: Config, s: State, step: Step): (r: Option<State>)
    requires |s.branches| == |c.calls|
    ensures r.Some? ==> |r.value.branches| == |c.calls|
  {
    match step
    case EmitStarted =>
      if s.stage.Starting? && s.stage.k < |c.calls|
      then Some(Emit(s, Started(c.calls[s.stage.k])).(stage := Starting(s.stage.k + 1)))
      else None
    case Launch => if s.stage == Starting(|c.calls|) then Some(s.(stage := Racing)) else None
    case Cancel => Some(s.(cancelled := true))
    case Join => if s.stage.Racing? && AllSettled(s.branches) then Some(s.(stage := Finishing(0))) else None
    case EmitFinished =>
      if s.stage.Finishing? && s.stage.k < |c.calls|
      then
        var k := s.stage.k;
        Some(Emit(s, Finished(c.calls[k], Outcomes(c, s.branches)[k])).(stage := Finishing(k + 1)))
      else None
    case _ => if s.stage.Racing? && step.i < |s.branches| then BranchStep(c, s, step.i, step) else None
  }

  function Run(c: Config, s: State, steps: seq<Step>): (r: Option<State>)
    requires |s.branches| == |c.calls|
    ensures r.Some? ==> |r.value.branches| == |c.calls|
    decreases |steps|
  {
    if steps == [] then Some(s)
    else match Next(c, s, steps[0])
      case None => None
      case Some(s1) => Run(c, s1, steps[1..])
  }

  /** A complete dispatch: every event emitted, the outcome vector returned. */
  predicate Complete(c: Config, steps: seq<Step>) {
    Run(c, Init(c), steps).Some? && Run(c, Init(c), steps).value.stage == Finishing(|c.calls|)
  }
}
