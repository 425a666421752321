/** What holds in every interleaving of a parallel tool dispatch. */
module DispatchSafety {
  import opened Wrappers
  import opened Dispatch

  // ---- the event log ---------------------------------------------------------------------

  /** How many Finished events have been emitted. */
  function Ended(s: State): nat { if s.stage.Finishing? then s.stage.k else 0 }

  /** The log is: the Started events in input order, then suspensions only, then the Finished
      events in input order, each with its own call's outcome. */
  predicate Layout(c: Config, s: State) {
    var n, k := |c.calls|, Ended(s);
    var m := |s.events| - k;
    && |s.branches| == n && k <= n && (s.stage.Finishing? ==> AllSettled(s.branches))
    && (if s.stage.Starting? then m == s.stage.k <= n else m >= n)
    && (forall i :: 0 <= i < m && i < n ==> s.events[i] == Started(c.calls[i]))
    && (forall i :: n <= i < m ==> s.events[i].Hotl())
    && (forall i :: m <= i < |s.events| ==>
          s.events[i] == Finished(c.calls[i - m], OutcomeOf(c, i - m, PathOf(s.branches[i - m]))))
  }

  lemma LayoutKept(c: Config, s: State, step: Step)
    requires Layout(c, s) && Next(c, s, step).Some?
    ensures Layout(c, Next(c, s, step).value)
  {
    hide Layout, Next;
    match step
    case EmitStarted => StartLayoutKept(c, s);
    case EmitFinished => FinishLayoutKept(c, s);
    case Launch => TurnLayoutKept(c, s, step);
    case Join => TurnLayoutKept(c, s, step);
    case Cancel => TurnLayoutKept(c, s, step);
    case _ => BranchLayoutKept(c, s, step);
  }

  lemma TurnLayoutKept(c: Config, s: State, step: Step)
    requires Layout(c, s) && Next(c, s, step).Some?
    requires step.Launch? || step.Join? || step.Cancel?
    ensures Layout(c, Next(c, s, step).value)
  {
    hide OutcomeOf, PathOf;
  }

  lemma StartLayoutKept(c: Config, s: State)
    requires Layout(c, s) && Next(c, s, EmitStarted).Some?
    ensures Layout(c, Next(c, s, EmitStarted).value)
  {}

  lemma FinishLayoutKept(c: Config, s: State)
    requires Layout(c, s) && Next(c, s, EmitFinished).Some?
    ensures Layout(c, Next(c, s, EmitFinished).value)
  {
    hide OutcomeOf, PathOf;
    var s1, k := Next(c, s, EmitFinished).value, s.stage.k;
    var m := |s.events| - k;
    assert s1.branches == s.branches && |s1.events| - Ended(s1) == m;
    forall i | m <= i < |s1.events|
      ensures s1.events[i] == Finished(c.calls[i - m], OutcomeOf(c, i - m, PathOf(s1.branches[i - m])))
    {
      if i < m + k { assert s1.events[i] == s.events[i]; } else { assert i - m == k; }
    }
  }

  lemma BranchLayoutKept(c: Config, s: State, step: Step)
    requires Layout(c, s) && Next(c, s, step).Some?
    requires !step.EmitStarted? && !step.EmitFinished? && !step.Launch? && !step.Join? && !step.Cancel?
    ensures Layout(c, Next(c, s, step).value)
  {
    var s1 := BranchStep(c, s, step.i, step).value;
    assert || s1.events == s.events
           || (|s1.events| == |s.events| + 1 && s.events <= s1.events && s1.events[|s.events|].Hotl());
    assert s1.stage == s.stage && |s1.branches| == |s.branches|;
  }

  // ---- approvals and logs ----------------------------------------------------------------

  function Count(xs: seq<nat>, x: nat): nat {
    if xs == [] then 0 else Count(xs[..|xs| - 1], x) + if xs[|xs| - 1] == x then 1 else 0
  }

  lemma CountAppend(xs: seq<nat>, y: nat, x: nat)
    ensures Count(xs + [y], x) == Count(xs, x) + if y == x then 1 else 0
  {
    assert (xs + [y])[..|xs|] == xs;
  }

  /** The gate let the call through, or the operator did after a suspension. */
  predicate Approved(gate: Gate, b: Branch) {
    || gate.NoGate?
    || b.verdict == Some(Allow)
    || (b.verdict.Some? && b.verdict.value.Suspend? && b.decision == Some(Allowed))
  }

  predicate WasInvoked(p: Phase) { p.Calling? || (p.Settled? && p.path.Ran?) }

  /** Call `i` reached the gate that a consult gate wraps (or the only gate). */
  predicate WasChecked(c: Config, i: nat, b: Branch) {
    && i < MAX_TOOL_CALLS_PER_TURN && !b.phase.Fresh?
    && (c.gate.Plain? || (c.gate.Consult? && c.gate.hasInner && i < |c.calls| && c.calls[i].name in c.gate.readOnly))
  }

  /** Call `i` was denied by consult mode in front of an observer. */
  predicate WasObserved(c: Config, i: nat, b: Branch) {
    && i < MAX_TOOL_CALLS_PER_TURN && !b.phase.Fresh?
    && c.gate.Consult? && c.gate.observed && i < |c.calls| && c.calls[i].name !in c.gate.readOnly
  }

  /** Everything a branch's phase says about its own past. */
  predicate BranchFacts(c: Config, i: nat, b: Branch)
    requires i < |c.calls|
  {
    && (i >= MAX_TOOL_CALLS_PER_TURN ==> b.phase.Fresh? || b.phase == Settled(OverLimit))
    && (b.phase.Cleared? || WasInvoked(b.phase) ==> Approved(c.gate, b))
    && (WasInvoked(b.phase) ==> c.calls[i].name in c.toolbox)
    && (b.phase.Announcing? || b.phase.Waiting? ==> b.verdict == Some(Suspend(b.phase.escalation)))
    && (b.phase.Deciding? ==>
          b.verdict == Some(Suspend(b.phase.escalation)) && b.decision == Some(b.phase.decision))
    && (c.gate.Consult? && c.calls[i].name !in c.gate.readOnly ==>
          b.phase.Fresh? || b.phase.Denying?
          || (b.phase.Settled? && (b.phase.path.GateDenied? || b.phase.path.OverLimit?)))
  }

  /** Every entry of a log is the index of a call. */
  predicate InRange(log: seq<nat>, n: nat) { forall k :: 0 <= k < |log| ==> log[k] < n }

  predicate LogsInRange(c: Config, s: State) {
    InRange(s.invoked, |c.calls|) && InRange(s.checked, |c.calls|) && InRange(s.observed, |c.calls|)
  }

  lemma StepInRange(c: Config, s: State, step: Step)
    requires |s.branches| == |c.calls| && LogsInRange(c, s) && Next(c, s, step).Some?
    ensures LogsInRange(c, Next(c, s, step).value)
  {}

  lemma {:induction false} RunInRange(c: Config, s: State, steps: seq<Step>)
    requires |s.branches| == |c.calls| && LogsInRange(c, s) && Run(c, s, steps).Some?
    ensures LogsInRange(c, Run(c, s, steps).value)
    decreases |steps|
  {
    if steps != [] {
      StepInRange(c, s, steps[0]);
      RunInRange(c, Next(c, s, steps[0]).value, steps[1..]);
    }
  }

  /** `log` holds each call that satisfies `done` once, and no other. */
  predicate Logged(log: seq<nat>, n: nat, done: nat -> bool) {
    forall i: nat :: i < n ==> Count(log, i) == if done(i) then 1 else 0
  }

  function InvokedIn(s: State): nat -> bool {
    (i: nat) => i < |s.branches| && WasInvoked(s.branches[i].phase)
  }

  function CheckedIn(c: Config, s: State): nat -> bool {
    (i: nat) => i < |s.branches| && WasChecked(c, i, s.branches[i])
  }

  function ObservedIn(c: Config, s: State): nat -> bool {
    (i: nat) => i < |s.branches| && WasObserved(c, i, s.branches[i])
  }

  /** The logs record exactly what the phases say, each call at most once. */
  predicate Logs(c: Config, s: State) {
    && |s.branches| == |c.calls|
    && (forall i :: 0 <= i < |s.branches| ==> BranchFacts(c, i, s.branches[i]))
    && Logged(s.invoked, |c.calls|, InvokedIn(s))
    && Logged(s.checked, |c.calls|, CheckedIn(c, s))
    && Logged(s.observed, |c.calls|, ObservedIn(c, s))
  }

  lemma LogsAt(c: Config, s: State, i: nat)
    requires Logs(c, s) && i < |c.calls|
    ensures BranchFacts(c, i, s.branches[i])
    ensures Count(s.invoked, i) == if WasInvoked(s.branches[i].phase) then 1 else 0
    ensures Count(s.checked, i) == if WasChecked(c, i, s.branches[i]) then 1 else 0
    ensures Count(s.observed, i) == if WasObserved(c, i, s.branches[i]) then 1 else 0
  {
    assert InvokedIn(s)(i) == WasInvoked(s.branches[i].phase);
    assert CheckedIn(c, s)(i) == WasChecked(c, i, s.branches[i]);
    assert ObservedIn(c, s)(i) == WasObserved(c, i, s.branches[i]);
  }

  lemma ScopeNamesTool(name: string, readOnly: set<string>)
    ensures DeniedTool(SCOPE_PREFIX + name, readOnly) == if name in readOnly then None else Some(name)
  {
    assert (SCOPE_PREFIX + name)[|SCOPE_PREFIX|..] == name;
  }

  function New(i: nat, was: bool, now: bool): seq<nat> { if now && !was then [i] else [] }

  /** One step of branch `i`: its facts hold again, and each log grows exactly when its fact
      becomes true; such facts stay true. */
  predicate Moves(c: Config, s: State, s1: State, i: nat)
    requires i < |s.branches| == |c.calls|
  {
    && |s1.branches| == |s.branches|
    && var b, b1 := s.branches[i], s1.branches[i];
       && s1.branches == s.branches[i := b1] && BranchFacts(c, i, b1)
       && s1.invoked == s.invoked + New(i, WasInvoked(b.phase), WasInvoked(b1.phase))
       && s1.checked == s.checked + New(i, WasChecked(c, i, b), WasChecked(c, i, b1))
       && s1.observed == s.observed + New(i, WasObserved(c, i, b), WasObserved(c, i, b1))
       && (WasInvoked(b.phase) ==> WasInvoked(b1.phase))
       && (WasChecked(c, i, b) ==> WasChecked(c, i, b1))
       && (WasObserved(c, i, b) ==> WasObserved(c, i, b1))
  }

  lemma BeginMoves(c: Config, s: State, i: nat)
    requires i < |s.branches| == |c.calls| && s.branches[i].phase.Fresh? && BranchFacts(c, i, s.branches[i])
    ensures Moves(c, s, Begun(c, s, i), i)
  {
    ScopeNamesTool(c.calls[i].name, if c.gate.Consult? then c.gate.readOnly else {});
  }

  lemma BranchMoves(c: Config, s: State, i: nat, step: Step)
    requires i < |s.branches| == |c.calls| && BranchFacts(c, i, s.branches[i])
    requires !step.Begin? && BranchStep(c, s, i, step).Some?
    ensures Moves(c, s, BranchStep(c, s, i, step).value, i)
  {}

  lemma LoggedKept(log: seq<nat>, n: nat, i: nat, done: nat -> bool, done1: nat -> bool)
    requires i < n && Logged(log, n, done) && (done(i) ==> done1(i))
    requires forall j :: 0 <= j < n && j != i ==> done1(j) == done(j)
    ensures Logged(log + New(i, done(i), done1(i)), n, done1)
  {
    forall j | 0 <= j < n ensures Count(log + New(i, done(i), done1(i)), j) == if done1(j) then 1 else 0 {
      CountAppend(log, i, j);
      assert log + [] == log;
    }
  }

  lemma LogsKept(c: Config, s: State, step: Step)
    requires Logs(c, s) && Next(c, s, step).Some?
    ensures Logs(c, Next(c, s, step).value)
  {
    var s1 := Next(c, s, step).value;
    if s.stage.Racing? && !step.Cancel? && !step.Join? {
      var i := step.i;
      if step.Begin? { BeginMoves(c, s, i); } else { BranchMoves(c, s, i, step); }
      MovesKeepLogs(c, s, s1, i);
    }
  }

  lemma MovesKeepLogs(c: Config, s: State, s1: State, i: nat)
    requires Logs(c, s) && i < |s.branches| && Moves(c, s, s1, i)
    ensures Logs(c, s1)
  {
    var n := |c.calls|;
    LoggedKept(s.invoked, n, i, InvokedIn(s), InvokedIn(s1));
    LoggedKept(s.checked, n, i, CheckedIn(c, s), CheckedIn(c, s1));
    LoggedKept(s.observed, n, i, ObservedIn(c, s), ObservedIn(c, s1));
  }

  // ---- suspensions -----------------------------------------------------------------------

  function Pendings(events: seq<Event>, e: nat): nat {
    if events == [] then 0
    else Pendings(events[..|events| - 1], e)
         + if events[|events| - 1].Pending? && events[|events| - 1].escalation == e then 1 else 0
  }

  function Resolveds(events: seq<Event>, e: nat): nat {
    if events == [] then 0
    else Resolveds(events[..|events| - 1], e)
         + if events[|events| - 1].Resolved? && events[|events| - 1].escalation == e then 1 else 0
  }

  /** Announced and not resolved on the event stream. */
  predicate IsOpen(p: Phase, e: nat) {
    p == Waiting(e) || (p.Deciding? && p.escalation == e) || p == Settled(WaitCancelled(e))
  }

  function Open(branches: seq<Branch>, e: nat): nat {
    if branches == [] then 0
    else Open(branches[..|branches| - 1], e) + if IsOpen(branches[|branches| - 1].phase, e) then 1 else 0
  }

  lemma {:induction false} OpenUpdate(branches: seq<Branch>, i: nat, b: Branch, e: nat)
    requires i < |branches|
    ensures Open(branches[i := b], e) + (if IsOpen(branches[i].phase, e) then 1 else 0)
            == Open(branches, e) + (if IsOpen(b.phase, e) then 1 else 0)
  {
    var last := |branches| - 1;
    if i == last {
      assert branches[i := b][..last] == branches[..last];
    } else {
      assert branches[i := b][..last] == branches[..last][i := b];
      OpenUpdate(branches[..last], i, b, e);
    }
  }

  lemma {:induction false} NoneOpen(branches: seq<Branch>, e: nat)
    requires forall i :: 0 <= i < |branches| ==> !IsOpen(branches[i].phase, e)
    ensures Open(branches, e) == 0
  {
    if branches != [] { NoneOpen(branches[..|branches| - 1], e); }
  }

  lemma EventsAppend(events: seq<Event>, x: Event, e: nat)
    ensures Pendings(events + [x], e) == Pendings(events, e) + if x.Pending? && x.escalation == e then 1 else 0
    ensures Resolveds(events + [x], e) == Resolveds(events, e) + if x.Resolved? && x.escalation == e then 1 else 0
  {
    assert (events + [x])[..|events|] == events;
  }

  /** On every prefix of the log no suspension is resolved more often than announced, and the
      difference now is the number of branches with that suspension still open. */
  predicate Escalations(s: State, e: nat) {
    && Pendings(s.events, e) == Resolveds(s.events, e) + Open(s.branches, e)
    && PrefixesResolved(s.events, e)
    && (forall i :: 0 <= i < |s.branches| && s.branches[i].phase == Settled(WaitCancelled(e)) ==> s.cancelled)
  }

  predicate PrefixesResolved(events: seq<Event>, e: nat) {
    forall k :: 0 <= k <= |events| ==> Resolveds(events[..k], e) <= Pendings(events[..k], e)
  }

  lemma PrefixesKept(events: seq<Event>, x: Event, e: nat)
    requires PrefixesResolved(events, e)
    requires Resolveds(events + [x], e) <= Pendings(events + [x], e)
    ensures PrefixesResolved(events + [x], e)
  {
    var events1 := events + [x];
    forall k | 0 <= k <= |events1| ensures Resolveds(events1[..k], e) <= Pendings(events1[..k], e) {
      if k <= |events| { assert events1[..k] == events[..k]; } else { assert events1[..k] == events1; }
    }
  }

  /** A step of branch `i` adds at most one event, and keeps the announced-minus-resolved
      balance of suspension `e`. */
  predicate Balances(s: State, s1: State, i: nat, e: nat)
    requires i < |s.branches| == |s1.branches|
  {
    && s1.branches == s.branches[i := s1.branches[i]]
    && s1.cancelled == s.cancelled
    && (s1.branches[i].phase == Settled(WaitCancelled(e)) ==>
          s.cancelled || s1.branches[i].phase == s.branches[i].phase)
    && (s1.events == s.events
        || (|s1.events| == |s.events| + 1 && s1.events == s.events + [s1.events[|s.events|]]))
    && Pendings(s1.events, e) - Pendings(s.events, e) - Resolveds(s1.events, e) + Resolveds(s.events, e)
       == (if IsOpen(s1.branches[i].phase, e) then 1 else 0) - (if IsOpen(s.branches[i].phase, e) then 1 else 0)
  }

  lemma AnnounceBalances(c: Config, s: State, i: nat, step: Step, e: nat)
    requires i < |s.branches| == |c.calls| && BranchStep(c, s, i, step).Some? && step.Announce?
    ensures Balances(s, BranchStep(c, s, i, step).value, i, e)
  {
    EventsAppend(s.events, Pending(s.branches[i].phase.escalation, c.calls[i].name), e);
  }

  lemma ResolutionBalances(c: Config, s: State, i: nat, step: Step, e: nat)
    requires i < |s.branches| == |c.calls| && BranchStep(c, s, i, step).Some? && step.AnnounceDecision?
    ensures Balances(s, BranchStep(c, s, i, step).value, i, e)
  {
    EventsAppend(s.events, Resolved(s.branches[i].phase.escalation, Resolve(s.branches[i].phase.decision)), e);
  }

  lemma SilentBalances(c: Config, s: State, i: nat, step: Step, e: nat)
    requires i < |s.branches| == |c.calls| && BranchStep(c, s, i, step).Some?
    requires !step.Announce? && !step.AnnounceDecision?
    ensures Balances(s, BranchStep(c, s, i, step).value, i, e)
  {
    assert BranchStep(c, s, i, step).value.events == s.events;
  }

  lemma BranchEscalationsKept(c: Config, s: State, i: nat, step: Step, e: nat)
    requires i < |s.branches| == |c.calls| && Escalations(s, e) && BranchStep(c, s, i, step).Some?
    ensures Escalations(BranchStep(c, s, i, step).value, e)
  {
    var s1 := BranchStep(c, s, i, step).value;
    if step.Announce? { AnnounceBalances(c, s, i, step, e); }
    else if step.AnnounceDecision? { ResolutionBalances(c, s, i, step, e); }
    else { SilentBalances(c, s, i, step, e); }
    BalanceKeepsEscalations(s, s1, i, e);
  }

  lemma BalanceKeepsEscalations(s: State, s1: State, i: nat, e: nat)
    requires i < |s.branches| == |s1.branches| && Escalations(s, e) && Balances(s, s1, i, e)
    ensures Escalations(s1, e)
  {
    OpenUpdate(s.branches, i, s1.branches[i], e);
    if s1.events != s.events {
      PrefixesKept(s.events, s1.events[|s.events|], e);
    }
  }

  lemma EmitKeepsEscalations(s: State, x: Event, e: nat)
    requires Escalations(s, e) && !x.Hotl()
    ensures Escalations(Emit(s, x), e)
  {
    EventsAppend(s.events, x, e);
    PrefixesKept(s.events, x, e);
  }

  lemma EscalationsKept(c: Config, s: State, step: Step, e: nat)
    requires |s.branches| == |c.calls| && Escalations(s, e) && Next(c, s, step).Some?
    ensures Escalations(Next(c, s, step).value, e)
  {
    match step
    case EmitStarted => EmitKeepsEscalations(s, Started(c.calls[s.stage.k]), e);
    case EmitFinished =>
      EmitKeepsEscalations(s, Finished(c.calls[s.stage.k], Outcomes(c, s.branches)[s.stage.k]), e);
    case Launch =>
    case Join =>
    case Cancel =>
    case _ => BranchEscalationsKept(c, s, step.i, step, e);
  }

  // ---- whole runs ------------------------------------------------------------------------

  predicate Inv(c: Config, s: State, e: nat) {
    Layout(c, s) && Logs(c, s) && Escalations(s, e)
  }

  lemma InitInv(c: Config, e: nat)
    ensures Inv(c, Init(c), e)
  {
    NoneOpen(Init(c).branches, e);
  }

  lemma {:induction false} RunKeepsInv(c: Config, s: State, steps: seq<Step>, e: nat)
    requires Inv(c, s, e) && Run(c, s, steps).Some?
    ensures Inv(c, Run(c, s, steps).value, e)
    decreases |steps|
  {
    if steps != [] {
      LayoutKept(c, s, steps[0]);
      LogsKept(c, s, steps[0]);
      EscalationsKept(c, s, steps[0], e);
      RunKeepsInv(c, Next(c, s, steps[0]).value, steps[1..], e);
    }
  }

  /** A complete dispatch emits every Started first and every Finished last, both in input
      order and each Finished with its own call's outcome; nothing but suspensions between. */
  lemma EventOrder(c: Config, steps: seq<Step>)
    requires Complete(c, steps)
    ensures var s := Run(c, Init(c), steps).value;
            var n := |c.calls|;
            && 2 * n <= |s.events|
            && (forall i :: 0 <= i < n ==> s.events[i] == Started(c.calls[i]))
            && (forall i :: n <= i < |s.events| - n ==> s.events[i].Hotl())
            && (forall i :: |s.events| - n <= i < |s.events| ==>
                  var k := i - (|s.events| - n);
                  s.events[i] == Finished(c.calls[k], Outcomes(c, s.branches)[k]))
            && AllSettled(s.branches)
  {
    hide Logs, Escalations, OutcomeOf, PathOf;
    InitInv(c, 0);
    RunKeepsInv(c, Init(c), steps, 0);
  }

  /** At any moment of any interleaving: a client has been invoked at most once for a call, and
      then the call is one of the first 32, in the toolbox, and let through by the gate or by
      the operator. */
  lemma InvokedOnlyWhenApproved(c: Config, steps: seq<Step>, i: nat)
    requires i < |c.calls| && Run(c, Init(c), steps).Some?
    ensures var s := Run(c, Init(c), steps).value;
            && Count(s.invoked, i) <= 1
            && (Count(s.invoked, i) == 1 ==>
                  && i < 32 && c.calls[i].name in c.toolbox
                  && Approved(c.gate, s.branches[i]))
  {
    InitInv(c, 0);
    RunKeepsInv(c, Init(c), steps, 0);
    LogsAt(c, Run(c, Init(c), steps).value, i);
  }

  lemma CompleteInv(c: Config, steps: seq<Step>, e: nat)
    requires Complete(c, steps)
    ensures var s := Run(c, Init(c), steps).value;
            Escalations(s, e) && AllSettled(s.branches)
  {
    InitInv(c, e);
    RunKeepsInv(c, Init(c), steps, e);
  }

  /** Suspensions at the end of a dispatch: never resolved more often than announced on any
      prefix; if the run was not cancelled every announcement was resolved; and each one that
      was not belongs to a wait ended by the cancel. */
  lemma SuspensionsResolved(c: Config, steps: seq<Step>, e: nat)
    requires Complete(c, steps)
    ensures var s := Run(c, Init(c), steps).value;
            && PrefixesResolved(s.events, e)
            && Pendings(s.events, e) == Resolveds(s.events, e) + Open(s.branches, e)
            && (!s.cancelled ==> Pendings(s.events, e) == Resolveds(s.events, e))
            && (forall i :: 0 <= i < |s.branches| && IsOpen(s.branches[i].phase, e) ==>
                  s.cancelled && s.branches[i].phase == Settled(WaitCancelled(e)))
  {
    CompleteInv(c, steps, e);
    var s := Run(c, Init(c), steps).value;
    if !s.cancelled { NoneOpen(s.branches, e); }
  }

  /** What the checks and the denial notices of a complete dispatch amount to, whatever the gate. */
  lemma LogsComplete(c: Config, steps: seq<Step>, i: nat)
    requires Complete(c, steps) && i < |c.calls|
    ensures var s := Run(c, Init(c), steps).value;
            var within, name := i < MAX_TOOL_CALLS_PER_TURN, c.calls[i].name;
            && Count(s.checked, i) ==
               (if within && (c.gate.Plain? || (c.gate.Consult? && c.gate.hasInner && name in c.gate.readOnly))
                then 1 else 0)
            && Count(s.observed, i) ==
               (if within && c.gate.Consult? && c.gate.observed && name !in c.gate.readOnly then 1 else 0)
  {
    CompleteInv(c, steps, 0);
    InitInv(c, 0);
    RunKeepsInv(c, Init(c), steps, 0);
    LogsAt(c, Run(c, Init(c), steps).value, i);
  }

  lemma {:induction false} LoggedIsCounted(log: seq<nat>, k: nat)
    requires k < |log|
    ensures Count(log, log[k]) > 0
  {
    if k < |log| - 1 { LoggedIsCounted(log[..|log| - 1], k); }
  }

  /** The gate is asked exactly once for each of the first 32 calls, and never for the rest:
      one budget event per call, not one per batch. */
  lemma OneGateCheckPerCall(c: Config, steps: seq<Step>, i: nat)
    requires Complete(c, steps) && i < |c.calls| && c.gate.Plain?
    ensures Count(Run(c, Init(c), steps).value.checked, i) == if i < 32 then 1 else 0
  {
    InitInv(c, 0);
    RunKeepsInv(c, Init(c), steps, 0);
    LogsAt(c, Run(c, Init(c), steps).value, i);
  }

  /** Consult mode, with any inner gate and any calls: only read-only tools reach a client, and
      each of them was also allowed by the inner gate; a call outside the set never reaches
      the inner gate, is denied, and is reported to the observer exactly once. */
  lemma ConsultIsReadOnly(c: Config, steps: seq<Step>, i: nat)
    requires Complete(c, steps) && i < |c.calls| && c.gate.Consult?
    ensures var s := Run(c, Init(c), steps).value;
            var inSet := c.calls[i].name in c.gate.readOnly;
            && (Count(s.invoked, i) > 0 ==> inSet && Approved(c.gate, s.branches[i]))
            && Count(s.checked, i) == (if i < MAX_TOOL_CALLS_PER_TURN && inSet && c.gate.hasInner then 1 else 0)
            && Count(s.observed, i) == (if i < MAX_TOOL_CALLS_PER_TURN && !inSet && c.gate.observed then 1 else 0)
            && (!inSet ==> !Outcomes(c, s.branches)[i].ok)
  {
    InitInv(c, 0);
    RunKeepsInv(c, Init(c), steps, 0);
    EventOrder(c, steps);
    LogsAt(c, Run(c, Init(c), steps).value, i);
  }

  // ---- why a call ended as it did --------------------------------------------------------

  /** What the gate and the operator said, as far as the phase says; for a settled branch, why
      it took its path. */
  predicate Explains(c: Config, i: nat, b: Branch)
    requires i < |c.calls|
  {
    var within := i < MAX_TOOL_CALLS_PER_TURN;
    && (c.gate.NoGate? ==> b.verdict.None?)
    && match b.phase
       case Fresh => b.verdict.None? && b.decision.None?
       case Denying => within && b.verdict == Some(Deny(CONSULT_DENY_REASON)) && b.decision.None? && !c.gate.NoGate?
       case Checking => within && b.verdict.None? && b.decision.None? && !c.gate.NoGate?
       case Announcing(e) => within && b.verdict == Some(Suspend(e)) && b.decision.None?
       case Waiting(e) => within && b.verdict == Some(Suspend(e)) && b.decision.None?
       case Deciding(e, d) => within && b.verdict == Some(Suspend(e)) && b.decision == Some(d)
       case Cleared => within && Approved(c.gate, b)
       case Calling => within && Approved(c.gate, b) && c.calls[i].name in c.toolbox
       case Settled(path) => PathExplained(c, i, b, path)
  }

  predicate PathExplained(c: Config, i: nat, b: Branch, path: Path)
    requires i < |c.calls|
  {
    var within := i < MAX_TOOL_CALLS_PER_TURN;
    match path
    case OverLimit => !within
    case GateDenied(reason) => within && b.verdict == Some(Deny(reason)) && !c.gate.NoGate?
    case NotDecided(e, d) => within && b.verdict == Some(Suspend(e)) && b.decision == Some(d) && !d.Allowed?
    case WaitCancelled(e) => within && b.verdict == Some(Suspend(e)) && b.decision.None?
    case NotInToolbox => within && Approved(c.gate, b) && c.calls[i].name !in c.toolbox
    case Ran(_) => within && Approved(c.gate, b) && c.calls[i].name in c.toolbox
  }

  predicate AllExplained(c: Config, s: State) {
    |s.branches| == |c.calls| && forall i :: 0 <= i < |s.branches| ==> Explains(c, i, s.branches[i])
  }

  lemma BeginExplains(c: Config, s: State, i: nat)
    requires i < |s.branches| == |c.calls| && s.branches[i].phase.Fresh? && Explains(c, i, s.branches[i])
    ensures var b1 := Begun(c, s, i).branches[i];
            Explains(c, i, b1) && Begun(c, s, i).branches == s.branches[i := b1]
  {}

  lemma BranchExplains(c: Config, s: State, i: nat, step: Step)
    requires i < |s.branches| == |c.calls| && Explains(c, i, s.branches[i])
    requires !step.Begin? && BranchStep(c, s, i, step).Some?
    ensures var s1 := BranchStep(c, s, i, step).value;
            Explains(c, i, s1.branches[i]) && s1.branches == s.branches[i := s1.branches[i]]
  {}

  lemma {:induction false} RunExplains(c: Config, s: State, steps: seq<Step>)
    requires AllExplained(c, s) && Run(c, s, steps).Some?
    ensures AllExplained(c, Run(c, s, steps).value)
    decreases |steps|
  {
    if steps != [] {
      var step, s1 := steps[0], Next(c, s, steps[0]).value;
      if s.stage.Racing? && !step.Cancel? && !step.Join? {
        if step.Begin? { BeginExplains(c, s, step.i); } else { BranchExplains(c, s, step.i, step); }
      } else {
        assert s1.branches == s.branches;
      }
      RunExplains(c, s1, steps[1..]);
    }
  }

  /** At the end of a dispatch each call's path is the one its index, the gate, the operator and
      the toolbox call for; its client was invoked if and only if the call is within the limit,
      approved and in the toolbox; and its outcome is ok exactly when the client said so. */
  lemma CallsExplained(c: Config, steps: seq<Step>, i: nat)
    requires Complete(c, steps) && i < |c.calls|
    ensures var s := Run(c, Init(c), steps).value;
            var b := s.branches[i];
            && b.phase.Settled? && PathExplained(c, i, b, b.phase.path)
            && (Count(s.invoked, i) == 1 <==>
                  i < MAX_TOOL_CALLS_PER_TURN && Approved(c.gate, b) && c.calls[i].name in c.toolbox)
            && (Outcomes(c, s.branches)[i].ok <==> b.phase.path.Ran? && b.phase.path.result.ToolOk?)
  {
    EventOrder(c, steps);
    RunExplains(c, Init(c), steps);
    RunKeepsLogs(c, steps, i);
  }

  lemma RunKeepsLogs(c: Config, steps: seq<Step>, i: nat)
    requires Run(c, Init(c), steps).Some? && i < |c.calls|
    ensures var s := Run(c, Init(c), steps).value;
            Count(s.invoked, i) == if WasInvoked(s.branches[i].phase) then 1 else 0
  {
    InitInv(c, 0);
    RunKeepsInv(c, Init(c), steps, 0);
    LogsAt(c, Run(c, Init(c), steps).value, i);
  }

  // ---- progress --------------------------------------------------------------------------

  function PhaseRank(p: Phase): nat {
    match p
    case Fresh => 7
    case Checking => 6
    case Announcing(_) => 5
    case Waiting(_) => 4
    case Deciding(_, _) => 3
    case Denying => 1
    case Cleared => 2
    case Calling => 1
    case Settled(_) => 0
  }

  /** A step with which branch `i` goes on, whatever it waits for. */
  function Onward(s: State, i: nat): Step
    requires i < |s.branches|
  {
    match s.branches[i].phase
    case Fresh => Begin(i)
    case Denying => Notified(i)
    case Checking => GateReturns(i, Allow)
    case Announcing(_) => Announce(i)
    case Waiting(_) => if s.cancelled then SeeCancel(i) else Decide(i, TimedOut)
    case Deciding(_, _) => AnnounceDecision(i)
    case Cleared => Invoke(i)
    case _ => ClientReturns(i, Transport("gone"))
  }

  function RankSum(branches: seq<Branch>): nat {
    if branches == [] then 0
    else RankSum(branches[..|branches| - 1]) + PhaseRank(branches[|branches| - 1].phase)
  }

  lemma {:induction false} RankSumUpdate(branches: seq<Branch>, i: nat, b: Branch)
    requires i < |branches|
    ensures RankSum(branches[i := b]) + PhaseRank(branches[i].phase) == RankSum(branches) + PhaseRank(b.phase)
  {
    var last := |branches| - 1;
    if i == last {
      assert branches[i := b][..last] == branches[..last];
    } else {
      assert branches[i := b][..last] == branches[..last][i := b];
      RankSumUpdate(branches[..last], i, b);
    }
  }

  lemma OnwardBranch(c: Config, s: State, i: nat)
    requires s.stage.Racing? && i < |s.branches| == |c.calls| && !s.branches[i].phase.Settled?
    ensures var r := BranchStep(c, s, i, Onward(s, i));
            && r.Some? && Next(c, s, Onward(s, i)) == r && r.value.stage == s.stage
            && |r.value.branches| == |s.branches| && r.value.branches == s.branches[i := r.value.branches[i]]
            && PhaseRank(r.value.branches[i].phase) < PhaseRank(s.branches[i].phase)
  {}

  lemma OnwardStep(c: Config, s: State, i: nat)
    requires s.stage.Racing? && i < |s.branches| == |c.calls| && !s.branches[i].phase.Settled?
    ensures var r := BranchStep(c, s, i, Onward(s, i));
            && r.Some? && Next(c, s, Onward(s, i)) == r && r.value.stage == s.stage
            && RankSum(r.value.branches) < RankSum(s.branches)
  {
    hide BranchStep, Next, Onward;
    OnwardBranch(c, s, i);
    RankSumUpdate(s.branches, i, BranchStep(c, s, i, Onward(s, i)).value.branches[i]);
  }

  function StageRank(c: Config, s: State): nat {
    match s.stage
    case Starting(k) => 2 * |c.calls| + 2 + (if k <= |c.calls| then |c.calls| - k else 0)
    case Racing => |c.calls| + 1
    case Finishing(k) => if k <= |c.calls| then |c.calls| - k else 0
  }

  /** From every reachable state the dispatch can be completed: no interleaving deadlocks. */
  lemma {:induction false} NeverStuck(c: Config, s: State) returns (steps: seq<Step>)
    requires Layout(c, s)
    ensures Run(c, s, steps).Some? && Run(c, s, steps).value.stage == Finishing(|c.calls|)
    decreases StageRank(c, s), RankSum(s.branches)
  {
    var step;
    match s.stage {
      case Starting(k) => step := if k < |c.calls| then EmitStarted else Launch;
      case Finishing(k) =>
        if k == |c.calls| { return []; }
        step := EmitFinished;
      case Racing =>
        if AllSettled(s.branches) {
          step := Join;
        } else {
          var i: nat :| i < |s.branches| && !s.branches[i].phase.Settled?;
          OnwardStep(c, s, i);
          step := Onward(s, i);
        }
    }
    LayoutKept(c, s, step);
    var rest := NeverStuck(c, Next(c, s, step).value);
    steps := [step] + rest;
    assert steps[1..] == rest;
  }
}
