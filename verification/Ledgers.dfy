/** The account of what tool dispatch did over a run: who was invoked, what the gate was asked,
    what the denial observer was told. */
module Ledgers {
  import opened Wrappers
  import opened Messages
  import Dispatch
  import DispatchSafety

  /** A call that reached its client, and what its gate and its operator had said. */
  datatype Invocation = Invocation(call: ToolCall, branch: Dispatch.Branch)

  /** `checks` are the calls put to the wrapped (or only) gate, `notices` the denials reported,
      each as often as it happened; `dispatched` is what the model asked for, turn by turn. */
  datatype Ledger = Ledger(dispatched: seq<seq<ToolCall>>, invocations: seq<Invocation>,
                           checks: multiset<ToolCall>, notices: multiset<ToolCall>)

  const NO_LEDGER := Ledger([], [], multiset{}, multiset{})

  function Picked(calls: seq<ToolCall>, log: seq<nat>): multiset<ToolCall>
    requires DispatchSafety.InRange(log, |calls|)
  {
    if log == [] then multiset{}
    else Picked(calls, log[..|log| - 1]) + multiset{calls[log[|log| - 1]]}
  }

  /** The ledger of one dispatch that ended in `s`. */
  function LedgerOf(c: Dispatch.Config, s: Dispatch.State): Ledger
    requires |s.branches| == |c.calls| && DispatchSafety.LogsInRange(c, s)
  {
    Ledger([c.calls],
           seq(|s.invoked|, k requires 0 <= k < |s.invoked| =>
             Invocation(c.calls[s.invoked[k]], s.branches[s.invoked[k]])),
           Picked(c.calls, s.checked), Picked(c.calls, s.observed))
  }

  function Merge(a: Ledger, b: Ledger): Ledger {
    Ledger(a.dispatched + b.dispatched, a.invocations + b.invocations, a.checks + b.checks, a.notices + b.notices)
  }

  // ---- a log without repetitions, as the calls it names ----------------------------------

  /** The first `k` calls, each as often as the log names its index. */
  function Spread(calls: seq<ToolCall>, log: seq<nat>, k: nat): multiset<ToolCall>
    requires k <= |calls|
  {
    if k == 0 then multiset{}
    else Spread(calls, log, k - 1) + multiset{}[calls[k - 1] := DispatchSafety.Count(log, k - 1)]
  }

  lemma {:induction false} SpreadAppend(calls: seq<ToolCall>, log: seq<nat>, j: nat, k: nat)
    requires k <= |calls| && j < |calls|
    ensures Spread(calls, log + [j], k) == Spread(calls, log, k) + if j < k then multiset{calls[j]} else multiset{}
  {
    if k > 0 {
      SpreadAppend(calls, log, j, k - 1);
      DispatchSafety.CountAppend(log, j, k - 1);
      hide DispatchSafety.Count;
      var c, n := calls[k - 1], DispatchSafety.Count(log, k - 1);
      if j == k - 1 { OneMore(Spread(calls, log, k - 1), c, n); }
      else { Regroup(Spread(calls, log, k - 1), multiset{}[c := n], calls[j]); }
    }
  }

  lemma OneMore(s: multiset<ToolCall>, c: ToolCall, n: nat)
    ensures s + multiset{}[c := n + 1] == s + multiset{}[c := n] + multiset{c}
  {}

  lemma Regroup(s: multiset<ToolCall>, m: multiset<ToolCall>, c: ToolCall)
    ensures s + multiset{c} + m == s + m + multiset{c}
  {}

  lemma {:induction false} SpreadNothing(calls: seq<ToolCall>, k: nat)
    requires k <= |calls|
    ensures Spread(calls, [], k) == multiset{}
  {
    if k > 0 { SpreadNothing(calls, k - 1); }
  }

  lemma {:induction false} PickedIsSpread(calls: seq<ToolCall>, log: seq<nat>)
    requires DispatchSafety.InRange(log, |calls|)
    ensures Picked(calls, log) == Spread(calls, log, |calls|)
  {
    if log == [] {
      SpreadNothing(calls, |calls|);
    } else {
      var n := |log| - 1;
      PickedIsSpread(calls, log[..n]);
      SpreadAppend(calls, log[..n], log[n], |calls|);
      assert log[..n] + [log[n]] == log;
    }
  }

  /** The calls among the first `k` that `want` picks out. */
  function Chosen(calls: seq<ToolCall>, k: nat, want: nat -> bool): multiset<ToolCall>
    requires k <= |calls|
  {
    if k == 0 then multiset{}
    else Chosen(calls, k - 1, want) + if want(k - 1) then multiset{calls[k - 1]} else multiset{}
  }

  lemma {:induction false} SpreadIsChosen(calls: seq<ToolCall>, log: seq<nat>, k: nat, want: nat -> bool)
    requires k <= |calls|
    requires forall i: nat :: i < k ==> DispatchSafety.Count(log, i) == if want(i) then 1 else 0
    ensures Spread(calls, log, k) == Chosen(calls, k, want)
  {
    if k > 0 {
      SpreadIsChosen(calls, log, k - 1, want);
      assert multiset{}[calls[k - 1] := 1] == multiset{calls[k - 1]};
      assert multiset{}[calls[k - 1] := 0] == multiset{};
    }
  }

  lemma {:induction false} SpreadWithin(calls: seq<ToolCall>, log: seq<nat>, k: nat, want: nat -> bool)
    requires k <= |calls|
    requires forall i: nat :: i < k ==> DispatchSafety.Count(log, i) <= if want(i) then 1 else 0
    ensures Spread(calls, log, k) <= Chosen(calls, k, want)
  {
    if k > 0 { SpreadWithin(calls, log, k - 1, want); }
  }

  /** The calls that were invoked, each as often as it was. */
  function CallsOf(invocations: seq<Invocation>): multiset<ToolCall> {
    if invocations == [] then multiset{}
    else CallsOf(invocations[..|invocations| - 1]) + multiset{invocations[|invocations| - 1].call}
  }

  lemma {:induction false} CallsOfConcat(a: seq<Invocation>, b: seq<Invocation>)
    ensures CallsOf(a + b) == CallsOf(a) + CallsOf(b)
  {
    if b == [] {
      assert a + b == a;
    } else {
      assert (a + b)[..|a + b| - 1] == a + b[..|b| - 1];
      CallsOfConcat(a, b[..|b| - 1]);
    }
  }

  lemma {:induction false} CallsOfPicked(calls: seq<ToolCall>, log: seq<nat>, invocations: seq<Invocation>)
    requires DispatchSafety.InRange(log, |calls|) && |invocations| == |log|
    requires forall k :: 0 <= k < |log| ==> invocations[k].call == calls[log[k]]
    ensures CallsOf(invocations) == Picked(calls, log)
  {
    if log != [] { CallsOfPicked(calls, log[..|log| - 1], invocations[..|log| - 1]); }
  }

  lemma {:induction false} ChosenSame(calls: seq<ToolCall>, k: nat, want: nat -> bool, want1: nat -> bool)
    requires k <= |calls| && forall i: nat :: i < k ==> want(i) == want1(i)
    ensures Chosen(calls, k, want) == Chosen(calls, k, want1)
  {
    if k > 0 { ChosenSame(calls, k - 1, want, want1); }
  }

  lemma {:induction false} ChosenNone(calls: seq<ToolCall>, k: nat, want: nat -> bool)
    requires k <= |calls| && forall i: nat :: i < k ==> !want(i)
    ensures Chosen(calls, k, want) == multiset{}
  {
    if k > 0 { ChosenNone(calls, k - 1, want); }
  }

  // ---- what the gate calls for -----------------------------------------------------------

  /** The calls of a turn that a gate of this kind asks its wrapped (or only) gate about. */
  function Asked(gate: Dispatch.Gate, calls: seq<ToolCall>): nat -> bool {
    (i: nat) =>
      i < |calls| && i < Dispatch.MAX_TOOL_CALLS_PER_TURN
      && match gate
         case NoGate => false
         case Plain => true
         case Consult(readOnly, hasInner, _) => hasInner && calls[i].name in readOnly
  }

  /** The calls of a turn whose denial is reported. */
  function Reported(gate: Dispatch.Gate, calls: seq<ToolCall>): nat -> bool {
    (i: nat) =>
      i < |calls| && i < Dispatch.MAX_TOOL_CALLS_PER_TURN
      && gate.Consult? && gate.observed && calls[i].name !in gate.readOnly
  }

  /** Over several turns: the within-limit calls the gate is asked about. */
  function AskedOver(gate: Dispatch.Gate, turns: seq<seq<ToolCall>>): multiset<ToolCall> {
    if turns == [] then multiset{}
    else Chosen(turns[0], |turns[0]|, Asked(gate, turns[0])) + AskedOver(gate, turns[1..])
  }

  /** Over several turns: the within-limit calls denied outright. */
  function ReportedOver(gate: Dispatch.Gate, turns: seq<seq<ToolCall>>): multiset<ToolCall> {
    if turns == [] then multiset{}
    else Chosen(turns[0], |turns[0]|, Reported(gate, turns[0])) + ReportedOver(gate, turns[1..])
  }

  /** The tools a run may hand to a client. */
  function Allowed(gate: Dispatch.Gate, toolbox: set<string>): set<string> {
    if gate.Consult? then toolbox * gate.readOnly else toolbox
  }

  /** The calls of a turn that may reach a client: within the limit, and of an allowed tool. */
  function Eligible(gate: Dispatch.Gate, toolbox: set<string>, calls: seq<ToolCall>): nat -> bool {
    (i: nat) =>
      i < |calls| && i < Dispatch.MAX_TOOL_CALLS_PER_TURN && calls[i].name in Allowed(gate, toolbox)
  }

  /** Over several turns. */
  function EligibleOver(gate: Dispatch.Gate, toolbox: set<string>, turns: seq<seq<ToolCall>>): multiset<ToolCall> {
    if turns == [] then multiset{}
    else Chosen(turns[0], |turns[0]|, Eligible(gate, toolbox, turns[0])) + EligibleOver(gate, toolbox, turns[1..])
  }

  /** Every invocation was of an allowed tool and let through by the gate or the operator, and each
      call was invoked at most as often as it was asked for within the limit; the gate was asked
      about, and the observer told of, exactly the calls it must be. */
  predicate Accounts(gate: Dispatch.Gate, toolbox: set<string>, l: Ledger) {
    && (forall k :: 0 <= k < |l.invocations| ==>
          && l.invocations[k].call.name in Allowed(gate, toolbox)
          && DispatchSafety.Approved(gate, l.invocations[k].branch))
    && CallsOf(l.invocations) <= EligibleOver(gate, toolbox, l.dispatched)
    && l.checks == AskedOver(gate, l.dispatched)
    && l.notices == ReportedOver(gate, l.dispatched)
  }

  lemma {:induction false} EligibleConcat(gate: Dispatch.Gate, toolbox: set<string>, a: seq<seq<ToolCall>>,
                                         b: seq<seq<ToolCall>>)
    ensures EligibleOver(gate, toolbox, a + b) == EligibleOver(gate, toolbox, a) + EligibleOver(gate, toolbox, b)
  {
    if a == [] {
      assert a + b == b;
    } else {
      assert (a + b)[1..] == a[1..] + b;
      EligibleConcat(gate, toolbox, a[1..], b);
    }
  }

  lemma {:induction false} OverConcat(gate: Dispatch.Gate, a: seq<seq<ToolCall>>, b: seq<seq<ToolCall>>)
    ensures AskedOver(gate, a + b) == AskedOver(gate, a) + AskedOver(gate, b)
    ensures ReportedOver(gate, a + b) == ReportedOver(gate, a) + ReportedOver(gate, b)
  {
    if a == [] {
      assert a + b == b;
    } else {
      assert (a + b)[1..] == a[1..] + b;
      OverConcat(gate, a[1..], b);
    }
  }

  lemma MergeAccounts(gate: Dispatch.Gate, toolbox: set<string>, a: Ledger, b: Ledger)
    requires Accounts(gate, toolbox, a) && Accounts(gate, toolbox, b)
    ensures Accounts(gate, toolbox, Merge(a, b))
  {
    OverConcat(gate, a.dispatched, b.dispatched);
    EligibleConcat(gate, toolbox, a.dispatched, b.dispatched);
    CallsOfConcat(a.invocations, b.invocations);
  }

  lemma OneTurn(gate: Dispatch.Gate, calls: seq<ToolCall>)
    ensures AskedOver(gate, [calls]) == Chosen(calls, |calls|, Asked(gate, calls))
    ensures ReportedOver(gate, [calls]) == Chosen(calls, |calls|, Reported(gate, calls))
  {
    assert [calls][1..] == [];
  }

  /** `end` is how some complete dispatch of `calls`, in some interleaving, ended. */
  ghost predicate IsDispatch(gate: Dispatch.Gate, toolbox: set<string>, calls: seq<ToolCall>, end: Dispatch.State) {
    var c := Dispatch.Config(calls, toolbox, gate);
    exists steps :: Dispatch.Complete(c, steps) && Dispatch.Run(c, Dispatch.Init(c), steps) == Some(end)
  }

  lemma LogsAreChosen(c: Dispatch.Config, steps: seq<Dispatch.Step>)
    requires Dispatch.Complete(c, steps)
    ensures var end := Dispatch.Run(c, Dispatch.Init(c), steps).value;
            && DispatchSafety.LogsInRange(c, end)
            && Picked(c.calls, end.checked) == Chosen(c.calls, |c.calls|, Asked(c.gate, c.calls))
            && Picked(c.calls, end.observed) == Chosen(c.calls, |c.calls|, Reported(c.gate, c.calls))
  {
    var end, n := Dispatch.Run(c, Dispatch.Init(c), steps).value, |c.calls|;
    DispatchSafety.RunInRange(c, Dispatch.Init(c), steps);
    forall i: nat | i < n
      ensures DispatchSafety.Count(end.checked, i) == if Asked(c.gate, c.calls)(i) then 1 else 0
      ensures DispatchSafety.Count(end.observed, i) == if Reported(c.gate, c.calls)(i) then 1 else 0
    {
      DispatchSafety.LogsComplete(c, steps, i);
    }
    PickedIsSpread(c.calls, end.checked);
    PickedIsSpread(c.calls, end.observed);
    SpreadIsChosen(c.calls, end.checked, n, Asked(c.gate, c.calls));
    SpreadIsChosen(c.calls, end.observed, n, Reported(c.gate, c.calls));
  }

  lemma InvocationAllowed(c: Dispatch.Config, steps: seq<Dispatch.Step>, k: nat)
    requires Dispatch.Complete(c, steps) && k < |Dispatch.Run(c, Dispatch.Init(c), steps).value.invoked|
    ensures var end := Dispatch.Run(c, Dispatch.Init(c), steps).value;
            && end.invoked[k] < |c.calls|
            && c.calls[end.invoked[k]].name in Allowed(c.gate, c.toolbox)
            && DispatchSafety.Approved(c.gate, end.branches[end.invoked[k]])
  {
    var end := Dispatch.Run(c, Dispatch.Init(c), steps).value;
    DispatchSafety.RunInRange(c, Dispatch.Init(c), steps);
    DispatchSafety.LoggedIsCounted(end.invoked, k);
    DispatchSafety.InvokedOnlyWhenApproved(c, steps, end.invoked[k]);
    if c.gate.Consult? { DispatchSafety.ConsultIsReadOnly(c, steps, end.invoked[k]); }
  }

  lemma InvokedWithin(c: Dispatch.Config, steps: seq<Dispatch.Step>)
    requires Dispatch.Complete(c, steps)
    ensures var end := Dispatch.Run(c, Dispatch.Init(c), steps).value;
            && DispatchSafety.InRange(end.invoked, |c.calls|)
            && Picked(c.calls, end.invoked) <= EligibleOver(c.gate, c.toolbox, [c.calls])
  {
    var end, want := Dispatch.Run(c, Dispatch.Init(c), steps).value, Eligible(c.gate, c.toolbox, c.calls);
    DispatchSafety.RunInRange(c, Dispatch.Init(c), steps);
    forall i: nat | i < |c.calls| ensures DispatchSafety.Count(end.invoked, i) <= if want(i) then 1 else 0 {
      DispatchSafety.InvokedOnlyWhenApproved(c, steps, i);
      if c.gate.Consult? { DispatchSafety.ConsultIsReadOnly(c, steps, i); }
    }
    PickedIsSpread(c.calls, end.invoked);
    SpreadWithin(c.calls, end.invoked, |c.calls|, want);
    assert [c.calls][1..] == [];
  }

  lemma InvocationsAllowed(c: Dispatch.Config, steps: seq<Dispatch.Step>)
    requires Dispatch.Complete(c, steps)
    ensures var end := Dispatch.Run(c, Dispatch.Init(c), steps).value;
            && |end.branches| == |c.calls| && DispatchSafety.LogsInRange(c, end)
            && var invocations := LedgerOf(c, end).invocations;
               && CallsOf(invocations) <= EligibleOver(c.gate, c.toolbox, [c.calls])
               && forall k :: 0 <= k < |invocations| ==>
                    && invocations[k].call.name in Allowed(c.gate, c.toolbox)
                    && DispatchSafety.Approved(c.gate, invocations[k].branch)
  {
    hide Allowed, DispatchSafety.Approved, Chosen, EligibleOver, DispatchSafety.Escalations, Picked, CallsOf;
    var end := Dispatch.Run(c, Dispatch.Init(c), steps).value;
    DispatchSafety.CompleteInv(c, steps, 0);
    LogsAreChosen(c, steps);
    InvokedWithin(c, steps);
    CallsOfPicked(c.calls, end.invoked, LedgerOf(c, end).invocations);
    forall k | 0 <= k < |end.invoked|
      ensures c.calls[end.invoked[k]].name in Allowed(c.gate, c.toolbox)
      ensures DispatchSafety.Approved(c.gate, end.branches[end.invoked[k]])
    {
      InvocationAllowed(c, steps, k);
    }
  }

  /** A complete dispatch leaves a ledger that accounts. */
  lemma DispatchAccounts(gate: Dispatch.Gate, toolbox: set<string>, calls: seq<ToolCall>, end: Dispatch.State)
    requires IsDispatch(gate, toolbox, calls, end)
    ensures var c := Dispatch.Config(calls, toolbox, gate);
            && |end.branches| == |calls| && DispatchSafety.LogsInRange(c, end)
            && Accounts(gate, toolbox, LedgerOf(c, end))
  {
    var c := Dispatch.Config(calls, toolbox, gate);
    var steps :| Dispatch.Complete(c, steps) && Dispatch.Run(c, Dispatch.Init(c), steps) == Some(end);
    hide Allowed, DispatchSafety.Approved, Chosen, EligibleOver, CallsOf, Picked, Dispatch.Complete;
    LogsAreChosen(c, steps);
    OneTurn(gate, calls);
    InvocationsAllowed(c, steps);
  }
}
