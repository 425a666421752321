/** The Agent Client Protocol server over whole runs, for any input, any delegates and any
    interleaving. */
module AcpTheorems {
  import opened Wrappers
  import opened Messages
  import opened AcpServer
  import opened AcpSafety

  predicate Reaches(lines: seq<Line>, steps: seq<Step>, s: State) {
    Run(lines, START, steps) == Some(s)
  }

  lemma ReachedInv(lines: seq<Line>, steps: seq<Step>, s: State)
    requires Reaches(lines, steps, s)
    ensures Inv(lines, s)
  {
    StartInv(lines);
    RunKeepsInv(lines, START, steps);
  }

  /** Turn `t` has not finished. */
  predicate Busy(s: State, t: nat) { t in s.turns && !s.turns[t].pc.Finished? }

  /** A turn of `session` is in flight. */
  ghost predicate InFlight(s: State, session: string) {
    exists t :: Busy(s, t) && s.turns[t].session == session
  }

  /** At any moment: at most one turn per session is in flight, and the registered sessions are
      exactly those with one. */
  lemma OneTurnPerSession(lines: seq<Line>, steps: seq<Step>, s: State)
    requires Reaches(lines, steps, s)
    ensures forall t, u :: Busy(s, t) && Busy(s, u) && s.turns[t].session == s.turns[u].session ==> t == u
    ensures forall x :: x in s.cancels <==> InFlight(s, x)
  {
    ReachedInv(lines, steps, s);
    forall x | x in s.cancels ensures InFlight(s, x) {
      assert Busy(s, s.cancels[x]) && s.turns[s.cancels[x]].session == x;
    }
  }

  /** A prompt for a known session starts a turn exactly when none is in flight there, and is
      otherwise refused as an invalid request, leaving every turn as it was. */
  lemma PromptRefusedIff(lines: seq<Line>, steps: seq<Step>, s: State)
    requires Reaches(lines, steps, s) && s.pc.TakingTurn?
    ensures Next(lines, s, Proceed).Some?
    ensures var s1 := Next(lines, s, Proceed).value;
            if InFlight(s, s.pc.session)
            then s1.turns == s.turns && s1.pc == Replying(Some(s.pc.to), Failed(InvalidRequest))
            else s1.turns.Keys == s.turns.Keys + {s.next - 1} && s1.pc.Reading?
                 && s1.turns[s.next - 1].session == s.pc.session && s1.turns[s.next - 1].id == s.pc.to
                 && forall t :: t in s.turns ==> s1.turns[t] == s.turns[t]
  {
    OneTurnPerSession(lines, steps, s);
    ReachedInv(lines, steps, s);
  }

  /** A cancel reaches the turn in flight of its session and no other turn. */
  lemma CancelHitsItsTurn(lines: seq<Line>, steps: seq<Step>, s: State, t: nat)
    requires Reaches(lines, steps, s) && s.pc.Cancelling? && t in s.turns
    ensures Next(lines, s, Proceed).Some? && t in Next(lines, s, Proceed).value.turns
    ensures Next(lines, s, Proceed).value.turns[t].cancelled <==>
              || s.turns[t].cancelled
              || (s.turns[t].session == s.pc.session && !s.turns[t].pc.Finished?)
  {
    ReachedInv(lines, steps, s);
  }

  /** No line is ever answered twice, none that should not be is answered, each response carries
      its own line's id; and when the server returns, every line that is owed a response has had
      exactly one. */
  lemma OneResponsePerRequest(lines: seq<Line>, steps: seq<Step>, s: State, i: nat)
    requires Reaches(lines, steps, s)
    ensures Responses(s.out, i) <= 1
    ensures Responses(s.out, i) == 1 ==> i < |lines| && Answerable(lines[i])
    ensures s.pc.Returned? && i < |lines| ==> Responses(s.out, i) == if Answerable(lines[i]) then 1 else 0
    ensures Addressed(lines, s.out)
  {
    ReachedInv(lines, steps, s);
    assert Balanced(lines, s, i);
  }

  /** The updates written for a turn are at any moment a prefix of what was sent into its sink,
      in order; once the turn has answered they include all the delegate sent before it
      returned. */
  lemma UpdatesAreSent(lines: seq<Line>, steps: seq<Step>, s: State, t: nat)
    requires Reaches(lines, steps, s) && t in s.turns
    ensures var turn, written := s.turns[t], Updates(s.out, t);
            && written <= turn.pushed
            && turn.atReturn <= |turn.pushed|
            && (turn.pc.Answered() ==> turn.pushed[..turn.atReturn] <= written)
  {
    ReachedInv(lines, steps, s);
    assert Streams(s, t);
    var turn, written := s.turns[t], Updates(s.out, t);
    assert turn.pushed == written + (InHand(turn.pc) + turn.queue);
  }

  /** An update is written before its own turn's response, and after the responses of all earlier
      turns of its session. */
  lemma UpdatesInOrder(lines: seq<Line>, steps: seq<Step>, s: State, q: nat)
    requires Reaches(lines, steps, s) && q < |s.out| && s.out[q].Update?
    ensures var u := s.out[q];
            && u.line in s.turns && s.turns[u.line].session == u.session
            && Responses(s.out[..q], u.line) == 0
            && (forall t :: t in s.turns && t < u.line && s.turns[t].session == u.session ==>
                  Responses(s.out[..q], t) == 1)
  {
    ReachedInv(lines, steps, s);
    assert UpdateInOrder(s, q);
  }

  /** When the input has ended, every turn still in flight has been cancelled; when the server
      returns there is none. */
  lemma ShutdownCancels(lines: seq<Line>, steps: seq<Step>, s: State)
    requires Reaches(lines, steps, s)
    ensures s.pc.Draining? ==> forall t :: t in s.turns && !s.turns[t].pc.Finished? ==> s.turns[t].cancelled
    ensures s.pc.Returned? ==> s.next == |lines| && AllFinished(s) && s.cancels == map[]
  {
    ReachedInv(lines, steps, s);
  }

  // ---- sessions --------------------------------------------------------------------------

  function SessionName(k: nat): string { "acp-" + Decimal(k) }

  lemma {:induction false} DecimalInjective(a: nat, b: nat)
    requires Decimal(a) == Decimal(b)
    ensures a == b
  {
    var m, n := Decimal(a), Decimal(b);
    assert m[|m| - 1] == n[|n| - 1];
    DigitInjective(a % 10, b % 10);
    DecimalLong(a);
    DecimalLong(b);
    if a >= 10 && b >= 10 {
      assert m[..|m| - 1] == Decimal(a / 10) && n[..|n| - 1] == Decimal(b / 10);
      DecimalInjective(a / 10, b / 10);
    }
  }

  lemma DecimalLong(n: nat)
    ensures |Decimal(n)| >= 1 && (n >= 10 ==> |Decimal(n)| >= 2)
    ensures Decimal(n)[|Decimal(n)| - 1] == "0123456789"[n % 10]
  {
    if n >= 10 { DecimalLong(n / 10); }
  }

  lemma DigitInjective(a: nat, b: nat)
    requires a < 10 && b < 10 && "0123456789"[a] == "0123456789"[b]
    ensures a == b
  {}

  /** Every session was named by an earlier value of the counter. */
  ghost predicate SessionsNamed(s: State) {
    var used := if s.pc.AddingSession? then s.counter - 1 else s.counter as int;
    && (s.pc.AddingSession? ==> s.counter > 0 && s.pc.session == SessionName(s.counter - 1))
    && forall x :: x in s.sessions ==> exists k: nat :: k < used && x == SessionName(k)
  }

  lemma {:induction false} RunNamesSessions(lines: seq<Line>, s: State, steps: seq<Step>)
    requires SessionsNamed(s) && Run(lines, s, steps).Some?
    ensures SessionsNamed(Run(lines, s, steps).value)
    decreases |steps|
  {
    if steps != [] {
      StepNamesSessions(lines, s, steps[0]);
      RunNamesSessions(lines, Next(lines, s, steps[0]).value, steps[1..]);
    }
  }

  lemma TurnsNameNoSessions(s: State, t: nat, step: Step)
    requires t in s.turns && TurnStep(s, t, step).Some?
    ensures var s1 := TurnStep(s, t, step).value;
            s1.pc == s.pc && s1.counter == s.counter && s1.sessions == s.sessions
  {}

  lemma StepNamesSessions(lines: seq<Line>, s: State, step: Step)
    requires SessionsNamed(s) && Next(lines, s, step).Some?
    ensures SessionsNamed(Next(lines, s, step).value)
  {
    if step.Read? { DispatchNames(s.(next := s.next + 1), lines[s.next]); }
    else if step.Proceed? { LoopNames(lines, s); }
    else { TurnsNameNoSessions(s, step.t, step); }
  }

  lemma DispatchNames(s: State, l: Line)
    requires SessionsNamed(s) && s.pc.Reading?
    ensures SessionsNamed(Dispatch(s, l))
  {
    hide Decimal, Negotiated;
  }

  lemma LoopNames(lines: seq<Line>, s: State)
    requires SessionsNamed(s) && Next(lines, s, Proceed).Some?
    ensures SessionsNamed(Next(lines, s, Proceed).value)
  {}

  /** A new session never gets the name of an existing one. */
  lemma NewSessionsAreFresh(lines: seq<Line>, steps: seq<Step>, s: State)
    requires Reaches(lines, steps, s) && s.pc.AddingSession?
    ensures s.pc.session !in s.sessions
  {
    RunNamesSessions(lines, START, steps);
    if s.pc.session in s.sessions {
      var k: nat :| k < s.counter - 1 && s.pc.session == SessionName(k);
      assert SessionName(k)[4..] == Decimal(k) && SessionName(s.counter - 1)[4..] == Decimal(s.counter - 1);
      DecimalInjective(k, s.counter - 1);
    }
  }

  // ---- progress --------------------------------------------------------------------------

  lemma {:induction false} RunConcat(lines: seq<Line>, s: State, a: seq<Step>, b: seq<Step>)
    requires Run(lines, s, a).Some?
    ensures Run(lines, s, a + b) == Run(lines, Run(lines, s, a).value, b)
    decreases |a|
  {
    if a == [] {
      assert a + b == b;
    } else {
      assert (a + b)[1..] == a[1..] + b;
      RunConcat(lines, Next(lines, s, a[0]).value, a[1..], b);
    }
  }

  function PcRank(pc: Pc): nat {
    match pc
    case CheckingSession(_, _) => 5
    case TakingTurn(_, _) => 4
    case AddingSession(_, _) => 4
    case Replying(_, _) => 3
    case Cancelling(_) => 3
    case Reading => 2
    case Closing => 1
    case _ => 0
  }

  function OnwardReader(lines: seq<Line>, s: State): Step {
    if s.pc.Reading? && s.next < |lines| then Read else Proceed
  }

  lemma OnwardReaderStep(lines: seq<Line>, s: State)
    requires PcFits(lines, s) && Winding(lines, s) && !s.pc.Draining? && !s.pc.Returned?
    ensures var r := Next(lines, s, OnwardReader(lines, s));
            && r.Some? && !r.value.pc.Returned? && r.value.next <= |lines|
            && (r.value.next == s.next + 1 || (r.value.next == s.next && PcRank(r.value.pc) < PcRank(s.pc)))
  {}

  /** The read loop can always go on until the input has ended. */
  lemma {:induction false} CanDrain(lines: seq<Line>, s: State) returns (steps: seq<Step>, s1: State)
    requires Inv(lines, s) && !s.pc.Returned?
    ensures Run(lines, s, steps) == Some(s1) && Inv(lines, s1) && s1.pc.Draining?
    decreases |lines| - s.next, PcRank(s.pc)
  {
    if s.pc.Draining? { return [], s; }
    hide Next, PcFits;
    OnwardReaderStep(lines, s);
    var step := OnwardReader(lines, s);
    StepKeepsInv(lines, s, step);
    steps, s1 := CanDrain(lines, Next(lines, s, step).value);
    assert ([step] + steps)[1..] == steps;
    steps := [step] + steps;
  }

  function TurnRank(turn: Turn): nat {
    2 * |turn.queue| +
    match turn.pc
    case Streaming => 4
    case Emitting(_, then_) => if then_.Some? then 4 else 5
    case Flushing(_) => 3
    case Answering(_) => 2
    case Releasing => 1
    case Finished => 0
  }

  function OnwardTurn(t: nat, turn: Turn): Step {
    match turn.pc
    case Streaming => Return(t, AcpServer.Cancelled)
    case Flushing(_) => Receive(t)
    case Releasing => Release(t)
    case _ => Write(t)
  }

  lemma OnwardTurnStep(lines: seq<Line>, s: State, t: nat)
    requires t in s.turns && !s.turns[t].pc.Finished?
    ensures var r := Next(lines, s, OnwardTurn(t, s.turns[t]));
            && r.Some? && r.value.turns.Keys == s.turns.Keys && r.value.pc == s.pc
            && TurnRank(r.value.turns[t]) < TurnRank(s.turns[t])
            && forall u :: u in s.turns && u != t ==> r.value.turns[u] == s.turns[u]
  {}

  /** Once its delegate returns, a turn can always finish on its own. */
  lemma {:induction false} CanFinish(lines: seq<Line>, s: State, t: nat) returns (steps: seq<Step>, s1: State)
    requires Inv(lines, s) && t in s.turns
    ensures Run(lines, s, steps) == Some(s1) && Inv(lines, s1) && s1.pc == s.pc
    ensures s1.turns.Keys == s.turns.Keys && s1.turns[t].pc.Finished?
    ensures forall u :: u in s.turns && u != t ==> s1.turns[u] == s.turns[u]
    decreases TurnRank(s.turns[t])
  {
    if s.turns[t].pc.Finished? { return [], s; }
    var step := OnwardTurn(t, s.turns[t]);
    OnwardTurnStep(lines, s, t);
    StepKeepsInv(lines, s, step);
    steps, s1 := CanFinish(lines, Next(lines, s, step).value, t);
    assert ([step] + steps)[1..] == steps;
    steps := [step] + steps;
  }

  function Unfinished(s: State): set<nat> { set t | t in s.turns && !s.turns[t].pc.Finished? }

  lemma OneFewer(s: State, s1: State, t: nat)
    requires Busy(s, t) && s1.turns.Keys == s.turns.Keys && s1.turns[t].pc.Finished?
    requires forall u :: u in s.turns && u != t ==> s1.turns[u] == s.turns[u]
    ensures |Unfinished(s1)| < |Unfinished(s)|
  {
    assert Unfinished(s1) == Unfinished(s) - {t};
  }

  lemma {:induction false} CanReturn(lines: seq<Line>, s: State) returns (steps: seq<Step>, s1: State)
    requires Inv(lines, s) && s.pc.Draining?
    ensures Run(lines, s, steps) == Some(s1) && s1.pc.Returned?
    decreases |Unfinished(s)|
  {
    if forall t :: t in s.turns ==> !Busy(s, t) {
      steps, s1 := [Proceed], Next(lines, s, Proceed).value;
      assert [Proceed][1..] == [];
    } else {
      var t: nat :| t in s.turns && Busy(s, t);
      var first, s2 := CanFinish(lines, s, t);
      OneFewer(s, s2, t);
      var rest;
      rest, s1 := CanReturn(lines, s2);
      RunConcat(lines, s, first, rest);
      steps := first + rest;
    }
  }

  /** From every reachable state the server can return: reading never blocks on a turn, and the
      final drain never waits for a response, a lock or a client. */
  lemma NeverStuck(lines: seq<Line>, before: seq<Step>, s: State) returns (steps: seq<Step>, s1: State)
    requires Reaches(lines, before, s)
    ensures Run(lines, s, steps) == Some(s1) && s1.pc.Returned?
  {
    ReachedInv(lines, before, s);
    if s.pc.Returned? { return [], s; }
    var first, s2 := CanDrain(lines, s);
    var rest;
    rest, s1 := CanReturn(lines, s2);
    RunConcat(lines, s, first, rest);
    steps := first + rest;
  }

  // ---- a reachable surprise --------------------------------------------------------------

  lemma Go(lines: seq<Line>, trace: seq<Step>, s: State, step: Step) returns (trace1: seq<Step>, s1: State)
    requires Reaches(lines, trace, s) && Next(lines, s, step).Some?
    ensures trace1 == trace + [step] && Reaches(lines, trace1, s1) && s1 == Next(lines, s, step).value
  {
    trace1, s1 := trace + [step], Next(lines, s, step).value;
    assert [step][1..] == [];
    RunConcat(lines, START, trace, [step]);
  }

  /** The client creates a session. */
  lemma SessionMade(lines: seq<Line>) returns (trace: seq<Step>, s: State)
    requires |lines| >= 1 && lines[0] == Request(Some(0), NewSession)
    ensures Reaches(lines, trace, s)
    ensures s == State(1, Reading, 1, {SessionName(0)}, map[], map[],
                       [Response(0, Some(0), SessionCreated(SessionName(0)))])
  {
    trace, s := [], START;
    trace, s := Go(lines, trace, s, Read);
    trace, s := Go(lines, trace, s, Proceed);
    trace, s := Go(lines, trace, s, Proceed);
  }

  /** It prompts the session, and the turn starts. */
  lemma TurnBegun(lines: seq<Line>) returns (trace: seq<Step>, s: State)
    requires |lines| >= 2 && lines[0] == Request(Some(0), NewSession)
    requires lines[1] == Request(Some(1), Prompt(Some(SessionName(0))))
    ensures Reaches(lines, trace, s)
    ensures s == State(2, Reading, 1, {SessionName(0)}, map[SessionName(0) := 1],
                       map[1 := Turn(1, SessionName(0), Streaming, [], false, [], 0, None)],
                       [Response(0, Some(0), SessionCreated(SessionName(0)))])
  {
    trace, s := SessionMade(lines);
    trace, s := Go(lines, trace, s, Read);
    trace, s := Go(lines, trace, s, Proceed);
    trace, s := Go(lines, trace, s, Proceed);
  }

  /** It sees the turn's response. */
  lemma TurnAnswered(lines: seq<Line>) returns (trace: seq<Step>, s: State)
    requires |lines| >= 2 && lines[0] == Request(Some(0), NewSession)
    requires lines[1] == Request(Some(1), Prompt(Some(SessionName(0))))
    ensures Reaches(lines, trace, s) && s.pc.Reading? && s.next == 2
    ensures s.sessions == {SessionName(0)} && s.cancels == map[SessionName(0) := 1]
    ensures s.out == [Response(0, Some(0), SessionCreated(SessionName(0))), Response(1, Some(1), TurnEnded(EndTurn))]
  {
    trace, s := TurnBegun(lines);
    trace, s := Go(lines, trace, s, Return(1, EndTurn));
    trace, s := Go(lines, trace, s, Receive(1));
    trace, s := Go(lines, trace, s, Write(1));
  }

  /** The lock outlives the response: a client that waits for a turn's response before it sends
      the next prompt can still be told that a turn is in flight. */
  lemma PromptAfterResponseRefused()
    returns (lines: seq<Line>, before: seq<Step>, s: State, after: seq<Step>, s1: State)
    ensures Reaches(lines, before, s) && s.next == 2 && Responses(s.out, 1) == 1
    ensures |lines| == 3 && lines[2..] == [Request(Some(2), Prompt(Some(SessionName(0))))]
    ensures Reaches(lines, before + [Read] + after, s1)
    ensures s1.out == s.out + [Response(2, Some(2), Failed(InvalidRequest))]
  {
    var prompt := Prompt(Some(SessionName(0)));
    lines := [Request(Some(0), NewSession), Request(Some(1), prompt), Request(Some(2), prompt)];
    before, s := TurnAnswered(lines);
    ResponsesAppend(s.out[..1], s.out[1], 1);
    assert s.out == s.out[..1] + [s.out[1]];
    ResponsesAppend([], s.out[0], 1);
    var trace;
    trace, s1 := Go(lines, before, s, Read);
    trace, s1 := Go(lines, trace, s1, Proceed);
    trace, s1 := Go(lines, trace, s1, Proceed);
    trace, s1 := Go(lines, trace, s1, Proceed);
    after := [Proceed, Proceed, Proceed];
    assert trace == before + [Read] + after;
  }
}
