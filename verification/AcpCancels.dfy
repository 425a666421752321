/** Which turns of the Agent Client Protocol server are cancelled, and by what. */
module AcpCancels {
  import opened Wrappers
  import opened AcpServer
  import opened AcpSafety
  import AcpTheorems

  predicate CancelFor(l: Line, session: string) { l.Request? && l.m == CancelTurn(Some(session)) }

  /** Among the lines from `t` to `k` is a cancel for this session. */
  predicate Heard(lines: seq<Line>, t: nat, k: nat, session: string) {
    exists i :: t < i < k && i < |lines| && CancelFor(lines[i], session)
  }

  lemma HeardStep(lines: seq<Line>, t: nat, k: nat, session: string)
    requires k < |lines|
    ensures Heard(lines, t, k + 1, session) <==> Heard(lines, t, k, session) || (t < k && CancelFor(lines[k], session))
  {
    if Heard(lines, t, k, session) {
      var i :| t < i < k && i < |lines| && CancelFor(lines[i], session);
      assert t < i < k + 1;
    }
  }

  /** The lines that have taken effect: a cancel read last may not have yet. */
  function Handled(s: State): nat { if s.pc.Cancelling? && s.next > 0 then s.next - 1 else s.next }

  /** The tokens of all turns have been fired at the end of the input. */
  predicate Stopped(s: State) { s.pc.Draining? || s.pc.Returned? }

  predicate TurnHears(lines: seq<Line>, s: State, t: nat)
    requires t in s.turns
  {
    var told := Heard(lines, t, Handled(s), s.turns[t].session) || Stopped(s);
    (s.turns[t].cancelled ==> told) && (told && !s.turns[t].pc.Finished? ==> s.turns[t].cancelled)
  }

  predicate Hears(lines: seq<Line>, s: State) {
    && s.next <= |lines|
    && (s.pc.Cancelling? ==> s.next > 0 && s.next - 1 !in s.turns && CancelFor(lines[s.next - 1], s.pc.session))
    && forall t :: t in s.turns ==> t < s.next && TurnHears(lines, s, t)
  }

  lemma ReadHears(lines: seq<Line>, s: State)
    requires Hears(lines, s) && s.pc.Reading? && s.next < |lines|
    ensures Hears(lines, Dispatch(s.(next := s.next + 1), lines[s.next]))
  {
    hide Heard, Messages.Decimal;
    var s1 := Dispatch(s.(next := s.next + 1), lines[s.next]);
    DispatchOnlyParses(s.(next := s.next + 1), lines[s.next]);
    forall t | t in s1.turns ensures t < s1.next && TurnHears(lines, s1, t) {
      assert TurnHears(lines, s, t);
      HeardStep(lines, t, s.next, s.turns[t].session);
    }
  }

  /** The cancel that was read last takes effect. */
  lemma FireHears(lines: seq<Line>, s: State)
    requires Hears(lines, s) && Locks(s) && s.pc.Cancelling?
    ensures Hears(lines, Fire(s, s.pc.session).(pc := Reading))
  {
    hide Heard;
    var s1 := Fire(s, s.pc.session).(pc := Reading);
    forall t | t in s1.turns ensures t < s1.next && TurnHears(lines, s1, t) {
      assert TurnHears(lines, s, t);
      HeardStep(lines, t, s.next - 1, s.turns[t].session);
    }
  }

  lemma BeginHears(lines: seq<Line>, s: State)
    requires Hears(lines, s) && s.next > 0 && Begins(s)
    ensures Hears(lines, ReaderStep(s).value)
  {
    var s1 := ReaderStep(s).value;
    forall t | t in s1.turns ensures t < s1.next && TurnHears(lines, s1, t) {
      if t != s.next - 1 { assert TurnHears(lines, s, t); }
    }
  }

  lemma ReaderHears(lines: seq<Line>, s: State)
    requires Hears(lines, s) && Locks(s) && s.next > 0 && ReaderStep(s).Some?
    ensures Hears(lines, ReaderStep(s).value)
  {
    if s.pc.Cancelling? {
      FireHears(lines, s);
    } else if Begins(s) {
      BeginHears(lines, s);
    } else {
      hide Heard;
      var s1 := ReaderStep(s).value;
      forall t | t in s1.turns ensures TurnHears(lines, s1, t) { assert TurnHears(lines, s, t); }
    }
  }

  lemma ShutdownHears(lines: seq<Line>, s: State)
    requires Hears(lines, s) && Locks(s) && Shutdown(s).Some?
    ensures Hears(lines, Shutdown(s).value)
  {
    hide Heard;
    var s1 := Shutdown(s).value;
    forall t | t in s1.turns ensures t < s1.next && TurnHears(lines, s1, t) { assert TurnHears(lines, s, t); }
  }

  lemma TurnStepHears(lines: seq<Line>, s: State, t: nat, step: Step)
    requires Hears(lines, s) && t in s.turns && TurnStep(s, t, step).Some?
    ensures Hears(lines, TurnStep(s, t, step).value)
  {
    hide Heard;
    var s1 := TurnStep(s, t, step).value;
    forall u | u in s1.turns ensures u < s1.next && TurnHears(lines, s1, u) { assert TurnHears(lines, s, u); }
  }

  lemma StepHears(lines: seq<Line>, s: State, step: Step)
    requires Hears(lines, s) && Locks(s) && Next(lines, s, step).Some?
    ensures Hears(lines, Next(lines, s, step).value)
  {
    hide Hears, Locks, Dispatch, ReaderStep, Shutdown, TurnStep;
    if step.Read? { ReadHears(lines, s); }
    else if step.Proceed? {
      if s.pc.Reading? || s.pc.Over() { ShutdownHears(lines, s); } else { ReaderHears(lines, s); }
    }
    else { TurnStepHears(lines, s, step.t, step); }
  }

  lemma {:induction false} RunHears(lines: seq<Line>, s: State, steps: seq<Step>)
    requires Hears(lines, s) && Inv(lines, s) && Run(lines, s, steps).Some?
    ensures Hears(lines, Run(lines, s, steps).value)
    decreases |steps|
  {
    if steps != [] {
      StepKeepsInv(lines, s, steps[0]);
      StepHears(lines, s, steps[0]);
      RunHears(lines, Next(lines, s, steps[0]).value, steps[1..]);
    }
  }

  /** In every run: a turn in flight has been cancelled if and only if a cancel for its session was
      read after its prompt and has taken effect, or the input has ended; and one that has finished
      was cancelled for no other reason. */
  lemma CancelledIff(lines: seq<Line>, steps: seq<Step>, s: State, t: nat)
    requires AcpTheorems.Reaches(lines, steps, s) && t in s.turns
    ensures AcpTheorems.Busy(s, t) ==>
              (s.turns[t].cancelled <==> Heard(lines, t, Handled(s), s.turns[t].session) || Stopped(s))
    ensures s.turns[t].cancelled ==> Heard(lines, t, Handled(s), s.turns[t].session) || Stopped(s)
  {
    StartInv(lines);
    RunHears(lines, START, steps);
    assert TurnHears(lines, s, t);
  }

  lemma ReaderKeepsFinished(s: State, t: nat)
    requires Locks(s) && s.next > 0 && ReaderStep(s).Some? && t in s.turns && s.turns[t].pc.Finished?
    ensures t in ReaderStep(s).value.turns && ReaderStep(s).value.turns[t] == s.turns[t]
  {}

  /** A turn that has finished is left alone by every step from any reachable state; even its token
      is no longer there to be fired. */
  lemma FinishedIsFinal(lines: seq<Line>, steps: seq<Step>, s: State, t: nat, step: Step)
    requires AcpTheorems.Reaches(lines, steps, s) && Next(lines, s, step).Some?
    requires t in s.turns && s.turns[t].pc.Finished?
    ensures var s1 := Next(lines, s, step).value; t in s1.turns && s1.turns[t] == s.turns[t]
  {
    AcpTheorems.ReachedInv(lines, steps, s);
    if step.Read? { DispatchOnlyParses(s.(next := s.next + 1), lines[s.next]); }
    if step.Proceed? && !s.pc.Reading? && !s.pc.Over() { ReaderKeepsFinished(s, t); }
    hide Dispatch, ReaderStep;
  }
}
