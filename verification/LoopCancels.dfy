/** What cancelling a /loop does to its row and to its driver. */
module LoopCancels {
  import opened Wrappers
  import opened LoopTiming
  import opened LoopModel
  import opened LoopSafety

  /** As long as the call that cancelled the row has not signalled yet, the slot still names the one
      driver task that has not finished. */
  predicate Reachable(s: State) {
    (exists o :: o in s.ops && s.ops[o].CancelMoved?) ==>
      forall d :: d in s.drivers && !s.drivers[d].pc.Gone? ==> s.slot == Some(d)
  }

  lemma OpReachable(s: State, o: nat, ok: bool, d: nat)
    requires Reachable(s) && SlotDiscipline(s) && LoopSafety.Auditing(s) && o in s.ops && OpStep(s, o, ok, d).Some?
    ensures Reachable(OpStep(s, o, ok, d).value)
  {
    var s1 := OpStep(s, o, ok, d).value;
    if p :| p in s1.ops && s1.ops[p].CancelMoved? {
      if s.ops[o].CancelMoved? { assert p in s.ops && s.ops[p].OwesAudit() && s.ops[o].OwesAudit(); }
      assert p == o || (p in s.ops && s.ops[p].CancelMoved?);
    }
  }

  /** A driver's step leaves the calls and the other drivers alone; only letting go of the slot
      finishes it. */
  predicate OwnOnly(s: State, s1: State, d: nat) {
    && d in s.drivers && d in s1.drivers && s1.drivers == s.drivers[d := s1.drivers[d]] && s1.ops == s.ops
    && (if s1.drivers[d].pc.Gone? then s1.slot.None? && !s.drivers[d].pc.Gone?
        else s1.slot == s.slot && !s.drivers[d].pc.Gone?)
  }

  lemma WriteOwnOnly(s: State, d: nat, ok: bool)
    requires d in s.drivers && Writes(s, d, s.drivers[d], ok).Some?
    ensures OwnOnly(s, Writes(s, d, s.drivers[d], ok).value, d)
  {}

  lemma MoveOwnOnly(c: Config, s: State, d: nat, move: Move)
    requires d in s.drivers && DriverStep(c, s, d, move).Some?
    ensures OwnOnly(s, DriverStep(c, s, d, move).value, d)
  {
    hide NextTickDelay, Writes;
    if move.Write? { WriteOwnOnly(s, d, move.ok); }
  }

  lemma OwnOnlyReachable(s: State, s1: State, d: nat)
    requires Reachable(s) && OwnOnly(s, s1, d)
    ensures Reachable(s1)
  {}

  lemma MoveReachable(c: Config, s: State, d: nat, move: Move)
    requires Reachable(s) && d in s.drivers && DriverStep(c, s, d, move).Some?
    ensures Reachable(DriverStep(c, s, d, move).value)
  {
    hide DriverStep, OwnOnly, Reachable;
    MoveOwnOnly(c, s, d, move);
    OwnOnlyReachable(s, DriverStep(c, s, d, move).value, d);
  }

  lemma CallReachable(c: Config, s: State, step: Step)
    requires Reachable(s) && Quiet(s) && Next(c, s, step).Some? && !step.Drive? && !step.Proceed?
    ensures Reachable(Next(c, s, step).value)
  {
    hide DriverStep, OpStep;
  }

  lemma StepReachable(c: Config, s: State, step: Step)
    requires Reachable(s) && Inv(c, s) && Next(c, s, step).Some?
    ensures Reachable(Next(c, s, step).value)
  {
    hide Reachable, DriverStep, OpStep, Tally;
    if step.Drive? { MoveReachable(c, s, step.d, step.move); }
    else if step.Proceed? { OpReachable(s, step.o, step.ok, step.d); }
    else { CallReachable(c, s, step); }
  }

  lemma {:induction false} RunReachable(c: Config, s: State, steps: seq<Step>)
    requires Reachable(s) && Inv(c, s) && Run(c, s, steps).Some?
    ensures Reachable(Run(c, s, steps).value)
    decreases |steps|
  {
    hide Reachable, Inv, Next;
    if steps != [] {
      StepReachable(c, s, steps[0]);
      StepKeepsInv(c, s, steps[0]);
      RunReachable(c, Next(c, s, steps[0]).value, steps[1..]);
    }
  }

  /** Driver `d` has been signalled, and can act on it. */
  predicate Told(c: Config, s: State, d: nat) {
    && d in s.drivers && s.drivers[d].cancelled
    && (s.drivers[d].pc.Sleeping? || s.drivers[d].pc.Running? ==>
          var s1 := Next(c, s, Drive(d, SeeCancel));
          s1.Some? && s1.value.drivers[d].pc == Leaving(false) && s1.value.hist.fired == s.hist.fired)
  }

  lemma CancelledIsTold(c: Config, s: State, d: nat)
    requires d in s.drivers && s.drivers[d].cancelled
    ensures Told(c, s, d)
  {
    hide Settle, Writes;
  }

  /** What the write of a cancel does. */
  predicate MovesRow(s: State, s1: State, o: nat, ok: bool) {
    if ok && s.Live() then s1.row == Some(s.row.value.(status := Cancelled)) && s1.ops == s.ops[o := CancelMoved]
    else s1.row == s.row && s1.ops == s.ops - {o}
  }

  /** In every run: a cancel whose write finds the loop living cancels the row, and else changes
      nothing; when it then signals, the slot is freed, and every driver task that has not finished
      is told: asleep or in its turn it can now leave without another tick. */
  lemma CancelTakesEffect(c: Config, now: int, steps: seq<Step>, o: nat, ok: bool, e: nat)
    requires Run(c, Init(now), steps).Some?
    requires var s := Run(c, Init(now), steps).value; o in s.ops && (s.ops[o].CancelRead? || s.ops[o].CancelMoved?)
    ensures var s := Run(c, Init(now), steps).value;
            var s1 := Next(c, s, Proceed(o, ok, e));
            && s1.Some?
            && (s.ops[o].CancelRead? ==> MovesRow(s, s1.value, o, ok))
            && (s.ops[o].CancelMoved? ==>
                  && s1.value.slot.None? && s1.value.drivers.Keys == s.drivers.Keys
                  && forall d :: d in s.drivers && !s.drivers[d].pc.Gone? ==> Told(c, s1.value, d))
  {
    RunReachable(c, Init(now), steps);
    hide Told, DriverStep;
    var s := Run(c, Init(now), steps).value;
    if s.ops[o].CancelMoved? {
      forall d | d in s.drivers && !s.drivers[d].pc.Gone?
        ensures Told(c, Next(c, s, Proceed(o, ok, e)).value, d)
      {
        assert s.slot == Some(d);
        CancelledIsTold(c, Next(c, s, Proceed(o, ok, e)).value, d);
      }
    }
  }
}
