/** When the driver of a /loop ticks again after a tick that keeps the loop going. */
module LoopWaits {
  import opened Wrappers
  import opened LoopTiming
  import opened LoopModel
  import opened LoopSafety
  import LoopEndings

  /** The wait that the end of a tick asks for, if the loop goes on. */
  function WaitAfter(c: Config, l: Local, move: Move): Option<nat> {
    match move
    case RunTurn(TurnInFlight) => Some(NextTickDelay(c.pacing, l.failures, None))
    case RunTurn(StartFailed) => Some(NextTickDelay(c.pacing, l.failures + 1, None))
    case Finish(NotCompleted) => Some(NextTickDelay(c.pacing, l.failures + 1, None))
    case Finish(Completed(NoIntent(delay))) => Some(NextTickDelay(c.pacing, 0, delay))
    case _ => None
  }

  /** Driver `d` has not woken since its next tick time was set to `due`. */
  predicate Waits(s: State, d: nat, due: int) {
    && d in s.drivers && s.drivers[d].local.nextAt == due
    && (var pc := s.drivers[d].pc;
        || pc.Recording? || pc.Top? || pc.Metering? || pc.Sleeping?
        || pc.Closing? || pc.Auditing? || pc.Leaving? || pc.Gone?)
  }

  lemma SetsWait(c: Config, s: State, d: nat, move: Move)
    requires d in s.drivers && DriverStep(c, s, d, move).Some? && WaitAfter(c, s.drivers[d].local, move).Some?
    requires DriverStep(c, s, d, move).value.drivers[d].pc.Recording?
    ensures Waits(DriverStep(c, s, d, move).value, d, s.now + WaitAfter(c, s.drivers[d].local, move).value)
  {
    hide NextTickDelay, Writes;
  }

  lemma OwnWaits(c: Config, s: State, d: nat, due: int, move: Move)
    requires Waits(s, d, due) && DriverStep(c, s, d, move).Some? && !move.Wake?
    ensures Waits(DriverStep(c, s, d, move).value, d, due)
  {
    hide Settle;
  }

  /** Other tasks at most signal the driver. */
  lemma OthersWait(c: Config, s: State, d: nat, due: int, step: Step)
    requires Waits(s, d, due) && Quiet(s) && Next(c, s, step).Some? && !step.Crash? && !(step.Drive? && step.d == d)
    ensures Waits(Next(c, s, step).value, d, due)
  {
    hide Next;
    LoopEndings.OthersSpare(c, s, d, step);
  }

  lemma StepWaits(c: Config, s: State, d: nat, due: int, step: Step)
    requires Waits(s, d, due) && Quiet(s) && Next(c, s, step).Some? && !step.Crash? && step != Drive(d, Wake)
    ensures Waits(Next(c, s, step).value, d, due)
  {
    hide Waits, DriverStep, OpStep;
    if step.Drive? && step.d == d { OwnWaits(c, s, d, due, step.move); } else { OthersWait(c, s, d, due, step); }
  }

  lemma {:induction false} RunWaits(c: Config, s: State, d: nat, due: int, rest: seq<Step>)
    requires Inv(c, s) && Waits(s, d, due) && Run(c, s, rest).Some?
    requires forall k :: 0 <= k < |rest| ==> !rest[k].Crash? && rest[k] != Drive(d, Wake)
    ensures Waits(Run(c, s, rest).value, d, due)
    decreases |rest|
  {
    if rest != [] {
      var step, s1 := rest[0], Next(c, s, rest[0]).value;
      hide Next, Tally, Waits;
      StepKeepsInv(c, s, step);
      StepWaits(c, s, d, due, step);
      RunWaits(c, s1, d, due, rest[1..]);
    }
  }

  /** After a tick that keeps its loop going, a driver that sleeps for the next one can wake at the
      set time and not before: the agent's own cadence after a tick that passed, the plain one
      after a skipped tick, the backoff after one that failed. */
  lemma WakesWhenDue(c: Config, s: State, d: nat, move: Move, rest: seq<Step>)
    requires Inv(c, s) && d in s.drivers && WaitAfter(c, s.drivers[d].local, move).Some?
    requires DriverStep(c, s, d, move).Some? && DriverStep(c, s, d, move).value.drivers[d].pc.Recording?
    requires Run(c, DriverStep(c, s, d, move).value, rest).Some?
    requires forall k :: 0 <= k < |rest| ==> !rest[k].Crash? && rest[k] != Drive(d, Wake)
    ensures var s1 := Run(c, DriverStep(c, s, d, move).value, rest).value;
            && d in s1.drivers
            && (s1.drivers[d].pc.Sleeping? ==>
                  (Next(c, s1, Drive(d, Wake)).Some? <==>
                   s1.now >= s.now + WaitAfter(c, s.drivers[d].local, move).value))
  {
    hide DriverStep, Inv, WaitAfter;
    StepKeepsInv(c, s, Drive(d, move));
    SetsWait(c, s, d, move);
    RunWaits(c, DriverStep(c, s, d, move).value, d, s.now + WaitAfter(c, s.drivers[d].local, move).value, rest);
    var s1 := Run(c, DriverStep(c, s, d, move).value, rest).value;
    if s1.drivers[d].pc.Sleeping? { WakesIff(c, s1, d, s.now + WaitAfter(c, s.drivers[d].local, move).value); }
  }

  lemma WakesIff(c: Config, s: State, d: nat, due: int)
    requires Waits(s, d, due) && s.drivers[d].pc.Sleeping?
    ensures Next(c, s, Drive(d, Wake)).Some? <==> s.now >= due
  {
    hide Settle;
  }
}
