/** The /loop controller never spins: what separates two ticks of a loop. */
module LoopSpacing {
  import opened Wrappers
  import opened LoopTiming
  import opened LoopModel
  import LoopSafety

  /** No crash, no failed write, no stale resume so far. */
  predicate Clean(s: State) { !s.hist.crashed && !s.hist.storeError && !s.hist.stale }

  /** `at` is at least `g` seconds after the latest tick. */
  predicate Due(g: nat, s: State, at: int) {
    s.hist.starts != [] ==> s.hist.starts[|s.hist.starts| - 1] + g <= at
  }

  /** Ticks are at least `g` seconds apart, and none lies in the future. */
  predicate Gaps(g: nat, s: State) {
    && (forall i :: 0 < i < |s.hist.starts| ==> s.hist.starts[i - 1] + g <= s.hist.starts[i])
    && (forall i :: 0 <= i < |s.hist.starts| ==> s.hist.starts[i] <= s.now)
  }

  /** A resume call read no more ticks than are stored, and if just as many, its next tick time
      is due. */
  predicate Snapshots(g: nat, s: State) {
    forall o :: o in s.ops && s.ops[o].ResumeRead? ==>
      && s.row.Some? && s.ops[o].snapshot.ticks <= s.row.value.ticks
      && (s.Is(Paused) && s.ops[o].snapshot.ticks == s.row.value.ticks ==> Due(g, s, s.ops[o].snapshot.nextAt))
  }

  /** Whoever may tick next waits for a time that is due, and has counted all stored ticks. */
  predicate OwnerDue(g: nat, s: State) {
    match s.hist.owner
    case ByOp(o) =>
      o in s.ops && s.ops[o].ArmPending? ==>
        && Due(g, s, s.ops[o].local.nextAt)
        && (s.row.Some? ==> s.row.value.ticks <= s.ops[o].local.ticks)
    case ByDriver(d) => d in s.drivers ==> DriverDue(g, s, s.drivers[d])
    case _ => true
  }

  predicate DriverDue(g: nat, s: State, drv: Driver) {
    && (s.row.Some? ==> s.row.value.ticks <= drv.local.ticks)
    && (drv.pc.Top? || drv.pc.Metering? || drv.pc.Sleeping? || drv.pc.Recording? ==> Due(g, s, drv.local.nextAt))
    && (drv.pc.Persisting? || drv.pc.Pausing? ==>
          forall o :: o in s.ops && s.ops[o].ResumeRead? ==> s.ops[o].snapshot.ticks < drv.local.ticks)
  }

  predicate Spaced(g: nat, s: State) {
    Clean(s) ==> Gaps(g, s) && Snapshots(g, s) && OwnerDue(g, s)
  }

  lemma GetSpaced(g: nat, c: Config, s: State, step: Step)
    requires c.pacing.Valid() && g == Gap(c.pacing) && LoopSafety.Ownership(s) && Spaced(g, s)
    requires Next(c, s, step).Some? && (step.CancelGet? || step.ResumeGet?)
    ensures Spaced(g, Next(c, s, step).value)
  {
    hide DriverStep, OpStep;
  }

  lemma ClockSpaced(g: nat, c: Config, s: State, step: Step)
    requires c.pacing.Valid() && Spaced(g, s) && Next(c, s, step).Some? && step.Clock?
    ensures Spaced(g, Next(c, s, step).value)
  {
    hide DriverStep, OpStep;
  }

  lemma CreateSpaced(g: nat, c: Config, s: State, step: Step)
    requires c.pacing.Valid() && g == Gap(c.pacing) && LoopSafety.Unborn(s) && Spaced(g, s)
    requires Next(c, s, step).Some? && step.Create?
    ensures Spaced(g, Next(c, s, step).value)
  {
    hide DriverStep, OpStep;
  }

  lemma CallSpaced(g: nat, c: Config, s: State, step: Step)
    requires c.pacing.Valid() && g == Gap(c.pacing) && LoopSafety.Shape(s) && Spaced(g, s) && Next(c, s, step).Some?
    requires step.Create? || step.CancelGet? || step.ResumeGet? || step.Clock?
    ensures Spaced(g, Next(c, s, step).value)
  {
    hide DriverStep, OpStep, Spaced;
    if step.Create? { CreateSpaced(g, c, s, step); }
    else if step.Clock? { ClockSpaced(g, c, s, step); }
    else { GetSpaced(g, c, s, step); }
  }

  lemma CancelSpaced(g: nat, s: State, o: nat, ok: bool, d: nat)
    requires LoopSafety.Ownership(s) && Spaced(g, s) && o in s.ops && s.ops[o].CancelRead?
    ensures Spaced(g, OpStep(s, o, ok, d).value)
  {}

  lemma SignalSpaced(g: nat, s: State, o: nat, ok: bool, d: nat)
    requires Spaced(g, s) && o in s.ops && s.ops[o].OwesAudit()
    ensures Spaced(g, OpStep(s, o, ok, d).value)
  {}

  lemma ResumeSpaced(g: nat, s: State, o: nat, ok: bool, d: nat)
    requires LoopSafety.Ownership(s) && Spaced(g, s) && o in s.ops && OpStep(s, o, ok, d).Some?
    requires s.ops[o].ResumeRead?
    ensures Spaced(g, OpStep(s, o, ok, d).value)
  {}

  lemma ArmSpaced(g: nat, s: State, o: nat, ok: bool, d: nat)
    requires LoopSafety.Ownership(s) && Spaced(g, s) && o in s.ops && OpStep(s, o, ok, d).Some?
    requires s.ops[o].ArmPending?
    ensures Spaced(g, OpStep(s, o, ok, d).value)
  {}

  lemma ProceedSpaced(g: nat, s: State, o: nat, ok: bool, d: nat)
    requires LoopSafety.Ownership(s) && Spaced(g, s) && o in s.ops && OpStep(s, o, ok, d).Some?
    ensures Spaced(g, OpStep(s, o, ok, d).value)
  {
    match s.ops[o]
    case CancelRead => CancelSpaced(g, s, o, ok, d);
    case CancelMoved => SignalSpaced(g, s, o, ok, d);
    case CancelSignalled => SignalSpaced(g, s, o, ok, d);
    case ResumeRead(_) => ResumeSpaced(g, s, o, ok, d);
    case ArmPending(_) => ArmSpaced(g, s, o, ok, d);
  }

  lemma RebootSpaced(g: nat, c: Config, s: State, step: Step)
    requires LoopSafety.Quiet(s) && Spaced(g, s) && Next(c, s, step).Some?
    requires step.Crash? || step.Replay? || step.ReplayClose? || step.ReplayAudit?
    ensures Spaced(g, Next(c, s, step).value)
  {
    hide DriverStep, OpStep;
  }

  /** The moves before a tick. */
  lemma WaitSpaced(g: nat, c: Config, s: State, d: nat, move: Move)
    requires LoopSafety.Ownership(s) && Spaced(g, s) && d in s.drivers && DriverStep(c, s, d, move).Some?
    requires move.Gate? || move.Meter?
    ensures Spaced(g, DriverStep(c, s, d, move).value)
  {
    hide Writes, Settle;
  }

  lemma LeaveSpaced(g: nat, c: Config, s: State, d: nat)
    requires Spaced(g, s) && d in s.drivers && DriverStep(c, s, d, SeeCancel).Some?
    ensures Spaced(g, DriverStep(c, s, d, SeeCancel).value)
  {
    hide Writes, Settle;
  }

  lemma WakeSpaced(g: nat, c: Config, s: State, d: nat)
    requires LoopSafety.Ownership(s) && Spaced(g, s) && d in s.drivers && DriverStep(c, s, d, Wake).Some?
    ensures Spaced(g, DriverStep(c, s, d, Wake).value)
  {
    hide Writes, Settle;
  }

  /** A tick that keeps the loop going leaves a next tick time that is due. */
  lemma SettleSpaced(g: nat, s: State, s0: State, d: nat, drv: Driver, l: Local, nextAt: int)
    requires s0 == s.(hist := s.hist.(fired := s0.hist.fired, idle := s0.hist.idle, streak := s0.hist.streak))
    requires s.hist.owner == ByDriver(d) && d in s.drivers && s.drivers[d] == drv
    requires Spaced(g, s) && drv.local.ticks <= l.ticks && s.now + g <= nextAt
    ensures Spaced(g, SettleAt(s0, d, drv, l, nextAt))
  {}

  lemma SkippedSpaced(g: nat, c: Config, s: State, d: nat)
    requires c.pacing.Valid() && g == Gap(c.pacing) && s.hist.owner == ByDriver(d) && Spaced(g, s) && d in s.drivers
    requires s.drivers[d].pc.Starting?
    ensures Spaced(g, DriverStep(c, s, d, RunTurn(TurnInFlight)).value)
  {
    hide SettleAt, NextTickDelay, Spaced;
    var drv := s.drivers[d];
    DelayBounds(c.pacing, drv.local.failures, None);
    SettleSpaced(g, s, Idle(s), d, drv, drv.local, s.now + NextTickDelay(c.pacing, drv.local.failures, None));
  }

  lemma StartFailedSpaced(g: nat, c: Config, s: State, d: nat)
    requires c.pacing.Valid() && g == Gap(c.pacing) && s.hist.owner == ByDriver(d) && Spaced(g, s) && d in s.drivers
    requires s.drivers[d].pc.Starting?
    ensures Spaced(g, DriverStep(c, s, d, RunTurn(StartFailed)).value)
  {
    hide SettleAt, NextTickDelay, Spaced;
    var drv := s.drivers[d];
    DelayBounds(c.pacing, drv.local.failures + 1, None);
    SettleSpaced(g, s, Streak(Fired(s), s.hist.streak + 1), d, drv, TickFailed(drv.local),
                 s.now + NextTickDelay(c.pacing, drv.local.failures + 1, None));
  }

  lemma StartSpaced(g: nat, c: Config, s: State, d: nat, start: StartResult)
    requires c.pacing.Valid() && g == Gap(c.pacing) && s.hist.owner == ByDriver(d) && Spaced(g, s) && d in s.drivers
    requires s.drivers[d].pc.Starting?
    ensures Spaced(g, DriverStep(c, s, d, RunTurn(start)).value)
  {
    match start
    case TurnInFlight => SkippedSpaced(g, c, s, d);
    case StartFailed => StartFailedSpaced(g, c, s, d);
    case SessionGone =>
    case Launched =>
  }

  lemma FailedSpaced(g: nat, c: Config, s: State, d: nat)
    requires c.pacing.Valid() && g == Gap(c.pacing) && s.hist.owner == ByDriver(d) && Spaced(g, s) && d in s.drivers
    requires s.drivers[d].pc.Running?
    ensures Spaced(g, DriverStep(c, s, d, Finish(NotCompleted)).value)
  {
    hide SettleAt, NextTickDelay, Spaced;
    var drv := s.drivers[d];
    DelayBounds(c.pacing, drv.local.failures + 1, None);
    SettleSpaced(g, s, Streak(s, s.hist.streak + 1), d, drv, TickFailed(drv.local),
                 s.now + NextTickDelay(c.pacing, drv.local.failures + 1, None));
  }

  lemma PassedSpaced(g: nat, c: Config, s: State, d: nat, delay: Option<Request>)
    requires c.pacing.Valid() && g == Gap(c.pacing) && s.hist.owner == ByDriver(d) && Spaced(g, s) && d in s.drivers
    requires s.drivers[d].pc.Running?
    ensures Spaced(g, DriverStep(c, s, d, Finish(Completed(NoIntent(delay)))).value)
  {
    hide SettleAt, NextTickDelay, Spaced;
    var drv := s.drivers[d];
    DelayBounds(c.pacing, 0, delay);
    SettleSpaced(g, s, Streak(s, 0), d, drv, TickPassed(drv.local), s.now + NextTickDelay(c.pacing, 0, delay));
  }

  lemma CompletedSpaced(g: nat, c: Config, s: State, d: nat, intent: Intent)
    requires c.pacing.Valid() && g == Gap(c.pacing) && s.hist.owner == ByDriver(d) && Spaced(g, s) && d in s.drivers
    requires s.drivers[d].pc.Running?
    ensures Spaced(g, DriverStep(c, s, d, Finish(Completed(intent))).value)
  {
    if intent.NoIntent? { PassedSpaced(g, c, s, d, intent.delay); }
  }

  /** `record_tick`, after a tick or before the agent's last word takes effect. */
  lemma RecordSpaced(g: nat, s: State, d: nat, ok: bool)
    requires LoopSafety.Ownership(s) && Spaced(g, s) && d in s.drivers
    requires s.drivers[d].pc.Recording? || s.drivers[d].pc.Persisting?
    ensures Spaced(g, Writes(s, d, s.drivers[d], ok).value)
  {}

  lemma PauseSpaced(g: nat, c: Config, s: State, d: nat, ok: bool)
    requires LoopSafety.Ownership(s) && LoopSafety.Counted(c, s) && Spaced(g, s) && d in s.drivers
    requires s.drivers[d].pc.Pausing?
    ensures Spaced(g, Writes(s, d, s.drivers[d], ok).value)
  {
    if Clean(s) && ok && s.Is(Active) {
      assert s.hist.owner == ByDriver(d) && DriverDue(g, s, s.drivers[d]);
      assert s.row.value.ticks == s.drivers[d].local.ticks;
    }
  }

  lemma CloseSpaced(g: nat, s: State, d: nat, ok: bool)
    requires LoopSafety.Ownership(s) && Spaced(g, s) && d in s.drivers && s.drivers[d].pc.Closing?
    requires s.drivers[d].pc.to.Terminal()
    ensures Spaced(g, Writes(s, d, s.drivers[d], ok).value)
  {}

  lemma WriteSpaced(g: nat, c: Config, s: State, d: nat, ok: bool)
    requires LoopSafety.Inv(c, s) && Spaced(g, s) && d in s.drivers
    requires Writes(s, d, s.drivers[d], ok).Some?
    ensures Spaced(g, Writes(s, d, s.drivers[d], ok).value)
  {
    if s.drivers[d].pc.Pausing? { PauseSpaced(g, c, s, d, ok); }
    else if s.drivers[d].pc.Closing? { CloseSpaced(g, s, d, ok); }
    else { RecordSpaced(g, s, d, ok); }
  }

  lemma LastMovesSpaced(g: nat, c: Config, s: State, d: nat, move: Move)
    requires LoopSafety.Ownership(s) && Spaced(g, s) && d in s.drivers && DriverStep(c, s, d, move).Some?
    requires move.Audit? || move.Drop?
    ensures Spaced(g, DriverStep(c, s, d, move).value)
  {
    hide Writes, Settle;
  }

  lemma StepSpaced(g: nat, c: Config, s: State, step: Step)
    requires c.pacing.Valid() && g == Gap(c.pacing) && LoopSafety.Inv(c, s) && Spaced(g, s) && Next(c, s, step).Some?
    ensures Spaced(g, Next(c, s, step).value)
  {
    hide Spaced;
    if step.Drive? {
      match step.move
      case Gate => WaitSpaced(g, c, s, step.d, step.move);
      case Meter(_) => WaitSpaced(g, c, s, step.d, step.move);
      case SeeCancel => LeaveSpaced(g, c, s, step.d);
      case Wake => WakeSpaced(g, c, s, step.d);
      case RunTurn(start) => StartSpaced(g, c, s, step.d, start);
      case Finish(NotCompleted) => FailedSpaced(g, c, s, step.d);
      case Finish(Completed(intent)) => CompletedSpaced(g, c, s, step.d, intent);
      case Write(ok) => WriteSpaced(g, c, s, step.d, ok);
      case Audit => LastMovesSpaced(g, c, s, step.d, step.move);
      case Drop => LastMovesSpaced(g, c, s, step.d, step.move);
    } else if step.Proceed? {
      ProceedSpaced(g, s, step.o, step.ok, step.d);
    } else if step.Crash? || step.Replay? || step.ReplayClose? || step.ReplayAudit? {
      RebootSpaced(g, c, s, step);
    } else {
      CallSpaced(g, c, s, step);
    }
  }

  lemma {:induction false} RunSpaced(g: nat, c: Config, s: State, steps: seq<Step>)
    requires c.pacing.Valid() && g == Gap(c.pacing) && LoopSafety.Inv(c, s) && Spaced(g, s) && Run(c, s, steps).Some?
    ensures Spaced(g, Run(c, s, steps).value)
    decreases |steps|
  {
    if steps != [] {
      StepSpaced(g, c, s, steps[0]);
      LoopSafety.StepKeepsInv(c, s, steps[0]);
      RunSpaced(g, c, Next(c, s, steps[0]).value, steps[1..]);
    }
  }

  /** With valid pacing, in every run without a crash, a failed write or a stale resume, any two
      ticks of a loop start at least the pacing's gap apart (the interval, or the lower bound of the
      window if that is less), so at least a second; skipped and failed ones included, whatever
      cadence the agent asks for and however often the loop is paused and resumed. */
  lemma TicksAreSpaced(c: Config, now: int, steps: seq<Step>, i: nat, j: nat)
    requires c.pacing.Valid() && Run(c, Init(now), steps).Some?
    requires var s := Run(c, Init(now), steps).value; Clean(s) && i <= j < |s.hist.starts|
    ensures var s := Run(c, Init(now), steps).value;
            && s.hist.starts[j] - s.hist.starts[i] >= (j - i) * Gap(c.pacing)
            && s.hist.starts[j] - s.hist.starts[i] >= j - i
  {
    var g, s := Gap(c.pacing), Run(c, Init(now), steps).value;
    RunSpaced(g, c, Init(now), steps);
    SumOfGaps(g, s, i, j);
    DelayBounds(c.pacing, 0, None);
    AtLeast(j - i, g);
  }

  lemma AtLeast(n: nat, g: nat)
    requires g >= 1
    ensures n * g >= n
  {}

  lemma {:induction false} SumOfGaps(g: nat, s: State, i: nat, j: nat)
    requires Gaps(g, s) && i <= j < |s.hist.starts|
    ensures s.hist.starts[j] - s.hist.starts[i] >= (j - i) * g
  {
    if i < j {
      SumOfGaps(g, s, i, j - 1);
      assert (j - i) * g == (j - 1 - i) * g + g;
    }
  }
}
