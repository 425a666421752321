/** The /loop controller over whole runs: what a terminal row guarantees, who drives a loop,
    and what its budgets are worth. Every theorem is about an arbitrary interleaving from the
    moment before the loop is created. */
module LoopTheorems {
  import opened Wrappers
  import opened LoopTiming
  import opened LoopModel
  import opened LoopSafety

  lemma Reachable(c: Config, now: int, steps: seq<Step>)
    requires Run(c, Init(now), steps).Some?
    ensures Inv(c, Run(c, Init(now), steps).value)
  {
    RunKeepsInv(c, Init(now), steps);
  }

  // ---- terminal rows ---------------------------------------------------------------------

  /** Ticks the owner may still fire without another store write. */
  function MayFire(s: State): (n: nat)
    ensures n <= 1
  {
    match s.hist.owner
    case ByOp(_) => 1
    case ByDriver(d) => if d in s.drivers && s.drivers[d].pc.MayFire() then 1 else 0
    case _ => 0
  }

  /** How many more steps a driver has once its row is terminal. */
  function Rank(pc: Pc): (n: nat)
    ensures n <= 8
  {
    match pc
    case Top => 8
    case Metering => 7
    case Sleeping => 6
    case Starting => 5
    case Running => 4
    case Recording => 3
    case Persisting(_) => 3
    case Pausing => 2
    case Closing(_) => 2
    case Auditing => 2
    case Leaving(_) => 1
    case Gone => 0
  }

  function Fuel(s: State, d: nat): (n: nat)
    ensures n <= 8
  {
    if d in s.drivers then Rank(s.drivers[d].pc)
    else if s.hist.owner.ByOp? then Rank(Top) else 0
  }

  function StepsOf(steps: seq<Step>, d: nat): nat {
    if steps == [] then 0
    else (if steps[0].Drive? && steps[0].d == d then 1 else 0) + StepsOf(steps[1..], d)
  }

  lemma TerminalStep(c: Config, s: State, step: Step, d: nat)
    requires Ownership(s) && Quiet(s) && s.Terminal() && Next(c, s, step).Some?
    ensures var s1 := Next(c, s, step).value;
            && s1.row == s.row
            && s1.hist.fired + MayFire(s1) <= s.hist.fired + MayFire(s)
            && Fuel(s1, d) + StepsOf([step], d) <= Fuel(s, d)
  {
    hide DriverStep, OpStep;
    if step.Drive? {
      TerminalDriverStep(c, s, step.d, step.move);
    } else if step.Proceed? {
      TerminalOpStep(s, step.o, step.ok, step.d, d);
    }
  }

  lemma TerminalOpStep(s: State, o: nat, ok: bool, e: nat, d: nat)
    requires Ownership(s) && s.Terminal() && o in s.ops && OpStep(s, o, ok, e).Some?
    ensures var s1 := OpStep(s, o, ok, e).value;
            && s1.row == s.row
            && s1.hist.fired + MayFire(s1) <= s.hist.fired + MayFire(s)
            && Fuel(s1, d) <= Fuel(s, d)
  {}

  /** What one step of driver `d` does once the row is terminal. */
  predicate WindsDown(s: State, s1: State, d: nat) {
    && d in s.drivers && d in s1.drivers
    && s1.row == s.row
    && s1.drivers == s.drivers[d := s1.drivers[d]]
    && Rank(s1.drivers[d].pc) < Rank(s.drivers[d].pc)
    && (s1.hist.owner == s.hist.owner || s1.hist.owner == Nobody)
    && s1.hist.fired + MayFire(s1) <= s.hist.fired + MayFire(s)
  }

  lemma TerminalSettle(s: State, s0: State, d: nat, l: Local, nextAt: int)
    requires s0 == s.(hist := s0.hist) && s0.hist.owner == s.hist.owner
    requires d in s.drivers && (s.drivers[d].pc.Starting? || s.drivers[d].pc.Running?)
    requires s0.hist.fired == s.hist.fired
             || (s0.hist.fired == s.hist.fired + 1 && s.drivers[d].pc.Starting? && s.hist.owner == ByDriver(d))
    ensures WindsDown(s, SettleAt(s0, d, s.drivers[d], l, nextAt), d)
  {}

  lemma TerminalStartStep(c: Config, s: State, d: nat, start: StartResult)
    requires Ownership(s) && s.Terminal() && d in s.drivers && s.drivers[d].pc.Starting?
    ensures WindsDown(s, DriverStep(c, s, d, RunTurn(start)).value, d)
  {
    if start.TurnInFlight? || start.StartFailed? {
      hide WindsDown, SettleAt;
      var l := s.drivers[d].local;
      TerminalSettle(s, Idle(s), d, l, s.now + NextTickDelay(c.pacing, l.failures, None));
      TerminalSettle(s, Streak(Fired(s), s.hist.streak + 1), d, TickFailed(l),
                     s.now + NextTickDelay(c.pacing, l.failures + 1, None));
    }
  }

  lemma TerminalFailStep(c: Config, s: State, d: nat)
    requires d in s.drivers && s.drivers[d].pc.Running?
    ensures WindsDown(s, DriverStep(c, s, d, Finish(NotCompleted)).value, d)
  {
    hide WindsDown, SettleAt, NextTickDelay;
    var l := s.drivers[d].local;
    TerminalSettle(s, Streak(s, s.hist.streak + 1), d, TickFailed(l),
                   s.now + NextTickDelay(c.pacing, l.failures + 1, None));
  }

  lemma TerminalPassStep(c: Config, s: State, d: nat, delay: Option<Request>)
    requires d in s.drivers && s.drivers[d].pc.Running?
    ensures WindsDown(s, DriverStep(c, s, d, Finish(Completed(NoIntent(delay)))).value, d)
  {
    hide WindsDown, SettleAt, NextTickDelay;
    TerminalSettle(s, Streak(s, 0), d, TickPassed(s.drivers[d].local), s.now + NextTickDelay(c.pacing, 0, delay));
  }

  lemma TerminalFinishStep(c: Config, s: State, d: nat, result: RunResult)
    requires d in s.drivers && s.drivers[d].pc.Running?
    ensures WindsDown(s, DriverStep(c, s, d, Finish(result)).value, d)
  {
    match result
    case NotCompleted => TerminalFailStep(c, s, d);
    case Completed(NoIntent(delay)) => TerminalPassStep(c, s, d, delay);
    case Completed(LoopDone) =>
    case Completed(LoopPause) =>
  }

  lemma TerminalWriteStep(s: State, d: nat, ok: bool)
    requires Ownership(s) && s.Terminal() && d in s.drivers && Writes(s, d, s.drivers[d], ok).Some?
    ensures WindsDown(s, Writes(s, d, s.drivers[d], ok).value, d)
  {}

  lemma TerminalOtherStep(c: Config, s: State, d: nat, move: Move)
    requires Ownership(s) && s.Terminal() && d in s.drivers && DriverStep(c, s, d, move).Some?
    requires !move.RunTurn? && !move.Finish? && !move.Write?
    ensures WindsDown(s, DriverStep(c, s, d, move).value, d)
  {
    hide Writes, Settle;
  }

  lemma TerminalDriverStep(c: Config, s: State, d: nat, move: Move)
    requires Ownership(s) && s.Terminal() && d in s.drivers && DriverStep(c, s, d, move).Some?
    ensures WindsDown(s, DriverStep(c, s, d, move).value, d)
  {
    hide WindsDown, Ownership;
    if move.RunTurn? { TerminalStartStep(c, s, d, move.start); }
    else if move.Finish? { TerminalFinishStep(c, s, d, move.result); }
    else if move.Write? { TerminalWriteStep(s, d, move.ok); }
    else { TerminalOtherStep(c, s, d, move); }
  }

  /** From the moment a row is terminal: it never changes, all drivers together fire at most
      one more tick (even one armed after a cancel), and each driver takes at most eight more
      steps, so it stops. Crashes and failed writes included. */
  lemma {:induction false} TerminalIsFinal(c: Config, s: State, steps: seq<Step>, d: nat)
    requires Inv(c, s) && s.Terminal() && Run(c, s, steps).Some?
    ensures var s1 := Run(c, s, steps).value;
            && s1.row == s.row
            && s1.hist.fired + MayFire(s1) <= s.hist.fired + MayFire(s) <= s.hist.fired + 1
            && StepsOf(steps, d) + Fuel(s1, d) <= Fuel(s, d) <= 8
    decreases |steps|
  {
    if steps != [] {
      TerminalStep(c, s, steps[0], d);
      StepKeepsInv(c, s, steps[0]);
      TerminalIsFinal(c, Next(c, s, steps[0]).value, steps[1..], d);
    }
  }

  /** The terminal transition is audited at most once; and exactly once, unless the process
      crashed, as soon as the actor that made it has run on. */
  lemma AuditedOnce(c: Config, now: int, steps: seq<Step>)
    requires Run(c, Init(now), steps).Some?
    ensures var s := Run(c, Init(now), steps).value;
            && s.hist.audits <= 1
            && (!s.Terminal() ==> s.hist.audits == 0)
            && (s.Terminal() && !s.hist.crashed ==>
                  s.hist.audits == (if OwesAudit(s, s.hist.closer) then 0 else 1))
  {
    Reachable(c, now, steps);
  }

  // ---- who drives the loop ---------------------------------------------------------------

  /** Two drivers of one loop never both run, crash or no crash; and while the loop lives, at
      most one driver task exists and it is the one the slot names. */
  lemma OneDriver(c: Config, now: int, steps: seq<Step>, d: nat, e: nat)
    requires Run(c, Init(now), steps).Some?
    requires var s := Run(c, Init(now), steps).value; d in s.drivers && e in s.drivers
    ensures var s := Run(c, Init(now), steps).value;
            && (s.drivers[d].pc.Working() && s.drivers[e].pc.Working() ==> d == e)
            && (s.Live() && !s.drivers[d].pc.Gone? && !s.drivers[e].pc.Gone? ==> d == e)
            && (s.Live() && !s.drivers[d].pc.Gone? ==> s.slot == Some(d))
  {
    Reachable(c, now, steps);
  }

  /** A running driver, or a call that has stored the loop active and is about to arm one. */
  ghost predicate HasDriver(s: State) {
    || (exists d :: d in s.drivers && s.drivers[d].pc.Working())
    || (exists o :: o in s.ops && s.ops[o].ArmPending?)
  }

  /** Once the boot replay is done and as long as no store write has failed since, an active loop
      has a driver if and only if no arm has been dropped since. */
  lemma ActiveLoopIsDrivenIff(c: Config, now: int, steps: seq<Step>)
    requires Run(c, Init(now), steps).Some?
    ensures var s := Run(c, Init(now), steps).value;
            s.Is(Active) && s.boot.Serving? && !s.hist.storeError ==> (HasDriver(s) <==> !s.hist.skippedArm)
  {
    Reachable(c, now, steps);
    var s := Run(c, Init(now), steps).value;
    if s.hist.owner.ByDriver? { assert s.drivers[s.hist.owner.d].pc.Working(); }
    if s.hist.owner.ByOp? { assert s.ops[s.hist.owner.o].ArmPending?; }
  }

  /** A crash ends every such accident: when the boot replay reads an active row before its expiry,
      the loop has a driver again, which starts from the stored counts. */
  lemma ReplayDrivesAgain(c: Config, now: int, steps: seq<Step>, o: nat, ok: bool, d: nat)
    requires Run(c, Init(now), steps).Some?
    requires var s := Run(c, Init(now), steps).value; s.boot.Listing? && s.Is(Active) && s.now < c.expiresAt
    ensures var s := Run(c, Init(now), steps).value;
            var replayed := Next(c, s, Replay(o, true));
            && replayed.Some? && HasDriver(replayed.value) && replayed.value.boot.Serving?
            && !replayed.value.hist.storeError && !replayed.value.hist.skippedArm
            && var armed := Next(c, replayed.value, Proceed(o, ok, d));
               && armed.Some? && armed.value.slot == Some(d)
               && armed.value.drivers == map[d := Driver(LocalOf(s.row.value), false, Top)]
  {
    Reachable(c, now, steps);
    var s := Run(c, Init(now), steps).value;
    var s1 := Next(c, s, Replay(o, true)).value;
    assert s1.ops[o] == ArmPending(LocalOf(s.row.value));
    assert s1.slot.None? && s1.drivers == map[];
  }

  /** An arm on a living loop is dropped only behind a driver that has paused the loop and not
      yet let go of its slot. */
  lemma ArmDroppedOnlyBehindPause(c: Config, now: int, steps: seq<Step>, o: nat)
    requires Run(c, Init(now), steps).Some?
    requires var s := Run(c, Init(now), steps).value;
             && o in s.ops && s.ops[o].ArmPending? && s.Live()
             && s.slot.Some?
    ensures var s := Run(c, Init(now), steps).value;
            s.slot.value in s.drivers && s.drivers[s.slot.value].pc == Leaving(true)
  {
    Reachable(c, now, steps);
  }

  /** No task may tick the loop, and none is about to be allowed to. */
  predicate Stranded(s: State) {
    s.hist.owner == Nobody && s.boot.Serving? && (s.Is(Active) || s.Is(Cancelled))
  }

  lemma StrandedStep(c: Config, s: State, step: Step)
    requires Inv(c, s) && Stranded(s) && s.Is(Active)
    requires Next(c, s, step).Some? && !step.Crash?
    ensures Stranded(Next(c, s, step).value)
  {
    hide Tally, NextTickDelay;
  }

  lemma StrandedStays(c: Config, s: State, step: Step)
    requires Inv(c, s) && Stranded(s) && s.Is(Cancelled)
    requires Next(c, s, step).Some? && !step.Crash?
    ensures Stranded(Next(c, s, step).value)
  {
    hide Tally, NextTickDelay;
  }

  lemma {:induction false} StrandedRun(c: Config, s: State, steps: seq<Step>)
    requires Inv(c, s) && Stranded(s)
    requires Run(c, s, steps).Some? && forall step :: step in steps ==> !step.Crash?
    ensures var s1 := Run(c, s, steps).value;
            && Stranded(s1) && s1.hist.fired == s.hist.fired
            && forall d :: d in s1.drivers ==> !s1.drivers[d].pc.Working()
    decreases |steps|
  {
    if steps != [] {
      var s1 := Next(c, s, steps[0]).value;
      assert !steps[0].Crash?;
      StepKeepsInv(c, s, steps[0]);
      if s.Is(Active) { StrandedStep(c, s, steps[0]); } else { StrandedStays(c, s, steps[0]); }
      OnlyOwnersFire(c, s, steps[0]);
      StrandedRun(c, s1, steps[1..]);
    }
  }

  lemma DroppedArm(c: Config, s: State, o: nat, ok: bool, d: nat)
    requires Inv(c, s) && s.Is(Active) && o in s.ops && s.ops[o].ArmPending? && s.slot.Some? && d !in s.drivers
    ensures Next(c, s, Proceed(o, ok, d)).Some?
    ensures var s1 := Next(c, s, Proceed(o, ok, d)).value;
            Stranded(s1) && s1.hist.skippedArm && s1.hist.fired == s.hist.fired
  {}

  /** When an arm of an active loop finds the slot taken, the loop is stranded: in no run from there
      without a crash does it get a driver or tick again; it stays active until it is
      cancelled. */
  lemma DroppedArmStrands(c: Config, now: int, before: seq<Step>, o: nat, ok: bool, d: nat, after: seq<Step>)
    requires Run(c, Init(now), before).Some?
    requires var s := Run(c, Init(now), before).value;
             s.Is(Active) && o in s.ops && s.ops[o].ArmPending? && s.slot.Some? && d !in s.drivers
    requires var s := Run(c, Init(now), before).value;
             && Next(c, s, Proceed(o, ok, d)).Some?
             && Run(c, Next(c, s, Proceed(o, ok, d)).value, after).Some?
             && forall step :: step in after ==> !step.Crash?
    ensures var s := Run(c, Init(now), before).value;
            var s1 := Run(c, Next(c, s, Proceed(o, ok, d)).value, after).value;
            && Stranded(s1) && s1.hist.fired == s.hist.fired
            && forall e :: e in s1.drivers ==> !s1.drivers[e].pc.Working()
  {
    Reachable(c, now, before);
    var s := Run(c, Init(now), before).value;
    DroppedArm(c, s, o, ok, d);
    StepKeepsInv(c, s, Proceed(o, ok, d));
    StrandedRun(c, Next(c, s, Proceed(o, ok, d)).value, after);
  }

  lemma OnlyOwnersFire(c: Config, s: State, step: Step)
    requires Ownership(s) && s.hist.owner == Nobody && Next(c, s, step).Some?
    ensures Next(c, s, step).value.hist.fired == s.hist.fired
  {
    if step.Drive? {
      assert !s.drivers[step.d].pc.Working();
      hide Ownership, OpStep, Settle;
    } else {
      hide Ownership, DriverStep;
    }
  }

  // ---- budgets ---------------------------------------------------------------------------

  predicate Undisturbed(s: State) { !s.hist.crashed && !s.hist.storeError }

  /** The ticks the owner's count still allows, its running one included. */
  function Allowance(c: Config, s: State): int {
    match s.hist.owner
    case ByOp(o) =>
      if o in s.ops && s.ops[o].ArmPending? then c.maxTicks - s.ops[o].local.ticks else 0
    case ByDriver(d) =>
      if d in s.drivers
      then c.maxTicks - s.drivers[d].local.ticks - (if s.drivers[d].pc.Running? then 1 else 0) else 0
    case _ => 0
  }

  /** Conservation over any number of pauses and resumes, in runs without a crash or a failed write:
      ticks fired plus ticks still allowed is the budget plus what stale resumes gave back. So
      the budget is kept exactly as long as that is not positive, and always when no resume was
      stale. */
  lemma TickBudget(c: Config, now: int, steps: seq<Step>)
    requires Run(c, Init(now), steps).Some?
    ensures var s := Run(c, Init(now), steps).value;
            Undisturbed(s) ==>
              && (s.hist.owner != Nobody ==> s.hist.fired + Allowance(c, s) == c.maxTicks + s.hist.lost)
              && s.hist.fired <= c.maxTicks + s.hist.lost
              && (!s.hist.stale ==> s.hist.fired <= c.maxTicks)
  {
    Reachable(c, now, steps);
  }

  /** The resume that breaks the budget, exactly, in a run without a crash or a failed write and with
      nothing given back on balance so far: the one whose call read fewer ticks than are stored
      when its write takes effect. */
  lemma ResumeKeepsBudgetIff(c: Config, now: int, steps: seq<Step>, o: nat, d: nat)
    requires Run(c, Init(now), steps).Some?
    requires var s := Run(c, Init(now), steps).value;
             && Undisturbed(s) && s.hist.lost == 0
             && s.Is(Paused) && o in s.ops && s.ops[o].ResumeRead?
    ensures var s := Run(c, Init(now), steps).value;
            var s1 := Next(c, s, Proceed(o, true, d)).value;
            s1.hist.fired + Allowance(c, s1) <= c.maxTicks
            <==> s.ops[o].snapshot.ticks >= s.row.value.ticks
  {
    Reachable(c, now, steps);
    var s := Run(c, Init(now), steps).value;
    StepKeepsInv(c, s, Proceed(o, true, d));
  }

  /** No tick starts at or after the expiry, in any run at all. */
  lemma NoTickAfterExpiry(c: Config, now: int, steps: seq<Step>, i: nat)
    requires Run(c, Init(now), steps).Some?
    requires i < |Run(c, Init(now), steps).value.hist.starts|
    ensures Run(c, Init(now), steps).value.hist.starts[i] < c.expiresAt
  {
    Reachable(c, now, steps);
  }

  lemma BreakingFails(c: Config, s: State)
    requires Inv(c, s) && Breaking(s) && s.Live()
    ensures var s1 := DriverStep(c, s, s.hist.owner.d, Write(true)).value;
            s1.Is(Failed) && !Breaking(s1)
  {}

  /** The failure breaker: the store never holds more than four failures; and in a run without a
      crash, after a fifth failure in a row the loop is `failed`, unless an operator cancelled
      it first, or the driver is one store write away, which will make it so, or that write was
      lost, and then the loop stays active with nobody to tick it. */
  lemma FifthFailureIsFinal(c: Config, now: int, steps: seq<Step>)
    requires Run(c, Init(now), steps).Some?
    ensures var s := Run(c, Init(now), steps).value;
            && (s.row.Some? ==> s.row.value.failures <= 4)
            && (!s.hist.crashed ==> s.hist.streak <= 5)
            && (!s.hist.crashed && s.hist.streak == 5 ==>
                  || s.Is(Failed) || s.Is(Cancelled)
                  || (Breaking(s) && DriverStep(c, s, s.hist.owner.d, Write(true)).value.Is(Failed))
                  || (s.Is(Active) && s.hist.owner == Nobody && s.hist.storeError))
  {
    Reachable(c, now, steps);
    var s := Run(c, Init(now), steps).value;
    if Breaking(s) && s.Live() { BreakingFails(c, s); }
  }

  /** Nobody may tick the loop but a driver on its way to writing `failed`. */
  predicate Spent(s: State) {
    && s.row.Some? && !s.Is(Paused) && s.boot.Serving?
    && (s.hist.owner == Nobody || Breaking(s))
  }

  lemma SpentDriverStep(c: Config, s: State, d: nat, move: Move)
    requires Ownership(s) && Spent(s) && d in s.drivers && DriverStep(c, s, d, move).Some?
    ensures Spent(DriverStep(c, s, d, move).value)
    ensures DriverStep(c, s, d, move).value.hist.fired == s.hist.fired
  {}

  lemma SpentCallStep(c: Config, s: State, step: Step)
    requires Ownership(s) && Spent(s) && Next(c, s, step).Some? && !step.Crash? && !step.Drive?
    ensures Spent(Next(c, s, step).value)
    ensures Next(c, s, step).value.hist.fired == s.hist.fired
  {}

  lemma {:induction false} SpentRun(c: Config, s: State, steps: seq<Step>)
    requires Inv(c, s) && Spent(s)
    requires Run(c, s, steps).Some? && forall step :: step in steps ==> !step.Crash?
    ensures Spent(Run(c, s, steps).value) && Run(c, s, steps).value.hist.fired == s.hist.fired
    decreases |steps|
  {
    if steps != [] {
      assert !steps[0].Crash?;
      StepKeepsInv(c, s, steps[0]);
      if steps[0].Drive? { SpentDriverStep(c, s, steps[0].d, steps[0].move); }
      else { SpentCallStep(c, s, steps[0]); }
      SpentRun(c, Next(c, s, steps[0]).value, steps[1..]);
    }
  }

  /** And five failures in a row are the end of the loop: in no run from there without a crash does
      it fire another tick, even if the write of `failed` is lost. */
  lemma FifthFailureStopsTicks(c: Config, now: int, before: seq<Step>, after: seq<Step>)
    requires Run(c, Init(now), before).Some?
    requires Run(c, Run(c, Init(now), before).value, after).Some?
    requires !Run(c, Init(now), before).value.hist.crashed
    requires Run(c, Init(now), before).value.hist.streak == 5 && forall step :: step in after ==> !step.Crash?
    ensures var s := Run(c, Init(now), before).value;
            Run(c, s, after).value.hist.fired == s.hist.fired
  {
    Reachable(c, now, before);
    FifthFailureIsFinal(c, now, before);
    SpentRun(c, Run(c, Init(now), before).value, after);
  }

  /** A skipped tick costs neither budget nor failures: only the next tick time moves. */
  lemma SkippedTickIsFree(c: Config, s: State, d: nat)
    requires Inv(c, s) && d in s.drivers && s.drivers[d].pc.Starting?
    ensures var s1 := DriverStep(c, s, d, RunTurn(TurnInFlight)).value;
            var l, l1 := s.drivers[d].local, s1.drivers[d].local;
            && s1.row == s.row && s1.hist == s.hist.(idle := s.hist.idle + 1)
            && l1 == l.(nextAt := l1.nextAt) && s1.drivers[d].pc.Recording?
  {}

  // ---- attempts --------------------------------------------------------------------------

  function Attempting(s: State): nat {
    if s.hist.owner.ByDriver? && s.hist.owner.d in s.drivers && s.drivers[s.hist.owner.d].pc.Starting? then 1 else 0
  }

  /** Every attempt has used a tick, or found no session free, or is being made. */
  predicate Tried(s: State) {
    !s.hist.crashed ==> |s.hist.starts| == s.hist.fired + s.hist.idle + Attempting(s)
  }

  lemma WakeTried(c: Config, s: State, d: nat)
    requires Ownership(s) && Tried(s) && d in s.drivers && DriverStep(c, s, d, Wake).Some?
    ensures Tried(DriverStep(c, s, d, Wake).value)
  {
    hide Writes, Settle;
  }

  lemma SettleTried(s: State, d: nat, drv: Driver, l: Local, nextAt: int)
    requires s.hist.owner == ByDriver(d)
    requires !s.hist.crashed ==> |s.hist.starts| == s.hist.fired + s.hist.idle
    ensures Tried(SettleAt(s, d, drv, l, nextAt))
  {}

  lemma StartTried(c: Config, s: State, d: nat, start: StartResult)
    requires s.hist.owner == ByDriver(d) && Tried(s) && d in s.drivers && s.drivers[d].pc.Starting?
    ensures Tried(DriverStep(c, s, d, RunTurn(start)).value)
  {
    hide SettleAt;
    var drv := s.drivers[d];
    var l := drv.local;
    SettleTried(Idle(s), d, drv, l, s.now + NextTickDelay(c.pacing, l.failures, None));
    SettleTried(Streak(Fired(s), s.hist.streak + 1), d, drv, TickFailed(l),
                s.now + NextTickDelay(c.pacing, l.failures + 1, None));
  }

  lemma FinishTried(c: Config, s: State, d: nat, result: RunResult)
    requires s.hist.owner == ByDriver(d) && Tried(s) && d in s.drivers && s.drivers[d].pc.Running?
    ensures Tried(DriverStep(c, s, d, Finish(result)).value)
  {
    hide SettleAt;
    var drv := s.drivers[d];
    SettleTried(Streak(s, s.hist.streak + 1), d, drv, TickFailed(drv.local),
                s.now + NextTickDelay(c.pacing, drv.local.failures + 1, None));
    if result.Completed? && result.intent.NoIntent? {
      SettleTried(Streak(s, 0), d, drv, TickPassed(drv.local),
                  s.now + NextTickDelay(c.pacing, 0, result.intent.delay));
    }
  }

  lemma WriteTried(s: State, d: nat, ok: bool)
    requires s.hist.owner == ByDriver(d) && Tried(s) && d in s.drivers && Writes(s, d, s.drivers[d], ok).Some?
    ensures Tried(Writes(s, d, s.drivers[d], ok).value)
  {}

  lemma OtherTried(c: Config, s: State, d: nat, move: Move)
    requires Ownership(s) && Tried(s) && d in s.drivers && DriverStep(c, s, d, move).Some?
    requires !move.RunTurn? && !move.Wake? && !move.Finish? && !move.Write?
    ensures Tried(DriverStep(c, s, d, move).value)
  {
    hide Writes, Settle;
  }

  lemma DriverTried(c: Config, s: State, d: nat, move: Move)
    requires Ownership(s) && Tried(s) && d in s.drivers && DriverStep(c, s, d, move).Some?
    ensures Tried(DriverStep(c, s, d, move).value)
  {
    hide Tried;
    if move.Wake? { WakeTried(c, s, d); }
    else if move.RunTurn? { StartTried(c, s, d, move.start); }
    else if move.Finish? { FinishTried(c, s, d, move.result); }
    else if move.Write? { WriteTried(s, d, move.ok); }
    else { OtherTried(c, s, d, move); }
  }

  lemma OpTried(s: State, o: nat, ok: bool, d: nat)
    requires Ownership(s) && Tried(s) && o in s.ops && OpStep(s, o, ok, d).Some?
    ensures Tried(OpStep(s, o, ok, d).value)
  {}

  lemma CallTried(c: Config, s: State, step: Step)
    requires Ownership(s) && Unborn(s) && Quiet(s) && Tried(s) && Next(c, s, step).Some?
    requires !step.Drive? && !step.Proceed?
    ensures Tried(Next(c, s, step).value)
  {
    hide DriverStep, OpStep;
  }

  lemma StepTried(c: Config, s: State, step: Step)
    requires Inv(c, s) && Tried(s) && Next(c, s, step).Some?
    ensures Tried(Next(c, s, step).value)
  {
    hide Tried, Tally, DriverStep, OpStep;
    if step.Drive? { DriverTried(c, s, step.d, step.move); }
    else if step.Proceed? { OpTried(s, step.o, step.ok, step.d); }
    else { CallTried(c, s, step); }
  }

  lemma {:induction false} RunTried(c: Config, s: State, steps: seq<Step>)
    requires Inv(c, s) && Tried(s) && Run(c, s, steps).Some?
    ensures Tried(Run(c, s, steps).value)
    decreases |steps|
  {
    if steps != [] {
      StepKeepsInv(c, s, steps[0]);
      StepTried(c, s, steps[0]);
      RunTried(c, Next(c, s, steps[0]).value, steps[1..]);
    }
  }

  /** In every run without a crash the ticks used are the attempts made, less those that found the
      session busy or gone, less the one in progress; and finding it busy also leaves the row
      and the failure count alone. */
  lemma SkippedTicksAreFree(c: Config, now: int, steps: seq<Step>, d: nat)
    requires Run(c, Init(now), steps).Some?
    ensures var s := Run(c, Init(now), steps).value;
            && (!s.hist.crashed ==> s.hist.fired == |s.hist.starts| - s.hist.idle - Attempting(s))
            && (d in s.drivers && s.drivers[d].pc.Starting? ==>
                  var s1 := DriverStep(c, s, d, RunTurn(TurnInFlight)).value;
                  && s1.row == s.row && s1.hist == s.hist.(idle := s.hist.idle + 1)
                  && s1.drivers[d].local.ticks == s.drivers[d].local.ticks
                  && s1.drivers[d].local.failures == s.drivers[d].local.failures)
  {
    RunTried(c, Init(now), steps);
    Reachable(c, now, steps);
    var s := Run(c, Init(now), steps).value;
    if d in s.drivers && s.drivers[d].pc.Starting? { SkippedTickIsFree(c, s, d); }
  }
}
