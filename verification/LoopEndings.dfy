/** Why and how the driver of a /loop ends it, and what it must have checked before each tick. */
module LoopEndings {
  import opened Wrappers
  import opened LoopTiming
  import opened LoopModel
  import opened LoopSafety

  lemma {:induction false} LastStep(c: Config, s: State, steps: seq<Step>)
    requires steps != [] && Run(c, s, steps).Some?
    ensures var n := |steps| - 1;
            Run(c, s, steps[..n]).Some? && Next(c, Run(c, s, steps[..n]).value, steps[n]) == Run(c, s, steps)
    decreases |steps|
  {
    hide Next;
    var n := |steps| - 1;
    if n == 0 {
      assert steps[1..] == [] && steps[..n] == [];
    } else {
      assert steps[1..][..n - 1] == steps[..n][1..];
      LastStep(c, Next(c, s, steps[0]).value, steps[1..]);
    }
  }

  /** Every step of a run was enabled when it was taken. */
  lemma {:induction false} StepTaken(c: Config, s: State, steps: seq<Step>, k: nat)
    requires k < |steps| && Run(c, s, steps).Some?
    ensures Run(c, s, steps[..k]).Some? && Next(c, Run(c, s, steps[..k]).value, steps[k]).Some?
    decreases |steps|
  {
    hide Next;
    LastStep(c, s, steps);
    if k < |steps| - 1 {
      StepTaken(c, s, steps[..|steps| - 1], k);
      assert steps[..|steps| - 1][..k] == steps[..k];
    }
  }

  // ---- the token budget ------------------------------------------------------------------

  /** A token count that lets a tick go ahead; a query that fails does, too. */
  predicate Affordable(c: Config, spent: Option<nat>) { spent.None? || spent.value < c.maxTokens }

  /** Since its latest budget check driver `d` has been told that it can afford a tick. */
  ghost predicate Metered(c: Config, steps: seq<Step>, d: nat) {
    exists i :: 0 <= i < |steps| && MeteredAt(c, steps, d, i)
  }

  predicate MeteredAt(c: Config, steps: seq<Step>, d: nat, i: nat)
    requires i < |steps|
  {
    && steps[i].Drive? && steps[i].d == d && steps[i].move.Meter? && Affordable(c, steps[i].move.spent)
    && forall j :: i < j < |steps| ==> steps[j] != Drive(d, Gate)
  }

  lemma MeteredLater(c: Config, steps: seq<Step>, d: nat, step: Step)
    requires Metered(c, steps, d) && step != Drive(d, Gate)
    ensures Metered(c, steps + [step], d)
  {
    var i :| 0 <= i < |steps| && MeteredAt(c, steps, d, i);
    assert MeteredAt(c, steps + [step], d, i);
  }

  lemma MeteredNow(c: Config, steps: seq<Step>, d: nat, spent: Option<nat>)
    requires Affordable(c, spent)
    ensures Metered(c, steps + [Drive(d, Meter(spent))], d)
  {
    assert MeteredAt(c, steps + [Drive(d, Meter(spent))], d, |steps|);
  }

  ghost predicate SleepersMetered(c: Config, steps: seq<Step>, s: State) {
    forall d :: d in s.drivers && s.drivers[d].pc.Sleeping? ==> Metered(c, steps, d)
  }

  /** How a driver is asleep after a step, with a token budget. */
  predicate FallsAsleep(c: Config, s: State, step: Step, d: nat) {
    || (d in s.drivers && s.drivers[d].pc.Sleeping? && step != Drive(d, Gate))
    || (step.Drive? && step.d == d && step.move.Meter? && Affordable(c, step.move.spent))
  }

  lemma MoveSleeps(c: Config, s: State, e: nat, move: Move, d: nat)
    requires c.maxTokens > 0 && e in s.drivers && DriverStep(c, s, e, move).Some?
    requires d in s.drivers && DriverStep(c, s, e, move).value.drivers[d].pc.Sleeping?
    ensures FallsAsleep(c, s, Drive(e, move), d)
  {
    hide NextTickDelay;
  }

  lemma SleepsAfterMeter(c: Config, s: State, step: Step, d: nat)
    requires c.maxTokens > 0 && Next(c, s, step).Some?
    requires d in Next(c, s, step).value.drivers && Next(c, s, step).value.drivers[d].pc.Sleeping?
    ensures FallsAsleep(c, s, step, d)
  {
    if step.Drive? { MoveDrivers(c, s, step.d, step.move); MoveSleeps(c, s, step.d, step.move, d); }
    hide DriverStep;
  }

  lemma MoveDrivers(c: Config, s: State, d: nat, move: Move)
    requires d in s.drivers && DriverStep(c, s, d, move).Some?
    ensures DriverStep(c, s, d, move).value.drivers.Keys == s.drivers.Keys
  {
    hide NextTickDelay;
  }

  lemma {:induction false} RunSleepersMetered(c: Config, now: int, steps: seq<Step>)
    requires c.maxTokens > 0 && Run(c, Init(now), steps).Some?
    ensures SleepersMetered(c, steps, Run(c, Init(now), steps).value)
    decreases |steps|
  {
    if steps != [] {
      var n := |steps| - 1;
      LastStep(c, Init(now), steps);
      RunSleepersMetered(c, now, steps[..n]);
      var s, s1 := Run(c, Init(now), steps[..n]).value, Run(c, Init(now), steps).value;
      hide Next;
      assert steps == steps[..n] + [steps[n]];
      forall d | d in s1.drivers && s1.drivers[d].pc.Sleeping? ensures Metered(c, steps, d) {
        SleepsAfterMeter(c, s, steps[n], d);
        if d in s.drivers && s.drivers[d].pc.Sleeping? && steps[n] != Drive(d, Gate) {
          MeteredLater(c, steps[..n], d, steps[n]);
        } else {
          MeteredNow(c, steps[..n], d, steps[n].move.spent);
        }
      }
    }
  }

  /** With a token budget, whenever a driver wakes for a tick, in any run at all, the latest answer to
      its usage query since its latest budget check failed or was below the budget. */
  lemma TicksAreMetered(c: Config, now: int, steps: seq<Step>, k: nat, d: nat)
    requires c.maxTokens > 0 && Run(c, Init(now), steps).Some? && k < |steps| && steps[k] == Drive(d, Wake)
    ensures Metered(c, steps[..k], d)
  {
    StepTaken(c, Init(now), steps, k);
    RunSleepersMetered(c, now, steps[..k]);
    var s := Run(c, Init(now), steps[..k]).value;
    assert d in s.drivers && s.drivers[d].pc.Sleeping?;
  }

  // ---- why a driver ends its loop --------------------------------------------------------

  /** The end a driver must give its loop when it makes this move, if any. */
  function Ending(c: Config, s: State, d: nat, move: Move): Option<Status>
    requires d in s.drivers
  {
    var l := s.drivers[d].local;
    match move
    case Gate => if l.ticks >= c.maxTicks || s.now >= c.expiresAt then Some(BudgetExhausted) else None
    case Meter(Some(spent)) => if spent >= c.maxTokens then Some(BudgetExhausted) else None
    case Wake => if s.now >= c.expiresAt then Some(BudgetExhausted) else None
    case RunTurn(SessionGone) => Some(Cancelled)
    case RunTurn(StartFailed) => if l.failures + 1 >= 5 then Some(Failed) else None
    case Finish(NotCompleted) => if l.failures + 1 >= 5 then Some(Failed) else None
    case Finish(Completed(LoopDone)) => Some(Done)
    case _ => None
  }

  /** Driver `d` is on its way to the store write that ends the loop so. */
  predicate EndingIn(s: State, d: nat, to: Status) {
    d in s.drivers && (s.drivers[d].pc == Closing(to) || (to.Done? && s.drivers[d].pc == Persisting(false)))
  }

  predicate EndingSoon(s: State, d: nat) {
    d in s.drivers && (s.drivers[d].pc.Closing? || s.drivers[d].pc == Persisting(false))
  }

  lemma DecidesStart(c: Config, s: State, d: nat, start: StartResult, to: Status)
    requires d in s.drivers && s.drivers[d].pc.Starting? && s.drivers[d].local.failures <= 4
    ensures EndingIn(DriverStep(c, s, d, RunTurn(start)).value, d, to) <==> Ending(c, s, d, RunTurn(start)) == Some(to)
  {
    hide NextTickDelay, Writes;
  }

  lemma DecidesFinish(c: Config, s: State, d: nat, result: RunResult, to: Status)
    requires d in s.drivers && s.drivers[d].pc.Running?
    ensures EndingIn(DriverStep(c, s, d, Finish(result)).value, d, to) <==> Ending(c, s, d, Finish(result)) == Some(to)
  {
    hide NextTickDelay, Writes;
  }

  /** A driver that was not ending its loop yet does so with this move exactly when it must. */
  lemma DecidesIff(c: Config, s: State, d: nat, move: Move, to: Status)
    requires d in s.drivers && DriverStep(c, s, d, move).Some? && !EndingSoon(s, d)
    requires s.drivers[d].pc.Starting? ==> s.drivers[d].local.failures <= 4
    ensures EndingIn(DriverStep(c, s, d, move).value, d, to) <==> Ending(c, s, d, move) == Some(to)
  {
    hide EndingIn, Settle, NextTickDelay;
    if move.RunTurn? { DecidesStart(c, s, d, move.start, to); }
    else if move.Finish? { DecidesFinish(c, s, d, move.result, to); }
    else { DecidesElse(c, s, d, move, to); }
  }

  lemma DecidesElse(c: Config, s: State, d: nat, move: Move, to: Status)
    requires d in s.drivers && DriverStep(c, s, d, move).Some? && !EndingSoon(s, d)
    requires !move.RunTurn? && !move.Finish?
    ensures EndingIn(DriverStep(c, s, d, move).value, d, to) <==> Ending(c, s, d, move) == Some(to)
  {
    hide Settle;
  }

  // ---- a driver that has decided to end its loop -----------------------------------------

  /** Driver `d` is writing the end it has decided on, or has written it, or its write was lost or
      came too late. */
  predicate WindingUp(s: State, d: nat, to: Status, steps: seq<Step>) {
    && d in s.drivers
    && (s.hist.closer == ByDriver(d) ==> s.Is(to))
    && (|| EndingIn(s, d, to)
        || ((s.drivers[d].pc.Auditing? || s.drivers[d].pc.Leaving? || s.drivers[d].pc.Gone?)
            && (s.Terminal() || Drive(d, Write(false)) in steps)))
  }

  lemma WriteWindsUp(s: State, d: nat, to: Status, steps: seq<Step>, ok: bool)
    requires WindingUp(s, d, to, steps) && to.Terminal() && Ownership(s) && Writes(s, d, s.drivers[d], ok).Some?
    requires Unborn(s) && AfterClose(s) && LoopSafety.Auditing(s)
    ensures WindingUp(Writes(s, d, s.drivers[d], ok).value, d, to, steps + [Drive(d, Write(ok))])
  {
    assert (steps + [Drive(d, Write(ok))])[|steps|] == Drive(d, Write(ok));
    assert Drive(d, Write(false)) in steps ==> Drive(d, Write(false)) in steps + [Drive(d, Write(ok))];
  }

  lemma OwnWindingUp(c: Config, s: State, d: nat, to: Status, steps: seq<Step>, move: Move)
    requires WindingUp(s, d, to, steps) && to.Terminal() && Ownership(s) && DriverStep(c, s, d, move).Some?
    requires Unborn(s) && AfterClose(s) && LoopSafety.Auditing(s)
    ensures move.Write? || move.Audit? || move.Drop?
    ensures WindingUp(DriverStep(c, s, d, move).value, d, to, steps + [Drive(d, move)])
  {
    hide Settle, Writes;
    if move.Write? { WriteWindsUp(s, d, to, steps, move.ok); }
    assert Drive(d, Write(false)) in steps ==> Drive(d, Write(false)) in steps + [Drive(d, move)];
  }

  /** A step that leaves driver `d` alone, and the row once it is terminal. */
  predicate Spares(s: State, s1: State, d: nat) {
    && d in s.drivers && d in s1.drivers
    && s1.drivers[d].pc == s.drivers[d].pc && s1.drivers[d].local == s.drivers[d].local
    && (s.Terminal() ==> s1.row == s.row && s1.hist.closer == s.hist.closer)
    && (s1.hist.closer == s.hist.closer || s1.hist.closer != ByDriver(d))
  }

  lemma OtherDriverSpares(c: Config, s: State, d: nat, e: nat, move: Move)
    requires d in s.drivers && e in s.drivers && d != e && DriverStep(c, s, e, move).Some?
    ensures Spares(s, DriverStep(c, s, e, move).value, d)
  {
    hide NextTickDelay;
  }

  lemma OpSpares(s: State, d: nat, o: nat, ok: bool, e: nat)
    requires d in s.drivers && o in s.ops && OpStep(s, o, ok, e).Some?
    ensures Spares(s, OpStep(s, o, ok, e).value, d)
  {}

  lemma CallSpares(c: Config, s: State, d: nat, step: Step)
    requires d in s.drivers && Quiet(s) && Next(c, s, step).Some?
    requires !step.Drive? && !step.Proceed? && !step.Crash?
    ensures Spares(s, Next(c, s, step).value, d)
  {
    hide DriverStep, OpStep;
  }

  lemma OthersSpare(c: Config, s: State, d: nat, step: Step)
    requires d in s.drivers && Quiet(s) && Next(c, s, step).Some? && !step.Crash? && !(step.Drive? && step.d == d)
    ensures Spares(s, Next(c, s, step).value, d)
  {
    hide Spares, DriverStep, OpStep;
    if step.Drive? { OtherDriverSpares(c, s, d, step.d, step.move); }
    else if step.Proceed? { OpSpares(s, d, step.o, step.ok, step.d); }
    else { CallSpares(c, s, d, step); }
  }

  lemma SparedWindsUp(s: State, s1: State, d: nat, to: Status, steps: seq<Step>, step: Step)
    requires WindingUp(s, d, to, steps) && Spares(s, s1, d) && LoopSafety.Auditing(s)
    ensures WindingUp(s1, d, to, steps + [step])
  {
    assert Drive(d, Write(false)) in steps ==> Drive(d, Write(false)) in steps + [step];
  }

  predicate EndMove(move: Move) { move.Write? || move.Audit? || move.Drop? }

  /** In a run without a crash nothing turns it back. */
  lemma {:induction false} RunWindsUp(c: Config, s: State, d: nat, to: Status, rest: seq<Step>)
    requires Inv(c, s) && to.Terminal() && WindingUp(s, d, to, []) && Run(c, s, rest).Some?
    requires forall k :: 0 <= k < |rest| ==> !rest[k].Crash?
    ensures WindingUp(Run(c, s, rest).value, d, to, rest)
    ensures forall k :: 0 <= k < |rest| && rest[k].Drive? && rest[k].d == d ==> EndMove(rest[k].move)
    decreases |rest|
  {
    if rest != [] {
      var n := |rest| - 1;
      hide Next, Inv, WindingUp;
      LastStep(c, s, rest);
      RunWindsUp(c, s, d, to, rest[..n]);
      RunKeepsInv(c, s, rest[..n]);
      assert rest == rest[..n] + [rest[n]];
      StepWindsUp(c, Run(c, s, rest[..n]).value, d, to, rest[..n], rest[n]);
    }
  }

  lemma StepWindsUp(c: Config, s: State, d: nat, to: Status, steps: seq<Step>, step: Step)
    requires Inv(c, s) && to.Terminal() && WindingUp(s, d, to, steps) && Next(c, s, step).Some? && !step.Crash?
    ensures WindingUp(Next(c, s, step).value, d, to, steps + [step])
    ensures step.Drive? && step.d == d ==> EndMove(step.move)
  {
    hide Tally, DriverStep, OpStep;
    if step.Drive? && step.d == d {
      OwnWindingUp(c, s, d, to, steps, step.move);
    } else {
      OthersSpare(c, s, d, step);
      SparedWindsUp(s, Next(c, s, step).value, d, to, steps, step);
    }
  }

  /** From the moment a driver of a living loop finds a reason to end it, in every continuation
      without a crash: it never wakes or starts a turn again; if it is the one that closes the
      row, the row says why; and once it has left, the row is closed, unless a write of its own
      was lost. */
  lemma EndsAsDecided(c: Config, s: State, d: nat, move: Move, rest: seq<Step>)
    requires Inv(c, s) && s.Live() && d in s.drivers && !EndingSoon(s, d) && Ending(c, s, d, move).Some?
    requires DriverStep(c, s, d, move).Some? && Run(c, DriverStep(c, s, d, move).value, rest).Some?
    requires forall k :: 0 <= k < |rest| ==> !rest[k].Crash?
    ensures var s1 := Run(c, DriverStep(c, s, d, move).value, rest).value;
            && d in s1.drivers
            && (forall k :: 0 <= k < |rest| && rest[k].Drive? && rest[k].d == d ==> EndMove(rest[k].move))
            && (s1.hist.closer == ByDriver(d) ==> s1.Is(Ending(c, s, d, move).value))
            && ((s1.drivers[d].pc.Leaving? || s1.drivers[d].pc.Gone?) && Drive(d, Write(false)) !in rest ==>
                  s1.Terminal())
  {
    var to, s1 := Ending(c, s, d, move).value, DriverStep(c, s, d, move).value;
    DecidesIff(c, s, d, move, to);
    StepKeepsInv(c, s, Drive(d, move));
    NotClosedYet(c, s, d, move, to);
    hide DriverStep, Inv;
    RunWindsUp(c, s1, d, to, rest);
  }

  lemma NotClosedYet(c: Config, s: State, d: nat, move: Move, to: Status)
    requires SlotDiscipline(s) && LoopSafety.Auditing(s) && s.Live() && d in s.drivers
    requires DriverStep(c, s, d, move).Some? && EndingIn(DriverStep(c, s, d, move).value, d, to) && !EndingSoon(s, d)
    ensures WindingUp(DriverStep(c, s, d, move).value, d, to, [])
  {
    StepCloses(c, s, Drive(d, move));
    hide DriverStep;
  }

  // ---- every end has its reason ----------------------------------------------------------

  predicate ReasonAt(c: Config, now: int, steps: seq<Step>, d: nat, to: Status, i: nat)
    requires i < |steps|
  {
    && steps[i].Drive? && steps[i].d == d && Run(c, Init(now), steps[..i]).Some?
    && var s := Run(c, Init(now), steps[..i]).value; d in s.drivers && Ending(c, s, d, steps[i].move) == Some(to)
  }

  /** At some step of the run driver `d` had to end its loop so. */
  ghost predicate Reason(c: Config, now: int, steps: seq<Step>, d: nat, to: Status) {
    exists i :: 0 <= i < |steps| && ReasonAt(c, now, steps, d, to, i)
  }

  lemma ReasonLater(c: Config, now: int, steps: seq<Step>, d: nat, to: Status, step: Step)
    requires Reason(c, now, steps, d, to)
    ensures Reason(c, now, steps + [step], d, to)
  {
    var i :| 0 <= i < |steps| && ReasonAt(c, now, steps, d, to, i);
    assert (steps + [step])[..i] == steps[..i];
    assert ReasonAt(c, now, steps + [step], d, to, i);
  }

  lemma ReasonNow(c: Config, now: int, steps: seq<Step>, d: nat, to: Status, move: Move)
    requires Run(c, Init(now), steps).Some?
    requires var s := Run(c, Init(now), steps).value; d in s.drivers && Ending(c, s, d, move) == Some(to)
    ensures Reason(c, now, steps + [Drive(d, move)], d, to)
  {
    assert (steps + [Drive(d, move)])[..|steps|] == steps;
    assert ReasonAt(c, now, steps + [Drive(d, move)], d, to, |steps|);
  }

  /** Who closed the row, and with what right. */
  ghost predicate Closed(c: Config, now: int, steps: seq<Step>, s: State) {
    match s.hist.closer
    case Nobody => !s.Terminal()
    case ByOp(_) => s.Is(Cancelled)
    case ByDriver(d) => s.row.Some? && Reason(c, now, steps, d, s.row.value.status)
    case ByReplay => s.Is(BudgetExhausted) && c.expiresAt <= s.now
  }

  ghost predicate Reasons(c: Config, now: int, steps: seq<Step>, s: State) {
    && Closed(c, now, steps, s)
    && (s.boot.Expiring? ==> c.expiresAt <= s.now)
    && forall d, to :: EndingIn(s, d, to) ==> Reason(c, now, steps, d, to)
  }

  /** A driver ends its loop because it already was about to, or now has a reason. */
  lemma EndingFrom(c: Config, s: State, step: Step, d: nat, to: Status)
    requires Next(c, s, step).Some? && EndingIn(Next(c, s, step).value, d, to)
    requires d in s.drivers && s.drivers[d].pc.Starting? ==> s.drivers[d].local.failures <= 4
    ensures || EndingIn(s, d, to)
            || (step.Drive? && step.d == d && d in s.drivers && Ending(c, s, d, step.move) == Some(to))
  {
    if step.Drive? && step.d == d {
      if !EndingSoon(s, d) { DecidesIff(c, s, d, step.move, to); } else { EndingOn(c, s, d, step.move, to); }
    } else {
      NotEnding(c, s, step, d, to);
    }
  }

  lemma EndingOn(c: Config, s: State, d: nat, move: Move, to: Status)
    requires EndingSoon(s, d) && DriverStep(c, s, d, move).Some? && EndingIn(DriverStep(c, s, d, move).value, d, to)
    ensures EndingIn(s, d, to)
  {
    hide Settle;
  }

  lemma NotEnding(c: Config, s: State, step: Step, d: nat, to: Status)
    requires Next(c, s, step).Some? && EndingIn(Next(c, s, step).value, d, to) && !(step.Drive? && step.d == d)
    ensures EndingIn(s, d, to)
  {
    hide NextTickDelay;
  }

  predicate KeepsCloser(s: State, s1: State) {
    && s1.hist.closer == s.hist.closer && (s.Terminal() <==> s1.Terminal()) && (s.Terminal() ==> s1.row == s.row)
  }

  /** How a step can close the row. */
  predicate Closes(s: State, s1: State, step: Step) {
    && !s.Terminal() && s1.row.Some?
    && match s1.hist.closer
       case Nobody => false
       case ByOp(_) => s1.Is(Cancelled)
       case ByDriver(d) => step.Drive? && step.d == d && EndingIn(s, d, s1.row.value.status)
       case ByReplay => s1.Is(BudgetExhausted) && s.boot.Expiring?
  }

  lemma WriteCloses(s: State, d: nat, ok: bool)
    requires SlotDiscipline(s) && d in s.drivers && Writes(s, d, s.drivers[d], ok).Some?
    ensures var s1 := Writes(s, d, s.drivers[d], ok).value; KeepsCloser(s, s1) || Closes(s, s1, Drive(d, Write(ok)))
  {}

  lemma MoveCloses(c: Config, s: State, d: nat, move: Move)
    requires d in s.drivers && DriverStep(c, s, d, move).Some? && !move.Write?
    ensures KeepsCloser(s, DriverStep(c, s, d, move).value)
  {
    hide NextTickDelay, Writes;
  }

  lemma OpCloses(s: State, step: Step)
    requires step.Proceed? && step.o in s.ops && OpStep(s, step.o, step.ok, step.d).Some?
    ensures var s1 := OpStep(s, step.o, step.ok, step.d).value; KeepsCloser(s, s1) || Closes(s, s1, step)
  {}

  lemma CallCloses(c: Config, s: State, step: Step)
    requires Next(c, s, step).Some? && !step.Drive? && !step.Proceed?
    ensures var s1 := Next(c, s, step).value; KeepsCloser(s, s1) || Closes(s, s1, step)
  {
    hide DriverStep, OpStep;
  }

  lemma StepCloses(c: Config, s: State, step: Step)
    requires SlotDiscipline(s) && Next(c, s, step).Some?
    ensures var s1 := Next(c, s, step).value; KeepsCloser(s, s1) || Closes(s, s1, step)
  {
    hide KeepsCloser, Closes, OpStep, Writes, Settle;
    if step.Proceed? { OpCloses(s, step); }
    else if !step.Drive? { CallCloses(c, s, step); }
    else if step.move.Write? { WriteCloses(s, step.d, step.move.ok); }
    else { MoveCloses(c, s, step.d, step.move); }
  }

  lemma TimeOnly(c: Config, s: State, step: Step)
    requires Next(c, s, step).Some? && (s.boot.Expiring? ==> c.expiresAt <= s.now)
    ensures s.now <= Next(c, s, step).value.now
    ensures Next(c, s, step).value.boot.Expiring? ==> c.expiresAt <= Next(c, s, step).value.now
  {
    hide NextTickDelay;
  }

  lemma {:induction false} RunReasons(c: Config, now: int, steps: seq<Step>)
    requires Run(c, Init(now), steps).Some?
    ensures Reasons(c, now, steps, Run(c, Init(now), steps).value)
    decreases |steps|
  {
    if steps != [] {
      var n := |steps| - 1;
      LastStep(c, Init(now), steps);
      RunReasons(c, now, steps[..n]);
      RunKeepsInv(c, Init(now), steps[..n]);
      assert steps == steps[..n] + [steps[n]];
      hide Next, Inv, Reasons;
      StepReasons(c, now, steps[..n], steps[n]);
    }
  }

  lemma StepReasons(c: Config, now: int, steps: seq<Step>, step: Step)
    requires Run(c, Init(now), steps).Some?
    requires var s := Run(c, Init(now), steps).value;
             Inv(c, s) && Reasons(c, now, steps, s) && Next(c, s, step).Some?
    ensures Reasons(c, now, steps + [step], Next(c, Run(c, Init(now), steps).value, step).value)
  {
    var s := Run(c, Init(now), steps).value;
    var s1 := Next(c, s, step).value;
    StepCloses(c, s, step);
    TimeOnly(c, s, step);
    forall d, to | EndingIn(s1, d, to) ensures Reason(c, now, steps + [step], d, to) {
      FewFailures(c, s, d);
      EndingFrom(c, s, step, d, to);
      if EndingIn(s, d, to) { ReasonLater(c, now, steps, d, to, step); }
      else { ReasonNow(c, now, steps, d, to, step.move); }
    }
    ClosedLater(c, now, steps, s, s1, step);
  }

  lemma FewFailures(c: Config, s: State, d: nat)
    requires Inv(c, s)
    ensures d in s.drivers && s.drivers[d].pc.Starting? ==> s.drivers[d].local.failures <= 4
  {}

  lemma ClosedLater(c: Config, now: int, steps: seq<Step>, s: State, s1: State, step: Step)
    requires Reasons(c, now, steps, s) && s.now <= s1.now && (KeepsCloser(s, s1) || Closes(s, s1, step))
    ensures Closed(c, now, steps + [step], s1)
  {
    var closer := s1.hist.closer;
    if closer.ByDriver? { ReasonLater(c, now, steps, closer.d, s1.row.value.status, step); }
  }

  /** In every run at all a row closed by a call is cancelled; one closed by the boot replay is
      exhausted, and its time is over; and one closed by a driver says what that driver had a
      reason to end it for at some step. Else the row is not closed. */
  lemma EveryEndHasItsReason(c: Config, now: int, steps: seq<Step>)
    requires Run(c, Init(now), steps).Some?
    ensures Closed(c, now, steps, Run(c, Init(now), steps).value)
  {
    RunReasons(c, now, steps);
  }
}
