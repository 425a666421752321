/** When pausing and resuming keeps the tick budget and the spacing of a loop, and when it breaks
    the budget. */
module LoopBudget {
  import opened LoopTiming
  import opened LoopModel
  import opened LoopPaths
  import opened LoopSafety
  import opened LoopTheorems
  import LoopAccidents
  import LoopSpacing

  // ---- one resume call at a time ---------------------------------------------------------

  /** At most one resume call has read the row and not yet written it. */
  predicate OneResume(s: State) {
    forall o, p :: o in s.ops && p in s.ops && s.ops[o].ResumeRead? && s.ops[p].ResumeRead? ==> o == p
  }

  /** So at every moment of a run. */
  predicate NoOverlap(c: Config, s: State, steps: seq<Step>)
    decreases |steps|
  {
    && OneResume(s)
    && (steps != [] && Next(c, s, steps[0]).Some? ==> NoOverlap(c, Next(c, s, steps[0]).value, steps[1..]))
  }

  /** Then what a resume call has read is what is stored, unless the loop has ended meanwhile. */
  predicate Current(s: State) {
    && !s.hist.stale
    && forall o :: o in s.ops && s.ops[o].ResumeRead? ==>
         s.row.Some? && (s.Terminal() || (s.Is(Paused) && s.ops[o].snapshot.ticks == s.row.value.ticks))
  }

  /** A driver's step leaves the calls alone, and moves a paused row only to a terminal one. */
  predicate KeepsPause(s: State, s1: State) {
    && s1.ops == s.ops && s1.hist.stale == s.hist.stale
    && (s.row.Some? ==> s1.row.Some?)
    && (s.Is(Paused) ==> s1.row == s.row || s1.Terminal())
    && (s.Terminal() ==> s1.Terminal())
  }

  lemma WriteKeepsPause(s: State, d: nat, ok: bool)
    requires d in s.drivers && Writes(s, d, s.drivers[d], ok).Some? && SlotDiscipline(s)
    ensures KeepsPause(s, Writes(s, d, s.drivers[d], ok).value)
  {}

  lemma TickKeepsPause(c: Config, s: State, d: nat, move: Move)
    requires d in s.drivers && DriverStep(c, s, d, move).Some? && (move.RunTurn? || move.Finish?)
    ensures KeepsPause(s, DriverStep(c, s, d, move).value)
  {
    hide Writes, NextTickDelay;
  }

  lemma OtherMoveKeepsPause(c: Config, s: State, d: nat, move: Move)
    requires d in s.drivers && DriverStep(c, s, d, move).Some?
    requires !move.RunTurn? && !move.Finish? && !move.Write?
    ensures KeepsPause(s, DriverStep(c, s, d, move).value)
  {
    hide Writes, Settle;
  }

  lemma DriverKeepsPause(c: Config, s: State, d: nat, move: Move)
    requires SlotDiscipline(s) && d in s.drivers && DriverStep(c, s, d, move).Some?
    ensures KeepsPause(s, DriverStep(c, s, d, move).value)
  {
    hide SlotDiscipline, KeepsPause, Writes, Settle;
    if move.Write? { WriteKeepsPause(s, d, move.ok); }
    else if move.RunTurn? || move.Finish? { TickKeepsPause(c, s, d, move); }
    else { OtherMoveKeepsPause(c, s, d, move); }
  }

  lemma DriverCurrent(c: Config, s: State, d: nat, move: Move)
    requires SlotDiscipline(s) && Current(s) && d in s.drivers && DriverStep(c, s, d, move).Some?
    ensures Current(DriverStep(c, s, d, move).value)
  {
    DriverKeepsPause(c, s, d, move);
    hide DriverStep, SlotDiscipline;
  }

  lemma OpCurrent(s: State, o: nat, ok: bool, d: nat)
    requires OneResume(s) && Current(s) && o in s.ops && OpStep(s, o, ok, d).Some?
    ensures Current(OpStep(s, o, ok, d).value)
  {}

  lemma OtherCurrent(c: Config, s: State, step: Step)
    requires Unborn(s) && Quiet(s) && Current(s) && Next(c, s, step).Some? && !step.Drive? && !step.Proceed?
    ensures Current(Next(c, s, step).value)
  {}

  lemma StepCurrent(c: Config, s: State, step: Step)
    requires Inv(c, s) && OneResume(s) && Current(s) && Next(c, s, step).Some?
    ensures Current(Next(c, s, step).value)
  {
    hide Current, OneResume, Tally, DriverStep, OpStep;
    if step.Drive? { DriverCurrent(c, s, step.d, step.move); }
    else if step.Proceed? { OpCurrent(s, step.o, step.ok, step.d); }
    else { OtherCurrent(c, s, step); }
  }

  lemma {:induction false} RunCurrent(c: Config, s: State, steps: seq<Step>)
    requires Inv(c, s) && Current(s) && NoOverlap(c, s, steps) && Run(c, s, steps).Some?
    ensures Current(Run(c, s, steps).value)
    decreases |steps|
  {
    hide Current, Inv, Next;
    if steps != [] {
      StepCurrent(c, s, steps[0]);
      StepKeepsInv(c, s, steps[0]);
      RunCurrent(c, Next(c, s, steps[0]).value, steps[1..]);
    }
  }

  /** If no two resume calls of the loop ever overlap, then however often it is paused and resumed,
      no run fires more than maxTicks ticks and one for each crash and each lost tick count; so
      none fires more than maxTicks without a crash or a failed write. */
  lemma SerialResumesKeepBudget(c: Config, now: int, steps: seq<Step>)
    requires Run(c, Init(now), steps).Some? && NoOverlap(c, Init(now), steps)
    ensures var s := Run(c, Init(now), steps).value;
            && s.hist.fired <= c.maxTicks + s.hist.crashes + s.hist.lostCounts
            && (Undisturbed(s) ==> s.hist.fired <= c.maxTicks)
  {
    RunCurrent(c, Init(now), steps);
    LoopAccidents.BudgetOverAccidents(c, now, steps);
    TickBudget(c, now, steps);
  }

  /** Nor do its ticks crowd: with valid pacing, without a crash or a failed write, any two start at
      least the pacing's gap apart. */
  lemma SerialTicksAreSpaced(c: Config, now: int, steps: seq<Step>, i: nat, j: nat)
    requires c.pacing.Valid() && Run(c, Init(now), steps).Some? && NoOverlap(c, Init(now), steps)
    requires var s := Run(c, Init(now), steps).value; Undisturbed(s) && i <= j < |s.hist.starts|
    ensures var s := Run(c, Init(now), steps).value;
            s.hist.starts[j] - s.hist.starts[i] >= (j - i) * Gap(c.pacing)
  {
    RunCurrent(c, Init(now), steps);
    LoopSpacing.TicksAreSpaced(c, now, steps, i, j);
  }

  // ---- one stale resume is enough --------------------------------------------------------

  /** Driver `d` is about to check its budgets on an active loop, and there is time for all the
      ticks it still counts as its own. */
  predicate Unhurried(c: Config, s: State, d: nat) {
    && s.Is(Active) && d in s.drivers && s.drivers[d].pc == Top && s.drivers[d].local.ticks <= c.maxTicks
    && DueAt(s, d) + (c.maxTicks - s.drivers[d].local.ticks) * c.pacing.interval < c.expiresAt
  }

  function DueAt(s: State, d: nat): int
    requires d in s.drivers
  {
    if s.now <= s.drivers[d].local.nextAt then s.drivers[d].local.nextAt else s.now
  }

  lemma TimeLeft(ticks: nat, maxTicks: nat, interval: nat, at: int, expiresAt: int)
    requires ticks < maxTicks && at + (maxTicks - ticks) * interval < expiresAt
    ensures at < expiresAt && at + interval + (maxTicks - (ticks + 1)) * interval < expiresAt
  {
    assert (maxTicks - ticks) * interval == (maxTicks - (ticks + 1)) * interval + interval;
    assert (maxTicks - (ticks + 1)) * interval >= 0;
  }

  lemma FireOne(c: Config, from: State, path: seq<Step>, s: State, d: nat) returns (path1: seq<Step>, s1: State)
    requires Reaches(c, from, path, s) && Unhurried(c, s, d) && s.drivers[d].local.ticks < c.maxTicks
    ensures Reaches(c, from, path1, s1) && Unhurried(c, s1, d)
    ensures s1.drivers[d].local.ticks == s.drivers[d].local.ticks + 1
    ensures s1.hist.fired == s.hist.fired + 1
    ensures s1.hist.crashed == s.hist.crashed && s1.hist.storeError == s.hist.storeError
  {
    var l, at := s.drivers[d].local, DueAt(s, d);
    TimeLeft(l.ticks, c.maxTicks, c.pacing.interval, at, c.expiresAt);
    path1, s1 := StartTick(c, from, path, s, d, at);
    path1, s1 := EndPassing(c, from, path1, s1, d);
  }

  lemma {:induction false} FireAllOwn(c: Config, from: State, path: seq<Step>, s: State, d: nat)
    returns (path1: seq<Step>, s1: State)
    requires Reaches(c, from, path, s) && Unhurried(c, s, d)
    ensures Reaches(c, from, path1, s1)
    ensures s1.hist.fired == s.hist.fired + c.maxTicks - s.drivers[d].local.ticks
    ensures s1.hist.crashed == s.hist.crashed && s1.hist.storeError == s.hist.storeError
    decreases c.maxTicks - s.drivers[d].local.ticks
  {
    if s.drivers[d].local.ticks == c.maxTicks {
      path1, s1 := path, s;
    } else {
      path1, s1 := FireOne(c, from, path, s, d);
      path1, s1 := FireAllOwn(c, from, path1, s1, d);
    }
  }

  /** The driver that paused the loop lets go of its slot, if it has not yet. */
  lemma FreeSlot(c: Config, s: State, o: nat) returns (path: seq<Step>, s1: State)
    requires Inv(c, s) && Undisturbed(s) && s.Is(Paused) && o in s.ops && s.ops[o].ResumeRead?
    ensures Reaches(c, s, path, s1) && s1.slot.None? && s1.drivers.Keys == s.drivers.Keys
    ensures s1 == s.(slot := s1.slot, drivers := s1.drivers)
  {
    path, s1 := [], s;
    if s.slot.Some? {
      assert s.drivers[s.slot.value].pc.Leaving?;
      path, s1 := Go(c, s, [], s, Drive(s.slot.value, Drop));
    }
  }

  /** The resume call takes effect and arms driver `d`. */
  lemma ResumeAndArm(c: Config, from: State, path: seq<Step>, s: State, o: nat, d: nat)
    returns (path1: seq<Step>, s1: State)
    requires Reaches(c, from, path, s) && s.Is(Paused) && o in s.ops && s.ops[o].ResumeRead?
    requires s.slot.None? && d !in s.drivers
    ensures Reaches(c, from, path1, s1) && s1.Is(Active) && s1.now == s.now && d in s1.drivers
    ensures s1.drivers[d] == Driver(s.ops[o].snapshot.(failures := 0), false, Top)
    ensures s1.hist.fired == s.hist.fired
    ensures s1.hist.crashed == s.hist.crashed && s1.hist.storeError == s.hist.storeError
  {
    path1, s1 := Go(c, from, path, s, Proceed(o, true, d));
    path1, s1 := Go(c, from, path1, s1, Proceed(o, true, d));
  }

  /** From every reachable paused state with a resume call in flight that has read fewer ticks than
      are stored, given time before the expiry, some continuation fires more than maxTicks
      ticks in all, without a crash or a failed write. */
  lemma StaleResumeBreaksBudget(c: Config, now: int, steps: seq<Step>, o: nat, d: nat)
    returns (path: seq<Step>, s1: State)
    requires Run(c, Init(now), steps).Some?
    requires var s := Run(c, Init(now), steps).value;
             && Undisturbed(s) && s.Is(Paused) && o in s.ops && s.ops[o].ResumeRead? && d !in s.drivers
             && s.hist.lost >= 0 && s.ops[o].snapshot.ticks < s.row.value.ticks
             && (var snap := s.ops[o].snapshot;
                 (if s.now <= snap.nextAt then snap.nextAt else s.now) + (c.maxTicks - snap.ticks) * c.pacing.interval
                 < c.expiresAt)
    ensures Reaches(c, Run(c, Init(now), steps).value, path, s1) && Undisturbed(s1)
    ensures s1.hist.fired > c.maxTicks
  {
    Reachable(c, now, steps);
    var s := Run(c, Init(now), steps).value;
    assert s.hist.fired == s.row.value.ticks + s.hist.lost;
    path, s1 := FreeSlot(c, s, o);
    path, s1 := ResumeAndArm(c, s, path, s1, o, d);
    path, s1 := FireAllOwn(c, s, path, s1, d);
  }
}
