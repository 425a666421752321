/** Concrete runs of the /loop controller, built one step at a time. */
module LoopPaths {
  import opened Wrappers
  import opened LoopModel

  ghost predicate Reaches(c: Config, from: State, path: seq<Step>, to: State) {
    Run(c, from, path) == Some(to)
  }

  lemma {:induction false} RunSnoc(c: Config, s: State, steps: seq<Step>, step: Step)
    requires Run(c, s, steps).Some?
    ensures Run(c, s, steps + [step]) == Next(c, Run(c, s, steps).value, step)
    decreases |steps|
  {
    if steps == [] {
      assert ([] + [step])[1..] == [];
    } else {
      assert (steps + [step])[1..] == steps[1..] + [step];
      RunSnoc(c, Next(c, s, steps[0]).value, steps[1..], step);
    }
  }

  lemma Go(c: Config, from: State, path: seq<Step>, s: State, step: Step) returns (path1: seq<Step>, s1: State)
    requires Reaches(c, from, path, s) && Next(c, s, step).Some?
    ensures Reaches(c, from, path1, s1) && s1 == Next(c, s, step).value
  {
    RunSnoc(c, from, path, step);
    path1, s1 := path + [step], Next(c, s, step).value;
  }

  /** Driver `d` passes its budget checks; a token query, if any, fails. */
  lemma PassGates(c: Config, from: State, path: seq<Step>, s: State, d: nat)
    returns (path1: seq<Step>, s1: State)
    requires Reaches(c, from, path, s) && d in s.drivers && s.drivers[d].pc == Top
    requires s.drivers[d].local.ticks < c.maxTicks && s.now < c.expiresAt
    ensures Reaches(c, from, path1, s1)
    ensures s1 == s.(drivers := s.drivers[d := s.drivers[d].(pc := Sleeping)])
  {
    path1, s1 := Go(c, from, path, s, Drive(d, Gate));
    if c.maxTokens > 0 {
      path1, s1 := Go(c, from, path1, s1, Drive(d, Meter(None)));
    }
    assert s1.drivers == s.drivers[d := s.drivers[d].(pc := Sleeping)];
  }

  /** Driver `d` wakes at time `at`. */
  lemma WakeAt(c: Config, from: State, path: seq<Step>, s: State, d: nat, at: int)
    returns (path1: seq<Step>, s1: State)
    requires Reaches(c, from, path, s) && d in s.drivers && s.drivers[d].pc == Sleeping
    requires s.now <= at && s.drivers[d].local.nextAt <= at < c.expiresAt
    ensures Reaches(c, from, path1, s1)
    ensures s1 == s.(now := at, drivers := s.drivers[d := s.drivers[d].(pc := Starting)],
                     hist := s.hist.(starts := s.hist.starts + [at]))
  {
    path1, s1 := Go(c, from, path, s, Clock(at));
    path1, s1 := Go(c, from, path1, s1, Drive(d, Wake));
  }

  /** Driver `d` wakes at time `at` and its turn starts. */
  lemma StartTick(c: Config, from: State, path: seq<Step>, s: State, d: nat, at: int)
    returns (path1: seq<Step>, s1: State)
    requires Reaches(c, from, path, s) && d in s.drivers && s.drivers[d].pc == Top
    requires s.drivers[d].local.ticks < c.maxTicks
    requires s.now <= at && s.drivers[d].local.nextAt <= at < c.expiresAt
    ensures Reaches(c, from, path1, s1)
    ensures s1 == s.(now := at, drivers := s.drivers[d := s.drivers[d].(pc := Running)],
                     hist := s.hist.(fired := s.hist.fired + 1, starts := s.hist.starts + [at]))
  {
    path1, s1 := PassGates(c, from, path, s, d);
    path1, s1 := WakeAt(c, from, path1, s1, d, at);
    path1, s1 := Go(c, from, path1, s1, Drive(d, RunTurn(Launched)));
    assert s1.drivers == s.drivers[d := s.drivers[d].(pc := Running)];
  }

  /** The agent pauses the loop in the running turn of driver `d`. */
  lemma EndPausing(c: Config, from: State, path: seq<Step>, s: State, d: nat)
    returns (path1: seq<Step>, s1: State)
    requires Reaches(c, from, path, s) && s.Is(Active) && d in s.drivers && s.drivers[d].pc == Running
    ensures Reaches(c, from, path1, s1)
    ensures var l := s.drivers[d].local;
            s1 == s.(row := Some(Row(Paused, l.ticks + 1, 0, l.nextAt)),
                     drivers := s.drivers[d := Driver(l.(ticks := l.ticks + 1, failures := 0),
                                                      s.drivers[d].cancelled, Leaving(true))],
                     hist := s.hist.(owner := Nobody, streak := 0))
  {
    hide Reaches, Settle;
    path1, s1 := Go(c, from, path, s, Drive(d, Finish(Completed(LoopPause))));
    path1, s1 := Go(c, from, path1, s1, Drive(d, Write(true)));
    path1, s1 := Go(c, from, path1, s1, Drive(d, Write(true)));
    var l := s.drivers[d].local;
    assert s1.drivers == s.drivers[d := Driver(l.(ticks := l.ticks + 1, failures := 0),
                                               s.drivers[d].cancelled, Leaving(true))];
  }

  /** The running turn of driver `d` completes; the driver goes round again. */
  lemma EndPassing(c: Config, from: State, path: seq<Step>, s: State, d: nat)
    returns (path1: seq<Step>, s1: State)
    requires Reaches(c, from, path, s) && s.Is(Active) && d in s.drivers && s.drivers[d].pc == Running
    ensures Reaches(c, from, path1, s1)
    ensures var l := Local(s.drivers[d].local.ticks + 1, 0, s.now + c.pacing.interval);
            s1 == s.(row := Some(Row(Active, l.ticks, 0, l.nextAt)),
                     drivers := s.drivers[d := Driver(l, s.drivers[d].cancelled, Top)],
                     hist := s.hist.(streak := 0))
  {
    path1, s1 := Go(c, from, path, s, Drive(d, Finish(Completed(NoIntent(None)))));
    path1, s1 := Go(c, from, path1, s1, Drive(d, Write(true)));
    var l := Local(s.drivers[d].local.ticks + 1, 0, s.now + c.pacing.interval);
    assert s1.drivers == s.drivers[d := Driver(l, s.drivers[d].cancelled, Top)];
  }
}
