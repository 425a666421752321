/** The detector registry, its event store, and offline back-testing. */
module Registry {
  import opened Wrappers
  import opened Detectors
  import DetectorTheorems

  datatype Spec = Spec(id: string, kind: Kind, coolOff: int)

  datatype Event = Event(id: string, anomaly: Anomaly)

  /** What a detector constructor accepts without panicking. */
  predicate Admitted(kind: Kind) { kind.Ewma? ==> 0.0 <= kind.alpha <= 1.0 }

  // ---- the registry as a value -----------------------------------------------------------

  /** `seen` is what each live detector has been fed since it was built. */
  datatype State = State(specs: map<string, Spec>, seen: map<string, seq<Obs>>, events: seq<Event>)

  datatype Op = Register(spec: Spec) | Deregister(id: string) | Observe(id: string, obs: Obs)

  const EMPTY := State(map[], map[], [])

  predicate Consistent(s: State) { s.specs.Keys == s.seen.Keys }

  function Step(s: State, op: Op): State
    requires Consistent(s)
    ensures Consistent(Step(s, op))
  {
    match op
    case Register(spec) =>
      // A refused detector panics before anything is stored.
      if Admitted(spec.kind) then s.(specs := s.specs[spec.id := spec], seen := s.seen[spec.id := []]) else s
    case Deregister(id) => s.(specs := s.specs - {id}, seen := s.seen - {id})
    case Observe(id, obs) =>
      if id !in s.seen then s
      else
        var seen := s.seen[id] + [obs];
        var report := Reported(s.specs[id].kind, s.specs[id].coolOff, seen);
        s.(seen := s.seen[id := seen],
           events := s.events + if report.Some? then [Event(id, report.value)] else [])
  }

  function Run(s: State, ops: seq<Op>): State
    requires Consistent(s)
    ensures Consistent(Run(s, ops))
    decreases |ops|
  {
    if ops == [] then s else Run(Step(s, ops[0]), ops[1..])
  }

  // ---- the registry as the program keeps it ----------------------------------------------

  /** The two detectors behind one interface. */
  datatype Inner = OfZScore(z: ZScoreDetector) | OfEwma(e: EwmaDetector)

  class Detector {
    const kind: Kind
    const coolOff: int
    const inner: Inner
    ghost const Repr: set<object>
    ghost var seen: seq<Obs>

    ghost predicate Valid() reads this, Repr {
      && this in Repr
      && match inner
         case OfZScore(z) =>
           && this !in z.Repr() && z.Repr() <= Repr && z.Valid() && seen == z.seen
           && kind == ZScore(z.sigma, z.minCount) && coolOff == z.coolOff
         case OfEwma(e) =>
           && this !in e.Repr() && e.Repr() <= Repr && e.Valid() && seen == e.seen
           && kind == Ewma(e.alpha, e.sigma, e.minCount) && coolOff == e.coolOff
    }

    /** `build_detector`. */
    constructor (kind: Kind, coolOff: int)
      requires Admitted(kind)
      ensures Valid() && fresh(Repr) && seen == []
      ensures this.kind == kind && this.coolOff == coolOff
    {
      this.kind, this.coolOff, seen := kind, coolOff, [];
      match kind
      case ZScore(sigma, minCount) =>
        var z := new ZScoreDetector(sigma, minCount, coolOff);
        inner, Repr := OfZScore(z), {this} + z.Repr();
      case Ewma(alpha, sigma, minCount) =>
        var e := new EwmaDetector(alpha, sigma, minCount, coolOff);
        inner, Repr := OfEwma(e), {this} + e.Repr();
    }

    method Observe(ts: int, value: real) returns (r: Option<Anomaly>)
      requires Valid()
      modifies Repr
      ensures Valid() && seen == old(seen) + [Obs(ts, value)]
      ensures r == Reported(kind, coolOff, seen)
    {
      match inner
      case OfZScore(z) => r := z.Observe(ts, value); seen := z.seen;
      case OfEwma(e) => r := e.Observe(ts, value); seen := e.seen;
    }
  }

  /** A detector is as valid as its own objects left it. */
  twostate lemma StillValid(d: Detector)
    requires old(d.Valid()) && unchanged(d.Repr)
    ensures d.Valid() && d.seen == old(d.seen)
  {}

  /** Each detector is the one its spec asks for, and keeps its state within `owned`. */
  ghost predicate Built(detectors: map<string, Detector>, specs: map<string, Spec>, owned: set<object>) {
    && detectors.Keys == specs.Keys
    && forall id :: id in detectors ==>
         && detectors[id] in detectors[id].Repr && detectors[id].Repr <= owned
         && detectors[id].kind == specs[id].kind && detectors[id].coolOff == specs[id].coolOff
  }

  /** No two detectors share state. */
  ghost predicate Apart(detectors: map<string, Detector>) {
    forall a, b :: a in detectors && b in detectors && a != b ==> detectors[a].Repr !! detectors[b].Repr
  }

  lemma Added(detectors: map<string, Detector>, specs: map<string, Spec>, owned: set<object>, spec: Spec, d: Detector)
    requires Built(detectors, specs, owned) && Apart(detectors)
    requires d in d.Repr && d.Repr !! owned && d.kind == spec.kind && d.coolOff == spec.coolOff
    ensures Built(detectors[spec.id := d], specs[spec.id := spec], owned + d.Repr) && Apart(detectors[spec.id := d])
  {}

  lemma Removed(detectors: map<string, Detector>, specs: map<string, Spec>, owned: set<object>, id: string)
    requires Built(detectors, specs, owned) && Apart(detectors)
    ensures Built(detectors - {id}, specs - {id}, owned) && Apart(detectors - {id})
  {}

  class InMemoryStore {
    var events: seq<Event>

    constructor ()
      ensures events == []
    {
      events := [];
    }

    method Record(id: string, anomaly: Anomaly)
      modifies this
      ensures events == old(events) + [Event(id, anomaly)]
    {
      events := events + [Event(id, anomaly)];
    }
  }

  class AnomalyRegistry {
    var specs: map<string, Spec>
    var detectors: map<string, Detector>
    const store: InMemoryStore
    ghost var seen: map<string, seq<Obs>>
    ghost var Repr: set<object>

    /** One detector a spec, built from it, and sharing no state with any other. */
    ghost predicate Wired() reads this {
      && this in Repr && store !in Repr && detectors.Keys == seen.Keys
      && Built(detectors, specs, Repr - {this}) && Apart(detectors)
    }

    ghost predicate Valid() reads this, Repr {
      && Wired()
      && forall id :: id in detectors ==> detectors[id].Valid() && detectors[id].seen == seen[id]
    }

    ghost function Abstract(): State reads this, store { State(specs, seen, store.events) }

    constructor (store: InMemoryStore)
      ensures Valid() && fresh(Repr) && this.store == store
      ensures Abstract() == State(map[], map[], store.events)
    {
      this.store, specs, detectors, seen, Repr := store, map[], map[], map[], {this};
    }

    /** Both insertions of `register`. */
    method Install(spec: Spec, d: Detector)
      requires Valid() && d.Valid() && d.seen == [] && d.kind == spec.kind && d.coolOff == spec.coolOff
      requires d.Repr !! Repr && store !in d.Repr
      modifies this
      ensures Valid() && Repr == old(Repr) + d.Repr
      ensures specs == old(specs)[spec.id := spec] && seen == old(seen)[spec.id := []]
    {
      assert d in d.Repr;
      Added(detectors, specs, Repr - {this}, spec, d);
      hide Detector.Valid, Apart;
      specs := specs[spec.id := spec];
      detectors := detectors[spec.id := d];
      seen := seen[spec.id := []];
      Repr := Repr + d.Repr;
      assert Repr - {this} == old(Repr) - {this} + d.Repr;
      forall id | id in detectors ensures detectors[id].Valid() && detectors[id].seen == seen[id] {
        StillValid(detectors[id]);
      }
    }

    /** The constructor of a refused detector panics; nothing has been stored by then. */
    method Register(spec: Spec) returns (panicked: bool)
      requires Valid()
      modifies this
      ensures Valid() && fresh(Repr - old(Repr))
      ensures panicked == !Admitted(spec.kind)
      ensures Abstract() == Step(old(Abstract()), Op.Register(spec))
    {
      if !Admitted(spec.kind) { return true; }
      var d := new Detector(spec.kind, spec.coolOff);
      Install(spec, d);
      return false;
    }

    method Deregister(id: string)
      requires Valid()
      modifies this
      ensures Valid() && Repr == old(Repr)
      ensures Abstract() == Step(old(Abstract()), Op.Deregister(id))
    {
      Removed(detectors, specs, Repr - {this}, id);
      hide Detector.Valid, Built, Apart;
      specs := specs - {id};
      detectors := detectors - {id};
      seen := seen - {id};
      assert Wired();
      forall k | k in detectors ensures detectors[k].Valid() && detectors[k].seen == seen[k] {
        StillValid(detectors[k]);
      }
    }

    /** The detector's turn: nothing but its own state changes. */
    method FeedOne(id: string, ts: int, value: real) returns (r: Option<Anomaly>)
      requires Valid() && id in detectors
      modifies detectors[id].Repr
      ensures AheadBy(id, Obs(ts, value))
      ensures r == Reported(specs[id].kind, specs[id].coolOff, detectors[id].seen)
    {
      hide Detector.Valid;
      r := detectors[id].Observe(ts, value);
      forall k | k in detectors && k != id ensures detectors[k].Valid() && detectors[k].seen == seen[k] {
        StillValid(detectors[k]);
      }
    }

    /** `id`'s detector has been fed one observation more than noted. */
    ghost predicate AheadBy(id: string, obs: Obs) reads this, Repr {
      && Wired() && id in detectors
      && forall k :: k in detectors ==>
           detectors[k].Valid() && detectors[k].seen == if k == id then seen[k] + [obs] else seen[k]
    }

    ghost method Note(id: string, obs: Obs)
      requires AheadBy(id, obs)
      modifies this`seen
      ensures Valid() && seen == old(seen)[id := old(seen)[id] + [obs]]
    {
      hide Detector.Valid;
      seen := seen[id := seen[id] + [obs]];
      assert Wired();
      forall k | k in detectors ensures detectors[k].Valid() && detectors[k].seen == seen[k] {
        StillValid(detectors[k]);
      }
    }

    method Feed(id: string, ts: int, value: real) returns (r: Option<Anomaly>)
      requires Valid() && id in detectors
      modifies detectors[id].Repr, this`seen
      ensures Valid() && seen == old(seen)[id := old(seen)[id] + [Obs(ts, value)]]
      ensures r == Reported(specs[id].kind, specs[id].coolOff, seen[id])
    {
      r := FeedOne(id, ts, value);
      Note(id, Obs(ts, value));
    }

    /** Feeds one observation to one detector. The spec it returns is always there. */
    method Observe(id: string, ts: int, value: real) returns (r: Option<(Spec, Anomaly)>)
      requires Valid()
      modifies Repr, store
      ensures Valid() && Repr == old(Repr)
      ensures Abstract() == Step(old(Abstract()), Op.Observe(id, Obs(ts, value)))
      ensures r.None? <==> store.events == old(store.events)
      ensures r.Some? ==>
                id in specs && r.value.0 == specs[id] && store.events == old(store.events) + [Event(id, r.value.1)]
    {
      hide Detector.Valid;
      if id !in detectors { return None; }
      var anomaly := Feed(id, ts, value);
      if anomaly.None? { return None; }
      store.Record(id, anomaly.value);
      return Some((specs[id], anomaly.value));
    }
  }

  // ---- back-testing ----------------------------------------------------------------------

  datatype BacktestError = InvalidSigma(sigma: real) | InvalidAlpha(alpha: real)

  /** `check_sigma` and the range check on alpha, in the order the program makes them. */
  function Checked(kind: Kind): Result<(), BacktestError> {
    match kind
    case ZScore(sigma, _) => if sigma > 0.0 then Ok(()) else Err(InvalidSigma(sigma))
    case Ewma(alpha, sigma, _) =>
      if !(0.0 <= alpha <= 1.0) then Err(InvalidAlpha(alpha))
      else if sigma > 0.0 then Ok(()) else Err(InvalidSigma(sigma))
  }

  method Backtest(spec: Spec, points: seq<Obs>) returns (r: Result<seq<Anomaly>, BacktestError>)
    ensures r == match Checked(spec.kind)
                 case Err(e) => Err(e)
                 case Ok(_) => Ok(Alerts(spec.kind, spec.coolOff, points))
  {
    var checked := Checked(spec.kind);
    if checked.Err? { return Err(checked.error); }
    var detector := new Detector(spec.kind, spec.coolOff);
    var found := [];
    for i := 0 to |points|
      invariant fresh(detector.Repr) && detector.Valid() && detector.seen == points[..i]
      invariant found == Alerts(spec.kind, spec.coolOff, points[..i])
    {
      AlertsStep(spec.kind, spec.coolOff, points[..i], points[i]);
      assert points[..i + 1] == points[..i] + [points[i]];
      var anomaly := detector.Observe(points[i].ts, points[i].value);
      if anomaly.Some? { found := found + [anomaly.value]; }
    }
    assert points[..|points|] == points;
    return Ok(found);
  }

  // ---- live runs against back-tests ------------------------------------------------------

  /** The anomalies stored for `id`, in order. */
  function Stored(events: seq<Event>, id: string): seq<Anomaly> {
    if events == [] then []
    else (if events[0].id == id then [events[0].anomaly] else []) + Stored(events[1..], id)
  }

  /** The observations an interleaved stream offers to `id`. */
  function OwnObs(ops: seq<Op>, id: string): seq<Obs> {
    if ops == [] then []
    else (if ops[0].Observe? && ops[0].id == id then [ops[0].obs] else []) + OwnObs(ops[1..], id)
  }

  /** `op` gives `id` a new detector. A registration that panics does not. */
  predicate Installs(op: Op, id: string) { op.Register? && op.spec.id == id && Admitted(op.spec.kind) }

  /** `op` replaces or removes the detector of `id`. */
  predicate Resets(op: Op, id: string) { Installs(op, id) || (op.Deregister? && op.id == id) }

  lemma {:induction false} StoredConcat(a: seq<Event>, b: seq<Event>, id: string)
    ensures Stored(a + b, id) == Stored(a, id) + Stored(b, id)
  {
    if a == [] {
      assert a + b == b;
    } else {
      var first := if a[0].id == id then [a[0].anomaly] else [];
      assert (a + b)[1..] == a[1..] + b;
      StoredConcat(a[1..], b, id);
      assert first + (Stored(a[1..], id) + Stored(b, id)) == first + Stored(a[1..], id) + Stored(b, id);
    }
  }

  /** `id` runs `spec`, has been fed `obs`, and everything stored for it beyond the first `from`
      events is what a fresh detector says about `obs`. */
  predicate Live(s: State, id: string, spec: Spec, from: nat, obs: seq<Obs>) {
    && Consistent(s) && id in s.specs && s.specs[id] == spec && s.seen[id] == obs
    && from <= |s.events| && Stored(s.events[from..], id) == Alerts(spec.kind, spec.coolOff, obs)
  }

  lemma StepKeepsLive(s: State, op: Op, id: string, spec: Spec, from: nat, obs: seq<Obs>)
    requires Live(s, id, spec, from, obs) && !Resets(op, id)
    ensures Live(Step(s, op), id, spec, from, obs + OwnObs([op], id))
    ensures s.events <= Step(s, op).events
  {
    assert OwnObs([op], id) == if op.Observe? && op.id == id then [op.obs] else [];
    if op.Observe? && op.id in s.seen {
      var added := Step(s, op).events[|s.events|..];
      StoredConcat(s.events[from..], added, id);
      assert Step(s, op).events[from..] == s.events[from..] + added;
      if op.id == id { AlertsStep(spec.kind, spec.coolOff, obs, op.obs); }
    } else {
      assert obs + [] == obs;
    }
  }

  lemma OwnObsCons(ops: seq<Op>, id: string)
    requires ops != []
    ensures OwnObs(ops, id) == OwnObs([ops[0]], id) + OwnObs(ops[1..], id)
  {}

  lemma {:induction false} RunKeepsLive(s: State, ops: seq<Op>, id: string, spec: Spec, from: nat, obs: seq<Obs>)
    requires Live(s, id, spec, from, obs) && forall op :: op in ops ==> !Resets(op, id)
    ensures Live(Run(s, ops), id, spec, from, obs + OwnObs(ops, id))
    decreases |ops|
  {
    if ops == [] {
      assert obs + [] == obs;
    } else {
      assert Consistent(s) && !Resets(ops[0], id);
      hide Live, Step, Resets, OwnObs, Consistent;
      var own, rest := OwnObs([ops[0]], id), OwnObs(ops[1..], id);
      StepKeepsLive(s, ops[0], id, spec, from, obs);
      RunKeepsLive(Step(s, ops[0]), ops[1..], id, spec, from, obs + own);
      OwnObsCons(ops, id);
      assert obs + own + rest == obs + (own + rest);
    }
  }

  lemma {:induction false} RunConcat(s: State, a: seq<Op>, b: seq<Op>)
    requires Consistent(s)
    ensures Run(s, a + b) == Run(Run(s, a), b)
    decreases |a|
  {
    if a == [] {
      assert a + b == b;
    } else {
      assert (a + b)[1..] == a[1..] + b;
      RunConcat(Step(s, a[0]), a[1..], b);
    }
  }

  /** In any interleaved stream of registrations, removals and observations over many ids: what
      is stored for an id since its last registration is what a fresh detector of that spec
      reports on that id's own observations; nothing else on the way leaks in. */
  lemma LiveMatchesBacktest(before: seq<Op>, spec: Spec, after: seq<Op>)
    requires Admitted(spec.kind) && forall op :: op in after ==> !Resets(op, spec.id)
    ensures var s := Run(EMPTY, before);
            var s1 := Run(EMPTY, before + [Op.Register(spec)] + after);
            && spec.id in s1.specs && s1.specs[spec.id] == spec
            && |s.events| <= |s1.events|
            && Stored(s1.events[|s.events|..], spec.id)
               == Alerts(spec.kind, spec.coolOff, OwnObs(after, spec.id))
  {
    var s := Run(EMPTY, before);
    RunConcat(EMPTY, before, [Op.Register(spec)]);
    RunConcat(EMPTY, before + [Op.Register(spec)], after);
    var registered := Step(s, Op.Register(spec));
    assert Run(s, [Op.Register(spec)]) == registered;
    assert registered.events[|s.events|..] == [];
    RunKeepsLive(registered, after, spec.id, spec, |s.events|, []);
    assert [] + OwnObs(after, spec.id) == OwnObs(after, spec.id);
  }

  /** An id without a detector stores nothing, whatever is observed for it. */
  lemma {:induction false} UnregisteredIsSilent(s: State, ops: seq<Op>, id: string)
    requires Consistent(s) && id !in s.specs && forall op :: op in ops ==> !Installs(op, id)
    ensures id !in Run(s, ops).specs && Stored(Run(s, ops).events, id) == Stored(s.events, id)
    decreases |ops|
  {
    if ops != [] {
      assert !Installs(ops[0], id);
      var s1 := Step(s, ops[0]);
      if s1.events != s.events { StoredConcat(s.events, s1.events[|s.events|..], id); }
      UnregisteredIsSilent(s1, ops[1..], id);
    }
  }

  /** From its removal on an id stores nothing, until it is registered again. */
  lemma DeregisteredIsSilent(before: seq<Op>, id: string, after: seq<Op>)
    requires forall op :: op in after ==> !Installs(op, id)
    ensures var s1 := Run(EMPTY, before + [Deregister(id)] + after);
            id !in s1.specs && Stored(s1.events, id) == Stored(Run(EMPTY, before).events, id)
  {
    var s := Run(EMPTY, before);
    RunConcat(EMPTY, before, [Deregister(id)]);
    RunConcat(EMPTY, before + [Deregister(id)], after);
    assert Run(s, [Deregister(id)]) == Step(s, Deregister(id));
    UnregisteredIsSilent(Step(s, Deregister(id)), after, id);
  }

  /** Back-testing accepts exactly the specs the registry admits whose threshold is positive, and
      blames the smoothing factor before the threshold. */
  lemma BacktestAcceptsIff(kind: Kind)
    ensures Checked(kind).Ok? <==> Admitted(kind) && kind.sigma > 0.0
    ensures Checked(kind).Err? ==>
              Checked(kind).error == if Admitted(kind) then InvalidSigma(kind.sigma) else InvalidAlpha(kind.alpha)
  {}

  /** So some live behaviour has no back-test: with a negative threshold the registry runs the
      spec and reports a perfectly ordinary second value, and the back-test refuses it. */
  lemma LiveWithoutBacktest(id: string) returns (spec: Spec, ops: seq<Op>)
    ensures Admitted(spec.kind) && Checked(spec.kind).Err?
    ensures |Run(EMPTY, [Op.Register(spec)] + ops).events| > 0
  {
    spec := Spec(id, ZScore(-1.0, 2), 0);
    var first, second := Obs(0, 0.0), Obs(1, 2.0);
    ops := [Op.Observe(id, first), Op.Observe(id, second)];
    LiveMatchesBacktest([], spec, ops);
    assert [] + [Op.Register(spec)] + ops == [Op.Register(spec)] + ops;
    assert ops[1..] == [Op.Observe(id, second)];
    assert OwnObs(ops[1..], id) == [second] + OwnObs([], id);
    assert OwnObs(ops, id) == [first, second];
    assert [first, second][..1] == [first];
    NegativeFires(first, second);
  }

  lemma NegativeFires(first: Obs, second: Obs)
    requires first == Obs(0, 0.0) && second == Obs(1, 2.0)
    ensures Alerts(ZScore(-1.0, 2), 0, [first, second]) != []
  {
    var obs := [first, second];
    assert obs[..1] == [first] && [first][..0] == [];
    assert Values(obs) == DetectorTheorems.Zeros(1) + [2.0];
    DetectorTheorems.SpikeBaseline(2);
    DetectorTheorems.EpsilonIsSmall();
    assert !Fires(ZScore(-1.0, 2), 0, [first]);
  }
}
