/** Consult mode: which tools a turn may see, and the gate that enforces it. */
module Consult {
  import opened Wrappers
  import opened Messages
  import Dispatch
  import DispatchSafety
  import React
  import ReactTheorems
  import Ledgers

  datatype Hint = Read | Write

  /** One registered tool: its name and hint, and the client that owns it. */
  datatype Entry = Entry(name: string, hint: Hint, client: nat)

  type Tools = map<string, Entry>

  /** The catalogue is keyed by the names in its entries. */
  predicate Named(tools: Tools) { forall n :: n in tools ==> tools[n].name == n }

  /** The tool catalogue of one run. */
  class Toolbox {
    var byName: Tools

    ghost predicate Valid() reads this { Named(byName) }

    constructor ()
      ensures Valid() && byName == map[]
    {
      byName := map[];
    }

    /** Refuses a name that is taken. */
    method Insert(entry: Entry) returns (ok: bool)
      requires Valid()
      modifies this
      ensures Valid() && ok == (entry.name !in old(byName))
      ensures byName == if ok then old(byName)[entry.name := entry] else old(byName)
    {
      ok := entry.name !in byName;
      if ok { byName := byName[entry.name := entry]; }
    }

    method InsertOrReplace(entry: Entry)
      requires Valid()
      modifies this
      ensures Valid() && byName == old(byName)[entry.name := entry]
    {
      byName := byName[entry.name := entry];
    }

    /** The names of the catalogue, each once, in no particular order. */
    method ToSpecs() returns (names: seq<string>)
      requires Valid()
      ensures forall n :: n in names <==> n in byName
      ensures forall i, j :: 0 <= i < j < |names| ==> names[i] != names[j]
    {
      names := [];
      var left := byName.Keys;
      while left != {}
        invariant left <= byName.Keys
        invariant forall n :: n in names <==> n in byName.Keys - left
        invariant forall i, j :: 0 <= i < j < |names| ==> names[i] != names[j]
      {
        var n :| n in left;
        var was := names;
        names, left := names + [byName[n].name], left - {n};
        assert byName[n].name == n && byName.Keys - left == byName.Keys - (left + {n}) + {n};
        assert forall m :: m in names <==> m in was || m == n;
      }
    }
  }

  /** `read_only_tool_names`: looked up by the names the entries carry. */
  function ReadOnlyNames(tools: Tools): set<string> {
    set n | n in tools && tools[n].name in tools && tools[tools[n].name].hint.Read? :: tools[n].name
  }

  function Restricted(tools: Tools, names: set<string>): Tools {
    map n | n in tools && n in names :: tools[n]
  }

  lemma ReadOnlyNamesAre(tools: Tools)
    requires Named(tools)
    ensures forall n :: n in ReadOnlyNames(tools) <==> n in tools && tools[n].hint.Read?
  {
    forall n | n in tools && tools[n].hint.Read? ensures n in ReadOnlyNames(tools) {
      assert tools[n].name == n;
    }
  }

  /** Rebuilds the catalogue from its read-only tools; the base stays as it is. */
  method ReadOnlyToolbox(base: Toolbox) returns (tb: Toolbox)
    requires base.Valid()
    ensures fresh(tb) && tb.Valid()
    ensures tb.byName == Restricted(base.byName, ReadOnlyNames(base.byName))
  {
    tb := new Toolbox();
    ReadOnlyNamesAre(base.byName);
    var names := base.ToSpecs();
    for i := 0 to |names|
      invariant fresh(tb) && tb.Valid() && base.Valid()
      invariant base.byName == old(base.byName)
      invariant forall n :: n in tb.byName <==> n in names[..i] && n in ReadOnlyNames(base.byName)
      invariant forall n :: n in tb.byName ==> tb.byName[n] == base.byName[n]
    {
      if base.byName[names[i]].hint.Read? {
        tb.InsertOrReplace(base.byName[names[i]]);
      }
    }
    assert names[..|names|] == names;
  }

  /** The base catalogue with the tools of the active servers, first come first served. */
  function Merged(base: Tools, active: seq<Entry>): Tools
    decreases |active|
  {
    if active == [] then base
    else
      var e := active[0];
      Merged(if e.name in base then base else base[e.name := e], active[1..])
  }

  method MergeActive(base: Toolbox, active: seq<Entry>) returns (merged: Toolbox)
    requires base.Valid()
    ensures fresh(merged) && merged.Valid() && merged.byName == Merged(base.byName, active)
  {
    merged := new Toolbox();
    merged.byName := base.byName;
    assert active[0..] == active;
    for i := 0 to |active|
      invariant fresh(merged) && merged.Valid()
      invariant base.byName == old(base.byName)
      invariant Merged(merged.byName, active[i..]) == Merged(base.byName, active)
    {
      assert active[i..][0] == active[i] && active[i..][1..] == active[i + 1..];
      var added := merged.Insert(active[i]);
    }
  }

  /** No server can take over a name: what was there stays, and a new name belongs to the first
      server that brought it. */
  lemma {:induction false} MergedIs(base: Tools, active: seq<Entry>, name: string)
    requires Named(base)
    ensures Named(Merged(base, active))
    ensures name in Merged(base, active) <==> name in base || exists e :: e in active && e.name == name
    ensures name in base ==> Merged(base, active)[name] == base[name]
    ensures name !in base && name in Merged(base, active) ==>
              exists i ::
                && 0 <= i < |active| && active[i] == Merged(base, active)[name]
                && forall j :: 0 <= j < i ==> active[j].name != name
    decreases |active|
  {
    if active != [] {
      var e, rest := active[0], active[1..];
      var base1 := if e.name in base then base else base[e.name := e];
      MergedIs(base1, rest, name);
      assert active == [e] + rest;
      if name !in base && name in Merged(base, active) {
        if name in base1 {
          assert active[0] == Merged(base, active)[name];
        } else {
          var i :| 0 <= i < |rest| && rest[i] == Merged(base, active)[name]
                   && forall j :: 0 <= j < i ==> rest[j].name != name;
          assert active[i + 1] == rest[i];
          assert forall j :: 0 < j < i + 1 ==> active[j] == rest[j - 1];
        }
      }
    }
  }

  /** A persona's allowlist; None is unrestricted, an empty list denies everything. */
  function Narrowed(tools: Tools, allow: Option<seq<string>>): Tools {
    match allow
    case None => tools
    case Some(list) => map n | n in tools && n in list :: tools[n]
  }

  /** The catalogue of a turn, before its mode is taken into account. */
  function TurnTools(base: Tools, active: seq<Entry>, allow: Option<seq<string>>): Tools {
    Narrowed(Merged(base, active), allow)
  }

  /** A turn sees exactly the merged tools that the allowlist, if there is one, names; each as it is. */
  lemma TurnToolsAre(base: Tools, active: seq<Entry>, allow: Option<seq<string>>, name: string)
    ensures name in TurnTools(base, active, allow)
            <==> name in Merged(base, active) && (allow.None? || name in allow.value)
    ensures name in TurnTools(base, active, allow) ==>
              TurnTools(base, active, allow)[name] == Merged(base, active)[name]
  {}

  /** `consult_agent_config`: the configured gate, if any, wrapped and keyed on `tools`. */
  function ConsultConfig(cfg: React.AgentConfig, tools: Tools, audited: bool): React.AgentConfig {
    cfg.(gate := Dispatch.Consult(ReadOnlyNames(tools), !cfg.gate.NoGate?, audited))
  }

  /** A consult turn: the visible tools are narrowed, and the gate is wrapped. */
  function ConsultTurn(cfg: React.AgentConfig, tools: Tools, audited: bool): React.AgentConfig {
    ConsultConfig(cfg.(toolbox := Restricted(tools, ReadOnlyNames(tools)).Keys), tools, audited)
  }

  /** Both layers name the same tools: exactly those hinted Read. */
  lemma LayersAgree(cfg: React.AgentConfig, tools: Tools, audited: bool)
    requires Named(tools)
    ensures var c := ConsultTurn(cfg, tools, audited);
            && c.toolbox == c.gate.readOnly
            && forall n :: n in c.toolbox <==> n in tools && tools[n].hint.Read?
  {
    ReadOnlyNamesAre(tools);
  }

  /** Over a whole consult turn, with any model output, any servers, any allowlist and any inner
      gate: a call that reaches a client names a tool hinted Read by the entry that owns the
      name, allowlisted, and the boot catalogue's own wherever that has one of this name; and
      the inner gate, or the operator it referred to, had let this very call through. */
  lemma ConsultTurnReach(cfg: React.AgentConfig, base: Tools, active: seq<Entry>, allow: Option<seq<string>>,
                         audited: bool, w: React.World, ms: seq<Message>, inv: Ledgers.Invocation)
    requires Named(base)
    requires w.Valid(ConsultTurn(cfg, TurnTools(base, active, allow), audited))
    requires var turn := ConsultTurn(cfg, TurnTools(base, active, allow), audited);
             inv in ReactTheorems.RunLedger(turn, w, ms).invocations
    ensures var name := inv.call.name;
            && name in Merged(base, active) && Merged(base, active)[name].hint.Read?
            && (name in base ==> base[name].hint.Read?)
            && (allow.Some? ==> name in allow.value)
    ensures || inv.branch.verdict == Some(Dispatch.Allow)
            || (inv.branch.verdict.Some? && inv.branch.verdict.value.Suspend?
                && inv.branch.decision == Some(Dispatch.Allowed))
  {
    var tools := TurnTools(base, active, allow);
    MergedIs(base, active, inv.call.name);
    LayersAgree(cfg, tools, audited);
    ReactTheorems.RunAccounts(ConsultTurn(cfg, tools, audited), w, ms);
  }

  /** Over a whole run under the wrapped gate: the inner gate, if there is one, is asked about
      every within-limit call to a Read tool, summed over all dispatched turns, and about
      nothing else; and the observer, if there is one, is told of every other within-limit
      call, once each, and of nothing else. */
  lemma ConsultRunAsks(cfg: React.AgentConfig, tools: Tools, audited: bool, w: React.World, ms: seq<Message>)
    requires Named(tools) && w.Valid(ConsultConfig(cfg, tools, audited))
    ensures var l := ReactTheorems.RunLedger(ConsultConfig(cfg, tools, audited), w, ms);
            && l.checks == (if cfg.gate.NoGate? then multiset{} else CallsOver(tools, l.dispatched, true))
            && l.notices == (if audited then CallsOver(tools, l.dispatched, false) else multiset{})
  {
    var c := ConsultConfig(cfg, tools, audited);
    ReactTheorems.RunAccounts(c, w, ms);
    OverIsCalls(cfg, tools, audited, ReactTheorems.RunLedger(c, w, ms).dispatched);
  }

  /** The within-limit calls of a turn to tools hinted Read, or to all others. */
  function Readable(tools: Tools, calls: seq<ToolCall>, readable: bool): nat -> bool {
    (i: nat) =>
      i < |calls| && i < Dispatch.MAX_TOOL_CALLS_PER_TURN
      && (calls[i].name in tools && tools[calls[i].name].hint.Read?) == readable
  }

  function CallsOver(tools: Tools, turns: seq<seq<ToolCall>>, readable: bool): multiset<ToolCall> {
    if turns == [] then multiset{}
    else
      Ledgers.Chosen(turns[0], |turns[0]|, Readable(tools, turns[0], readable))
      + CallsOver(tools, turns[1..], readable)
  }

  lemma TurnIsCalls(cfg: React.AgentConfig, tools: Tools, audited: bool, calls: seq<ToolCall>)
    requires Named(tools)
    ensures var gate := ConsultConfig(cfg, tools, audited).gate;
            && Ledgers.Chosen(calls, |calls|, Ledgers.Asked(gate, calls))
               == (if cfg.gate.NoGate? then multiset{}
                   else Ledgers.Chosen(calls, |calls|, Readable(tools, calls, true)))
            && Ledgers.Chosen(calls, |calls|, Ledgers.Reported(gate, calls))
               == (if audited then Ledgers.Chosen(calls, |calls|, Readable(tools, calls, false)) else multiset{})
  {
    ReadOnlyNamesAre(tools);
    var gate, n := ConsultConfig(cfg, tools, audited).gate, |calls|;
    var asked, reported := Ledgers.Asked(gate, calls), Ledgers.Reported(gate, calls);
    if cfg.gate.NoGate? { Ledgers.ChosenNone(calls, n, asked); }
    else { Ledgers.ChosenSame(calls, n, asked, Readable(tools, calls, true)); }
    if audited { Ledgers.ChosenSame(calls, n, reported, Readable(tools, calls, false)); }
    else { Ledgers.ChosenNone(calls, n, reported); }
  }

  lemma {:induction false} OverIsCalls(cfg: React.AgentConfig, tools: Tools, audited: bool, turns: seq<seq<ToolCall>>)
    requires Named(tools)
    ensures var gate := ConsultConfig(cfg, tools, audited).gate;
            && Ledgers.AskedOver(gate, turns)
               == (if cfg.gate.NoGate? then multiset{} else CallsOver(tools, turns, true))
            && Ledgers.ReportedOver(gate, turns) == (if audited then CallsOver(tools, turns, false) else multiset{})
  {
    if turns != [] {
      TurnIsCalls(cfg, tools, audited, turns[0]);
      OverIsCalls(cfg, tools, audited, turns[1..]);
    }
  }

  /** The gate alone is enough, whatever catalogue the model is shown. */
  lemma GateIsEnough(cfg: React.AgentConfig, tools: Tools, audited: bool, w: React.World,
                     ms: seq<Message>, inv: Ledgers.Invocation)
    requires Named(tools) && w.Valid(ConsultConfig(cfg, tools, audited))
    requires inv in ReactTheorems.RunLedger(ConsultConfig(cfg, tools, audited), w, ms).invocations
    ensures inv.call.name in cfg.toolbox && inv.call.name in tools && tools[inv.call.name].hint.Read?
  {
    ReadOnlyNamesAre(tools);
    ReactTheorems.RunAccounts(ConsultConfig(cfg, tools, audited), w, ms);
  }

  /** So is the narrowed catalogue, whatever the gate. */
  lemma CatalogueIsEnough(cfg: React.AgentConfig, tools: Tools, w: React.World, ms: seq<Message>,
                          inv: Ledgers.Invocation)
    requires Named(tools) && cfg.toolbox == Restricted(tools, ReadOnlyNames(tools)).Keys && w.Valid(cfg)
    requires inv in ReactTheorems.RunLedger(cfg, w, ms).invocations
    ensures inv.call.name in tools && tools[inv.call.name].hint.Read?
  {
    ReadOnlyNamesAre(tools);
    ReactTheorems.RunAccounts(cfg, w, ms);
  }

  /** One dispatch under the wrapped gate, in any interleaving. A call to a tool not hinted Read
      (or unknown) never reaches a client or the inner gate, fails, and is reported to the
      observer exactly once, unless it is over the fan-out limit and then not at all. A call
      to a Read tool is put to the inner gate exactly once and never reported; if it reached a
      client, the inner gate or the operator had let it through. */
  lemma ConsultDispatch(cfg: React.AgentConfig, tools: Tools, audited: bool, calls: seq<ToolCall>,
                        steps: seq<Dispatch.Step>, i: nat)
    requires Named(tools) && i < |calls|
    requires Dispatch.Complete(Dispatch.Config(calls, cfg.toolbox, ConsultConfig(cfg, tools, audited).gate), steps)
    ensures
      var c := Dispatch.Config(calls, cfg.toolbox, ConsultConfig(cfg, tools, audited).gate);
      var s := Dispatch.Run(c, Dispatch.Init(c), steps).value;
      var readable := calls[i].name in tools && tools[calls[i].name].hint.Read?;
      var within := i < Dispatch.MAX_TOOL_CALLS_PER_TURN;
      && (!readable ==> DispatchSafety.Count(s.invoked, i) == 0 && !Dispatch.Outcomes(c, s.branches)[i].ok)
      && DispatchSafety.Count(s.checked, i) == (if readable && within && !cfg.gate.NoGate? then 1 else 0)
      && DispatchSafety.Count(s.observed, i) == (if !readable && within && audited then 1 else 0)
      && (DispatchSafety.Count(s.invoked, i) > 0 ==> within && DispatchSafety.Approved(c.gate, s.branches[i]))
  {
    ReadOnlyNamesAre(tools);
    var c := Dispatch.Config(calls, cfg.toolbox, ConsultConfig(cfg, tools, audited).gate);
    DispatchSafety.ConsultIsReadOnly(c, steps, i);
    DispatchSafety.InvokedOnlyWhenApproved(c, steps, i);
  }
}
