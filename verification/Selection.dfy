/**
  Scenario selection, implemented twice: by run-tests.sh, which decides whether a
  run needs the VM, and by the runner, which then dispatches the steps. This
  module has the runner's rules as functions, the script's as a method, and the
  agreement of the two.
  */
module Selection {
  import opened Prelude

  /** A field of a step: a string, another JSON value (truthy or not), or not there. */
  datatype Field = Absent | Text(s: string) | Other(truthy: bool)

  /** A recipe step; anything but an object has no fields at all. */
  datatype Step = NotAnObject | Step(op: Field, kind: Field, host: Field)

  datatype Host = OnHost | OnVm

  /** A declared op: the bare-string shorthand, or a table whose host may be left out. */
  datatype OpDef = Bare | Table(host: Option<Host>)

  datatype Scenario = Scenario(name: string, recipe: seq<Step>)

  predicate NamesUnique(scenarios: seq<Scenario>) {
    forall i, j :: 0 <= i < j < |scenarios| ==> scenarios[i].name != scenarios[j].name
  }

  // ----- the runner -----------------------------------------------------------------------

  predicate Matches(name: string, filter: string, exact: bool) {
    if filter == "" then true
    else if exact then name == filter
    else Contains(name, filter)
  }

  /** Names a filter that matched nothing stands for, if it is a group. */
  function GroupSet(scenarios: seq<Scenario>, groups: map<string, seq<string>>, filter: string, exact: bool): Option<seq<string>> {
    if filter != "" && (forall i :: 0 <= i < |scenarios| ==> !Matches(scenarios[i].name, filter, exact)) then
      if filter in groups then Some(groups[filter]) else None
    else None
  }

  predicate RunnerSelects(scenarios: seq<Scenario>, groups: map<string, seq<string>>, filter: string, exact: bool, name: string) {
    && (exists i :: 0 <= i < |scenarios| && scenarios[i].name == name)
    && match GroupSet(scenarios, groups, filter, exact)
       case Some(names) => name in names
       case None => Matches(name, filter, exact)
  }

  function RunnerOp(step: Step): Option<string> {
    if step.NotAnObject? then None
    else if step.op.Text? then Some(step.op.s)
    else if step.kind.Text? then Some(step.kind.s)
    else None
  }

  predicate IsShip(op: string) { op == "ship-to-vm" || op == "ship-to-host" }

  function DefHost(d: OpDef): Host {
    match d
    case Bare => OnVm
    case Table(Some(h)) => h
    case Table(None) => OnVm
  }

  /** Where the runner takes a step: a ship, a host, or nowhere because it is refused. */
  datatype Dispatch = Ship | Runs(host: Host) | Refused

  function Dispatched(ops: map<string, OpDef>, step: Step): Dispatch {
    match RunnerOp(step)
    case None => Refused
    case Some(op) =>
      if IsShip(op) then Ship
      else if op !in ops then Refused
      else if step.host == Text("host") then Runs(OnHost)
      else if step.host == Text("vm") then Runs(OnVm)
      else Runs(DefHost(ops[op]))
  }

  predicate ReachesVm(d: Dispatch) { d == Ship || d == Runs(OnVm) }

  // ----- the script -----------------------------------------------------------------------

  predicate Truthy(f: Field) {
    match f
    case Absent => false
    case Text(s) => s != ""
    case Other(truthy) => truthy
  }

  /** `step.get("op") or step.get("type") or ""`; None is a value that is not a string. */
  function ScriptOp(step: Step): Option<string>
    requires step.Step?
  {
    var f := if Truthy(step.op) then step.op else step.kind;
    if f.Text? then Some(f.s) else if Truthy(f) then None else Some("")
  }

  predicate ScriptNeedsVm(ops: map<string, OpDef>, step: Step) {
    step.Step? &&
    match ScriptOp(step)
    case Some(op) =>
      IsShip(op) || step.host == Text("vm")
      || (step.host != Text("host") && (op in ops ==> DefHost(ops[op]) == OnVm))
    case None => step.host != Text("host")
  }

  /** matrix_selection: the selected names, and whether any of their steps needs the VM. */
  method MatrixSelection(scenarios: seq<Scenario>, groups: map<string, seq<string>>, ops: map<string, OpDef>, pat: string)
    returns (selected: seq<string>, needsVm: bool)
    requires NamesUnique(scenarios)
    ensures forall name :: name in selected <==> RunnerSelects(scenarios, groups, pat, false, name)
    ensures needsVm <==> exists i, j :: 0 <= i < |scenarios| && 0 <= j < |scenarios[i].recipe|
                                        && scenarios[i].name in selected && StepNeedsVm(scenarios, ops, i, j)
  {
    selected := MatchingNames(scenarios, pat);
    if pat != "" && selected == [] {
      assert forall i :: 0 <= i < |scenarios| ==> !Matches(scenarios[i].name, pat, false);
      selected := GroupNames(scenarios, if pat in groups then groups[pat] else []);
    } else if selected != [] {
      assert selected[0] in selected;
    }
    needsVm := AnyNeedsVm(scenarios, ops, selected);
  }

  method MatchingNames(scenarios: seq<Scenario>, pat: string) returns (selected: seq<string>)
    ensures forall name :: name in selected <==>
              exists i :: 0 <= i < |scenarios| && scenarios[i].name == name && Matches(name, pat, false)
  {
    selected := [];
    for i := 0 to |scenarios|
      invariant forall name :: name in selected <==>
                  exists j :: 0 <= j < i && scenarios[j].name == name && Matches(name, pat, false)
    {
      if pat == "" || Contains(scenarios[i].name, pat) {
        selected := selected + [scenarios[i].name];
      }
    }
  }

  method GroupNames(scenarios: seq<Scenario>, names: seq<string>) returns (selected: seq<string>)
    ensures forall name :: name in selected <==>
              name in names && exists i :: 0 <= i < |scenarios| && scenarios[i].name == name
  {
    selected := [];
    for n := 0 to |names|
      invariant forall name :: name in selected <==>
                  name in names[..n] && exists i :: 0 <= i < |scenarios| && scenarios[i].name == name
    {
      if exists i :: 0 <= i < |scenarios| && scenarios[i].name == names[n] {
        selected := selected + [names[n]];
      }
    }
    assert names[..|names|] == names;
  }

  predicate StepNeedsVm(scenarios: seq<Scenario>, ops: map<string, OpDef>, i: nat, j: nat)
    requires i < |scenarios| && j < |scenarios[i].recipe|
  {
    ScriptNeedsVm(ops, scenarios[i].recipe[j])
  }

  /** Walks the selected names in order and stops at the first step that needs the VM. */
  method AnyNeedsVm(scenarios: seq<Scenario>, ops: map<string, OpDef>, selected: seq<string>) returns (needsVm: bool)
    requires NamesUnique(scenarios)
    requires forall name :: name in selected ==> exists i :: 0 <= i < |scenarios| && scenarios[i].name == name
    ensures needsVm <==> exists i, j :: 0 <= i < |scenarios| && 0 <= j < |scenarios[i].recipe|
                                        && scenarios[i].name in selected && StepNeedsVm(scenarios, ops, i, j)
  {
    var n := 0;
    while n < |selected|
      invariant n <= |selected|
      invariant forall i, j ::
                  (0 <= i < |scenarios| && 0 <= j < |scenarios[i].recipe| && scenarios[i].name in selected[..n])
                  ==> !StepNeedsVm(scenarios, ops, i, j)
    {
      assert selected[n] in selected;
      var i: nat :| i < |scenarios| && scenarios[i].name == selected[n];
      var j := 0;
      while j < |scenarios[i].recipe|
        invariant j <= |scenarios[i].recipe|
        invariant forall m :: 0 <= m < j ==> !StepNeedsVm(scenarios, ops, i, m)
      {
        if ScriptNeedsVm(ops, scenarios[i].recipe[j]) {
          assert StepNeedsVm(scenarios, ops, i, j);
          return true;
        }
        j := j + 1;
      }
      n := n + 1;
    }
    assert selected[..n] == selected;
    needsVm := false;
  }

  // ----- by example of their data --------------------------------------------------------------

  /** Where the runner takes a step: a ship to the VM whatever else it says; a declared op to
      the host the step names, else to the host its table names, else to the VM; an op nobody
      declared, or none at all, nowhere. */
  lemma RunnerGoes(ops: map<string, OpDef>, step: Step, op: string)
    requires step.Step? && (step.op == Text(op) || (!step.op.Text? && step.kind == Text(op)))
    ensures Dispatched(ops, step) ==
            if op == "ship-to-vm" || op == "ship-to-host" then Ship
            else if op !in ops then Refused
            else if step.host == Text("host") then Runs(OnHost)
            else if step.host == Text("vm") then Runs(OnVm)
            else if ops[op] == Table(Some(OnHost)) then Runs(OnHost)
            else Runs(OnVm)
  {
    if op in ops && ops[op].Table? && ops[op].host.Some? { HostIsEither(ops[op].host.value); }
  }

  lemma HostIsEither(h: Host)
    ensures h == OnHost || h == OnVm
  {
  }

  lemma RunnerRefuses(ops: map<string, OpDef>, step: Step)
    requires step.NotAnObject? || (!step.op.Text? && !step.kind.Text?)
    ensures Dispatched(ops, step) == Refused
  {
  }

  /** When the script asks for the VM: for a ship; for a step bound to it; and for one not
      bound to the host whose op is not declared to run there. */
  lemma ScriptAsks(ops: map<string, OpDef>, step: Step, op: string)
    requires step.Step?
    requires || (step.op == Text(op) && op != "")
             || (step.op in {Absent, Text(""), Other(false)} && step.kind == Text(op))
    ensures ScriptNeedsVm(ops, step) <==>
            || op in {"ship-to-vm", "ship-to-host"} || step.host == Text("vm")
            || (step.host != Text("host") && !(op in ops && ops[op] == Table(Some(OnHost))))
  {
  }

  ghost predicate Includes(text: string, part: string) { exists a: string, b: string :: text == a + part + b }

  lemma ContainsIs(text: string, part: string)
    ensures Contains(text, part) <==> Includes(text, part)
  {
    if Contains(text, part) {
      var i :| 0 <= i <= |text| && ContainsFrom(text, part, i);
      assert text == text[..i] + part + text[i + |part|..];
    }
    if Includes(text, part) {
      var a: string, b: string :| text == a + part + b;
      assert text[|a|..] == part + b;
      assert ContainsFrom(text, part, |a|);
    }
  }

  ghost predicate Wanted(name: string, filter: string, exact: bool) {
    if exact then name == filter else Includes(name, filter)
  }

  /** What a filter selects: every scenario if it is empty; the one of that name, or those
      whose name has it in it; and if there is none, the scenarios of the group of that name. */
  lemma FilterSelects(scenarios: seq<Scenario>, groups: map<string, seq<string>>, filter: string, exact: bool, name: string)
    ensures RunnerSelects(scenarios, groups, filter, exact, name) <==>
            && (exists i :: 0 <= i < |scenarios| && scenarios[i].name == name)
            && if filter == "" then true
               else if exists i :: 0 <= i < |scenarios| && Wanted(scenarios[i].name, filter, exact) then Wanted(name, filter, exact)
               else filter in groups && name in groups[filter]
  {
    forall n | n in Names(scenarios) + {name} ensures filter != "" ==> (Matches(n, filter, exact) <==> Wanted(n, filter, exact)) {
      ContainsIs(n, filter);
    }
    if i :| 0 <= i < |scenarios| && scenarios[i].name == name {
      assert name in Names(scenarios);
    }
    assert forall i :: 0 <= i < |scenarios| ==> scenarios[i].name in Names(scenarios);
  }

  function Names(scenarios: seq<Scenario>): set<string> {
    set i | 0 <= i < |scenarios| :: scenarios[i].name
  }

  // ----- agreement --------------------------------------------------------------------------

  /** A step the matrix schema allows: an object with a string `op`. */
  predicate SchemaValid(step: Step) { step.Step? && step.op.Text? }

  /** The two read the same op from a step exactly unless `op` is the empty string beside
      a truthy `type`: Python's `or` falls through to `type`, the runner takes the empty name. */
  predicate OpsAgree(step: Step) {
    SchemaValid(step) && !(step.op.s == "" && Truthy(step.kind))
  }

  lemma OpsAgreeExactly(step: Step)
    requires SchemaValid(step)
    ensures RunnerOp(step) == ScriptOp(step) <==> OpsAgree(step)
  {
  }

  /** Such a step can send the runner to the VM unseen by the script. */
  lemma EmptyOpEscapes()
    ensures var step := Step(Text(""), Text("ls"), Absent);
            var ops := map["" := Table(Some(OnVm)), "ls" := Table(Some(OnHost))];
            SchemaValid(step) && ReachesVm(Dispatched(ops, step)) && !ScriptNeedsVm(ops, step)
  {
    var ops := map["" := Table(Some(OnVm)), "ls" := Table(Some(OnHost))];
    assert "" in ops && "ls" in ops && ops[""] == Table(Some(OnVm)) && ops["ls"] == Table(Some(OnHost));
    assert |"ls"| == 2;
    assert !IsShip("") && !IsShip("ls");
  }

  /** The script asks for the VM exactly when the runner goes there, or when the op is
      undeclared and the step does not insist on the host. */
  predicate SameDecision(ops: map<string, OpDef>, step: Step)
    requires step.Step?
  {
    ScriptNeedsVm(ops, step) <==>
      ReachesVm(Dispatched(ops, step)) || (Dispatched(ops, step) == Refused && step.host != Text("host"))
  }

  /** Steps the two cannot disagree about: they read the same op, or the step names its
      host and the op the script reads is no ship. */
  predicate Agrees(step: Step) {
    && SchemaValid(step)
    && (|| OpsAgree(step) || step.host == Text("vm")
        || (step.host == Text("host") && !(step.kind.Text? && IsShip(step.kind.s))))
  }

  lemma StepsAgree(ops: map<string, OpDef>, step: Step)
    requires Agrees(step)
    ensures SameDecision(ops, step)
  {
  }

  /** For a step outside that class there is an op table on which they disagree. */
  lemma Disagreement(step: Step) returns (ops: map<string, OpDef>)
    requires SchemaValid(step) && !Agrees(step)
    ensures !SameDecision(ops, step)
  {
    var k := step.kind;
    if k.Text? && !IsShip(k.s) {
      ops := map["" := Table(Some(OnVm)), k.s := Table(Some(OnHost))];
      assert "" in ops && k.s in ops && ops[""] == Table(Some(OnVm));
    } else {
      ops := map["" := Table(Some(OnHost))];
      assert "" in ops && ops[""] == Table(Some(OnHost));
    }
    assert !IsShip("");
  }

  /** The script and the runner decide alike on a step for every op table if and only if
      the step is one they cannot disagree about. */
  lemma StepsAgreeExactly(step: Step)
    requires SchemaValid(step)
    ensures (forall ops: map<string, OpDef> :: SameDecision(ops, step)) <==> Agrees(step)
  {
    if Agrees(step) {
      forall ops: map<string, OpDef> ensures SameDecision(ops, step) { StepsAgree(ops, step); }
    } else {
      var ops := Disagreement(step);
    }
  }

  // ----- whole runs ---------------------------------------------------------------------------

  /** The runner selects scenario `i`, and `j` is one of its steps. */
  predicate PickedAt(scenarios: seq<Scenario>, groups: map<string, seq<string>>, filter: string, i: nat, j: nat) {
    i < |scenarios| && RunnerSelects(scenarios, groups, filter, false, scenarios[i].name) && j < |scenarios[i].recipe|
  }

  predicate Among(scenarios: seq<Scenario>, groups: map<string, seq<string>>, filter: string, step: Step) {
    exists i, j :: 0 <= i < |scenarios| && 0 <= j < |scenarios[i].recipe|
                   && PickedAt(scenarios, groups, filter, i, j) && scenarios[i].recipe[j] == step
  }

  predicate AllValid(scenarios: seq<Scenario>) {
    forall i, j :: 0 <= i < |scenarios| && 0 <= j < |scenarios[i].recipe| ==> SchemaValid(scenarios[i].recipe[j])
  }

  /** A selected step that the runner would take to the VM or ship. */
  ghost predicate RunReachesVm(scenarios: seq<Scenario>, groups: map<string, seq<string>>, ops: map<string, OpDef>, filter: string) {
    exists step :: Among(scenarios, groups, filter, step) && ReachesVm(Dispatched(ops, step))
  }

  /** A selected step for which the script asks for the VM. */
  ghost predicate RunAsksForVm(scenarios: seq<Scenario>, groups: map<string, seq<string>>, ops: map<string, OpDef>, filter: string) {
    exists step :: Among(scenarios, groups, filter, step) && ScriptNeedsVm(ops, step)
  }

  ghost predicate AllDeclared(scenarios: seq<Scenario>, groups: map<string, seq<string>>, ops: map<string, OpDef>, filter: string) {
    forall step :: Among(scenarios, groups, filter, step) ==> Dispatched(ops, step) != Refused
  }

  /** NEEDS_VM, as the script computes it for a run. */
  method DecideNeedsVm(scenarios: seq<Scenario>, groups: map<string, seq<string>>, ops: map<string, OpDef>, filter: string)
    returns (needsVm: bool)
    requires NamesUnique(scenarios)
    ensures needsVm <==> RunAsksForVm(scenarios, groups, ops, filter)
  {
    var selected;
    selected, needsVm := MatrixSelection(scenarios, groups, ops, filter);
    if needsVm {
      ghost var i, j :| 0 <= i < |scenarios| && 0 <= j < |scenarios[i].recipe|
                        && scenarios[i].name in selected && StepNeedsVm(scenarios, ops, i, j);
      assert PickedAt(scenarios, groups, filter, i, j);
      assert Among(scenarios, groups, filter, scenarios[i].recipe[j]);
    } else if RunAsksForVm(scenarios, groups, ops, filter) {
      ghost var step :| Among(scenarios, groups, filter, step) && ScriptNeedsVm(ops, step);
      ghost var i, j :| 0 <= i < |scenarios| && 0 <= j < |scenarios[i].recipe|
                        && PickedAt(scenarios, groups, filter, i, j) && scenarios[i].recipe[j] == step;
      assert StepNeedsVm(scenarios, ops, i, j);
      assert false;
    }
  }

  lemma AmongIsValid(scenarios: seq<Scenario>, groups: map<string, seq<string>>, filter: string, step: Step)
    requires AllValid(scenarios) && Among(scenarios, groups, filter, step)
    ensures SchemaValid(step)
  {
  }

  predicate HostOpen(step: Step)
    requires step.Step?
  {
    step.host != Text("host") && step.host != Text("vm")
  }

  // The empty op beside a type that names another: the script reads one, the runner the other.
  predicate Escaping(step: Step) {
    SchemaValid(step) && step.op.s == "" && step.kind.Text? && step.kind.s != "" && !IsShip(step.kind.s) && HostOpen(step)
  }

  /** A step the script can be silent about although the empty op is declared for the VM. */
  predicate Silent(step: Step)
    requires step.Step?
  {
    && step.host != Text("vm")
    && match ScriptOp(step)
       case Some(op) => !IsShip(op) && (step.host == Text("host") || op != "")
       case None => step.host == Text("host")
  }

  /** A run the runner may take to the VM unseen: some selected step escapes, and no other
      selected step makes the script ask for the VM anyway. */
  ghost predicate MayEscape(scenarios: seq<Scenario>, groups: map<string, seq<string>>, filter: string) {
    && (exists step :: Among(scenarios, groups, filter, step) && Escaping(step))
    && (forall step :: Among(scenarios, groups, filter, step) ==> step.Step? && Silent(step))
  }

  /** Every op the script reads in the matrix. */
  function OpsRead(scenarios: seq<Scenario>): set<string> {
    set i, j | 0 <= i < |scenarios| && 0 <= j < |scenarios[i].recipe| && scenarios[i].recipe[j].Step?
               && ScriptOp(scenarios[i].recipe[j]).Some? :: ScriptOp(scenarios[i].recipe[j]).value
  }

  /** The empty op in the VM, everything else on the host. */
  function EscapeTable(scenarios: seq<Scenario>): map<string, OpDef> {
    map op | op in OpsRead(scenarios) + {""} :: if op == "" then Table(Some(OnVm)) else Table(Some(OnHost))
  }

  lemma EscapesUnder(scenarios: seq<Scenario>, groups: map<string, seq<string>>, filter: string)
    requires AllValid(scenarios) && MayEscape(scenarios, groups, filter)
    ensures RunReachesVm(scenarios, groups, EscapeTable(scenarios), filter)
    ensures !RunAsksForVm(scenarios, groups, EscapeTable(scenarios), filter)
  {
    var ops := EscapeTable(scenarios);
    var step :| Among(scenarios, groups, filter, step) && Escaping(step);
    assert "" in ops && !IsShip("");
    assert ReachesVm(Dispatched(ops, step));
    forall step | Among(scenarios, groups, filter, step) ensures !ScriptNeedsVm(ops, step) {
      AmongIsValid(scenarios, groups, filter, step);
      assert Silent(step);
      if ScriptOp(step).Some? { assert ScriptOp(step).value in OpsRead(scenarios); }
    }
  }

  lemma ReachingIsSeen(ops: map<string, OpDef>, step: Step)
    requires SchemaValid(step) && ReachesVm(Dispatched(ops, step))
    ensures ScriptNeedsVm(ops, step) || (Escaping(step) && "" in ops && DefHost(ops[""]) == OnVm)
  {
    if Agrees(step) { StepsAgree(ops, step); }
  }

  lemma NotSilentAsks(ops: map<string, OpDef>, step: Step)
    requires SchemaValid(step) && !Silent(step) && "" in ops && DefHost(ops[""]) == OnVm
    ensures ScriptNeedsVm(ops, step)
  {
  }

  /** For every schema-valid matrix, filter and group table: whatever ops are declared, a run
      that the runner can take to the VM has NEEDS_VM=1, if and only if it may not escape. */
  lemma NeverUnseenExactly(scenarios: seq<Scenario>, groups: map<string, seq<string>>, filter: string)
    requires AllValid(scenarios)
    ensures (forall ops: map<string, OpDef> ::
               RunReachesVm(scenarios, groups, ops, filter) ==> RunAsksForVm(scenarios, groups, ops, filter))
            <==> !MayEscape(scenarios, groups, filter)
  {
    if MayEscape(scenarios, groups, filter) {
      EscapesUnder(scenarios, groups, filter);
    } else {
      forall ops: map<string, OpDef> | RunReachesVm(scenarios, groups, ops, filter)
        ensures RunAsksForVm(scenarios, groups, ops, filter)
      {
        var step :| Among(scenarios, groups, filter, step) && ReachesVm(Dispatched(ops, step));
        AmongIsValid(scenarios, groups, filter, step);
        ReachingIsSeen(ops, step);
        if !ScriptNeedsVm(ops, step) {
          var other :| Among(scenarios, groups, filter, other) && !(other.Step? && Silent(other));
          AmongIsValid(scenarios, groups, filter, other);
          NotSilentAsks(ops, other);
        }
      }
    }
  }

  // ----- asking without need --------------------------------------------------------------------

  /** A step the runner can keep on the host. */
  predicate Homely(step: Step) {
    SchemaValid(step) && !IsShip(step.op.s) && step.host != Text("vm")
  }

  /** A selected step that settles the op `k` by the op table. */
  predicate SettledBy(step: Step, k: string) { SchemaValid(step) && step.op.s == k && HostOpen(step) }

  /** The script asks for the VM on this step although the runner stays on the host: it reads
      a ship, a value that is no string, or an op no other selected step depends on. */
  ghost predicate Overasking(scenarios: seq<Scenario>, groups: map<string, seq<string>>, filter: string, step: Step) {
    && SchemaValid(step) && step.op.s == "" && Truthy(step.kind) && step.host != Text("vm")
    && (if step.kind.Text? then
          IsShip(step.kind.s)
          || (HostOpen(step) && !exists other :: Among(scenarios, groups, filter, other) && SettledBy(other, step.kind.s))
        else HostOpen(step))
  }

  ghost predicate MayOverask(scenarios: seq<Scenario>, groups: map<string, seq<string>>, filter: string) {
    && (forall step :: Among(scenarios, groups, filter, step) ==> Homely(step))
    && exists step :: Among(scenarios, groups, filter, step) && Overasking(scenarios, groups, filter, step)
  }

  function OpsRun(scenarios: seq<Scenario>): set<string> {
    set i, j | 0 <= i < |scenarios| && 0 <= j < |scenarios[i].recipe| && SchemaValid(scenarios[i].recipe[j])
               :: scenarios[i].recipe[j].op.s
  }

  /** Everything on the host, except the op `k`. */
  function HomeTable(scenarios: seq<Scenario>, k: string): map<string, OpDef> {
    map op | op in OpsRun(scenarios) + {k} :: if op == k then Table(Some(OnVm)) else Table(Some(OnHost))
  }

  lemma OverasksUnder(scenarios: seq<Scenario>, groups: map<string, seq<string>>, filter: string) returns (ops: map<string, OpDef>)
    requires AllValid(scenarios) && MayOverask(scenarios, groups, filter)
    ensures AllDeclared(scenarios, groups, ops, filter) && RunAsksForVm(scenarios, groups, ops, filter)
    ensures !RunReachesVm(scenarios, groups, ops, filter)
  {
    var step :| Among(scenarios, groups, filter, step) && Overasking(scenarios, groups, filter, step);
    // "ship-to-vm" is no op of any homely step, so the table then has everything on the host.
    var k := if step.kind.Text? then step.kind.s else "ship-to-vm";
    ops := HomeTable(scenarios, k);
    assert ScriptNeedsVm(ops, step);
    forall other | Among(scenarios, groups, filter, other)
      ensures Dispatched(ops, other) != Refused && !ReachesVm(Dispatched(ops, other))
    {
      assert Homely(other);
      StaysHome(scenarios, groups, filter, step, k, other);
    }
  }

  lemma StaysHome(scenarios: seq<Scenario>, groups: map<string, seq<string>>, filter: string, step: Step, k: string, other: Step)
    requires Overasking(scenarios, groups, filter, step) && k == if step.kind.Text? then step.kind.s else "ship-to-vm"
    requires Among(scenarios, groups, filter, other) && Homely(other)
    ensures var ops := HomeTable(scenarios, k); Dispatched(ops, other) != Refused && !ReachesVm(Dispatched(ops, other))
  {
    assert other.op.s in OpsRun(scenarios);
    if other.op.s == k {
      assert !IsShip(k) && step.kind.Text? && !SettledBy(other, k);
    }
  }

  /** Conversely: whatever ops are declared for all selected steps, NEEDS_VM=1 means that the
      runner can take the run to the VM, if and only if it may not ask without need. */
  lemma NeverInVainExactly(scenarios: seq<Scenario>, groups: map<string, seq<string>>, filter: string)
    requires AllValid(scenarios)
    ensures (forall ops: map<string, OpDef> ::
               AllDeclared(scenarios, groups, ops, filter) && RunAsksForVm(scenarios, groups, ops, filter)
               ==> RunReachesVm(scenarios, groups, ops, filter))
            <==> !MayOverask(scenarios, groups, filter)
  {
    if MayOverask(scenarios, groups, filter) {
      var ops := OverasksUnder(scenarios, groups, filter);
    } else {
      forall ops: map<string, OpDef> | AllDeclared(scenarios, groups, ops, filter) && RunAsksForVm(scenarios, groups, ops, filter)
        ensures RunReachesVm(scenarios, groups, ops, filter)
      {
        AskedInNeed(scenarios, groups, ops, filter);
      }
    }
  }

  lemma AskedInNeed(scenarios: seq<Scenario>, groups: map<string, seq<string>>, ops: map<string, OpDef>, filter: string)
    requires AllValid(scenarios) && !MayOverask(scenarios, groups, filter)
    requires AllDeclared(scenarios, groups, ops, filter) && RunAsksForVm(scenarios, groups, ops, filter)
    ensures RunReachesVm(scenarios, groups, ops, filter)
  {
    var step :| Among(scenarios, groups, filter, step) && ScriptNeedsVm(ops, step);
    AmongIsValid(scenarios, groups, filter, step);
    if exists other :: Among(scenarios, groups, filter, other) && !Homely(other) {
      var other :| Among(scenarios, groups, filter, other) && !Homely(other);
      AmongIsValid(scenarios, groups, filter, other);
      assert ReachesVm(Dispatched(ops, other));
    } else if Agrees(step) {
      StepsAgree(ops, step);
      assert ReachesVm(Dispatched(ops, step));
    } else {
      assert !Overasking(scenarios, groups, filter, step);
      var other :| Among(scenarios, groups, filter, other) && SettledBy(other, step.kind.s);
      assert ReachesVm(Dispatched(ops, other));
    }
  }
}
