/**
  The built-in ship steps: which remote commands they issue, in which order, and
  what they report. Every command run in the VM is a guarded one (LockCommand);
  only the copy over the network is not, and it goes to the owner's own stage.
  */
module Shipping {
  import opened Prelude
  import opened Paths
  import opened LeaseLedger
  import opened Quoting
  import opened CommandReading

  /** What a remote command came back with: an exit code, none if it was killed, or no answer. */
  datatype Reply = Exit(code: Option<int>) | Failed

  const SUCCESS := Exit(Some(0))

  /** A guarded command in the VM, a check of the lease, or a network copy. */
  datatype Call = Vm(command: seq<Part>) | CheckLease | Copy(from: string, to: string)

  /** The far side: it answers the n-th call with `answer(n)`. */
  class Remote {
    const answer: nat -> Reply
    var calls: seq<Call>

    constructor (answer: nat -> Reply)
      ensures this.answer == answer && calls == []
    {
      this.answer := answer;
      calls := [];
    }

    method Send(c: Call) returns (r: Reply)
      modifies this
      ensures calls == old(calls) + [c] && r == answer(|old(calls)|)
    {
      r := answer(|calls|);
      calls := calls + [c];
    }
  }

  // ----- shipping ------------------------------------------------------------------------------

  /** The lease a ship runs under, and the name it stages its file by. */
  datatype Staging = Staging(workdir: string, token: Token, name: string)

  function StageOf(lease: Option<Staging>): Option<string> {
    match lease
    case None => None
    case Some(l) => Some(StagePath(l.workdir, l.token, l.name))
  }

  function GuardOf(toVm: bool, src: string, stage: string): seq<Part> {
    if toVm then [Bare("$null = 0")] else CopyCommand(src, stage)
  }

  /** The calls a complete ship makes. */
  function Plan(toVm: bool, src: string, dest: string, lease: Option<Staging>): seq<Call> {
    match StageOf(lease)
    case None => [Copy(src, dest)]
    case Some(st) =>
      if toVm then [Vm(GuardOf(true, src, st)), Copy(src, st), Vm(MoveCommand(st, dest))]
      else [Vm(GuardOf(false, src, st)), Copy(st, dest), Vm(RemoveCommand(st))]
  }

  /** run_builtin_ship over the network. `r` is None when the step ends in an error before
      any copy. It reports exit 0 exactly when it made every call of its plan and every one
      succeeded. Into the VM, or without a lease, a call is made only after the ones before
      it succeeded. Out of the VM under a lease the copy is made only after a successful
      guard, and unless the guard could not even be asked the stage is removed at the end. */
  method RunShip(remote: Remote, toVm: bool, src: string, dest: string, lease: Option<Staging>) returns (r: Option<Reply>)
    modifies remote
    ensures old(remote.calls) <= remote.calls
    ensures var base := |old(remote.calls)|;
            var made := remote.calls[base..];
            && (r == Some(SUCCESS) <==>
                  made == Plan(toVm, src, dest, lease)
                  && forall n :: base <= n < |remote.calls| ==> remote.answer(n) == SUCCESS)
            && (r.None? <==> lease.Some? && remote.answer(base).Failed?)
            && (toVm || lease.None? ==>
                  made <= Plan(toVm, src, dest, lease) && forall n :: base <= n < |remote.calls| - 1 ==> remote.answer(n) == SUCCESS)
            && (!toVm && lease.Some? ==>
                  var plan := Plan(toVm, src, dest, lease);
                  made == if remote.answer(base).Failed? then plan[..1]
                          else if remote.answer(base) == SUCCESS then plan
                          else [plan[0], plan[2]])
  {
    var stage := StageOf(lease);
    var guardStatus := SUCCESS;
    if stage.Some? {
      guardStatus := remote.Send(Vm(GuardOf(toVm, src, stage.value)));
      if guardStatus.Failed? { return None; }
    }
    var from := if !toVm && stage.Some? then stage.value else src;
    var to := if toVm && stage.Some? then stage.value else dest;
    var outcome := guardStatus;
    if guardStatus == SUCCESS {
      outcome := remote.Send(Copy(from, to));
    }
    if outcome == SUCCESS && toVm && stage.Some? {
      outcome := remote.Send(Vm(MoveCommand(stage.value, dest)));
    }
    if !toVm && stage.Some? {
      var cleanup := remote.Send(Vm(RemoveCommand(stage.value)));
      if outcome == SUCCESS { outcome := cleanup; }
    }
    r := Some(outcome);
  }

  /** A ship inside the VM, through the shared directory: one guarded command. */
  method RunSharedShip(remote: Remote, toVm: bool, guestPath: string, vmPath: string, lease: Option<Staging>) returns (r: Reply)
    modifies remote
    ensures remote.calls == old(remote.calls) + [Vm(SharedShip(toVm, guestPath, vmPath, StageOf(lease)))]
    ensures r == remote.answer(|old(remote.calls)|)
  {
    r := remote.Send(Vm(SharedShip(toVm, guestPath, vmPath, StageOf(lease))));
  }

  // ----- from the script ---------------------------------------------------------------------------

  function ScriptPlan(src: string, dest: string, destDir: string, lease: Staging): seq<Call> {
    var stage := StagePath(lease.workdir, lease.token, lease.name);
    [CheckLease, Copy(src, stage), Vm(PlaceCommand(destDir, stage, dest))]
  }

  /** vm_lock_ship_file under `set -e`: verify the lease, copy to the owner's stage, then move
      under the lease; a later step runs only if the earlier ones succeeded. */
  method ShipFile(remote: Remote, src: string, dest: string, destDir: string, lease: Staging) returns (ok: bool)
    modifies remote
    ensures old(remote.calls) <= remote.calls
    ensures var base := |old(remote.calls)|;
            && 0 < |remote.calls| - base <= 3 && remote.calls[base..] <= ScriptPlan(src, dest, destDir, lease)
            && (forall n :: base <= n < |remote.calls| - 1 ==> remote.answer(n) == SUCCESS)
            && (ok <==> |remote.calls| == base + 3 && remote.answer(base + 2) == SUCCESS)
  {
    var stage := StagePath(lease.workdir, lease.token, lease.name);
    var verified := remote.Send(CheckLease);
    if verified != SUCCESS { return false; }
    var copied := remote.Send(Copy(src, stage));
    if copied != SUCCESS { return false; }
    var moved := remote.Send(Vm(PlaceCommand(destDir, stage, dest)));
    ok := moved == SUCCESS;
  }

  // ----- what the calls mean in the VM -----------------------------------------------------------

  /** A guarded command: nothing at all, a probe that changes nothing, the move of a staged
      file, or anything else. */
  datatype Command = Blank | Probe | Move(from: string, to: string) | Other

  /** Reads a command's meaning off its words and values: making a directory on the way
      changes no file. */
  function Meaning(parts: seq<Part>): Command {
    var effects := Effects(parts);
    if parts == [] then Blank
    else if parts == [Bare("$null = 0")] then Probe
    else if |effects| == 1 && effects[0].Moves? && effects[0].over then Move(effects[0].from, effects[0].to)
    else if |effects| == 2 && effects[0].Makes? && effects[1].Moves? && effects[1].over then Move(effects[1].from, effects[1].to)
    else Other
  }

  /** One step of a ship: run the lock script, or send the file to a path. */
  datatype Step = Ask(action: Action, command: Command) | Send(to: string)

  function StepOf(c: Call): Step {
    match c
    case Vm(parts) => Ask(Invoke, Meaning(parts))
    case CheckLease => Ask(Verify, Probe)
    case Copy(_, to) => Send(to)
  }

  /** The three steps of a ship into the VM, the dispatcher's or the script's. */
  function ShipStep(scripted: bool, lease: Staging, dest: string, n: nat): Step
    requires n < 3
  {
    var stage := StagePath(lease.workdir, lease.token, lease.name);
    if n == 0 then Ask(if scripted then Verify else Invoke, Probe)
    else if n == 1 then Send(stage)
    else Ask(Invoke, Move(stage, dest))
  }

  lemma MoveMeans(from: string, to: string)
    ensures Meaning(MoveCommand(from, to)) == Move(from, to)
  {
    MoveDoes(from, to);
    hide Effects;
    assert |MoveCommand(from, to)| > 1;
  }

  lemma PlaceMeans(destDir: string, from: string, to: string)
    ensures Meaning(PlaceCommand(destDir, from, to)) == Move(from, to)
  {
    PlaceDoes(destDir, from, to);
    hide Effects;
    assert |PlaceCommand(destDir, from, to)| > 1;
  }

  /** Both ways of shipping a file into the VM under a lease amount to the same three steps,
      each command read back to what it does: probe or check the lease, send to the owner's
      stage, and move that stage to the destination inside an Invoke. */
  lemma PlansAreShipSteps(src: string, dest: string, destDir: string, lease: Staging, n: nat)
    requires n < 3
    ensures |Plan(true, src, dest, Some(lease))| == |ScriptPlan(src, dest, destDir, lease)| == 3
    ensures StepOf(Plan(true, src, dest, Some(lease))[n]) == ShipStep(false, lease, dest, n)
    ensures StepOf(ScriptPlan(src, dest, destDir, lease)[n]) == ShipStep(true, lease, dest, n)
  {
    var stage := StagePath(lease.workdir, lease.token, lease.name);
    MoveMeans(stage, dest);
    PlaceMeans(destDir, stage, dest);
    ProbeMeans();
  }

  lemma ProbeMeans()
    ensures Meaning([Bare("$null = 0")]) == Probe
  {
  }

  // ----- what a whole ship comes to -----------------------------------------------------------

  /** The files of the host and of the VM, by path; a directory shipped whole counts as one. */
  datatype Sides = Sides(host: map<string, Data>, vm: map<string, Data>)

  /** A cmdlet fails when what it names is not there, or is there whole and it may not take it
      whole, or when its destination is there and it may not replace it. */
  function AfterEffect(files: map<string, Data>, e: Effect): Option<map<string, Data>> {
    match e
    case Copies(from, to, whole) => if from in files && whole then Some(files[to := files[from]]) else None
    case Moves(from, to, over) => if from in files && (to in files ==> over) then Some((files - {from})[to := files[from]]) else None
    case Removes(path, whole) => if path in files && whole then Some(files - {path}) else None
    case Makes(_) => Some(files)
  }

  function AfterEffects(files: map<string, Data>, effects: seq<Effect>): Option<map<string, Data>>
    decreases |effects|
  {
    if effects == [] then Some(files)
    else match AfterEffect(files, effects[0])
         case Some(more) => AfterEffects(more, effects[1..])
         case None => None
  }

  /** What one call of a ship does, a command in the VM as its rendered line says. */
  function Carried(toVm: bool, w: Sides, c: Call): Option<Sides> {
    match c
    case CheckLease => Some(w)
    case Copy(from, to) =>
      if toVm then if from in w.host then Some(w.(vm := w.vm[to := w.host[from]])) else None
      else if from in w.vm then Some(w.(host := w.host[to := w.vm[from]])) else None
    case Vm(command) =>
      match LineEffects(Render(command))
      case None => None
      case Some(effects) =>
        match AfterEffects(w.vm, effects)
        case Some(files) => Some(w.(vm := files))
        case None => None
  }

  function AllCarried(toVm: bool, w: Sides, calls: seq<Call>): Option<Sides>
    decreases |calls|
  {
    if calls == [] then Some(w)
    else match Carried(toVm, w, calls[0])
         case Some(w') => AllCarried(toVm, w', calls[1..])
         case None => None
  }

  lemma LastCall(toVm: bool, w: Sides, c: Call)
    ensures AllCarried(toVm, w, [c]) == Carried(toVm, w, c)
  {
    assert [c][1..] == [];
  }

  lemma ThreeCalls(toVm: bool, w: Sides, a: Call, b: Call, c: Call)
    ensures AllCarried(toVm, w, [a, b, c]) ==
            match Carried(toVm, w, a)
            case None => None
            case Some(w1) =>
              match Carried(toVm, w1, b)
              case None => None
              case Some(w2) => Carried(toVm, w2, c)
  {
    hide Carried;
    assert [a, b, c][1..] == [b, c] && [b, c][1..] == [c] && [c][1..] == [];
    var w1 := Carried(toVm, w, a);
    if w1.Some? {
      var w2 := Carried(toVm, w1.value, b);
      assert AllCarried(toVm, w1.value, [b, c]) == match w2 case Some(v) => AllCarried(toVm, v, [c]) case None => None;
      if w2.Some? { LastCall(toVm, w2.value, c); }
    }
  }

  lemma OneEffect(files: map<string, Data>, e: Effect)
    ensures AfterEffects(files, [e]) == AfterEffect(files, e)
  {
    assert [e][1..] == [];
  }

  lemma TwoEffects(files: map<string, Data>, a: Effect, b: Effect)
    ensures AfterEffects(files, [a, b]) == match AfterEffect(files, a) case Some(more) => AfterEffect(more, b) case None => None
  {
    assert [a, b][1..] == [b];
    if AfterEffect(files, a).Some? { OneEffect(AfterEffect(files, a).value, b); }
  }

  /** A ship whose every call succeeds puts exactly the source's contents at the destination,
      on the other side, and leaves both sides otherwise as they were: the stage is gone. */
  lemma PlanDelivers(toVm: bool, src: string, dest: string, lease: Option<Staging>, w: Sides)
    requires src in if toVm then w.host else w.vm
    requires match StageOf(lease) case Some(stage) => stage !in w.vm && (toVm ==> stage != dest) case None => true
    ensures AllCarried(toVm, w, Plan(toVm, src, dest, lease))
            == Some(if toVm then w.(vm := w.vm[dest := w.host[src]]) else w.(host := w.host[dest := w.vm[src]]))
  {
    match StageOf(lease)
    case None => assert [Copy(src, dest)][1..] == [];
    case Some(stage) => if toVm { InDelivers(src, dest, stage, w); } else { OutDelivers(src, dest, stage, w); }
  }

  lemma InDelivers(src: string, dest: string, stage: string, w: Sides)
    requires src in w.host && stage !in w.vm && stage != dest
    ensures AllCarried(true, w, [Vm([Bare("$null = 0")]), Copy(src, stage), Vm(MoveCommand(stage, dest))])
            == Some(w.(vm := w.vm[dest := w.host[src]]))
  {
    hide LineEffects, Render, MoveCommand;
    CommandsDo(stage, dest, "");
    ThreeCalls(true, w, Vm([Bare("$null = 0")]), Copy(src, stage), Vm(MoveCommand(stage, dest)));
    var vm := w.vm[stage := w.host[src]];
    OneEffect(vm, Moves(stage, dest, true));
    assert (vm - {stage})[dest := w.host[src]] == w.vm[dest := w.host[src]];
  }

  lemma OutDelivers(src: string, dest: string, stage: string, w: Sides)
    requires src in w.vm && stage !in w.vm
    ensures AllCarried(false, w, [Vm(CopyCommand(src, stage)), Copy(stage, dest), Vm(RemoveCommand(stage))])
            == Some(w.(host := w.host[dest := w.vm[src]]))
  {
    hide LineEffects, Render, CopyCommand, RemoveCommand;
    CommandsDo(src, stage, "");
    CommandsDo(stage, "", "");
    ThreeCalls(false, w, Vm(CopyCommand(src, stage)), Copy(stage, dest), Vm(RemoveCommand(stage)));
    OneEffect(w.vm, Copies(src, stage, true));
    var vm := w.vm[stage := w.vm[src]];
    OneEffect(vm, Removes(stage, true));
    assert vm - {stage} == w.vm;
  }

  /** The same for the script's way of shipping a file. */
  lemma ScriptDelivers(src: string, dest: string, destDir: string, lease: Staging, w: Sides)
    requires src in w.host
    requires var stage := StagePath(lease.workdir, lease.token, lease.name); stage !in w.vm && stage != dest
    ensures AllCarried(true, w, ScriptPlan(src, dest, destDir, lease)) == Some(w.(vm := w.vm[dest := w.host[src]]))
  {
    hide LineEffects, Render, PlaceCommand, StagePath;
    var stage := StagePath(lease.workdir, lease.token, lease.name);
    CommandsDo(stage, dest, destDir);
    ThreeCalls(true, w, CheckLease, Copy(src, stage), Vm(PlaceCommand(destDir, stage, dest)));
    var vm := w.vm[stage := w.host[src]];
    TwoEffects(vm, Makes(destDir), Moves(stage, dest, true));
    assert (vm - {stage})[dest := w.host[src]] == w.vm[dest := w.host[src]];
  }

  /** And for a ship through the share, both of whose ends the VM sees. */
  lemma SharedDelivers(toVm: bool, guestPath: string, vmPath: string, lease: Option<Staging>, w: Sides)
    requires (if toVm then guestPath else vmPath) in w.vm
    requires match StageOf(lease) case Some(stage) => stage !in w.vm && stage != vmPath && stage != guestPath case None => true
    ensures Carried(toVm, w, Vm(SharedShip(toVm, guestPath, vmPath, StageOf(lease))))
            == Some(w.(vm := if toVm then w.vm[vmPath := w.vm[guestPath]] else w.vm[guestPath := w.vm[vmPath]]))
  {
    hide LineEffects, Render, SharedShip, StageOf;
    var stage := StageOf(lease);
    SharedShipDoes(toVm, guestPath, vmPath, stage);
    OneEffect(w.vm, Copies(guestPath, vmPath, true));
    OneEffect(w.vm, Copies(vmPath, guestPath, true));
    if toVm && stage.Some? {
      var st := stage.value;
      TwoEffects(w.vm, Copies(guestPath, st, true), Moves(st, vmPath, true));
      assert (w.vm[st := w.vm[guestPath]] - {st})[vmPath := w.vm[guestPath]] == w.vm[vmPath := w.vm[guestPath]];
    }
  }
}
