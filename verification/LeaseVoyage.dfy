/**
  A ship that nobody gets in the way of: with a good lease and no other process under
  way it reports exit 0 and its file is where it was sent.
  */
module LeaseVoyage {
  import opened Prelude
  import opened Paths
  import opened LeaseLedger
  import opened Shipping
  import opened LeaseProtocol
  import opened LeaseSafety
  import opened LeaseScript

  predicate OthersEnded(s: State, p: nat) { forall q :: 0 <= q < |s.procs| && q != p ==> Ended(s.procs[q].pc) }

  /** This token and run id hold a lease that has not run out, and the token has its stage. */
  predicate LeaseGood(s: State, token: Token, runId: RunId) {
    && Holds(OwnerOf(s.dir), token, runId) && !Expired(OwnerOf(s.dir).value, s.clock)
    && OwnerOf(s.dir).value.stamp <= s.clock && token in s.dir.stages
  }

  /** From `s` to `f` nothing but process `p`, the history and the owner's stamp changed. */
  predicate OnlyProcess(s: State, f: State, p: nat)
    requires p < |s.procs|
  {
    && |f.procs| == |s.procs| && f.procs == s.procs[p := f.procs[p]]
    && f.vm == s.vm && f.ships == s.ships && f.clock == s.clock && f.workdir == s.workdir
    && s.dir.Present? && f.dir.Present? && f.dir.stages == s.dir.stages
  }

  lemma ChecksAlone(s: State, p: nat) returns (cs: seq<Choice>)
    requires At(s, p, Checking) && s.procs[p].action in {Invoke, Verify} && !s.procs[p].command.Blank?
    requires LeaseGood(s, s.procs[p].token, s.procs[p].runId)
    ensures IsRun(s, cs) && OnlyProcess(s, Run(s, cs), p) && Run(s, cs).dir == s.dir
    ensures var x, y := s.procs[p], Run(s, cs).procs[p];
            y == x.(pc := if x.action == Invoke then Running else Leaving, exit := if x.action == Invoke then x.exit else 0,
                    now := y.now, stored := y.stored)
  {
    hide IsRun, Run, Next;
    NoSteps(s);
    cs := Turn(s, [], Check(p));
  }

  lemma EntersAlone(s: State, p: nat) returns (cs: seq<Choice>)
    requires At(s, p, WantOperationGate) && s.procs[p].action == Invoke && !s.procs[p].command.Blank? && OthersEnded(s, p)
    requires LeaseGood(s, s.procs[p].token, s.procs[p].runId)
    ensures IsRun(s, cs) && At(Run(s, cs), p, Running) && OnlyProcess(s, Run(s, cs), p) && Run(s, cs).dir == s.dir
    ensures var y := Run(s, cs).procs[p]; y == s.procs[p].(pc := Running, now := y.now, stored := y.stored)
  {
    cs := EntersGate(s, p);
    var s1 := Run(s, cs);
    hide IsRun, Run, Next, Enabled, Holds, Expired;
    var ds := OpensAlone(s1, p);
    RunAppend(s, cs, ds);
    cs := cs + ds;
    var es := ChecksAlone(Run(s, cs), p);
    RunAppend(s, cs, es);
    cs := cs + es;
  }

  lemma EntersGate(s: State, p: nat) returns (cs: seq<Choice>)
    requires At(s, p, WantOperationGate) && OthersEnded(s, p)
    ensures IsRun(s, cs) && Run(s, cs) == s.(procs := s.procs[p := s.procs[p].(pc := WantMetadataGate)])
  {
    hide IsRun, Run, Next;
    NoSteps(s);
    cs := Turn(s, [], OpenOperationGate(p));
    assert s.log + [] == s.log;
  }

  lemma RecheckedAlone(s: State, p: nat) returns (cs: seq<Choice>)
    requires At(s, p, WantMetadataAgain) && s.procs[p].action == Invoke && OthersEnded(s, p)
    requires LeaseGood(s, s.procs[p].token, s.procs[p].runId)
    ensures IsRun(s, cs) && OnlyProcess(s, Run(s, cs), p) && Run(s, cs).dir == s.dir
    ensures var y := Run(s, cs).procs[p];
            y == s.procs[p].(pc := Refreshing, now := s.clock, stored := OwnerOf(s.dir))
  {
    hide IsRun, Run, Next, Expired;
    NoSteps(s);
    cs := Turn(s, [], OpenMetadataGate(p));
    cs := Turn(s, cs, Recheck(p));
  }

  lemma RefreshedAlone(s: State, p: nat) returns (cs: seq<Choice>)
    requires At(s, p, Refreshing) && s.procs[p].stored == OwnerOf(s.dir) && s.procs[p].now == s.clock
    requires LeaseGood(s, s.procs[p].token, s.procs[p].runId)
    ensures IsRun(s, cs) && OnlyProcess(s, Run(s, cs), p) && Run(s, cs).procs[p] == s.procs[p].(pc := Done)
    ensures LeaseGood(Run(s, cs), s.procs[p].token, s.procs[p].runId)
  {
    hide IsRun, Run, Next;
    NoSteps(s);
    cs := Turn(s, [], Refresh(p));
    var ds := EndsAlone(Run(s, cs), p);
    RunAppend(s, cs, ds);
    cs := cs + ds;
  }

  lemma LeavesAlone(s: State, p: nat) returns (cs: seq<Choice>)
    requires At(s, p, WantMetadataAgain) && s.procs[p].action == Invoke && OthersEnded(s, p)
    requires LeaseGood(s, s.procs[p].token, s.procs[p].runId)
    ensures IsRun(s, cs) && OnlyProcess(s, Run(s, cs), p) && Run(s, cs).procs[p].pc == Done
    ensures Run(s, cs).procs[p].exit == s.procs[p].exit && LeaseGood(Run(s, cs), s.procs[p].token, s.procs[p].runId)
  {
    hide Enabled, Next, Run, IsRun;
    cs := RecheckedAlone(s, p);
    var ds := RefreshedAlone(Run(s, cs), p);
    RunAppend(s, cs, ds);
    cs := cs + ds;
  }

  lemma VerifiesAlone(s: State, p: nat) returns (cs: seq<Choice>)
    requires At(s, p, WantMetadataGate) && s.procs[p].action == Verify && !s.procs[p].command.Blank? && OthersEnded(s, p)
    requires LeaseGood(s, s.procs[p].token, s.procs[p].runId)
    ensures IsRun(s, cs) && OnlyProcess(s, Run(s, cs), p) && Run(s, cs).procs[p].pc == Done && Run(s, cs).procs[p].exit == 0
    ensures LeaseGood(Run(s, cs), s.procs[p].token, s.procs[p].runId)
  {
    cs := OpensAlone(s, p);
    var s1 := Run(s, cs);
    hide IsRun, Run, Next, Enabled, OthersEnded, Expired, Holds;
    var ds := ChecksAlone(s1, p);
    RunAppend(s, cs, ds);
    cs := cs + ds;
    var es := EndsAlone(Run(s, cs), p);
    RunAppend(s, cs, es);
    cs := cs + es;
  }

  lemma OpensAlone(s: State, p: nat) returns (cs: seq<Choice>)
    requires At(s, p, WantMetadataGate) && OthersEnded(s, p)
    ensures IsRun(s, cs) && Run(s, cs) == s.(procs := s.procs[p := s.procs[p].(pc := Checking)])
  {
    hide IsRun, Run, Next;
    NoSteps(s);
    cs := Turn(s, [], OpenMetadataGate(p));
    assert s.log + [] == s.log;
  }

  lemma EndsAlone(s: State, p: nat) returns (cs: seq<Choice>)
    requires At(s, p, Leaving)
    ensures IsRun(s, cs) && Run(s, cs) == s.(procs := s.procs[p := s.procs[p].(pc := Done)])
  {
    hide IsRun, Run, Next;
    NoSteps(s);
    cs := Turn(s, [], Leave(p));
    assert s.log + [] == s.log;
  }

  lemma ProbesAlone(s: State, p: nat) returns (cs: seq<Choice>)
    requires At(s, p, WantOperationGate) && s.procs[p].action == Invoke && s.procs[p].command.Probe? && OthersEnded(s, p)
    requires LeaseGood(s, s.procs[p].token, s.procs[p].runId)
    ensures IsRun(s, cs) && OnlyProcess(s, Run(s, cs), p) && Run(s, cs).procs[p].pc == Done && Run(s, cs).procs[p].exit == 0
    ensures LeaseGood(Run(s, cs), s.procs[p].token, s.procs[p].runId)
  {
    hide IsRun, Run, Next;
    cs := EntersAlone(s, p);
    cs := Turn(s, cs, Finish(p, 0));
    var f := Run(s, cs);
    hide Enabled, Next, Run, IsRun;
    var ds := LeavesAlone(f, p);
    RunAppend(s, cs, ds);
    cs := cs + ds;
  }

  lemma MovesAlone(s: State, p: nat) returns (cs: seq<Choice>)
    requires At(s, p, WantOperationGate) && s.procs[p].action == Invoke && s.procs[p].command.Move? && OthersEnded(s, p)
    requires s.procs[p].result.None? && LeaseGood(s, s.procs[p].token, s.procs[p].runId)
    requires Movable(s, s.procs[p].command.from, s.procs[p].command.to).Some?
    ensures IsRun(s, cs) && |Run(s, cs).procs| == |s.procs| && Run(s, cs).ships == s.ships
    ensures Run(s, cs).procs[p].pc == Done && Run(s, cs).procs[p].exit == 0
    ensures var (t, n, at) := Movable(s, s.procs[p].command.from, s.procs[p].command.to).value;
            s.dir.Present? && t in s.dir.stages && n in s.dir.stages[t] && Run(s, cs).vm == s.vm[at := s.dir.stages[t][n]]
  {
    hide Locate, IsRun, Run, Next;
    cs := EntersAlone(s, p);
    cs := Turn(s, cs, CarryOut(p));
    cs := Turn(s, cs, Finish(p, 0));
    var f := Run(s, cs);
    assert LeaseGood(f, s.procs[p].token, s.procs[p].runId);
    hide Enabled, Next, Run, IsRun, Movable;
    var ds := LeavesAlone(f, p);
    RunAppend(s, cs, ds);
    cs := cs + ds;
  }

  predicate AllEnded(s: State) { forall q :: 0 <= q < |s.procs| ==> Ended(s.procs[q].pc) }

  /** A ship asks for a lock process and gets a new one. */
  lemma AsksAlone(s: State, k: nat) returns (cs: seq<Choice>)
    requires Underway(s, k) && s.ships[k].child.None? && StepOfShip(s.ships[k]).Ask? && AllEnded(s)
    requires StepOfShip(s.ships[k]).action != Acquire
    ensures IsRun(s, cs)
    ensures var f := Run(s, cs); var x := s.ships[k]; var p := |s.procs|; var step := StepOfShip(x);
            && f == s.(procs := f.procs, ships := s.ships[k := x.(child := Some(p))])
            && |f.procs| == p + 1 && f.procs[..p] == s.procs && OthersEnded(f, p)
            && f.procs[p] == Proc(step.action, x.staging.token, x.runId, 0, step.command, FirstPc(step.action), 0, None, 0, false, None)
  {
    hide Locate, StagePath;
    cs := Then(s, [], AskLock(k));
  }

  lemma HearsAlone(s: State, k: nat) returns (cs: seq<Choice>)
    requires Underway(s, k) && s.ships[k].child.Some? && s.ships[k].child.value < |s.procs|
    requires s.procs[s.ships[k].child.value].pc == Done && s.procs[s.ships[k].child.value].exit == 0
    ensures IsRun(s, cs) && Run(s, cs) == s.(ships := s.ships[k := s.ships[k].(next := s.ships[k].next + 1, child := None)])
  {
    hide Locate, StagePath;
    cs := Then(s, [], Hear(k));
  }

  /** A ship's first step: the lease is checked, or probed by a command that does nothing. */
  lemma GuardsAlone(s: State, k: nat) returns (cs: seq<Choice>)
    requires Underway(s, k) && s.ships[k].next == 0 && s.ships[k].child.None? && AllEnded(s)
    requires LeaseGood(s, s.ships[k].staging.token, s.ships[k].runId)
    ensures IsRun(s, cs)
    ensures var f := Run(s, cs);
            && AllEnded(f) && f.workdir == s.workdir && f.vm == s.vm && f.ships == s.ships[k := s.ships[k].(next := 1)]
            && LeaseGood(f, s.ships[k].staging.token, s.ships[k].runId)
  {
    hide Enabled, Next, Run, IsRun;
    var p := |s.procs|;
    cs := AsksAlone(s, k);
    var s1 := Run(s, cs);
    var ds;
    if s.ships[k].scripted { ds := VerifiesAlone(s1, p); } else { ds := ProbesAlone(s1, p); }
    RunAppend(s, cs, ds);
    cs := cs + ds;
    var es := HearsAlone(Run(s, cs), k);
    RunAppend(s, cs, es);
    cs := cs + es;
  }

  /** Its second: the file arrives in the owner's stage. */
  lemma SendsAlone(s: State, k: nat) returns (cs: seq<Choice>)
    requires Underway(s, k) && s.ships[k].next == 1 && AllEnded(s) && ShipsOk(s)
    requires LeaseGood(s, s.ships[k].staging.token, s.ships[k].runId)
    ensures IsRun(s, cs)
    ensures var f := Run(s, cs); var x := s.ships[k];
            && AllEnded(f) && f.workdir == s.workdir && f.vm == s.vm && f.ships == s.ships[k := x.(next := 2)]
            && LeaseGood(f, x.staging.token, x.runId)
            && x.staging.name in f.dir.stages[x.staging.token] && f.dir.stages[x.staging.token][x.staging.name] == x.data
  {
    var x := s.ships[k];
    assert ShipOk(s, x);
    StageIsLocated(s.workdir, x.staging.token, x.staging.name);
    UploadLands(s, k, x.data, true);
    hide Locate, StagePath;
    cs := Then(s, [], Upload(k, x.data, true));
  }

  /** Its third: the guarded move puts what lies at the stage in its place. */
  lemma PlacesAlone(s: State, k: nat) returns (cs: seq<Choice>)
    requires Underway(s, k) && s.ships[k].next == 2 && s.ships[k].child.None? && AllEnded(s) && ShipOk(s, s.ships[k])
    requires LeaseGood(s, s.ships[k].staging.token, s.ships[k].runId)
    requires s.ships[k].staging.name in s.dir.stages[s.ships[k].staging.token]
    ensures IsRun(s, cs)
    ensures var f := Run(s, cs); var x := s.ships[k];
            && f.ships == s.ships[k := x.(next := 3)]
            && f.vm == s.vm[Resolve(x.dest) := s.dir.stages[x.staging.token][x.staging.name]]
  {
    hide Locate, StagePath, Enabled, Next, Run, IsRun, Movable, Resolve;
    var x := s.ships[k];
    var p := |s.procs|;
    cs := AsksAlone(s, k);
    var s1 := Run(s, cs);
    MoveFinds(s1, x);
    var ds := MovesAlone(s1, p);
    RunAppend(s, cs, ds);
    cs := cs + ds;
    var es := HearsAlone(Run(s, cs), k);
    RunAppend(s, cs, es);
    cs := cs + es;
  }

  /** A plan's move goes from its own stage to its destination. */
  lemma MoveFinds(s: State, x: Ship)
    requires ShipOk(s, x) && s.dir.Present? && x.staging.token in s.dir.stages
    requires x.staging.name in s.dir.stages[x.staging.token]
    ensures Movable(s, StagePath(s.workdir, x.staging.token, x.staging.name), x.dest)
            == Some((x.staging.token, x.staging.name, Resolve(x.dest)))
  {
    hide StagePath;
    StageIsLocated(s.workdir, x.staging.token, x.staging.name);
    assert Locate(s.workdir, x.dest) == Elsewhere(Resolve(x.dest));
    hide Locate;
  }

  /** A ship of the lease's owner, begun while the lease is good and no other lock process is
      under way, can be carried through by its own steps: it reports exit 0, and its file is
      at its destination and nothing else of the VM has changed. */
  lemma ShipSucceedsAlone(s: State, k0: Ledger, k: nat) returns (cs: seq<Choice>)
    requires Inv(s, k0) && Underway(s, k) && s.ships[k].next == 0 && s.ships[k].child.None? && AllEnded(s)
    requires LeaseGood(s, s.ships[k].staging.token, s.ships[k].runId)
    ensures IsRun(s, cs)
    ensures var f := Run(s, cs); var x := s.ships[k];
            k < |f.ships| && f.ships[k] == x.(next := 3) && f.vm == s.vm[Resolve(x.dest) := x.data]
  {
    assert ShipsOk(s) && ShipOk(s, s.ships[k]);
    hide Inv, Enabled, Next, Run, IsRun, Locate, Plain;
    cs := GuardsAlone(s, k);
    var s1 := Run(s, cs);
    assert ShipsOk(s1) by {
      forall j | 0 <= j < |s1.ships| ensures ShipOk(s1, s1.ships[j]) { assert ShipOk(s, s.ships[j]); }
    }
    var ds := SendsAlone(s1, k);
    RunAppend(s, cs, ds);
    cs := cs + ds;
    var es := PlacesAlone(Run(s, cs), k);
    RunAppend(s, cs, es);
    cs := cs + es;
  }

  // ----- side by side -------------------------------------------------------------------------------

  predicate MetadataFree(s: State) { forall q :: 0 <= q < |s.procs| ==> !HoldsMetadata(s.procs[q]) }

  /** Whoever holds the operation gate runs a command, and does not clear or take the lock. */
  predicate OnlyCommands(s: State) {
    forall q :: 0 <= q < |s.procs| && HoldsOperation(s.procs[q]) ==> s.procs[q].action == Invoke
  }

  /** From `s` to `f` one process came and nothing else of the lock changed but the history. */
  predicate Joined(s: State, f: State) {
    && |f.procs| == |s.procs| + 1 && f.procs[..|s.procs|] == s.procs
    && f.clock == s.clock && f.vm == s.vm && f.ships == s.ships && f.workdir == s.workdir
  }

  lemma Comes(s: State, a: Action, token: Token, runId: RunId, seconds: int, command: Command) returns (cs: seq<Choice>)
    requires a != Acquire && !command.Move?
    ensures IsRun(s, cs) && Joined(s, Run(s, cs)) && Run(s, cs).dir == s.dir && Run(s, cs).log == s.log
    ensures Run(s, cs).procs[|s.procs|] ==
            Proc(a, token, runId, seconds, command,
                 if a == Release || a == Invoke then WantOperationGate else WantMetadataGate, 0, None, 0, false, None)
  {
    NoSteps(s);
    cs := Then(s, [], Spawn(a, token, runId, seconds, command));
  }

  /** A heartbeat gets through beside any number of commands, however long they take: a Renew
      by the owner needs no more than that no process has the metadata gate at that moment. */
  lemma HeartbeatBesideCommands(s: State, token: Token, runId: RunId, seconds: int) returns (cs: seq<Choice>)
    requires LeaseGood(s, token, runId) && MetadataFree(s)
    ensures IsRun(s, cs) && Joined(s, Run(s, cs))
    ensures Run(s, cs).procs[|s.procs|].pc == Done && Run(s, cs).procs[|s.procs|].exit == 0
    ensures Run(s, cs).dir == s.dir.(owner := Some(s.dir.owner.value.(stamp := s.clock)), touched := s.clock)
  {
    hide IsRun, Run, Next, MetadataFree, Enabled;
    var p := |s.procs|;
    cs := BeatArrives(s, token, runId, seconds);
    var ds := Beats(Run(s, cs), p);
    RunAppend(s, cs, ds);
    cs := cs + ds;
  }

  lemma BeatArrives(s: State, token: Token, runId: RunId, seconds: int) returns (cs: seq<Choice>)
    requires MetadataFree(s)
    ensures IsRun(s, cs) && Joined(s, Run(s, cs)) && Run(s, cs).dir == s.dir
    ensures Run(s, cs).procs[|s.procs|] == Proc(Renew, token, runId, seconds, Other, Checking, 0, None, 0, false, None)
  {
    hide IsRun, Run, Next, MetadataFree;
    var p := |s.procs|;
    cs := Comes(s, Renew, token, runId, seconds, Other);
    assert MetadataGateFree(Run(s, cs), p) by { FreeBeside(s, Run(s, cs)); }
    cs := Turn(s, cs, OpenMetadataGate(p));
  }

  /** A Renew by the owner, once it has the gate. */
  lemma Beats(s: State, p: nat) returns (cs: seq<Choice>)
    requires At(s, p, Checking) && s.procs[p].action == Renew && LeaseGood(s, s.procs[p].token, s.procs[p].runId)
    ensures IsRun(s, cs) && |Run(s, cs).procs| == |s.procs| && Run(s, cs).procs == s.procs[p := Run(s, cs).procs[p]]
    ensures Run(s, cs) == s.(procs := Run(s, cs).procs, dir := Run(s, cs).dir, log := Run(s, cs).log)
    ensures Run(s, cs).procs[p].pc == Done && Run(s, cs).procs[p].exit == 0
    ensures Run(s, cs).dir == s.dir.(owner := Some(s.dir.owner.value.(stamp := s.clock)), touched := s.clock)
  {
    hide IsRun, Run, Next;
    cs := BeatChecks(s, p);
    var s1 := Run(s, cs);
    cs := Turn(s, cs, WriteOwner(p));
    var ds := EndsAlone(Run(s, cs), p);
    RunAppend(s, cs, ds);
    cs := cs + ds;
  }

  lemma BeatChecks(s: State, p: nat) returns (cs: seq<Choice>)
    requires At(s, p, Checking) && s.procs[p].action == Renew && LeaseGood(s, s.procs[p].token, s.procs[p].runId)
    ensures IsRun(s, cs) && |Run(s, cs).procs| == |s.procs|
    ensures Run(s, cs) == s.(procs := s.procs[p := s.procs[p].(pc := Writing, now := s.clock, stored := s.dir.owner)],
                             log := Run(s, cs).log)
  {
    hide IsRun, Run, Next;
    NoSteps(s);
    cs := Turn(s, [], Check(p));
  }

  lemma FreeBeside(s: State, f: State)
    requires MetadataFree(s) && Joined(s, f)
    ensures MetadataGateFree(f, |s.procs|)
  {
    forall q | 0 <= q < |f.procs| && q != |s.procs| ensures !HoldsMetadata(f.procs[q]) {
      assert f.procs[..|s.procs|][q] == f.procs[q];
    }
  }

  lemma OperationBeside(s: State, f: State)
    requires OnlyCommands(s) && Joined(s, f) && f.procs[|s.procs|].action == Invoke
    ensures OperationGateFree(f, |s.procs|)
  {
    forall q | 0 <= q < |f.procs| && q != |s.procs| && HoldsOperation(f.procs[q]) ensures Compatible(f.procs[|s.procs|], f.procs[q]) {
      assert f.procs[..|s.procs|][q] == f.procs[q];
    }
  }

  lemma CommandBesideCommands(s: State, token: Token, runId: RunId, command: Command) returns (cs: seq<Choice>)
    requires LeaseGood(s, token, runId) && MetadataFree(s) && OnlyCommands(s) && !command.Move? && !command.Blank?
    ensures IsRun(s, cs) && Joined(s, Run(s, cs)) && Run(s, cs).dir == s.dir
    ensures var y := Run(s, cs).procs[|s.procs|]; y.pc == Running && y.action == Invoke && y.command == command
  {
    hide IsRun, Run, Next, MetadataFree, OnlyCommands, Enabled;
    var p := |s.procs|;
    cs := CommandArrives(s, token, runId, command);
    var s1 := Run(s, cs);
    var ds := ChecksAlone(s1, p);
    RunAppend(s, cs, ds);
    cs := cs + ds;
    var f := Run(s, cs);
    assert f.procs[..p] == s1.procs[..p];
  }

  lemma CommandArrives(s: State, token: Token, runId: RunId, command: Command) returns (cs: seq<Choice>)
    requires MetadataFree(s) && OnlyCommands(s) && !command.Move?
    ensures IsRun(s, cs) && Joined(s, Run(s, cs)) && Run(s, cs).dir == s.dir
    ensures Run(s, cs).procs[|s.procs|] == Proc(Invoke, token, runId, 0, command, Checking, 0, None, 0, false, None)
  {
    hide IsRun, Run, Next, MetadataFree, OnlyCommands;
    var p := |s.procs|;
    cs := Comes(s, Invoke, token, runId, 0, command);
    var s1 := Run(s, cs);
    assert OperationGateFree(s1, p) by { OperationBeside(s, s1); }
    cs := Turn(s, cs, OpenOperationGate(p));
    assert MetadataGateFree(Run(s, cs), p) by { FreeBeside(s, Run(s, cs)); }
    cs := Turn(s, cs, OpenMetadataGate(p));
  }

  lemma StillFree(s: State, f: State)
    requires MetadataFree(s) && OnlyCommands(s) && Joined(s, f)
    requires f.procs[|s.procs|].pc == Running && f.procs[|s.procs|].action == Invoke
    ensures MetadataFree(f) && OnlyCommands(f)
  {
    forall q | 0 <= q < |s.procs| ensures f.procs[q] == s.procs[q] { assert f.procs[..|s.procs|][q] == f.procs[q]; }
  }

  predicate Runs(x: Proc, command: Command) { x.pc == Running && x.action == Invoke && x.command == command }

  /** `after` is `before` and one process more for each command, which it runs. */
  predicate AllUnderWay(before: seq<Proc>, after: seq<Proc>, commands: seq<Command>) {
    && |after| == |before| + |commands| && after[..|before|] == before
    && forall i :: 0 <= i < |commands| ==> Runs(after[|before| + i], commands[i])
  }

  lemma OneAndMore(a: seq<Proc>, b: seq<Proc>, c: seq<Proc>, commands: seq<Command>)
    requires commands != [] && |b| == |a| + 1 && b[..|a|] == a && Runs(b[|a|], commands[0]) && AllUnderWay(b, c, commands[1..])
    ensures AllUnderWay(a, c, commands)
  {
    hide Runs;
    assert c[..|a|] == c[..|b|][..|a|];
    assert c[|a|] == c[..|b|][|a|];
    forall i | 0 <= i < |commands| ensures Runs(c[|a| + i], commands[i]) {
      if i > 0 { assert Runs(c[|b| + (i - 1)], commands[1..][i - 1]); }
    }
  }

  /** The owner's commands do not lock one another out: any number of them can be running at
      once, whatever else of its own is running already. */
  lemma {:induction false} CommandsRunTogether(s: State, token: Token, runId: RunId, commands: seq<Command>) returns (cs: seq<Choice>)
    requires LeaseGood(s, token, runId) && MetadataFree(s) && OnlyCommands(s)
    requires forall i :: 0 <= i < |commands| ==> !commands[i].Move? && !commands[i].Blank?
    ensures IsRun(s, cs) && Run(s, cs).dir == s.dir && AllUnderWay(s.procs, Run(s, cs).procs, commands)
    decreases |commands|
  {
    hide IsRun, Run, Next, Enabled, MetadataFree, OnlyCommands, Holds, Expired;
    if commands == [] {
      NoSteps(s);
      cs := [];
      assert s.procs[..|s.procs|] == s.procs;
    } else {
      cs := CommandBesideCommands(s, token, runId, commands[0]);
      var s1 := Run(s, cs);
      StillFree(s, s1);
      var ds := CommandsRunTogether(s1, token, runId, commands[1..]);
      RunAppend(s, cs, ds);
      cs := cs + ds;
      OneAndMore(s.procs, s1.procs, Run(s, cs).procs, commands);
    }
  }

  // ----- two ships, one stage name ----------------------------------------------------------------

  lemma ShipsMoveOn(s: State, f: State, k: nat)
    requires ShipsOk(s) && k < |s.ships| == |f.ships| && f.workdir == s.workdir
    requires f.ships == s.ships[k := s.ships[k].(next := f.ships[k].next)]
    ensures ShipsOk(f)
  {
    forall j | 0 <= j < |f.ships| ensures ShipOk(f, f.ships[j]) { assert ShipOk(s, s.ships[j]); }
  }

  predicate Waiting(s: State, k: nat, next: nat) {
    Underway(s, k) && s.ships[k].next == next && s.ships[k].child.None?
  }

  /** A stage name has to be a ship's own: of two ships of one owner under one name, both
      begun, the first can be carried through to exit 0 and have put the other's contents at
      its destination, because the other sent its file in between. */
  lemma SharedStageNamesMixUp(s: State, k: nat, j: nat) returns (cs: seq<Choice>)
    requires ShipsOk(s) && AllEnded(s) && k != j && Waiting(s, k, 0) && Waiting(s, j, 0)
    requires s.ships[j].staging == s.ships[k].staging && s.ships[j].runId == s.ships[k].runId
    requires LeaseGood(s, s.ships[k].staging.token, s.ships[k].runId)
    ensures IsRun(s, cs)
    ensures var f := Run(s, cs);
            k < |f.ships| && f.ships[k] == s.ships[k].(next := 3) && f.vm == s.vm[Resolve(s.ships[k].dest) := s.ships[j].data]
  {
    hide Enabled, Next, Run, IsRun, ShipsOk, LeaseGood, AllEnded;
    cs := GuardsAlone(s, k);
    var s1 := Run(s, cs);
    ShipsMoveOn(s, s1, k);
    var ds := GuardsAlone(s1, j);
    var s2 := Run(s1, ds);
    ShipsMoveOn(s1, s2, j);
    RunAppend(s, cs, ds);
    cs := cs + ds;
    ds := SendsAlone(s2, k);
    var s3 := Run(s2, ds);
    ShipsMoveOn(s2, s3, k);
    RunAppend(s, cs, ds);
    cs := cs + ds;
    ds := SendsAlone(s3, j);
    var s4 := Run(s3, ds);
    ShipsMoveOn(s3, s4, j);
    RunAppend(s, cs, ds);
    cs := cs + ds;
    OneOf(s4, k);
    ds := PlacesAlone(s4, k);
    RunAppend(s, cs, ds);
    cs := cs + ds;
  }

  lemma OneOf(s: State, k: nat)
    requires ShipsOk(s) && k < |s.ships|
    ensures ShipOk(s, s.ships[k])
  {
  }

  /** Such a pair is reachable: from any workdir whose lock a run holds, it is enough to begin
      both, with a plain name and two destinations outside the lock directory. */
  lemma ABeginningOfTwo(s: State, token: Token, runId: RunId, name: string, a: string, b: string, x: Data, y: Data)
    returns (cs: seq<Choice>)
    requires Start(s) && LeaseGood(s, token, runId)
    requires Plain(name) && Locate(s.workdir, a).Elsewhere? && Locate(s.workdir, b).Elsewhere?
    ensures IsRun(s, cs)
    ensures var f := Run(s, cs);
            && ShipsOk(f) && AllEnded(f) && Waiting(f, 0, 0) && Waiting(f, 1, 0) && LeaseGood(f, token, runId)
            && f.ships[0].staging == f.ships[1].staging == Staging(s.workdir, token, name) && f.ships[0].runId == f.ships[1].runId == runId
            && f.ships[0].data == x && f.ships[1].data == y
  {
    hide Locate, Plain;
    cs := Then(s, [], BeginShip(token, runId, name, a, x, false));
    cs := Then(s, cs, BeginShip(token, runId, name, b, y, false));
  }
}
