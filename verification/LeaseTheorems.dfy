/** What the lease protocol promises, for every run of any number of processes. */
module LeaseTheorems {
  import opened Prelude
  import opened Paths
  import opened LeaseLedger
  import opened Shipping
  import opened LeaseProtocol
  import opened LeaseSafety

  // ----- commands in flight ---------------------------------------------------------

  /** All guarded commands in flight belong to one owner, the one in owner.json. */
  lemma CommandsShareOneOwner(s: State, cs: seq<Choice>, p: nat, q: nat)
    requires Start(s) && IsRun(s, cs)
    requires p < |Run(s, cs).procs| && q < |Run(s, cs).procs|
    requires InCommand(Run(s, cs).procs[p].pc) && InCommand(Run(s, cs).procs[q].pc)
    ensures var f := Run(s, cs);
            && Holds(OwnerOf(f.dir), f.procs[p].token, f.procs[p].runId)
            && f.procs[p].token == f.procs[q].token && f.procs[p].runId == f.procs[q].runId
  {
    EveryRunIsLegal(s, cs);
    var f := Run(s, cs);
    assert ProcOk(f, Replay(Opening(s), f.log), f.procs[p]);
    assert ProcOk(f, Replay(Opening(s), f.log), f.procs[q]);
  }

  /** The refusal "ownership changed during guarded command" is unreachable: a
      process that returns from its command always finds itself the owner. */
  lemma OwnershipSurvivesTheCommand(s: State, cs: seq<Choice>, p: nat)
    requires Start(s) && IsRun(s, cs) && Enabled(Run(s, cs), Recheck(p))
    ensures Next(Run(s, cs), Recheck(p)).procs[p].pc == Refreshing
  {
    EveryRunIsLegal(s, cs);
    var f := Run(s, cs);
    assert ProcOk(f, Replay(Opening(s), f.log), f.procs[p]);
  }

  // ----- fencing ----------------------------------------------------------------------

  predicate Lost(k: Ledger, t: Token) { t in k.spent && !Owned(k, t) }

  lemma {:induction false} LostStaysLost(s: State, cs: seq<Choice>, k0: Ledger, t: Token)
    requires Inv(s, k0) && IsRun(s, cs) && Lost(Replay(k0, s.log), t)
    ensures Lost(Replay(k0, Run(s, cs).log), t)
    ensures s.log <= Run(s, cs).log
    decreases |cs|
  {
    if cs != [] {
      var s' := Next(s, cs[0]);
      StepKeeps(s, cs[0], k0);
      LogGrows(s, cs[0]);
      assert s'.log[..|s.log|] == s.log && s.log[..|s.log|] == s.log && s'.log[..|s'.log|] == s'.log;
      GoneForGood(k0, s'.log, |s.log|, |s'.log|, t);
      LostStaysLost(s', cs[1..], k0, t);
    }
  }

  lemma LogGrows(s: State, c: Choice)
    requires Enabled(s, c)
    ensures s.log <= Next(s, c).log && s.clock <= Next(s, c).clock
  {
    hide Enabled, Next;
    if Arrives(c) { ArrivalIs(s, c); } else if Aside(c) { AsideProcs(s, c); } else { LockStepIs(s, c); }
  }

  /** Fencing on the machine: after any run `cs` in which token `t` lost the lock, and any
      continuation `ds`, no step of a process of `t` changes the owner record, the history
      or the VM, its owner check refuses it with exit 74, and only a Release that removed
      owner.json itself may still clear away the lock directory. */
  lemma StaleProcessIsRefused(s: State, cs: seq<Choice>, ds: seq<Choice>, c: Choice)
    requires Start(s) && IsRun(s, cs)
    requires IsRun(Run(s, cs), ds) && Enabled(Run(Run(s, cs), ds), c)
    requires !Arrives(c) && !Aside(c)
    requires var g := Run(Run(s, cs), ds);
             && Lost(Replay(Opening(s), Run(s, cs).log), g.procs[c.p].token)
    ensures var g := Run(Run(s, cs), ds); var x := g.procs[c.p];
            && Next(g, c).log == g.log && Next(g, c).vm == g.vm && OwnerOf(Next(g, c).dir) == OwnerOf(g.dir)
            && (c.Check? ==> Next(g, c).procs[c.p].pc == Leaving && Next(g, c).procs[c.p].exit == EXIT_REJECTED)
            && (Next(g, c).dir != g.dir ==>
                  (c.RemoveStage? || c.RemoveDirectory?) && x.action == Release && x.emptied && OwnerOf(g.dir).None?)
  {
    var k0 := Opening(s);
    var f := Run(s, cs);
    var g := Run(f, ds);
    LockStepIs(g, c);
    hide Next, Enabled, Lost;
    EveryRunIsLegal(s, cs);
    RunKeeps(f, ds, k0);
    hide IsRun, Run;
    LostStaysLost(f, ds, k0, g.procs[c.p].token);
    assert ProcOk(g, Replay(k0, g.log), g.procs[c.p]);
    hide Inv;
    RefusedOnceLost(g, Replay(k0, g.log), c);
  }

  lemma RefusedOnceLost(g: State, k: Ledger, c: Choice)
    requires Enabled(g, c) && Recorded(g, k) && !Arrives(c) && !Aside(c) && c.p < |g.procs|
    requires ProcOk(g, k, g.procs[c.p]) && Lost(k, g.procs[c.p].token)
    ensures var x := g.procs[c.p];
            && Next(g, c).log == g.log && Next(g, c).vm == g.vm && OwnerOf(Next(g, c).dir) == OwnerOf(g.dir)
            && (c.Check? ==> Next(g, c).procs[c.p].pc == Leaving && Next(g, c).procs[c.p].exit == EXIT_REJECTED)
            && (Next(g, c).dir != g.dir ==>
                  (c.RemoveStage? || c.RemoveDirectory?) && x.action == Release && x.emptied && OwnerOf(g.dir).None?)
  {
    LockStepIs(g, c);
    LostAddsNothing(g, k, c);
    LostKeepsTheOwner(g, k, c);
    hide Next, DirAfter, EventsOf, Recorded, ProcOk, Lost;
    assert g.log + [] == g.log;
    if c.Check? { LostIsRejected(g, k, c); }
  }

  lemma LostAddsNothing(g: State, k: Ledger, c: Choice)
    requires Enabled(g, c) && Recorded(g, k) && IsLockStep(c) && c.p < |g.procs|
    requires ProcOk(g, k, g.procs[c.p]) && Lost(k, g.procs[c.p].token)
    ensures EventsOf(g, c) == []
  {
    hide Locate, OperationGateFree, MetadataGateFree;
  }

  lemma LostKeepsTheOwner(g: State, k: Ledger, c: Choice)
    requires Enabled(g, c) && Recorded(g, k) && IsLockStep(c) && c.p < |g.procs|
    requires ProcOk(g, k, g.procs[c.p]) && Lost(k, g.procs[c.p].token)
    ensures OwnerOf(DirAfter(g, c)) == OwnerOf(g.dir)
    ensures DirAfter(g, c) != g.dir ==>
              (c.RemoveStage? || c.RemoveDirectory?) && g.procs[c.p].action == Release && g.procs[c.p].emptied && OwnerOf(g.dir).None?
  {
    hide Locate, OperationGateFree, MetadataGateFree;
  }

  lemma LostIsRejected(g: State, k: Ledger, c: Choice)
    requires Enabled(g, c) && c.Check? && Recorded(g, k)
    requires ProcOk(g, k, g.procs[c.p]) && Lost(k, g.procs[c.p].token)
    ensures ProcAfter(g, c).pc == Leaving && ProcAfter(g, c).exit == EXIT_REJECTED
  {
  }

  // ----- competing acquisitions ---------------------------------------------------------

  function Claimed(x: Proc): Event { Acquired(Lease(x.token, x.runId, x.now, x.seconds)) }

  predicate Succeeded(x: Proc) {
    x.action == Acquire && (x.pc == Leaving || x.pc == Done) && x.exit == 0
  }

  /** An Acquire that exits 0 is an acquisition in the history. */
  predicate SuccessRecorded(s: State) {
    forall p :: 0 <= p < |s.procs| && Succeeded(s.procs[p]) ==> Claimed(s.procs[p]) in s.log
  }

  lemma SuccessKept(s: State, c: Choice, k0: Ledger)
    requires Inv(s, k0) && Enabled(s, c) && SuccessRecorded(s)
    ensures SuccessRecorded(Next(s, c))
  {
    LogGrows(s, c);
    var s' := Next(s, c);
    assert forall p :: 0 <= p < |s.procs| ==> Shaped(s.procs[p]) by {
      forall p | 0 <= p < |s.procs| ensures Shaped(s.procs[p]) { assert ProcOk(s, Replay(k0, s.log), s.procs[p]); }
    }
    hide Inv, Enabled, Next, Shaped;
    forall p | 0 <= p < |s'.procs| && Succeeded(s'.procs[p]) ensures Claimed(s'.procs[p]) in s'.log {
      SuccessIsOldOrWritten(s, c, p);
    }
  }

  lemma SuccessIsOldOrWritten(s: State, c: Choice, p: nat)
    requires Enabled(s, c) && p < |Next(s, c).procs| && Succeeded(Next(s, c).procs[p])
    requires p < |s.procs| ==> Shaped(s.procs[p])
    ensures || (p < |s.procs| && Succeeded(s.procs[p]) && Claimed(Next(s, c).procs[p]) == Claimed(s.procs[p]))
            || Claimed(Next(s, c).procs[p]) in Next(s, c).log
  {
    hide Enabled, Next, Claimed;
    if Arrives(c) {
      ArrivalIs(s, c);
    } else if Aside(c) {
      AsideProcs(s, c);
    } else {
      LockStepIs(s, c);
      if p == c.p {
        WriterSucceeds(s, c);
        hide ProcAfter, EventsOf;
      }
    }
  }

  lemma WriterSucceeds(s: State, c: Choice)
    requires Enabled(s, c) && IsLockStep(c) && c.p < |s.procs| && Shaped(s.procs[c.p]) && Succeeded(ProcAfter(s, c))
    ensures || (Succeeded(s.procs[c.p]) && Claimed(ProcAfter(s, c)) == Claimed(s.procs[c.p]))
            || Claimed(ProcAfter(s, c)) in EventsOf(s, c)
  {
    hide Movable, OperationGateFree, MetadataGateFree;
    assert c.WriteOwner? && s.procs[c.p].action == Acquire ==> EventsOf(s, c)[0] == Claimed(ProcAfter(s, c));
  }

  lemma {:induction false} SuccessesAreRecorded(s: State, cs: seq<Choice>, k0: Ledger)
    requires Inv(s, k0) && IsRun(s, cs) && SuccessRecorded(s)
    ensures SuccessRecorded(Run(s, cs))
    decreases |cs|
  {
    if cs != [] {
      SuccessKept(s, cs[0], k0);
      StepKeeps(s, cs[0], k0);
      SuccessesAreRecorded(Next(s, cs[0]), cs[1..], k0);
    }
  }

  /** Two Acquire processes that both exit 0, whatever the lock directory looked like
      at the start, did not overlap: between the two acquisitions in the history lies
      the removal of the earlier owner, by its own release or, strictly after its
      lease had run out, by reclamation. */
  lemma CompetingAcquires(s: State, cs: seq<Choice>, p: nat, q: nat) returns (first: nat, second: nat, i: nat, n: nat, j: nat)
    requires Start(s) && IsRun(s, cs)
    requires p < |Run(s, cs).procs| && q < |Run(s, cs).procs| && p != q
    requires Succeeded(Run(s, cs).procs[p]) && Succeeded(Run(s, cs).procs[q])
    ensures {first, second} == {p, q}
    ensures var f := Run(s, cs);
            && i < n < j < |f.log| && f.log[i] == Claimed(f.procs[first]) && f.log[j] == Claimed(f.procs[second])
            && f.log[n].Removed? && f.log[n].token == f.procs[first].token
            && (f.log[n].how.ByReclaim? ==>
                  f.procs[second].now - f.procs[first].now > f.procs[first].seconds * TICKS_PER_SECOND)
  {
    EveryRunIsLegal(s, cs);
    SuccessesAreRecorded(s, cs, Opening(s));
    var f := Run(s, cs);
    var x, y := f.procs[p], f.procs[q];
    assert Claimed(x) in f.log && Claimed(y) in f.log;
    assert Gates(f);
    assert x.token != y.token;
    hide Run, IsRun, Inv;
    i :| 0 <= i < |f.log| && f.log[i] == Claimed(x);
    j :| 0 <= j < |f.log| && f.log[j] == Claimed(y);
    assert i != j;
    first, second := p, q;
    if j < i { first, second, i, j := q, p, j, i; }
    n := OneLiveOwner(Opening(s), f.log, i, j);
  }

  // ----- no waiting in circles --------------------------------------------------------------

  predicate WaitsForOperation(s: State, p: nat) { At(s, p, WantOperationGate) && !OperationGateFree(s, p) }

  predicate WaitsForMetadata(s: State, p: nat) {
    (At(s, p, WantMetadataGate) || At(s, p, WantMetadataAgain)) && !MetadataGateFree(s, p)
  }

  predicate Waits(s: State, p: nat) { WaitsForOperation(s, p) || WaitsForMetadata(s, p) }

  /** Process `q` holds what `p` waits for. */
  predicate Blocks(s: State, q: nat, p: nat)
    requires p < |s.procs| && q < |s.procs|
  {
    && q != p
    && (   (WaitsForOperation(s, p) && HoldsOperation(s.procs[q]) && !Compatible(s.procs[p], s.procs[q]))
        || (WaitsForMetadata(s, p) && HoldsMetadata(s.procs[q])))
  }

  /** Steps by which a lock process moves on; not crashes, nor what a command does. */
  predicate MovesOn(c: Choice) { !(Arrives(c) || Aside(c) || c.Die? || c.Mutate?) }

  lemma HolderMoves(s: State, k: Ledger, p: nat) returns (c: Choice)
    requires p < |s.procs| && HoldsMetadata(s.procs[p]) && Sees(s, k, s.procs[p])
    ensures Enabled(s, c) && MovesOn(c) && c.p == p
  {
    hide Locate, Movable;
    match s.procs[p].pc
    case Checking => c := Check(p);
    case Removing => c := RemoverMoves(s, p);
    case MakingDirectory => c := MakeDirectory(p);
    case MakingStage => c := MakeStage(p);
    case Writing => c := WriteOwner(p);
    case Rechecking => c := Recheck(p);
    case Refreshing => c := Refresh(p);
  }

  lemma RemoverMoves(s: State, p: nat) returns (c: Choice)
    requires At(s, p, Removing) && s.dir.Present?
    ensures Enabled(s, c) && MovesOn(c) && c.p == p
  {
    if s.dir.owner.Some? {
      c := RemoveOwner(p);
    } else if s.dir.stages != map[] {
      var t :| t in s.dir.stages;
      c := RemoveStage(p, t);
    } else {
      c := RemoveDirectory(p);
    }
  }

  lemma MoveOf(s: State, k0: Ledger, p: nat) returns (c: Choice)
    requires Inv(s, k0) && p < |s.procs| && !Ended(s.procs[p].pc) && !Waits(s, p)
    ensures Enabled(s, c) && MovesOn(c) && c.p == p
  {
    var k := Replay(k0, s.log);
    assert Sees(s, k, s.procs[p]) by { assert ProcOk(s, k, s.procs[p]); }
    hide Inv, Sees, Enabled, Waits;
    if HoldsMetadata(s.procs[p]) { c := HolderMoves(s, k, p); } else { c := FreeMoves(s, p); }
  }

  lemma FreeMoves(s: State, p: nat) returns (c: Choice)
    requires p < |s.procs| && !Ended(s.procs[p].pc) && !Waits(s, p) && !HoldsMetadata(s.procs[p])
    ensures Enabled(s, c) && MovesOn(c) && c.p == p
  {
    hide Locate;
    var x := s.procs[p];
    match x.pc
    case WantOperationGate => c := OpenOperationGate(p);
    case WantMetadataGate => c := OpenMetadataGate(p);
    case WantMetadataAgain => c := OpenMetadataGate(p);
    case Leaving => c := Leave(p);
    case Running =>
      if !x.command.Move? { c := Finish(p, 0); }
      else if x.result.None? { c := CarryOut(p); }
      else { c := Finish(p, x.result.value); }
  }

  /** Waits never close into a circle: from any waiting process at most two links, each to a
      holder of the gate waited for, lead to a process that waits for nothing and can move on. */
  lemma WaitsEndSoon(s: State, cs: seq<Choice>, p: nat) returns (r: nat, q: nat, c: Choice)
    requires Start(s) && IsRun(s, cs) && p < |Run(s, cs).procs| && Waits(Run(s, cs), p)
    ensures var f := Run(s, cs);
            && r < |f.procs| && q < |f.procs| && Blocks(f, r, p) && (q == r || Blocks(f, q, r))
            && !Waits(f, q) && Enabled(f, c) && MovesOn(c) && c.p == q
  {
    EveryRunIsLegal(s, cs);
    var f := Run(s, cs);
    hide Run, IsRun, Inv, Enabled, HoldsMetadata;
    r := Blocker(f, p);
    q := r;
    if Waits(f, r) {
      assert WaitsForMetadata(f, r);
      q := Blocker(f, r);
    }
    c := MoveOf(f, Opening(s), q);
  }

  lemma Blocker(f: State, p: nat) returns (r: nat)
    requires p < |f.procs| && Waits(f, p)
    ensures r < |f.procs| && Blocks(f, r, p) && !WaitsForOperation(f, r) && (WaitsForMetadata(f, p) ==> !Waits(f, r))
    ensures !Ended(f.procs[r].pc)
  {
    if WaitsForMetadata(f, p) {
      r :| 0 <= r < |f.procs| && r != p && HoldsMetadata(f.procs[r]);
    } else {
      r :| 0 <= r < |f.procs| && r != p && HoldsOperation(f.procs[r]) && !Compatible(f.procs[p], f.procs[r]);
    }
  }

  /** While any process is unfinished, some process can move on: no set of waiting
      processes is ever stuck, without any of them timing out or dying. */
  lemma SomeProcessMoves(s: State, cs: seq<Choice>, p: nat) returns (c: Choice)
    requires Start(s) && IsRun(s, cs)
    requires p < |Run(s, cs).procs| && !Ended(Run(s, cs).procs[p].pc)
    ensures Enabled(Run(s, cs), c) && MovesOn(c)
  {
    var f := Run(s, cs);
    if Waits(f, p) {
      var r, q;
      r, q, c := WaitsEndSoon(s, cs, p);
    } else {
      EveryRunIsLegal(s, cs);
      hide Run, IsRun, Inv, Enabled, Waits;
      c := MoveOf(f, Opening(s), p);
    }
  }

  // ----- lease timing ---------------------------------------------------------------------

  /** The timing run-tests.sh accepts before it acquires. */
  predicate ValidTiming(leaseSeconds: int, heartbeatSeconds: int) {
    3 <= leaseSeconds <= 86400 && 1 <= heartbeatSeconds && heartbeatSeconds * 3 <= leaseSeconds
  }

  /** A run with accepted timing whose successive stamps are at most two heartbeats late is
      never told that its lease expired and never reclaimed, from its acquisition `a` up to
      three heartbeats after the last stamp in the run. */
  lemma HeartbeatsSuffice(s: State, cs: seq<Choice>, a: nat, i: nat, heartbeatSeconds: int)
    requires Start(s) && IsRun(s, cs) && a < i < |Run(s, cs).log|
    requires Run(s, cs).log[a].Acquired? && ValidTiming(Run(s, cs).log[a].lease.seconds, heartbeatSeconds)
    requires var log := Run(s, cs).log; var stamps := Stamps(log, log[a].lease.token);
             var gap := 3 * heartbeatSeconds * TICKS_PER_SECOND;
             Steady(stamps, gap) && (stamps != [] ==> InstantOf(log[i], stamps[|stamps| - 1]) <= stamps[|stamps| - 1] + gap)
    ensures NotRunOut(Run(s, cs).log[i], Run(s, cs).log[a].lease.token)
  {
    EveryRunIsLegal(s, cs);
    HeartbeatsKeepTheLease(Opening(s), Run(s, cs).log, a, i, heartbeatSeconds);
  }
}
