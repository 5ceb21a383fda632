/**
  Staged shipping, end to end: who may change the VM's files, where an upload can
  arrive, and what a ship that reports success has done. The statements are about
  every run of any number of lock processes and ships.
  */
module LeaseShipping {
  import opened Prelude
  import opened Paths
  import opened LeaseLedger
  import opened Quoting
  import opened CommandReading
  import opened Shipping
  import opened LeaseProtocol
  import opened LeaseSafety
  import opened LeaseTheorems

  // ----- the owner check before every change -----------------------------------------------------

  /** At position `i` the history records that this token's Invoke passed the owner check,
      and nobody has lost the lock since. */
  predicate AdmittedAt(log: seq<Event>, i: nat, token: Token, runId: RunId) {
    && i < |log| && log[i].Admitted? && log[i].action == Invoke && log[i].token == token && log[i].runId == runId
    && forall j :: i < j < |log| ==> !log[j].Removed?
  }

  predicate Admittance(log: seq<Event>, token: Token, runId: RunId) {
    exists i :: 0 <= i < |log| && AdmittedAt(log, i, token, runId)
  }

  predicate CommandsAdmitted(s: State) {
    forall p :: 0 <= p < |s.procs| && InCommand(s.procs[p].pc) ==> Admittance(s.log, s.procs[p].token, s.procs[p].runId)
  }

  lemma StillAdmitted(log: seq<Event>, e: Event, token: Token, runId: RunId)
    requires Admittance(log, token, runId) && !e.Removed?
    ensures Admittance(log + [e], token, runId)
  {
    var i :| 0 <= i < |log| && AdmittedAt(log, i, token, runId);
    assert AdmittedAt(log + [e], i, token, runId);
  }

  /** Where the one event a lock process may add comes from. */
  lemma EventOrigin(s: State, c: Choice)
    requires Enabled(s, c) && IsLockStep(c)
    ensures c.p < |s.procs| && |EventsOf(s, c)| <= 1
    ensures var x := s.procs[c.p];
            EventsOf(s, c) != [] ==>
              match EventsOf(s, c)[0]
              case Removed(_, _, _, _) => c.RemoveOwner?
              case Acquired(_) => c.WriteOwner? && x.action == Acquire
              case Mutated(t, r, _) => Commands(c) && x.pc == Running && t == x.token && r == x.runId
              case _ => true
  {
    hide Locate, OperationGateFree, MetadataGateFree, Holds, Expired, Reclaimable;
  }

  /** A step adds at most one event; a removal only when owner.json is removed. */
  lemma LogStep(s: State, c: Choice)
    requires Enabled(s, c) && ShipsOk(s)
    ensures var s' := Next(s, c);
            || s'.log == s.log
            || (|s'.log| == |s.log| + 1 && s'.log == s.log + [s'.log[|s.log|]] && (s'.log[|s.log|].Removed? ==> c.RemoveOwner?))
  {
    hide Enabled, Next;
    if Aside(c) {
      AsideProcs(s, c);
    } else if Arrives(c) {
      ArrivalIs(s, c);
    } else {
      LockStepIs(s, c);
      EventOrigin(s, c);
      hide EventsOf;
      OneMore(s.log, EventsOf(s, c));
    }
  }

  lemma OneMore(log: seq<Event>, events: seq<Event>)
    requires |events| <= 1
    ensures events == [] ==> log + events == log
    ensures events != [] ==> log + events == log + [(log + events)[|log|]] && (log + events)[|log|] == events[0]
  {
  }

  /** Who is in a command after a step was in it before, or has just passed the owner check. */
  lemma CommandStep(s: State, c: Choice, p: nat)
    requires Enabled(s, c) && p < |Next(s, c).procs| && InCommand(Next(s, c).procs[p].pc)
    requires p < |s.procs| ==> Shaped(s.procs[p])
    ensures p < |s.procs| && Next(s, c).procs[p].token == s.procs[p].token && Next(s, c).procs[p].runId == s.procs[p].runId
    ensures InCommand(s.procs[p].pc) || c == Check(p)
    ensures c == Check(p) ==> Next(s, c).log == s.log + [Admitted(Invoke, s.procs[p].token, s.procs[p].runId, s.clock)]
  {
    hide Enabled, Next;
    if Aside(c) {
      AsideProcs(s, c);
    } else if Arrives(c) {
      ArrivalIs(s, c);
    } else {
      LockStepIs(s, c);
      if p == c.p {
        MoverIsItself(s, c);
        EntersCommand(s, c);
      }
      hide ProcAfter, EventsOf, DirAfter;
    }
  }

  lemma EntersCommand(s: State, c: Choice)
    requires Enabled(s, c) && IsLockStep(c) && c.p < |s.procs| && Shaped(s.procs[c.p]) && InCommand(ProcAfter(s, c).pc)
    ensures InCommand(s.procs[c.p].pc) || c.Check?
    ensures c.Check? ==> EventsOf(s, c) == [Admitted(Invoke, s.procs[c.p].token, s.procs[c.p].runId, s.clock)]
  {
    hide Movable, Reclaimable, OperationGateFree, MetadataGateFree;
  }

  lemma AdmissionKept(s: State, c: Choice, k0: Ledger)
    requires Inv(s, k0) && Enabled(s, c) && CommandsAdmitted(s)
    ensures CommandsAdmitted(Next(s, c))
  {
    var s' := Next(s, c);
    assert ShipsOk(s) && Gates(s) && forall p :: 0 <= p < |s.procs| ==> Shaped(s.procs[p]);
    assert c.RemoveOwner? ==> HoldsMetadata(s.procs[c.p]) && s.procs[c.p].action in {Acquire, Release};
    hide Inv, Enabled, Next, Gates, HoldsMetadata, Shaped, ShipsOk, Admittance;
    forall p | 0 <= p < |s'.procs| && InCommand(s'.procs[p].pc)
      ensures Admittance(s'.log, s'.procs[p].token, s'.procs[p].runId)
    {
      CommandStep(s, c, p);
      StaysAdmitted(s, c, p);
    }
  }

  lemma StaysAdmitted(s: State, c: Choice, p: nat)
    requires Enabled(s, c) && ShipsOk(s) && Gates(s) && CommandsAdmitted(s)
    requires p < |s.procs| && p < |Next(s, c).procs| && Shaped(s.procs[p]) && InCommand(Next(s, c).procs[p].pc)
    requires c.RemoveOwner? ==> HoldsMetadata(s.procs[c.p]) && s.procs[c.p].action in {Acquire, Release}
    ensures Admittance(Next(s, c).log, s.procs[p].token, s.procs[p].runId)
  {
    hide Enabled, Next, Gates, HoldsMetadata, Shaped, ShipsOk;
    var s' := Next(s, c);
    var x := s.procs[p];
    LogStep(s, c);
    CommandStep(s, c, p);
    if c == Check(p) {
      assert AdmittedAt(s'.log, |s.log|, x.token, x.runId);
    } else {
      RemoverIsAlone(s, c, p);
      if s'.log != s.log { StillAdmitted(s.log, s'.log[|s.log|], x.token, x.runId); }
    }
  }

  lemma RemoverIsAlone(s: State, c: Choice, p: nat)
    requires Enabled(s, c) && p < |s.procs| && p < |Next(s, c).procs| && Gates(s) && Shaped(s.procs[p])
    requires c.RemoveOwner? ==> HoldsMetadata(s.procs[c.p]) && s.procs[c.p].action in {Acquire, Release}
    ensures InCommand(Next(s, c).procs[p].pc) ==> !c.RemoveOwner?
  {
    if c.RemoveOwner? && p != c.p { NobodyElseInside(s, c.p, p); }
    hide Locate, Arrived, Gates;
  }

  /** Every change of the VM in the history was made by an Invoke that had passed the owner
      check, with nobody losing the lock in between. */
  predicate ChangesAdmitted(log: seq<Event>) {
    forall i :: 0 <= i < |log| && log[i].Mutated? ==> Admittance(log[..i], log[i].token, log[i].runId)
  }

  lemma ChangeKept(s: State, c: Choice, k0: Ledger)
    requires Inv(s, k0) && Enabled(s, c) && CommandsAdmitted(s) && ChangesAdmitted(s.log)
    ensures ChangesAdmitted(Next(s, c).log)
  {
    assert ShipsOk(s);
    hide Inv, Enabled, Next, ShipsOk;
    LogStep(s, c);
    MutationsComeFromCommands(s, c);
    var log, log' := s.log, Next(s, c).log;
    forall i | 0 <= i < |log'| && log'[i].Mutated? ensures Admittance(log'[..i], log'[i].token, log'[i].runId) {
      if i < |log| {
        assert log'[..i] == log[..i] && log'[i] == log[i];
      } else {
        assert log'[..i] == log;
      }
    }
  }

  lemma MutationsComeFromCommands(s: State, c: Choice)
    requires Enabled(s, c) && ShipsOk(s)
    ensures var log' := Next(s, c).log;
            |log'| > |s.log| && log'[|s.log|].Mutated? ==>
              && (c.Mutate? || c.CarryOut?) && c.p < |s.procs| && s.procs[c.p].pc == Running
              && log'[|s.log|].token == s.procs[c.p].token && log'[|s.log|].runId == s.procs[c.p].runId
  {
    hide Enabled, Next;
    if Aside(c) {
      AsideProcs(s, c);
    } else if Arrives(c) {
      ArrivalIs(s, c);
    } else {
      LockStepIs(s, c);
      EventOrigin(s, c);
      hide EventsOf;
      OneMore(s.log, EventsOf(s, c));
    }
  }

  // ----- the VM's files -------------------------------------------------------------------------

  /** What the history says the VM's files hold. */
  function FilesAfter(vm: map<seq<string>, Data>, log: seq<Event>): map<seq<string>, Data> {
    if log == [] then vm
    else
      var before := FilesAfter(vm, log[..|log| - 1]);
      match log[|log| - 1]
      case Mutated(_, _, change) => Written(before, change)
      case _ => before
  }

  /** Outside the lock directory a step changes what its event says and nothing else. */
  lemma FilesStep(s: State, c: Choice)
    requires Enabled(s, c) && ShipsOk(s)
    ensures var s' := Next(s, c);
            s'.vm == if s'.log != s.log && s'.log[|s.log|].Mutated? then Written(s.vm, s'.log[|s.log|].change) else s.vm
  {
    if IsLockStep(c) {
      LockStepIs(s, c);
      EventOrigin(s, c);
      OneMore(s.log, EventsOf(s, c));
      hide Enabled, Next, EventsOf, ProcAfter, DirAfter;
    } else {
      OthersLeaveFiles(s, c);
      hide Enabled, Next;
    }
  }

  lemma OthersLeaveFiles(s: State, c: Choice)
    requires Enabled(s, c) && ShipsOk(s) && !IsLockStep(c)
    ensures Next(s, c).vm == s.vm && Next(s, c).log == s.log
  {
    if c.Upload? {
      UploadLands(s, c.k, c.sent, c.whole);
      hide Enabled, Next;
    } else {
      SameFilesAside(s, c);
      hide Enabled, Next;
    }
  }

  lemma SameFilesAside(s: State, c: Choice)
    requires Enabled(s, c) && !IsLockStep(c) && !c.Upload?
    ensures Next(s, c).vm == s.vm && Next(s, c).log == s.log && Next(s, c).dir == s.dir
  {
    hide Locate, Arrived, ShipAfter, StagePath, ProcAfter, DirAfter, EventsOf;
  }

  lemma FilesKept(s: State, c: Choice, vm0: map<seq<string>, Data>)
    requires Enabled(s, c) && ShipsOk(s) && s.vm == FilesAfter(vm0, s.log)
    ensures Next(s, c).vm == FilesAfter(vm0, Next(s, c).log)
  {
    FilesStep(s, c);
    LogStep(s, c);
    var s' := Next(s, c);
    hide Enabled, Next, ShipsOk;
    if s'.log != s.log { assert s'.log[..|s'.log| - 1] == s.log; }
  }

  /** The last change of a place is what it holds. */
  lemma {:induction false} LastChangeHolds(vm: map<seq<string>, Data>, log: seq<Event>, i: nat)
    requires i < |log| && log[i].Mutated? && log[i].change.data.Some?
    requires forall j :: i < j < |log| && log[j].Mutated? ==> log[j].change.at != log[i].change.at
    ensures log[i].change.at in FilesAfter(vm, log) && FilesAfter(vm, log)[log[i].change.at] == log[i].change.data.value
    decreases |log|
  {
    var last := |log| - 1;
    if i < last {
      LastChangeHolds(vm, log[..last], i);
    }
  }

  // ----- one stage for one owner ------------------------------------------------------------------

  predicate AcquiredIn(log: seq<Event>, t: Token) { exists i :: 0 <= i < |log| && log[i].Acquired? && log[i].lease.token == t }

  /** An owner that acquired in this history shares the lock directory with no other token's stage. */
  predicate StagesTidy(s: State) {
    s.dir.Present? && s.dir.owner.Some? && AcquiredIn(s.log, s.dir.owner.value.token)
    ==> s.dir.stages.Keys <= {s.dir.owner.value.token}
  }

  lemma TidyKept(s: State, c: Choice, k0: Ledger)
    requires Inv(s, k0) && Enabled(s, c) && StagesTidy(s)
    ensures StagesTidy(Next(s, c))
  {
    assert ShipsOk(s);
    if IsLockStep(c) {
      LockStepIs(s, c);
      assert ProcOk(s, Replay(k0, s.log), s.procs[c.p]);
      assert Sees(s, Replay(k0, s.log), s.procs[c.p]);
    }
    hide Inv, Enabled, Next;
    TidyStep(s, c, Replay(k0, s.log));
  }

  lemma MakerIsTidy(s: State, c: Choice, k: Ledger)
    requires Enabled(s, c) && IsLockStep(c) && Sees(s, k, s.procs[c.p])
    requires c.MakeStage? || (c.WriteOwner? && s.procs[c.p].action == Acquire)
    ensures var d := DirAfter(s, c); d.Present? && (d.owner.Some? ==> d.stages.Keys == {d.owner.value.token})
  {
  }

  lemma TidyStep(s: State, c: Choice, k: Ledger)
    requires Enabled(s, c) && ShipsOk(s) && StagesTidy(s)
    requires IsLockStep(c) ==> c.p < |s.procs| && Sees(s, k, s.procs[c.p])
    ensures StagesTidy(Next(s, c))
  {
    var s' := Next(s, c);
    if c.MakeStage? || (c.WriteOwner? && s.procs[c.p].action == Acquire) {
      LockStepIs(s, c);
      MakerIsTidy(s, c, k);
      hide Enabled, Next, Sees, DirAfter, ProcAfter, EventsOf;
    } else {
      assert c.WriteOwner? || c.Refresh? ==> s.procs[c.p].stored == OwnerOf(s.dir);
      hide Enabled, Next, Sees;
      DirStep(s, c);
      LogStep(s, c);
      AcquisitionsAreWritten(s, c);
      if s'.dir.Present? && s'.dir.owner.Some? && AcquiredIn(s'.log, s'.dir.owner.value.token) {
        AcquiredBefore(s.log, s'.log, s'.dir.owner.value.token);
      }
    }
  }

  lemma AcquiredBefore(log: seq<Event>, log': seq<Event>, t: Token)
    requires AcquiredIn(log', t) && log <= log' && forall i :: |log| <= i < |log'| ==> !log'[i].Acquired?
    ensures AcquiredIn(log, t)
  {
    var i :| 0 <= i < |log'| && log'[i].Acquired? && log'[i].lease.token == t;
    assert log[i] == log'[i];
  }

  lemma AcquisitionsAreWritten(s: State, c: Choice)
    requires Enabled(s, c) && ShipsOk(s) && !(c.WriteOwner? && s.procs[c.p].action == Acquire)
    ensures forall i :: |s.log| <= i < |Next(s, c).log| ==> !Next(s, c).log[i].Acquired?
  {
    if IsLockStep(c) {
      LockStepIs(s, c);
      EventOrigin(s, c);
      OneMore(s.log, EventsOf(s, c));
      hide Enabled, Next, EventsOf, ProcAfter, DirAfter;
    } else {
      OthersLeaveFiles(s, c);
      hide Enabled, Next;
    }
  }

  /** Otherwise the owner record appears for no new token, and stages only disappear. */
  lemma DirStep(s: State, c: Choice)
    requires Enabled(s, c) && ShipsOk(s) && !(c.WriteOwner? && s.procs[c.p].action == Acquire) && !c.MakeStage?
    requires c.WriteOwner? ==> s.procs[c.p].stored == OwnerOf(s.dir)
    requires c.Refresh? ==> s.procs[c.p].stored == OwnerOf(s.dir)
    ensures var d, d' := s.dir, Next(s, c).dir;
            d'.Present? && d'.owner.Some? ==>
              d.Present? && d.owner.Some? && d.owner.value.token == d'.owner.value.token && d'.stages.Keys <= d.stages.Keys
  {
    if Aside(c) {
      AsideQuiet(s, c);
      hide Enabled, Next;
    } else if Arrives(c) {
      ArrivalIs(s, c);
      hide Enabled, Next;
    } else {
      LockStepIs(s, c);
      hide Next, ProcAfter, EventsOf, Locate, OperationGateFree, MetadataGateFree;
    }
  }

  // ----- every run ------------------------------------------------------------------------------------

  predicate Accounted(s: State, vm0: map<seq<string>, Data>) {
    && CommandsAdmitted(s) && ChangesAdmitted(s.log) && StagesTidy(s) && s.vm == FilesAfter(vm0, s.log)
  }

  lemma {:induction false} AccountsKept(s: State, cs: seq<Choice>, k0: Ledger, vm0: map<seq<string>, Data>)
    requires Inv(s, k0) && IsRun(s, cs) && Accounted(s, vm0)
    ensures Accounted(Run(s, cs), vm0)
    decreases |cs|
  {
    if cs != [] {
      AdmissionKept(s, cs[0], k0);
      ChangeKept(s, cs[0], k0);
      TidyKept(s, cs[0], k0);
      FilesKept(s, cs[0], vm0);
      StepKeeps(s, cs[0], k0);
      hide Inv, Enabled, Next, StagesTidy, CommandsAdmitted, ChangesAdmitted;
      AccountsKept(Next(s, cs[0]), cs[1..], k0, vm0);
    }
  }

  lemma EveryRunIsAccounted(s: State, cs: seq<Choice>)
    requires Start(s) && IsRun(s, cs)
    ensures Inv(Run(s, cs), Opening(s)) && Accounted(Run(s, cs), s.vm)
  {
    EveryRunIsLegal(s, cs);
    assert Inv(s, Opening(s));
    assert Accounted(s, s.vm);
    AccountsKept(s, cs, Opening(s), s.vm);
  }

  /** The VM's files change only under the lease: a step that changes one is taken by an
      Invoke inside its command, the recorded owner is its own, and the history shows that
      it passed the owner check with nobody losing the lock since. */
  lemma FilesChangeUnderTheLease(s: State, cs: seq<Choice>, c: Choice) returns (i: nat)
    requires Start(s) && IsRun(s, cs) && Enabled(Run(s, cs), c)
    requires Next(Run(s, cs), c).vm != Run(s, cs).vm
    ensures var f := Run(s, cs);
            && (c.Mutate? || c.CarryOut?) && c.p < |f.procs| && f.procs[c.p].action == Invoke && f.procs[c.p].pc == Running
            && Holds(OwnerOf(f.dir), f.procs[c.p].token, f.procs[c.p].runId)
            && AdmittedAt(f.log, i, f.procs[c.p].token, f.procs[c.p].runId)
  {
    EveryRunIsAccounted(s, cs);
    var f := Run(s, cs);
    hide Run, IsRun;
    FilesStep(f, c);
    LogStep(f, c);
    MutationsComeFromCommands(f, c);
    var x := f.procs[c.p];
    assert ProcOk(f, Replay(Opening(s), f.log), x);
    hide Next, Enabled, Inv;
    i :| 0 <= i < |f.log| && AdmittedAt(f.log, i, x.token, x.runId);
  }

  /** So in every history a change of the VM was made while its token and run id were the
      recorded owner's, after an owner check that this owner's Invoke passed, with no
      removal between that check and the change, nor of this token ever before. */
  lemma MutationsAreOwned(s: State, cs: seq<Choice>, i: nat) returns (n: nat)
    requires Start(s) && IsRun(s, cs) && i < |Run(s, cs).log| && Run(s, cs).log[i].Mutated?
    ensures var log := Run(s, cs).log;
            && Holds(Replay(Opening(s), log[..i]).lease, log[i].token, log[i].runId)
            && AdmittedAt(log[..i], n, log[i].token, log[i].runId)
            && forall j :: 0 <= j < i && log[j].Removed? ==> log[j].token != log[i].token
  {
    EveryRunIsLegal(s, cs);
    EveryRunIsAccounted(s, cs);
    var log := Run(s, cs).log;
    hide Run, IsRun, Inv;
    LegalAt(Opening(s), log, i);
    n :| 0 <= n < |log[..i]| && AdmittedAt(log[..i], n, log[i].token, log[i].runId);
    forall j | 0 <= j < i && log[j].Removed? ensures log[j].token != log[i].token {
      Fencing(Opening(s), log, j, i);
    }
  }

  // ----- uploads ---------------------------------------------------------------------------------------

  /** An upload, whoever sends it and however stale, goes to the path of its ship's plan; that
      path leads into the sender's own stage, so no other token's stage, no part of the owner
      record and no other file of the VM is touched. */
  lemma UploadsStayInTheirStage(s: State, cs: seq<Choice>, k: nat, sent: Data, whole: bool)
    requires Start(s) && IsRun(s, cs) && Enabled(Run(s, cs), Upload(k, sent, whole))
    ensures var f := Run(s, cs); var g := Next(f, Upload(k, sent, whole)); var t := f.ships[k].staging.token;
            && g.vm == f.vm && g.log == f.log && g.dir.Present? == f.dir.Present? && OwnerOf(g.dir) == OwnerOf(f.dir)
            && (f.dir.Present? ==>
                  && g.dir.stages.Keys == f.dir.stages.Keys
                  && (forall u :: u in f.dir.stages && u != t ==> g.dir.stages[u] == f.dir.stages[u])
                  && (t in f.dir.stages ==> g.dir.stages[t] == f.dir.stages[t][f.ships[k].staging.name := sent]))
  {
    EveryRunIsLegal(s, cs);
    var f := Run(s, cs);
    hide Run, IsRun;
    UploadLands(f, k, sent, whole);
    hide Inv, Enabled, Next;
  }

  /** Once the lock has been acquired again, an upload of a token that lost it reaches nothing. */
  lemma StaleUploadsReachNothing(s: State, cs: seq<Choice>, k: nat, sent: Data, whole: bool)
    requires Start(s) && IsRun(s, cs) && Enabled(Run(s, cs), Upload(k, sent, whole))
    requires var f := Run(s, cs);
             && Lost(Replay(Opening(s), f.log), f.ships[k].staging.token)
             && OwnerOf(f.dir).Some? && AcquiredIn(f.log, OwnerOf(f.dir).value.token)
    ensures var f := Run(s, cs); var g := Next(f, Upload(k, sent, whole));
            g.dir == f.dir && g.vm == f.vm && g.log == f.log && g.ships[k].failed
  {
    EveryRunIsLegal(s, cs);
    EveryRunIsAccounted(s, cs);
    var f := Run(s, cs);
    hide Run, IsRun;
    var t := f.ships[k].staging.token;
    UploadLands(f, k, sent, whole);
    assert f.dir.owner.value.token != t;
    assert t !in f.dir.stages;
    StageIsLocated(f.workdir, t, f.ships[k].staging.name) by { assert ShipOk(f, f.ships[k]); }
    hide Inv, Locate;
  }

  // ----- what a reported ship has done -----------------------------------------------------------------

  /** No other ship stages a file under this token and name. */
  predicate Sole(s: State, k: nat)
    requires k < |s.ships|
  {
    forall j :: 0 <= j < |s.ships| && j != k ==>
      s.ships[j].staging.token != s.ships[k].staging.token || s.ships[j].staging.name != s.ships[k].staging.name
  }

  /** The history has the ship's own contents put at its destination under its own name. */
  predicate DeliveredAt(log: seq<Event>, i: nat, x: Ship) {
    i < |log| && log[i] == Mutated(x.staging.token, x.runId, Change(Resolve(x.dest), Some(x.data)))
  }

  predicate Delivered(log: seq<Event>, x: Ship) { exists i :: 0 <= i < |log| && DeliveredAt(log, i, x) }

  /** Once sent whole, what lies at the ship's stage is the ship's. */
  predicate HoldsOwn(s: State, x: Ship) {
    x.next >= 2 && s.dir.Present? && x.staging.token in s.dir.stages && x.staging.name in s.dir.stages[x.staging.token]
    ==> s.dir.stages[x.staging.token][x.staging.name] == x.data
  }

  /** The lock process a ship waits for is its own, and its move comes to success only by
      delivering. */
  predicate ChildOk(s: State, x: Ship) {
    x.child.Some? && x.next == 2 ==>
      && x.child.value < |s.procs|
      && var y := s.procs[x.child.value];
         && y.action == Invoke && y.token == x.staging.token && y.runId == x.runId
         && y.command == Move(StagePath(s.workdir, x.staging.token, x.staging.name), x.dest)
         && (y.result == Some(0) ==> Delivered(s.log, x))
  }

  predicate ShipHonest(s: State, x: Ship) {
    x.next <= 3 && (x.next == 1 ==> x.child.None?) && HoldsOwn(s, x) && ChildOk(s, x) && (x.next == 3 ==> Delivered(s.log, x))
  }

  predicate AfterCommand(pc: Pc) {
    pc == WantMetadataAgain || pc == Rechecking || pc == Refreshing || pc == Leaving || pc == Done
  }

  /** A move's exit code 0 is the move's own. */
  predicate MoveHonest(x: Proc) {
    x.command.Move? ==> x.action == Invoke && (AfterCommand(x.pc) && x.exit == 0 ==> x.result == Some(0))
  }

  predicate MovesHonest(s: State) { forall p :: 0 <= p < |s.procs| ==> MoveHonest(s.procs[p]) }

  lemma MovesStayHonest(s: State, c: Choice)
    requires Enabled(s, c) && MovesHonest(s) && forall p :: 0 <= p < |s.procs| ==> Shaped(s.procs[p])
    ensures MovesHonest(Next(s, c))
  {
    var s' := Next(s, c);
    hide Enabled, Next, MoveHonest, Shaped, ProcAfter, DirAfter, EventsOf;
    if Aside(c) {
      AsideProcs(s, c);
    } else if Arrives(c) {
      ArrivalIs(s, c);
      ArrivalIsHonest(s'.procs[|s.procs|]);
    } else {
      LockStepIs(s, c);
      MoverIsHonest(s, c);
    }
  }

  lemma ArrivalIsHonest(x: Proc)
    requires x.pc == FirstPc(x.action) && (x.command.Move? ==> x.action == Invoke)
    ensures MoveHonest(x)
  {
  }

  lemma MoverIsHonest(s: State, c: Choice)
    requires Enabled(s, c) && IsLockStep(c) && c.p < |s.procs| && MoveHonest(s.procs[c.p]) && Shaped(s.procs[c.p])
    ensures MoveHonest(ProcAfter(s, c))
  {
    hide Movable, Reclaimable, Holds, Expired, OperationGateFree, MetadataGateFree;
  }

  predicate SameVoyage(x: Ship, y: Ship) {
    y.staging == x.staging && y.runId == x.runId && y.dest == x.dest && y.data == x.data && y.scripted == x.scripted
  }

  lemma ShipsGrow(s: State, c: Choice)
    requires Enabled(s, c)
    ensures |s.ships| <= |Next(s, c).ships| && forall j :: 0 <= j < |s.ships| ==> SameVoyage(s.ships[j], Next(s, c).ships[j])
  {
    hide Enabled, Next, SameVoyage;
    forall j | 0 <= j < |s.ships| ensures j < |Next(s, c).ships| && SameVoyage(s.ships[j], Next(s, c).ships[j]) {
      VoyageKept(s, c, j);
    }
    OneShipAtATime(s, c);
  }

  lemma VoyageKept(s: State, c: Choice, j: nat)
    requires Enabled(s, c) && j < |s.ships|
    ensures j < |Next(s, c).ships| && SameVoyage(s.ships[j], Next(s, c).ships[j])
  {
    if IsLockStep(c) {
      LockStepIs(s, c);
    } else {
      OthersKeepVoyage(s, c, j);
    }
    hide Enabled, Next, SameVoyage;
  }

  lemma OthersKeepVoyage(s: State, c: Choice, j: nat)
    requires Enabled(s, c) && !IsLockStep(c) && j < |s.ships|
    ensures j < |Next(s, c).ships| && SameVoyage(s.ships[j], Next(s, c).ships[j])
  {
    hide Locate, Arrived, ShipAfter, SameVoyage, StagePath, ProcAfter, DirAfter, EventsOf;
    if c.AskLock? || c.Hear? || c.Upload? || c.GiveUp? { OwnStepKeepsVoyage(s, c); }
    assert SameVoyage(s.ships[j], s.ships[j]) by { Unmoved(s.ships[j]); }
  }

  lemma Unmoved(x: Ship)
    ensures SameVoyage(x, x)
  {
  }

  lemma OwnStepKeepsVoyage(s: State, c: Choice)
    requires Enabled(s, c) && (c.AskLock? || c.Hear? || c.Upload? || c.GiveUp?)
    ensures c.k < |s.ships| && SameVoyage(s.ships[c.k], ShipAfter(s, c))
  {
    hide Locate, Lands, StagePath;
  }

  lemma StillDelivered(log: seq<Event>, log': seq<Event>, x: Ship, y: Ship)
    requires Delivered(log, x) && log <= log' && SameVoyage(x, y)
    ensures Delivered(log', y)
  {
    var i :| 0 <= i < |log| && DeliveredAt(log, i, x);
    assert DeliveredAt(log', i, y);
  }

  // A ship's own steps, and everybody else's.

  lemma OwnAsk(s: State, k: nat)
    requires Enabled(s, AskLock(k)) && ShipHonest(s, s.ships[k]) && ShipsOk(s)
    ensures k < |Next(s, AskLock(k)).ships| && ShipHonest(Next(s, AskLock(k)), Next(s, AskLock(k)).ships[k])
  {
    assert ShipOk(s, s.ships[k]);
    hide Locate, StagePath;
  }

  lemma OwnHear(s: State, k: nat)
    requires Enabled(s, Hear(k)) && ShipHonest(s, s.ships[k]) && MovesHonest(s)
    ensures k < |Next(s, Hear(k)).ships| && ShipHonest(Next(s, Hear(k)), Next(s, Hear(k)).ships[k])
  {
    var s' := Next(s, Hear(k));
    var x := s.ships[k];
    hide Locate, StagePath;
    assert MoveHonest(s.procs[x.child.value]);
    if x.next == 2 && s'.ships[k].next == 3 {
      assert Delivered(s.log, x);
      StillDelivered(s.log, s'.log, x, s'.ships[k]);
    } else if s'.ships[k].next == x.next {
      SameChild(s, s', x, s'.ships[k]);
    }
  }

  lemma OwnUpload(s: State, k: nat, sent: Data, whole: bool)
    requires Enabled(s, Upload(k, sent, whole)) && ShipHonest(s, s.ships[k]) && ShipsOk(s)
    ensures var s' := Next(s, Upload(k, sent, whole)); k < |s'.ships| && ShipHonest(s', s'.ships[k])
  {
    UploadLands(s, k, sent, whole);
    assert s.ships[k].next == 1;
    hide Locate, StagePath, Lands;
  }

  /** What is known of a ship's child does not depend on whether the ship has given up. */
  lemma SameChild(s: State, s': State, x: Ship, y: Ship)
    requires ChildOk(s, x) && SameVoyage(x, y) && s'.procs == s.procs && s'.log == s.log && s'.workdir == s.workdir
    requires y.child == x.child && y.next == x.next
    ensures ChildOk(s', y)
  {
    if Delivered(s.log, x) { StillDelivered(s.log, s'.log, x, y); }
  }

  lemma OwnGiveUp(s: State, k: nat)
    requires Enabled(s, GiveUp(k)) && ShipHonest(s, s.ships[k])
    ensures k < |Next(s, GiveUp(k)).ships| && ShipHonest(Next(s, GiveUp(k)), Next(s, GiveUp(k)).ships[k])
  {
    var s' := Next(s, GiveUp(k));
    hide Locate, StagePath;
    SameChild(s, s', s.ships[k], s'.ships[k]);
  }

  predicate OwnStep(c: Choice, k: nat) { (c.AskLock? || c.Hear? || c.Upload? || c.GiveUp?) && c.k == k }

  lemma OthersKeepShip(s: State, c: Choice, k: nat)
    requires Enabled(s, c) && k < |s.ships| && !OwnStep(c, k)
    ensures k < |Next(s, c).ships| && Next(s, c).ships[k] == s.ships[k] && Next(s, c).workdir == s.workdir
  {
    if IsLockStep(c) {
      LockStepIs(s, c);
      hide Enabled, Next;
    } else {
      hide Locate, ShipAfter, Arrived;
    }
  }

  lemma OthersKeepStage(s: State, c: Choice, k: nat)
    requires Enabled(s, c) && ShipsOk(s) && k < |s.ships| && Sole(s, k) && !OwnStep(c, k) && HoldsOwn(s, s.ships[k])
    ensures HoldsOwn(Next(s, c), s.ships[k])
  {
    if c.Upload? {
      UploadLands(s, c.k, c.sent, c.whole);
      assert s.ships[c.k].staging.token != s.ships[k].staging.token || s.ships[c.k].staging.name != s.ships[k].staging.name;
      hide Enabled, Next;
    } else if IsLockStep(c) {
      LockStepIs(s, c);
      LockStepKeepsStage(s, c, s.ships[k]);
      hide Enabled, Next, DirAfter, ProcAfter, EventsOf;
    } else {
      SameFilesAside(s, c);
      hide Enabled, Next;
    }
  }

  lemma LockStepKeepsStage(s: State, c: Choice, x: Ship)
    requires Enabled(s, c) && IsLockStep(c) && HoldsOwn(s, x)
    ensures HoldsOwn(s.(dir := DirAfter(s, c)), x)
  {
    hide Locate, OperationGateFree, MetadataGateFree;
  }

  /** A lock process keeps what it was started with, and only carrying out its own move
      gives it a result. */
  lemma ProcessIsItself(s: State, c: Choice, p: nat)
    requires Enabled(s, c) && p < |s.procs|
    ensures p < |Next(s, c).procs|
    ensures var x, y := s.procs[p], Next(s, c).procs[p];
            && y.action == x.action && y.token == x.token && y.runId == x.runId && y.command == x.command
            && (c != CarryOut(p) ==> y.result == x.result)
  {
    hide Enabled, Next;
    if Aside(c) {
      AsideProcs(s, c);
    } else if Arrives(c) {
      ArrivalIs(s, c);
    } else {
      LockStepIs(s, c);
      MoverIsItself(s, c);
      ResultByCarryOut(s, c);
      hide ProcAfter, DirAfter, EventsOf;
    }
  }

  lemma ResultByCarryOut(s: State, c: Choice)
    requires Enabled(s, c) && IsLockStep(c)
    ensures c.p < |s.procs| && (!c.CarryOut? ==> ProcAfter(s, c).result == s.procs[c.p].result)
  {
    hide Movable, Reclaimable, Holds, Expired, OperationGateFree, MetadataGateFree;
  }

  /** The move of a ship's own child delivers the ship's own contents. */
  lemma MoveDelivers(s: State, k: nat)
    requires k < |s.ships| && s.ships[k].next == 2 && s.ships[k].child.Some? && Enabled(s, CarryOut(s.ships[k].child.value))
    requires ShipOk(s, s.ships[k]) && HoldsOwn(s, s.ships[k]) && ChildOk(s, s.ships[k])
    ensures var s' := Next(s, CarryOut(s.ships[k].child.value));
            s'.procs[s.ships[k].child.value].result == Some(0) ==> Delivered(s'.log, s.ships[k])
  {
    var x := s.ships[k];
    var s' := Next(s, CarryOut(x.child.value));
    StageIsLocated(s.workdir, x.staging.token, x.staging.name);
    assert Locate(s.workdir, x.dest) == Elsewhere(Resolve(x.dest));
    hide Locate, StagePath;
    if s'.procs[x.child.value].result == Some(0) {
      assert DeliveredAt(s'.log, |s.log|, x);
    }
  }

  lemma LogOnlyGrows(s: State, c: Choice)
    requires Enabled(s, c) && ShipsOk(s)
    ensures s.log <= Next(s, c).log
  {
    LogStep(s, c);
  }

  lemma OthersKeepChild(s: State, c: Choice, k: nat)
    requires Enabled(s, c) && ShipsOk(s) && k < |s.ships| && !OwnStep(c, k) && HoldsOwn(s, s.ships[k]) && ChildOk(s, s.ships[k])
    ensures ChildOk(Next(s, c), s.ships[k])
  {
    var x := s.ships[k];
    OthersKeepShip(s, c, k);
    LogOnlyGrows(s, c);
    if x.child.Some? && x.next == 2 {
      var p := x.child.value;
      ProcessIsItself(s, c, p);
      if c == CarryOut(p) {
        assert ShipOk(s, x);
        MoveDelivers(s, k);
      } else if Delivered(s.log, x) {
        StillDelivered(s.log, Next(s, c).log, x, x);
      }
      hide Enabled, Next;
    }
  }

  lemma ShipStaysHonest(s: State, c: Choice, k: nat)
    requires Enabled(s, c) && ShipsOk(s) && MovesHonest(s) && k < |s.ships| && Sole(s, k) && ShipHonest(s, s.ships[k])
    ensures k < |Next(s, c).ships| && ShipHonest(Next(s, c), Next(s, c).ships[k])
  {
    hide Enabled, Next, ShipHonest, ShipsOk, MovesHonest, Sole;
    if OwnStep(c, k) {
      match c
      case AskLock(_) => OwnAsk(s, k);
      case Hear(_) => OwnHear(s, k);
      case Upload(_, sent, whole) => OwnUpload(s, k, sent, whole);
      case GiveUp(_) => OwnGiveUp(s, k);
    } else {
      OthersKeepHonest(s, c, k);
    }
  }

  lemma OthersKeepHonest(s: State, c: Choice, k: nat)
    requires Enabled(s, c) && ShipsOk(s) && k < |s.ships| && Sole(s, k) && ShipHonest(s, s.ships[k]) && !OwnStep(c, k)
    ensures k < |Next(s, c).ships| && ShipHonest(Next(s, c), Next(s, c).ships[k])
  {
    hide Enabled, Next, HoldsOwn, ChildOk, ShipsOk, Sole;
    var x := s.ships[k];
    OthersKeepShip(s, c, k);
    OthersKeepStage(s, c, k);
    OthersKeepChild(s, c, k);
    LogOnlyGrows(s, c);
    if x.next == 3 { StillDelivered(s.log, Next(s, c).log, x, x); }
  }

  lemma NewShipIsHonest(s: State, c: Choice, k: nat)
    requires Enabled(s, c) && k == |s.ships| && k < |Next(s, c).ships|
    ensures ShipHonest(Next(s, c), Next(s, c).ships[k])
  {
    hide Locate, Lands, Movable;
  }

  lemma {:induction false} VoyagesLast(s: State, cs: seq<Choice>)
    requires IsRun(s, cs)
    ensures |s.ships| <= |Run(s, cs).ships| && forall j :: 0 <= j < |s.ships| ==> SameVoyage(s.ships[j], Run(s, cs).ships[j])
    decreases |cs|
  {
    hide Enabled, Next;
    if cs != [] {
      ShipsGrow(s, cs[0]);
      VoyagesLast(Next(s, cs[0]), cs[1..]);
    }
  }

  lemma SoleBefore(s: State, f: State, k: nat)
    requires k < |s.ships| <= |f.ships| && Sole(f, k)
    requires forall j :: 0 <= j < |s.ships| ==> SameVoyage(s.ships[j], f.ships[j])
    ensures Sole(s, k)
  {
    forall j | 0 <= j < |s.ships| && j != k
      ensures s.ships[j].staging.token != s.ships[k].staging.token || s.ships[j].staging.name != s.ships[k].staging.name
    {
      assert SameVoyage(s.ships[j], f.ships[j]) && SameVoyage(s.ships[k], f.ships[k]);
    }
  }

  lemma OneShipAtATime(s: State, c: Choice)
    requires Enabled(s, c)
    ensures |s.ships| <= |Next(s, c).ships| <= |s.ships| + 1
  {
    hide Locate, ShipAfter, LockStep, Arrived;
    if IsLockStep(c) { LockStepIs(s, c); }
  }

  lemma {:induction false} SoleShipsStayHonest(s: State, cs: seq<Choice>, k0: Ledger, k: nat)
    requires Inv(s, k0) && MovesHonest(s) && IsRun(s, cs) && k < |Run(s, cs).ships| && Sole(Run(s, cs), k)
    requires k < |s.ships| ==> ShipHonest(s, s.ships[k])
    ensures ShipHonest(Run(s, cs), Run(s, cs).ships[k])
    decreases |cs|
  {
    if cs != [] {
      var c := cs[0];
      var s' := Next(s, c);
      assert ShipsOk(s) && forall p :: 0 <= p < |s.procs| ==> Shaped(s.procs[p]);
      VoyagesLast(s, cs);
      StepKeeps(s, c, k0);
      MovesStayHonest(s, c);
      OneShipAtATime(s, c);
      hide Inv, Enabled, Next, ShipHonest, Sole, MovesHonest, ShipsOk, Shaped;
      if k < |s.ships| {
        SoleBefore(s, Run(s, cs), k);
        ShipStaysHonest(s, c, k);
      } else if k < |s'.ships| {
        NewShipIsHonest(s, c, k);
      }
      SoleShipsStayHonest(s', cs[1..], k0, k);
    }
  }

  /** Staged shipping, end to end: a ship that has reported exit 0 put its own contents at
      its destination. The history has that change under the ship's own token and run id,
      after an owner check of theirs with no removal in between, and unless a later guarded
      change went to the same place the VM still holds those contents there. The ship's
      stage name has to be its own, which the pid and time stamp in it are meant to ensure. */
  lemma ReportedShipsHaveArrived(s: State, cs: seq<Choice>, k: nat) returns (i: nat, n: nat)
    requires Start(s) && IsRun(s, cs) && k < |Run(s, cs).ships| && Sole(Run(s, cs), k)
    requires Run(s, cs).ships[k].next == 3
    ensures var f := Run(s, cs); var x := f.ships[k];
            && i < |f.log| && DeliveredAt(f.log, i, x)
            && AdmittedAt(f.log[..i], n, x.staging.token, x.runId)
            && ((forall j :: i < j < |f.log| && f.log[j].Mutated? ==> f.log[j].change.at != Resolve(x.dest)) ==>
                  Resolve(x.dest) in f.vm && f.vm[Resolve(x.dest)] == x.data)
  {
    assert Inv(s, Opening(s));
    SoleShipsStayHonest(s, cs, Opening(s), k);
    EveryRunIsAccounted(s, cs);
    var f := Run(s, cs);
    var x := f.ships[k];
    hide Run, IsRun, Inv;
    i :| 0 <= i < |f.log| && DeliveredAt(f.log, i, x);
    n :| 0 <= n < |f.log[..i]| && AdmittedAt(f.log[..i], n, x.staging.token, x.runId);
    if forall j :: i < j < |f.log| && f.log[j].Mutated? ==> f.log[j].change.at != Resolve(x.dest) {
      LastChangeHolds(s.vm, f.log, i);
    }
  }

  /** A ship's move, carried out: the staged file is at the destination and no longer in the
      stage, or nothing has changed and the move has failed. */
  lemma MoveCarriedOut(s: State, p: nat, token: Token, name: string, dest: string)
    requires Enabled(s, CarryOut(p)) && Plain(name) && Locate(s.workdir, dest).Elsewhere?
    requires s.procs[p].command == Move(StagePath(s.workdir, token, name), dest)
    ensures var s' := Next(s, CarryOut(p));
            && |s'.procs| == |s.procs|
            && if s.dir.Present? && token in s.dir.stages && name in s.dir.stages[token] then
                 && s'.procs[p].result == Some(0)
                 && s'.vm == s.vm[Resolve(dest) := s.dir.stages[token][name]]
                 && s'.dir == s.dir.(stages := s.dir.stages[token := s.dir.stages[token] - {name}])
               else s'.procs[p].result == Some(1) && s'.vm == s.vm && s'.dir == s.dir
  {
    StageIsLocated(s.workdir, token, name);
    assert Locate(s.workdir, dest) == Elsewhere(Resolve(dest));
    hide Locate, StagePath;
  }

  // ----- from the line to the process --------------------------------------------------------------

  /** A ship's guarded command, wrapped by the dispatcher under its lease and read word by
      word, orders just the process the machine starts for it: an Invoke of its own token and
      run id, for the command the line hands over. */
  lemma LinesStartProcesses(s: State, k: nat, l: Identity, src: string)
    requires Enabled(s, AskLock(k)) && !s.ships[k].scripted
    requires l.token == s.ships[k].staging.token && l.runId == s.ships[k].runId
    ensures var x := s.ships[k];
            var call := Plan(true, src, x.dest, Some(x.staging))[x.next];
            && call.Vm?
            && var order := ReadOrder(LockCommand(Some(l), Render(call.command)));
               && order.Some? && ReadParts(order.value.command).Some? && order.value.script == l.script
               && |Next(s, AskLock(k)).procs| == |s.procs| + 1
               && var p := Next(s, AskLock(k)).procs[|s.procs|];
                  && p.action == Invoke && p.token == order.value.token && p.runId == order.value.runId
                  && p.command == Meaning(ReadParts(order.value.command).value)
  {
    var x := s.ships[k];
    var plan := Plan(true, src, x.dest, Some(x.staging));
    PlansAreShipSteps(src, x.dest, "", x.staging, x.next);
    hide ReadOrder, LockCommand, Render, ReadParts, Composed, StagePath, Locate, Meaning;
    var call := plan[x.next];
    LockCommandOrders(l, Render(call.command));
    CommandsCompose(StagePath(x.staging.workdir, x.staging.token, x.staging.name), x.dest, "");
    CommandRoundTrip(call.command);
  }
}
