/** The invariant of the lease protocol, and what follows from it for every run. */
module LeaseSafety {
  import opened Prelude
  import opened Paths
  import opened LeaseLedger
  import opened Shipping
  import opened LeaseProtocol

  predicate InCommand(pc: Pc) {
    pc == Running || pc == WantMetadataAgain || pc == Rechecking || pc == Refreshing
  }

  /** A process has a program counter its action can reach. */
  predicate Shaped(x: Proc) {
    match x.pc
    case WantOperationGate => UsesOperationGate(x.action)
    case Removing => x.action == Acquire || x.action == Release
    case MakingDirectory => x.action == Acquire
    case MakingStage => x.action == Acquire
    case Writing => x.action == Acquire || x.action == Renew
    case Running => x.action == Invoke
    case WantMetadataAgain => x.action == Invoke
    case Rechecking => x.action == Invoke
    case Refreshing => x.action == Invoke
    case _ => true
  }

  /** The clock value a process read is at or after everything recorded, until it
      lets go of the metadata gate. */
  predicate Current(s: State, k: Ledger, x: Proc) {
    k.lastAt <= x.now <= s.clock
  }

  /** What the lock directory looks like to a process, given its program counter. */
  predicate Sees(s: State, k: Ledger, x: Proc) {
    var owner := OwnerOf(s.dir);
    && (InCommand(x.pc) ==> Holds(owner, x.token, x.runId))
    && match x.pc
       case Removing =>
         && s.dir.Present? && Current(s, k, x)
         && (owner.Some? ==>
               if x.action == Acquire then Expired(owner.value, x.now)
               else Holds(owner, x.token, x.runId))
         && (x.action == Release && owner.None? ==> x.emptied)
       case MakingDirectory => s.dir.Absent? && Current(s, k, x)
       case MakingStage => s.dir.Present? && owner.None? && s.dir.stages == map[] && Current(s, k, x)
       case Writing =>
         && s.dir.Present? && Current(s, k, x)
         && (if x.action == Acquire then owner.None? && s.dir.stages.Keys == {x.token}
             else x.stored == owner && Holds(owner, x.token, x.runId))
       case Refreshing => x.stored == owner && Current(s, k, x)
       case _ => true
  }

  /** An acquisition still under way has a token nobody owned before. */
  predicate Fresh(s: State, k: Ledger, x: Proc) {
    x.action == Acquire ==>
      x.token in s.issued && (!Ended(x.pc) && x.pc != Leaving ==> x.token !in k.spent)
  }

  predicate OneMetadataHolder(s: State) {
    forall p, q :: 0 <= p < q < |s.procs| ==> !(HoldsMetadata(s.procs[p]) && HoldsMetadata(s.procs[q]))
  }

  predicate OperationShared(s: State) {
    forall p, q :: 0 <= p < q < |s.procs| && HoldsOperation(s.procs[p]) && HoldsOperation(s.procs[q])
                   ==> Compatible(s.procs[p], s.procs[q])
  }

  predicate TokensDistinct(s: State) {
    forall p, q :: 0 <= p < q < |s.procs| && s.procs[p].action == Acquire && s.procs[q].action == Acquire
                   ==> s.procs[p].token != s.procs[q].token
  }

  /** Every ship sends from and to the places it was begun with: a plain name in its own
      token's stage, a destination outside the lock directory. */
  predicate ShipOk(s: State, x: Ship) {
    x.staging.workdir == s.workdir && Plain(x.staging.name) && Locate(s.workdir, x.dest).Elsewhere?
  }

  predicate ShipsOk(s: State) { forall k :: 0 <= k < |s.ships| ==> ShipOk(s, s.ships[k]) }

  predicate Gates(s: State) {
    OneMetadataHolder(s) && OperationShared(s) && TokensDistinct(s)
  }

  predicate Recorded(s: State, k: Ledger) {
    k.lease == OwnerOf(s.dir) && k.lastAt <= s.clock && k.spent <= s.issued
  }

  predicate ProcOk(s: State, k: Ledger, x: Proc) {
    Shaped(x) && Sees(s, k, x) && Fresh(s, k, x)
  }

  predicate Inv(s: State, k0: Ledger) {
    && Sound(k0) && Legal(k0, s.log)
    && Gates(s) && ShipsOk(s)
    && var k := Replay(k0, s.log);
       Recorded(s, k) && forall p :: 0 <= p < |s.procs| ==> ProcOk(s, k, s.procs[p])
  }

  // ----- the gates ------------------------------------------------------------

  /** A step of one process keeps the gates exclusive if whatever that process newly
      holds was free. */
  lemma OneMoves(s: State, s': State, p: nat)
    requires Gates(s) && p < |s.procs| && |s'.procs| == |s.procs|
    requires forall q :: 0 <= q < |s.procs| && q != p ==> s'.procs[q] == s.procs[q]
    requires s'.procs[p].action == s.procs[p].action && s'.procs[p].token == s.procs[p].token
    requires HoldsMetadata(s'.procs[p]) ==> HoldsMetadata(s.procs[p]) || MetadataGateFree(s, p)
    requires HoldsOperation(s'.procs[p]) ==> HoldsOperation(s.procs[p]) || OperationGateFree(s, p)
    ensures Gates(s')
  {
  }

  /** What a newcomer holds: nothing. */
  lemma NewcomerKeepsGates(s: State, s': State, x: Proc)
    requires Gates(s) && s'.procs == s.procs + [x] && x.pc == FirstPc(x.action)
    requires x.action == Acquire ==>
               forall p :: 0 <= p < |s.procs| && s.procs[p].action == Acquire ==> s.procs[p].token != x.token
    ensures Gates(s')
  {
    assert !HoldsMetadata(x) && !HoldsOperation(x);
    hide HoldsMetadata, HoldsOperation;
  }

  lemma SpawnKeepsGates(s: State, c: Choice)
    requires Enabled(s, c) && Arrives(c) && Gates(s)
    requires forall p :: 0 <= p < |s.procs| && s.procs[p].action == Acquire ==> s.procs[p].token in s.issued
    ensures Gates(Next(s, c))
  {
    var s' := Next(s, c);
    assert s'.procs == s.procs + [s'.procs[|s.procs|]];
    assert s'.procs[|s.procs|].action == Acquire ==> c.Spawn? && s'.procs[|s.procs|].token !in s.issued;
    hide Enabled, Next, Gates, Locate;
    NewcomerKeepsGates(s, s', s'.procs[|s.procs|]);
  }

  predicate IsLockStep(c: Choice) { !Arrives(c) && !Aside(c) }

  /** What a lock process's step amounts to. */
  lemma LockStepIs(s: State, c: Choice)
    requires Enabled(s, c) && IsLockStep(c)
    ensures c.p < |s.procs|
    ensures Next(s, c) == s.(procs := s.procs[c.p := ProcAfter(s, c)], dir := DirAfter(s, c),
                             vm := FilesWith(s.vm, EventsOf(s, c)), log := s.log + EventsOf(s, c))
  {
    hide ProcAfter, DirAfter, EventsOf, FilesWith, Locate;
  }

  /** What an arrival amounts to: one process more, and for a ship that it waits for it. */
  lemma ArrivalIs(s: State, c: Choice)
    requires Enabled(s, c) && Arrives(c)
    ensures var s' := Next(s, c);
            && |s'.procs| == |s.procs| + 1 && s'.procs == s.procs + [s'.procs[|s.procs|]]
            && s' == s.(procs := s'.procs, ships := s'.ships, issued := s'.issued)
            && s'.procs[|s.procs|].pc == FirstPc(s'.procs[|s.procs|].action)
            && s'.procs[|s.procs|].exit == 0 && s'.procs[|s.procs|].result.None?
            && (s'.procs[|s.procs|].command.Move? ==> s'.procs[|s.procs|].action == Invoke)
  {
    hide Locate, StagePath, UsesOperationGate;
  }

  lemma AsideProcs(s: State, c: Choice)
    requires Enabled(s, c) && Aside(c)
    ensures Next(s, c).procs == s.procs && Next(s, c).log == s.log && s.clock <= Next(s, c).clock
  {
    hide Locate, Arrived, ShipAfter;
  }

  /** A process keeps what it was started with. */
  predicate Itself(x: Proc, y: Proc) {
    y.action == x.action && y.token == x.token && y.runId == x.runId && y.seconds == x.seconds && y.command == x.command
  }

  lemma MoverIsItself(s: State, c: Choice)
    requires Enabled(s, c) && IsLockStep(c)
    ensures c.p < |s.procs| && Itself(s.procs[c.p], ProcAfter(s, c))
  {
    hide Movable, Holds, Expired;
  }

  /** What a process newly holds was free. */
  predicate TookFree(s: State, c: Choice)
    requires Enabled(s, c) && IsLockStep(c)
  {
    && c.p < |s.procs|
    && (HoldsMetadata(ProcAfter(s, c)) ==> HoldsMetadata(s.procs[c.p]) || MetadataGateFree(s, c.p))
    && (HoldsOperation(ProcAfter(s, c)) ==> HoldsOperation(s.procs[c.p]) || OperationGateFree(s, c.p))
  }

  predicate OpensGate(c: Choice) { c.OpenOperationGate? || c.OpenMetadataGate? }

  lemma OpenersTookFree(s: State, c: Choice)
    requires Enabled(s, c) && OpensGate(c)
    ensures TookFree(s, c)
  {
  }

  lemma HoldersTookNothing(s: State, c: Choice)
    requires Enabled(s, c) && IsLockStep(c) && !OpensGate(c)
    ensures TookFree(s, c)
  {
    hide OperationGateFree, MetadataGateFree, Movable, Holds, Expired;
  }

  lemma MoverTookFree(s: State, c: Choice)
    requires Enabled(s, c) && IsLockStep(c)
    ensures TookFree(s, c)
  {
    hide Enabled, TookFree;
    if OpensGate(c) { OpenersTookFree(s, c); } else { HoldersTookNothing(s, c); }
  }

  lemma MoverGates(s: State, c: Choice)
    requires Enabled(s, c) && IsLockStep(c) && Gates(s)
    ensures Gates(Next(s, c))
  {
    hide Next, Enabled, Gates, ProcAfter, DirAfter, EventsOf, FilesWith, HoldsMetadata, HoldsOperation;
    LockStepIs(s, c);
    MoverIsItself(s, c);
    MoverTookFree(s, c);
    OneMoves(s, Next(s, c), c.p);
  }

  lemma AsideGates(s: State, c: Choice)
    requires Enabled(s, c) && Aside(c) && Gates(s)
    ensures Next(s, c).procs == s.procs && Gates(Next(s, c))
  {
    hide Locate, ShipAfter, Arrived;
  }

  lemma GatesKept(s: State, c: Choice)
    requires Enabled(s, c) && Gates(s)
    requires forall p :: 0 <= p < |s.procs| && s.procs[p].action == Acquire ==> s.procs[p].token in s.issued
    ensures Gates(Next(s, c))
  {
    hide Enabled, Next, Gates;
    if Arrives(c) {
      SpawnKeepsGates(s, c);
    } else if Aside(c) {
      AsideGates(s, c);
    } else {
      MoverGates(s, c);
    }
  }

  // ----- one step -----------------------------------------------------------------

  /** A process the step does not touch still sees what it saw, when the directory
      and the ledger did not change under it. */
  lemma OthersUndisturbed(s: State, s': State, k: Ledger, k': Ledger, x: Proc)
    requires ProcOk(s, k, x)
    requires OwnerOf(s.dir) == OwnerOf(s'.dir) && s.dir.Present? == s'.dir.Present?
    requires s.dir.Present? ==> s.dir.stages.Keys == s'.dir.stages.Keys
    requires s.clock <= s'.clock && s.issued <= s'.issued
    requires k'.spent == k.spent
    requires k'.lastAt == k.lastAt || !HoldsMetadata(x)
    ensures ProcOk(s', k', x)
  {
  }

  /** While a process changes the owner or the directory itself, nobody else is
      inside a command and nobody else holds the metadata gate. */
  lemma NobodyElseInside(s: State, p: nat, q: nat)
    requires Gates(s) && p < |s.procs| && q < |s.procs| && p != q
    requires HoldsMetadata(s.procs[p])
    ensures !HoldsMetadata(s.procs[q])
    ensures s.procs[p].action in {Acquire, Release} && Shaped(s.procs[q]) ==> !InCommand(s.procs[q].pc)
  {
  }

  /** What a process outside the metadata gate and outside any command relies on: nothing
      but the token of an acquisition under way. */
  lemma OutsidersSeeNothing(s: State, s': State, k: Ledger, k': Ledger, x: Proc)
    requires ProcOk(s, k, x) && !HoldsMetadata(x) && !InCommand(x.pc)
    requires s.issued <= s'.issued && (x.action == Acquire && x.token in k'.spent ==> x.token in k.spent)
    ensures ProcOk(s', k', x)
  {
  }

  // A lock process's step, by what it changes.

  predicate Quiet(c: Choice) { OpensGate(c) || c.Finish? || c.Recheck? || c.Leave? || c.Die? }

  predicate Commands(c: Choice) { c.Mutate? || c.CarryOut? }

  predicate Removes(c: Choice) { c.RemoveOwner? || c.RemoveStage? || c.RemoveDirectory? }

  predicate Makes(c: Choice) { c.MakeDirectory? || c.MakeStage? }

  predicate Writes(c: Choice) { c.WriteOwner? || c.Refresh? }

  /** The ledger after a step's events, of which there is at most one. */
  function LedgerAfter(k: Ledger, events: seq<Event>): Ledger {
    if events == [] then k else After(k, events[0])
  }

  /** A step's event is one the history allows, and the record on disk goes with it. */
  predicate Accounts(s: State, c: Choice, k: Ledger)
    requires Enabled(s, c) && IsLockStep(c)
  {
    var events := EventsOf(s, c);
    var k' := LedgerAfter(k, events);
    && (events == [] || (|events| == 1 && Allowed(k, events[0])))
    && k'.lease == OwnerOf(DirAfter(s, c)) && k'.lastAt <= s.clock && k'.spent <= s.issued
  }

  lemma QuietAccounts(s: State, c: Choice, k: Ledger)
    requires Enabled(s, c) && Quiet(c) && Recorded(s, k)
    ensures Accounts(s, c, k)
  {
    hide OperationGateFree, MetadataGateFree;
  }

  lemma CheckAccounts(s: State, c: Choice, k: Ledger)
    requires Enabled(s, c) && c.Check? && Recorded(s, k)
    ensures Accounts(s, c, k)
    ensures LedgerAfter(k, EventsOf(s, c)).spent == k.spent && LedgerAfter(k, EventsOf(s, c)).lastAt in {k.lastAt, s.clock}
  {
  }

  lemma CommandAccounts(s: State, c: Choice, k: Ledger)
    requires Enabled(s, c) && Commands(c) && Recorded(s, k) && Sees(s, k, s.procs[c.p])
    ensures Accounts(s, c, k)
    ensures LedgerAfter(k, EventsOf(s, c)).spent == k.spent && LedgerAfter(k, EventsOf(s, c)).lastAt == k.lastAt
  {
    hide Locate;
  }

  lemma RemovalAccounts(s: State, c: Choice, k: Ledger)
    requires Enabled(s, c) && (Removes(c) || Makes(c)) && Recorded(s, k) && Sees(s, k, s.procs[c.p])
    ensures Accounts(s, c, k) && LedgerAfter(k, EventsOf(s, c)).spent == k.spent
  {
  }

  lemma WriteAccounts(s: State, c: Choice, k: Ledger)
    requires Enabled(s, c) && Writes(c) && Recorded(s, k) && ProcOk(s, k, s.procs[c.p])
    ensures Accounts(s, c, k)
    ensures var x := s.procs[c.p];
            LedgerAfter(k, EventsOf(s, c)).spent <= k.spent + (if c.WriteOwner? && x.action == Acquire then {x.token} else {})
  {
  }

  /** After its step the process still relies on nothing that is not so. */
  predicate MoverOk(s: State, c: Choice, k: Ledger)
    requires Enabled(s, c) && IsLockStep(c)
  {
    ProcOk(s.(dir := DirAfter(s, c)), LedgerAfter(k, EventsOf(s, c)), ProcAfter(s, c))
  }

  lemma OpenersOk(s: State, c: Choice, k: Ledger)
    requires Enabled(s, c) && OpensGate(c) && ProcOk(s, k, s.procs[c.p])
    ensures MoverOk(s, c, k)
  {
    hide OperationGateFree, MetadataGateFree;
  }

  lemma RecheckerOk(s: State, c: Choice, k: Ledger)
    requires Enabled(s, c) && c.Recheck? && Recorded(s, k) && ProcOk(s, k, s.procs[c.p])
    ensures MoverOk(s, c, k)
  {
  }

  lemma LeaverOk(s: State, c: Choice, k: Ledger)
    requires Enabled(s, c) && (c.Finish? || c.Leave? || c.Die?) && ProcOk(s, k, s.procs[c.p])
    ensures MoverOk(s, c, k)
  {
  }

  lemma CheckerOk(s: State, c: Choice, k: Ledger)
    requires Enabled(s, c) && c.Check? && Recorded(s, k) && ProcOk(s, k, s.procs[c.p])
    ensures MoverOk(s, c, k)
  {
    CheckAccounts(s, c, k);
    hide Allowed;
  }

  lemma CommanderOk(s: State, c: Choice, k: Ledger)
    requires Enabled(s, c) && Commands(c) && Recorded(s, k) && ProcOk(s, k, s.procs[c.p])
    ensures MoverOk(s, c, k)
  {
    CommandAccounts(s, c, k);
    hide Locate, Allowed;
  }

  lemma RemoverOk(s: State, c: Choice, k: Ledger)
    requires Enabled(s, c) && Removes(c) && Recorded(s, k) && ProcOk(s, k, s.procs[c.p])
    ensures MoverOk(s, c, k)
  {
  }

  lemma MakerOk(s: State, c: Choice, k: Ledger)
    requires Enabled(s, c) && Makes(c) && Recorded(s, k) && ProcOk(s, k, s.procs[c.p])
    ensures MoverOk(s, c, k)
  {
  }

  lemma WriterOk(s: State, c: Choice, k: Ledger)
    requires Enabled(s, c) && Writes(c) && Recorded(s, k) && ProcOk(s, k, s.procs[c.p])
    ensures MoverOk(s, c, k)
  {
  }

  lemma StepAccounts(s: State, c: Choice, k: Ledger)
    requires Enabled(s, c) && IsLockStep(c) && Recorded(s, k) && c.p < |s.procs| && ProcOk(s, k, s.procs[c.p])
    ensures Accounts(s, c, k)
  {
    hide Enabled, Accounts, Recorded;
    if Quiet(c) { QuietAccounts(s, c, k); }
    else if Commands(c) { CommandAccounts(s, c, k); }
    else if Writes(c) { WriteAccounts(s, c, k); }
    else if c.Check? { CheckAccounts(s, c, k); }
    else { RemovalAccounts(s, c, k); }
  }

  lemma StepMoverOk(s: State, c: Choice, k: Ledger)
    requires Enabled(s, c) && IsLockStep(c) && Recorded(s, k) && c.p < |s.procs| && ProcOk(s, k, s.procs[c.p])
    ensures MoverOk(s, c, k)
  {
    hide Enabled, MoverOk, Recorded, ProcOk;
    if OpensGate(c) { OpenersOk(s, c, k); }
    else if c.Recheck? { RecheckerOk(s, c, k); }
    else if Quiet(c) { LeaverOk(s, c, k); }
    else if Commands(c) { CommanderOk(s, c, k); }
    else if Writes(c) { WriterOk(s, c, k); }
    else if c.Check? { CheckerOk(s, c, k); }
    else if Removes(c) { RemoverOk(s, c, k); }
    else { MakerOk(s, c, k); }
  }

  /** A bystander: the step is not its own, and its token not the mover's acquisition's. */
  predicate Bystander(s: State, c: Choice, k: Ledger, q: nat)
    requires Enabled(s, c) && IsLockStep(c)
  {
    && c.p < |s.procs| && q < |s.procs| && q != c.p && Gates(s)
    && Recorded(s, k) && ProcOk(s, k, s.procs[c.p]) && ProcOk(s, k, s.procs[q])
  }

  /** After somebody else's step it still relies on nothing that is not so. */
  predicate BystanderOk(s: State, c: Choice, k: Ledger, q: nat)
    requires Enabled(s, c) && IsLockStep(c) && q < |s.procs|
  {
    ProcOk(s.(dir := DirAfter(s, c)), LedgerAfter(k, EventsOf(s, c)), s.procs[q])
  }

  /** The step changes nothing of the lock directory but the contents of a stage. */
  lemma SameDirectory(s: State, c: Choice)
    requires Enabled(s, c) && (Quiet(c) || Commands(c) || c.Check?)
    ensures var d := DirAfter(s, c);
            OwnerOf(d) == OwnerOf(s.dir) && d.Present? == s.dir.Present? && (s.dir.Present? ==> d.stages.Keys == s.dir.stages.Keys)
  {
    hide Locate, OperationGateFree, MetadataGateFree;
  }

  /** What a step that leaves the directory alone does to the ledger; a check may move its
      clock, but then nobody else holds the metadata gate. */
  lemma QuietLedger(s: State, c: Choice, k: Ledger, q: nat)
    requires Enabled(s, c) && (Quiet(c) || Commands(c) || c.Check?) && IsLockStep(c) && Bystander(s, c, k, q)
    ensures var k' := LedgerAfter(k, EventsOf(s, c));
            k'.spent == k.spent && (k'.lastAt == k.lastAt || !HoldsMetadata(s.procs[q]))
  {
    if Quiet(c) {
      assert EventsOf(s, c) == [];
    } else if Commands(c) {
      CommandAccounts(s, c, k);
    } else {
      CheckAccounts(s, c, k);
      NobodyElseInside(s, c.p, q);
    }
    hide Gates, Accounts, Locate;
  }

  lemma QuietBystander(s: State, c: Choice, k: Ledger, q: nat)
    requires Enabled(s, c) && (Quiet(c) || Commands(c) || c.Check?) && IsLockStep(c) && Bystander(s, c, k, q)
    ensures BystanderOk(s, c, k, q)
  {
    hide Enabled, EventsOf, DirAfter, LedgerAfter, Gates, ProcOk, Recorded, HoldsMetadata, Quiet, Commands;
    SameDirectory(s, c);
    QuietLedger(s, c, k, q);
    OthersUndisturbed(s, s.(dir := DirAfter(s, c)), k, LedgerAfter(k, EventsOf(s, c)), s.procs[q]);
  }

  predicate LoneWork(s: State, c: Choice)
    requires Enabled(s, c)
  {
    Removes(c) || Makes(c) || (c.WriteOwner? && c.p < |s.procs| && s.procs[c.p].action == Acquire)
  }

  /** Whoever changes the owner or the directory is alone with it. */
  lemma LoneWorker(s: State, c: Choice, k: Ledger, q: nat)
    requires Enabled(s, c) && LoneWork(s, c) && IsLockStep(c) && Bystander(s, c, k, q)
    ensures !HoldsMetadata(s.procs[q]) && !InCommand(s.procs[q].pc)
    ensures s.procs[q].action == Acquire && s.procs[c.p].action == Acquire ==> s.procs[q].token != s.procs[c.p].token
  {
    assert Shaped(s.procs[q]) && Shaped(s.procs[c.p]) && HoldsMetadata(s.procs[c.p]);
    NobodyElseInside(s, c.p, q);
    hide Sees, Fresh, Recorded;
  }

  lemma LoneWorkerBystander(s: State, c: Choice, k: Ledger, q: nat)
    requires Enabled(s, c) && LoneWork(s, c) && IsLockStep(c) && Bystander(s, c, k, q)
    ensures BystanderOk(s, c, k, q)
  {
    hide Enabled, EventsOf, DirAfter, LedgerAfter, Gates, ProcOk, Recorded, LoneWork, HoldsMetadata, InCommand;
    LoneWorker(s, c, k, q);
    LoneSpends(s, c, k);
    OutsidersSeeNothing(s, s.(dir := DirAfter(s, c)), k, LedgerAfter(k, EventsOf(s, c)), s.procs[q]);
  }

  lemma LoneSpends(s: State, c: Choice, k: Ledger)
    requires Enabled(s, c) && LoneWork(s, c) && IsLockStep(c) && c.p < |s.procs| && Recorded(s, k) && ProcOk(s, k, s.procs[c.p])
    ensures LedgerAfter(k, EventsOf(s, c)).spent <= k.spent + if s.procs[c.p].action == Acquire then {s.procs[c.p].token} else {}
  {
    if c.WriteOwner? { WriteAccounts(s, c, k); } else { RemovalAccounts(s, c, k); }
    hide Enabled, EventsOf, DirAfter, LedgerAfter, Accounts, ProcOk, Recorded;
  }

  lemma RestampBystander(s: State, c: Choice, k: Ledger, q: nat)
    requires Enabled(s, c) && Writes(c) && (c.WriteOwner? ==> s.procs[c.p].action == Renew) && Bystander(s, c, k, q)
    ensures BystanderOk(s, c, k, q)
  {
    NobodyElseInside(s, c.p, q);
    assert !HoldsMetadata(s.procs[q]);
    hide Gates;
  }

  lemma StepBystander(s: State, c: Choice, k: Ledger, q: nat)
    requires Enabled(s, c) && IsLockStep(c) && Bystander(s, c, k, q)
    ensures BystanderOk(s, c, k, q)
  {
    assert Writes(c) ==> c.Refresh? || s.procs[c.p].action in {Acquire, Renew};
    hide Enabled, Bystander, BystanderOk;
    if Quiet(c) || Commands(c) || c.Check? { QuietBystander(s, c, k, q); }
    else if Writes(c) && (c.WriteOwner? ==> s.procs[c.p].action == Renew) { RestampBystander(s, c, k, q); }
    else { LoneWorkerBystander(s, c, k, q); }
  }

  lemma {:induction false} LogAfter(k0: Ledger, log: seq<Event>, events: seq<Event>)
    requires Legal(k0, log) && (events == [] || (|events| == 1 && Allowed(Replay(k0, log), events[0])))
    ensures Legal(k0, log + events) && Replay(k0, log + events) == LedgerAfter(Replay(k0, log), events)
  {
    if events == [] {
      assert log + events == log;
    } else {
      assert events == [events[0]];
      Extend(k0, log, events[0]);
    }
  }

  /** After a lock process's step everybody still relies on nothing that is not so. */
  lemma EveryoneOk(s: State, c: Choice, k: Ledger, s': State, q: nat)
    requires Enabled(s, c) && IsLockStep(c) && c.p < |s.procs| && q < |s.procs| && Recorded(s, k) && Gates(s)
    requires ProcOk(s, k, s.procs[c.p]) && ProcOk(s, k, s.procs[q])
    requires s'.dir == DirAfter(s, c) && s'.clock == s.clock && s'.issued == s.issued
    ensures ProcOk(s', LedgerAfter(k, EventsOf(s, c)), if q == c.p then ProcAfter(s, c) else s.procs[q])
  {
    hide Enabled, Gates, ProcAfter, DirAfter, EventsOf, LedgerAfter, ProcOk, Recorded;
    if q == c.p { StepMoverOk(s, c, k); } else { StepBystander(s, c, k, q); }
    SameView(s.(dir := DirAfter(s, c)), s', LedgerAfter(k, EventsOf(s, c)), if q == c.p then ProcAfter(s, c) else s.procs[q]);
  }

  lemma LockStepKeeps(s: State, c: Choice, k0: Ledger)
    requires Inv(s, k0) && Enabled(s, c) && IsLockStep(c)
    ensures Inv(Next(s, c), k0)
  {
    LockStepIs(s, c);
    var k := Replay(k0, s.log);
    assert Sound(k0) && Legal(k0, s.log) && Gates(s) && ShipsOk(s) && Recorded(s, k);
    assert ProcOk(s, k, s.procs[c.p]) && forall q :: 0 <= q < |s.procs| ==> ProcOk(s, k, s.procs[q]);
    hide Inv, Next, Enabled, Gates, Legal, Replay, ProcAfter, DirAfter, EventsOf, FilesWith, LedgerAfter, ProcOk, Allowed, ShipsOk, Sound;
    MoverGates(s, c);
    ShipsStay(s, c);
    StepAccounts(s, c, k);
    LogAfter(k0, s.log, EventsOf(s, c));
    var s' := Next(s, c);
    forall q | 0 <= q < |s'.procs| ensures ProcOk(s', Replay(k0, s'.log), s'.procs[q]) {
      EveryoneOk(s, c, k, s', q);
    }
    InvFrom(s', k0);
  }

  lemma InvFrom(s: State, k0: Ledger)
    requires Sound(k0) && Legal(k0, s.log) && Gates(s) && ShipsOk(s) && Recorded(s, Replay(k0, s.log))
    requires forall q :: 0 <= q < |s.procs| ==> ProcOk(s, Replay(k0, s.log), s.procs[q])
    ensures Inv(s, k0)
  {
  }

  /** What a process relies on is in the lock directory, the clock and the tokens handed out. */
  lemma SameView(s: State, s': State, k: Ledger, x: Proc)
    requires ProcOk(s, k, x) && s'.dir == s.dir && s'.clock == s.clock && s'.issued == s.issued
    ensures ProcOk(s', k, x)
  {
  }

  lemma SameShips(s: State, s': State)
    requires ShipsOk(s) && s'.ships == s.ships && s'.workdir == s.workdir
    ensures ShipsOk(s')
  {
    forall k | 0 <= k < |s'.ships| ensures ShipOk(s', s'.ships[k]) { assert ShipOk(s, s.ships[k]); }
  }

  lemma SpawnKeeps(s: State, c: Choice, k0: Ledger)
    requires Inv(s, k0) && Enabled(s, c) && Arrives(c)
    ensures Inv(Next(s, c), k0)
  {
    GatesKept(s, c);
    ShipsStay(s, c);
    var s' := Next(s, c);
    var k := Replay(k0, s.log);
    assert forall q :: 0 <= q < |s.procs| ==> ProcOk(s, k, s.procs[q]);
    NewcomerIsOk(s, c, k);
    hide Enabled, Next, Replay, Legal, Gates, ShipsOk, ProcOk;
    forall p | 0 <= p < |s'.procs| ensures ProcOk(s', k, s'.procs[p]) {
      if p < |s.procs| { OthersUndisturbed(s, s', k, k, s.procs[p]); }
    }
  }

  lemma NewcomerIsOk(s: State, c: Choice, k: Ledger)
    requires Enabled(s, c) && Arrives(c) && Recorded(s, k)
    ensures var s' := Next(s, c);
            && |s'.procs| == |s.procs| + 1 && s'.procs[..|s.procs|] == s.procs
            && s'.log == s.log && s'.dir == s.dir && s'.clock == s.clock && s.issued <= s'.issued
            && ProcOk(s', k, s'.procs[|s.procs|])
  {
    hide Locate;
  }

  /** A ship's file lands in its own token's stage, if that is there, and nowhere else. */
  lemma UploadLands(s: State, k: nat, sent: Data, whole: bool)
    requires Enabled(s, Upload(k, sent, whole)) && ShipsOk(s)
    ensures var s' := Next(s, Upload(k, sent, whole)); var x := s.ships[k].staging;
            && s'.vm == s.vm && s'.procs == s.procs && s'.log == s.log
            && s'.dir == if s.dir.Present? && x.token in s.dir.stages
                         then s.dir.(stages := s.dir.stages[x.token := s.dir.stages[x.token][x.name := sent]]) else s.dir
  {
    var x := s.ships[k];
    assert ShipOk(s, x);
    StageIsLocated(s.workdir, x.staging.token, x.staging.name);
    assert StepOfShip(x) == Send(StagePath(s.workdir, x.staging.token, x.staging.name));
    hide Locate, StagePath, ShipAfter;
  }

  lemma AsideQuiet(s: State, c: Choice)
    requires Enabled(s, c) && Aside(c) && ShipsOk(s)
    ensures var s' := Next(s, c);
            && s'.log == s.log && s'.procs == s.procs && s'.issued == s.issued && s.clock <= s'.clock
            && OwnerOf(s.dir) == OwnerOf(s'.dir) && s.dir.Present? == s'.dir.Present?
            && (s.dir.Present? ==> s.dir.stages.Keys == s'.dir.stages.Keys)
  {
    if c.Upload? { UploadLands(s, c.k, c.sent, c.whole); }
    hide Locate, Arrived, ShipsOk, Lands, ShipAfter;
  }

  lemma AsideKeeps(s: State, c: Choice, k0: Ledger)
    requires Inv(s, k0) && Enabled(s, c) && Aside(c)
    ensures Inv(Next(s, c), k0)
  {
    GatesKept(s, c);
    AsideQuiet(s, c);
    ShipsStay(s, c);
    hide Enabled, Next, Replay, Legal, Gates, ShipsOk;
    var s' := Next(s, c);
    var k := Replay(k0, s.log);
    forall q | 0 <= q < |s'.procs| ensures ProcOk(s', k, s'.procs[q]) {
      OthersUndisturbed(s, s', k, k, s.procs[q]);
    }
  }

  lemma ShipsStay(s: State, c: Choice)
    requires Enabled(s, c) && ShipsOk(s)
    ensures ShipsOk(Next(s, c)) && Next(s, c).workdir == s.workdir
  {
    if IsLockStep(c) {
      LockStepIs(s, c);
      hide Enabled, Next, ProcAfter, DirAfter, EventsOf, FilesWith;
      SameShips(s, Next(s, c));
    } else {
      ShipStepStays(s, c);
    }
  }

  lemma ShipStepStays(s: State, c: Choice)
    requires Enabled(s, c) && ShipsOk(s) && !IsLockStep(c)
    ensures ShipsOk(Next(s, c)) && Next(s, c).workdir == s.workdir
  {
    hide Locate, Plain, ShipStep, Arrived, Lands;
    forall k | 0 <= k < |Next(s, c).ships| ensures ShipOk(Next(s, c), Next(s, c).ships[k]) {
      if k < |s.ships| { assert ShipOk(s, s.ships[k]); }
    }
  }

  lemma StepKeeps(s: State, c: Choice, k0: Ledger)
    requires Inv(s, k0) && Enabled(s, c)
    ensures Inv(Next(s, c), k0)
  {
    hide Inv, Enabled, Next;
    if Arrives(c) { SpawnKeeps(s, c, k0); }
    else if Aside(c) { AsideKeeps(s, c, k0); }
    else { LockStepKeeps(s, c, k0); }
  }

  // ----- every run -------------------------------------------------------------------

  lemma {:induction false} RunKeeps(s: State, cs: seq<Choice>, k0: Ledger)
    requires Inv(s, k0) && IsRun(s, cs)
    ensures Inv(Run(s, cs), k0)
    decreases |cs|
  {
    if cs != [] {
      StepKeeps(s, cs[0], k0);
      RunKeeps(Next(s, cs[0]), cs[1..], k0);
    }
  }

  /** Refinement: from any start, every run of any number of processes, with any
      crashes and clock advances, produces a legal history whose ledger agrees with
      the owner record on disk. */
  lemma EveryRunIsLegal(s: State, cs: seq<Choice>)
    requires Start(s) && IsRun(s, cs)
    ensures Legal(Opening(s), Run(s, cs).log)
    ensures Replay(Opening(s), Run(s, cs).log).lease == OwnerOf(Run(s, cs).dir)
    ensures Inv(Run(s, cs), Opening(s))
  {
    assert Inv(s, Opening(s));
    RunKeeps(s, cs, Opening(s));
  }
}
