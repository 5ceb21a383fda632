/**
  Any number of matrix-run-lock.ps1 processes over one VM workdir, as a
  transition system. A state holds the VM clock, the lock directory, the VM's other
  files, every process with its program counter, the ships that are under way, and
  the history of what happened. One `Choice` is one indivisible step of one process,
  of the clock, or of a ship; a process may die before any of its steps, and a ship
  may send its file whether or not its token still owns the lock.

  The two gate files are not stored: which process holds which gate follows from
  its program counter, so a process that dies drops its gates.
  */
module LeaseProtocol {
  import opened Prelude
  import opened Paths
  import opened LeaseLedger
  import opened Shipping

  /** The lock directory. `owner` is None while owner.json is missing or unreadable;
      `touched` is the later of the directory's and owner.json's write times; a stage is
      a token's staging directory, its files by name. */
  datatype LockDir =
    | Absent
    | Present(owner: Option<Lease>, touched: Instant, stages: map<string, map<string, Data>>)

  datatype Pc =
    | WantOperationGate
    | WantMetadataGate
    | Checking
    | Removing
    | MakingDirectory
    | MakingStage
    | Writing
    | Running
    | WantMetadataAgain
    | Rechecking
    | Refreshing
    | Leaving
    | Done
    | Dead

  /** `stored` is the owner record this process read, `now` the clock it read with it;
      `emptied` says that it has removed owner.json itself, and `result` is what its
      move came to, once carried out. */
  datatype Proc = Proc(
    action: Action, token: Token, runId: RunId, seconds: int, command: Command,
    pc: Pc, now: Instant, stored: Option<Lease>, exit: int, emptied: bool, result: Option<int>)

  /** A ship of `data` into the VM, at its step `next`; `child` is the lock process it waits
      for. At step 3 it has reported exit 0. */
  datatype Ship = Ship(
    staging: Staging, runId: RunId, dest: string, data: Data, scripted: bool,
    next: nat, child: Option<nat>, failed: bool)

  datatype State = State(
    workdir: string, clock: Instant, dir: LockDir, vm: map<seq<string>, Data>,
    procs: seq<Proc>, ships: seq<Ship>, issued: set<Token>, log: seq<Event>)

  datatype Choice =
    | Spawn(action: Action, token: Token, runId: RunId, seconds: int, command: Command)
    | OpenOperationGate(p: nat)
    | OpenMetadataGate(p: nat)
    | Check(p: nat)
    | RemoveOwner(p: nat)
    | RemoveStage(p: nat, stage: string)
    | RemoveDirectory(p: nat)
    | MakeDirectory(p: nat)
    | MakeStage(p: nat)
    | WriteOwner(p: nat)
    | Mutate(p: nat, change: Change)
    | CarryOut(p: nat)
    | Finish(p: nat, exit: int)
    | Recheck(p: nat)
    | Refresh(p: nat)
    | Leave(p: nat)
    | Die(p: nat)
    | Tick(ticks: nat)
    | BeginShip(token: Token, runId: RunId, name: string, dest: string, data: Data, scripted: bool)
    | AskLock(k: nat)
    | Hear(k: nat)
    | Upload(k: nat, sent: Data, whole: bool)
    | GiveUp(k: nat)

  const EXIT_BUSY := 73
  const EXIT_REJECTED := 74

  function OwnerOf(d: LockDir): Option<Lease> {
    if d.Present? then d.owner else None
  }

  // ----- gates ---------------------------------------------------------------

  predicate UsesOperationGate(a: Action) { a == Acquire || a == Release || a == Invoke }

  predicate HoldsOperation(x: Proc) {
    UsesOperationGate(x.action) &&
    !(x.pc == WantOperationGate || x.pc == Done || x.pc == Dead)
  }

  predicate HoldsMetadata(x: Proc) {
    x.pc == Checking || x.pc == Removing || x.pc == MakingDirectory || x.pc == MakingStage
    || x.pc == Writing || x.pc == Rechecking || x.pc == Refreshing
  }

  /** Invoke opens the operation gate shared, Acquire and Release open it exclusively. */
  predicate Compatible(x: Proc, y: Proc) {
    x.action == Invoke && y.action == Invoke
  }

  predicate OperationGateFree(s: State, p: nat)
    requires p < |s.procs|
  {
    forall q :: 0 <= q < |s.procs| && q != p && HoldsOperation(s.procs[q]) ==> Compatible(s.procs[p], s.procs[q])
  }

  predicate MetadataGateFree(s: State, p: nat) {
    forall q :: 0 <= q < |s.procs| && q != p ==> !HoldsMetadata(s.procs[q])
  }

  predicate Ended(pc: Pc) { pc == Done || pc == Dead }

  // ----- decisions taken under the metadata gate ---------------------------------

  /** Acquire reclaims an expired owner, or owner metadata that stayed unreadable
      for longer than the lease this Acquire asks for. */
  predicate Reclaimable(d: LockDir, seconds: int, now: Instant)
    requires d.Present?
  {
    match d.owner
    case Some(l) => Expired(l, now)
    case None => now - d.touched > seconds * TICKS_PER_SECOND
  }

  function CheckedAcquire(s: State, x: Proc): (Proc, seq<Event>) {
    var y := x.(now := s.clock, stored := OwnerOf(s.dir));
    if s.dir.Absent? then (y.(pc := MakingDirectory), [])
    else if Reclaimable(s.dir, x.seconds, s.clock) then (y.(pc := Removing), [])
    else (y.(pc := Leaving, exit := EXIT_BUSY), [])
  }

  function CheckedOwner(s: State, x: Proc): (Proc, seq<Event>) {
    var y := x.(now := s.clock, stored := OwnerOf(s.dir));
    if !Holds(y.stored, x.token, x.runId) then (y.(pc := Leaving, exit := EXIT_REJECTED), [])
    else if Expired(y.stored.value, s.clock) then
      (y.(pc := Leaving, exit := EXIT_REJECTED), [FoundExpired(x.action, x.token, x.runId, s.clock)])
    else
      var pass := [Admitted(x.action, x.token, x.runId, s.clock)];
      match x.action
      case Renew => (y.(pc := Writing), pass)
      case Release => (y.(pc := Removing), pass)
      case Invoke => (if x.command.Blank? then y.(pc := Leaving, exit := 1) else y.(pc := Running), pass)
      case _ => (y.(pc := Leaving, exit := 0), pass)
  }

  function Checked(s: State, x: Proc): (Proc, seq<Event>) {
    if x.action == Acquire then CheckedAcquire(s, x) else CheckedOwner(s, x)
  }

  function RemovalKind(a: Action): Removal {
    if a == Acquire then ByReclaim else ByRelease
  }

  // ----- files -----------------------------------------------------------------

  /** A guarded command's change to one of the VM's files. */
  function Written(vm: map<seq<string>, Data>, c: Change): map<seq<string>, Data> {
    match c.data
    case Some(x) => vm[c.at := x]
    case None => vm - {c.at}
  }

  /** A copy over the network: whatever the path leads to, guarded or not. */
  function Arrived(s: State, path: string, sent: Data): (LockDir, map<seq<string>, Data>) {
    match Locate(s.workdir, path)
    case Elsewhere(at) => (s.dir, s.vm[at := sent])
    case InLock => (if s.dir.Present? then s.dir.(owner := None, touched := s.clock) else s.dir, s.vm)
    case InStage(t, n) =>
      (if s.dir.Present? && t in s.dir.stages then s.dir.(stages := s.dir.stages[t := s.dir.stages[t][n := sent]]) else s.dir, s.vm)
  }

  /** A copy into a directory that is not there fails. */
  predicate Lands(s: State, path: string) {
    match Locate(s.workdir, path)
    case Elsewhere(_) => true
    case InLock => s.dir.Present?
    case InStage(t, _) => s.dir.Present? && t in s.dir.stages
  }

  /** The staged file a move takes, if it is there and goes to a place outside the lock directory. */
  function Movable(s: State, from: string, to: string): Option<(string, string, seq<string>)> {
    match (Locate(s.workdir, from), Locate(s.workdir, to))
    case (InStage(t, n), Elsewhere(at)) =>
      if s.dir.Present? && t in s.dir.stages && n in s.dir.stages[t] then Some((t, n, at)) else None
    case _ => None
  }

  // ----- steps ---------------------------------------------------------------

  predicate At(s: State, p: nat, pc: Pc) { p < |s.procs| && s.procs[p].pc == pc }

  predicate Enabled(s: State, c: Choice) {
    match c
    case Spawn(a, t, _, _, command) => (a == Acquire ==> t !in s.issued) && !command.Move?
    case OpenOperationGate(p) => At(s, p, WantOperationGate) && OperationGateFree(s, p)
    case OpenMetadataGate(p) =>
      (At(s, p, WantMetadataGate) || At(s, p, WantMetadataAgain)) && MetadataGateFree(s, p)
    case Check(p) => At(s, p, Checking)
    case RemoveOwner(p) => At(s, p, Removing) && s.dir.Present? && s.dir.owner.Some?
    case RemoveStage(p, t) => At(s, p, Removing) && s.dir.Present? && t in s.dir.stages
    case RemoveDirectory(p) => At(s, p, Removing) && s.dir.Present? && s.dir.owner.None? && s.dir.stages == map[]
    case MakeDirectory(p) => At(s, p, MakingDirectory) && s.dir.Absent?
    case MakeStage(p) => At(s, p, MakingStage) && s.dir.Present? && s.procs[p].token !in s.dir.stages
    case WriteOwner(p) =>
      At(s, p, Writing) && s.dir.Present? && (s.procs[p].action == Acquire || s.procs[p].stored.Some?)
    case Mutate(p, ch) =>
      At(s, p, Running) && s.procs[p].command.Other? && !(Resolve(LockDirectory(s.workdir)) <= ch.at)
    case CarryOut(p) => At(s, p, Running) && s.procs[p].command.Move? && s.procs[p].result.None?
    case Finish(p, e) => At(s, p, Running) && (s.procs[p].command.Move? ==> s.procs[p].result == Some(e))
    case Recheck(p) => At(s, p, Rechecking)
    case Refresh(p) => At(s, p, Refreshing) && s.dir.Present? && s.procs[p].stored.Some?
    case Leave(p) => At(s, p, Leaving)
    case Die(p) => p < |s.procs| && !Ended(s.procs[p].pc)
    case Tick(_) => true
    case BeginShip(_, _, name, dest, _, _) => Plain(name) && Locate(s.workdir, dest).Elsewhere?
    case AskLock(k) => Underway(s, k) && s.ships[k].child.None? && StepOfShip(s.ships[k]).Ask?
    case Hear(k) =>
      Underway(s, k) && s.ships[k].child.Some? && s.ships[k].child.value < |s.procs| && Ended(s.procs[s.ships[k].child.value].pc)
    case Upload(k, sent, whole) =>
      Underway(s, k) && StepOfShip(s.ships[k]).Send? && (whole ==> sent == s.ships[k].data)
    case GiveUp(k) => Underway(s, k)
  }

  predicate Underway(s: State, k: nat) { k < |s.ships| && !s.ships[k].failed && s.ships[k].next < 3 }

  function StepOfShip(x: Ship): Step
    requires x.next < 3
  {
    ShipStep(x.scripted, x.staging, x.dest, x.next)
  }

  function FirstPc(a: Action): Pc {
    if UsesOperationGate(a) then WantOperationGate else WantMetadataGate
  }

  function NewProc(a: Action, t: Token, r: RunId, n: int, command: Command): Proc {
    Proc(a, t, r, n, command, FirstPc(a), 0, None, 0, false, None)
  }

  /** A new lock process: started on its own, or by a ship. */
  predicate Arrives(c: Choice) { c.Spawn? || c.AskLock? }

  /** A step that is no lock process's. */
  predicate Aside(c: Choice) { c.Tick? || c.BeginShip? || c.Hear? || c.Upload? || c.GiveUp? }

  /** The owner record a process writes. */
  function RecordOf(x: Proc): Lease
    requires x.action == Acquire || x.stored.Some?
  {
    if x.action == Acquire then Lease(x.token, x.runId, x.now, x.seconds) else x.stored.value.(stamp := x.now)
  }

  // A lock process's step is what becomes of the process, of the lock directory and of the history.

  function ProcAfter(s: State, c: Choice): Proc
    requires Enabled(s, c) && !Arrives(c) && !Aside(c)
  {
    var x := s.procs[c.p];
    match c
    case OpenOperationGate(_) => x.(pc := WantMetadataGate)
    case OpenMetadataGate(_) => x.(pc := if x.pc == WantMetadataGate then Checking else Rechecking)
    case Check(_) => Checked(s, x).0
    case RemoveOwner(_) => x.(emptied := true)
    case RemoveStage(_, _) => x
    case RemoveDirectory(_) => if x.action == Acquire then x.(pc := MakingDirectory) else x.(pc := Leaving, exit := 0)
    case MakeDirectory(_) => x.(pc := MakingStage)
    case MakeStage(_) => x.(pc := Writing)
    case WriteOwner(_) => x.(pc := Leaving, exit := 0)
    case Mutate(_, _) => x
    case CarryOut(_) => x.(result := if Movable(s, x.command.from, x.command.to).Some? then Some(0) else Some(1))
    case Finish(_, e) => x.(pc := WantMetadataAgain, exit := e)
    case Recheck(_) =>
      var y := x.(now := s.clock, stored := OwnerOf(s.dir));
      if Holds(y.stored, x.token, x.runId) then y.(pc := Refreshing) else y.(pc := Leaving, exit := EXIT_REJECTED)
    case Refresh(_) => x.(pc := Leaving)
    case Leave(_) => x.(pc := Done)
    case Die(_) => x.(pc := Dead)
  }

  function DirAfter(s: State, c: Choice): LockDir
    requires Enabled(s, c) && !Arrives(c) && !Aside(c)
  {
    var x := s.procs[c.p];
    match c
    case RemoveOwner(_) => s.dir.(owner := None, touched := s.clock)
    case RemoveStage(_, t) => s.dir.(stages := s.dir.stages - {t}, touched := s.clock)
    case RemoveDirectory(_) => Absent
    case MakeDirectory(_) => Present(None, s.clock, map[])
    case MakeStage(_) => s.dir.(stages := s.dir.stages[x.token := map[]], touched := s.clock)
    case WriteOwner(_) => s.dir.(owner := Some(RecordOf(x)), touched := s.clock)
    case Refresh(_) => s.dir.(owner := Some(x.stored.value.(stamp := x.now)), touched := s.clock)
    case CarryOut(_) =>
      (match Movable(s, x.command.from, x.command.to)
       case Some((t, n, _)) => s.dir.(stages := s.dir.stages[t := s.dir.stages[t] - {n}])
       case None => s.dir)
    case _ => s.dir
  }

  function EventsOf(s: State, c: Choice): seq<Event>
    requires Enabled(s, c) && !Arrives(c) && !Aside(c)
  {
    var x := s.procs[c.p];
    match c
    case Check(_) => Checked(s, x).1
    case RemoveOwner(_) => [Removed(s.dir.owner.value.token, s.dir.owner.value.runId, x.now, RemovalKind(x.action))]
    case WriteOwner(_) =>
      var o := RecordOf(x);
      [if x.action == Acquire then Acquired(o) else Stamped(o.token, o.runId, o.stamp)]
    case Refresh(_) => [Stamped(x.stored.value.token, x.stored.value.runId, x.now)]
    case Mutate(_, change) => [Mutated(x.token, x.runId, change)]
    case CarryOut(_) =>
      (match Movable(s, x.command.from, x.command.to)
       case Some((t, n, at)) => [Mutated(x.token, x.runId, Change(at, Some(s.dir.stages[t][n])))]
       case None => [])
    case _ => []
  }

  /** The VM's files after what a step adds to the history. */
  function FilesWith(vm: map<seq<string>, Data>, events: seq<Event>): map<seq<string>, Data> {
    if events != [] && events[0].Mutated? then Written(vm, events[0].change) else vm
  }

  function ShipAfter(s: State, c: Choice): Ship
    requires Enabled(s, c) && (c.AskLock? || c.Hear? || c.Upload? || c.GiveUp?)
  {
    var x := s.ships[c.k];
    match c
    case AskLock(_) => x.(child := Some(|s.procs|))
    case Hear(_) =>
      var y := s.procs[x.child.value];
      if y.pc == Done && y.exit == 0 then x.(next := x.next + 1, child := None) else x.(failed := true)
    case Upload(_, _, whole) =>
      if whole && Lands(s, StepOfShip(x).to) then x.(next := x.next + 1) else x.(failed := true)
    case GiveUp(_) => x.(failed := true)
  }

  function LockStep(s: State, c: Choice): State
    requires Enabled(s, c) && !Arrives(c) && !Aside(c)
  {
    assert c.p < |s.procs|;
    var events := EventsOf(s, c);
    s.(procs := s.procs[c.p := ProcAfter(s, c)], dir := DirAfter(s, c), vm := FilesWith(s.vm, events), log := s.log + events)
  }

  function Next(s: State, c: Choice): State
    requires Enabled(s, c)
  {
    match c
    case Spawn(a, t, r, n, command) =>
      s.(procs := s.procs + [NewProc(a, t, r, n, command)], issued := if a == Acquire then s.issued + {t} else s.issued)
    case Tick(n) => s.(clock := s.clock + n)
    case BeginShip(t, r, name, dest, data, scripted) =>
      s.(ships := s.ships + [Ship(Staging(s.workdir, t, name), r, dest, data, scripted, 0, None, false)])
    case AskLock(k) =>
      var x := s.ships[k];
      s.(procs := s.procs + [NewProc(StepOfShip(x).action, x.staging.token, x.runId, 0, StepOfShip(x).command)],
         ships := s.ships[k := ShipAfter(s, c)])
    case Hear(k) => s.(ships := s.ships[k := ShipAfter(s, c)])
    case Upload(k, sent, _) =>
      var (dir, vm) := Arrived(s, StepOfShip(s.ships[k]).to, sent);
      s.(dir := dir, vm := vm, ships := s.ships[k := ShipAfter(s, c)])
    case GiveUp(k) => s.(ships := s.ships[k := ShipAfter(s, c)])
    case _ => LockStep(s, c)
  }

  /** A run is a sequence of choices, each enabled where it is taken. */
  predicate IsRun(s: State, cs: seq<Choice>)
    decreases |cs|
  {
    cs == [] || (Enabled(s, cs[0]) && IsRun(Next(s, cs[0]), cs[1..]))
  }

  function Run(s: State, cs: seq<Choice>): State
    requires IsRun(s, cs)
    decreases |cs|
  {
    if cs == [] then s else Run(Next(s, cs[0]), cs[1..])
  }

  /** A start: no process and no ship yet, any lock directory that was left behind, any
      clock not earlier than what is recorded there. */
  predicate Start(s: State) {
    && s.procs == [] && s.ships == [] && s.log == []
    && (OwnerOf(s.dir).Some? ==> OwnerOf(s.dir).value.token in s.issued && OwnerOf(s.dir).value.stamp <= s.clock)
  }

  /** What the ledger knows at a start: the owner found, and every token handed out before. */
  function Opening(s: State): Ledger {
    Ledger(OwnerOf(s.dir), s.issued, s.clock)
  }
}
