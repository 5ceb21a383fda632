/**
  Any number of _matrix_txn.py processes over one matrix file, as a transition
  system. The file system is a set of allocated inode numbers with their contents,
  one of which the path names; a number whose file has lost its last name and its
  last descriptor is free again and may be handed out for a later file. flock is
  held on an inode. A process may die before any of its steps; its descriptor is
  then closed, its lock dropped, and its temporary file stays behind.
  */
module MatrixTransactions {
  import opened Prelude
  import opened MatrixFile

  type Ino = nat

  /** A file's contents: a complete JSON document, or one still being written. */
  datatype Content = Whole(table: Table) | Partial

  datatype Pc =
    | Opening      // about to open the path
    | Blocked      // open, waiting for the lock
    | Comparing    // locked, about to compare the inode with the path
    | Retrying     // locked a dead inode, about to close it
    | Loading      // passed the comparison, about to read
    | Mutating     // table read, about to run the body
    | Creating     // about to create the temporary file
    | Filling      // about to write it
    | Replacing    // about to rename it over the path
    | Abandoning   // nothing to do, about to close without having written
    | Failing      // an exception, about to close without having written
    | Closing      // renamed, about to close
    | Committed
    | NothingDone
    | Failed
    | Dead

  /** `openedAt` is how many commits there were when this attempt opened the path;
      `charges` is that number for every attempt that had to be retried; `seen` is
      how many commits there were when the table was read. */
  datatype Proc = Proc(
    op: Op, pc: Pc, fd: Ino, tmp: Ino, table: Table, result: Table, picked: Option<string>,
    openedAt: nat, charges: seq<nat>, seen: nat)

  datatype Commit = Commit(pid: nat, op: Op, picked: Option<string>)

  datatype State = State(
    path: Option<Ino>, files: map<Ino, Content>, locks: map<Ino, nat>, litter: set<Ino>,
    procs: seq<Proc>, commits: seq<Commit>)

  datatype Choice =
    | Spawn(op: Op)
    | Open(p: nat)
    | Lock(p: nat)
    | Compare(p: nat)
    | Retry(p: nat)
    | Load(p: nat)
    | Mutate(p: nat)
    | Create(p: nat, ino: Ino)
    | Fill(p: nat)
    | Replace(p: nat)
    | Fail(p: nat)
    | Close(p: nat)
    | Die(p: nat)

  predicate IsOpen(pc: Pc) {
    !(pc == Opening || Ended(pc))
  }

  predicate HoldsLock(pc: Pc) { IsOpen(pc) && pc != Blocked }

  predicate HasTemp(pc: Pc) { pc == Filling || pc == Replacing }

  /** Between a passed comparison and the rename. */
  predicate Critical(pc: Pc) {
    pc == Loading || pc == Mutating || pc == Creating || pc == Filling || pc == Replacing
  }

  predicate Ended(pc: Pc) { pc == Committed || pc == NothingDone || pc == Failed || pc == Dead }

  predicate At(s: State, p: nat, pc: Pc) { p < |s.procs| && s.procs[p].pc == pc }

  predicate Enabled(s: State, c: Choice) {
    match c
    case Spawn(_) => true
    case Open(p) => At(s, p, Opening)
    case Lock(p) => At(s, p, Blocked) && s.procs[p].fd !in s.locks
    case Compare(p) => At(s, p, Comparing)
    case Retry(p) => At(s, p, Retrying)
    case Load(p) => At(s, p, Loading) && s.procs[p].fd in s.files
    case Mutate(p) => At(s, p, Mutating)
    case Create(p, i) => At(s, p, Creating) && i !in s.files
    case Fill(p) => At(s, p, Filling)
    case Replace(p) => At(s, p, Replacing)
    case Fail(p) => p < |s.procs| && Critical(s.procs[p].pc)
    case Close(p) => At(s, p, Abandoning) || At(s, p, Failing) || At(s, p, Closing)
    case Die(p) => p < |s.procs| && !Ended(s.procs[p].pc)
  }

  function Put(s: State, p: nat, x: Proc): State
    requires p < |s.procs|
  {
    s.(procs := s.procs[p := x])
  }

  /** A file stays allocated while it has a name or an open descriptor. */
  predicate InUse(s: State, i: Ino) {
    || s.path == Some(i) || i in s.litter
    || exists q :: 0 <= q < |s.procs| 
                   && ((IsOpen(s.procs[q].pc) && s.procs[q].fd == i) || (HasTemp(s.procs[q].pc) && s.procs[q].tmp == i))
  }

  function Reap(s: State, i: Ino): State {
    if InUse(s, i) then s else s.(files := s.files - {i})
  }

  /** Leaves pc `pc` behind: descriptor closed, lock dropped, inode freed if that was
      its last use. */
  function Closed(s: State, p: nat, pc: Pc): State
    requires p < |s.procs|
  {
    var x := s.procs[p];
    var s1 := Put(s, p, x.(pc := pc));
    if !IsOpen(x.pc) then s1
    else Reap(if HoldsLock(x.pc) then s1.(locks := s1.locks - {x.fd}) else s1, x.fd)
  }

  function Outcome(pc: Pc): Pc {
    match pc
    case Closing => Committed
    case Abandoning => NothingDone
    case _ => Failed
  }

  function Compared(s: State, p: nat): State
    requires p < |s.procs|
  {
    var x := s.procs[p];
    if s.path == Some(x.fd) then Put(s, p, x.(pc := Loading))
    else Put(s, p, x.(pc := Retrying, charges := x.charges + [x.openedAt]))
  }

  function Next(s: State, c: Choice): State
    requires Enabled(s, c)
  {
    match c
    case Spawn(op) => s.(procs := s.procs + [Proc(op, Opening, 0, 0, [], [], None, 0, [], 0)])
    case Open(p) =>
      if s.path.None? then Put(s, p, s.procs[p].(pc := Failed))
      else Put(s, p, s.procs[p].(pc := Blocked, fd := s.path.value, openedAt := |s.commits|))
    case Lock(p) =>
      Put(s, p, s.procs[p].(pc := Comparing)).(locks := s.locks[s.procs[p].fd := p])
    case Compare(p) => Compared(s, p)
    case Retry(p) => Closed(s, p, Opening)
    case Load(p) =>
      var x := s.procs[p];
      (match s.files[x.fd]
       case Whole(t) => Put(s, p, x.(pc := Mutating, table := t, seen := |s.commits|))
       case Partial => Put(s, p, x.(pc := Failing)))
    case Mutate(p) =>
      var x := s.procs[p];
      (match Apply(x.op, x.table)
       case Some(t) => Put(s, p, x.(pc := Creating, result := t, picked := Picked(x.op, x.table)))
       case None => Put(s, p, x.(pc := Abandoning)))
    case Create(p, i) =>
      Put(s, p, s.procs[p].(pc := Filling, tmp := i)).(files := s.files[i := Partial])
    case Fill(p) =>
      var x := s.procs[p];
      Put(s, p, x.(pc := Replacing)).(files := s.files[x.tmp := Whole(x.result)])
    case Replace(p) =>
      var x := s.procs[p];
      Put(s, p, x.(pc := Closing))
        .(path := Some(x.tmp), commits := s.commits + [Commit(p, x.op, x.picked)])
    case Fail(p) =>
      var x := s.procs[p];
      Put(s, p, x.(pc := Failing)).(files := if HasTemp(x.pc) then s.files - {x.tmp} else s.files)
    case Close(p) => Closed(s, p, Outcome(s.procs[p].pc))
    case Die(p) =>
      var x := s.procs[p];
      Closed(if HasTemp(x.pc) then s.(litter := s.litter + {x.tmp}) else s, p, Dead)
  }

  predicate IsRun(s: State, cs: seq<Choice>)
    decreases |cs|
  {
    cs == [] || (Enabled(s, cs[0]) && IsRun(Next(s, cs[0]), cs[1..]))
  }

  function Run(s: State, cs: seq<Choice>): State
    requires IsRun(s, cs)
    decreases |cs|
  {
    if cs == [] then s else Run(Next(s, cs[0]), cs[1..])
  }

  /** One complete matrix file at the path, whatever else the directory holds. */
  predicate Start(s: State, t: Table) {
    && s.path.Some? && s.path.value in s.files && s.files[s.path.value] == Whole(t)
    && s.path.value !in s.litter && s.litter <= s.files.Keys
    && s.locks == map[] && s.procs == [] && s.commits == []
  }

  function Ops(cs: seq<Commit>): seq<Op> {
    seq(|cs|, i requires 0 <= i < |cs| => cs[i].op)
  }
}
