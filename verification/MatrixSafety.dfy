/** The invariant of the matrix transactions, and serializability of every run. */
module MatrixSafety {
  import opened Prelude
  import opened MatrixFile
  import opened MatrixTransactions

  /** The committed table: every committed body, applied in rename order. */
  function Serial(t0: Table, s: State): Table { ApplyAll(t0, Ops(s.commits)) }

  // ----- files and locks --------------------------------------------------------------

  predicate OwnsFiles(s: State, p: nat)
    requires p < |s.procs|
  {
    var x := s.procs[p];
    && (IsOpen(x.pc) ==> x.fd in s.files && x.fd !in s.litter)
    && (HoldsLock(x.pc) ==> x.fd in s.locks && s.locks[x.fd] == p)
    && (HasTemp(x.pc) ==> x.tmp in s.files && s.path != Some(x.tmp) && x.tmp !in s.litter)
  }

  /** Temporary files are private: nobody has opened them, no two are the same. */
  predicate TempsPrivate(s: State) {
    forall p, q :: 0 <= p < |s.procs| && 0 <= q < |s.procs| && HasTemp(s.procs[p].pc) ==>
      && (IsOpen(s.procs[q].pc) ==> s.procs[q].fd != s.procs[p].tmp)
      && (p != q && HasTemp(s.procs[q].pc) ==> s.procs[q].tmp != s.procs[p].tmp)
  }

  predicate LocksHeld(s: State) {
    forall i :: i in s.locks ==> s.locks[i] < |s.procs| && HoldsLock(s.procs[s.locks[i]].pc) && s.procs[s.locks[i]].fd == i
  }

  predicate Storage(s: State) {
    && s.path.Some? && s.path.value in s.files && s.path.value !in s.litter && s.litter <= s.files.Keys
    && LocksHeld(s) && TempsPrivate(s)
    && forall p :: 0 <= p < |s.procs| ==> OwnsFiles(s, p)
  }

  // ----- data -----------------------------------------------------------------------------

  /** What a process knows about the table, given its program counter. */
  predicate Knows(s: State, t0: Table, x: Proc)
    requires s.path.Some?
  {
    && (x.pc in {Mutating, Creating, Filling, Replacing} ==> x.table == Serial(t0, s))
    && (x.pc == Mutating ==> x.seen == |s.commits|)
    && (x.pc in {Creating, Filling, Replacing} ==> Apply(x.op, x.table) == Some(x.result) && x.picked == Picked(x.op, x.table))
    && (x.pc == Replacing ==> x.tmp in s.files && s.files[x.tmp] == Whole(x.result))
    && (x.pc in {Abandoning, NothingDone} ==>
          x.seen <= |s.commits| && x.table == ApplyAll(t0, Ops(s.commits)[..x.seen]) && Apply(x.op, x.table).None?)
  }

  /** Retries are charged to distinct commits of others, each made after that attempt
      opened the path. */
  predicate Charged(s: State, p: nat)
    requires p < |s.procs| && s.path.Some?
  {
    var x := s.procs[p];
    && (forall i, j :: 0 <= i < j < |x.charges| ==> x.charges[i] < x.charges[j])
    && (forall i :: 0 <= i < |x.charges| ==> x.charges[i] < |s.commits| && s.commits[x.charges[i]].pid != p)
    && ((x.pc == Blocked || x.pc == Comparing) ==>
          && x.openedAt <= |s.commits|
          && (x.openedAt == |s.commits| ==> s.path == Some(x.fd))
          && forall i :: 0 <= i < |x.charges| ==> x.charges[i] < x.openedAt)
  }

  /** Each process commits at most once, and has committed exactly when it got past its rename. */
  predicate CommitsOnce(s: State) {
    && (forall i, j :: 0 <= i < j < |s.commits| ==> s.commits[i].pid != s.commits[j].pid)
    && (forall i :: 0 <= i < |s.commits| ==>
          && s.commits[i].pid < |s.procs| && s.commits[i].op == s.procs[s.commits[i].pid].op
          && s.procs[s.commits[i].pid].pc in {Closing, Committed, Dead})
    && (forall p :: 0 <= p < |s.procs| && s.procs[p].pc in {Closing, Committed} ==>
          exists i :: 0 <= i < |s.commits| && s.commits[i].pid == p)
  }

  /** Every commit applied its body to exactly the table the earlier commits left. */
  predicate CommitsApplied(s: State, t0: Table) {
    forall i :: 0 <= i < |s.commits| ==>
      var before := ApplyAll(t0, Ops(s.commits)[..i]);
      Apply(s.commits[i].op, before).Some? && s.commits[i].picked == Picked(s.commits[i].op, before)
  }

  predicate Inv(s: State, t0: Table) {
    && Storage(s) && AtPath(s)
    && s.files[s.path.value] == Whole(Serial(t0, s))
    && CommitsOnce(s) && CommitsApplied(s, t0)
    && forall p :: 0 <= p < |s.procs| ==> Knows(s, t0, s.procs[p]) && Charged(s, p)
  }

  // ----- storage is kept ---------------------------------------------------------------------

  lemma StorageSpawn(s: State, c: Choice)
    requires Storage(s) && Enabled(s, c) && c.Spawn?
    ensures Storage(Next(s, c))
  {
    var s' := Next(s, c);
    forall p | 0 <= p < |s'.procs| ensures OwnsFiles(s', p) {
      if p < |s.procs| { assert OwnsFiles(s, p); }
    }
  }

  /** A step that changes nothing on disk and neither opens nor closes anything. */
  lemma StorageStill(s: State, p: nat, x: Proc)
    requires Storage(s) && p < |s.procs|
    requires var y := s.procs[p];
             && x.fd == y.fd && x.tmp == y.tmp
             && IsOpen(x.pc) == IsOpen(y.pc) && HoldsLock(x.pc) == HoldsLock(y.pc) && HasTemp(x.pc) == HasTemp(y.pc)
    ensures Storage(Put(s, p, x))
  {
    var s' := Put(s, p, x);
    forall q | 0 <= q < |s'.procs| ensures OwnsFiles(s', q) {
      assert OwnsFiles(s, q);
    }
  }

  lemma StorageOpen(s: State, p: nat)
    requires Storage(s) && Enabled(s, Open(p))
    ensures Storage(Next(s, Open(p)))
  {
    var s' := Next(s, Open(p));
    forall q | 0 <= q < |s'.procs| ensures OwnsFiles(s', q) {
      assert OwnsFiles(s, q);
    }
    forall q | 0 <= q < |s.procs| && HasTemp(s.procs[q].pc) ensures s.procs[q].tmp != s'.procs[p].fd {
      assert OwnsFiles(s, q);
    }
  }

  lemma StorageLock(s: State, p: nat)
    requires Storage(s) && Enabled(s, Lock(p))
    ensures Storage(Next(s, Lock(p)))
  {
    var s' := Next(s, Lock(p));
    forall q | 0 <= q < |s'.procs| ensures OwnsFiles(s', q) {
      assert OwnsFiles(s, q);
    }
    assert TempsPrivate(s');
  }

  lemma StorageCreate(s: State, p: nat, i: Ino)
    requires Storage(s) && Enabled(s, Create(p, i))
    ensures Storage(Next(s, Create(p, i)))
  {
    var s' := Next(s, Create(p, i));
    forall q | 0 <= q < |s'.procs| ensures OwnsFiles(s', q) {
      assert OwnsFiles(s, q);
    }
    forall q | 0 <= q < |s.procs| && q != p
      ensures (IsOpen(s.procs[q].pc) ==> s.procs[q].fd != i) && (HasTemp(s.procs[q].pc) ==> s.procs[q].tmp != i)
    {
      assert OwnsFiles(s, q);
    }
    assert OwnsFiles(s, p);
    assert LocksHeld(s');
  }

  lemma StorageFill(s: State, p: nat)
    requires Storage(s) && Enabled(s, Fill(p))
    ensures Storage(Next(s, Fill(p)))
  {
    var x := s.procs[p].(pc := Replacing);
    StorageStill(s, p, x);
    var s1 := Put(s, p, x);
    var s' := Next(s, Fill(p));
    assert OwnsFiles(s, p);
    assert s'.files.Keys == s.files.Keys;
    forall q | 0 <= q < |s'.procs| ensures OwnsFiles(s', q) {
      assert OwnsFiles(s1, q);
    }
    assert LocksHeld(s') && TempsPrivate(s') by { assert s'.procs == s1.procs && s'.locks == s1.locks; }
  }

  function Excepted(s: State, p: nat): State
    requires p < |s.procs|
  {
    var x := s.procs[p];
    Put(s, p, x.(pc := Failing)).(files := if HasTemp(x.pc) then s.files - {x.tmp} else s.files)
  }

  lemma StorageFail(s: State, p: nat)
    requires Storage(s) && Enabled(s, Fail(p))
    ensures Storage(Next(s, Fail(p)))
  {
    assert p < |s.procs| && Critical(s.procs[p].pc) && Next(s, Fail(p)) == Excepted(s, p);
    ExceptedOwned(s, p);
    FewerTemps(s, Excepted(s, p));
    ExceptedLocks(s, p);
    assert OwnsFiles(s, p);
  }

  lemma ExceptedLocks(s: State, p: nat)
    requires LocksHeld(s) && p < |s.procs| && Critical(s.procs[p].pc)
    ensures LocksHeld(Excepted(s, p))
  {
  }

  lemma ExceptedOwned(s: State, p: nat)
    requires Storage(s) && p < |s.procs| && Critical(s.procs[p].pc)
    ensures forall q :: 0 <= q < |s.procs| ==> OwnsFiles(Excepted(s, p), q)
  {
    hide OwnsFiles, LocksHeld, TempsPrivate;
    forall q | 0 <= q < |s.procs| ensures OwnsFiles(Excepted(s, p), q) {
      if HasTemp(s.procs[p].pc) {
        if q != p { TempsApart(s, p, q); } else { TempIsNotOpen(s, p); }
      }
      ExceptedOwns(s, p, q);
    }
  }

  lemma ExceptedOwns(s: State, p: nat, q: nat)
    requires p < |s.procs| && q < |s.procs| && Critical(s.procs[p].pc) && OwnsFiles(s, p) && OwnsFiles(s, q)
    requires HasTemp(s.procs[p].pc) ==>
               if q == p then s.procs[p].fd != s.procs[p].tmp
               else (IsOpen(s.procs[q].pc) ==> s.procs[q].fd != s.procs[p].tmp)
                    && (HasTemp(s.procs[q].pc) ==> s.procs[q].tmp != s.procs[p].tmp)
    ensures OwnsFiles(Excepted(s, p), q)
  {
  }

  lemma TempsApart(s: State, p: nat, q: nat)
    requires TempsPrivate(s) && p < |s.procs| && q < |s.procs| && p != q && HasTemp(s.procs[p].pc)
    ensures IsOpen(s.procs[q].pc) ==> s.procs[q].fd != s.procs[p].tmp
    ensures HasTemp(s.procs[q].pc) ==> s.procs[q].tmp != s.procs[p].tmp
  {
  }

  lemma TempIsNotOpen(s: State, p: nat)
    requires TempsPrivate(s) && p < |s.procs| && HasTemp(s.procs[p].pc)
    ensures s.procs[p].fd != s.procs[p].tmp
  {
  }

  lemma StorageReplace(s: State, p: nat)
    requires Storage(s) && Enabled(s, Replace(p))
    ensures Storage(Next(s, Replace(p)))
  {
    var s' := Next(s, Replace(p));
    var x := s.procs[p];
    assert OwnsFiles(s, p);
    forall q | 0 <= q < |s'.procs| ensures OwnsFiles(s', q) {
      assert OwnsFiles(s, q);
      if q != p && HasTemp(s.procs[q].pc) { assert s.procs[q].tmp != x.tmp; }
    }
    assert LocksHeld(s');
  }

  /** Closing frees at most a file nobody uses. */
  lemma ReapKeeps(s: State, i: Ino)
    requires Storage(s)
    ensures Storage(Reap(s, i))
  {
    var s' := Reap(s, i);
    forall p | 0 <= p < |s'.procs| ensures OwnsFiles(s', p) {
      assert OwnsFiles(s, p);
    }
  }

  /** The state once `p` is out and its lock dropped, before its file is freed. */
  function Unlocked(s: State, p: nat, pc: Pc): State
    requires p < |s.procs|
  {
    var x := s.procs[p];
    var s1 := Put(s, p, x.(pc := pc));
    if HoldsLock(x.pc) then s1.(locks := s1.locks - {x.fd}) else s1
  }

  lemma ClosedKeeps(s: State, p: nat, pc: Pc)
    requires Storage(s) && p < |s.procs| && !IsOpen(pc) && !HasTemp(s.procs[p].pc)
    ensures Storage(Closed(s, p, pc))
  {
    UnlockedLocks(s, p, pc);
    UnlockedTemps(s, p, pc);
    UnlockedOwns(s, p, pc);
    assert Storage(Unlocked(s, p, pc));
    hide Storage, InUse;
    ReapKeeps(Unlocked(s, p, pc), s.procs[p].fd);
  }

  lemma UnlockedLocks(s: State, p: nat, pc: Pc)
    requires LocksHeld(s) && p < |s.procs| && OwnsFiles(s, p)
    ensures LocksHeld(Unlocked(s, p, pc))
  {
  }

  lemma UnlockedTemps(s: State, p: nat, pc: Pc)
    requires TempsPrivate(s) && p < |s.procs| && !IsOpen(pc)
    ensures TempsPrivate(Unlocked(s, p, pc))
  {
    FewerTemps(s, Unlocked(s, p, pc));
  }

  lemma FewerTemps(s: State, s': State)
    requires TempsPrivate(s) && |s'.procs| == |s.procs|
    requires forall q :: 0 <= q < |s.procs| ==>
               var x, y := s.procs[q], s'.procs[q];
               (IsOpen(y.pc) ==> IsOpen(x.pc) && y.fd == x.fd) && (HasTemp(y.pc) ==> HasTemp(x.pc) && y.tmp == x.tmp)
    ensures TempsPrivate(s')
  {
    hide IsOpen, HasTemp;
  }

  lemma UnlockedOwns(s: State, p: nat, pc: Pc)
    requires Storage(s) && p < |s.procs| && !IsOpen(pc)
    ensures var s' := Unlocked(s, p, pc); forall q :: 0 <= q < |s'.procs| ==> OwnsFiles(s', q)
  {
    hide Unlocked, OwnsFiles, LocksHeld, TempsPrivate;
    UnlockedShape(s, p, pc);
    forall q | 0 <= q < |s.procs| ensures OwnsFiles(Unlocked(s, p, pc), q) { StillOwns(s, p, pc, q); }
  }

  lemma UnlockedShape(s: State, p: nat, pc: Pc)
    requires p < |s.procs|
    ensures |Unlocked(s, p, pc).procs| == |s.procs|
  {
  }

  lemma StillOwns(s: State, p: nat, pc: Pc, q: nat)
    requires p < |s.procs| && q < |s.procs| && !IsOpen(pc) && OwnsFiles(s, p) && OwnsFiles(s, q)
    ensures q < |Unlocked(s, p, pc).procs| && OwnsFiles(Unlocked(s, p, pc), q)
  {
  }

  /** The temporary file of a dying process becomes litter. */
  function Littered(s: State, p: nat): State
    requires p < |s.procs|
  {
    Put(s, p, s.procs[p].(pc := Failing)).(litter := s.litter + {s.procs[p].tmp})
  }

  lemma LitterKeeps(s: State, p: nat)
    requires Storage(s) && p < |s.procs| && HasTemp(s.procs[p].pc)
    ensures Storage(Littered(s, p))
  {
    LitterOwned(s, p);
    FewerTemps(s, Littered(s, p));
    LitterLocks(s, p);
    assert OwnsFiles(s, p);
  }

  lemma LitterLocks(s: State, p: nat)
    requires LocksHeld(s) && p < |s.procs| && HasTemp(s.procs[p].pc)
    ensures LocksHeld(Littered(s, p))
  {
  }

  lemma LitterOwned(s: State, p: nat)
    requires Storage(s) && p < |s.procs| && HasTemp(s.procs[p].pc)
    ensures forall q :: 0 <= q < |s.procs| ==> OwnsFiles(Littered(s, p), q)
  {
    hide OwnsFiles, LocksHeld, TempsPrivate;
    forall q | 0 <= q < |s.procs| ensures OwnsFiles(Littered(s, p), q) {
      if q != p { TempsApart(s, p, q); } else { TempIsNotOpen(s, p); }
      LitterOwns(s, p, q);
    }
  }

  lemma LitterOwns(s: State, p: nat, q: nat)
    requires p < |s.procs| && q < |s.procs| && HasTemp(s.procs[p].pc) && OwnsFiles(s, p) && OwnsFiles(s, q)
    requires q == p ==> s.procs[p].fd != s.procs[p].tmp
    requires q != p ==> (IsOpen(s.procs[q].pc) ==> s.procs[q].fd != s.procs[p].tmp)
                        && (HasTemp(s.procs[q].pc) ==> s.procs[q].tmp != s.procs[p].tmp)
    ensures OwnsFiles(Littered(s, p), q)
  {
  }

  lemma DieKeeps(s: State, p: nat)
    requires Storage(s) && Enabled(s, Die(p))
    ensures Storage(Next(s, Die(p)))
  {
    hide Storage, Reap;
    var x := s.procs[p];
    if HasTemp(x.pc) {
      var s1 := Put(s, p, x.(pc := Failing)).(litter := s.litter + {x.tmp});
      LitterKeeps(s, p);
      ClosedKeeps(s1, p, Dead);
      assert s1.procs[p := s1.procs[p].(pc := Dead)] == s.procs[p := x.(pc := Dead)];
    } else {
      ClosedKeeps(s, p, Dead);
    }
  }

  lemma StorageKept(s: State, c: Choice)
    requires Storage(s) && Enabled(s, c)
    ensures Storage(Next(s, c))
  {
    hide Storage, Reap, Enabled, Compared, Apply, Picked;
    match c
    case Spawn(_) => StorageSpawn(s, c);
    case Open(p) => StorageOpen(s, p);
    case Lock(p) => StorageLock(s, p);
    case Create(p, i) => StorageCreate(s, p, i);
    case Fill(p) => StorageFill(s, p);
    case Fail(p) => StorageFail(s, p);
    case Replace(p) => StorageReplace(s, p);
    case Retry(_) => StorageClosing(s, c);
    case Close(_) => StorageClosing(s, c);
    case Die(p) => DieKeeps(s, p);
    case _ => StorageReading(s, c);
  }

  lemma StorageClosing(s: State, c: Choice)
    requires Storage(s) && Enabled(s, c) && (c.Retry? || c.Close?)
    ensures Storage(Next(s, c))
  {
    hide Storage, Reap, InUse, Closed;
    ClosedKeeps(s, c.p, if c.Retry? then Opening else Outcome(s.procs[c.p].pc));
  }

  /** Comparing, loading and running the body touch no file. */
  lemma StorageReading(s: State, c: Choice)
    requires Storage(s) && Enabled(s, c) && (c.Compare? || c.Load? || c.Mutate?)
    ensures Storage(Next(s, c))
  {
    hide Storage, Apply, Picked;
    assert Next(s, c) == Put(s, c.p, Next(s, c).procs[c.p]);
    StorageStill(s, c.p, Next(s, c).procs[c.p]);
  }

  // ----- mutual exclusion ------------------------------------------------------------------------

  /** Whoever passed the comparison still has the path's own inode locked. */
  predicate AtPath(s: State) {
    forall p :: 0 <= p < |s.procs| && Critical(s.procs[p].pc) ==> s.path == Some(s.procs[p].fd)
  }

  /** At most one process is between a passed comparison and its rename. */
  lemma OneCritical(s: State, p: nat, q: nat)
    requires Storage(s) && AtPath(s) && p < |s.procs| && q < |s.procs|
    requires Critical(s.procs[p].pc) && Critical(s.procs[q].pc)
    ensures p == q
  {
    assert OwnsFiles(s, p) && OwnsFiles(s, q);
  }

  lemma AtPathMoved(s: State, s': State, p: nat)
    requires AtPath(s) && p < |s.procs| && Moved(s, s', p)
    ensures AtPath(s')
  {
    forall q | 0 <= q < |s'.procs| && Critical(s'.procs[q].pc) ensures s'.path == Some(s'.procs[q].fd) {
      if q != p { assert s'.procs[q] == s.procs[q]; }
    }
  }

  lemma AtPathKept(s: State, c: Choice)
    requires Storage(s) && AtPath(s) && Enabled(s, c)
    ensures AtPath(Next(s, c))
  {
    if c.Replace? {
      forall q | 0 <= q < |s.procs| && q != c.p ensures !Critical(s.procs[q].pc) {
        if Critical(s.procs[q].pc) { OneCritical(s, c.p, q); }
      }
    } else if !c.Spawn? {
      Mover(s, c);
      AtPathMoved(s, Next(s, c), c.p);
    }
  }

  // ----- data is kept -----------------------------------------------------------------------------

  /** Closing frees no file that is still the path's, and none but its own. */
  lemma ClosingSpares(s: State, p: nat, pc: Pc, i: Ino)
    requires p < |s.procs| && i in s.files && (IsOpen(s.procs[p].pc) && s.procs[p].fd == i ==> s.path == Some(i))
    ensures i in Closed(s, p, pc).files && Closed(s, p, pc).files[i] == s.files[i]
    ensures Closed(s, p, pc).path == s.path && Closed(s, p, pc).commits == s.commits
  {
  }

  predicate Closes(c: Choice) { c.Retry? || c.Close? || c.Die? }

  /** A file stays as it is if the step's process has not created it, and does not have it
      open unless it is the path's. */
  lemma FileStays(s: State, c: Choice, i: Ino)
    requires Enabled(s, c) && !c.Spawn? && c.p < |s.procs| && i in s.files
    requires var x := s.procs[c.p]; (HasTemp(x.pc) ==> x.tmp != i) && (IsOpen(x.pc) && x.fd == i ==> s.path == Some(i))
    ensures i in Next(s, c).files && Next(s, c).files[i] == s.files[i]
  {
    hide InUse, Closed, Apply, Picked;
    if Closes(c) { ClosingStays(s, c, i); }
  }

  lemma ClosingStays(s: State, c: Choice, i: Ino)
    requires Enabled(s, c) && Closes(c) && i in s.files
    requires var x := s.procs[c.p]; IsOpen(x.pc) && x.fd == i ==> s.path == Some(i)
    ensures i in Next(s, c).files && Next(s, c).files[i] == s.files[i] && Next(s, c).path == s.path && Next(s, c).commits == s.commits
  {
    hide Closed;
    var x := s.procs[c.p];
    match c
    case Retry(p) => ClosingSpares(s, p, Opening, i);
    case Close(p) => ClosingSpares(s, p, Outcome(x.pc), i);
    case Die(p) => ClosingSpares(if HasTemp(x.pc) then s.(litter := s.litter + {x.tmp}) else s, p, Dead, i);
  }

  /** A step that does not rename leaves the path, its contents and the commits alone. */
  lemma Unrenamed(s: State, c: Choice, t0: Table)
    requires Inv(s, t0) && Enabled(s, c) && !c.Replace?
    ensures var s' := Next(s, c);
            && s'.path == s.path && s'.commits == s.commits
            && s.path.value in s'.files && s'.files[s.path.value] == s.files[s.path.value]
  {
    assert s.path.Some? && s.path.value in s.files;
    if !c.Spawn? {
      ActorExists(s, c);
      assert OwnsFiles(s, c.p);
      hide Inv, Enabled, Next, Storage, Moved;
      FileStays(s, c, s.path.value);
      Mover(s, c);
      assert Moved(s, Next(s, c), c.p);
      MovedKeepsPath(s, Next(s, c), c.p);
    }
    hide Inv, Storage, InUse, Closed;
  }

  lemma ActorExists(s: State, c: Choice)
    requires Enabled(s, c) && !c.Spawn?
    ensures c.p < |s.procs|
  {
  }

  lemma MovedKeepsPath(s: State, s': State, p: nat)
    requires p < |s.procs| && Moved(s, s', p)
    ensures s'.path == s.path && s'.commits == s.commits && |s'.procs| == |s.procs|
  {
  }

  lemma OpsOneMore(cs: seq<Commit>, c: Commit)
    ensures Ops(cs + [c]) == Ops(cs) + [c.op] && Ops(cs + [c])[..|cs|] == Ops(cs)
  {
  }

  /** How a step other than an arrival or a rename moves its process. */
  predicate Moved(s: State, s': State, p: nat)
    requires p < |s.procs|
  {
    && |s'.procs| == |s.procs|
    && (forall q :: 0 <= q < |s.procs| && q != p ==> s'.procs[q] == s.procs[q])
    && s'.commits == s.commits && s'.path == s.path
    && var x, y := s.procs[p], s'.procs[p];
       && y.op == x.op && !Ended(x.pc)
       && (x.pc == Closing ==> y.pc in {Committed, Dead})
       && (y.pc in {Closing, Committed} ==> x.pc == Closing)
       && (y.pc in {Blocked, Comparing} ==>
             (x.pc == Opening && s.path == Some(y.fd) && y.openedAt == |s.commits|)
             || (x.pc == Blocked && y.fd == x.fd && y.openedAt == x.openedAt))
       && (Critical(y.pc) ==> y.fd == x.fd && (Critical(x.pc) || (x.pc == Comparing && s.path == Some(x.fd))))
       && (y.charges == x.charges
           || (x.pc == Comparing && s.path != Some(x.fd) && y.pc == Retrying && y.charges == x.charges + [x.openedAt]))
  }

  lemma Mover(s: State, c: Choice)
    requires Enabled(s, c) && !c.Spawn? && !c.Replace? && s.path.Some?
    ensures Moved(s, Next(s, c), c.p)
  {
    hide InUse, Moved, Apply, Picked, Enabled, Next;
    if c.Retry? || c.Close? || c.Die? { MoverCloses(s, c); } else { MoverGoesOn(s, c); }
  }

  lemma MoverCloses(s: State, c: Choice)
    requires Enabled(s, c) && (c.Retry? || c.Close? || c.Die?)
    ensures Moved(s, Next(s, c), c.p)
  {
    hide Closed;
    var x := s.procs[c.p];
    match c
    case Retry(p) => ClosedMoves(s, p, Opening);
    case Close(p) => ClosedMoves(s, p, Outcome(x.pc));
    case Die(p) => ClosedMoves(if HasTemp(x.pc) then s.(litter := s.litter + {x.tmp}) else s, p, Dead);
  }

  lemma ClosedMoves(s: State, p: nat, pc: Pc)
    requires p < |s.procs|
    ensures Closed(s, p, pc).procs == s.procs[p := s.procs[p].(pc := pc)]
    ensures Closed(s, p, pc).commits == s.commits && Closed(s, p, pc).path == s.path
  {
    hide InUse;
  }

  lemma MoverGoesOn(s: State, c: Choice)
    requires Enabled(s, c) && s.path.Some?
    requires !(c.Spawn? || c.Replace? || c.Retry? || c.Close? || c.Die?)
    ensures Moved(s, Next(s, c), c.p)
  {
    hide Enabled, Next, Moved;
    if c.Open? || c.Lock? || c.Compare? { MoverOpens(s, c); } else { MoverWorks(s, c); }
  }

  lemma MoverOpens(s: State, c: Choice)
    requires Enabled(s, c) && s.path.Some? && (c.Open? || c.Lock? || c.Compare?)
    ensures Moved(s, Next(s, c), c.p)
  {
    hide Closed, Apply, Picked;
  }

  lemma MoverWorks(s: State, c: Choice)
    requires Enabled(s, c) && (c.Load? || c.Mutate? || c.Create? || c.Fill? || c.Fail?)
    ensures Moved(s, Next(s, c), c.p)
  {
    hide Closed, Apply, Picked, Compared;
  }

  lemma CommitsOnceMoved(s: State, s': State, p: nat)
    requires CommitsOnce(s) && p < |s.procs| && Moved(s, s', p)
    ensures CommitsOnce(s')
  {
    forall i | 0 <= i < |s'.commits|
      ensures s'.commits[i].pid < |s'.procs| && s'.commits[i].op == s'.procs[s'.commits[i].pid].op
              && s'.procs[s'.commits[i].pid].pc in {Closing, Committed, Dead}
    {
      assert s.commits[i] == s'.commits[i];
    }
    forall q | 0 <= q < |s'.procs| && s'.procs[q].pc in {Closing, Committed}
      ensures exists i :: 0 <= i < |s'.commits| && s'.commits[i].pid == q
    {
      var i :| 0 <= i < |s.commits| && s.commits[i].pid == q;
      assert s'.commits[i].pid == q;
    }
  }

  lemma CommitsOnceReplaced(s: State, p: nat)
    requires CommitsOnce(s) && Enabled(s, Replace(p))
    ensures CommitsOnce(Next(s, Replace(p)))
  {
    var s' := Next(s, Replace(p));
    assert s.procs[p].pc == Replacing;
    assert s'.procs == s.procs[p := s.procs[p].(pc := Closing)];
    assert s'.commits == s.commits + [s'.commits[|s.commits|]];
    assert s'.commits[|s.commits|].pid == p && s'.commits[|s.commits|].op == s.procs[p].op;
    hide Enabled, Next;
    OneMoreCommit(s, s', p);
  }

  lemma OneMoreCommit(s: State, s': State, p: nat)
    requires CommitsOnce(s) && p < |s.procs| && s.procs[p].pc == Replacing
    requires s'.procs == s.procs[p := s.procs[p].(pc := Closing)]
    requires |s'.commits| == |s.commits| + 1 && s'.commits[..|s.commits|] == s.commits
    requires s'.commits[|s.commits|].pid == p && s'.commits[|s.commits|].op == s.procs[p].op
    ensures CommitsOnce(s')
  {
    forall i | 0 <= i < |s.commits| ensures s.commits[i].pid != p && s'.commits[i] == s.commits[i] {
      assert s'.commits[..|s.commits|][i] == s.commits[i];
    }
    forall q | 0 <= q < |s'.procs| && s'.procs[q].pc in {Closing, Committed}
      ensures exists i :: 0 <= i < |s'.commits| && s'.commits[i].pid == q
    {
      if q != p { StillRecorded(s, s', q); }
    }
  }

  lemma StillRecorded(s: State, s': State, q: nat)
    requires CommitsOnce(s) && s.commits <= s'.commits && q < |s.procs| && s.procs[q].pc in {Closing, Committed}
    ensures exists i :: 0 <= i < |s'.commits| && s'.commits[i].pid == q
  {
    var i :| 0 <= i < |s.commits| && s.commits[i].pid == q;
    assert s'.commits[i].pid == q;
  }

  lemma CommitsOnceSpawned(s: State, c: Choice)
    requires CommitsOnce(s) && Enabled(s, c) && c.Spawn?
    ensures CommitsOnce(Next(s, c))
  {
  }

  lemma CommitsOnceKept(s: State, c: Choice, t0: Table)
    requires Inv(s, t0) && Enabled(s, c)
    ensures CommitsOnce(Next(s, c))
  {
    if c.Replace? {
      CommitsOnceReplaced(s, c.p);
    } else if c.Spawn? {
      CommitsOnceSpawned(s, c);
    } else {
      Mover(s, c);
      CommitsOnceMoved(s, Next(s, c), c.p);
    }
  }

  lemma CommitsAppliedKept(s: State, c: Choice, t0: Table)
    requires Inv(s, t0) && Enabled(s, c)
    ensures CommitsApplied(Next(s, c), t0)
  {
    hide Enabled, Next, Storage, CommitsOnce, Knows, Charged, Apply, Picked, ApplyAll;
    if c.Replace? { RenameApplied(s, c.p, t0); } else { Unrenamed(s, c, t0); }
  }

  lemma RenameApplied(s: State, p: nat, t0: Table)
    requires Inv(s, t0) && Enabled(s, Replace(p))
    ensures CommitsApplied(Next(s, Replace(p)), t0)
  {
    hide Storage, CommitsOnce, CommitsApplied, Charged, Apply, Picked, ApplyAll;
    var x := s.procs[p];
    assert Knows(s, t0, x);
    OneMoreApplied(s, Next(s, Replace(p)), t0, Commit(p, x.op, x.picked));
  }

  lemma OneMoreApplied(s: State, s': State, t0: Table, m: Commit)
    requires CommitsApplied(s, t0) && s'.commits == s.commits + [m]
    requires Apply(m.op, Serial(t0, s)).Some? && m.picked == Picked(m.op, Serial(t0, s))
    ensures CommitsApplied(s', t0)
  {
    hide Apply, Picked, ApplyAll;
    OpsOneMore(s.commits, m);
    forall i | 0 <= i < |s'.commits|
      ensures var before := ApplyAll(t0, Ops(s'.commits)[..i]);
              Apply(s'.commits[i].op, before).Some? && s'.commits[i].picked == Picked(s'.commits[i].op, before)
    {
      if i < |s.commits| { assert Ops(s'.commits)[..i] == Ops(s.commits)[..i]; }
    }
  }

  lemma ChargedMoved(s: State, s': State, p: nat, q: nat)
    requires CommitsOnce(s) && s.path.Some? && p < |s.procs| && q < |s.procs| && Moved(s, s', p) && Charged(s, q)
    ensures Charged(s', q)
  {
    if q == p && s'.procs[p].charges != s.procs[p].charges {
      var n := s.procs[p].openedAt;
      assert n < |s.commits|;
      assert s.commits[n].pid != p;
    }
  }

  lemma ChargedReplaced(s: State, p: nat, q: nat)
    requires s.path.Some? && Enabled(s, Replace(p)) && q < |s.procs| && Charged(s, q)
    ensures Charged(Next(s, Replace(p)), q)
  {
    var s' := Next(s, Replace(p));
    assert s'.procs[q].charges == s.procs[q].charges;
    forall i | 0 <= i < |s'.procs[q].charges|
      ensures s'.procs[q].charges[i] < |s'.commits| && s'.commits[s'.procs[q].charges[i]].pid != q
    {
      assert s.commits[s.procs[q].charges[i]].pid != q;
    }
  }

  lemma ChargedKept(s: State, c: Choice, t0: Table, p: nat)
    requires Inv(s, t0) && Enabled(s, c) && p < |Next(s, c).procs| && Next(s, c).path.Some?
    ensures Charged(Next(s, c), p)
  {
    if c.Replace? {
      ChargedReplaced(s, c.p, p);
    } else if !c.Spawn? {
      Mover(s, c);
      ChargedMoved(s, Next(s, c), c.p, p);
    } else if p < |s.procs| {
      assert Charged(s, p);
    }
  }

  /** A process's temporary file is not written or freed by anyone else. */
  lemma TempUntouched(s: State, c: Choice, p: nat)
    requires Storage(s) && Enabled(s, c) && p < |s.procs| && HasTemp(s.procs[p].pc) && !c.Spawn? && c.p != p
    requires s.procs[p].tmp in s.files
    ensures s.procs[p].tmp in Next(s, c).files && Next(s, c).files[s.procs[p].tmp] == s.files[s.procs[p].tmp]
  {
    ActorExists(s, c);
    assert OwnsFiles(s, p) && OwnsFiles(s, c.p);
    assert IsOpen(s.procs[c.p].pc) ==> s.procs[c.p].fd != s.procs[p].tmp;
    assert HasTemp(s.procs[c.p].pc) ==> s.procs[c.p].tmp != s.procs[p].tmp;
    hide Storage, Enabled, Next, OwnsFiles;
    FileStays(s, c, s.procs[p].tmp);
  }

  /** What process `p` knows once the step is taken. */
  predicate KnowsAfter(s: State, c: Choice, t0: Table, p: nat)
    requires Enabled(s, c)
  {
    var s' := Next(s, c);
    p < |s'.procs| && s'.path.Some? && Knows(s', t0, s'.procs[p])
  }

  lemma KnowsElse(s: State, c: Choice, t0: Table, p: nat)
    requires Inv(s, t0) && Enabled(s, c) && !c.Replace? && !c.Spawn? && p < |s.procs| && c.p != p
    ensures KnowsAfter(s, c, t0, p)
  {
    Mover(s, c);
    assert Knows(s, t0, s.procs[p]) && OwnsFiles(s, p);
    if HasTemp(s.procs[p].pc) { TempUntouched(s, c, p); }
  }

  lemma KnowsLoaded(s: State, p: nat, t0: Table)
    requires s.path.Some? && s.path.value in s.files && AtPath(s) && s.files[s.path.value] == Whole(Serial(t0, s))
    requires Enabled(s, Load(p))
    ensures KnowsAfter(s, Load(p), t0, p)
  {
    hide ApplyAll, Picked, Apply;
    assert Critical(s.procs[p].pc);
    assert s.procs[p].fd == s.path.value;
    assert Next(s, Load(p)).procs[p].pc == Mutating;
  }

  lemma KnowsMutated(s: State, p: nat, t0: Table)
    requires s.path.Some? && Enabled(s, Mutate(p)) && Knows(s, t0, s.procs[p]) && s.procs[p].seen == |s.commits|
    ensures KnowsAfter(s, Mutate(p), t0, p)
  {
    hide ApplyAll, Picked, Apply;
    assert Ops(s.commits)[..|s.commits|] == Ops(s.commits);
  }

  lemma KnowsWritten(s: State, c: Choice, t0: Table)
    requires s.path.Some? && Enabled(s, c) && (c.Create? || c.Fill? || c.Fail?) && Knows(s, t0, s.procs[c.p])
    ensures KnowsAfter(s, c, t0, c.p)
  {
    hide ApplyAll, Picked, Apply;
  }

  lemma KnowsWaiting(s: State, c: Choice, t0: Table)
    requires s.path.Some? && Enabled(s, c) && (c.Open? || c.Lock? || c.Compare?)
    ensures KnowsAfter(s, c, t0, c.p)
  {
    hide ApplyAll, Picked;
  }

  lemma KnowsClosing(s: State, c: Choice, t0: Table)
    requires s.path.Some? && Enabled(s, c) && (c.Retry? || c.Close? || c.Die?)
    requires Knows(s, t0, s.procs[c.p])
    ensures KnowsAfter(s, c, t0, c.p)
  {
    hide InUse, Apply, ApplyAll, Picked, Closed;
    var x := s.procs[c.p];
    match c
    case Retry(p) => ClosedMoves(s, p, Opening);
    case Close(p) => ClosedMoves(s, p, Outcome(x.pc));
    case Die(p) => ClosedMoves(if HasTemp(x.pc) then s.(litter := s.litter + {x.tmp}) else s, p, Dead);
  }

  lemma KnowsSelf(s: State, c: Choice, t0: Table)
    requires Inv(s, t0) && Enabled(s, c) && !c.Replace? && !c.Spawn?
    ensures KnowsAfter(s, c, t0, c.p)
  {
    assert Knows(s, t0, s.procs[c.p]) && s.path.Some?;
    assert c.Load? ==> s.path.value in s.files && AtPath(s) && s.files[s.path.value] == Whole(Serial(t0, s));
    assert c.Mutate? ==> s.procs[c.p].seen == |s.commits|;
    hide Inv, InUse, Apply, ApplyAll, Picked, Next, KnowsAfter, Knows, AtPath, Serial;
    if c.Open? || c.Lock? || c.Compare? {
      KnowsWaiting(s, c, t0);
    } else if c.Retry? || c.Close? || c.Die? {
      KnowsClosing(s, c, t0);
    } else if c.Load? {
      KnowsLoaded(s, c.p, t0);
    } else if c.Mutate? {
      KnowsMutated(s, c.p, t0);
    } else {
      KnowsWritten(s, c, t0);
    }
  }

  lemma KnowsSpawned(s: State, c: Choice, t0: Table, p: nat)
    requires Enabled(s, c) && c.Spawn? && s.path.Some? && p <= |s.procs|
    requires p < |s.procs| ==> Knows(s, t0, s.procs[p])
    ensures KnowsAfter(s, c, t0, p)
  {
    hide Apply, ApplyAll, Picked;
  }

  lemma ProcessesStay(s: State, c: Choice)
    requires Enabled(s, c)
    ensures |Next(s, c).procs| == |s.procs| + if c.Spawn? then 1 else 0
  {
    hide InUse, Apply, Picked, Closed;
    match c
    case Retry(p) => ClosedMoves(s, p, Opening);
    case Close(p) => ClosedMoves(s, p, Outcome(s.procs[p].pc));
    case Die(p) =>
      var x := s.procs[p];
      ClosedMoves(if HasTemp(x.pc) then s.(litter := s.litter + {x.tmp}) else s, p, Dead);
    case _ =>
  }

  lemma KnowsKept(s: State, c: Choice, t0: Table, p: nat)
    requires Inv(s, t0) && Enabled(s, c) && !c.Replace? && p < |Next(s, c).procs|
    ensures KnowsAfter(s, c, t0, p)
  {
    assert s.path.Some? && (p < |s.procs| ==> Knows(s, t0, s.procs[p]));
    assert p < |s.procs| || (c.Spawn? && p == |s.procs|) by { ProcessesStay(s, c); }
    hide Inv, InUse, Apply, ApplyAll, Picked, Next, Knows, KnowsAfter;
    if c.Spawn? {
      KnowsSpawned(s, c, t0, p);
    } else if p == c.p {
      KnowsSelf(s, c, t0);
    } else {
      KnowsElse(s, c, t0, p);
    }
  }

  lemma ReplaceKeepsKnown(s: State, p: nat, t0: Table, q: nat)
    requires Inv(s, t0) && Enabled(s, Replace(p)) && q < |s.procs|
    ensures KnowsAfter(s, Replace(p), t0, q)
  {
    hide Apply, ApplyAll, Picked, InUse;
    var s' := Next(s, Replace(p));
    assert Knows(s, t0, s.procs[q]);
    if q != p && Critical(s.procs[q].pc) {
      OneCritical(s, p, q);
    }
    OpsOneMore(s.commits, s'.commits[|s.commits|]);
    if s.procs[q].pc in {Abandoning, NothingDone} {
      assert Ops(s'.commits)[..s.procs[q].seen] == Ops(s.commits)[..s.procs[q].seen];
    }
  }

  lemma ContentKept(s: State, c: Choice, t0: Table)
    requires Inv(s, t0) && Enabled(s, c)
    ensures var s' := Next(s, c);
            s'.path.Some? && s'.path.value in s'.files && s'.files[s'.path.value] == Whole(Serial(t0, s'))
  {
    if c.Replace? {
      assert Knows(s, t0, s.procs[c.p]);
      OpsOneMore(s.commits, Next(s, c).commits[|s.commits|]);
    } else {
      Unrenamed(s, c, t0);
    }
  }

  lemma StepKeeps(s: State, c: Choice, t0: Table)
    requires Inv(s, t0) && Enabled(s, c)
    ensures Inv(Next(s, c), t0)
  {
    var s' := Next(s, c);
    StorageKept(s, c);
    AtPathKept(s, c);
    ContentKept(s, c, t0);
    CommitsOnceKept(s, c, t0);
    CommitsAppliedKept(s, c, t0);
    forall p | 0 <= p < |s'.procs| ensures Knows(s', t0, s'.procs[p]) && Charged(s', p) {
      ChargedKept(s, c, t0, p);
      if c.Replace? { ReplaceKeepsKnown(s, c.p, t0, p); } else { KnowsKept(s, c, t0, p); }
    }
  }

  lemma {:induction false} RunKeeps(s: State, cs: seq<Choice>, t0: Table)
    requires Inv(s, t0) && IsRun(s, cs)
    ensures Inv(Run(s, cs), t0)
    decreases |cs|
  {
    if cs != [] {
      StepKeeps(s, cs[0], t0);
      RunKeeps(Next(s, cs[0]), cs[1..], t0);
    }
  }

  lemma EveryRun(s: State, cs: seq<Choice>, t0: Table)
    requires Start(s, t0) && IsRun(s, cs)
    ensures Inv(Run(s, cs), t0)
  {
    StartIsInv(s, t0);
    RunKeeps(s, cs, t0);
  }

  lemma StartIsInv(s: State, t0: Table)
    requires Start(s, t0)
    ensures Inv(s, t0)
  {
    assert Ops(s.commits) == [];
  }
}
