/** What the guest lifecycle promises, for every run over any number of state directories. */
module GuestTheorems {
  import opened Prelude
  import opened Counting
  import opened GuestLifecycle
  import opened GuestSafety

  lemma Reachable(w: World, cs: seq<Choice>)
    requires Start(w) && IsRun(w, cs)
    ensures Inv(Run(w, cs)) && |Run(w, cs).dirs| == |w.dirs|
  {
    assert Inv(w);
    EveryRun(w, cs);
  }

  // ----- the reset point --------------------------------------------------------------------

  /** Every cold start of a provisioned guest, whatever was killed or lost before it, boots
      from an empty overlay: it finds exactly the reset point's disk, which it opens as the
      backing file, and a guest that owns its reset point finds exactly its variables. */
  lemma ColdStartSeesTheResetPoint(w: World, cs: seq<Choice>, d: Id, ino: Ino)
    requires Start(w) && IsRun(w, cs) && Enabled(Run(w, cs), Advance(d, ino))
    requires var s := Run(w, cs).dirs[d]; s.job.Launching? && s.config.Some? && s.config.value.provisioned
    ensures var f := Run(w, cs); var b := Next(f, Advance(d, ino)).dirs[d].boot;
            && b.Some? && b.value.mode == OverlayMode && b.value.writes == []
            && Some(b.value.diskAt) == RawAt(f, ResetDisk(f, d))
            && b.value.backing.Some? && NamedBy(f, ResetDisk(f, d), b.value.backing.value)
            && (f.dirs[d].config.value.base.None? ==> Some(b.value.varsAt) == RawAt(f, Path(d, BaseVars)))
  {
    Reachable(w, cs);
    var f := Run(w, cs);
    LaunchEffect(f, Advance(d, ino));
    ColdFiles(f, d);
    hide IsRun, Run, Inv, Enabled, Next, CanAdvance, EditOf, Advanced;
    var disk := RawAt(f, ResetDisk(f, d)).value;
    assert disk + [] == disk;
  }

  /** What a cold start finds. */
  lemma ColdFiles(f: World, d: Id)
    requires Inv(f) && d < |f.dirs|
    requires var s := f.dirs[d]; s.job.Launching? && s.config.Some? && s.config.value.provisioned
    ensures f.dirs[d].boot.None? && ModeOf(f.dirs[d].config.value) == OverlayMode && ReadyToBoot(f, d)
    ensures RawAt(f, ResetDisk(f, d)).Some? && ResetDisk(f, d) in f.names && Path(d, RunDisk) in f.names
    ensures BaseOf(f, d) < |f.dirs| && Provisioned(f, BaseOf(f, d))
    ensures f.names[Path(d, RunDisk)] != f.names[ResetDisk(f, d)] && OnlyNamed(f, f.names[ResetDisk(f, d)], ResetDisk(f, d))
  {
    Here(f, d);
    hide Inv, SaveOk, BootOk, InstallOnce;
  }

  /** An instance's variables are its base's as they were copied: from the copy to the boot
      nothing touches them. */
  lemma {:induction false} CopiedVarsReachTheBoot(w: World, cs: seq<Choice>, d: Id)
    requires Inv(w) && d < |w.dirs| && IsRun(w, cs)
    requires forall i :: 0 <= i < |cs| && cs[i].d == d ==> cs[i].Advance?
    requires var s := w.dirs[d]; s.boot.None? && (s.job.Recording? || s.job.Launching? || s.job == Idle)
    ensures |Run(w, cs).dirs| == |w.dirs|
    ensures var j := Run(w, cs).dirs[d].job;
            j.Recording? || j.Launching? ==> DataAt(Run(w, cs), Path(d, RunVars)) == DataAt(w, Path(d, RunVars))
    decreases |cs|
  {
    if cs != [] {
      var w' := Next(w, cs[0]);
      StepKeeps(w, cs[0]);
      CopyUntouched(w, cs[0], d);
      forall i | 0 <= i < |cs[1..]| && cs[1..][i].d == d ensures cs[1..][i].Advance? {
        assert cs[1..][i] == cs[i + 1];
      }
      hide Inv, Enabled, Next;
      if w'.dirs[d].boot.Some? {
        IdleStaysIdle(w', cs[1..], d);
      } else {
        CopiedVarsReachTheBoot(w', cs[1..], d);
      }
    }
  }

  lemma CopyUntouched(w: World, c: Choice, d: Id)
    requires Inv(w) && d < |w.dirs| && Enabled(w, c) && (c.d == d ==> c.Advance?)
    requires var s := w.dirs[d]; s.boot.None? && (s.job.Recording? || s.job.Launching? || s.job == Idle)
    ensures var w' := Next(w, c);
            && |w'.dirs| == |w.dirs| && DataAt(w', Path(d, RunVars)) == DataAt(w, Path(d, RunVars))
            && var j := w'.dirs[d].job; if w'.dirs[d].boot.Some? then j == Idle else j.Recording? || j.Launching? || j == Idle
  {
    if c.d != d {
      OthersUntouched(w, c, d);
      assert SameFile(w, Next(w, c), Path(d, RunVars));
    }
  }

  lemma {:induction false} IdleStaysIdle(w: World, cs: seq<Choice>, d: Id)
    requires Inv(w) && d < |w.dirs| && IsRun(w, cs) && w.dirs[d].job == Idle
    requires forall i :: 0 <= i < |cs| && cs[i].d == d ==> cs[i].Advance?
    ensures |Run(w, cs).dirs| == |w.dirs| && Run(w, cs).dirs[d] == w.dirs[d]
    decreases |cs|
  {
    if cs != [] {
      assert cs[0].d != d;
      StepKeeps(w, cs[0]);
      OthersUntouched(w, cs[0], d);
      forall i | 0 <= i < |cs[1..]| && cs[1..][i].d == d ensures cs[1..][i].Advance? {
        assert cs[1..][i] == cs[i + 1];
      }
      IdleStaysIdle(Next(w, cs[0]), cs[1..], d);
    }
  }

  /** The reset point of a prepared guest changes in two ways only: its own base-mode boot
      writes it, or its own `down --save`, with no guest running, renames the new files over it. */
  lemma ResetPointChanges(w: World, cs: seq<Choice>, c: Choice, d: Id)
    requires Start(w) && IsRun(w, cs) && Enabled(Run(w, cs), c) && d < |Run(w, cs).dirs|
    requires Run(w, cs).dirs[d].config.Some?
    requires var f := Run(w, cs); var g := Next(f, c);
             DataAt(g, Path(d, BaseDisk)) != DataAt(f, Path(d, BaseDisk)) || DataAt(g, Path(d, BaseVars)) != DataAt(f, Path(d, BaseVars))
    ensures var s := Run(w, cs).dirs[d];
            && c.d == d && s.config.value.base.None?
            && (  ((c.GuestWrites? || c.GuestSetsVars?) && s.boot.value.mode == BaseMode)
               || (c.Advance? && (s.job == RenamingVars || s.job == RenamingDisk) && s.boot.None?))
  {
    Reachable(w, cs);
    var f := Run(w, cs);
    hide IsRun, Run;
    assert DirOk(f, d);
    if c.d != d { OthersResetPoint(f, c, d); } else { OwnResetPoint(f, c); }
  }

  lemma OthersResetPoint(f: World, c: Choice, d: Id)
    requires Inv(f) && Enabled(f, c) && d < |f.dirs| && c.d != d
    ensures DataAt(Next(f, c), Path(d, BaseDisk)) == DataAt(f, Path(d, BaseDisk))
    ensures DataAt(Next(f, c), Path(d, BaseVars)) == DataAt(f, Path(d, BaseVars))
  {
    OthersUntouched(f, c, d);
    assert SameFile(f, Next(f, c), Path(d, BaseDisk)) && SameFile(f, Next(f, c), Path(d, BaseVars));
  }

  lemma OwnResetPoint(f: World, c: Choice)
    requires Inv(f) && Enabled(f, c) && f.dirs[c.d].config.Some?
    ensures var g := Next(f, c); var s := f.dirs[c.d];
            || (DataAt(g, Path(c.d, BaseDisk)) == DataAt(f, Path(c.d, BaseDisk)) && DataAt(g, Path(c.d, BaseVars)) == DataAt(f, Path(c.d, BaseVars)))
            || ((c.GuestWrites? || c.GuestSetsVars?) && s.boot.value.mode == BaseMode && s.config.value.base.None?)
            || (c.Advance? && (s.job == RenamingVars || s.job == RenamingDisk) && s.boot.None? && s.config.value.base.None?)
  {
    hide Inv, Enabled, Next, DataAt;
    if c.Advance? { AdvanceResetPoint(f, c); } else { RestResetPoint(f, c); }
  }

  lemma AdvanceResetPoint(f: World, c: Choice)
    requires Inv(f) && Enabled(f, c) && c.Advance? && f.dirs[c.d].config.Some?
    ensures var g := Next(f, c); var s := f.dirs[c.d];
            || (DataAt(g, Path(c.d, BaseDisk)) == DataAt(f, Path(c.d, BaseDisk)) && DataAt(g, Path(c.d, BaseVars)) == DataAt(f, Path(c.d, BaseVars)))
            || ((s.job == RenamingVars || s.job == RenamingDisk) && s.boot.None? && s.config.value.base.None?)
  {
    hide Inv, FilesOk, Next, Edited, Advanced, Grounded, BootOk, InstallOnce;
    Here(f, c.d);
    OwnEffect(f, c, Path(c.d, BaseDisk));
    OwnEffect(f, c, Path(c.d, BaseVars));
  }

  lemma RestResetPoint(f: World, c: Choice)
    requires Inv(f) && Enabled(f, c) && !c.Advance? && f.dirs[c.d].config.Some?
    ensures var g := Next(f, c); var s := f.dirs[c.d];
            || (DataAt(g, Path(c.d, BaseDisk)) == DataAt(f, Path(c.d, BaseDisk)) && DataAt(g, Path(c.d, BaseVars)) == DataAt(f, Path(c.d, BaseVars)))
            || ((c.GuestWrites? || c.GuestSetsVars?) && s.boot.value.mode == BaseMode && s.config.value.base.None?)
  {
    hide Inv, Enabled, Next, DataAt;
    if c.GuestWrites? || c.GuestSetsVars? { WritesResetPoint(f, c); } else { QuietResetPoint(f, c); }
  }

  lemma WritesResetPoint(f: World, c: Choice)
    requires Inv(f) && Enabled(f, c) && (c.GuestWrites? || c.GuestSetsVars?) && f.dirs[c.d].config.Some?
    ensures var g := Next(f, c); var s := f.dirs[c.d];
            || (DataAt(g, Path(c.d, BaseDisk)) == DataAt(f, Path(c.d, BaseDisk)) && DataAt(g, Path(c.d, BaseVars)) == DataAt(f, Path(c.d, BaseVars)))
            || (s.boot.value.mode == BaseMode && s.config.value.base.None?)
  {
    hide Inv, CanAdvance, EditOf, Advanced, Grounded, JobOk, SaveOk, InstallOnce;
    Here(f, c.d);
  }

  lemma QuietResetPoint(f: World, c: Choice)
    requires Enabled(f, c) && !c.Advance? && !c.GuestWrites? && !c.GuestSetsVars?
    ensures var g := Next(f, c);
            DataAt(g, Path(c.d, BaseDisk)) == DataAt(f, Path(c.d, BaseDisk)) && DataAt(g, Path(c.d, BaseVars)) == DataAt(f, Path(c.d, BaseVars))
  {
    hide CanAdvance, EditOf, Advanced;
  }

  /** A completed save makes this boot the reset point: when the disk is renamed into place,
      disk and variables are exactly what the stopped guest had. */
  lemma SaveKeepsThisBoot(w: World, cs: seq<Choice>, d: Id, ino: Ino)
    requires Start(w) && IsRun(w, cs) && Enabled(Run(w, cs), Advance(d, ino)) && Run(w, cs).dirs[d].job == RenamingDisk
    ensures Run(w, cs).dirs[d].config.Some? && Run(w, cs).dirs[d].boot.None?
    ensures var f := Run(w, cs); var mode := f.dirs[d].config.value.mode; var g := Next(f, Advance(d, ino));
            && RawAt(g, Path(d, BaseDisk)).Some? && RawAt(g, Path(d, BaseDisk)) == ImageAt(f, DiskOf(d, mode))
            && DataAt(g, Path(d, BaseVars)).Some? && DataAt(g, Path(d, BaseVars)) == DataAt(f, VarsOf(d, mode))
  {
    Reachable(w, cs);
    var f := Run(w, cs);
    hide IsRun, Run;
    assert DirOk(f, d);
    OwnEffect(f, Advance(d, ino), Path(d, BaseDisk));
    OwnEffect(f, Advance(d, ino), Path(d, BaseVars));
    hide Next, Inv;
  }

  predicate SavesEarly(j: Job) {
    (j.Stopping? && j.keep) || j == Clearing || j == Flattening || j == CopyingNewVars || j == RenamingVars || j == RenamingDisk || j == Idle
  }

  /** A choice by which a save makes progress or fails without renaming anything, or by
      which the guest, still running, writes. */
  predicate WithoutRename(w: World, c: Choice, d: Id)
    requires d < |w.dirs|
  {
    c.d == d ==>
      c.PowerOff? || c.FlattenFails? || c.Kill? || c.GuestWrites? || c.GuestSetsVars?
      || (c.Advance? && w.dirs[d].job != RenamingVars && w.dirs[d].job != RenamingDisk)
  }

  predicate AllWithoutRename(w: World, cs: seq<Choice>, d: Id)
    requires IsRun(w, cs)
    decreases |cs|
  {
    d < |w.dirs| && (cs == [] || (WithoutRename(w, cs[0], d) && AllWithoutRename(Next(w, cs[0]), cs[1..], d)))
  }

  /** What the guest of `d` writes to its disk, and to its variables, in the course of a run. */
  function DiskWrites(cs: seq<Choice>, d: Id): seq<int> {
    if cs == [] then []
    else (if cs[0].GuestWrites? && cs[0].d == d then [cs[0].x] else []) + DiskWrites(cs[1..], d)
  }

  function VarWrites(cs: seq<Choice>, d: Id): seq<int> {
    if cs == [] then []
    else (if cs[0].GuestSetsVars? && cs[0].d == d then [cs[0].x] else []) + VarWrites(cs[1..], d)
  }

  /** The reset point's and the last boot's files. */
  const Kept: set<Name> := {BaseDisk, BaseVars, RunDisk, RunVars}

  /** What a guest that boots in `mode` writes into the file of this name. */
  function Share(n: Name, mode: Mode, cs: seq<Choice>, d: Id): seq<int> {
    if Path(d, n) == DiskOf(d, mode) then DiskWrites(cs, d)
    else if Path(d, n) == VarsOf(d, mode) then VarWrites(cs, d)
    else []
  }

  function Grown(x: Option<Data>, more: seq<int>): Option<Data> {
    match x
    case Some(Raw(bytes)) => Some(Raw(bytes + more))
    case Some(Overlay(backing, delta)) => Some(Overlay(backing, delta + more))
    case None => None
  }

  lemma GrownTwice(x: Option<Data>, a: seq<int>, b: seq<int>)
    ensures Grown(Grown(x, a), b) == Grown(x, a + b)
    ensures Grown(x, []) == x
  {
    match x
    case Some(Raw(bytes)) => assert bytes + a + b == bytes + (a + b) && bytes + [] == bytes;
    case Some(Overlay(_, delta)) => assert delta + a + b == delta + (a + b) && delta + [] == delta;
    case None =>
  }

  /** A directory in which a save may be under way, before its first rename. */
  predicate SavesEarlyAt(w: World, d: Id)
    requires d < |w.dirs|
  {
    SavesEarly(w.dirs[d].job) && w.dirs[d].config.Some?
  }

  lemma EarlySaveToolStep(w: World, c: Choice, d: Id, n: Name)
    requires Inv(w) && Enabled(w, c) && d < |w.dirs| && SavesEarlyAt(w, d) && WithoutRename(w, c, d) && n in Kept
    requires c.d == d ==> !c.GuestWrites? && !c.GuestSetsVars?
    ensures |Next(w, c).dirs| == |w.dirs| && SavesEarlyAt(Next(w, c), d) && Next(w, c).dirs[d].config == w.dirs[d].config
    ensures DataAt(Next(w, c), Path(d, n)) == DataAt(w, Path(d, n))
  {
    if c.d != d {
      OthersUntouched(w, c, d);
      assert SameFile(w, Next(w, c), Path(d, n));
    } else if c.Advance? {
      OwnEffect(w, c, Path(d, n));
    }
  }

  lemma EarlySaveGuestStep(w: World, c: Choice, d: Id, n: Name)
    requires Inv(w) && Enabled(w, c) && d < |w.dirs| && SavesEarlyAt(w, d) && n in Kept && c.d == d
    requires c.GuestWrites? || c.GuestSetsVars?
    ensures |Next(w, c).dirs| == |w.dirs| && SavesEarlyAt(Next(w, c), d) && Next(w, c).dirs[d].config == w.dirs[d].config
    ensures DataAt(Next(w, c), Path(d, n)) == Grown(DataAt(w, Path(d, n)), Share(n, ModeOf(w.dirs[d].config.value), [c], d))
  {
    assert DirOk(w, d) && FilesOk(w);
    var b := w.dirs[d].boot.value;
    assert NamedBy(w, DiskOf(d, b.mode), b.disk) && NamedBy(w, VarsOf(d, b.mode), b.vars) && b.mode == ModeOf(w.dirs[d].config.value);
    assert forall p, q :: p in w.names && q in w.names && p != q ==> w.names[p] != w.names[q];
    var mode := b.mode;
    var p := Path(d, n);
    ShareOfOne(n, mode, c, d);
    GrownTwice(DataAt(w, p), [], []);
    hide Inv, DirOk, FilesOk, Share, CanAdvance, EditOf, Advanced;
    if p == (if c.GuestWrites? then DiskOf(d, mode) else VarsOf(d, mode)) {
      assert DataAt(Next(w, c), p) == Grown(DataAt(w, p), [c.x]);
    } else {
      assert DataAt(Next(w, c), p) == DataAt(w, p);
    }
  }

  lemma ShareOfOne(n: Name, mode: Mode, c: Choice, d: Id)
    ensures Share(n, mode, [c], d) ==
            if c.GuestWrites? && c.d == d && Path(d, n) == DiskOf(d, mode) then [c.x]
            else if c.GuestSetsVars? && c.d == d && Path(d, n) == VarsOf(d, mode) then [c.x]
            else []
  {
    assert [c][1..] == [] && DiskWrites([], d) == [] && VarWrites([], d) == [];
    assert DiskWrites([c], d) == if c.GuestWrites? && c.d == d then [c.x] else [];
    assert VarWrites([c], d) == if c.GuestSetsVars? && c.d == d then [c.x] else [];
  }

  lemma EarlySaveStep(w: World, c: Choice, d: Id, n: Name)
    requires Inv(w) && Enabled(w, c) && d < |w.dirs| && SavesEarlyAt(w, d) && WithoutRename(w, c, d) && n in Kept
    ensures |Next(w, c).dirs| == |w.dirs| && SavesEarlyAt(Next(w, c), d) && Next(w, c).dirs[d].config == w.dirs[d].config
    ensures DataAt(Next(w, c), Path(d, n)) == Grown(DataAt(w, Path(d, n)), Share(n, ModeOf(w.dirs[d].config.value), [c], d))
  {
    hide Inv, Enabled, Next, SavesEarlyAt, WithoutRename, DataAt, Grown, ModeOf, Share;
    if c.d == d && (c.GuestWrites? || c.GuestSetsVars?) {
      EarlySaveGuestStep(w, c, d, n);
    } else {
      EarlySaveToolStep(w, c, d, n);
      ShareOfOne(n, ModeOf(w.dirs[d].config.value), c, d);
      GrownTwice(DataAt(w, Path(d, n)), [], []);
    }
  }

  lemma ShareGoesOn(n: Name, mode: Mode, c: Choice, cs: seq<Choice>, d: Id)
    ensures Share(n, mode, [c] + cs, d) == Share(n, mode, [c], d) + Share(n, mode, cs, d)
  {
    var all := [c] + cs;
    assert all[1..] == cs && all[0] == c && [c][1..] == [];
    assert DiskWrites([c], d) + DiskWrites(cs, d) == DiskWrites(all, d);
    assert VarWrites([c], d) + VarWrites(cs, d) == VarWrites(all, d);
  }

  lemma {:induction false} EarlySave(w: World, cs: seq<Choice>, d: Id, n: Name)
    requires Inv(w) && d < |w.dirs| && IsRun(w, cs) && SavesEarlyAt(w, d) && AllWithoutRename(w, cs, d) && n in Kept
    ensures DataAt(Run(w, cs), Path(d, n)) == Grown(DataAt(w, Path(d, n)), Share(n, ModeOf(w.dirs[d].config.value), cs, d))
    decreases |cs|
  {
    var before, mode := DataAt(w, Path(d, n)), ModeOf(w.dirs[d].config.value);
    if cs == [] {
      GrownTwice(before, [], []);
    } else {
      StepKeeps(w, cs[0]);
      EarlySaveStep(w, cs[0], d, n);
      hide Inv, Enabled, Next, SavesEarlyAt, DataAt, Grown, Share, ModeOf;
      EarlySave(Next(w, cs[0]), cs[1..], d, n);
      assert [cs[0]] + cs[1..] == cs;
      ShareGoesOn(n, mode, cs[0], cs[1..], d);
      GrownTwice(before, Share(n, mode, [cs[0]], d), Share(n, mode, cs[1..], d));
    }
  }

  /** A `down --save` that does not get as far as its first rename, because the retrim or the
      conversion fails, the shutdown times out or it is killed, changes nothing of its own,
      however many steps it took and whatever others did meanwhile. What changes is what the
      guest wrote while it was still running: on an overlay the reset point stays as it was
      and the overlay and its variables grow by just these writes; in base mode it is the
      reset point that grows by them. */
  lemma FailedSaveChangesNothing(w: World, cs: seq<Choice>, d: Id)
    requires Inv(w) && d < |w.dirs| && IsRun(w, cs) && SavesEarlyAt(w, d) && AllWithoutRename(w, cs, d)
    ensures var f := Run(w, cs); var disk, vars := DiskWrites(cs, d), VarWrites(cs, d);
            if ModeOf(w.dirs[d].config.value) == OverlayMode then
              && DataAt(f, Path(d, BaseDisk)) == DataAt(w, Path(d, BaseDisk))
              && DataAt(f, Path(d, BaseVars)) == DataAt(w, Path(d, BaseVars))
              && DataAt(f, Path(d, RunDisk)) == Grown(DataAt(w, Path(d, RunDisk)), disk)
              && DataAt(f, Path(d, RunVars)) == Grown(DataAt(w, Path(d, RunVars)), vars)
            else
              && DataAt(f, Path(d, BaseDisk)) == Grown(DataAt(w, Path(d, BaseDisk)), disk)
              && DataAt(f, Path(d, BaseVars)) == Grown(DataAt(w, Path(d, BaseVars)), vars)
              && DataAt(f, Path(d, RunDisk)) == DataAt(w, Path(d, RunDisk))
              && DataAt(f, Path(d, RunVars)) == DataAt(w, Path(d, RunVars))
  {
    EarlySave(w, cs, d, BaseDisk);
    EarlySave(w, cs, d, BaseVars);
    EarlySave(w, cs, d, RunDisk);
    EarlySave(w, cs, d, RunVars);
    hide Inv, IsRun, Run, DataAt, Grown, DiskWrites, VarWrites, AllWithoutRename;
    forall n ensures Grown(DataAt(w, Path(d, n)), []) == DataAt(w, Path(d, n)) { GrownTwice(DataAt(w, Path(d, n)), [], []); }
  }

  // ----- shared bases ----------------------------------------------------------------------------

  /** Whatever any number of other directories do, instances of this base and their guests
      among them, every file the base names keeps its inode and its contents. */
  lemma {:induction false} OthersLeaveTheBaseAlone(w: World, cs: seq<Choice>, b: Id)
    requires Inv(w) && b < |w.dirs| && IsRun(w, cs) && forall i :: 0 <= i < |cs| ==> cs[i].d != b
    ensures |Run(w, cs).dirs| == |w.dirs| && Untouched(w, Run(w, cs), b)
    decreases |cs|
  {
    if cs != [] {
      assert cs[0].d != b;
      StepKeeps(w, cs[0]);
      OthersUntouched(w, cs[0], b);
      forall i | 0 <= i < |cs[1..]| ensures cs[1..][i].d != b { assert cs[1..][i] == cs[i + 1]; }
      hide Inv, Enabled, Next;
      OthersLeaveTheBaseAlone(Next(w, cs[0]), cs[1..], b);
    }
  }

  predicate BorrowsBase(s: Dir) { s.job.Adopting? || (s.config.Some? && s.config.value.base.Some?) }

  /** What an instance and its guest write: the contents of its own run.qcow2 and run-vars.fd,
      under these two names. No other file anywhere changes, and no other name; least of all
      the backing file, which is somebody else's inode. */
  lemma InstancesWriteTheirRunFiles(w: World, cs: seq<Choice>, c: Choice)
    requires Start(w) && IsRun(w, cs) && Enabled(Run(w, cs), c) && BorrowsBase(Run(w, cs).dirs[c.d])
    ensures OnlyWrites(Run(w, cs), Next(Run(w, cs), c), {Path(c.d, RunDisk), Path(c.d, RunVars)})
  {
    Reachable(w, cs);
    var f := Run(w, cs);
    hide IsRun, Run;
    if c.GuestWrites? || c.GuestSetsVars? { InstanceGuestWrites(f, c); } else { InstanceEdits(f, c); }
  }

  /** Between two worlds only these paths are created, removed or renamed, and among the
      files that were there only theirs have other contents. */
  ghost predicate OnlyWrites(w: World, w': World, ps: set<Path>) {
    && (forall i :: i in w.data ==> i in w'.data)
    && (forall i :: i in w.data && w'.data[i] != w.data[i] ==> exists p :: p in ps && NamedBy(w, p, i))
    && (forall p :: p !in ps ==> (p in w'.names <==> p in w.names) && (p in w.names ==> w'.names[p] == w.names[p]))
  }

  lemma InstanceGuestWrites(f: World, c: Choice)
    requires Inv(f) && Enabled(f, c) && BorrowsBase(f.dirs[c.d]) && (c.GuestWrites? || c.GuestSetsVars?)
    ensures OnlyWrites(f, Next(f, c), {Path(c.d, RunDisk), Path(c.d, RunVars)})
  {
    assert DirOk(f, c.d);
    var b := f.dirs[c.d].boot.value;
    assert NamedBy(f, Path(c.d, RunDisk), b.disk) && NamedBy(f, Path(c.d, RunVars), b.vars);
    hide Inv, BootOk;
  }

  lemma EditWrites(w: World, e: Edit, ino: Ino)
    requires FilesOk(w) && (e.Write? ==> ino !in w.data)
    ensures OnlyWrites(w, Edited(w, e, ino), Touched(e))
  {
    if e.Write? && e.at in w.names {
      var i := w.names[e.at];
      assert e.at in Touched(e) && NamedBy(w, e.at, i);
    }
  }

  lemma InstanceEditPaths(f: World, d: Id)
    requires Inv(f) && d < |f.dirs| && BorrowsBase(f.dirs[d]) && CanAdvance(f, d)
    ensures Touched(EditOf(f, d)) <= {Path(d, RunDisk), Path(d, RunVars)}
  {
    assert DirOk(f, d);
  }

  lemma InstanceQuiet(f: World, c: Choice)
    requires Inv(f) && Enabled(f, c) && BorrowsBase(f.dirs[c.d]) && !c.Advance? && !c.GuestWrites? && !c.GuestSetsVars?
    ensures Next(f, c).names == f.names && Next(f, c).data == f.data
  {
    assert DirOk(f, c.d);
  }

  lemma InstanceEdits(f: World, c: Choice)
    requires Inv(f) && Enabled(f, c) && BorrowsBase(f.dirs[c.d]) && !c.GuestWrites? && !c.GuestSetsVars?
    ensures OnlyWrites(f, Next(f, c), {Path(c.d, RunDisk), Path(c.d, RunVars)})
  {
    if c.Advance? {
      InstanceEditPaths(f, c.d);
      EditWrites(f, EditOf(f, c.d), c.ino);
      var g := Edited(f, EditOf(f, c.d), c.ino);
      assert Next(f, c).names == g.names && Next(f, c).data == g.data;
      hide EditOf, Edited, CanAdvance, Inv, Next, Enabled;
      MoreWrites(f, g, Touched(EditOf(f, c.d)), {Path(c.d, RunDisk), Path(c.d, RunVars)});
    } else {
      InstanceQuiet(f, c);
    }
  }

  lemma MoreWrites(w: World, w': World, ps: set<Path>, qs: set<Path>)
    requires OnlyWrites(w, w', ps) && ps <= qs
    ensures OnlyWrites(w, w', qs)
  {
  }

  /** An instance never owns a base disk, only ever boots its overlay, and never saves; and
      what it references is a prepared original, never another instance. */
  lemma InstancesOnlyOverlay(w: World, cs: seq<Choice>, d: Id)
    requires Start(w) && IsRun(w, cs) && d < |Run(w, cs).dirs|
    requires Run(w, cs).dirs[d].config.Some? && Run(w, cs).dirs[d].config.value.base.Some?
    ensures var f := Run(w, cs); var s := f.dirs[d]; var b := s.config.value.base.value;
            && b < |f.dirs| && b != d && f.dirs[b].config.Some? && f.dirs[b].config.value.base.None? && HasResetPoint(f, b)
            && Path(d, BaseDisk) !in f.names && Path(d, BaseVars) !in f.names && !Saving(s.job) && s.job != Concluding
            && (s.boot.Some? ==> s.boot.value.mode == OverlayMode)
  {
    Reachable(w, cs);
    assert DirOk(Run(w, cs), d);
    hide Run, IsRun;
  }

  // ----- what a guest sees ---------------------------------------------------------------------------

  /** What guests wrote into the file `i` in the course of a run, in order. */
  function WritesInto(w: World, cs: seq<Choice>, i: Ino): seq<int>
    requires IsRun(w, cs)
    decreases |cs|
  {
    if cs == [] then []
    else (if cs[0].GuestWrites? && w.dirs[cs[0].d].boot.value.disk == i then [cs[0].x] else []) + WritesInto(Next(w, cs[0]), cs[1..], i)
  }

  lemma BackingStep(w: World, c: Choice, i: Ino, p: Path)
    requires Inv(w) && Enabled(w, c) && OnlyNamed(w, i, p) && p.name == BaseDisk
    ensures var w' := Next(w, c);
            && OnlyNamed(w', i, p)
            && w'.data[i].bytes == w.data[i].bytes + if c.GuestWrites? && w.dirs[c.d].boot.value.disk == i then [c.x] else []
  {
    BackingKept(w, c, i, p);
    if c.Advance? {
      EditSparesBaseDisks(w, c.d);
      EditKeepsBacking(w, EditOf(w, c.d), c.ino, i, p);
    } else if c.FlattenFails? {
      EditKeepsBacking(w, Unlink(Path(c.d, NewDisk)), 0, i, p);
    } else if c.GuestSetsVars? {
      assert DirOk(w, c.d);
    }
  }

  /** A file a guest has open as its backing grows by what other guests write into it and
      changes in no other way, whatever happens to its name. */
  lemma {:induction false} BackingGrows(w: World, cs: seq<Choice>, i: Ino, p: Path)
    requires Inv(w) && IsRun(w, cs) && OnlyNamed(w, i, p) && p.name == BaseDisk
    ensures OnlyNamed(Run(w, cs), i, p) && Run(w, cs).data[i].bytes == w.data[i].bytes + WritesInto(w, cs, i)
    decreases |cs|
  {
    hide Inv, Enabled, Next;
    if cs == [] {
      assert w.data[i].bytes + [] == w.data[i].bytes;
    } else {
      StepKeeps(w, cs[0]);
      BackingStep(w, cs[0], i, p);
      BackingGrows(Next(w, cs[0]), cs[1..], i, p);
    }
  }

  predicate StaysUp(cs: seq<Choice>, d: Id) { forall k :: 0 <= k < |cs| ==> !(cs[k].PowerOff? && cs[k].d == d) }

  predicate SameBoot(a: Boot, b: Boot) {
    a.mode == b.mode && a.disk == b.disk && a.backing == b.backing && a.vars == b.vars && a.diskAt == b.diskAt && a.varsAt == b.varsAt
  }

  lemma BootStep(w: World, c: Choice, d: Id)
    requires Inv(w) && Enabled(w, c) && d < |w.dirs| && w.dirs[d].boot.Some? && !(c.PowerOff? && c.d == d)
    ensures |Next(w, c).dirs| == |w.dirs| && Next(w, c).dirs[d].boot.Some?
    ensures SameBoot(w.dirs[d].boot.value, Next(w, c).dirs[d].boot.value)
  {
    assert DirOk(w, d);
    if c.d != d { OthersUntouched(w, c, d); }
  }

  lemma {:induction false} BootLasts(w: World, cs: seq<Choice>, d: Id)
    requires Inv(w) && IsRun(w, cs) && d < |w.dirs| && w.dirs[d].boot.Some? && StaysUp(cs, d)
    ensures |Run(w, cs).dirs| == |w.dirs| && Run(w, cs).dirs[d].boot.Some?
    ensures SameBoot(w.dirs[d].boot.value, Run(w, cs).dirs[d].boot.value)
    decreases |cs|
  {
    if cs != [] {
      StepKeeps(w, cs[0]);
      assert !(cs[0].PowerOff? && cs[0].d == d);
      BootStep(w, cs[0], d);
      forall k | 0 <= k < |cs[1..]| ensures !(cs[1..][k].PowerOff? && cs[1..][k].d == d) { assert cs[1..][k] == cs[k + 1]; }
      hide Inv, Enabled, Next;
      BootLasts(Next(w, cs[0]), cs[1..], d);
    }
  }

  /** A provisioned guest, from its cold start on and for as long as it stays up, sees the
      disk it started from, then whatever a base-mode boot wrote into that same file since,
      then its own writes. Nothing else reaches it: not another instance, and not a save of
      the base, which renames a new file over the name and leaves the opened one alone. */
  lemma GuestSeesExactly(w: World, before: seq<Choice>, d: Id, ino: Ino, after: seq<Choice>)
    requires Start(w) && IsRun(w, before) && Enabled(Run(w, before), Advance(d, ino))
    requires var s := Run(w, before).dirs[d]; s.job.Launching? && s.config.Some? && s.config.value.provisioned
    requires IsRun(Next(Run(w, before), Advance(d, ino)), after) && StaysUp(after, d)
    ensures var g := Next(Run(w, before), Advance(d, ino)); var h := Run(g, after);
            && d < |g.dirs| == |h.dirs| && g.dirs[d].boot.Some? && h.dirs[d].boot.Some? && g.dirs[d].boot.value.backing.Some?
            && var start, now := g.dirs[d].boot.value, h.dirs[d].boot.value;
               Seen(h, now) == Some(start.diskAt + WritesInto(g, after, start.backing.value) + now.writes)
  {
    Reachable(w, before);
    var f := Run(w, before);
    OpensTheResetPoint(f, d, ino);
    var g := Next(f, Advance(d, ino));
    var start := g.dirs[d].boot.value;
    hide Next, Enabled, Start, IsRun, Run;
    BackingGrows(g, after, start.backing.value, ResetDisk(f, d));
    BootLasts(g, after, d);
    EveryRun(g, after);
    OwnLayer(Run(g, after), d);
  }

  lemma OpensTheResetPoint(f: World, d: Id, ino: Ino)
    requires Inv(f) && Enabled(f, Advance(d, ino))
    requires var s := f.dirs[d]; s.job.Launching? && s.config.Some? && s.config.value.provisioned
    ensures var g := Next(f, Advance(d, ino));
            && Inv(g) && |g.dirs| == |f.dirs| && g.dirs[d].boot.Some?
            && var start := g.dirs[d].boot.value;
               && start.mode == OverlayMode && start.backing.Some? && OnlyNamed(g, start.backing.value, ResetDisk(f, d))
               && g.data[start.backing.value].bytes == start.diskAt
  {
    hide Inv, Enabled, Next, Provisioned, ReadyToBoot;
    StepKeeps(f, Advance(d, ino));
    LaunchedOn(f, d, ino);
  }

  lemma OwnLayer(h: World, d: Id)
    requires Inv(h) && d < |h.dirs| && h.dirs[d].boot.Some? && h.dirs[d].boot.value.mode == OverlayMode
    ensures var b := h.dirs[d].boot.value; b.disk in h.data && h.data[b.disk] == Overlay(ResetDisk(h, d), b.writes)
  {
    assert DirOk(h, d);
  }

  /** No running guest has the file `i` open as the disk it writes. */
  predicate NobodyWrites(w: World, i: Ino) {
    forall e :: 0 <= e < |w.dirs| && w.dirs[e].boot.Some? ==> w.dirs[e].boot.value.disk != i
  }

  /** A provisioned original is never booted for writing again. */
  lemma StillNobodyWrites(w: World, c: Choice, i: Ino, b: Id)
    requires Inv(w) && Enabled(w, c) && b < |w.dirs| && Provisioned(w, b)
    requires OnlyNamed(w, i, Path(b, BaseDisk)) && NobodyWrites(w, i)
    ensures |Next(w, c).dirs| == |w.dirs| && NobodyWrites(Next(w, c), i)
  {
    hide Inv, Enabled, Next, Provisioned, OnlyNamed, SameFile;
    StepKeeps(w, c);
    forall e | 0 <= e < |w.dirs| && Next(w, c).dirs[e].boot.Some? ensures Next(w, c).dirs[e].boot.value.disk != i {
      if e != c.d {
        OthersUntouched(w, c, e);
      } else {
        OwnBootWritesElsewhere(w, c, i, b);
      }
    }
  }

  lemma OwnBootWritesElsewhere(w: World, c: Choice, i: Ino, b: Id)
    requires Inv(w) && Enabled(w, c) && b < |w.dirs| && Provisioned(w, b)
    requires OnlyNamed(w, i, Path(b, BaseDisk)) && NobodyWrites(w, i)
    ensures |Next(w, c).dirs| == |w.dirs|
    ensures Next(w, c).dirs[c.d].boot.Some? ==> Next(w, c).dirs[c.d].boot.value.disk != i
  {
    hide Inv, CanAdvance, Next, NobodyWrites, Provisioned, OnlyNamed;
    if c.Advance? && w.dirs[c.d].job.Launching? {
      LaunchEffect(w, c);
      LaunchWritesElsewhere(w, c.d, i, b);
    } else {
      SameBootDisk(w, c);
      assert Next(w, c).dirs[c.d].boot.Some? ==> w.dirs[c.d].boot.value.disk != i by { NotWriting(w, i, c.d); }
    }
  }

  lemma NotWriting(w: World, i: Ino, e: Id)
    requires NobodyWrites(w, i) && e < |w.dirs|
    ensures w.dirs[e].boot.Some? ==> w.dirs[e].boot.value.disk != i
  {
  }

  lemma SameBootDisk(w: World, c: Choice)
    requires Enabled(w, c) && !(c.Advance? && w.dirs[c.d].job.Launching?)
    ensures |Next(w, c).dirs| == |w.dirs|
    ensures var s, t := w.dirs[c.d], Next(w, c).dirs[c.d]; t.boot.Some? ==> s.boot.Some? && t.boot.value.disk == s.boot.value.disk
  {
    hide EditOf, CanAdvance, CanLaunch, Launched;
  }

  lemma LaunchWritesElsewhere(w: World, d: Id, i: Ino, b: Id)
    requires Inv(w) && d < |w.dirs| && w.dirs[d].job.Launching? && w.dirs[d].config.Some?
    requires CanLaunch(w, d, ModeOf(w.dirs[d].config.value))
    requires b < |w.dirs| && Provisioned(w, b) && OnlyNamed(w, i, Path(b, BaseDisk))
    ensures Launched(w, d, ModeOf(w.dirs[d].config.value)).disk != i
  {
    hide Inv, FilesOk, SaveOk, BootOk, InstallOnce;
    Here(w, d);
  }

  lemma {:induction false} NobodyWritesLater(w: World, cs: seq<Choice>, i: Ino, b: Id)
    requires Inv(w) && IsRun(w, cs) && b < |w.dirs| && Provisioned(w, b)
    requires OnlyNamed(w, i, Path(b, BaseDisk)) && NobodyWrites(w, i)
    ensures WritesInto(w, cs, i) == []
    decreases |cs|
  {
    if cs != [] {
      assert cs[0].GuestWrites? ==> w.dirs[cs[0].d].boot.value.disk != i;
      StepKeeps(w, cs[0]);
      StillNobodyWrites(w, cs[0], i, b);
      ProvisionedKept(w, cs[0], b);
      BackingKept(w, cs[0], i, Path(b, BaseDisk));
      hide Inv, Enabled, Next, Provisioned, OnlyNamed, NobodyWrites;
      NobodyWritesLater(Next(w, cs[0]), cs[1..], i, b);
    }
  }

  /** After `after` the guest of `d` still sees the disk it started from plus its own writes. */
  predicate SeesItsStart(g: World, d: Id, after: seq<Choice>)
    requires d < |g.dirs| && g.dirs[d].boot.Some? && IsRun(g, after)
  {
    var h := Run(g, after);
    && d < |h.dirs| && h.dirs[d].boot.Some?
    && Seen(h, h.dirs[d].boot.value) == Some(g.dirs[d].boot.value.diskAt + h.dirs[d].boot.value.writes)
  }

  /** Isolation, decided at the cold start: the guest sees its start plus its own writes in
      every continuation in which it stays up, whatever instances, saves and other boots
      there are in it, if and only if no guest that is running at that moment has the reset
      point's disk open for writing. The script never looks for one. */
  lemma GuestSeesItsStart(w: World, before: seq<Choice>, d: Id, ino: Ino)
    requires Start(w) && IsRun(w, before) && Enabled(Run(w, before), Advance(d, ino))
    requires var s := Run(w, before).dirs[d]; s.job.Launching? && s.config.Some? && s.config.value.provisioned
    ensures var f := Run(w, before); var g := Next(f, Advance(d, ino));
            && ResetDisk(f, d) in f.names && d < |g.dirs| && g.dirs[d].boot.Some?
            && ((forall after :: IsRun(g, after) && StaysUp(after, d) ==> SeesItsStart(g, d, after))
                <==> NobodyWrites(f, f.names[ResetDisk(f, d)]))
  {
    hide Inv, Start, CanAdvance, Next, IsRun, Run, SeesItsStart, StaysUp, OnlyNamed;
    Reachable(w, before);
    var f := Run(w, before);
    var g := Next(f, Advance(d, ino));
    LaunchedOn(f, d, ino);
    var i := f.names[ResetDisk(f, d)];
    if NobodyWrites(f, i) {
      forall after | IsRun(g, after) && StaysUp(after, d) ensures SeesItsStart(g, d, after) {
        NoWriterIsSeen(w, before, d, ino, after);
      }
    } else {
      var e :| 0 <= e < |f.dirs| && f.dirs[e].boot.Some? && f.dirs[e].boot.value.disk == i;
      AWriterIsSeen(w, before, d, ino, e);
    }
  }

  lemma LaunchedOn(f: World, d: Id, ino: Ino)
    requires Inv(f) && Enabled(f, Advance(d, ino))
    requires var s := f.dirs[d]; s.job.Launching? && s.config.Some? && s.config.value.provisioned
    ensures ResetDisk(f, d) in f.names && BaseOf(f, d) < |f.dirs| && f.dirs[d].boot.None?
    ensures var g := Next(f, Advance(d, ino)); var b := BaseOf(f, d); var i := f.names[ResetDisk(f, d)];
            && |g.dirs| == |f.dirs| && g.data == f.data && g.names == f.names
            && (forall e :: 0 <= e < |f.dirs| && e != d ==> g.dirs[e] == f.dirs[e])
            && Provisioned(g, b) && OnlyNamed(g, i, Path(b, BaseDisk))
            && g.dirs[d].boot.Some?
            && var start := g.dirs[d].boot.value;
               start.mode == OverlayMode && start.backing == Some(i) && start.disk != i && g.data[i] == Raw(start.diskAt)
  {
    LaunchEffect(f, Advance(d, ino));
    ColdFiles(f, d);
    hide Inv, Enabled, Next, CanAdvance, EditOf, Advanced;
    var disk := RawAt(f, ResetDisk(f, d)).value;
    assert disk + [] == disk;
  }

  lemma StillNobody(f: World, d: Id, ino: Ino, i: Ino)
    requires Inv(f) && Enabled(f, Advance(d, ino)) && NobodyWrites(f, i)
    requires var s := f.dirs[d]; s.job.Launching? && s.config.Some? && s.config.value.provisioned
    requires ResetDisk(f, d) in f.names && i == f.names[ResetDisk(f, d)]
    ensures NobodyWrites(Next(f, Advance(d, ino)), i)
  {
    hide Inv, Enabled, Next;
    LaunchedOn(f, d, ino);
  }

  /** With no such guest, nothing comes in between. */
  lemma NoWriterIsSeen(w: World, before: seq<Choice>, d: Id, ino: Ino, after: seq<Choice>)
    requires Start(w) && IsRun(w, before) && Enabled(Run(w, before), Advance(d, ino))
    requires var s := Run(w, before).dirs[d]; s.job.Launching? && s.config.Some? && s.config.value.provisioned
    requires var f := Run(w, before); ResetDisk(f, d) in f.names && NobodyWrites(f, f.names[ResetDisk(f, d)])
    requires IsRun(Next(Run(w, before), Advance(d, ino)), after) && StaysUp(after, d)
    ensures var g := Next(Run(w, before), Advance(d, ino)); d < |g.dirs| && g.dirs[d].boot.Some? && SeesItsStart(g, d, after)
  {
    hide Inv, Start, CanAdvance, Next, IsRun, Run, Seen, NobodyWrites, OnlyNamed;
    Reachable(w, before);
    var f := Run(w, before);
    var g := Next(f, Advance(d, ino));
    var i := f.names[ResetDisk(f, d)];
    StepKeeps(f, Advance(d, ino));
    LaunchedOn(f, d, ino);
    StillNobody(f, d, ino, i);
    GuestSeesExactly(w, before, d, ino, after);
    NobodyWritesLater(g, after, i, BaseOf(f, d));
    var start := g.dirs[d].boot.value;
    assert start.diskAt + [] == start.diskAt;
  }

  lemma OneWrite(g: World, e: Id, x: int, i: Ino)
    requires Enabled(g, GuestWrites(e, x)) && g.dirs[e].boot.value.disk == i
    ensures IsRun(g, [GuestWrites(e, x)]) && WritesInto(g, [GuestWrites(e, x)], i) == [x]
  {
    hide Enabled, Next;
    var after := [GuestWrites(e, x)];
    assert after[1..] == [];
    assert IsRun(Next(g, after[0]), []);
    assert WritesInto(Next(g, after[0]), [], i) == [];
  }

  /** A guest that has the opened file as its own disk need only write it once. */
  lemma AWriterIsSeen(w: World, before: seq<Choice>, d: Id, ino: Ino, e: Id)
    requires Start(w) && IsRun(w, before) && Enabled(Run(w, before), Advance(d, ino))
    requires var s := Run(w, before).dirs[d]; s.job.Launching? && s.config.Some? && s.config.value.provisioned
    requires var f := Run(w, before);
             && ResetDisk(f, d) in f.names && e < |f.dirs| && f.dirs[e].boot.Some?
             && f.dirs[e].boot.value.disk == f.names[ResetDisk(f, d)]
    ensures var g := Next(Run(w, before), Advance(d, ino)); var after := [GuestWrites(e, 0)];
            && d < |g.dirs| && g.dirs[d].boot.Some? && IsRun(g, after) && StaysUp(after, d) && !SeesItsStart(g, d, after)
  {
    hide Inv, Start, Next, IsRun, Run, Seen, WritesInto, CanAdvance;
    Reachable(w, before);
    var f := Run(w, before);
    var g := Next(f, Advance(d, ino));
    LaunchedOn(f, d, ino);
    var i := f.names[ResetDisk(f, d)];
    OneWrite(g, e, 0, i);
    var after := [GuestWrites(e, 0)];
    GuestSeesExactly(w, before, d, ino, after);
    var h := Run(g, after);
    InBetween(g.dirs[d].boot.value.diskAt, [0], h.dirs[d].boot.value.writes);
  }

  lemma InBetween(a: Content, b: Content, c: Content)
    ensures a + b + c == a + c <==> b == []
  {
    if b == [] {
      assert a + b + c == a + c;
    } else {
      assert |a + b + c| != |a + c|;
    }
  }

  /** A running guest's variables are what it found plus what it set, in any run. */
  lemma GuestKeepsItsVars(w: World, cs: seq<Choice>, d: Id)
    requires Start(w) && IsRun(w, cs) && d < |Run(w, cs).dirs| && Run(w, cs).dirs[d].boot.Some?
    ensures var f := Run(w, cs); var b := f.dirs[d].boot.value;
            b.vars in f.data && f.data[b.vars] == Raw(b.varsAt + b.varWrites)
  {
    Reachable(w, cs);
    assert DirOk(Run(w, cs), d);
    hide Run, IsRun;
  }

  // ----- installation -------------------------------------------------------------------------------

  /** The disk-wiping installer is attached at most once in the life of a state directory,
      however often `up --install` is killed and retried, because vm.json says so before
      QEMU starts. */
  lemma InstallsAtMostOnce(w: World, cs: seq<Choice>, d: Id)
    requires Start(w) && IsRun(w, cs) && d < |Run(w, cs).dirs|
    ensures var s := Run(w, cs).dirs[d];
            && s.installs <= 1
            && (s.installs == 1 || (s.job.Launching? && s.job.install) ==> s.config.Some? && s.config.value.installStarted)
            && (Enabled(Run(w, cs), Up(d, true)) ==> s.installs == 0)
  {
    Reachable(w, cs);
    assert DirOk(Run(w, cs), d);
    hide Run, IsRun;
  }

  // ----- no stuck operation --------------------------------------------------------------------------

  /** An operation in progress always finds what its next file change needs, except that
      `down` waits for a guest that is still running. */
  lemma OperationsCanProceed(w: World, cs: seq<Choice>, d: Id) returns (ino: Ino)
    requires Start(w) && IsRun(w, cs) && d < |Run(w, cs).dirs|
    requires var s := Run(w, cs).dirs[d]; s.job != Idle && !(s.job.Stopping? && s.boot.Some?)
    ensures Enabled(Run(w, cs), Advance(d, ino))
  {
    Reachable(w, cs);
    CanProceed(Run(w, cs), d);
    ino := NotIn(Run(w, cs).data.Keys);
  }

  lemma CanProceed(f: World, d: Id)
    requires Inv(f) && d < |f.dirs|
    requires var s := f.dirs[d]; s.job != Idle && !(s.job.Stopping? && s.boot.Some?)
    ensures CanAdvance(f, d)
  {
    assert DirOk(f, d);
    assert DirOk(f, BaseOf(f, d));
    hide Inv;
  }
}
