/** The invariant of the guest's files, and that every step keeps it. */
module GuestSafety {
  import opened Prelude
  import opened GuestLifecycle

  // ----- the file system ------------------------------------------------------------------

  /** Every name has its own file, and only run.qcow2 is an overlay. */
  predicate FilesOk(w: World) {
    && (forall p :: p in w.names ==> p.dir < |w.dirs| && w.names[p] in w.data)
    && (forall p, q :: p in w.names && q in w.names && p != q ==> w.names[p] != w.names[q])
    && (forall p :: p in w.names ==> (w.data[w.names[p]].Overlay? <==> p.name == RunDisk))
  }

  /** What each path holds after a file change. */
  function DataAfter(w: World, e: Edit, p: Path): Option<Data> {
    match e
    case Write(at, x) => if p == at then Some(x) else DataAt(w, p)
    case Unlink(at) => if p == at then None else DataAt(w, p)
    case Rename(from, to) =>
      if from !in w.names || from == to then DataAt(w, p)
      else if p == to then DataAt(w, from) else if p == from then None else DataAt(w, p)
    case Nothing => DataAt(w, p)
  }

  /** A change reaches the paths it names and no other, and among the files it can reach
      without a name of theirs is none: only the written path's own file changes. */
  lemma EditEffect(w: World, e: Edit, ino: Ino)
    requires FilesOk(w) && (e.Write? ==> ino !in w.data)
    requires e.Rename? ==> e.from != e.to
    ensures var w' := Edited(w, e, ino);
            && w'.dirs == w.dirs
            && (forall p :: DataAt(w', p) == DataAfter(w, e, p))
            && (forall i :: i in w.data && (e.Write? && e.at in w.names ==> i != w.names[e.at]) ==> i in w'.data && w'.data[i] == w.data[i])
            && (forall i :: i in w.data ==> i in w'.data)
  {
  }

  predicate EditOk(w: World, e: Edit) {
    match e
    case Write(at, x) => at.dir < |w.dirs| && (x.Overlay? <==> at.name == RunDisk)
    case Rename(from, to) => to.dir < |w.dirs| && from != to && (from.name == RunDisk <==> to.name == RunDisk)
    case _ => true
  }

  lemma EditKeepsFiles(w: World, e: Edit, ino: Ino)
    requires FilesOk(w) && (e.Write? ==> ino !in w.data) && EditOk(w, e)
    ensures FilesOk(Edited(w, e, ino))
  {
  }

  /** A path keeps its file: the same inode under the same name. */
  predicate SameFile(w: World, w': World, p: Path) {
    && (p in w.names <==> p in w'.names)
    && (p in w.names ==> w'.names[p] == w.names[p])
    && DataAt(w', p) == DataAt(w, p)
  }

  function Touched(e: Edit): set<Path> {
    match e
    case Write(at, _) => {at}
    case Unlink(at) => {at}
    case Rename(from, to) => {from, to}
    case Nothing => {}
  }

  lemma EditFrame(w: World, e: Edit, ino: Ino, p: Path)
    requires FilesOk(w) && (e.Write? ==> ino !in w.data) && p !in Touched(e)
    ensures SameFile(w, Edited(w, e, ino), p)
  {
  }

  // ----- one directory -------------------------------------------------------------------------

  predicate HasResetPoint(w: World, d: Id) { Path(d, BaseDisk) in w.names && Path(d, BaseVars) in w.names }

  predicate Provisioned(w: World, d: Id)
    requires d < |w.dirs|
  {
    var c := w.dirs[d].config;
    && c.Some? && c.value.provisioned && c.value.installStarted && c.value.base.None?
    && HasResetPoint(w, d)
  }

  /** A prepared base, or an instance of another directory that is one. */
  predicate Grounded(w: World, d: Id)
    requires d < |w.dirs|
  {
    var s := w.dirs[d];
    && (s.job.Adopting? ==> s.job.base < |w.dirs| && s.job.base != d && Provisioned(w, s.job.base))
    && (s.config.Some? ==>
          match s.config.value.base
          case Some(b) =>
            && b < |w.dirs| && b != d && Provisioned(w, b)
            && s.config.value.provisioned && s.config.value.installStarted
            && Path(d, BaseDisk) !in w.names && Path(d, BaseVars) !in w.names
          case None => HasResetPoint(w, d) && (s.config.value.provisioned ==> s.config.value.installStarted))
  }

  predicate Saving(j: Job) {
    j == Clearing || j == Flattening || j == CopyingNewVars || j == RenamingVars || j == RenamingDisk
  }

  predicate Preparing(j: Job) { j.Seeding? || j.Formatting? || j.Enrolling? || j.Adopting? }

  predicate EmptyOverlay(w: World, d: Id)
    requires d < |w.dirs|
  {
    DataAt(w, Path(d, RunDisk)) == Some(Overlay(ResetDisk(w, d), []))
  }

  /** A cold start's files are in place: an empty overlay and the reset point's variables. */
  predicate ReadyToBoot(w: World, d: Id)
    requires d < |w.dirs| && w.dirs[d].config.Some?
  {
    && EmptyOverlay(w, d) && Path(d, RunVars) in w.names
    && (w.dirs[d].config.value.base.None? ==> DataAt(w, Path(d, RunVars)) == DataAt(w, Path(d, BaseVars)))
  }

  /** What an operation relies on at each of its points. */
  predicate JobOk(w: World, d: Id)
    requires d < |w.dirs|
  {
    var s := w.dirs[d];
    && (Preparing(s.job) ==> s.config.None? && s.used)
    && (s.config.None? ==> s.boot.None? && s.installs == 0 && (Preparing(s.job) || s.job == Idle))
    && match s.job
       case Seeding(_) => Path(d, BaseDisk) !in w.names
       case Formatting => Path(d, BaseVars) in w.names && Path(d, BaseDisk) !in w.names
       case Enrolling => HasResetPoint(w, d)
       case Adopting(_) => Path(d, BaseDisk) !in w.names && Path(d, BaseVars) !in w.names
       case Creating => s.boot.None? && s.config.value.provisioned
       case CopyingVars => s.boot.None? && s.config.value.provisioned && EmptyOverlay(w, d)
       case Recording(install) =>
         && s.boot.None? && CanStart(s.config.value, install)
         && (s.config.value.provisioned ==> ReadyToBoot(w, d))
       case Launching(install) =>
         && s.boot.None? && s.config.value.installStarted
         && s.config.value.mode == (if s.config.value.provisioned then OverlayMode else BaseMode)
         && (install ==> s.installs == 0)
         && (s.config.value.provisioned ==> ReadyToBoot(w, d))
       case Stopping(keep) => keep ==> s.config.value.base.None?
       case Concluding => s.config.value.base.None? && s.config.value.installStarted
       case _ => true
  }

  /** The flattened disk holds exactly what the disk it was made from reads as. */
  predicate Flattened(w: World, d: Id, mode: Mode) {
    DataAt(w, Path(d, NewDisk)).Some? && RawAt(w, Path(d, NewDisk)) == ImageAt(w, DiskOf(d, mode))
  }

  predicate SaveOk(w: World, d: Id)
    requires d < |w.dirs|
  {
    var s := w.dirs[d];
    && (Saving(s.job) || s.job == DroppingDisk || s.job == DroppingVars ==> s.config.Some? && s.boot.None?)
    && (Saving(s.job) || (s.job.Stopping? && s.job.keep) ==>
          && s.config.Some? && s.config.value.base.None?
          && (s.config.value.mode == OverlayMode ==>
                && DataAt(w, Path(d, RunDisk)).Some? && DataAt(w, Path(d, RunDisk)).value.Overlay?
                && DataAt(w, Path(d, RunDisk)).value.backing == Path(d, BaseDisk) && Path(d, RunVars) in w.names))
    && (s.job == Flattening ==> Path(d, NewDisk) !in w.names)
    && (s.job == CopyingNewVars || s.job == RenamingVars ==> s.config.value.mode == OverlayMode)
    && (s.job == CopyingNewVars || s.job == RenamingVars || s.job == RenamingDisk ==> Flattened(w, d, s.config.value.mode))
    && (s.job == RenamingVars ==> Path(d, NewVars) in w.names && DataAt(w, Path(d, NewVars)) == DataAt(w, Path(d, RunVars)))
    && (s.job == RenamingDisk && s.config.value.mode == OverlayMode ==> DataAt(w, Path(d, BaseVars)) == DataAt(w, Path(d, RunVars)))
  }

  // ----- running guests -----------------------------------------------------------------------

  predicate NamedBy(w: World, p: Path, i: Ino) { p in w.names && w.names[p] == i }

  /** The backing file a guest has open: no overlay, and if it still has a name at all,
      that name is the reset point's disk. */
  predicate BackingOk(w: World, d: Id, i: Ino)
    requires d < |w.dirs|
  {
    && i in w.data && w.data[i].Raw?
    && forall p :: p in w.names && w.names[p] == i ==> p == ResetDisk(w, d)
  }

  /** A running guest has open what its configuration says, and its own files hold exactly
      what this boot found and wrote. */
  predicate BootOk(w: World, d: Id)
    requires d < |w.dirs|
  {
    var s := w.dirs[d];
    s.boot.Some? ==>
      var b := s.boot.value;
      && s.config.Some? && s.config.value.installStarted
      && b.mode == ModeOf(s.config.value) && (s.config.value.base.None? ==> b.mode == s.config.value.mode)
      && NamedBy(w, DiskOf(d, b.mode), b.disk) && NamedBy(w, VarsOf(d, b.mode), b.vars)
      && DataAt(w, VarsOf(d, b.mode)) == Some(Raw(b.varsAt + b.varWrites))
      && if b.mode == OverlayMode then
           && s.config.value.provisioned
           && DataAt(w, Path(d, RunDisk)) == Some(Overlay(ResetDisk(w, d), b.writes))
           && b.backing.Some? && BackingOk(w, d, b.backing.value)
         else b.backing.None? && DataAt(w, Path(d, BaseDisk)) == Some(Raw(b.diskAt + b.writes))
  }

  predicate InstallOnce(s: Dir) {
    s.installs <= 1 && (s.installs == 1 ==> s.config.Some? && s.config.value.installStarted && !(s.job.Recording? && s.job.install))
  }

  predicate DirOk(w: World, d: Id)
    requires d < |w.dirs|
  {
    Grounded(w, d) && JobOk(w, d) && SaveOk(w, d) && BootOk(w, d) && InstallOnce(w.dirs[d])
  }

  predicate Inv(w: World) { FilesOk(w) && forall d :: 0 <= d < |w.dirs| ==> DirOk(w, d) }

  // ----- what a step leaves alone ----------------------------------------------------------------

  /** From one world to the next, directory `e` and every file under its names are as before. */
  predicate Untouched(w: World, w': World, e: Id)
    requires e < |w.dirs| && |w'.dirs| == |w.dirs|
  {
    w'.dirs[e] == w.dirs[e] && forall n :: SameFile(w, w', Path(e, n))
  }

  lemma EditIsOk(w: World, d: Id)
    requires Inv(w) && d < |w.dirs| && CanAdvance(w, d)
    ensures EditOk(w, EditOf(w, d)) && forall p :: p in Touched(EditOf(w, d)) ==> p.dir == d
  {
    assert DirOk(w, d);
  }

  lemma GuestsUntouched(w: World, c: Choice, e: Id)
    requires Inv(w) && Enabled(w, c) && e < |w.dirs| && e != c.d && (c.GuestWrites? || c.GuestSetsVars?)
    ensures |Next(w, c).dirs| == |w.dirs| && Untouched(w, Next(w, c), e)
  {
    assert BootOk(w, c.d) by { assert DirOk(w, c.d); }
  }

  lemma EditsUntouched(w: World, c: Choice, e: Id)
    requires Inv(w) && Enabled(w, c) && e < |w.dirs| && e != c.d && !c.GuestWrites? && !c.GuestSetsVars?
    ensures |Next(w, c).dirs| == |w.dirs| && Untouched(w, Next(w, c), e)
  {
    hide DirOk, Advanced, CanAdvance;
    forall n ensures SameFile(w, Next(w, c), Path(e, n)) {
      if c.Advance? {
        EditIsOk(w, c.d);
        EditFrame(w, EditOf(w, c.d), c.ino, Path(e, n));
      } else if c.FlattenFails? {
        EditFrame(w, Unlink(Path(c.d, NewDisk)), 0, Path(e, n));
      }
    }
  }

  /** A step of one directory, or of the guest that runs from it, leaves every other
      directory and every file of its alone: the paths an operation changes are its own,
      and so are the inodes a guest has open for writing. */
  lemma OthersUntouched(w: World, c: Choice, e: Id)
    requires Inv(w) && Enabled(w, c) && e < |w.dirs| && e != c.d
    ensures |Next(w, c).dirs| == |w.dirs| && Untouched(w, Next(w, c), e)
  {
    if c.GuestWrites? || c.GuestSetsVars? {
      GuestsUntouched(w, c, e);
    } else {
      EditsUntouched(w, c, e);
    }
  }

  // ----- every step keeps the invariant ----------------------------------------------------------

  lemma FilesKept(w: World, c: Choice)
    requires Inv(w) && Enabled(w, c)
    ensures FilesOk(Next(w, c)) && |Next(w, c).dirs| == |w.dirs|
  {
    hide Inv, Enabled, Next, FilesOk;
    if c.Advance? { AdvanceKeepsFiles(w, c); }
    else if c.GuestWrites? || c.GuestSetsVars? { WritesKeepFiles(w, c); }
    else { RestKeepsFiles(w, c); }
  }

  lemma Here(w: World, d: Id)
    requires Inv(w) && d < |w.dirs|
    ensures FilesOk(w) && DirOk(w, d)
  {
    hide FilesOk, DirOk;
  }

  lemma WritesKeepFiles(w: World, c: Choice)
    requires Inv(w) && Enabled(w, c) && (c.GuestWrites? || c.GuestSetsVars?)
    ensures FilesOk(Next(w, c)) && |Next(w, c).dirs| == |w.dirs|
  {
    hide Inv, DirOk, CanAdvance, EditOf, Advanced;
    Here(w, c.d);
  }

  lemma RestKeepsFiles(w: World, c: Choice)
    requires Inv(w) && Enabled(w, c) && !c.Advance? && !c.GuestWrites? && !c.GuestSetsVars?
    ensures FilesOk(Next(w, c)) && |Next(w, c).dirs| == |w.dirs|
  {
    hide Inv, DirOk, CanAdvance, EditOf, Advanced;
    Here(w, c.d);
  }

  lemma AdvanceKeepsFiles(w: World, c: Choice)
    requires Inv(w) && Enabled(w, c) && c.Advance?
    ensures FilesOk(Next(w, c)) && |Next(w, c).dirs| == |w.dirs|
  {
    EditIsOk(w, c.d);
    EditKeepsFiles(w, EditOf(w, c.d), c.ino);
    var w1 := Edited(w, EditOf(w, c.d), c.ino);
    assert FilesOk(w1) && Next(w, c) == Put(w1, c.d, Advanced(w, c.d)) && |w1.dirs| == |w.dirs|;
    hide Inv, Next, Enabled, CanAdvance, EditOf, Advanced, Edited;
  }

  /** A provisioned original stays one. */
  lemma ProvisionedKept(w: World, c: Choice, b: Id)
    requires Inv(w) && Enabled(w, c) && b < |w.dirs| && Provisioned(w, b)
    ensures |Next(w, c).dirs| == |w.dirs| && Provisioned(Next(w, c), b)
  {
    if b != c.d {
      OthersUntouched(w, c, b);
      assert SameFile(w, Next(w, c), Path(b, BaseDisk)) && SameFile(w, Next(w, c), Path(b, BaseVars));
    } else {
      OwnProvisionedKept(w, c);
    }
  }

  lemma OwnProvisionedKept(w: World, c: Choice)
    requires Inv(w) && Enabled(w, c) && Provisioned(w, c.d)
    ensures |Next(w, c).dirs| == |w.dirs| && Provisioned(Next(w, c), c.d)
  {
    hide Inv, Enabled, Next, Provisioned;
    if c.Advance? { AdvanceKeepsProvisioned(w, c); } else { RestKeepsProvisioned(w, c); }
  }

  lemma RestKeepsProvisioned(w: World, c: Choice)
    requires Inv(w) && Enabled(w, c) && Provisioned(w, c.d) && !c.Advance?
    ensures |Next(w, c).dirs| == |w.dirs| && Provisioned(Next(w, c), c.d)
  {
    hide Inv, DirOk, CanAdvance, EditOf, Advanced;
  }

  lemma AdvanceKeepsProvisioned(w: World, c: Choice)
    requires Inv(w) && Enabled(w, c) && Provisioned(w, c.d) && c.Advance?
    ensures |Next(w, c).dirs| == |w.dirs| && Provisioned(Next(w, c), c.d)
  {
    hide Inv, Next, Edited, Grounded, SaveOk, BootOk, InstallOnce;
    Here(w, c.d);
    OwnEffect(w, c, Path(c.d, BaseDisk));
    OwnEffect(w, c, Path(c.d, BaseVars));
  }

  /** No file change overwrites an existing base disk in place or moves its name away. */
  predicate SparesBaseDisks(w: World, e: Edit) {
    (e.Write? && e.at.name == BaseDisk ==> e.at !in w.names) && (e.Rename? ==> e.from.name != BaseDisk)
  }

  lemma EditSparesBaseDisks(w: World, d: Id)
    requires Inv(w) && d < |w.dirs| && CanAdvance(w, d)
    ensures SparesBaseDisks(w, EditOf(w, d))
  {
    assert DirOk(w, d);
  }

  /** The file `i`, no overlay and known by no name but `p`. */
  predicate OnlyNamed(w: World, i: Ino, p: Path) {
    i in w.data && w.data[i].Raw? && forall q :: q in w.names && w.names[q] == i ==> q == p
  }

  lemma EditKeepsBacking(w: World, e: Edit, ino: Ino, i: Ino, p: Path)
    requires FilesOk(w) && (e.Write? ==> ino !in w.data) && SparesBaseDisks(w, e)
    requires OnlyNamed(w, i, p) && p.name == BaseDisk
    ensures OnlyNamed(Edited(w, e, ino), i, p) && Edited(w, e, ino).data[i] == w.data[i]
  {
  }

  /** A backing file a guest has open keeps its inode and stays no overlay, whoever renames
      or overwrites what; no other name is ever given to it. */
  lemma BackingKept(w: World, c: Choice, i: Ino, p: Path)
    requires Inv(w) && Enabled(w, c) && OnlyNamed(w, i, p) && p.name == BaseDisk
    ensures OnlyNamed(Next(w, c), i, p)
  {
    if c.Advance? {
      EditSparesBaseDisks(w, c.d);
      EditKeepsBacking(w, EditOf(w, c.d), c.ino, i, p);
    } else if c.FlattenFails? {
      EditKeepsBacking(w, Unlink(Path(c.d, NewDisk)), 0, i, p);
    }
  }

  /** What an untouched directory relies on elsewhere is still there: its original, and the
      backing file of its guest. */
  predicate StillGrounded(w: World, w': World, e: Id)
    requires e < |w.dirs| && |w'.dirs| == |w.dirs|
  {
    var s := w.dirs[e];
    && (forall b :: 0 <= b < |w.dirs| && Provisioned(w, b) ==> Provisioned(w', b))
    && (s.boot.Some? && s.boot.value.backing.Some? && BackingOk(w, e, s.boot.value.backing.value) ==>
          OnlyNamed(w', s.boot.value.backing.value, ResetDisk(w, e)))
  }

  lemma KeepsGrounded(w: World, w': World, e: Id)
    requires e < |w.dirs| && |w'.dirs| == |w.dirs| && Untouched(w, w', e) && StillGrounded(w, w', e)
    requires Grounded(w, e)
    ensures Grounded(w', e)
  {
    assert SameFile(w, w', Path(e, BaseDisk)) && SameFile(w, w', Path(e, BaseVars));
  }

  lemma KeepsJob(w: World, w': World, e: Id)
    requires e < |w.dirs| && |w'.dirs| == |w.dirs| && Untouched(w, w', e) && JobOk(w, e)
    ensures JobOk(w', e)
  {
    assert SameFile(w, w', Path(e, BaseDisk)) && SameFile(w, w', Path(e, BaseVars));
    assert SameFile(w, w', Path(e, RunDisk)) && SameFile(w, w', Path(e, RunVars));
  }

  lemma KeepsSave(w: World, w': World, e: Id)
    requires e < |w.dirs| && |w'.dirs| == |w.dirs| && Untouched(w, w', e) && SaveOk(w, e) && FilesOk(w)
    ensures SaveOk(w', e)
  {
    assert SameFile(w, w', Path(e, BaseDisk)) && SameFile(w, w', Path(e, BaseVars));
    assert SameFile(w, w', Path(e, NewDisk)) && SameFile(w, w', Path(e, NewVars));
    assert SameFile(w, w', Path(e, RunDisk)) && SameFile(w, w', Path(e, RunVars));
  }

  lemma KeepsBoot(w: World, w': World, e: Id)
    requires e < |w.dirs| && |w'.dirs| == |w.dirs| && Untouched(w, w', e) && StillGrounded(w, w', e)
    requires BootOk(w, e)
    ensures BootOk(w', e)
  {
    assert SameFile(w, w', Path(e, BaseDisk)) && SameFile(w, w', Path(e, BaseVars));
    assert SameFile(w, w', Path(e, RunDisk)) && SameFile(w, w', Path(e, RunVars));
  }

  lemma OtherKeeps(w: World, c: Choice, e: Id)
    requires Inv(w) && Enabled(w, c) && e < |w.dirs| && e != c.d
    ensures |Next(w, c).dirs| == |w.dirs| && DirOk(Next(w, c), e)
  {
    var w' := Next(w, c);
    OthersUntouched(w, c, e);
    assert DirOk(w, e);
    forall b | 0 <= b < |w.dirs| && Provisioned(w, b) ensures Provisioned(w', b) { ProvisionedKept(w, c, b); }
    var s := w.dirs[e];
    if s.boot.Some? && s.boot.value.backing.Some? && BackingOk(w, e, s.boot.value.backing.value) {
      BackingKept(w, c, s.boot.value.backing.value, ResetDisk(w, e));
    }
    assert w'.dirs[e] == s;
    hide Inv, Enabled, Next, Untouched, Grounded, JobOk, SaveOk, BootOk, Provisioned, OnlyNamed, BackingOk;
    KeepsGrounded(w, w', e);
    KeepsJob(w, w', e);
    KeepsSave(w, w', e);
    KeepsBoot(w, w', e);
  }

  // ----- the directory that moves -----------------------------------------------------------------

  /** What each of a directory's own paths holds after its step. */
  lemma OwnEffect(w: World, c: Choice, p: Path)
    requires Inv(w) && Enabled(w, c) && c.Advance?
    ensures DataAt(Next(w, c), p) == DataAfter(w, EditOf(w, c.d), p)
    ensures p in Next(w, c).names <==> DataAfter(w, EditOf(w, c.d), p).Some?
    ensures Next(w, c).dirs == w.dirs[c.d := Advanced(w, c.d)]
  {
    EditIsOk(w, c.d);
    EditEffect(w, EditOf(w, c.d), c.ino);
    EditKeepsFiles(w, EditOf(w, c.d), c.ino);
    hide EditOf, Edited, Advanced, CanAdvance, Inv;
    assert DataAt(Edited(w, EditOf(w, c.d), c.ino), p) == DataAfter(w, EditOf(w, c.d), p);
  }

  lemma BeginKeeps(w: World, d: Id, j: Job)
    requires d < |w.dirs| && DirOk(w, d) && w.dirs[d].job == Idle && w.dirs[d].config.None?
    requires match j
             case Seeding(_) => Path(d, BaseDisk) !in w.names
             case Adopting(b) =>
               b < |w.dirs| && b != d && Provisioned(w, b) && Path(d, BaseDisk) !in w.names && Path(d, BaseVars) !in w.names
             case _ => false
    ensures DirOk(Put(w, d, w.dirs[d].(job := j, used := true)), d)
  {
  }

  lemma UpKeeps(w: World, d: Id, install: bool)
    requires d < |w.dirs| && DirOk(w, d) && Ready(w, d) && w.dirs[d].boot.None? && CanStart(w.dirs[d].config.value, install)
    ensures DirOk(Put(w, d, w.dirs[d].(job := if w.dirs[d].config.value.provisioned then Creating else Recording(install))), d)
  {
  }

  lemma ProvisionKeeps(w: World, d: Id)
    requires d < |w.dirs| && DirOk(w, d) && Ready(w, d) && w.dirs[d].boot.Some? && w.dirs[d].config.value.base.None?
    ensures DirOk(Put(w, d, w.dirs[d].(job := Concluding)), d)
  {
  }

  lemma DownKeeps(w: World, d: Id, keep: bool)
    requires d < |w.dirs| && DirOk(w, d) && Ready(w, d)
    requires keep ==> w.dirs[d].config.value.base.None? && w.dirs[d].boot.Some?
    ensures DirOk(Put(w, d, w.dirs[d].(job := if w.dirs[d].boot.Some? then Stopping(keep) else DroppingDisk)), d)
  {
  }

  lemma KillKeeps(w: World, d: Id)
    requires d < |w.dirs| && DirOk(w, d)
    ensures DirOk(Put(w, d, w.dirs[d].(job := Idle)), d)
  {
  }

  lemma PowerOffKeeps(w: World, d: Id)
    requires d < |w.dirs| && DirOk(w, d)
    ensures DirOk(Put(w, d, w.dirs[d].(boot := None)), d)
  {
  }

  lemma FlattenFailsKeeps(w: World, c: Choice)
    requires Inv(w) && Enabled(w, c) && c.FlattenFails?
    ensures |Next(w, c).dirs| == |w.dirs| && DirOk(Next(w, c), c.d)
  {
    assert DirOk(w, c.d);
  }

  /** A guest writes to its disk: nothing its directory relies on names the contents. */
  lemma DiskWriteKeeps(w: World, d: Id, x: int)
    requires FilesOk(w) && d < |w.dirs| && DirOk(w, d) && w.dirs[d].boot.Some?
    ensures Enabled(w, GuestWrites(d, x)) && DirOk(Next(w, GuestWrites(d, x)), d)
  {
    hide CanAdvance, EditOf, Advanced, Edited;
    var b := w.dirs[d].boot.value;
    assert b.diskAt + (b.writes + [x]) == b.diskAt + b.writes + [x];
  }

  lemma VarsWriteKeeps(w: World, d: Id, x: int)
    requires FilesOk(w) && d < |w.dirs| && DirOk(w, d) && w.dirs[d].boot.Some?
    ensures Enabled(w, GuestSetsVars(d, x)) && DirOk(Next(w, GuestSetsVars(d, x)), d)
  {
    hide CanAdvance, EditOf, Advanced, Edited;
    var b := w.dirs[d].boot.value;
    assert b.varsAt + (b.varWrites + [x]) == b.varsAt + b.varWrites + [x];
  }

  predicate OwnPaths(w: World, w': World, d: Id, e: Edit) {
    forall n :: DataAt(w', Path(d, n)) == DataAfter(w, e, Path(d, n))
                && (Path(d, n) in w'.names <==> DataAfter(w, e, Path(d, n)).Some?)
  }

  lemma OwnEffects(w: World, c: Choice)
    requires Inv(w) && Enabled(w, c) && c.Advance?
    ensures Next(w, c).dirs == w.dirs[c.d := Advanced(w, c.d)] && OwnPaths(w, Next(w, c), c.d, EditOf(w, c.d))
  {
    forall n ensures DataAt(Next(w, c), Path(c.d, n)) == DataAfter(w, EditOf(w, c.d), Path(c.d, n))
                     && (Path(c.d, n) in Next(w, c).names <==> DataAfter(w, EditOf(w, c.d), Path(c.d, n)).Some?) {
      OwnEffect(w, c, Path(c.d, n));
    }
    OwnEffect(w, c, Path(c.d, BaseDisk));
  }

  lemma PreparingKeeps(w: World, c: Choice)
    requires Inv(w) && Enabled(w, c) && c.Advance? && Preparing(w.dirs[c.d].job)
    ensures |Next(w, c).dirs| == |w.dirs| && DirOk(Next(w, c), c.d)
  {
    assert DirOk(w, c.d);
    OwnEffects(w, c);
    if w.dirs[c.d].job.Adopting? { ProvisionedKept(w, c, w.dirs[c.d].job.base); }
    hide Next, Inv;
  }

  predicate Starting(j: Job) { j.Creating? || j.CopyingVars? || j.Recording? }

  predicate Dropping(j: Job) { j.DroppingDisk? || j.DroppingVars? }

  /** What one's own file change does to one's own directory; every original stays one. */
  predicate Moved(w: World, w': World, d: Id)
    requires d < |w.dirs| && CanAdvance(w, d)
  {
    && w'.dirs == w.dirs[d := Advanced(w, d)] && OwnPaths(w, w', d, EditOf(w, d))
    && forall b :: 0 <= b < |w.dirs| && Provisioned(w, b) ==> Provisioned(w', b)
  }

  lemma StepMoves(w: World, c: Choice)
    requires Inv(w) && Enabled(w, c) && c.Advance?
    ensures Moved(w, Next(w, c), c.d)
  {
    hide Inv, Next, Advanced, EditOf, Provisioned, OwnPaths, CanAdvance;
    OwnEffects(w, c);
    forall b | 0 <= b < |w.dirs| && Provisioned(w, b) ensures Provisioned(Next(w, c), b) { ProvisionedKept(w, c, b); }
  }

  lemma MovedGrounded(w: World, w': World, d: Id)
    requires FilesOk(w) && d < |w.dirs| && DirOk(w, d) && CanAdvance(w, d) && Moved(w, w', d)
    requires var j := w.dirs[d].job; Starting(j) || Saving(j) || Dropping(j)
    ensures Grounded(w', d)
  {
    hide DataAfter, EditOf, Advanced, CanAdvance, FilesOk, DirOk, Provisioned;
    assert DataAfter(w, EditOf(w, d), Path(d, BaseDisk)).Some? == (Path(d, BaseDisk) in w'.names);
    assert DataAfter(w, EditOf(w, d), Path(d, BaseVars)).Some? == (Path(d, BaseVars) in w'.names);
    AdvancedConfig(w, d);
    BasesStay(w, d, Path(d, BaseDisk));
    BasesStay(w, d, Path(d, BaseVars));
  }

  lemma AdvancedConfig(w: World, d: Id)
    requires d < |w.dirs| && DirOk(w, d) && CanAdvance(w, d)
    requires var j := w.dirs[d].job; Starting(j) || Saving(j) || Dropping(j)
    ensures Grounded(w, d) && !Advanced(w, d).job.Adopting?
    ensures w.dirs[d].config.Some? && Advanced(w, d).config.Some?
    ensures var c, c' := w.dirs[d].config.value, Advanced(w, d).config.value;
            c'.base == c.base && c'.provisioned == c.provisioned && (c.installStarted ==> c'.installStarted)
  {
    hide Grounded, BootOk, InstallOnce, EmptyOverlay;
  }

  lemma MovedUnbooted(w: World, w': World, d: Id)
    requires d < |w.dirs| && DirOk(w, d) && CanAdvance(w, d) && Moved(w, w', d)
    requires var j := w.dirs[d].job; Starting(j) || Saving(j) || Dropping(j)
    ensures BootOk(w', d) && InstallOnce(w'.dirs[d])
  {
    hide DataAfter, EditOf, OwnPaths, Grounded, Provisioned, EmptyOverlay, BackingOk;
  }

  lemma BasesStay(w: World, d: Id, p: Path)
    requires FilesOk(w) && d < |w.dirs| && DirOk(w, d) && CanAdvance(w, d)
    requires var j := w.dirs[d].job; Starting(j) || Saving(j) || Dropping(j)
    requires p.name == BaseDisk || p.name == BaseVars
    ensures p.dir == d && w.dirs[d].config.Some? ==> (DataAfter(w, EditOf(w, d), p).Some? <==> p in w.names)
  {
    hide BootOk, InstallOnce, Provisioned, EmptyOverlay;
  }

  lemma StartingMoved(w: World, w': World, d: Id)
    requires FilesOk(w) && d < |w.dirs| && DirOk(w, d) && CanAdvance(w, d) && Moved(w, w', d) && Starting(w.dirs[d].job)
    ensures JobOk(w', d) && SaveOk(w', d)
  {
    assert w.dirs[d].config.value.base.None? ==> HasResetPoint(w, d);
    if w.dirs[d].job.Recording? { RecordingMoved(w, w', d); } else { OverlayMoved(w, w', d); }
  }

  lemma OverlayMoved(w: World, w': World, d: Id)
    requires FilesOk(w) && d < |w.dirs| && DirOk(w, d) && CanAdvance(w, d) && Moved(w, w', d)
    requires w.dirs[d].job.Creating? || w.dirs[d].job.CopyingVars?
    requires w.dirs[d].config.value.base.None? ==> HasResetPoint(w, d)
    ensures JobOk(w', d) && SaveOk(w', d)
  {
    assert w.dirs[d].config.value.base.None? ==> w.dirs[d].config.value.provisioned ==> w.dirs[d].config.value.installStarted;
    hide Provisioned, BackingOk, BootOk;
  }

  lemma RecordingMoved(w: World, w': World, d: Id)
    requires FilesOk(w) && d < |w.dirs| && DirOk(w, d) && CanAdvance(w, d) && Moved(w, w', d)
    requires w.dirs[d].job.Recording?
    ensures JobOk(w', d) && SaveOk(w', d)
  {
    hide Provisioned, BackingOk, BootOk;
  }

  lemma SavingMovedJob(w: World, w': World, d: Id)
    requires FilesOk(w) && d < |w.dirs| && DirOk(w, d) && CanAdvance(w, d) && Moved(w, w', d) && Saving(w.dirs[d].job)
    ensures JobOk(w', d)
  {
    hide Provisioned, BackingOk, DataAfter, BootOk, InstallOnce, EditOf;
  }

  lemma FlatteningMovedSave(w: World, w': World, d: Id)
    requires FilesOk(w) && d < |w.dirs| && DirOk(w, d) && CanAdvance(w, d) && Moved(w, w', d)
    requires w.dirs[d].job == Clearing || w.dirs[d].job == Flattening
    ensures SaveOk(w', d)
  {
    hide Provisioned, BackingOk, JobOk, BootOk, InstallOnce;
    assert HasResetPoint(w, d);
    hide Grounded;
  }

  lemma CopyingMovedSave(w: World, w': World, d: Id)
    requires FilesOk(w) && d < |w.dirs| && DirOk(w, d) && CanAdvance(w, d) && Moved(w, w', d)
    requires w.dirs[d].job == CopyingNewVars
    ensures SaveOk(w', d)
  {
    hide Provisioned, BackingOk, JobOk, BootOk, InstallOnce, Grounded;
  }

  lemma VarsRenamedSave(w: World, w': World, d: Id)
    requires FilesOk(w) && d < |w.dirs| && DirOk(w, d) && CanAdvance(w, d) && Moved(w, w', d) && w.dirs[d].job == RenamingVars
    ensures SaveOk(w', d)
  {
    hide Provisioned, BackingOk, Grounded, JobOk, BootOk, InstallOnce;
  }

  lemma DiskRenamedSave(w: World, w': World, d: Id)
    requires FilesOk(w) && d < |w.dirs| && DirOk(w, d) && CanAdvance(w, d) && Moved(w, w', d) && w.dirs[d].job == RenamingDisk
    ensures SaveOk(w', d)
  {
    hide Provisioned, BackingOk, Grounded, JobOk, BootOk, InstallOnce;
  }

  lemma DroppingMoved(w: World, w': World, d: Id)
    requires FilesOk(w) && d < |w.dirs| && DirOk(w, d) && CanAdvance(w, d) && Moved(w, w', d) && Dropping(w.dirs[d].job)
    ensures JobOk(w', d) && SaveOk(w', d)
  {
    hide Provisioned, BackingOk, Grounded, DataAfter, EditOf, BootOk, InstallOnce, EmptyOverlay;
  }

  lemma FilesChangeKeeps(w: World, c: Choice)
    requires Inv(w) && Enabled(w, c) && c.Advance?
    requires var j := w.dirs[c.d].job; Starting(j) || Saving(j) || Dropping(j)
    ensures |Next(w, c).dirs| == |w.dirs| && DirOk(Next(w, c), c.d)
  {
    assert DirOk(w, c.d) && CanAdvance(w, c.d) && FilesOk(w);
    StepMoves(w, c);
    hide Inv, Enabled, Next, Grounded, JobOk, SaveOk, BootOk, InstallOnce, FilesOk, CanAdvance, Advanced, EditOf, OwnPaths;
    var w' := Next(w, c);
    MovedGrounded(w, w', c.d);
    MovedUnbooted(w, w', c.d);
    if Starting(w.dirs[c.d].job) {
      StartingMoved(w, w', c.d);
    } else if Dropping(w.dirs[c.d].job) {
      DroppingMoved(w, w', c.d);
    } else {
      SavingMovedJob(w, w', c.d);
      match w.dirs[c.d].job
      case Clearing => FlatteningMovedSave(w, w', c.d);
      case Flattening => FlatteningMovedSave(w, w', c.d);
      case CopyingNewVars => CopyingMovedSave(w, w', c.d);
      case RenamingVars => VarsRenamedSave(w, w', c.d);
      case _ => DiskRenamedSave(w, w', c.d);
    }
  }

  lemma ConcludingKeeps(w: World, d: Id)
    requires d < |w.dirs| && DirOk(w, d) && w.dirs[d].job == Concluding && w.dirs[d].config.Some?
    ensures DirOk(Put(w, d, w.dirs[d].(config := Some(w.dirs[d].config.value.(provisioned := true)), job := Idle)), d)
  {
  }

  lemma StoppingKeeps(w: World, d: Id)
    requires d < |w.dirs| && DirOk(w, d) && w.dirs[d].job.Stopping? && w.dirs[d].config.Some? && w.dirs[d].boot.None?
    ensures DirOk(Put(w, d, w.dirs[d].(job := if w.dirs[d].job.keep then Clearing else DroppingDisk)), d)
  {
  }

  /** A directory once QEMU has started in it. */
  function StartedDir(w: World, d: Id): Dir
    requires d < |w.dirs| && w.dirs[d].job.Launching? && w.dirs[d].config.Some?
    requires CanLaunch(w, d, ModeOf(w.dirs[d].config.value))
  {
    var s := w.dirs[d];
    s.(boot := Some(Launched(w, d, ModeOf(s.config.value))), installs := s.installs + if s.job.install then 1 else 0, job := Idle)
  }

  /** Starting QEMU changes no file. */
  lemma LaunchEffect(w: World, c: Choice)
    requires Enabled(w, c) && c.Advance? && w.dirs[c.d].job.Launching?
    ensures w.dirs[c.d].config.Some? && CanLaunch(w, c.d, ModeOf(w.dirs[c.d].config.value))
    ensures Next(w, c) == Put(w, c.d, StartedDir(w, c.d))
  {
    hide CanLaunch, Launched;
  }

  lemma LaunchKeeps(w: World, d: Id)
    requires FilesOk(w) && d < |w.dirs| && DirOk(w, d) && w.dirs[d].job.Launching? && w.dirs[d].config.Some?
    requires CanLaunch(w, d, ModeOf(w.dirs[d].config.value))
    ensures DirOk(Put(w, d, StartedDir(w, d)), d)
  {
    LaunchBoots(w, d);
    hide BootOk, FilesOk, CanLaunch, Launched;
  }

  lemma LaunchBoots(w: World, d: Id)
    requires FilesOk(w) && d < |w.dirs| && DirOk(w, d) && w.dirs[d].job.Launching? && w.dirs[d].config.Some?
    requires CanLaunch(w, d, ModeOf(w.dirs[d].config.value))
    ensures BootOk(Put(w, d, StartedDir(w, d)), d)
  {
    hide Provisioned, InstallOnce, SaveOk;
    var b := Launched(w, d, ModeOf(w.dirs[d].config.value));
    assert b.diskAt + b.writes == b.diskAt && b.varsAt + b.varWrites == b.varsAt;
  }

  lemma StepKeeps(w: World, c: Choice)
    requires Inv(w) && Enabled(w, c)
    ensures Inv(Next(w, c)) && |Next(w, c).dirs| == |w.dirs|
  {
    FilesKept(w, c);
    OwnKept(w, c);
    var w' := Next(w, c);
    hide Enabled, Next, DirOk, FilesOk;
    forall e | 0 <= e < |w'.dirs| ensures DirOk(w', e) {
      if e != c.d { OtherKeeps(w, c, e); }
    }
  }

  lemma OwnKept(w: World, c: Choice)
    requires Inv(w) && Enabled(w, c)
    ensures |Next(w, c).dirs| == |w.dirs| && DirOk(Next(w, c), c.d)
  {
    hide Inv, Enabled, Next, DirOk;
    if c.Advance? { AdvanceKeeps(w, c); } else { ChoiceKeeps(w, c); }
  }

  lemma ChoiceKeeps(w: World, c: Choice)
    requires Inv(w) && Enabled(w, c) && !c.Advance?
    ensures |Next(w, c).dirs| == |w.dirs| && DirOk(Next(w, c), c.d)
  {
    hide Inv, FilesOk, DirOk, CanAdvance, EditOf, Advanced, CanStart;
    Here(w, c.d);
    match c
    case Prepare(d, vars) => BeginKeeps(w, d, Seeding(vars));
    case Instance(d, b) => BeginKeeps(w, d, Adopting(b));
    case Up(d, install) => UpKeeps(w, d, install);
    case Provision(d) => ProvisionKeeps(w, d);
    case Down(d, keep) => DownKeeps(w, d, keep);
    case FlattenFails(_) => FlattenFailsKeeps(w, c);
    case Kill(d) => KillKeeps(w, d);
    case GuestWrites(d, x) => DiskWriteKeeps(w, d, x);
    case GuestSetsVars(d, x) => VarsWriteKeeps(w, d, x);
    case PowerOff(d) => PowerOffKeeps(w, d);
  }

  lemma AdvanceKeeps(w: World, c: Choice)
    requires Inv(w) && Enabled(w, c) && c.Advance?
    ensures |Next(w, c).dirs| == |w.dirs| && DirOk(Next(w, c), c.d)
  {
    hide Inv, FilesOk, DirOk, CanLaunch, Launched;
    Here(w, c.d);
    var j := w.dirs[c.d].job;
    if Preparing(j) { PreparingKeeps(w, c); }
    else if j.Launching? { LaunchEffect(w, c); LaunchKeeps(w, c.d); }
    else if j.Concluding? { ConcludingKeeps(w, c.d); }
    else if j.Stopping? { StoppingKeeps(w, c.d); }
    else { FilesChangeKeeps(w, c); }
  }

  lemma {:induction false} EveryRun(w: World, cs: seq<Choice>)
    requires Inv(w) && IsRun(w, cs)
    ensures Inv(Run(w, cs)) && |Run(w, cs).dirs| == |w.dirs|
    decreases |cs|
  {
    hide Inv, Enabled, Next;
    if cs != [] {
      StepKeeps(w, cs[0]);
      EveryRun(Next(w, cs[0]), cs[1..]);
    }
  }
}
