/**
  The lifecycle commands as they run when nothing interrupts them: one object per
  state directory, whose methods change its files in the script's order, each
  proved against a function of the directory. `StepByStep` puts the steps of the
  machine in GuestLifecycle back together and arrives at the same functions.
  */
module GuestScript {
  import opened Prelude
  import opened Counting
  import opened GuestLifecycle
  import opened GuestSafety
  import opened GuestTheorems

  /** What run.qcow2 keeps, and on whose disk. */
  datatype Layer = Layer(backing: Id, delta: Content)

  /** A running guest: what it found on disk and in its variables, what it wrote since. */
  datatype Guest = Guest(mode: Mode, diskAt: Content, varsAt: Content, writes: Content, varWrites: Content)

  /** A state directory by what its files hold. */
  datatype Files = Files(
    config: Option<Config>, disk: Option<Content>, vars: Option<Content>,
    newDisk: Option<Content>, newVars: Option<Content>,
    runDisk: Option<Layer>, runVars: Option<Content>, boot: Option<Guest>, installs: nat)

  /** How a `down` goes after its checks. */
  datatype Ending = RetrimFails | NeverStops | ConvertFails | Stops

  function AfterReset(s: Files, backing: Id, vars: Option<Content>): Files {
    s.(runDisk := Some(Layer(backing, [])), runVars := vars)
  }

  function AfterDiscard(s: Files): Files { s.(runDisk := None, runVars := None) }

  /** The disk a stopped guest of its own reset point left behind. */
  function LeftBehind(s: Files): Option<Content>
    requires s.config.Some?
  {
    if s.config.value.mode == BaseMode then s.disk
    else if s.disk.Some? && s.runDisk.Some? then Some(s.disk.value + s.runDisk.value.delta) else None
  }

  /** save: this boot's disk and, for an overlay, its variables become the reset point. */
  function AfterSave(s: Files): Files
    requires s.config.Some?
  {
    if s.config.value.mode == OverlayMode then s.(disk := LeftBehind(s), vars := s.runVars, newDisk := None, newVars := None)
    else s.(disk := LeftBehind(s), newDisk := None)
  }

  /** What `down` leaves; None when it refuses. */
  function AfterDown(s: Files, keep: bool, ending: Ending): Option<Files>
    requires s.config.Some?
  {
    if keep && s.config.value.base.Some? then None
    else if s.boot.None? then
      if keep then None else Some(AfterDiscard(s))
    else if (keep && ending == RetrimFails) || ending == NeverStops then Some(s)
    else if keep && ending == ConvertFails then Some(s.(boot := None, newDisk := None))
    else if keep then Some(AfterDiscard(AfterSave(s.(boot := None))))
    else Some(AfterDiscard(s.(boot := None)))
  }

  /** What `up` leaves, given where the reset point lives; None when it refuses. */
  function AfterUp(s: Files, backing: Id, baseDisk: Option<Content>, baseVars: Option<Content>, install: bool): Option<Files>
    requires s.config.Some?
  {
    var c := s.config.value;
    if c.base.Some? && (install || !c.provisioned) then None
    else if s.boot.Some? then Some(s)
    else if install == c.installStarted then None
    else
      var s1 := if c.provisioned then AfterReset(s, backing, baseVars) else s;
      var c1 := c.(mode := if c.provisioned then OverlayMode else BaseMode, installStarted := c.installStarted || install);
      var disk := if ModeOf(c1) == OverlayMode then baseDisk else s.disk;
      var vars := if ModeOf(c1) == OverlayMode then s1.runVars else s.vars;
      if disk.None? || vars.None? then None
      else Some(s1.(config := Some(c1), boot := Some(Guest(ModeOf(c1), disk.value, vars.value, [], [])),
                    installs := s.installs + if install then 1 else 0))
  }

  class StateDir {
    const id: Id
    var config: Option<Config>
    var disk: Option<Content>
    var vars: Option<Content>
    var newDisk: Option<Content>
    var newVars: Option<Content>
    var runDisk: Option<Layer>
    var runVars: Option<Content>
    var boot: Option<Guest>
    var installs: nat

    ghost function View(): Files
      reads this
    {
      Files(config, disk, vars, newDisk, newVars, runDisk, runVars, boot, installs)
    }

    method Discard()
      modifies this`runDisk, this`runVars
      ensures View() == AfterDiscard(old(View()))
    {
      runDisk := None;
      runVars := None;
    }

    /** Recreating the overlay replaces whatever the last boot left. */
    method Reset(base: StateDir)
      modifies this`runDisk, this`runVars
      ensures View() == AfterReset(old(View()), base.id, base.vars)
    {
      runDisk := Some(Layer(base.id, []));
      runVars := base.vars;
    }

    method Save() returns (ok: bool)
      requires config.Some? && config.value.base.None?
      modifies this`disk, this`vars, this`newDisk, this`newVars
      ensures ok == LeftBehind(old(View())).Some?
      ensures ok ==> View() == AfterSave(old(View()))
      ensures !ok ==> View() == old(View()).(newDisk := None)
    {
      var overlay := config.value.mode == OverlayMode;
      newDisk := None;
      // Flattening fails when a file it reads is missing.
      if disk.None? || (overlay && runDisk.None?) { return false; }
      newDisk := Some(if overlay then disk.value + runDisk.value.delta else disk.value);
      if overlay {
        newVars := runVars;
        vars, newVars := newVars, None;
      }
      disk, newDisk := newDisk, None;
      ok := true;
    }

    /** Returns whether the command succeeds; `base` is this directory unless it is an
        instance, and is only read. */
    method BootUp(base: StateDir, install: bool) returns (ok: bool)
      requires config.Some?
      modifies this`config, this`runDisk, this`runVars, this`boot, this`installs
      ensures ok == AfterUp(old(View()), base.id, old(base.disk), old(base.vars), install).Some?
      ensures ok ==> Some(View()) == AfterUp(old(View()), base.id, old(base.disk), old(base.vars), install)
      ensures disk == old(disk) && vars == old(vars)
      // Refused: an instance that would install or was never provisioned; a second installation;
      // a first boot without one. A guest that is up stays as it is.
      ensures var c := old(config).value;
              var barred := c.base.Some? && (install || !c.provisioned);
              && (barred || (old(boot).None? && install == c.installStarted) ==> !ok && View() == old(View()))
              && (!barred && old(boot).Some? ==> ok && View() == old(View()))
      ensures old(boot).None? && !ok ==> boot.None? && installs == old(installs)
      // A provisioned guest starts afresh from its base, any other on its own disk.
      ensures old(boot).None? && ok ==>
                var c := old(config).value;
                && config == Some(Config(c.base, if c.provisioned then OverlayMode else BaseMode, true, c.provisioned))
                && installs == old(installs) + (if install then 1 else 0)
                && newDisk == old(newDisk) && newVars == old(newVars)
                && if c.provisioned then
                     && old(base.disk).Some? && old(base.vars).Some?
                     && runDisk == Some(Layer(base.id, [])) && runVars == old(base.vars)
                     && boot == Some(Guest(OverlayMode, old(base.disk).value, old(base.vars).value, [], []))
                   else
                     && disk.Some? && vars.Some? && runDisk == old(runDisk) && runVars == old(runVars)
                     && boot == Some(Guest(BaseMode, disk.value, vars.value, [], []))
    {
      var c := config.value;
      if c.base.Some? && (install || !c.provisioned) { return false; }
      if boot.Some? { return true; }
      if install && c.installStarted { return false; }
      if !install && !c.installStarted { return false; }
      c := c.(mode := if c.provisioned then OverlayMode else BaseMode);
      if c.mode == OverlayMode { Reset(base); }
      if install { c := c.(installStarted := true); }
      config := Some(c);
      var onOverlay := ModeOf(c) == OverlayMode;
      var found := if onOverlay then base.disk else disk;
      var foundVars := if onOverlay then runVars else vars;
      if found.None? || foundVars.None? { return false; }
      boot := Some(Guest(ModeOf(c), found.value, foundVars.value, [], []));
      installs := installs + if install then 1 else 0;
      ok := true;
    }

    method ShutDown(keep: bool, ending: Ending) returns (ok: bool)
      requires config.Some?
      requires boot.Some? && ending == Stops && keep && config.value.base.None? ==> LeftBehind(View()).Some?
      modifies this
      ensures ok <==> AfterDown(old(View()), keep, ending).Some?
                      && (old(boot).None? || ending == Stops || (!keep && ending != NeverStops))
      ensures Some(View()) == match AfterDown(old(View()), keep, ending) case Some(t) => Some(t) case None => Some(old(View()))
      // Nothing to save, or nobody to save for: refused.
      ensures keep && (old(config).value.base.Some? || old(boot).None?) ==> !ok && View() == old(View())
      // Windows could not retrim, or did not shut down: left running, nothing saved or discarded.
      ensures old(boot).Some? && ((keep && ending == RetrimFails) || ending == NeverStops) ==> !ok && View() == old(View())
      // The conversion failed: stopped, with reset point and overlay as they were.
      ensures old(boot).Some? && keep && old(config).value.base.None? && ending == ConvertFails ==>
                !ok && View() == old(View()).(boot := None, newDisk := None)
      // Without saving, the overlay goes and the reset point stays.
      ensures !keep && (old(boot).None? || ending != NeverStops) ==>
                ok && View() == old(View()).(boot := None, runDisk := None, runVars := None)
      // Saved: this boot's disk and variables are the reset point.
      ensures old(boot).Some? && keep && old(config).value.base.None? && ending == Stops ==>
                && ok && View() == old(View()).(boot := None, runDisk := None, runVars := None, newDisk := None,
                                                disk := disk, vars := vars, newVars := newVars)
                && if old(config).value.mode == OverlayMode then
                     && old(disk).Some? && old(runDisk).Some? && disk == Some(old(disk).value + old(runDisk).value.delta)
                     && vars == old(runVars) && newVars == None
                   else disk == old(disk) && vars == old(vars) && newVars == old(newVars)
    {
      if keep && config.value.base.Some? { return false; }
      if boot.None? {
        if keep { return false; }
        Discard();
        return true;
      }
      if keep && ending == RetrimFails { return false; }
      if ending == NeverStops { return false; }
      boot := None;
      if keep {
        if ending == ConvertFails {
          newDisk := None;
          return false;
        }
        var saved := Save();
      }
      Discard();
      ok := true;
    }
  }

  // ----- the same work, step by step -----------------------------------------------------------

  function LayerAt(w: World, p: Path): Option<Layer> {
    match DataAt(w, p)
    case Some(Overlay(backing, delta)) => Some(Layer(backing.dir, delta))
    case _ => None
  }

  function GuestOf(b: Option<Boot>): Option<Guest> {
    if b.Some? then Some(Guest(b.value.mode, b.value.diskAt, b.value.varsAt, b.value.writes, b.value.varWrites)) else None
  }

  /** The machine's directory `d` by what its files hold. */
  function Look(w: World, d: Id): Files
    requires d < |w.dirs|
  {
    var s := w.dirs[d];
    Files(s.config, RawAt(w, Path(d, BaseDisk)), RawAt(w, Path(d, BaseVars)),
          RawAt(w, Path(d, NewDisk)), RawAt(w, Path(d, NewVars)),
          LayerAt(w, Path(d, RunDisk)), RawAt(w, Path(d, RunVars)), GuestOf(s.boot), s.installs)
  }

  /** The reset point a directory boots from: its own, or a shared one by what it holds. */
  datatype Base = Own | Shared(dir: Id, disk: Option<Content>, vars: Option<Content>)

  function BaseSeen(w: World, d: Id): Base
    requires d < |w.dirs|
  {
    if BaseOf(w, d) == d then Own else Shared(BaseOf(w, d), RawAt(w, ResetDisk(w, d)), RawAt(w, ResetVars(w, d)))
  }

  function Flat(s: Files, b: Base, mode: Mode): Option<Content> {
    var below := if b.Own? then s.disk else b.disk;
    if mode == BaseMode then s.disk
    else if below.Some? && s.runDisk.Some? then Some(below.value + s.runDisk.value.delta) else None
  }

  /** One advance of an operation, on what the files hold. */
  function Stepped(s: Files, j: Job, d: Id, b: Base): Files
    requires s.config.Some? && !Preparing(j)
  {
    var c := s.config.value;
    match j
    case Creating => s.(runDisk := Some(Layer(if b.Own? then d else b.dir, [])))
    case CopyingVars => s.(runVars := if b.Own? then s.vars else b.vars)
    case Recording(install) =>
      s.(config := Some(c.(mode := if c.provisioned then OverlayMode else BaseMode, installStarted := c.installStarted || install)))
    case Launching(install) =>
      var disk := Flat(s, b, ModeOf(c));
      var vars := if ModeOf(c) == OverlayMode then s.runVars else s.vars;
      s.(boot := if disk.Some? && vars.Some? then Some(Guest(ModeOf(c), disk.value, vars.value, [], [])) else None,
         installs := s.installs + if install then 1 else 0)
    case Concluding => s.(config := Some(c.(provisioned := true)))
    case Clearing => s.(newDisk := None)
    case Flattening => s.(newDisk := Flat(s, b, c.mode))
    case CopyingNewVars => s.(newVars := s.runVars)
    case RenamingVars => s.(vars := s.newVars, newVars := None)
    case RenamingDisk => s.(disk := s.newDisk, newDisk := None)
    case DroppingDisk => s.(runDisk := None)
    case DroppingVars => s.(runVars := None)
    case _ => s
  }

  function NextJob(s: Files, j: Job): Job
    requires s.config.Some? && !Preparing(j)
  {
    match j
    case Creating => CopyingVars
    case CopyingVars => Recording(false)
    case Recording(install) => Launching(install)
    case Stopping(keep) => if keep then Clearing else DroppingDisk
    case Clearing => Flattening
    case Flattening => if s.config.value.mode == OverlayMode then CopyingNewVars else RenamingDisk
    case CopyingNewVars => RenamingVars
    case RenamingVars => RenamingDisk
    case RenamingDisk => DroppingDisk
    case DroppingDisk => DroppingVars
    case _ => Idle
  }

  predicate Working(j: Job) { j != Idle && !Preparing(j) }

  predicate Follows(w: World, w': World, d: Id)
    requires d < |w.dirs| && CanAdvance(w, d)
  {
    w'.dirs == w.dirs[d := Advanced(w, d)] && OwnPaths(w, w', d, EditOf(w, d))
  }

  predicate Matches(w: World, w': World, d: Id)
    requires d < |w.dirs| && w.dirs[d].config.Some? && Working(w.dirs[d].job)
  {
    && |w'.dirs| == |w.dirs| && w'.dirs[d].job == NextJob(Look(w, d), w.dirs[d].job)
    && Look(w', d) == Stepped(Look(w, d), w.dirs[d].job, d, BaseSeen(w, d))
  }

  lemma OverlayMatches(w: World, w': World, d: Id)
    requires FilesOk(w) && d < |w.dirs| && DirOk(w, d) && CanAdvance(w, d) && Follows(w, w', d)
    requires w.dirs[d].job.Creating? || w.dirs[d].job.CopyingVars?
    ensures Matches(w, w', d)
  {
    hide JobOk, SaveOk, BootOk, InstallOnce, Provisioned, Grounded;
  }

  lemma RecordingMatches(w: World, w': World, d: Id)
    requires d < |w.dirs| && DirOk(w, d) && CanAdvance(w, d) && Follows(w, w', d) && w.dirs[d].job.Recording?
    ensures Matches(w, w', d)
  {
    hide JobOk, SaveOk, BootOk, InstallOnce, Provisioned, Grounded;
  }

  lemma LaunchMatches(w: World, d: Id, ino: Ino)
    requires Inv(w) && Enabled(w, Advance(d, ino)) && w.dirs[d].job.Launching?
    ensures w.dirs[d].config.Some? && Matches(w, Next(w, Advance(d, ino)), d)
  {
    hide Inv, Next, CanAdvance, EditOf, Advanced, CanLaunch, Launched, Flat, ImageAt;
    LaunchEffect(w, Advance(d, ino));
    LaunchReads(w, d);
  }

  lemma LaunchReads(w: World, d: Id)
    requires Inv(w) && d < |w.dirs| && w.dirs[d].job.Launching? && w.dirs[d].config.Some?
    requires CanLaunch(w, d, ModeOf(w.dirs[d].config.value))
    ensures var mode := ModeOf(w.dirs[d].config.value); var b := Launched(w, d, mode); var s := Look(w, d);
            && b.mode == mode && b.writes == [] && b.varWrites == []
            && Flat(s, BaseSeen(w, d), mode) == Some(b.diskAt)
            && (if mode == OverlayMode then s.runVars else s.vars) == Some(b.varsAt)
  {
    hide Inv;
    OverlayBase(w, d);
  }

  /** A provisioned guest about to boot has its overlay over the reset point, another its disk. */
  lemma OverlayBase(w: World, d: Id)
    requires Inv(w) && d < |w.dirs| && w.dirs[d].job.Launching? && w.dirs[d].config.Some?
    ensures if ModeOf(w.dirs[d].config.value) == OverlayMode then DataAt(w, Path(d, RunDisk)) == Some(Overlay(ResetDisk(w, d), []))
            else DataAt(w, Path(d, BaseDisk)).Some? ==> DataAt(w, Path(d, BaseDisk)).value.Raw?
  {
    Here(w, d);
    hide Inv, SaveOk, BootOk, InstallOnce;
  }

  lemma NothingEdited(w: World)
    ensures forall p :: DataAfter(w, Nothing, p) == DataAt(w, p)
  {
  }

  lemma ClearedMatches(w: World, w': World, d: Id)
    requires FilesOk(w) && d < |w.dirs| && DirOk(w, d) && CanAdvance(w, d) && Follows(w, w', d)
    requires w.dirs[d].job == Clearing
    ensures Matches(w, w', d)
  {
    hide JobOk, BootOk, InstallOnce, Provisioned, Grounded;
  }

  lemma FlatteningMatches(w: World, w': World, d: Id)
    requires FilesOk(w) && d < |w.dirs| && DirOk(w, d) && CanAdvance(w, d) && Follows(w, w', d)
    requires w.dirs[d].job == Flattening
    ensures Matches(w, w', d)
  {
    hide JobOk, BootOk, InstallOnce, Provisioned, Grounded;
  }

  lemma VarsCopiedMatches(w: World, w': World, d: Id)
    requires FilesOk(w) && d < |w.dirs| && DirOk(w, d) && CanAdvance(w, d) && Follows(w, w', d)
    requires w.dirs[d].job == CopyingNewVars
    ensures Matches(w, w', d)
  {
    hide JobOk, BootOk, InstallOnce, Provisioned, Grounded;
  }

  lemma VarsRenamedMatches(w: World, w': World, d: Id)
    requires FilesOk(w) && d < |w.dirs| && DirOk(w, d) && CanAdvance(w, d) && Follows(w, w', d)
    requires w.dirs[d].job == RenamingVars
    ensures Matches(w, w', d)
  {
    hide JobOk, BootOk, Provisioned, Grounded;
  }

  lemma DiskRenamedMatches(w: World, w': World, d: Id)
    requires FilesOk(w) && d < |w.dirs| && DirOk(w, d) && CanAdvance(w, d) && Follows(w, w', d)
    requires w.dirs[d].job == RenamingDisk
    ensures Matches(w, w', d)
  {
    hide JobOk, BootOk, Provisioned, Grounded;
  }

  lemma DiskDroppedMatches(w: World, w': World, d: Id)
    requires FilesOk(w) && d < |w.dirs| && DirOk(w, d) && CanAdvance(w, d) && Follows(w, w', d)
    requires w.dirs[d].job == DroppingDisk
    ensures Matches(w, w', d)
  {
    hide JobOk, SaveOk, BootOk, InstallOnce, Provisioned, Grounded;
  }

  lemma VarsDroppedMatches(w: World, w': World, d: Id)
    requires FilesOk(w) && d < |w.dirs| && DirOk(w, d) && CanAdvance(w, d) && Follows(w, w', d)
    requires w.dirs[d].job == DroppingVars
    ensures Matches(w, w', d)
  {
    hide JobOk, SaveOk, BootOk, InstallOnce, Provisioned, Grounded;
  }

  lemma WaitingMatches(w: World, w': World, d: Id)
    requires d < |w.dirs| && DirOk(w, d) && CanAdvance(w, d) && Follows(w, w', d)
    requires w.dirs[d].job.Stopping? || w.dirs[d].job.Concluding?
    ensures Matches(w, w', d)
  {
    hide SaveOk, BootOk, Provisioned, Grounded, DataAfter;
    NothingEdited(w);
  }

  lemma SameBase(w: World, d: Id, ino: Ino)
    requires Inv(w) && Enabled(w, Advance(d, ino)) && Working(w.dirs[d].job)
    ensures |Next(w, Advance(d, ino)).dirs| == |w.dirs| && BaseSeen(Next(w, Advance(d, ino)), d) == BaseSeen(w, d)
  {
    hide Inv, FilesOk, DirOk, Next, Edited, Advanced, EditOf;
    Here(w, d);
    var c := Advance(d, ino);
    KeepsBase(w, d);
    EditIsOk(w, d);
    OwnEffect(w, c, ResetDisk(w, d));
    OwnEffect(w, c, ResetVars(w, d));
  }

  lemma KeepsBase(w: World, d: Id)
    requires d < |w.dirs| && DirOk(w, d) && CanAdvance(w, d) && Working(w.dirs[d].job)
    ensures w.dirs[d].config.Some? && Advanced(w, d).config.Some?
    ensures Advanced(w, d).config.value.base == w.dirs[d].config.value.base
  {
    hide Grounded, SaveOk, BootOk, InstallOnce;
  }

  /** The machine's step and the step on values agree. */
  lemma LookStep(w: World, d: Id, ino: Ino)
    requires Inv(w) && Enabled(w, Advance(d, ino)) && Working(w.dirs[d].job)
    ensures w.dirs[d].config.Some?
    ensures Matches(w, Next(w, Advance(d, ino)), d) && BaseSeen(Next(w, Advance(d, ino)), d) == BaseSeen(w, d)
  {
    hide Inv, Next, EditOf, Advanced, CanAdvance, Grounded, JobOk, BootOk, InstallOnce, FilesOk, DirOk, OwnPaths, Matches, BaseSeen;
    SameBase(w, d, ino);
    Here(w, d);
    KeepsBase(w, d);
    OwnEffects(w, Advance(d, ino));
    var w' := Next(w, Advance(d, ino));
    match w.dirs[d].job
    case Creating => OverlayMatches(w, w', d);
    case CopyingVars => OverlayMatches(w, w', d);
    case Recording(_) => RecordingMatches(w, w', d);
    case Launching(_) => LaunchMatches(w, d, ino);
    case Clearing => ClearedMatches(w, w', d);
    case Flattening => FlatteningMatches(w, w', d);
    case CopyingNewVars => VarsCopiedMatches(w, w', d);
    case RenamingVars => VarsRenamedMatches(w, w', d);
    case RenamingDisk => DiskRenamedMatches(w, w', d);
    case DroppingDisk => DiskDroppedMatches(w, w', d);
    case DroppingVars => VarsDroppedMatches(w, w', d);
    case _ => WaitingMatches(w, w', d);
  }

  /** An operation that does not wait for the guest to shut down. */
  predicate Going(s: Files, j: Job) { Working(j) && !(j.Stopping? && s.boot.Some?) }

  /** At most `n` advances, as long as the operation goes on. */
  function Iterate(s: Files, j: Job, d: Id, b: Base, n: nat): (Files, Job)
    requires s.config.Some?
    decreases n
  {
    if n == 0 || !Going(s, j) then (s, j) else Iterate(Stepped(s, j, d, b), NextJob(s, j), d, b, n - 1)
  }

  lemma {:induction false} RunAppend(w: World, cs: seq<Choice>, c: Choice)
    requires IsRun(w, cs) && Enabled(Run(w, cs), c)
    ensures IsRun(w, cs + [c]) && Run(w, cs + [c]) == Next(Run(w, cs), c)
    decreases |cs|
  {
    hide Enabled, Next;
    if cs == [] {
      assert [c][1..] == [];
      assert IsRun(Next(w, c), []);
    } else {
      RunAppend(Next(w, cs[0]), cs[1..], c);
      assert (cs + [c])[0] == cs[0] && (cs + [c])[1..] == cs[1..] + [c];
    }
  }

  lemma MayAdvance(f: World, d: Id, ino: Ino)
    requires Inv(f) && d < |f.dirs| && f.dirs[d].config.Some? && Going(Look(f, d), f.dirs[d].job) && ino !in f.data
    ensures Enabled(f, Advance(d, ino)) && Next(f, Advance(d, ino)).dirs[d].config.Some?
  {
    hide Inv, FilesOk, DirOk, EditOf, Advanced;
    Here(f, d);
    CanProceed(f, d);
    KeepsBase(f, d);
  }

  /** Left to itself, an operation takes the directory through just these values. */
  lemma {:induction false} Advances(w: World, cs: seq<Choice>, d: Id, n: nat) returns (ds: seq<Choice>)
    requires IsRun(w, cs) && Inv(Run(w, cs)) && d < |Run(w, cs).dirs| && Run(w, cs).dirs[d].config.Some?
    ensures IsRun(w, ds) && |Run(w, ds).dirs| == |Run(w, cs).dirs|
    ensures var f, g := Run(w, cs), Run(w, ds);
            (Look(g, d), g.dirs[d].job) == Iterate(Look(f, d), f.dirs[d].job, d, BaseSeen(f, d), n)
    decreases n
  {
    hide IsRun, Run, Inv, Enabled, Next, CanAdvance, Stepped, NextJob, BaseSeen, Look;
    var f := Run(w, cs);
    ds := cs;
    if n > 0 && Going(Look(f, d), f.dirs[d].job) {
      var ino := NotIn(f.data.Keys);
      MayAdvance(f, d, ino);
      LookStep(f, d, ino);
      StepKeeps(f, Advance(d, ino));
      RunAppend(w, cs, Advance(d, ino));
      ds := Advances(w, cs + [Advance(d, ino)], d, n - 1);
    }
  }

  // ----- making a directory --------------------------------------------------------------------

  /** One step of `prepare` or `instance`, on what the files hold. */
  lemma MakingLook(w: World, d: Id, ino: Ino)
    requires Inv(w) && Enabled(w, Advance(d, ino)) && Preparing(w.dirs[d].job)
    ensures var w' := Next(w, Advance(d, ino)); var s, t := Look(w, d), Look(w', d); var j := w'.dirs[d].job;
            && |w'.dirs| == |w.dirs| && Inv(w')
            && match w.dirs[d].job
               case Seeding(v) => j == Formatting && t == s.(vars := Some(v))
               case Formatting => j == Enrolling && t == s.(disk := Some([]))
               case Enrolling => j == Idle && t == s.(config := Some(Config(None, BaseMode, false, false)))
               case Adopting(b) => j == Idle && t == s.(config := Some(Config(Some(b), OverlayMode, true, true)))
               case _ => true
  {
    hide Inv, Next, FilesOk, DirOk, Edited, OwnPaths;
    StepKeeps(w, Advance(d, ino));
    OwnEffects(w, Advance(d, ino));
    Here(w, d);
    MakingFiles(w, Next(w, Advance(d, ino)), d);
  }

  lemma MakingFiles(w: World, w': World, d: Id)
    requires d < |w.dirs| && CanAdvance(w, d) && Preparing(w.dirs[d].job) && Follows(w, w', d)
    ensures var s, t := Look(w, d), Look(w', d).(config := w.dirs[d].config);
            t == match w.dirs[d].job
                 case Seeding(v) => s.(vars := Some(v))
                 case Formatting => s.(disk := Some([]))
                 case _ => s
  {
  }

  /** `prepare`, uninterrupted, leaves the firmware's variables and an empty disk as the reset
      point of a guest that is neither installed nor provisioned. */
  lemma PrepareStepByStep(w: World, d: Id, firmware: Content) returns (cs: seq<Choice>)
    requires Inv(w) && Enabled(w, Prepare(d, firmware))
    ensures IsRun(w, cs) && |Run(w, cs).dirs| == |w.dirs| && Run(w, cs).dirs[d].job == Idle
    ensures Look(Run(w, cs), d) == Look(w, d).(config := Some(Config(None, BaseMode, false, false)),
                                               disk := Some([]), vars := Some(firmware))
  {
    hide IsRun, Run, Inv, Next, Look;
    cs := Begun(w, Prepare(d, firmware));
    cs := Makes(w, cs, d);
    cs := Makes(w, cs, d);
    cs := Makes(w, cs, d);
  }

  /** `instance`, uninterrupted, leaves no file but the record of its provisioned base. */
  lemma InstanceStepByStep(w: World, d: Id, b: Id) returns (cs: seq<Choice>)
    requires Inv(w) && Enabled(w, Instance(d, b))
    ensures IsRun(w, cs) && |Run(w, cs).dirs| == |w.dirs| && Run(w, cs).dirs[d].job == Idle
    ensures Look(Run(w, cs), d) == Look(w, d).(config := Some(Config(Some(b), OverlayMode, true, true)))
  {
    hide IsRun, Run, Inv, Next, Look;
    cs := Begun(w, Instance(d, b));
    cs := Makes(w, cs, d);
  }

  lemma Begun(w: World, c: Choice) returns (cs: seq<Choice>)
    requires Inv(w) && Enabled(w, c) && (c.Prepare? || c.Instance?)
    ensures IsRun(w, cs) && |Run(w, cs).dirs| == |w.dirs| && Inv(Run(w, cs))
    ensures Look(Run(w, cs), c.d) == Look(w, c.d)
    ensures Run(w, cs).dirs[c.d].job == if c.Prepare? then Seeding(c.firmwareVars) else Adopting(c.base)
  {
    hide IsRun, Run, Inv, CanAdvance, EditOf, Advanced;
    StepKeeps(w, c);
    OneStep(w, c);
    cs := [c];
  }

  lemma Makes(w: World, cs: seq<Choice>, d: Id) returns (ds: seq<Choice>)
    requires IsRun(w, cs) && Inv(Run(w, cs)) && d < |Run(w, cs).dirs| && Preparing(Run(w, cs).dirs[d].job)
    ensures IsRun(w, ds) && |Run(w, ds).dirs| == |Run(w, cs).dirs| && Inv(Run(w, ds))
    ensures var s, t := Look(Run(w, cs), d), Look(Run(w, ds), d); var j := Run(w, ds).dirs[d].job;
            match Run(w, cs).dirs[d].job
            case Seeding(v) => j == Formatting && t == s.(vars := Some(v))
            case Formatting => j == Enrolling && t == s.(disk := Some([]))
            case Enrolling => j == Idle && t == s.(config := Some(Config(None, BaseMode, false, false)))
            case Adopting(b) => j == Idle && t == s.(config := Some(Config(Some(b), OverlayMode, true, true)))
            case _ => true
  {
    hide IsRun, Run, Inv, Next, Look;
    var f := Run(w, cs);
    var ino := NotIn(f.data.Keys);
    MakingLook(f, d, ino);
    RunAppend(w, cs, Advance(d, ino));
    ds := cs + [Advance(d, ino)];
  }

  /** `provision` marks a running original as provisioned and changes no file. */
  lemma ProvisionStepByStep(w: World, d: Id) returns (cs: seq<Choice>)
    requires Inv(w) && Enabled(w, Provision(d))
    ensures IsRun(w, cs) && |Run(w, cs).dirs| == |w.dirs| && Run(w, cs).dirs[d].job == Idle && w.dirs[d].config.Some?
    ensures Look(Run(w, cs), d) == Look(w, d).(config := Some(w.dirs[d].config.value.(provisioned := true)))
  {
    hide IsRun, Run, Inv, CanAdvance, EditOf, Advanced;
    StepKeeps(w, Provision(d));
    OneStep(w, Provision(d));
    var s, b := Look(w, d), BaseSeen(w, d);
    assert Look(Run(w, [Provision(d)]), d) == s && BaseSeen(Run(w, [Provision(d)]), d) == b;
    hide Next, Look, BaseSeen;
    cs := Advances(w, [Provision(d)], d, 1);
    Concludes(s, d, b);
  }

  lemma Concludes(s: Files, d: Id, b: Base)
    requires s.config.Some?
    ensures Iterate(s, Concluding, d, b, 1) == (s.(config := Some(s.config.value.(provisioned := true))), Idle)
  {
    assert Iterate(s, Concluding, d, b, 1)
           == Iterate(s.(config := Some(s.config.value.(provisioned := true))), Idle, d, b, 0);
  }

  /** A prepared directory's reset point has a disk and variables. */
  lemma ResetPointThere(w: World, d: Id)
    requires Inv(w) && d < |w.dirs| && w.dirs[d].config.Some?
    ensures RawAt(w, ResetDisk(w, d)).Some? && RawAt(w, ResetVars(w, d)).Some?
    ensures w.dirs[d].config.value.base.Some? <==> BaseOf(w, d) != d
    ensures w.dirs[d].config.value.provisioned ==> w.dirs[d].config.value.installStarted
  {
    assert DirOk(w, d);
    hide JobOk, SaveOk, BootOk;
  }

  /** `up` of a stopped guest, taken step by step without interruption, does exactly what
      AfterUp says: installation boots, boots before provisioning and cold starts alike. */
  lemma UpStepByStep(w: World, d: Id, install: bool) returns (cs: seq<Choice>)
    requires Inv(w) && Enabled(w, Up(d, install))
    ensures IsRun(w, cs) && |Run(w, cs).dirs| == |w.dirs| && w.dirs[d].config.Some?
    ensures Some(Look(Run(w, cs), d)) ==
            AfterUp(Look(w, d), BaseOf(w, d), RawAt(w, ResetDisk(w, d)), RawAt(w, ResetVars(w, d)), install)
  {
    hide Inv, CanAdvance, EditOf, Advanced, Edited;
    ResetPointThere(w, d);
    var w1 := Next(w, Up(d, install));
    StepKeeps(w, Up(d, install));
    cs := [Up(d, install)];
    assert cs[1..] == [];
    assert IsRun(w1, []);
    assert Run(w, cs) == w1 && Look(w1, d) == Look(w, d) && BaseSeen(w1, d) == BaseSeen(w, d);
    var s, b := Look(w, d), BaseSeen(w, d);
    var c := s.config.value;
    assert CanStart(c, install) && s.boot.None? && (c.base.Some? <==> b.Shared?);
    assert b.Own? ==> s.disk.Some? && s.vars.Some? && RawAt(w, ResetDisk(w, d)) == s.disk && RawAt(w, ResetVars(w, d)) == s.vars;
    assert b.Shared? ==> b == Shared(BaseOf(w, d), RawAt(w, ResetDisk(w, d)), RawAt(w, ResetVars(w, d)));
    var j := if c.provisioned then Creating else Recording(install);
    assert w1.dirs[d].job == j;
    hide IsRun, Run, Inv, Enabled, Next, BaseSeen, Look;
    cs := Advances(w, cs, d, 4);
    BootsUp(s, d, b, install, RawAt(w, ResetDisk(w, d)), RawAt(w, ResetVars(w, d)), BaseOf(w, d));
  }

  /** The machine lets a command begin exactly when the command would not refuse. */
  lemma BeginsExactly(w: World, d: Id, install: bool, keep: bool)
    requires Inv(w) && d < |w.dirs| && Ready(w, d)
    ensures w.dirs[d].boot.None? ==>
              (Enabled(w, Up(d, install)) <==>
                 AfterUp(Look(w, d), BaseOf(w, d), RawAt(w, ResetDisk(w, d)), RawAt(w, ResetVars(w, d)), install).Some?)
    ensures Enabled(w, Down(d, keep)) <==> AfterDown(Look(w, d), keep, Ending.Stops).Some?
    ensures Enabled(w, Provision(d)) <==> Look(w, d).boot.Some? && Look(w, d).config.value.base == None
  {
    ResetPointThere(w, d);
    hide Inv, CanAdvance;
  }

  /** A directory can be prepared exactly when it has neither a record nor a disk, and made an
      instance exactly when it has nothing at all and the base is a provisioned original. */
  lemma MakesExactly(w: World, d: Id, b: Id, firmware: Content)
    requires Inv(w) && d < |w.dirs| && b < |w.dirs| && d != b && w.dirs[d].job == Idle
    ensures Enabled(w, Prepare(d, firmware)) <==> Look(w, d).config == None && Look(w, d).disk == None
    ensures Enabled(w, Instance(d, b)) <==>
              && !w.dirs[d].used && Look(w, d) == Files(None, None, None, None, None, None, None, None, 0)
              && var c := Look(w, b).config; c.Some? && c.value.base == None && c.value.provisioned && c.value.installStarted
  {
    hide Inv, SaveOk, BootOk, CanAdvance;
    Here(w, d);
    Here(w, b);
    if p :| p in w.names && p.dir == d { OwnFileSeen(w, d, p.name); }
  }

  lemma OwnFileSeen(w: World, d: Id, n: Name)
    requires FilesOk(w) && d < |w.dirs| && Path(d, n) in w.names
    ensures var s := Look(w, d);
            s.disk.Some? || s.vars.Some? || s.newDisk.Some? || s.newVars.Some? || s.runDisk.Some? || s.runVars.Some?
  {
    assert w.data[w.names[Path(d, n)]].Overlay? <==> n == RunDisk;
    match n
    case BaseDisk =>
    case BaseVars =>
    case NewDisk =>
    case NewVars =>
    case RunDisk =>
    case RunVars =>
  }

  lemma BootsUp(s: Files, d: Id, b: Base, install: bool, disk: Option<Content>, vars: Option<Content>, dir: Id)
    requires s.config.Some? && s.boot.None? && CanStart(s.config.value, install)
    requires s.config.value.provisioned ==> s.config.value.installStarted
    requires s.config.value.base.Some? <==> b.Shared?
    requires disk.Some? && vars.Some?
    requires if b.Own? then s.disk == disk && s.vars == vars && dir == d else b == Shared(dir, disk, vars)
    ensures var j := if s.config.value.provisioned then Creating else Recording(install);
            Some(Iterate(s, j, d, b, 4).0) == AfterUp(s, dir, disk, vars, install)
  {
    var c := s.config.value;
    if c.provisioned {
      var s1 := s.(runDisk := Some(Layer(dir, [])));
      var s2 := s1.(runVars := vars);
      assert Iterate(s, Creating, d, b, 4) == Iterate(s1, CopyingVars, d, b, 3) == Iterate(s2, Recording(false), d, b, 2);
      BootsNow(s2, d, b, install, disk, vars, 2);
    } else {
      BootsNow(s, d, b, install, disk, vars, 4);
    }
  }

  lemma BootsNow(s: Files, d: Id, b: Base, install: bool, disk: Option<Content>, vars: Option<Content>, n: nat)
    requires n >= 2 && s.config.Some? && s.boot.None? && disk.Some? && vars.Some?
    requires s.config.value.base.Some? <==> b.Shared?
    requires s.config.value.base.Some? ==> s.config.value.provisioned
    requires if b.Own? then s.disk == disk && s.vars == vars else b.disk == disk
    requires s.config.value.provisioned ==> s.runDisk.Some? && s.runDisk.value.delta == [] && s.runVars == vars
    ensures var c := s.config.value;
            var c1 := c.(mode := if c.provisioned then OverlayMode else BaseMode, installStarted := c.installStarted || install);
            Iterate(s, Recording(install), d, b, n) ==
              (s.(config := Some(c1), boot := Some(Guest(ModeOf(c1), disk.value, vars.value, [], [])),
                  installs := s.installs + if install then 1 else 0), Idle)
  {
    var c := s.config.value;
    var c1 := c.(mode := if c.provisioned then OverlayMode else BaseMode, installStarted := c.installStarted || install);
    var s1 := s.(config := Some(c1));
    assert Iterate(s, Recording(install), d, b, n) == Iterate(s1, Launching(install), d, b, n - 1);
    assert disk.value + [] == disk.value;
    assert Iterate(s1, Launching(install), d, b, n - 1) == Iterate(Stepped(s1, Launching(install), d, b), Idle, d, b, n - 2);
  }

  /** The steps by which a `down` begins: the guest, if there is one, shuts itself down. */
  lemma Stops(w: World, d: Id, keep: bool) returns (cs: seq<Choice>)
    requires Inv(w) && Enabled(w, Down(d, keep))
    ensures IsRun(w, cs) && Inv(Run(w, cs)) && |Run(w, cs).dirs| == |w.dirs| && w.dirs[d].config.Some?
    ensures Look(Run(w, cs), d) == Look(w, d).(boot := None) && BaseSeen(Run(w, cs), d) == BaseSeen(w, d)
    ensures Run(w, cs).dirs[d].job == if w.dirs[d].boot.Some? then Stopping(keep) else DroppingDisk
  {
    DownLook(w, d, keep);
    var w1 := Next(w, Down(d, keep));
    StepKeeps(w, Down(d, keep));
    cs := [Down(d, keep)];
    OneStep(w, Down(d, keep));
    hide IsRun, Run, Inv, Next, CanAdvance, Look, BaseSeen;
    if w.dirs[d].boot.Some? {
      StepKeeps(w1, PowerOff(d));
      PowerOffLook(w1, d);
      RunAppend(w, cs, PowerOff(d));
      cs := cs + [PowerOff(d)];
    }
  }

  lemma OneStep(w: World, c: Choice)
    requires Enabled(w, c)
    ensures IsRun(w, [c]) && Run(w, [c]) == Next(w, c)
  {
    hide Enabled, Next;
    assert [c][1..] == [];
    assert IsRun(Next(w, c), []);
  }

  lemma DownLook(w: World, d: Id, keep: bool)
    requires Enabled(w, Down(d, keep))
    ensures var w' := Next(w, Down(d, keep));
            && |w'.dirs| == |w.dirs| && w.dirs[d].config.Some? && w'.dirs[d].boot == w.dirs[d].boot
            && Look(w', d) == Look(w, d) && BaseSeen(w', d) == BaseSeen(w, d)
            && w'.dirs[d].job == (if w.dirs[d].boot.Some? then Stopping(keep) else DroppingDisk)
            && (w.dirs[d].boot.None? ==> Look(w, d).boot.None?)
  {
    hide CanAdvance, EditOf, Advanced, Edited;
  }

  lemma PowerOffLook(w: World, d: Id)
    requires Enabled(w, PowerOff(d))
    ensures var w' := Next(w, PowerOff(d));
            && |w'.dirs| == |w.dirs| && w'.dirs[d].job == w.dirs[d].job
            && Look(w', d) == Look(w, d).(boot := None) && BaseSeen(w', d) == BaseSeen(w, d)
  {
    hide CanAdvance, EditOf, Advanced, Edited;
  }

  /** A `down` that saves nothing, taken step by step, discards what the boot left, as
      AfterDown says. */
  lemma DownStepByStep(w: World, d: Id) returns (cs: seq<Choice>)
    requires Inv(w) && Enabled(w, Down(d, false))
    ensures IsRun(w, cs) && |Run(w, cs).dirs| == |w.dirs| && w.dirs[d].config.Some?
    ensures Some(Look(Run(w, cs), d)) == AfterDown(Look(w, d), false, Ending.Stops)
  {
    cs := Stops(w, d, false);
    var s, b := Look(Run(w, cs), d), BaseSeen(Run(w, cs), d);
    var running := w.dirs[d].boot.Some?;
    assert Look(w, d).boot.Some? == running;
    hide IsRun, Run, Inv, Enabled, Next, BaseSeen, Look;
    cs := Advances(w, cs, d, if running then 3 else 2);
    Discards(s, d, b, 2);
    if running { StopsOnce(s, false, d, b, 2); }
  }

  lemma StopsOnce(s: Files, keep: bool, d: Id, b: Base, n: nat)
    requires s.config.Some? && s.boot.None?
    ensures Iterate(s, Stopping(keep), d, b, n + 1) == Iterate(s, if keep then Clearing else DroppingDisk, d, b, n)
  {
  }

  lemma Discards(s: Files, d: Id, b: Base, n: nat)
    requires s.config.Some? && n >= 2
    ensures Iterate(s, DroppingDisk, d, b, n) == (AfterDiscard(s), Idle)
  {
    assert Iterate(s, DroppingDisk, d, b, n) == Iterate(s.(runDisk := None), DroppingVars, d, b, n - 1);
    assert Iterate(s.(runDisk := None), DroppingVars, d, b, n - 1) == Iterate(AfterDiscard(s), Idle, d, b, n - 2);
  }

  /** A `down` that gives up, because the retrim fails or the guest does not shut down in
      time, has changed nothing: no file, no name, and the guest is as it was. */
  lemma GivesUpStepByStep(w: World, d: Id, keep: bool, ending: Ending) returns (cs: seq<Choice>)
    requires Inv(w) && Enabled(w, Down(d, keep)) && w.dirs[d].boot.Some?
    requires ending == NeverStops || (keep && ending == RetrimFails)
    ensures IsRun(w, cs) && |Run(w, cs).dirs| == |w.dirs| && Run(w, cs) == w
    ensures w.dirs[d].config.Some? && AfterDown(Look(w, d), keep, ending) == Some(Look(w, d))
  {
    DownLook(w, d, keep);
    OneStep(w, Down(d, keep));
    assert Run(w, [Down(d, keep)]) == Put(w, d, w.dirs[d].(job := Stopping(keep)));
    hide IsRun, Run, Inv;
    RunAppend(w, [Down(d, keep)], Kill(d));
    cs := [Down(d, keep)] + [Kill(d)];
    assert w.dirs[d := w.dirs[d].(job := Stopping(keep))][d := w.dirs[d]] == w.dirs;
  }

  /** One whose conversion fails leaves the guest stopped, the reset point and the overlay as
      they were, and no flattened disk. */
  lemma ConvertFailsStepByStep(w: World, d: Id) returns (cs: seq<Choice>)
    requires Inv(w) && Enabled(w, Down(d, true))
    ensures IsRun(w, cs) && |Run(w, cs).dirs| == |w.dirs| && Run(w, cs).dirs[d].job == Idle
    ensures Look(Run(w, cs), d) == Look(w, d).(boot := None, newDisk := None)
    ensures w.dirs[d].config.Some? && AfterDown(Look(w, d), true, ConvertFails) == Some(Look(Run(w, cs), d))
  {
    hide IsRun, Run, Inv, Next, CanAdvance, EditOf, Advanced;
    cs := ReachesFlattening(w, d);
    var f := Run(w, cs);
    FlattenFailsLook(f, d);
    RunAppend(w, cs, FlattenFails(d));
    cs := cs + [FlattenFails(d)];
  }

  lemma ReachesFlattening(w: World, d: Id) returns (cs: seq<Choice>)
    requires Inv(w) && Enabled(w, Down(d, true))
    ensures IsRun(w, cs) && |Run(w, cs).dirs| == |w.dirs| && Run(w, cs).dirs[d].job == Flattening
    ensures Look(Run(w, cs), d) == Look(w, d).(boot := None, newDisk := None)
  {
    hide IsRun, Run, Inv, Next, CanAdvance;
    cs := Stops(w, d, true);
    var s, b := Look(Run(w, cs), d), BaseSeen(Run(w, cs), d);
    assert s.config.Some? && s.boot.None?;
    hide Enabled, Look, BaseSeen;
    cs := Advances(w, cs, d, 2);
    StopsOnce(s, true, d, b, 1);
    Cleared(s, d, b);
  }

  lemma Cleared(s: Files, d: Id, b: Base)
    requires s.config.Some? && s.boot.None?
    ensures Iterate(s, Clearing, d, b, 1) == (s.(newDisk := None), Flattening)
  {
    assert Iterate(s, Clearing, d, b, 1) == Iterate(s.(newDisk := None), Flattening, d, b, 0);
  }

  lemma FlattenFailsLook(f: World, d: Id)
    requires Enabled(f, FlattenFails(d))
    ensures var f' := Next(f, FlattenFails(d));
            |f'.dirs| == |f.dirs| && f'.dirs[d].job == Idle && Look(f', d) == Look(f, d).(newDisk := None)
  {
    hide CanAdvance, EditOf, Advanced;
  }

  /** `down --save` of a running guest, in either mode, taken step by step, makes this boot
      the reset point and discards the overlay, as AfterDown says. */
  lemma SaveStepByStep(w: World, d: Id) returns (cs: seq<Choice>)
    requires Inv(w) && Enabled(w, Down(d, true))
    ensures IsRun(w, cs) && |Run(w, cs).dirs| == |w.dirs| && w.dirs[d].config.Some?
    ensures Some(Look(Run(w, cs), d)) == AfterDown(Look(w, d), true, Ending.Stops)
  {
    hide IsRun, Run, Inv, Next, CanAdvance;
    cs := Stops(w, d, true);
    var s, b := Look(Run(w, cs), d), BaseSeen(Run(w, cs), d);
    assert b.Own? && Look(w, d).boot.Some? && Look(w, d).config.value.base.None?;
    hide Enabled, BaseSeen, Look;
    cs := Advances(w, cs, d, 9);
    StopsOnce(s, true, d, b, 8);
    Saves(s, d, b);
  }

  lemma Saves(s: Files, d: Id, b: Base)
    requires s.config.Some? && s.boot.None? && b.Own?
    ensures Iterate(s, Clearing, d, b, 8) == (AfterDiscard(AfterSave(s)), Idle)
  {
    var s1 := s.(newDisk := None);
    var s2 := s.(newDisk := LeftBehind(s));
    assert Iterate(s, Clearing, d, b, 8) == Iterate(s1, Flattening, d, b, 7);
    if s.config.value.mode == OverlayMode {
      assert Iterate(s1, Flattening, d, b, 7) == Iterate(s2, CopyingNewVars, d, b, 6);
      SavesOverlay(s, s2, d, b);
    } else {
      assert Iterate(s1, Flattening, d, b, 7) == Iterate(s2, RenamingDisk, d, b, 6) == Iterate(AfterSave(s), DroppingDisk, d, b, 5);
      Discards(AfterSave(s), d, b, 5);
    }
  }

  lemma SavesOverlay(s: Files, s2: Files, d: Id, b: Base)
    requires s.config.Some? && s.config.value.mode == OverlayMode && s2 == s.(newDisk := LeftBehind(s))
    ensures Iterate(s2, CopyingNewVars, d, b, 6) == (AfterDiscard(AfterSave(s)), Idle)
  {
    var s3 := s2.(newVars := s.runVars);
    var s4 := s2.(vars := s.runVars, newVars := None);
    assert Iterate(s2, CopyingNewVars, d, b, 6) == Iterate(s3, RenamingVars, d, b, 5) == Iterate(s4, RenamingDisk, d, b, 4);
    assert Iterate(s4, RenamingDisk, d, b, 4) == Iterate(AfterSave(s), DroppingDisk, d, b, 3);
    Discards(AfterSave(s), d, b, 3);
  }
}
