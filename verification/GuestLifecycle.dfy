/**
  The guest's files over its whole life, as a transition system over any number of
  state directories on one file system. A path names an inode and an inode holds
  data; overwriting keeps the inode, renaming moves a name, and a file that has lost
  its name stays readable to whoever has it open. Each directory runs at most one
  lifecycle operation at a time (its lock file), broken into the file changes it
  makes; an operation may be killed before any of them, and guests write, shut down
  and die in between. A disk is the sequence of writes that made it.
  */
module GuestLifecycle {
  import opened Prelude

  type Id = nat

  type Ino = nat

  type Content = seq<int>

  datatype Mode = BaseMode | OverlayMode

  /** windows.qcow2, uefi-vars.fd, the two files a save prepares, run.qcow2, run-vars.fd. */
  datatype Name = BaseDisk | BaseVars | NewDisk | NewVars | RunDisk | RunVars

  datatype Path = Path(dir: Id, name: Name)

  /** An overlay keeps the writes made on top of the file its backing path names. */
  datatype Data = Raw(bytes: Content) | Overlay(backing: Path, delta: Content)

  /** vm.json, reduced to what decides which files a boot may write. */
  datatype Config = Config(base: Option<Id>, mode: Mode, installStarted: bool, provisioned: bool)

  /** A running QEMU: the files it has open, the backing one read-only, what it found
      there, and what it wrote since. */
  datatype Boot = Boot(
    mode: Mode, disk: Ino, backing: Option<Ino>, vars: Ino,
    diskAt: Content, varsAt: Content, writes: Content, varWrites: Content)

  datatype Job =
    | Idle
    | Seeding(vars: Content)       // prepare: copy the firmware variables
    | Formatting                   // prepare: create the empty disk
    | Enrolling                    // prepare: write vm.json
    | Adopting(base: Id)           // instance: write vm.json
    | Creating                     // up: create the overlay
    | CopyingVars                  // up: copy the reset point's variables
    | Recording(install: bool)     // up: write vm.json
    | Launching(install: bool)     // up: start QEMU
    | Concluding                   // provision: write vm.json
    | Stopping(keep: bool)         // down: waiting for QEMU to be gone
    | Clearing                     // save: drop a leftover flattened disk
    | Flattening                   // save: convert
    | CopyingNewVars               // save: copy this boot's variables aside
    | RenamingVars                 // save: rename them over the base's
    | RenamingDisk                 // save: rename the flattened disk over the base's
    | DroppingDisk                 // discard: unlink the overlay
    | DroppingVars                 // discard: unlink its variables

  /** `used` says that the directory holds other files, as an interrupted prepare leaves them. */
  datatype Dir = Dir(config: Option<Config>, boot: Option<Boot>, job: Job, used: bool, installs: nat)

  datatype World = World(names: map<Path, Ino>, data: map<Ino, Data>, dirs: seq<Dir>)

  /** `ino` is the inode number a newly created file gets. */
  datatype Choice =
    | Prepare(d: Id, firmwareVars: Content)
    | Instance(d: Id, base: Id)
    | Up(d: Id, install: bool)
    | Provision(d: Id)
    | Down(d: Id, keep: bool)
    | Advance(d: Id, ino: Ino)
    | FlattenFails(d: Id)
    | Kill(d: Id)
    | GuestWrites(d: Id, x: int)
    | GuestSetsVars(d: Id, x: int)
    | PowerOff(d: Id)

  const Unused: Dir := Dir(None, None, Idle, false, 0)

  // ----- paths and what they hold ---------------------------------------------------------

  function DataAt(w: World, p: Path): Option<Data> {
    if p in w.names && w.names[p] in w.data then Some(w.data[w.names[p]]) else None
  }

  function RawAt(w: World, p: Path): Option<Content> {
    if DataAt(w, p).Some? && DataAt(w, p).value.Raw? then Some(DataAt(w, p).value.bytes) else None
  }

  /** What a disk image opened by its path reads as. */
  function ImageAt(w: World, p: Path): Option<Content> {
    match DataAt(w, p)
    case Some(Raw(bytes)) => Some(bytes)
    case Some(Overlay(backing, delta)) =>
      if RawAt(w, backing).Some? then Some(RawAt(w, backing).value + delta) else None
    case None => None
  }

  function ModeOf(c: Config): Mode {
    if c.base.Some? || c.mode == OverlayMode then OverlayMode else BaseMode
  }

  /** Where the reset point lives: the shared base's directory, or one's own. */
  function BaseOf(w: World, d: Id): Id
    requires d < |w.dirs|
  {
    if w.dirs[d].config.Some? && w.dirs[d].config.value.base.Some? then w.dirs[d].config.value.base.value else d
  }

  function ResetDisk(w: World, d: Id): Path
    requires d < |w.dirs|
  {
    Path(BaseOf(w, d), BaseDisk)
  }

  function ResetVars(w: World, d: Id): Path
    requires d < |w.dirs|
  {
    Path(BaseOf(w, d), BaseVars)
  }

  function DiskOf(d: Id, mode: Mode): Path {
    Path(d, if mode == OverlayMode then RunDisk else BaseDisk)
  }

  function VarsOf(d: Id, mode: Mode): Path {
    Path(d, if mode == OverlayMode then RunVars else BaseVars)
  }

  /** What a running guest reads from the files it has open, whatever names they have now. */
  function Seen(w: World, b: Boot): Option<Content> {
    if b.disk !in w.data then None
    else if b.backing.None? then
      if w.data[b.disk].Raw? then Some(w.data[b.disk].bytes) else None
    else if b.backing.value in w.data && w.data[b.backing.value].Raw? && w.data[b.disk].Overlay? then
      Some(w.data[b.backing.value].bytes + w.data[b.disk].delta)
    else None
  }

  // ----- what an operation refuses -----------------------------------------------------------

  /** `prepare` gives up on a directory with a vm.json or a disk, not on one where an
      earlier `prepare` did not get that far. */
  predicate CanPrepare(w: World, d: Id)
    requires d < |w.dirs|
  {
    w.dirs[d].job == Idle && w.dirs[d].config.None? && Path(d, BaseDisk) !in w.names
  }

  /** `instance` wants an empty directory and a provisioned original. */
  predicate CanAdopt(w: World, d: Id, b: Id)
    requires d < |w.dirs|
  {
    && b < |w.dirs| && d != b && w.dirs[d] == Unused && (forall p :: p in w.names ==> p.dir != d)
    && w.dirs[b].config.Some?
    && w.dirs[b].config.value.provisioned && w.dirs[b].config.value.installStarted && w.dirs[b].config.value.base.None?
    && Path(b, BaseDisk) in w.names && Path(b, BaseVars) in w.names
  }

  /** `up` of a stopped guest. */
  predicate CanStart(c: Config, install: bool) {
    && (c.base.Some? ==> !install && c.provisioned)
    && install != c.installStarted
  }

  predicate Ready(w: World, d: Id)
    requires d < |w.dirs|
  {
    w.dirs[d].job == Idle && w.dirs[d].config.Some?
  }

  predicate Enabled(w: World, c: Choice) {
    c.d < |w.dirs| &&
    var s := w.dirs[c.d];
    match c
    case Prepare(d, _) => CanPrepare(w, d)
    case Instance(d, b) => CanAdopt(w, d, b)
    case Up(d, install) => Ready(w, d) && s.boot.None? && CanStart(s.config.value, install)
    case Provision(d) => Ready(w, d) && s.boot.Some? && s.config.value.base.None?
    case Down(d, keep) => Ready(w, d) && (keep ==> s.config.value.base.None? && s.boot.Some?)
    case Advance(d, ino) => CanAdvance(w, d) && ino !in w.data
    case FlattenFails(_) => s.job == Flattening
    case Kill(_) => s.job != Idle
    case GuestWrites(_, _) => s.boot.Some? && s.boot.value.disk in w.data
    case GuestSetsVars(_, _) => s.boot.Some? && s.boot.value.vars in w.data && w.data[s.boot.value.vars].Raw?
    case PowerOff(_) => s.boot.Some?
  }

  predicate CanAdvance(w: World, d: Id)
    requires d < |w.dirs|
  {
    var s := w.dirs[d];
    match s.job
    case Idle => false
    case Seeding(_) => true
    case Formatting => true
    case Enrolling => true
    case Adopting(_) => true
    case Stopping(_) => s.config.Some? && s.boot.None?
    case CopyingVars => s.config.Some? && RawAt(w, ResetVars(w, d)).Some?
    case Creating => s.config.Some? && RawAt(w, ResetDisk(w, d)).Some?
    case Launching(_) => s.config.Some? && CanLaunch(w, d, ModeOf(s.config.value))
    case Flattening => s.config.Some? && ImageAt(w, DiskOf(d, s.config.value.mode)).Some?
    case CopyingNewVars => RawAt(w, Path(d, RunVars)).Some?
    case RenamingVars => Path(d, NewVars) in w.names
    case RenamingDisk => Path(d, NewDisk) in w.names
    case _ => s.config.Some?
  }

  /** QEMU finds the disk, what backs it, and the variables. */
  predicate CanLaunch(w: World, d: Id, mode: Mode) {
    && RawAt(w, VarsOf(d, mode)).Some? && DataAt(w, DiskOf(d, mode)).Some?
    && match DataAt(w, DiskOf(d, mode)).value
       case Raw(_) => true
       case Overlay(backing, _) => RawAt(w, backing).Some?
  }

  // ----- file changes ---------------------------------------------------------------------------

  datatype Edit = Write(at: Path, data: Data) | Unlink(at: Path) | Rename(from: Path, to: Path) | Nothing

  /** An existing file is overwritten in place, a new one gets the inode `ino`. */
  function Edited(w: World, e: Edit, ino: Ino): World {
    match e
    case Write(p, x) =>
      if p in w.names then w.(data := w.data[w.names[p] := x])
      else w.(names := w.names[p := ino], data := w.data[ino := x])
    case Unlink(p) => w.(names := w.names - {p})
    case Rename(p, q) => if p in w.names then w.(names := w.names[q := w.names[p]] - {p}) else w
    case Nothing => w
  }

  /** The one file change by which an operation gets on, on the paths the script uses. */
  function EditOf(w: World, d: Id): Edit
    requires d < |w.dirs| && CanAdvance(w, d)
  {
    var s := w.dirs[d];
    match s.job
    case Seeding(vars) => Write(Path(d, BaseVars), Raw(vars))
    case Formatting => Write(Path(d, BaseDisk), Raw([]))
    case Creating => Write(Path(d, RunDisk), Overlay(ResetDisk(w, d), []))
    case CopyingVars => Write(Path(d, RunVars), Raw(RawAt(w, ResetVars(w, d)).value))
    case Clearing => Unlink(Path(d, NewDisk))
    case Flattening => Write(Path(d, NewDisk), Raw(ImageAt(w, DiskOf(d, s.config.value.mode)).value))
    case CopyingNewVars => Write(Path(d, NewVars), Raw(RawAt(w, Path(d, RunVars)).value))
    case RenamingVars => Rename(Path(d, NewVars), Path(d, BaseVars))
    case RenamingDisk => Rename(Path(d, NewDisk), Path(d, BaseDisk))
    case DroppingDisk => Unlink(Path(d, RunDisk))
    case DroppingVars => Unlink(Path(d, RunVars))
    case _ => Nothing
  }

  /** The operation's own state after that change. */
  function Advanced(w: World, d: Id): Dir
    requires d < |w.dirs| && CanAdvance(w, d)
  {
    var s := w.dirs[d];
    match s.job
    case Seeding(_) => s.(job := Formatting)
    case Formatting => s.(job := Enrolling)
    case Enrolling => s.(config := Some(Config(None, BaseMode, false, false)), job := Idle)
    case Adopting(b) => s.(config := Some(Config(Some(b), OverlayMode, true, true)), job := Idle)
    case Creating => s.(job := CopyingVars)
    case CopyingVars => s.(job := Recording(false))
    case Recording(install) =>
      var c := s.config.value;
      s.(config := Some(c.(mode := if c.provisioned then OverlayMode else BaseMode,
                           installStarted := c.installStarted || install)),
         job := Launching(install))
    case Launching(install) =>
      s.(boot := Some(Launched(w, d, ModeOf(s.config.value))),
         installs := s.installs + if install then 1 else 0, job := Idle)
    case Concluding => s.(config := Some(s.config.value.(provisioned := true)), job := Idle)
    case Stopping(keep) => s.(job := if keep then Clearing else DroppingDisk)
    case Clearing => s.(job := Flattening)
    case Flattening => s.(job := if s.config.value.mode == OverlayMode then CopyingNewVars else RenamingDisk)
    case CopyingNewVars => s.(job := RenamingVars)
    case RenamingVars => s.(job := RenamingDisk)
    case RenamingDisk => s.(job := DroppingDisk)
    case DroppingDisk => s.(job := DroppingVars)
    case DroppingVars => s.(job := Idle)
  }

  /** Opening resolves every path once; from then on the guest holds inodes. */
  function Launched(w: World, d: Id, mode: Mode): Boot
    requires CanLaunch(w, d, mode)
  {
    var disk := DataAt(w, DiskOf(d, mode)).value;
    Boot(mode, w.names[DiskOf(d, mode)],
         if disk.Overlay? then Some(w.names[disk.backing]) else None,
         w.names[VarsOf(d, mode)],
         ImageAt(w, DiskOf(d, mode)).value, RawAt(w, VarsOf(d, mode)).value, [], [])
  }

  // ----- steps --------------------------------------------------------------------------------

  function Put(w: World, d: Id, s: Dir): World
    requires d < |w.dirs|
  {
    w.(dirs := w.dirs[d := s])
  }

  function Extended(x: Data, v: int): Data {
    match x
    case Raw(bytes) => Raw(bytes + [v])
    case Overlay(backing, delta) => Overlay(backing, delta + [v])
  }

  function Next(w: World, c: Choice): World
    requires Enabled(w, c)
  {
    var s := w.dirs[c.d];
    match c
    case Prepare(d, vars) => Put(w, d, s.(job := Seeding(vars), used := true))
    case Instance(d, b) => Put(w, d, s.(job := Adopting(b), used := true))
    case Up(d, install) => Put(w, d, s.(job := if s.config.value.provisioned then Creating else Recording(install)))
    case Provision(d) => Put(w, d, s.(job := Concluding))
    case Down(d, keep) => Put(w, d, s.(job := if s.boot.Some? then Stopping(keep) else DroppingDisk))
    case Advance(d, ino) => Put(Edited(w, EditOf(w, d), ino), d, Advanced(w, d))
    case FlattenFails(d) => Put(Edited(w, Unlink(Path(d, NewDisk)), 0), d, s.(job := Idle))
    case Kill(d) => Put(w, d, s.(job := Idle))
    case GuestWrites(d, x) =>
      var b := s.boot.value;
      Put(w, d, s.(boot := Some(b.(writes := b.writes + [x])))).(data := w.data[b.disk := Extended(w.data[b.disk], x)])
    case GuestSetsVars(d, x) =>
      var b := s.boot.value;
      Put(w, d, s.(boot := Some(b.(varWrites := b.varWrites + [x])))).(data := w.data[b.vars := Extended(w.data[b.vars], x)])
    case PowerOff(d) => Put(w, d, s.(boot := None))
  }

  predicate IsRun(w: World, cs: seq<Choice>)
    decreases |cs|
  {
    cs == [] || (Enabled(w, cs[0]) && IsRun(Next(w, cs[0]), cs[1..]))
  }

  function Run(w: World, cs: seq<Choice>): World
    requires IsRun(w, cs)
    decreases |cs|
  {
    if cs == [] then w else Run(Next(w, cs[0]), cs[1..])
  }

  /** Any number of unused directories and no files. */
  predicate Start(w: World) {
    w.names == map[] && forall d :: 0 <= d < |w.dirs| ==> w.dirs[d] == Unused
  }
}
