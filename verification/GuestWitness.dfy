/**
  A run the script admits in which shared-base isolation fails: the base is still up
  from its installation when an instance of it is started.
  */
module GuestWitness {
  import opened Prelude
  import opened GuestLifecycle
  import opened GuestSafety
  import opened GuestTheorems
  import opened GuestScript

  const TwoDirectories: World := World(map[], map[], [Unused, Unused])

  const BaseConfig := Config(None, BaseMode, true, true)

  /** The base's guest, installed with variables [1] and never shut down. */
  const Installer := Boot(BaseMode, 1, None, 0, [], [1], [], [])

  const BaseUp: Dir := Dir(Some(BaseConfig), Some(Installer), Idle, true, 1)

  const BaseNames: map<Path, Ino> := map[Path(0, BaseVars) := 0, Path(0, BaseDisk) := 1]

  const BaseData: map<Ino, Data> := map[0 := Raw([1]), 1 := Raw([])]

  const BaseReady: World := World(BaseNames, BaseData, [BaseUp, Unused])

  /** The instance, its overlay made and its variables copied, about to start QEMU. */
  const InstanceStarting: Dir := Dir(Some(Config(Some(0), OverlayMode, true, true)), None, Launching(false), true, 0)

  const Shared: World :=
    World(BaseNames[Path(1, RunDisk) := 2][Path(1, RunVars) := 3],
          BaseData[2 := Overlay(Path(0, BaseDisk), [])][3 := Raw([1])], [BaseUp, InstanceStarting])

  lemma Follow(w: World, cs: seq<Choice>, v: World, c: Choice, v': World) returns (ds: seq<Choice>)
    requires IsRun(w, cs) && Run(w, cs) == v && Enabled(v, c) && Next(v, c) == v'
    ensures IsRun(w, ds) && Run(w, ds) == v'
  {
    RunAppend(w, cs, c);
    ds := cs + [c];
  }

  lemma PreparesTheBase() returns (cs: seq<Choice>)
    ensures IsRun(TwoDirectories, cs)
    ensures Run(TwoDirectories, cs)
            == World(BaseNames, BaseData, [Dir(Some(Config(None, BaseMode, false, false)), None, Idle, true, 0), Unused])
  {
    hide IsRun, Run;
    var w := TwoDirectories;
    cs := Begin(w);
    var d1 := Dir(None, None, Seeding([1]), true, 0);
    var w1 := w.(dirs := [d1, Unused]);
    cs := Follow(w, cs, w, Prepare(0, [1]), w1);
    var w2 := World(map[Path(0, BaseVars) := 0], map[0 := Raw([1])], [d1.(job := Formatting), Unused]);
    cs := Follow(w, cs, w1, Advance(0, 0), w2);
    var w3 := World(BaseNames, BaseData, [d1.(job := Enrolling), Unused]);
    cs := Follow(w, cs, w2, Advance(0, 1), w3);
    var w4 := w3.(dirs := [Dir(Some(Config(None, BaseMode, false, false)), None, Idle, true, 0), Unused]);
    cs := Follow(w, cs, w3, Advance(0, 2), w4);
  }

  lemma Begin(w: World) returns (cs: seq<Choice>)
    ensures IsRun(w, cs) && Run(w, cs) == w
  {
    cs := [];
  }

  lemma InstallsTheBase() returns (cs: seq<Choice>)
    ensures IsRun(TwoDirectories, cs) && Run(TwoDirectories, cs) == BaseReady
  {
    hide IsRun, Run;
    cs := PreparesTheBase();
    var w := TwoDirectories;
    var c := Config(None, BaseMode, false, false);
    var d := Dir(Some(c), None, Idle, true, 0);
    var w4 := World(BaseNames, BaseData, [d, Unused]);
    var w5 := w4.(dirs := [d.(job := Recording(true)), Unused]);
    cs := Follow(w, cs, w4, Up(0, true), w5);
    var d6 := Dir(Some(c.(installStarted := true)), None, Launching(true), true, 0);
    var w6 := w4.(dirs := [d6, Unused]);
    cs := Follow(w, cs, w5, Advance(0, 2), w6);
    var d7 := d6.(boot := Some(Installer), job := Idle, installs := 1);
    var w7 := w4.(dirs := [d7, Unused]);
    cs := Follow(w, cs, w6, Advance(0, 2), w7);
    var w8 := w4.(dirs := [d7.(job := Concluding), Unused]);
    cs := Follow(w, cs, w7, Provision(0), w8);
    cs := Follow(w, cs, w8, Advance(0, 2), BaseReady);
  }

  lemma AdoptsTheBase() returns (cs: seq<Choice>)
    ensures IsRun(TwoDirectories, cs)
    ensures Run(TwoDirectories, cs) == BaseReady.(dirs := [BaseUp, InstanceStarting.(job := Idle)])
  {
    hide IsRun, Run;
    cs := InstallsTheBase();
    var w := TwoDirectories;
    var w1 := BaseReady.(dirs := [BaseUp, Dir(None, None, Adopting(0), true, 0)]);
    cs := Follow(w, cs, BaseReady, Instance(1, 0), w1);
    cs := Follow(w, cs, w1, Advance(1, 2), BaseReady.(dirs := [BaseUp, InstanceStarting.(job := Idle)]));
  }

  const OverlayMade: World :=
    World(BaseNames[Path(1, RunDisk) := 2], BaseData[2 := Overlay(Path(0, BaseDisk), [])],
          [BaseUp, InstanceStarting.(job := CopyingVars)])

  lemma MakesTheOverlay() returns (cs: seq<Choice>)
    ensures IsRun(TwoDirectories, cs) && Run(TwoDirectories, cs) == OverlayMade
  {
    hide IsRun, Run;
    cs := AdoptsTheBase();
    var w := TwoDirectories;
    var d2 := InstanceStarting.(job := Idle);
    var w3 := BaseReady.(dirs := [BaseUp, d2.(job := Creating)]);
    cs := Follow(w, cs, BaseReady.(dirs := [BaseUp, d2]), Up(1, false), w3);
    cs := Follow(w, cs, w3, Advance(1, 2), OverlayMade);
  }

  lemma StartsTheInstance() returns (cs: seq<Choice>)
    ensures IsRun(TwoDirectories, cs) && Run(TwoDirectories, cs) == Shared
  {
    hide IsRun, Run;
    cs := MakesTheOverlay();
    var w5 := Shared.(dirs := [BaseUp, InstanceStarting.(job := Recording(false))]);
    cs := Follow(TwoDirectories, cs, OverlayMade, Advance(1, 3), w5);
    cs := Follow(TwoDirectories, cs, w5, Advance(1, 4), Shared);
  }

  /** From nothing, `prepare`, `up --install` and `provision` of a base, then `instance` and
      `up` beside it while it is still up: the base's guest writes 7, and the instance, which
      started from an empty disk and wrote nothing, sees the 7. */
  lemma ABaseLeftUpIsSeen() returns (before: seq<Choice>)
    ensures Start(TwoDirectories) && IsRun(TwoDirectories, before) && Run(TwoDirectories, before) == Shared
    ensures Enabled(Shared, Advance(1, 4)) && !NobodyWrites(Shared, Shared.names[ResetDisk(Shared, 1)])
    ensures var g := Next(Shared, Advance(1, 4));
            && Enabled(g, GuestWrites(0, 7)) && |g.dirs| == 2 && g.dirs[1].boot.Some? && g.dirs[1].boot.value.diskAt == []
            && var h := Next(g, GuestWrites(0, 7));
               h.dirs[1] == g.dirs[1] && h.dirs[1].boot.value.writes == [] && Seen(h, h.dirs[1].boot.value) == Some([7])
  {
    before := StartsTheInstance();
    hide IsRun, Run;
    assert Shared.dirs[0].boot.value.disk == 1 == Shared.names[ResetDisk(Shared, 1)];
    var g := Next(Shared, Advance(1, 4));
    assert g.dirs[1].boot.value == Boot(OverlayMode, 2, Some(1), 3, [], [1], [], []);
    assert g.data == Shared.data && g.dirs[0] == BaseUp;
    assert [] + [7] == [7] && [7] + [] == [7];
  }
}
