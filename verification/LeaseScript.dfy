/**
  The script as it runs when its gates keep everyone else out: one object for the
  lock directory, one method per action, each proved against `Outcome`. The
  machine of LeaseProtocol takes the same work apart into single steps; `Alone`
  puts the steps of one process back together and arrives at `Outcome` again.
  */
module LeaseScript {
  import opened Prelude
  import opened Paths
  import opened LeaseLedger
  import opened OwnerRecord
  import opened Shipping
  import opened LeaseProtocol
  import opened LeaseSafety

  function Taken(token: Token, runId: RunId, seconds: int, now: Instant): LockDir {
    Present(Some(Lease(token, runId, now, seconds)), now, map[token := map[]])
  }

  /** The lock directory and exit code an uninterrupted action leaves behind. Invoke is
      the refresh after its command; before it, Invoke decides as Verify does. */
  function Outcome(d: LockDir, a: Action, token: Token, runId: RunId, seconds: int, now: Instant): (LockDir, int) {
    if a == Acquire then
      if d.Present? && !Reclaimable(d, seconds, now) then (d, EXIT_BUSY) else (Taken(token, runId, seconds, now), 0)
    else if !Holds(OwnerOf(d), token, runId) then (d, EXIT_REJECTED)
    else if a != Invoke && Expired(d.owner.value, now) then (d, EXIT_REJECTED)
    else if a == Verify then (d, 0)
    else if a == Release then (Absent, 0)
    else (d.(owner := Some(d.owner.value.(stamp := now)), touched := now), 0)
  }

  /** From its acquisition a lease is exclusive for exactly its length: at every later
      instant either its owner passes the check and every other Acquire is refused, or
      the owner is refused and another Acquire takes over. */
  lemma LeaseIsExactlyExclusive(d: LockDir, token: Token, runId: RunId, seconds: int, taken: Instant,
                                rival: Token, rivalRun: RunId, rivalSeconds: int, now: Instant)
    requires taken <= now
    requires Outcome(d, Acquire, token, runId, seconds, taken).1 == 0
    ensures var held := Outcome(d, Acquire, token, runId, seconds, taken).0;
            && (Outcome(held, Verify, token, runId, seconds, now).1 == 0 <==> now <= taken + seconds * TICKS_PER_SECOND)
            && (Outcome(held, Acquire, rival, rivalRun, rivalSeconds, now).1 == EXIT_BUSY <==> now <= taken + seconds * TICKS_PER_SECOND)
            && (Outcome(held, Release, token, runId, seconds, now).0.Absent? <==> now <= taken + seconds * TICKS_PER_SECOND)
  {
  }

  class LockWorkdir {
    const casts: Casts
    var clock: Instant
    var present: bool
    var files: Entries
    var touched: Instant
    var stages: map<string, map<string, Data>>

    ghost function Dir(): LockDir
      reads this
    {
      if present then Present(OwnerIn(casts, files), touched, stages) else Absent
    }

    /** Nobody but this script has written owner.json. */
    ghost predicate Ours()
      reads this
    {
      OwnTokens(casts, files)
    }

    /** The record in owner.json together with the lease it stands for; nothing if any of its
        fields is missing, empty, of the wrong kind or out of range. */
    method ReadOwner() returns (stored: Option<(Record, Lease)>)
      requires Ours()
      ensures OwnerIn(casts, files) == if stored.Some? then Some(stored.value.1) else None
      ensures stored.Some? ==> OwnerJson in files && files[OwnerJson] == Whole(stored.value.0)
    {
      if OwnerJson !in files || files[OwnerJson].Torn? { return None; }
      var r := files[OwnerJson].record;
      for i := 0 to |Required|
        invariant forall j :: 0 <= j < i ==> Filled(r, Required[j])
      {
        if Required[i] !in r || r[Required[i]] == Null || r[Required[i]] == Text("") { return None; }
      }
      assert Filled(r, Required[0]) && Filled(r, Required[3]) && Filled(r, Required[4]) && Filled(r, Required[5]);
      var stamp, seconds := casts.time(r[RENEWED]), casts.whole(r[SECONDS]);
      if stamp.None? || seconds.None? { return None; }
      if seconds.value < 1 || seconds.value > MAX_SECONDS { return None; }
      stored := Some((r, Lease(casts.text(r[TOKEN]), casts.text(r[RUN_ID]), stamp.value, seconds.value)));
    }

    /** Replaces owner.json by way of a scratch file. Whoever looks in between, or after a
        crash anywhere in between, finds the old document or the new one, complete. */
    method WriteOwner(value: Record, scratch: nat, backup: nat) returns (ghost seen: seq<Entries>)
      requires present && Scratch(scratch) !in files && Backup(backup) !in files
      modifies this`files, this`touched
      ensures files == old(files)[OwnerJson := Whole(value)] && touched == clock
      ensures forall i :: 0 <= i < |seen| ==> Complete(old(files), value, seen[i])
    {
      ghost var was := files;
      files := files[Scratch(scratch) := Torn];
      seen := [files];
      files := files[Scratch(scratch) := Whole(value)];
      seen := seen + [files];
      if OwnerJson in files {
        files := files[Backup(backup) := files[OwnerJson]][OwnerJson := files[Scratch(scratch)]] - {Scratch(scratch)};
      } else {
        files := files[OwnerJson := files[Scratch(scratch)]] - {Scratch(scratch)};
      }
      seen := seen + [files];
      files := files - {Scratch(scratch)};
      files := files - {Backup(backup)};
      touched := clock;
      assert files == was[OwnerJson := Whole(value)];
    }

    /** Remove-Item -Recurse: entry by entry, the directory itself last. */
    method RemoveTree()
      requires present
      modifies this`present, this`files, this`touched, this`stages
      ensures Dir() == Absent && files == map[]
    {
      while files.Keys != {}
        invariant present
        decreases |files|
      {
        var e :| e in files;
        ghost var keys := files.Keys;
        files, touched := files - {e}, clock;
        assert |files.Keys| < |keys|;
      }
      while stages.Keys != {}
        invariant present && files == map[]
        decreases |stages|
      {
        var t :| t in stages;
        ghost var keys := stages.Keys;
        stages, touched := stages - {t}, clock;
        assert |stages.Keys| < |keys|;
      }
      present := false;
    }

    /** The arguments are the ones the script's own parameter checks let through. */
    method AcquireLock(token: Token, runId: RunId, host: string, pid: string, seconds: int, scratch: nat, backup: nat)
      returns (exit: int)
      requires Faithful(casts) && Ours()
      requires runId != "" && host != "" && pid != "" && 1 <= seconds <= MAX_SECONDS
      modifies this`present, this`files, this`touched, this`stages
      ensures (Dir(), exit) == Outcome(old(Dir()), Acquire, token, runId, seconds, clock)
      ensures Ours()
      ensures files == if exit == 0 then map[OwnerJson := Whole(NewRecord(token, runId, host, pid, seconds, clock))] else old(files)
      // It is busy, and changes nothing, up to the end of the recorded owner's lease; without a
      // readable owner, up to this caller's own lease length after the last write.
      ensures exit == 73 <==> old(present)
                              && match old(OwnerIn(casts, files))
                                 case Some(l) => clock <= l.stamp + l.seconds * TICKS_PER_SECOND
                                 case None => clock <= old(touched) + seconds * TICKS_PER_SECOND
      ensures exit == 73 ==> present == old(present) && files == old(files) && touched == old(touched) && stages == old(stages)
      ensures exit != 73 ==> exit == 0 && present && stages == map[token := map[]] && touched == clock
                             && OwnerIn(casts, files) == Some(Lease(token, runId, clock, seconds))
    {
      var now := clock;
      var stored := None;
      if present { stored := ReadOwner(); }
      if present {
        var expired;
        if stored.Some? {
          var age := now - stored.value.1.stamp;
          expired := age > stored.value.1.seconds * TICKS_PER_SECOND;
        } else {
          var age := now - touched;
          expired := age > seconds * TICKS_PER_SECOND;
        }
        if !expired { return EXIT_BUSY; }
        RemoveTree();
      }
      present, files, touched, stages := true, map[], clock, map[];
      stages := stages[token := map[]];
      NewRecordReads(casts, token, runId, host, pid, seconds, now);
      ghost var seen := WriteOwner(NewRecord(token, runId, host, pid, seconds, now), scratch, backup);
      exit := 0;
    }

    /** Renew, Verify and Release behind the common owner check. */
    method OwnerAction(action: Action, token: Token, runId: RunId, seconds: int, scratch: nat, backup: nat) returns (exit: int)
      requires Faithful(casts) && Ours() && Scratch(scratch) !in files && Backup(backup) !in files
      requires action == Renew || action == Verify || action == Release
      modifies this`present, this`files, this`touched, this`stages
      ensures (Dir(), exit) == Outcome(old(Dir()), action, token, runId, seconds, clock)
      ensures exit == 0 && action == Renew ==> OnlyRestamped(old(files), files, clock)
      ensures Ours()
      ensures exit != 0 || action == Verify ==> files == old(files)
      // Only the recorded owner, token and run id alike, and only up to the end of its lease.
      ensures exit == 0 <==> old(present) && old(OwnerIn(casts, files)).Some?
                             && var l := old(OwnerIn(casts, files)).value;
                                l.token == token && l.runId == runId && clock <= l.stamp + l.seconds * TICKS_PER_SECOND
      ensures exit != 0 ==> exit == 74 && present == old(present) && touched == old(touched) && stages == old(stages)
      ensures exit == 0 ==> present == (action != Release)
      ensures exit == 0 && action == Renew ==>
                stages == old(stages) && touched == clock && OwnerIn(casts, files) == Some(old(OwnerIn(casts, files)).value.(stamp := clock))
    {
      var now := clock;
      var stored := None;
      if present { stored := ReadOwner(); }
      if stored.None? { return EXIT_REJECTED; }
      if stored.value.1.token != token || stored.value.1.runId != runId { return EXIT_REJECTED; }
      if now - stored.value.1.stamp > stored.value.1.seconds * TICKS_PER_SECOND { return EXIT_REJECTED; }
      if action == Renew {
        RenewedReads(casts, stored.value.0, now);
        ghost var seen := WriteOwner(Renewed(stored.value.0, now), scratch, backup);
      } else if action == Release {
        RemoveTree();
      }
      exit := 0;
    }

    /** The finally block of Invoke, back under the metadata gate. */
    method AfterCommand(token: Token, runId: RunId, seconds: int, commandExit: int, scratch: nat, backup: nat) returns (exit: int)
      requires Faithful(casts) && Ours() && Scratch(scratch) !in files && Backup(backup) !in files
      modifies this`files, this`touched
      ensures Dir() == Outcome(old(Dir()), Invoke, token, runId, seconds, clock).0
      ensures exit == if Outcome(old(Dir()), Invoke, token, runId, seconds, clock).1 == 0 then commandExit else EXIT_REJECTED
      ensures Ours()
      ensures OnlyRestamped(old(files), files, clock) || files == old(files)
      // The recorded owner, even when its lease has run out meanwhile.
      ensures var was := old(OwnerIn(casts, files));
              if present && was.Some? && was.value.token == token && was.value.runId == runId then
                exit == commandExit && OwnerIn(casts, files) == Some(was.value.(stamp := clock)) && touched == clock
              else exit == 74 && files == old(files) && touched == old(touched)
    {
      var current := None;
      if present { current := ReadOwner(); }
      if current.None? || current.value.1.token != token || current.value.1.runId != runId {
        return EXIT_REJECTED;
      }
      RenewedReads(casts, current.value.0, clock);
      ghost var seen := WriteOwner(Renewed(current.value.0, clock), scratch, backup);
      exit := commandExit;
    }
  }

  // ----- the same work, step by step -------------------------------------------------

  lemma {:induction false} RunAppend(s: State, cs: seq<Choice>, ds: seq<Choice>)
    requires IsRun(s, cs) && IsRun(Run(s, cs), ds)
    ensures IsRun(s, cs + ds) && Run(s, cs + ds) == Run(Run(s, cs), ds)
    decreases |cs|
  {
    hide Enabled, Next;
    if cs == [] {
      assert cs + ds == ds;
    } else {
      RunAppend(Next(s, cs[0]), cs[1..], ds);
      assert (cs + ds)[0] == cs[0] && (cs + ds)[1..] == cs[1..] + ds;
    }
  }

  lemma Then(s: State, cs: seq<Choice>, c: Choice) returns (ds: seq<Choice>)
    requires IsRun(s, cs) && Enabled(Run(s, cs), c)
    ensures ds == cs + [c] && IsRun(s, ds) && Run(s, ds) == Next(Run(s, cs), c)
  {
    ds := cs + [c];
    assert [c][1..] == [];
    assert IsRun(Next(Run(s, cs), c), []);
    assert IsRun(Run(s, cs), [c]);
    RunAppend(s, cs, [c]);
  }

  /** One more step, a lock process's. */
  lemma Turn(s: State, cs: seq<Choice>, c: Choice) returns (ds: seq<Choice>)
    requires IsRun(s, cs) && Enabled(Run(s, cs), c) && IsLockStep(c)
    ensures ds == cs + [c] && IsRun(s, ds) && c.p < |Run(s, cs).procs|
    ensures var f := Run(s, cs);
            Run(s, ds) == f.(procs := f.procs[c.p := ProcAfter(f, c)], dir := DirAfter(f, c),
                             vm := FilesWith(f.vm, EventsOf(f, c)), log := f.log + EventsOf(f, c))
  {
    ds := Then(s, cs, c);
    hide IsRun, Run, Enabled, Next, ProcAfter, DirAfter, EventsOf, FilesWith;
    LockStepIs(Run(s, cs), c);
  }

  lemma NoSteps(s: State)
    ensures IsRun(s, []) && Run(s, []) == s
  {
  }

  /** One process empties the directory by its own steps and leaves nothing. */
  lemma {:induction false} RemovesEverything(s: State, p: nat) returns (cs: seq<Choice>)
    requires At(s, p, Removing) && s.dir.Present?
    requires s.procs[p].action == Acquire || s.procs[p].action == Release
    ensures IsRun(s, cs) && Run(s, cs).dir == Absent && Run(s, cs).clock == s.clock
    ensures |Run(s, cs).procs| == |s.procs|
    ensures var x := s.procs[p];
            Run(s, cs).procs[p] ==
              (if x.action == Acquire then x.(pc := MakingDirectory) else x.(pc := Leaving, exit := 0)).(emptied := x.emptied || s.dir.owner.Some?)
    decreases if s.dir.owner.Some? then 1 else 0, |s.dir.stages|
  {
    if s.dir.owner.Some? {
      var s' := Next(s, RemoveOwner(p));
      var ds := RemovesEverything(s', p);
      cs := [RemoveOwner(p)] + ds;
    } else if s.dir.stages == map[] {
      cs := Then(s, [], RemoveDirectory(p));
    } else {
      var t :| t in s.dir.stages;
      var s' := Next(s, RemoveStage(p, t));
      assert s'.dir.stages.Keys == s.dir.stages.Keys - {t};
      assert |s'.dir.stages.Keys| < |s.dir.stages.Keys|;
      var ds := RemovesEverything(s', p);
      cs := [RemoveStage(p, t)] + ds;
    }
  }

  lemma MakesRoom(s: State, p: nat) returns (cs: seq<Choice>)
    requires At(s, p, MakingDirectory) && s.dir.Absent?
    ensures IsRun(s, cs) && |Run(s, cs).procs| == |s.procs| && Run(s, cs).clock == s.clock
    ensures Run(s, cs).dir == Present(None, s.clock, map[s.procs[p].token := map[]])
    ensures Run(s, cs).procs[p] == s.procs[p].(pc := Writing)
  {
    hide IsRun, Run, Next;
    NoSteps(s);
    cs := Turn(s, [], MakeDirectory(p));
    cs := Turn(s, cs, MakeStage(p));
  }

  lemma TakesOver(s: State, p: nat) returns (cs: seq<Choice>)
    requires At(s, p, MakingDirectory) && s.dir.Absent? && s.procs[p].action == Acquire && s.procs[p].now == s.clock
    ensures IsRun(s, cs) && |Run(s, cs).procs| == |s.procs|
    ensures var x := s.procs[p];
            && Run(s, cs).dir == Taken(x.token, x.runId, x.seconds, s.clock)
            && Run(s, cs).procs[p] == x.(pc := Leaving, exit := 0)
  {
    hide IsRun, Run, Next;
    cs := MakesRoom(s, p);
    cs := Turn(s, cs, WriteOwner(p));
  }

  /** What a process that has found its way clear does after its check. */
  lemma GoesOn(s: State, p: nat) returns (cs: seq<Choice>)
    requires p < |s.procs| && s.procs[p].now == s.clock && s.procs[p].stored == OwnerOf(s.dir)
    requires var x := s.procs[p];
             || (x.pc == Removing && s.dir.Present? && (x.action == Acquire || x.action == Release))
             || (x.pc == MakingDirectory && s.dir.Absent? && x.action == Acquire)
             || (x.pc == Writing && s.dir.Present? && x.action == Renew && x.stored.Some?)
    ensures IsRun(s, cs) && |Run(s, cs).procs| == |s.procs| && Run(s, cs).procs[p].pc == Leaving && Run(s, cs).procs[p].exit == 0
    ensures var x := s.procs[p];
            Run(s, cs).dir ==
              if x.action == Acquire then Taken(x.token, x.runId, x.seconds, s.clock)
              else if x.action == Release then Absent
              else s.dir.(owner := Some(s.dir.owner.value.(stamp := s.clock)), touched := s.clock)
  {
    hide IsRun, Run, Next, Taken;
    NoSteps(s);
    var x := s.procs[p];
    if x.pc == Writing {
      cs := Turn(s, [], WriteOwner(p));
    } else {
      cs := [];
      if x.pc == Removing { cs := RemovesEverything(s, p); }
      hide Enabled;
      if x.action == Acquire {
        var es := TakesOver(Run(s, cs), p);
        RunAppend(s, cs, es);
        cs := cs + es;
      }
    }
  }

  /** A process that is never interrupted between reading the clock and letting go of
      the gates does, step by step, exactly what the script's `Outcome` says. */
  lemma Alone(s: State, p: nat) returns (cs: seq<Choice>)
    requires At(s, p, Checking) && s.procs[p].action != Invoke
    ensures IsRun(s, cs) && |Run(s, cs).procs| == |s.procs| && Run(s, cs).procs[p].pc == Leaving
    ensures var x := s.procs[p];
            (Run(s, cs).dir, Run(s, cs).procs[p].exit)
              == Outcome(s.dir, x.action, x.token, x.runId, x.seconds, s.clock)
  {
    hide IsRun, Run, Next;
    NoSteps(s);
    cs := Turn(s, [], Check(p));
    var s1 := Run(s, cs);
    ChecksAsOutcome(s, p);
    hide Checked, Outcome, Taken, Reclaimable, Holds, Expired;
    if s1.procs[p].pc != Leaving {
      var ds := GoesOn(s1, p);
      RunAppend(s, cs, ds);
      cs := cs + ds;
    }
  }

  /** The check decides as `Outcome` does. */
  lemma ChecksAsOutcome(s: State, p: nat)
    requires At(s, p, Checking) && s.procs[p].action != Invoke
    ensures var x, y := s.procs[p], Checked(s, s.procs[p]).0;
            var after := Outcome(s.dir, x.action, x.token, x.runId, x.seconds, s.clock);
            && y == x.(now := s.clock, stored := OwnerOf(s.dir), pc := y.pc, exit := y.exit)
            && (y.pc == Leaving ==> after == (s.dir, y.exit))
            && (y.pc != Leaving ==>
                  && after.1 == 0
                  && (   (y.pc == Removing && s.dir.Present? && (x.action == Acquire || x.action == Release))
                      || (y.pc == MakingDirectory && s.dir.Absent? && x.action == Acquire)
                      || (y.pc == Writing && s.dir.Present? && x.action == Renew && y.stored.Some?))
                  && after.0 == if x.action == Acquire then Taken(x.token, x.runId, x.seconds, s.clock)
                                else if x.action == Release then Absent
                                else s.dir.(owner := Some(s.dir.owner.value.(stamp := s.clock)), touched := s.clock))
  {
  }

  /** When an Acquire gives way: while the recorded owner's lease runs, or, with no readable
      owner, until the directory has lain untouched for longer than this Acquire's own lease. */
  lemma AcquireDecides(s: State, p: nat)
    requires At(s, p, Checking) && s.procs[p].action == Acquire
    ensures var s' := Next(s, Check(p)); var x := s.procs[p];
            && s'.dir == s.dir && s'.log == s.log && s'.vm == s.vm && |s'.procs| == |s.procs|
            && var busy := s.dir.Present?
                           && match s.dir.owner
                              case Some(l) => s.clock <= l.stamp + l.seconds * TICKS_PER_SECOND
                              case None => s.clock <= s.dir.touched + x.seconds * TICKS_PER_SECOND;
               s'.procs[p] == x.(now := s.clock, stored := s'.procs[p].stored,
                                 pc := if busy then Leaving else if s.dir.Present? then Removing else MakingDirectory,
                                 exit := if busy then 73 else x.exit)
  {
  }

  /** And what then comes of it, uninterrupted: 73 and nothing changed, or 0 and a directory
      with only its own stage and its own record. */
  lemma AcquireEnds(s: State, p: nat) returns (cs: seq<Choice>)
    requires At(s, p, Checking) && s.procs[p].action == Acquire
    ensures IsRun(s, cs) && |Run(s, cs).procs| == |s.procs| && Run(s, cs).procs[p].pc == Leaving
    ensures var f := Run(s, cs); var x := s.procs[p];
            if s.dir.Present?
               && match s.dir.owner
                  case Some(l) => s.clock <= l.stamp + l.seconds * TICKS_PER_SECOND
                  case None => s.clock <= s.dir.touched + x.seconds * TICKS_PER_SECOND
            then f.procs[p].exit == 73 && f.dir == s.dir
            else f.procs[p].exit == 0
                 && f.dir == Present(Some(Lease(x.token, x.runId, s.clock, x.seconds)), s.clock, map[x.token := map[]])
  {
    hide IsRun, Run, Next;
    cs := Alone(s, p);
  }

  /** When any other action gets past its check: as the recorded owner, token and run id
      alike, up to the end of its lease. What it does then is its own. */
  lemma OwnerDecides(s: State, p: nat)
    requires At(s, p, Checking) && s.procs[p].action != Acquire
    ensures var s' := Next(s, Check(p)); var x := s.procs[p];
            && s'.dir == s.dir && s'.vm == s.vm && |s'.procs| == |s.procs|
            && var good := s.dir.Present? && s.dir.owner.Some?
                           && s.dir.owner.value.token == x.token && s.dir.owner.value.runId == x.runId
                           && s.clock <= s.dir.owner.value.stamp + s.dir.owner.value.seconds * TICKS_PER_SECOND;
               var y := s'.procs[p];
               && (!good ==> y.pc == Leaving && y.exit == 74)
               && (good ==> match x.action
                            case Renew => y.pc == Writing
                            case Release => y.pc == Removing
                            case Invoke => if x.command.Blank? then y.pc == Leaving && y.exit == 1 else y.pc == Running
                            case _ => y.pc == Leaving && y.exit == 0)
  {
  }

  /** Invoke's owner check decides as Verify does: it runs a command that is not blank
      exactly when Verify would succeed, and otherwise exits with the lock directory as it was. */
  lemma InvokeChecksAlone(s: State, p: nat)
    requires At(s, p, Checking) && s.procs[p].action == Invoke
    ensures var s' := Next(s, Check(p)); var x, y := s.procs[p], s'.procs[p];
            var verdict := Outcome(s.dir, Verify, x.token, x.runId, x.seconds, s.clock).1;
            && s'.dir == s.dir && |s'.procs| == |s.procs|
            && (y.pc == Running <==> verdict == 0 && !x.command.Blank?)
            && (y.pc != Running ==> y.pc == Leaving && y.exit == if verdict == 0 then 1 else EXIT_REJECTED)
  {
  }

  /** The same for what Invoke does after its command, once it has the metadata gate again. */
  lemma RefreshesAlone(s: State, p: nat) returns (cs: seq<Choice>)
    requires At(s, p, Rechecking) && s.procs[p].action == Invoke
    ensures IsRun(s, cs) && |Run(s, cs).procs| == |s.procs| && Run(s, cs).procs[p].pc == Leaving
    ensures var x := s.procs[p]; var after := Outcome(s.dir, Invoke, x.token, x.runId, x.seconds, s.clock);
            && Run(s, cs).dir == after.0
            && Run(s, cs).procs[p].exit == if after.1 == 0 then x.exit else EXIT_REJECTED
  {
    hide IsRun, Run, Next;
    cs := Rechecks(s, p);
    if Run(s, cs).procs[p].pc == Refreshing {
      cs := Turn(s, cs, Refresh(p));
    }
  }

  lemma Rechecks(s: State, p: nat) returns (cs: seq<Choice>)
    requires At(s, p, Rechecking)
    ensures IsRun(s, cs) && |Run(s, cs).procs| == |s.procs| && Run(s, cs).dir == s.dir && Run(s, cs).clock == s.clock
    ensures var x := s.procs[p];
            Run(s, cs).procs[p] ==
              if Holds(OwnerOf(s.dir), x.token, x.runId) then x.(now := s.clock, stored := OwnerOf(s.dir), pc := Refreshing)
              else x.(now := s.clock, stored := OwnerOf(s.dir), pc := Leaving, exit := EXIT_REJECTED)
  {
    hide IsRun, Run, Next;
    NoSteps(s);
    cs := Turn(s, [], Recheck(p));
  }
}
