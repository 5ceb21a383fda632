/** What the two layers of permits promise, for every run of any number of scenarios. */
module SchedulerTheorems {
  import opened Prelude
  import opened Counting
  import opened Scheduler

  // ----- permits -----------------------------------------------------------------------

  /** Permits are conserved: free ones and live guards always add up to the capacity, so
      giving one back never hits the clamp and no permit is ever discarded. */
  lemma PermitsConserved(s: State, cs: seq<Choice>, k: Key)
    requires Start(s) && IsRun(s, cs) && k in Run(s, cs).free
    ensures var f := Run(s, cs); f.free[k] + Tally(f.threads, Holder(k)) == Capacity(f, k)
    ensures forall c :: Enabled(Run(s, cs), c) && c.Drop? && k == KeyOf(Run(s, cs).threads[c.i], Run(s, cs).threads[c.i].pc.layer)
                        ==> Next(Run(s, cs), c).free[k] == Run(s, cs).free[k] + 1
  {
    StartIsInv(s);
    EveryRun(s, cs);
    var f := Run(s, cs);
    assert Balanced(f, k);
    forall c | Enabled(f, c) && c.Drop? && k == KeyOf(f.threads[c.i], f.threads[c.i].pc.layer)
      ensures Next(f, c).free[k] == f.free[k] + 1
    {
      assert Shaped(f, f.threads[c.i]);
      TallyPositive(f.threads, c.i, Holder(k));
    }
  }

  /** No lost wakeup: whenever a thread sleeps on a semaphore, at least as many threads
      are awake and about to look as there are free permits; so if every waiter sleeps,
      no permit is idle. */
  lemma NoLostWakeup(s: State, cs: seq<Choice>, k: Key, i: nat)
    requires Start(s) && IsRun(s, cs) && k in Run(s, cs).free
    requires i < |Run(s, cs).threads| && Sleeps(Run(s, cs).threads[i], k)
    ensures var f := Run(s, cs);
            && f.free[k] <= Tally(f.threads, WokenUp(k))
            && ((forall j :: 0 <= j < |f.threads| ==> !IsWoken(f.threads[j], k)) ==> f.free[k] == 0)
  {
    StartIsInv(s);
    EveryRun(s, cs);
    var f := Run(s, cs);
    assert Balanced(f, k);
    TallyPositive(f.threads, i, Sleeper(k));
    if forall j :: 0 <= j < |f.threads| ==> !IsWoken(f.threads[j], k) {
      TallyZero(f.threads, WokenUp(k));
    }
  }

  // ----- scheduling -------------------------------------------------------------------------

  function RunningCount(ts: seq<Thread>): nat {
    if ts == [] then 0 else RunningCount(ts[..|ts| - 1]) + if ts[|ts| - 1].pc.Running? then 1 else 0
  }

  lemma {:induction false} RunningHold(ts: seq<Thread>)
    ensures RunningCount(ts) <= Tally(ts, Holder(GLOBAL))
  {
    if ts != [] { RunningHold(ts[..|ts| - 1]); }
  }

  /** Never more scenarios run than there are permits. */
  lemma AtMostPermitsRun(s: State, cs: seq<Choice>)
    requires Start(s) && IsRun(s, cs)
    ensures RunningCount(Run(s, cs).threads) <= s.permits
  {
    StartIsInv(s);
    EveryRun(s, cs);
    RunningHold(Run(s, cs).threads);
    assert Balanced(Run(s, cs), GLOBAL);
  }

  /** Two running scenarios never share an exclusive group. */
  lemma GroupsExclude(s: State, cs: seq<Choice>, i: nat, j: nat)
    requires Start(s) && IsRun(s, cs) && i < j < |Run(s, cs).threads|
    requires Run(s, cs).threads[i].pc.Running? && Run(s, cs).threads[j].pc.Running?
    ensures Run(s, cs).threads[i].group.None? || Run(s, cs).threads[i].group != Run(s, cs).threads[j].group
  {
    StartIsInv(s);
    EveryRun(s, cs);
    var f := Run(s, cs);
    var g := f.threads[i].group;
    if g.Some? && f.threads[j].group == g {
      assert Shaped(f, f.threads[i]) && Balanced(f, g);
      TallyTwo(f.threads, i, j, Holder(g));
    }
  }

  // ----- which scenarios can run together -------------------------------------------------------

  predicate AllRunning(f: State, picks: seq<nat>) {
    forall a :: 0 <= a < |picks| ==> picks[a] < |f.threads| && f.threads[picks[a]].pc.Running?
  }

  predicate GroupsApart(ts: seq<Thread>, picks: seq<nat>)
    requires forall a :: 0 <= a < |picks| ==> picks[a] < |ts|
  {
    forall a, b :: 0 <= a < b < |picks| ==> ts[picks[a]].group.None? || ts[picks[a]].group != ts[picks[b]].group
  }

  lemma {:induction false} TallyAtLeast(ts: seq<Thread>, picks: seq<nat>, r: Role, idle: Thread)
    requires Distinct(picks) && !Plays(idle, r)
    requires forall a :: 0 <= a < |picks| ==> picks[a] < |ts| && Plays(ts[picks[a]], r)
    ensures Tally(ts, r) >= |picks|
    decreases |picks|
  {
    hide Tally;
    if picks != [] {
      var i := picks[|picks| - 1];
      TallyUpdate(ts, i, idle, r);
      TallyAtLeast(ts[i := idle], picks[..|picks| - 1], r, idle);
    }
  }

  lemma {:induction false} GroupsStay(s: State, cs: seq<Choice>)
    requires IsRun(s, cs)
    ensures |Run(s, cs).threads| == |s.threads|
    ensures forall i :: 0 <= i < |s.threads| ==> Run(s, cs).threads[i].group == s.threads[i].group
    decreases |cs|
  {
    if cs != [] { GroupsStay(Next(s, cs[0]), cs[1..]); }
  }

  /** What it takes to run at once: no more than the permits, no two of one group. */
  lemma TogetherMeansApart(s: State, cs: seq<Choice>, picks: seq<nat>)
    requires Start(s) && IsRun(s, cs) && Distinct(picks) && AllRunning(Run(s, cs), picks)
    requires forall a :: 0 <= a < |picks| ==> picks[a] < |s.threads|
    ensures |picks| <= s.permits && GroupsApart(s.threads, picks)
  {
    var f := Run(s, cs);
    StartIsInv(s);
    EveryRun(s, cs);
    GroupsStay(s, cs);
    assert Balanced(f, GLOBAL);
    TallyAtLeast(f.threads, picks, Holder(GLOBAL), Thread(None, Finished));
    forall a, b | 0 <= a < b < |picks|
      ensures s.threads[picks[a]].group.None? || s.threads[picks[a]].group != s.threads[picks[b]].group
    {
      if picks[a] < picks[b] { GroupsExclude(s, cs, picks[a], picks[b]); } else { GroupsExclude(s, cs, picks[b], picks[a]); }
    }
  }

  /** Exactly these scenarios run and no other has begun; their groups and as many slots are taken. */
  predicate JustThese(s: State, f: State, picks: seq<nat>) {
    && f.permits == s.permits && |f.threads| == |s.threads| && f.free.Keys == s.free.Keys
    && (forall i :: 0 <= i < |s.threads| ==>
          f.threads[i] == if i in picks then s.threads[i].(pc := Running) else s.threads[i])
    && Tally(f.threads, InPool) == |picks|
    && GLOBAL in f.free && f.free[GLOBAL] == s.permits - |picks|
    && forall k :: k in f.free && k != GLOBAL && (forall a :: 0 <= a < |picks| && picks[a] < |s.threads| ==> s.threads[picks[a]].group != k)
           ==> f.free[k] == 1
  }

  lemma {:induction false} RunThen(s: State, cs: seq<Choice>, c: Choice)
    requires IsRun(s, cs) && Enabled(Run(s, cs), c)
    ensures IsRun(s, cs + [c]) && Run(s, cs + [c]) == Next(Run(s, cs), c)
    decreases |cs|
  {
    hide Enabled, Next;
    if cs == [] {
      assert [c][1..] == [] && IsRun(Next(s, c), []);
    } else {
      RunThen(Next(s, cs[0]), cs[1..], c);
      assert (cs + [c])[0] == cs[0] && (cs + [c])[1..] == cs[1..] + [c];
    }
  }

  /** One more scenario can always be brought to run beside those that do, if there is a
      permit left and its group is not among theirs. */
  lemma OneMoreRuns(s: State, cs: seq<Choice>, picks: seq<nat>, i: nat) returns (ds: seq<Choice>)
    requires Start(s) && IsRun(s, cs) && JustThese(s, Run(s, cs), picks)
    requires i < |s.threads| && i !in picks && |picks| < s.permits
    requires forall a :: 0 <= a < |picks| ==>
               picks[a] < |s.threads| && (s.threads[i].group.None? || s.threads[picks[a]].group != s.threads[i].group)
    ensures IsRun(s, ds) && JustThese(s, Run(s, ds), picks + [i])
  {
    hide IsRun, Run, Tally;
    var f := Run(s, cs);
    var g := s.threads[i].group;
    var running := s.threads[i].(pc := Running);
    assert f.threads[i] == s.threads[i] && s.threads[i].pc.Pending?;
    TallyUpdate(f.threads, i, running, InPool);
    RunThen(s, cs, Launch(i));
    ds := cs + [Launch(i)];
    if g.Some? {
      assert f.free[g] == 1;
      RunThen(s, ds, Look(i));
      ds := ds + [Look(i)];
    }
    RunThen(s, ds, Look(i));
    ds := ds + [Look(i)];
    var h := Run(s, ds);
    assert h.threads == f.threads[i := running];
  }

  lemma {:induction false} TheseRun(s: State, picks: seq<nat>) returns (cs: seq<Choice>)
    requires Start(s) && Distinct(picks) && forall a :: 0 <= a < |picks| ==> picks[a] < |s.threads|
    requires |picks| <= s.permits && GroupsApart(s.threads, picks)
    ensures IsRun(s, cs) && JustThese(s, Run(s, cs), picks)
    decreases |picks|
  {
    hide IsRun, Run, Tally, JustThese, Start;
    if picks == [] {
      cs := NoneRun(s);
    } else {
      var n := |picks| - 1;
      var front := picks[..n];
      cs := TheseRun(s, front);
      assert picks[n] !in front && front + [picks[n]] == picks;
      cs := OneMoreRuns(s, cs, front, picks[n]);
    }
  }

  lemma NoneRun(s: State) returns (cs: seq<Choice>)
    requires Start(s)
    ensures IsRun(s, cs) && JustThese(s, Run(s, cs), [])
  {
    cs := [];
    TallyZero(s.threads, InPool);
  }

  /** Which scenarios can be running at one moment: any that are no more than the permits and
      of which no two share an exclusive group, and no others: nothing but these two limits
      keeps scenarios apart. */
  lemma RunTogetherExactly(s: State, picks: seq<nat>)
    requires Start(s) && Distinct(picks) && forall a :: 0 <= a < |picks| ==> picks[a] < |s.threads|
    ensures (exists cs :: IsRun(s, cs) && AllRunning(Run(s, cs), picks))
            <==> |picks| <= s.permits && GroupsApart(s.threads, picks)
  {
    if cs :| IsRun(s, cs) && AllRunning(Run(s, cs), picks) {
      TogetherMeansApart(s, cs, picks);
    }
    if |picks| <= s.permits && GroupsApart(s.threads, picks) {
      var cs := TheseRun(s, picks);
      assert AllRunning(Run(s, cs), picks);
    }
  }

  // ----- slots ------------------------------------------------------------------------------------

  function SlotsInUse(ts: seq<Thread>): nat {
    if ts == [] then 0
    else SlotsInUse(ts[..|ts| - 1]) + if ts[|ts| - 1].pc.Running? || ts[|ts| - 1].pc == Dropping(Global) then 1 else 0
  }

  lemma {:induction false} SlotsAreHeld(ts: seq<Thread>)
    ensures SlotsInUse(ts) == Tally(ts, Holder(GLOBAL))
  {
    if ts != [] { SlotsAreHeld(ts[..|ts| - 1]); }
  }

  /** A global slot is taken by a scenario that runs, or has just run, and by no other: who
      waits for its group takes none. */
  lemma SlotsGoToRunners(s: State, cs: seq<Choice>)
    requires Start(s) && IsRun(s, cs)
    ensures GLOBAL in Run(s, cs).free && Run(s, cs).free[GLOBAL] + SlotsInUse(Run(s, cs).threads) == s.permits
  {
    StartIsInv(s);
    EveryRun(s, cs);
    SlotsAreHeld(Run(s, cs).threads);
    assert Balanced(Run(s, cs), GLOBAL);
  }

  // ----- no deadlock ----------------------------------------------------------------------------

  /** Steps that are not a sleeper waking up by itself. */
  predicate Productive(c: Choice) { !c.WakeAnyway? }

  predicate CanMove(t: Thread) { t.pc.AtDoor? || t.pc.Woken? || t.pc.Running? || t.pc.Dropping? }

  lemma MoveOf(s: State, i: nat) returns (c: Choice)
    requires Inv(s) && i < |s.threads| && CanMove(s.threads[i])
    ensures Enabled(s, c) && Productive(c)
  {
    var t := s.threads[i];
    assert Shaped(s, t);
    match t.pc
    case AtDoor(_) => c := Look(i);
    case Woken(_) => c := Look(i);
    case Running => c := Complete(i);
    case Dropping(layer) =>
      if j :| 0 <= j < |s.threads| && Sleeps(s.threads[j], KeyOf(t, layer)) {
        c := Drop(i, Some(j));
      } else {
        c := Drop(i, None);
      }
  }

  /** Behind every sleeper there is a thread that can move: the holder of what it waits
      for, or the holder of what that one waits for. */
  lemma BehindASleeper(s: State, i: nat) returns (j: nat)
    requires Inv(s) && i < |s.threads| && s.threads[i].pc.Asleep?
    ensures j < |s.threads| && CanMove(s.threads[j])
  {
    var t := s.threads[i];
    var k := KeyOf(t, t.pc.layer);
    assert Shaped(s, t) && Balanced(s, k);
    TallyPositive(s.threads, i, Sleeper(k));
    if s.free[k] > 0 {
      j := TallyWitness(s.threads, WokenUp(k));
    } else {
      j := TallyWitness(s.threads, Holder(k));
      if s.threads[j].pc.Asleep? {
        assert k != GLOBAL && s.threads[j].pc.layer == Global;
        assert Balanced(s, GLOBAL);
        TallyPositive(s.threads, j, Sleeper(GLOBAL));
        if s.free[GLOBAL] > 0 {
          j := TallyWitness(s.threads, WokenUp(GLOBAL));
        } else {
          j := TallyWitness(s.threads, Holder(GLOBAL));
        }
      }
    }
  }

  /** While any scenario is unfinished, some thread can take a productive step. */
  lemma SomeThreadMoves(s: State, cs: seq<Choice>, i: nat) returns (c: Choice)
    requires Start(s) && IsRun(s, cs)
    requires i < |Run(s, cs).threads| && !Run(s, cs).threads[i].pc.Finished?
    ensures Enabled(Run(s, cs), c) && Productive(c)
  {
    StartIsInv(s);
    EveryRun(s, cs);
    var f := Run(s, cs);
    if j :| 0 <= j < |f.threads| && CanMove(f.threads[j]) {
      c := MoveOf(f, j);
    } else if j :| 0 <= j < |f.threads| && f.threads[j].pc.Asleep? {
      var m := BehindASleeper(f, j);
      assert false;
    } else {
      TallyZero(f.threads, InPool);
      c := Launch(i);
    }
  }

  // ----- no livelock -----------------------------------------------------------------------------

  /** How far a thread still has to go. */
  function Distance(pc: Pc): nat {
    match pc
    case Pending => 20
    case AtDoor(Group) => 17
    case Woken(Group) => 16
    case Asleep(Group) => 15
    case AtDoor(Global) => 13
    case Woken(Global) => 12
    case Asleep(Global) => 11
    case Running => 9
    case Dropping(Global) => 6
    case Dropping(Group) => 3
    case Finished => 0
  }

  function TotalDistance(ts: seq<Thread>): nat {
    if ts == [] then 0 else TotalDistance(ts[..|ts| - 1]) + Distance(ts[|ts| - 1].pc)
  }

  lemma {:induction false} DistanceUpdate(ts: seq<Thread>, i: nat, t: Thread)
    requires i < |ts|
    ensures TotalDistance(ts[i := t]) + Distance(ts[i].pc) == TotalDistance(ts) + Distance(t.pc)
    decreases |ts|
  {
    var front := ts[..|ts| - 1];
    if i < |ts| - 1 {
      DistanceUpdate(front, i, t);
      assert ts[i := t][..|ts| - 1] == front[i := t];
    } else {
      assert ts[i := t][..|ts| - 1] == front;
    }
  }

  /** Every productive step brings the whole run closer to its end, even when it wakes a
      sleeper; waking up by itself costs one. */
  lemma StepsShorten(s: State, c: Choice)
    requires Enabled(s, c)
    ensures Productive(c) ==> TotalDistance(Next(s, c).threads) < TotalDistance(s.threads)
    ensures !Productive(c) ==> TotalDistance(Next(s, c).threads) == TotalDistance(s.threads) + 1
  {
    hide TotalDistance;
    var t := s.threads[c.i];
    if c.Drop? {
      var t' := t.(pc := AfterDrop(t, t.pc.layer));
      DistanceUpdate(s.threads, c.i, t');
      if c.wake.Some? {
        var ts := s.threads[c.i := t'];
        var j := c.wake.value;
        DistanceUpdate(ts, j, ts[j].(pc := Woken(ts[j].pc.layer)));
      }
    } else {
      DistanceUpdate(s.threads, c.i, Next(s, c).threads[c.i]);
    }
  }

  function Unprompted(cs: seq<Choice>): nat {
    if cs == [] then 0 else Unprompted(cs[1..]) + if Productive(cs[0]) then 0 else 1
  }

  lemma {:induction false} RunsAreShort(s: State, cs: seq<Choice>)
    requires IsRun(s, cs)
    ensures |cs| + TotalDistance(Run(s, cs).threads) <= TotalDistance(s.threads) + 2 * Unprompted(cs)
    decreases |cs|
  {
    if cs != [] {
      StepsShorten(s, cs[0]);
      RunsAreShort(Next(s, cs[0]), cs[1..]);
    }
  }

  lemma {:induction false} PendingDistance(ts: seq<Thread>)
    requires forall i :: 0 <= i < |ts| ==> ts[i].pc.Pending?
    ensures TotalDistance(ts) == 20 * |ts|
  {
    if ts != [] { PendingDistance(ts[..|ts| - 1]); }
  }

  /** Every scenario finishes: a run is never longer than twenty steps per scenario and two
      per spontaneous wakeup, and a run that cannot be continued by a productive step has
      finished them all. */
  lemma EveryScenarioFinishes(s: State, cs: seq<Choice>)
    requires Start(s) && IsRun(s, cs)
    ensures |cs| <= 20 * |s.threads| + 2 * Unprompted(cs)
    ensures (forall c :: Enabled(Run(s, cs), c) ==> !Productive(c)) ==>
              forall i :: 0 <= i < |Run(s, cs).threads| ==> Run(s, cs).threads[i].pc.Finished?
  {
    RunsAreShort(s, cs);
    PendingDistance(s.threads);
    forall i | 0 <= i < |Run(s, cs).threads| && !Run(s, cs).threads[i].pc.Finished?
      ensures exists c :: Enabled(Run(s, cs), c) && Productive(c)
    {
      var c := SomeThreadMoves(s, cs, i);
    }
  }
}
