/**
  The runner's two layers of permits: an exclusive group first, a global slot
  second, each a counting semaphore made of a mutex and a condition variable. One
  `Choice` is one critical section of one thread; waiting on the condition
  variable releases the mutex and sleeps in one step, and a sleeper may wake
  without being notified.
  */
module Scheduler {
  import opened Prelude

  /** A semaphore: the global one, or the one of a named group. */
  type Key = Option<string>

  const GLOBAL: Key := None

  datatype Pc =
    | Pending                     // not handed to the thread pool yet
    | AtDoor(layer: Layer)        // about to lock the mutex and look for a permit
    | Asleep(layer: Layer)        // waiting on the condition variable
    | Woken(layer: Layer)         // notified, about to look again
    | Running
    | Dropping(layer: Layer)      // about to give the permit back
    | Finished

  datatype Layer = Group | Global

  /** A scenario; an empty group name counts as none. */
  datatype Thread = Thread(group: Option<string>, pc: Pc)

  datatype State = State(permits: nat, free: map<Key, nat>, threads: seq<Thread>)

  datatype Choice =
    | Launch(i: nat)
    | Look(i: nat)
    | WakeAnyway(i: nat)
    | Complete(i: nat)
    | Drop(i: nat, wake: Option<nat>)

  function KeyOf(t: Thread, layer: Layer): Key {
    if layer == Global then GLOBAL else t.group
  }

  function Capacity(s: State, k: Key): nat {
    if k == GLOBAL then s.permits else 1
  }

  predicate Sleeps(t: Thread, k: Key) { t.pc.Asleep? && KeyOf(t, t.pc.layer) == k }

  predicate IsWoken(t: Thread, k: Key) { t.pc.Woken? && KeyOf(t, t.pc.layer) == k }

  /** The permit of semaphore `k` is in the thread's hands. */
  predicate Holds(t: Thread, k: Key) {
    if k == GLOBAL then t.pc.Running? || t.pc == Dropping(Global)
    else
      t.group == k &&
      (t.pc.Running? || t.pc.Dropping?
       || t.pc == AtDoor(Global) || t.pc == Asleep(Global) || t.pc == Woken(Global))
  }

  predicate Active(t: Thread) { !t.pc.Pending? && !t.pc.Finished? }

  datatype Role = Holder(k: Key) | Sleeper(k: Key) | WokenUp(k: Key) | InPool

  predicate Plays(t: Thread, r: Role) {
    match r
    case Holder(k) => Holds(t, k)
    case Sleeper(k) => Sleeps(t, k)
    case WokenUp(k) => IsWoken(t, k)
    case InPool => Active(t)
  }

  function Tally(ts: seq<Thread>, r: Role): nat {
    if ts == [] then 0
    else Tally(ts[..|ts| - 1], r) + if Plays(ts[|ts| - 1], r) then 1 else 0
  }

  // ----- steps --------------------------------------------------------------------------

  function FirstPc(t: Thread): Pc {
    if t.group.Some? then AtDoor(Group) else AtDoor(Global)
  }

  function Inside(layer: Layer): Pc {
    if layer == Group then AtDoor(Global) else Running
  }

  function AfterDrop(t: Thread, layer: Layer): Pc {
    if layer == Global && t.group.Some? then Dropping(Group) else Finished
  }

  predicate Enabled(s: State, c: Choice) {
    c.i < |s.threads| &&
    var t := s.threads[c.i];
    match c
    case Launch(_) => t.pc.Pending? && Tally(s.threads, InPool) < s.permits
    case Look(_) => (t.pc.AtDoor? || t.pc.Woken?) && KeyOf(t, t.pc.layer) in s.free
    case WakeAnyway(_) => t.pc.Asleep?
    case Complete(_) => t.pc.Running?
    case Drop(_, wake) =>
      && t.pc.Dropping? && KeyOf(t, t.pc.layer) in s.free
      && var k := KeyOf(t, t.pc.layer);
         match wake
         case Some(j) => j < |s.threads| && Sleeps(s.threads[j], k)
         case None => forall j :: 0 <= j < |s.threads| ==> !Sleeps(s.threads[j], k)
  }

  function Put(s: State, i: nat, pc: Pc): State
    requires i < |s.threads|
  {
    s.(threads := s.threads[i := s.threads[i].(pc := pc)])
  }

  function Min(a: nat, b: nat): nat { if a <= b then a else b }

  function Next(s: State, c: Choice): State
    requires Enabled(s, c)
  {
    var t := s.threads[c.i];
    match c
    case Launch(i) => Put(s, i, FirstPc(t))
    case Look(i) =>
      var k := KeyOf(t, t.pc.layer);
      if s.free[k] == 0 then Put(s, i, Asleep(t.pc.layer))
      else Put(s, i, Inside(t.pc.layer)).(free := s.free[k := s.free[k] - 1])
    case WakeAnyway(i) => Put(s, i, Woken(t.pc.layer))
    case Complete(i) => Put(s, i, Dropping(Global))
    case Drop(i, wake) =>
      var k := KeyOf(t, t.pc.layer);
      var s1 := Put(s, i, AfterDrop(t, t.pc.layer)).(free := s.free[k := Min(s.free[k] + 1, Capacity(s, k))]);
      match wake
      case Some(j) => Put(s1, j, Woken(s1.threads[j].pc.layer))
      case None => s1
  }

  predicate IsRun(s: State, cs: seq<Choice>)
    decreases |cs|
  {
    cs == [] || (Enabled(s, cs[0]) && IsRun(Next(s, cs[0]), cs[1..]))
  }

  function Run(s: State, cs: seq<Choice>): State
    requires IsRun(s, cs)
    decreases |cs|
  {
    if cs == [] then s else Run(Next(s, cs[0]), cs[1..])
  }

  /** Every scenario pending, every permit free, a semaphore for every group named. */
  predicate Start(s: State) {
    && s.permits >= 1
    && GLOBAL in s.free && (forall k :: k in s.free ==> s.free[k] == Capacity(s, k))
    && forall i :: 0 <= i < |s.threads| ==>
         s.threads[i].pc.Pending? && (s.threads[i].group.Some? ==> s.threads[i].group in s.free)
  }

  // ----- counting ---------------------------------------------------------------------------

  function One(b: bool): nat { if b then 1 else 0 }

  lemma {:induction false} TallyUpdate(ts: seq<Thread>, i: nat, t: Thread, r: Role)
    requires i < |ts|
    ensures Tally(ts[i := t], r) + One(Plays(ts[i], r)) == Tally(ts, r) + One(Plays(t, r))
    decreases |ts|
  {
    var front := ts[..|ts| - 1];
    if i < |ts| - 1 {
      TallyUpdate(front, i, t, r);
      assert ts[i := t][..|ts| - 1] == front[i := t];
    } else {
      assert ts[i := t][..|ts| - 1] == front;
    }
  }

  lemma {:induction false} TallyPositive(ts: seq<Thread>, i: nat, r: Role)
    requires i < |ts| && Plays(ts[i], r)
    ensures Tally(ts, r) >= 1
    decreases |ts|
  {
    if i < |ts| - 1 { TallyPositive(ts[..|ts| - 1], i, r); }
  }

  lemma {:induction false} TallyTwo(ts: seq<Thread>, i: nat, j: nat, r: Role)
    requires i < j < |ts| && Plays(ts[i], r) && Plays(ts[j], r)
    ensures Tally(ts, r) >= 2
    decreases |ts|
  {
    if j < |ts| - 1 { TallyTwo(ts[..|ts| - 1], i, j, r); } else { TallyPositive(ts[..j], i, r); }
  }

  lemma {:induction false} TallyZero(ts: seq<Thread>, r: Role)
    requires forall i :: 0 <= i < |ts| ==> !Plays(ts[i], r)
    ensures Tally(ts, r) == 0
  {
    if ts != [] { TallyZero(ts[..|ts| - 1], r); }
  }

  lemma {:induction false} TallyWitness(ts: seq<Thread>, r: Role) returns (i: nat)
    requires Tally(ts, r) > 0
    ensures i < |ts| && Plays(ts[i], r)
    decreases |ts|
  {
    if Plays(ts[|ts| - 1], r) { i := |ts| - 1; } else { i := TallyWitness(ts[..|ts| - 1], r); }
  }

  // ----- the invariant --------------------------------------------------------------------------

  /** A thread never stands at a group door without a group. */
  predicate Shaped(s: State, t: Thread) {
    && (t.group.Some? ==> t.group in s.free)
    && (t.group.None? ==> t.pc != AtDoor(Group) && t.pc != Asleep(Group) && t.pc != Woken(Group) && t.pc != Dropping(Group))
  }

  predicate Balanced(s: State, k: Key) {
    k in s.free ==>
      && s.free[k] + Tally(s.threads, Holder(k)) == Capacity(s, k)
      && (Tally(s.threads, Sleeper(k)) > 0 ==> s.free[k] <= Tally(s.threads, WokenUp(k)))
  }

  ghost predicate Inv(s: State) {
    && s.permits >= 1 && GLOBAL in s.free
    && (forall i :: 0 <= i < |s.threads| ==> Shaped(s, s.threads[i]))
    && (forall k :: Balanced(s, k))
    && Tally(s.threads, InPool) <= s.permits
  }

  lemma StartIsInv(s: State)
    requires Start(s)
    ensures Inv(s)
  {
    forall k ensures Balanced(s, k) {
      TallyZero(s.threads, Holder(k));
      TallyZero(s.threads, Sleeper(k));
    }
    TallyZero(s.threads, InPool);
  }

  /** What one thread's move does to the three tallies of a semaphore. */
  lemma Moves(ts: seq<Thread>, i: nat, t: Thread, k: Key)
    requires i < |ts|
    ensures Tally(ts[i := t], Holder(k)) + One(Holds(ts[i], k)) == Tally(ts, Holder(k)) + One(Holds(t, k))
    ensures Tally(ts[i := t], Sleeper(k)) + One(Sleeps(ts[i], k)) == Tally(ts, Sleeper(k)) + One(Sleeps(t, k))
    ensures Tally(ts[i := t], WokenUp(k)) + One(IsWoken(ts[i], k)) == Tally(ts, WokenUp(k)) + One(IsWoken(t, k))
  {
    TallyUpdate(ts, i, t, Holder(k));
    TallyUpdate(ts, i, t, Sleeper(k));
    TallyUpdate(ts, i, t, WokenUp(k));
  }

  lemma MoveKeepsBalance(s: State, c: Choice, k: Key)
    requires Inv(s) && Enabled(s, c) && !c.Drop?
    ensures Balanced(Next(s, c), k)
  {
    hide Tally;
    assert Balanced(s, k);
    assert Shaped(s, s.threads[c.i]);
    Moves(s.threads, c.i, Next(s, c).threads[c.i], k);
  }

  lemma DropKeepsBalance(s: State, c: Choice, k: Key)
    requires Inv(s) && Enabled(s, c) && c.Drop?
    ensures Balanced(Next(s, c), k)
  {
    hide Tally;
    var t := s.threads[c.i];
    var d := KeyOf(t, t.pc.layer);
    assert Balanced(s, k) && Balanced(s, d);
    assert Shaped(s, t);
    var t' := t.(pc := AfterDrop(t, t.pc.layer));
    Moves(s.threads, c.i, t', k);
    var ts := s.threads[c.i := t'];
    TallyPositive(s.threads, c.i, Holder(d));
    if c.wake.Some? {
      var j := c.wake.value;
      assert ts[j] == s.threads[j];
      Moves(ts, j, ts[j].(pc := Woken(ts[j].pc.layer)), k);
    } else if k == d {
      TallyZero(s.threads, Sleeper(k));
    }
  }

  lemma StepKeeps(s: State, c: Choice)
    requires Inv(s) && Enabled(s, c)
    ensures Inv(Next(s, c))
  {
    var s' := Next(s, c);
    forall k ensures Balanced(s', k) {
      if c.Drop? { DropKeepsBalance(s, c, k); } else { MoveKeepsBalance(s, c, k); }
    }
    PoolKept(s, c);
  }

  lemma PoolKept(s: State, c: Choice)
    requires Inv(s) && Enabled(s, c)
    ensures Tally(Next(s, c).threads, InPool) <= s.permits
  {
    hide Tally;
    var t := s.threads[c.i];
    if c.Drop? {
      var t' := t.(pc := AfterDrop(t, t.pc.layer));
      TallyUpdate(s.threads, c.i, t', InPool);
      if c.wake.Some? {
        var ts := s.threads[c.i := t'];
        var j := c.wake.value;
        TallyUpdate(ts, j, ts[j].(pc := Woken(ts[j].pc.layer)), InPool);
      }
    } else {
      TallyUpdate(s.threads, c.i, Next(s, c).threads[c.i], InPool);
    }
  }

  lemma {:induction false} EveryRun(s: State, cs: seq<Choice>)
    requires Inv(s) && IsRun(s, cs)
    ensures Inv(Run(s, cs)) && |Run(s, cs).threads| == |s.threads| && Run(s, cs).permits == s.permits
    decreases |cs|
  {
    if cs != [] {
      StepKeeps(s, cs[0]);
      EveryRun(Next(s, cs[0]), cs[1..]);
    }
  }
}
