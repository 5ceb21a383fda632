/**
  The runner's semaphore and group table as objects. A method is one stretch of
  code under the semaphore's mutex; the machine of module Scheduler takes exactly
  these stretches as its steps.
  */
module Semaphore {
  import opened Prelude
  import opened Scheduler

  /** A semaphore by what it holds: permits, and who waits on its condition variable. A
      woken thread has been notified, or woke by itself, and has not looked yet. */
  datatype Permits = Permits(available: nat, capacity: nat, sleepers: set<nat>, woken: set<nat>)

  /** One turn of the loop in acquire, under the mutex: with no permit the thread goes to
      sleep, which gives the mutex up; otherwise it takes one. */
  function AfterTurn(p: Permits, i: nat): (Permits, bool) {
    if p.available == 0 then (p.(sleepers := p.sleepers + {i}, woken := p.woken - {i}), false)
    else (p.(available := p.available - 1, woken := p.woken - {i}), true)
  }

  /** The notification goes to a sleeper if there is one. */
  predicate MayWake(p: Permits, wake: Option<nat>) {
    match wake
    case Some(j) => j in p.sleepers
    case None => p.sleepers == {}
  }

  function AfterRelease(p: Permits, wake: Option<nat>): Permits {
    var q := p.(available := Min(p.available + 1, p.capacity));
    match wake
    case Some(j) => q.(sleepers := q.sleepers - {j}, woken := q.woken + {j})
    case None => q
  }

  class CountingSemaphore {
    var available: nat
    var capacity: nat
    var sleepers: set<nat>
    var woken: set<nat>

    ghost function View(): Permits
      reads this
    {
      Permits(available, capacity, sleepers, woken)
    }

    constructor (permits: nat)
      ensures View() == Permits(permits, permits, {}, {})
    {
      available, capacity, sleepers, woken := permits, permits, {}, {};
    }

    method Turn(i: nat) returns (acquired: bool)
      modifies this
      ensures (View(), acquired) == AfterTurn(old(View()), i)
      ensures acquired == (old(available) > 0) && capacity == old(capacity) && woken == old(woken) - {i}
      ensures available == old(available) - (if acquired then 1 else 0)
      ensures sleepers == old(sleepers) + if acquired then {} else {i}
    {
      woken := woken - {i};
      if available == 0 {
        sleepers := sleepers + {i};
        return false;
      }
      available := available - 1;
      acquired := true;
    }

    /** Dropping a guard: one permit back, never beyond the capacity, and one sleeper notified. */
    method Release() returns (wake: Option<nat>)
      modifies this
      ensures MayWake(old(View()), wake) && View() == AfterRelease(old(View()), wake)
      ensures old(available) < capacity ==> available == old(available) + 1
      ensures old(available) >= capacity ==> available == capacity
      ensures capacity == old(capacity)
      ensures if old(sleepers) == {} then wake == None && sleepers == {} && woken == old(woken)
              else wake.Some? && wake.value in old(sleepers)
                   && sleepers == old(sleepers) - {wake.value} && woken == old(woken) + {wake.value}
    {
      available := if available + 1 <= capacity then available + 1 else capacity;
      if sleepers == {} { return None; }
      var j :| j in sleepers;
      sleepers, woken := sleepers - {j}, woken + {j};
      wake := Some(j);
    }
  }

  /** The machine's semaphore `k` by what it holds. */
  function PermitsOf(s: State, k: Key): Permits
    requires k in s.free
  {
    Permits(s.free[k], Capacity(s, k),
            set i: nat | i < |s.threads| && Sleeps(s.threads[i], k),
            set i: nat | i < |s.threads| && IsWoken(s.threads[i], k))
  }

  /** The machine's step Look is the object's Turn. */
  lemma LookIsTurn(s: State, i: nat)
    requires Enabled(s, Look(i))
    ensures var t := s.threads[i]; var k := KeyOf(t, t.pc.layer); var s' := Next(s, Look(i));
            && k in s'.free && |s'.threads| == |s.threads|
            && (PermitsOf(s', k), s'.threads[i].pc == Inside(t.pc.layer)) == AfterTurn(PermitsOf(s, k), i)
  {
    var t := s.threads[i];
    var k := KeyOf(t, t.pc.layer);
    var s' := Next(s, Look(i));
    hide Enabled;
    assert s'.threads == s.threads[i := s'.threads[i]];
    var p, p' := PermitsOf(s, k), PermitsOf(s', k);
    assert p'.woken == p.woken - {i};
    assert p'.sleepers == if p.available == 0 then p.sleepers + {i} else p.sleepers;
  }

  /** The machine's step Drop is the object's Release, with the same sleepers to choose from. */
  lemma DropIsRelease(s: State, c: Choice)
    requires Enabled(s, c) && c.Drop?
    ensures var t := s.threads[c.i]; var k := KeyOf(t, t.pc.layer); var s' := Next(s, c);
            && k in s'.free && MayWake(PermitsOf(s, k), c.wake)
            && PermitsOf(s', k) == AfterRelease(PermitsOf(s, k), c.wake)
  {
    var t := s.threads[c.i];
    var k := KeyOf(t, t.pc.layer);
    var s' := Next(s, c);
    if c.wake.Some? {
      var j := c.wake.value;
      assert s'.threads == s.threads[c.i := s'.threads[c.i]][j := s'.threads[j]];
    } else {
      assert s'.threads == s.threads[c.i := s'.threads[c.i]];
    }
  }

  /** The group a scenario names; the empty name is no group. */
  function Named(group: Option<string>): Option<string> {
    if group == Some("") then None else group
  }

  function Count(groups: seq<Option<string>>, name: string): nat {
    if groups == [] then 0
    else Count(groups[..|groups| - 1], name) + if Named(groups[|groups| - 1]) == Some(name) then 1 else 0
  }

  lemma NoTallies(groups: seq<Option<string>>)
    ensures Tallies(groups[..0]) == map[]
  {
  }

  lemma {:induction false} CountedAreNamed(groups: seq<Option<string>>, name: string)
    ensures Count(groups, name) > 0 <==> name != "" && Some(name) in groups
  {
    if groups != [] {
      CountedAreNamed(groups[..|groups| - 1], name);
      assert groups == groups[..|groups| - 1] + [groups[|groups| - 1]];
    }
  }

  /** The scenarios that name a group. */
  function Members(groups: seq<Option<string>>, name: string): set<nat> {
    set i: nat | i < |groups| && groups[i] == Some(name)
  }

  lemma {:induction false} CountIs(groups: seq<Option<string>>, name: string)
    ensures Count(groups, name) == if name == "" then 0 else |Members(groups, name)|
  {
    if groups != [] {
      var last := |groups| - 1;
      CountIs(groups[..last], name);
      assert Members(groups, name) == Members(groups[..last], name) + if groups[last] == Some(name) then {last} else {};
    }
  }

  /** One scenario more. */
  function Noted(counts: map<string, nat>, group: Option<string>): map<string, nat> {
    if Named(group).None? then counts
    else
      var name := Named(group).value;
      counts[name := (if name in counts then counts[name] else 0) + 1]
  }

  function Tallies(groups: seq<Option<string>>): map<string, nat> {
    if groups == [] then map[] else Noted(Tallies(groups[..|groups| - 1]), groups[|groups| - 1])
  }

  lemma {:induction false} TalliesCount(groups: seq<Option<string>>, name: string)
    ensures name in Tallies(groups) <==> Count(groups, name) > 0
    ensures name in Tallies(groups) ==> Tallies(groups)[name] == Count(groups, name)
  {
    if groups != [] { TalliesCount(groups[..|groups| - 1], name); }
  }

  lemma TallyStep(groups: seq<Option<string>>, i: nat)
    requires i < |groups|
    ensures Tallies(groups[..i + 1]) == Noted(Tallies(groups[..i]), groups[i])
  {
    assert groups[..i + 1][..i] == groups[..i];
  }

  /** One single-permit semaphore per named group, shared by all its scenarios. */
  class ExclusiveGroups {
    var semaphores: map<string, CountingSemaphore>
    var scenarioCounts: map<string, nat>

    /** Every group has a semaphore of its own, with one permit and nobody waiting. */
    ghost predicate OwnSemaphores()
      reads this, semaphores.Values
    {
      && (forall name :: name in semaphores ==> semaphores[name].View() == Permits(1, 1, {}, {}))
      && (forall a, b :: a in semaphores && b in semaphores && a != b ==> semaphores[a] != semaphores[b])
    }

    constructor (groups: seq<Option<string>>)
      ensures forall name :: name in semaphores <==> Count(groups, name) > 0
      ensures scenarioCounts.Keys == semaphores.Keys
      ensures forall name :: name in scenarioCounts ==> scenarioCounts[name] == Count(groups, name)
      ensures forall name :: name in semaphores ==> fresh(semaphores[name]) && semaphores[name].View() == Permits(1, 1, {}, {})
      ensures forall a, b :: a in semaphores && b in semaphores && a != b ==> semaphores[a] != semaphores[b]
      ensures forall name :: name in semaphores <==> name != "" && Some(name) in groups
      ensures forall name :: name in scenarioCounts ==> scenarioCounts[name] == |Members(groups, name)|
    {
      semaphores, scenarioCounts := map[], map[];
      new;
      hide Tallies;
      var i := 0;
      NoTallies(groups);
      while i < |groups|
        invariant i <= |groups| && scenarioCounts.Keys == semaphores.Keys && scenarioCounts == Tallies(groups[..i])
        invariant OwnSemaphores() && forall name :: name in semaphores ==> fresh(semaphores[name])
      {
        TallyStep(groups, i);
        if groups[i].Some? && groups[i].value != "" { Note(groups[i].value); }
        i := i + 1;
      }
      assert groups[..i] == groups;
      forall name ensures name in scenarioCounts <==> Count(groups, name) > 0
                  ensures name in scenarioCounts ==> scenarioCounts[name] == Count(groups, name)
                  ensures Count(groups, name) == if name == "" then 0 else |Members(groups, name)|
                  ensures Count(groups, name) > 0 <==> name != "" && Some(name) in groups {
        TalliesCount(groups, name);
        CountIs(groups, name);
        CountedAreNamed(groups, name);
      }
    }

    /** One more scenario of a group; its first brings the semaphore. */
    method Note(name: string)
      requires OwnSemaphores()
      modifies this`semaphores, this`scenarioCounts
      ensures OwnSemaphores()
      ensures name != "" ==> scenarioCounts == Noted(old(scenarioCounts), Some(name))
      ensures semaphores.Keys == old(semaphores).Keys + {name}
      ensures forall n :: n in old(semaphores) ==> semaphores[n] == old(semaphores)[n]
      ensures name !in old(semaphores) ==> fresh(semaphores[name])
    {
      if name !in semaphores {
        var sem := new CountingSemaphore(1);
        semaphores := semaphores[name := sem];
      }
      scenarioCounts := scenarioCounts[name := (if name in scenarioCounts then scenarioCounts[name] else 0) + 1];
    }

    /** A scenario's own semaphore, if it names a group. */
    method SemaphoreFor(group: Option<string>) returns (r: Option<CountingSemaphore>)
      ensures r.Some? <==> group.Some? && group.value in semaphores
      ensures r.Some? ==> r.value == semaphores[group.value]
    {
      r := if group.Some? && group.value in semaphores then Some(semaphores[group.value]) else None;
    }
  }

  function Keys(groups: seq<Option<string>>): set<Key> {
    if groups == [] then {GLOBAL} else Keys(groups[..|groups| - 1]) + {Named(groups[|groups| - 1])}
  }

  /** The machine's first state, as the runner builds it from the scenarios it will run. */
  function FirstState(permits: nat, groups: seq<Option<string>>): State {
    State(permits,
          map k | k in Keys(groups) :: if k == GLOBAL then permits else 1,
          seq(|groups|, i requires 0 <= i < |groups| => Thread(Named(groups[i]), Pending)))
  }

  lemma {:induction false} KeysAreGroups(groups: seq<Option<string>>)
    ensures GLOBAL in Keys(groups)
    ensures forall i :: 0 <= i < |groups| ==> Named(groups[i]) in Keys(groups)
    ensures forall name :: Some(name) in Keys(groups) <==> Count(groups, name) > 0
  {
    if groups != [] { KeysAreGroups(groups[..|groups| - 1]); }
  }

  /** What the runner builds is a start of the machine, and its group semaphores are
      exactly those of the group table. */
  lemma RunnerStarts(permits: nat, groups: seq<Option<string>>)
    requires permits >= 1
    ensures Start(FirstState(permits, groups))
    ensures forall name :: Some(name) in FirstState(permits, groups).free <==> name != "" && Some(name) in groups
    ensures FirstState(permits, groups).permits == permits && |FirstState(permits, groups).threads| == |groups|
    ensures forall i :: 0 <= i < |groups| ==>
              FirstState(permits, groups).threads[i].group == if groups[i] == Some("") then None else groups[i]
  {
    KeysAreGroups(groups);
    forall name ensures Count(groups, name) > 0 <==> name != "" && Some(name) in groups { CountedAreNamed(groups, name); }
  }
}
