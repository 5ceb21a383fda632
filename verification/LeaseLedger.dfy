/**
  The lease on one VM workdir, seen from outside: the sequence of things that
  happened to it. A ledger is what a reader of that sequence knows, `Allowed`
  says which event may come next, and the theorems below are about every legal
  history, however long and whoever produced it.
  */
module LeaseLedger {
  import opened Prelude
  import opened Paths

  type RunId = string

  type Data = string

  /** Instants are counted in the 100 ns ticks of a .NET timestamp. */
  type Instant = int

  const TICKS_PER_SECOND: int := 10_000_000

  /** The owner record, reduced to the fields the protocol reads. */
  datatype Lease = Lease(token: Token, runId: RunId, stamp: Instant, seconds: int)

  datatype Action = Acquire | Renew | Verify | Invoke | Release

  /** What a guarded command did to the VM outside the lock directory: one file's new
      contents, or its removal. */
  datatype Change = Change(at: seq<string>, data: Option<Data>)

  datatype Removal = ByRelease | ByReclaim

  datatype Event =
    | Acquired(lease: Lease)
    | Stamped(token: Token, runId: RunId, at: Instant)
    | Admitted(action: Action, token: Token, runId: RunId, at: Instant)
    | FoundExpired(action: Action, token: Token, runId: RunId, at: Instant)
    | Removed(token: Token, runId: RunId, at: Instant, how: Removal)
    | Mutated(token: Token, runId: RunId, change: Change)

  /** The live owner, every token that ever owned the lock, and the last instant seen. */
  datatype Ledger = Ledger(lease: Option<Lease>, spent: set<Token>, lastAt: Instant)

  predicate Expired(l: Lease, now: Instant) {
    now - l.stamp > l.seconds * TICKS_PER_SECOND
  }

  predicate Holds(owner: Option<Lease>, token: Token, runId: RunId) {
    owner.Some? && owner.value.token == token && owner.value.runId == runId
  }

  function TokenOf(e: Event): Token {
    match e
    case Acquired(l) => l.token
    case Stamped(t, _, _) => t
    case Admitted(_, t, _, _) => t
    case FoundExpired(_, t, _, _) => t
    case Removed(t, _, _, _) => t
    case Mutated(t, _, _) => t
  }

  /** The instant an event carries; a mutation carries none. */
  function InstantOf(e: Event, default: Instant): Instant {
    match e
    case Acquired(l) => l.stamp
    case Stamped(_, _, at) => at
    case Admitted(_, _, _, at) => at
    case FoundExpired(_, _, _, at) => at
    case Removed(_, _, at, _) => at
    case Mutated(_, _, _) => default
  }

  predicate Allowed(k: Ledger, e: Event) {
    && k.lastAt <= InstantOf(e, k.lastAt)
    && match e
       case Acquired(l) => k.lease.None? && l.token !in k.spent
       case Stamped(t, r, _) => Holds(k.lease, t, r)
       case Admitted(a, t, r, at) => a != Acquire && Holds(k.lease, t, r) && !Expired(k.lease.value, at)
       case FoundExpired(_, t, r, at) => Holds(k.lease, t, r) && Expired(k.lease.value, at)
       case Removed(t, r, at, how) => Holds(k.lease, t, r) && (how.ByReclaim? ==> Expired(k.lease.value, at))
       case Mutated(t, r, _) => Holds(k.lease, t, r)
  }

  function After(k: Ledger, e: Event): Ledger {
    var at := InstantOf(e, k.lastAt);
    match e
    case Acquired(l) => Ledger(Some(l), k.spent + {l.token}, at)
    case Stamped(_, _, _) =>
      if k.lease.Some? then Ledger(Some(k.lease.value.(stamp := at)), k.spent, at) else k
    case Removed(_, _, _, _) => Ledger(None, k.spent, at)
    case _ => k.(lastAt := at)
  }

  function Replay(k: Ledger, log: seq<Event>): Ledger {
    if log == [] then k else After(Replay(k, log[..|log| - 1]), log[|log| - 1])
  }

  predicate Legal(k: Ledger, log: seq<Event>) {
    log == [] ||
    (Legal(k, log[..|log| - 1]) && Allowed(Replay(k, log[..|log| - 1]), log[|log| - 1]))
  }

  /** A ledger that could describe a lock directory found on disk. */
  predicate Sound(k: Ledger) {
    k.lease.Some? ==> k.lease.value.token in k.spent && k.lease.value.stamp <= k.lastAt
  }

  lemma Extend(k: Ledger, log: seq<Event>, e: Event)
    requires Legal(k, log) && Allowed(Replay(k, log), e)
    ensures Legal(k, log + [e]) && Replay(k, log + [e]) == After(Replay(k, log), e)
  {
    assert (log + [e])[..|log|] == log;
  }

  /** Every event of a legal log was allowed by what came before it. */
  lemma {:induction false} LegalAt(k: Ledger, log: seq<Event>, i: nat)
    requires Legal(k, log) && i < |log|
    ensures Legal(k, log[..i]) && Allowed(Replay(k, log[..i]), log[i])
    ensures Replay(k, log[..i + 1]) == After(Replay(k, log[..i]), log[i])
  {
    assert log[..i + 1][..i] == log[..i];
    if i == |log| - 1 {
      assert log[..i + 1] == log;
    } else {
      var front := log[..|log| - 1];
      LegalAt(k, front, i);
      assert front[..i] == log[..i] && front[..i + 1] == log[..i + 1];
    }
  }

  lemma {:induction false} StaysSound(k: Ledger, log: seq<Event>)
    requires Sound(k) && Legal(k, log)
    ensures Sound(Replay(k, log))
    ensures k.spent <= Replay(k, log).spent
    ensures k.lastAt <= Replay(k, log).lastAt
  {
    if log != [] {
      StaysSound(k, log[..|log| - 1]);
    }
  }

  /** From `i` to `j`: tokens are only ever spent, and instants only advance. */
  lemma {:induction false} Onward(k: Ledger, log: seq<Event>, i: nat, j: nat)
    requires Sound(k) && Legal(k, log) && i <= j <= |log|
    ensures Legal(k, log[..i]) && Legal(k, log[..j])
    ensures Sound(Replay(k, log[..i])) && Sound(Replay(k, log[..j]))
    ensures Replay(k, log[..i]).spent <= Replay(k, log[..j]).spent
    ensures Replay(k, log[..i]).lastAt <= Replay(k, log[..j]).lastAt
    decreases j - i
  {
    if i == j {
      if j < |log| { LegalAt(k, log, j); } else { assert log[..j] == log; }
      StaysSound(k, log[..j]);
    } else {
      Onward(k, log, i, j - 1);
      LegalAt(k, log, j - 1);
      if j < |log| { LegalAt(k, log, j); } else { assert log[..j] == log; }
      StaysSound(k, log[..j]);
    }
  }

  // ----- fencing -------------------------------------------------------------

  predicate Owned(k: Ledger, t: Token) { k.lease.Some? && k.lease.value.token == t }

  lemma {:induction false} GoneForGood(k: Ledger, log: seq<Event>, i: nat, j: nat, t: Token)
    requires Sound(k) && Legal(k, log) && i <= j <= |log|
    requires t in Replay(k, log[..i]).spent && !Owned(Replay(k, log[..i]), t)
    ensures t in Replay(k, log[..j]).spent && !Owned(Replay(k, log[..j]), t)
    decreases j - i
  {
    if i < j {
      GoneForGood(k, log, i, j - 1, t);
      LegalAt(k, log, j - 1);
    }
  }

  /** Once a token has lost the lock, by release or by reclamation, no later event
      is its own: it is not admitted again, not restamped, not reacquired, and it
      changes nothing on the VM. */
  lemma Fencing(k: Ledger, log: seq<Event>, i: nat, j: nat)
    requires Sound(k) && Legal(k, log) && i < j < |log|
    requires log[i].Removed?
    ensures TokenOf(log[j]) != log[i].token
  {
    LegalAt(k, log, i);
    Onward(k, log, i, i + 1);
    LegalAt(k, log, j);
    GoneForGood(k, log, i + 1, j, log[i].token);
  }

  // ----- at most one live owner ------------------------------------------------

  /** Times at which token `t` was stamped, its acquisition first. */
  function Stamps(log: seq<Event>, t: Token): seq<Instant> {
    if log == [] then []
    else
      var e := log[|log| - 1];
      Stamps(log[..|log| - 1], t) +
      match e
      case Acquired(l) => if l.token == t then [l.stamp] else []
      case Stamped(u, _, at) => if u == t then [at] else []
      case _ => []
  }

  /** While a token owns the lock it keeps its lease length, and its stamp is never
      older than the acquisition. */
  lemma {:induction false} OwnerKeepsLease(k: Ledger, log: seq<Event>, i: nat, j: nat)
    requires Sound(k) && Legal(k, log) && i < j <= |log|
    requires log[i].Acquired?
    requires forall n :: i < n < j ==> !(log[n].Removed? && log[n].token == log[i].lease.token)
    ensures var l := Replay(k, log[..j]).lease;
            l.Some? && l.value.token == log[i].lease.token && l.value.runId == log[i].lease.runId
            && l.value.seconds == log[i].lease.seconds && log[i].lease.stamp <= l.value.stamp
    decreases j - i
  {
    hide Legal, Sound;
    LegalAt(k, log, j - 1);
    if i + 1 < j {
      OwnerKeepsLease(k, log, i, j - 1);
      Onward(k, log, i, j - 1);
    }
  }

  /** Two acquisitions never overlap: the first owner was removed in between, and
      unless it released the lock itself, the second came strictly after the first
      lease had run out. So of any set of competing acquisitions inside one lease
      length at most one succeeds. */
  lemma OneLiveOwner(k: Ledger, log: seq<Event>, i: nat, j: nat) returns (n: nat)
    requires Sound(k) && Legal(k, log) && i < j < |log|
    requires log[i].Acquired? && log[j].Acquired?
    ensures i < n < j && log[n].Removed? && log[n].token == log[i].lease.token
    ensures log[n].how.ByReclaim? ==> Expired(log[i].lease, log[j].lease.stamp)
    ensures log[j].lease.token != log[i].lease.token
  {
    LegalAt(k, log, j);
    var t := log[i].lease.token;
    if forall m :: i < m < j ==> !(log[m].Removed? && log[m].token == t) {
      OwnerKeepsLease(k, log, i, j);
      assert false;
    }
    n := FirstRemoval(log, i, j, t);
    OwnerKeepsLease(k, log, i, n);
    LegalAt(k, log, n);
    Onward(k, log, n + 1, j);
    LegalAt(k, log, i);
    Onward(k, log, i + 1, j);
  }

  lemma FirstRemoval(log: seq<Event>, i: nat, j: nat, t: Token) returns (n: nat)
    requires i < j <= |log|
    requires exists m :: i < m < j && log[m].Removed? && log[m].token == t
    ensures i < n < j && log[n].Removed? && log[n].token == t
    ensures forall m :: i < m < n ==> !(log[m].Removed? && log[m].token == t)
  {
    n := i + 1;
    while !(log[n].Removed? && log[n].token == t)
      invariant i < n < j
      invariant forall m :: i < m < n ==> !(log[m].Removed? && log[m].token == t)
      invariant exists m :: n <= m < j && log[m].Removed? && log[m].token == t
      decreases j - n
    {
      n := n + 1;
    }
  }

  // ----- heartbeats ------------------------------------------------------------

  /** No two successive stamps are further apart than `gap`. */
  predicate Steady(stamps: seq<Instant>, gap: Instant) {
    forall n :: 0 < n < |stamps| ==> stamps[n] - stamps[n - 1] <= gap
  }

  lemma {:induction false} StampsGrow(log: seq<Event>, i: nat, j: nat, t: Token)
    requires i <= j <= |log|
    ensures Stamps(log[..i], t) <= Stamps(log[..j], t)
    decreases j - i
  {
    if i < j {
      StampsGrow(log, i, j - 1, t);
      assert log[..j][..j - 1] == log[..j - 1];
    }
  }

  lemma {:induction false} LastStampIsTheLease(k: Ledger, log: seq<Event>, t: Token)
    requires Sound(k) && Legal(k, log) && t !in k.spent
    ensures Owned(Replay(k, log), t) ==>
              |Stamps(log, t)| > 0 && Stamps(log, t)[|Stamps(log, t)| - 1] == Replay(k, log).lease.value.stamp
  {
    if log != [] {
      LastStampIsTheLease(k, log[..|log| - 1], t);
    }
  }

  /** A renewal between `i` and `j` whose stamp is the one right after those before `i`. */
  lemma NextStamp(k: Ledger, log: seq<Event>, i: nat, j: nat, t: Token) returns (n: nat)
    requires Sound(k) && Legal(k, log) && i <= j < |log|
    requires log[j].Stamped? && log[j].token == t
    requires t in Replay(k, log[..i]).spent
    ensures i <= n <= j && log[n].Stamped? && log[n].token == t
    ensures Stamps(log[..n], t) == Stamps(log[..i], t)
  {
    n := i;
    while !(log[n].Stamped? && log[n].token == t)
      invariant i <= n <= j
      invariant Stamps(log[..n], t) == Stamps(log[..i], t)
      decreases j - n
    {
      NoStampHere(k, log, i, n, t);
      n := n + 1;
    }
  }

  lemma NoStampHere(k: Ledger, log: seq<Event>, i: nat, n: nat, t: Token)
    requires Sound(k) && Legal(k, log) && i <= n < |log| && t in Replay(k, log[..i]).spent
    requires !(log[n].Stamped? && log[n].token == t)
    ensures Stamps(log[..n + 1], t) == Stamps(log[..n], t)
  {
    hide Legal, Replay, After;
    LegalAt(k, log, n);
    Onward(k, log, i, n);
    assert log[..n + 1][..n] == log[..n];
  }

  lemma StampAt(k: Ledger, log: seq<Event>, n: nat)
    requires Sound(k) && Legal(k, log) && n < |log| && log[n].Stamped?
    ensures Replay(k, log[..n]).lastAt <= log[n].at
    ensures Stamps(log[..n + 1], log[n].token) == Stamps(log[..n], log[n].token) + [log[n].at]
  {
    hide Legal, Replay, After;
    LegalAt(k, log, n);
    assert log[..n + 1][..n] == log[..n];
  }

  /** An owner that is stamped again later: the lease found at `i` and the next
      stamp are neighbours among its stamps, and the next one is not before `i`. */
  lemma StampsAround(k: Ledger, log: seq<Event>, i: nat, j: nat, t: Token) returns (m: nat)
    requires Sound(k) && Legal(k, log) && i < j < |log| && t !in k.spent
    requires Owned(Replay(k, log[..i]), t)
    requires log[j].Stamped? && log[j].token == t
    ensures 0 < m < |Stamps(log, t)|
    ensures Stamps(log, t)[m - 1] == Replay(k, log[..i]).lease.value.stamp
    ensures Replay(k, log[..i]).lastAt <= Stamps(log, t)[m]
    ensures !log[i].Stamped? || log[i].token != t ==> Replay(k, log[..i + 1]).lastAt <= Stamps(log, t)[m]
  {
    hide Legal, Allowed, After, Replay, Stamps;
    LegalAt(k, log, i);
    StaysSound(k, log[..i]);
    LastStampIsTheLease(k, log[..i], t);
    var n := NextStamp(k, log, i, j, t);
    StampAt(k, log, n);
    Onward(k, log, i, n);
    if n != i { Onward(k, log, i + 1, n); }
    m := |Stamps(log[..i], t)|;
    assert Stamps(log[..n + 1], t) == Stamps(log[..i], t) + [log[n].at];
    assert log[..|log|] == log;
    StampsGrow(log, n + 1, |log|, t);
  }

  /** A token keeps the lock from its acquisition to any later stamp of its own. */
  lemma OwnsUntilStamped(k: Ledger, log: seq<Event>, a: nat, i: nat, j: nat)
    requires Sound(k) && Legal(k, log) && a < i <= j < |log|
    requires log[a].Acquired? && log[j].Stamped? && log[j].token == log[a].lease.token
    ensures log[a].lease.token !in k.spent
    ensures Owned(Replay(k, log[..i]), log[a].lease.token)
    ensures Replay(k, log[..i]).lease.value.seconds == log[a].lease.seconds
  {
    var t := log[a].lease.token;
    LegalAt(k, log, a);
    Onward(k, log, 0, a);
    assert log[..0] == [];
    forall n | a < n < i ensures !(log[n].Removed? && log[n].token == t) {
      if log[n].Removed? && log[n].token == t { Fencing(k, log, n, j); }
    }
    OwnerKeepsLease(k, log, a, i);
  }

  /** An owner whose successive stamps, the acquisition included, are never further apart
      than its lease length is neither told that its lease expired nor removed at any point
      before one of its own later stamps. The number of renewals is unbounded and commands
      may take any time in between. */
  lemma KeptBetweenStamps(k: Ledger, log: seq<Event>, a: nat, i: nat, j: nat, heartbeatSeconds: int)
    requires Sound(k) && Legal(k, log) && a < i < j < |log|
    requires log[a].Acquired? && heartbeatSeconds * 3 <= log[a].lease.seconds
    requires log[j].Stamped? && log[j].token == log[a].lease.token
    requires Steady(Stamps(log, log[a].lease.token), 3 * heartbeatSeconds * TICKS_PER_SECOND)
    ensures !(log[i].FoundExpired? && log[i].token == log[a].lease.token)
    ensures !(log[i].Removed? && log[i].token == log[a].lease.token)
  {
    var t := log[a].lease.token;
    if log[i].Removed? && log[i].token == t {
      Fencing(k, log, i, j);
    } else if log[i].FoundExpired? && log[i].token == t {
      OwnsUntilStamped(k, log, a, i, j);
      LegalAt(k, log, i);
      var m := StampsAround(k, log, i, j, t);
      assert false;
    }
  }

  /** Never told that the lease expired, nor reclaimed. */
  predicate NotRunOut(e: Event, t: Token) {
    !(e.FoundExpired? && e.token == t) && !(e.Removed? && e.token == t && e.how.ByReclaim?)
  }

  /** The newest of a token's stamps. */
  function LastStamp(log: seq<Event>, t: Token): Instant
    requires Stamps(log, t) != []
  {
    Stamps(log, t)[|Stamps(log, t)| - 1]
  }

  /** An acquisition still owned carries its own lease length. */
  lemma OwnerSinceAcquired(k: Ledger, log: seq<Event>, a: nat, i: nat)
    requires Sound(k) && Legal(k, log) && a < i <= |log| && log[a].Acquired?
    requires Owned(Replay(k, log[..i]), log[a].lease.token)
    ensures log[a].lease.token !in k.spent && Replay(k, log[..i]).lease.value.seconds == log[a].lease.seconds
  {
    var t := log[a].lease.token;
    LegalAt(k, log, a);
    Onward(k, log, 0, a);
    assert log[..0] == [];
    forall n | a < n < i ensures !(log[n].Removed? && log[n].token == t) {
      if log[n].Removed? && log[n].token == t { RemovedIsNotOwner(k, log, n, i, t); }
    }
    OwnerKeepsLease(k, log, a, i);
  }

  lemma RemovedIsNotOwner(k: Ledger, log: seq<Event>, n: nat, i: nat, t: Token)
    requires Sound(k) && Legal(k, log) && n < i <= |log| && log[n].Removed? && log[n].token == t
    ensures !Owned(Replay(k, log[..i]), t)
  {
    LegalAt(k, log, n);
    Onward(k, log, n, n + 1);
    GoneForGood(k, log, n + 1, i, t);
  }

  /** Whoever asks within three heartbeats of the owner's last stamp so far does not find its
      lease run out, whether or not another stamp follows. */
  lemma KeptAfterStamp(k: Ledger, log: seq<Event>, a: nat, i: nat, heartbeatSeconds: int)
    requires Sound(k) && Legal(k, log) && a < i < |log| && log[a].Acquired? && heartbeatSeconds * 3 <= log[a].lease.seconds
    requires var t := log[a].lease.token;
             Stamps(log[..i], t) != []
             ==> InstantOf(log[i], LastStamp(log[..i], t)) <= LastStamp(log[..i], t) + 3 * heartbeatSeconds * TICKS_PER_SECOND
    ensures NotRunOut(log[i], log[a].lease.token)
  {
    var t := log[a].lease.token;
    if !NotRunOut(log[i], t) {
      LegalAt(k, log, i);
      assert Owned(Replay(k, log[..i]), t);
      OwnerSinceAcquired(k, log, a, i);
      LastStampIsTheLease(k, log[..i], t);
      assert false;
    }
  }

  /** A run whose successive stamps are never further apart than three heartbeats, with three
      heartbeats within its lease, is never told that its lease expired, nor reclaimed, up to
      three heartbeats after its last stamp, over any number of renewals. */
  lemma HeartbeatsKeepTheLease(k: Ledger, log: seq<Event>, a: nat, i: nat, heartbeatSeconds: int)
    requires Sound(k) && Legal(k, log) && a < i < |log|
    requires log[a].Acquired? && heartbeatSeconds * 3 <= log[a].lease.seconds
    requires var stamps := Stamps(log, log[a].lease.token); var gap := 3 * heartbeatSeconds * TICKS_PER_SECOND;
             Steady(stamps, gap) && (stamps != [] ==> InstantOf(log[i], stamps[|stamps| - 1]) <= stamps[|stamps| - 1] + gap)
    ensures NotRunOut(log[i], log[a].lease.token)
  {
    var t := log[a].lease.token;
    if j :| i < j < |log| && log[j].Stamped? && log[j].token == t {
      KeptBetweenStamps(k, log, a, i, j, heartbeatSeconds);
    } else {
      if !NotRunOut(log[i], t) {
        NoStampsAfter(k, log, a, i, t);
        KeptAfterStamp(k, log, a, i, heartbeatSeconds);
      }
    }
  }

  /** If the owner is not stamped again after `i`, its stamps are those before `i`. */
  lemma NoStampsAfter(k: Ledger, log: seq<Event>, a: nat, i: nat, t: Token)
    requires Sound(k) && Legal(k, log) && a < i < |log| && log[a].Acquired? && log[a].lease.token == t
    requires !log[i].Stamped? && forall j :: i < j < |log| ==> !(log[j].Stamped? && log[j].token == t)
    ensures Stamps(log[..i], t) == Stamps(log, t)
  {
    LegalAt(k, log, a);
    Onward(k, log, a + 1, i);
    var n := i;
    while n < |log|
      invariant i <= n <= |log|
      invariant Stamps(log[..n], t) == Stamps(log[..i], t)
    {
      NoStampHere(k, log, i, n, t);
      n := n + 1;
    }
    assert log[..n] == log;
  }
}
