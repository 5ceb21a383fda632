/** What the matrix transactions promise, for every run of any number of processes. */
module MatrixTheorems {
  import opened Prelude
  import opened Counting
  import opened MatrixFile
  import opened MatrixTransactions
  import opened MatrixSafety

  /** Serializability: in every interleaving, with crashes at any step and inode numbers
      reused, the path names one complete file; its table is the committed bodies applied
      one after another in rename order, each to exactly what the previous one left; and
      a transaction that wrote nothing decided on one of those intermediate tables. */
  lemma Serializable(s: State, cs: seq<Choice>, t0: Table)
    requires Start(s, t0) && IsRun(s, cs)
    ensures var f := Run(s, cs);
            && f.path.Some? && f.path.value in f.files
            && f.files[f.path.value] == Whole(ApplyAll(t0, Ops(f.commits)))
            && CommitsApplied(f, t0) && CommitsOnce(f)
            && forall p :: 0 <= p < |f.procs| && f.procs[p].pc == NothingDone ==>
                 exists n :: 0 <= n <= |f.commits| && Apply(f.procs[p].op, ApplyAll(t0, Ops(f.commits)[..n])).None?
  {
    EveryRun(s, cs, t0);
    var f := Run(s, cs);
    forall p | 0 <= p < |f.procs| && f.procs[p].pc == NothingDone
      ensures exists n :: 0 <= n <= |f.commits| && Apply(f.procs[p].op, ApplyAll(t0, Ops(f.commits)[..n])).None?
    {
      assert Knows(f, t0, f.procs[p]);
      var n := f.procs[p].seen;
      assert 0 <= n <= |f.commits| && Apply(f.procs[p].op, ApplyAll(t0, Ops(f.commits)[..n])).None?;
    }
  }

  /** Two processes are never both between a passed inode comparison and their rename. */
  lemma MutualExclusion(s: State, cs: seq<Choice>, t0: Table, p: nat, q: nat)
    requires Start(s, t0) && IsRun(s, cs) && p < |Run(s, cs).procs| && q < |Run(s, cs).procs|
    requires Critical(Run(s, cs).procs[p].pc) && Critical(Run(s, cs).procs[q].pc)
    ensures p == q
  {
    EveryRun(s, cs, t0);
    OneCritical(Run(s, cs), p, q);
  }

  /** The names, their order and every field no transaction looks at survive any run. */
  lemma NamesSurvive(s: State, cs: seq<Choice>, t0: Table)
    requires Start(s, t0) && IsRun(s, cs) && NamesUnique(t0)
    ensures var f := Run(s, cs);
            && f.path.Some? && f.path.value in f.files && f.files[f.path.value].Whole?
            && Names(f.files[f.path.value].table) == Names(t0) && NamesUnique(f.files[f.path.value].table)
            && |f.files[f.path.value].table| == |t0|
            && forall i :: 0 <= i < |t0| ==> f.files[f.path.value].table[i].entry.rest == t0[i].entry.rest
  {
    EveryRun(s, cs, t0);
    ShapeAlways(t0, Ops(Run(s, cs).commits));
  }

  // ----- retries ---------------------------------------------------------------------------

  /** The "file not found" retry never occurs: the path always names a file, so neither
      open nor stat can miss it, and a reader of the path never meets a half-written one. */
  lemma PathNeverMissing(s: State, cs: seq<Choice>, t0: Table, p: nat)
    requires Start(s, t0) && IsRun(s, cs) && p < |Run(s, cs).procs|
    ensures Run(s, cs).path.Some?
    ensures Enabled(Run(s, cs), Open(p)) ==> Next(Run(s, cs), Open(p)).procs[p].pc == Blocked
    ensures Enabled(Run(s, cs), Load(p)) ==> Next(Run(s, cs), Load(p)).procs[p].pc == Mutating
  {
    EveryRun(s, cs, t0);
    var f := Run(s, cs);
    hide Run, IsRun;
    assert f.path.Some? && f.path.value in f.files && f.files[f.path.value].Whole? && AtPath(f);
    hide Inv;
    PathIsFound(f, p);
  }

  lemma PathIsFound(f: State, p: nat)
    requires p < |f.procs| && f.path.Some? && f.path.value in f.files && f.files[f.path.value].Whole? && AtPath(f)
    ensures Enabled(f, Open(p)) ==> Next(f, Open(p)).procs[p].pc == Blocked
    ensures Enabled(f, Load(p)) ==> Next(f, Load(p)).procs[p].pc == Mutating
  {
    if Enabled(f, Load(p)) {
      assert Critical(f.procs[p].pc);
      assert f.path == Some(f.procs[p].fd);
    }
  }

  /** Each retry is charged to its own rename by another process, made after that attempt
      opened the path; so a process retries at most once per other process and per commit. */
  lemma RetriesAreBounded(s: State, cs: seq<Choice>, t0: Table, p: nat)
    requires Start(s, t0) && IsRun(s, cs) && p < |Run(s, cs).procs|
    ensures var f := Run(s, cs); var x := f.procs[p];
            && (forall i, j :: 0 <= i < j < |x.charges| ==> x.charges[i] < x.charges[j])
            && (forall i :: 0 <= i < |x.charges| ==> x.charges[i] < |f.commits| && f.commits[x.charges[i]].pid != p)
            && |x.charges| <= |f.commits| && |x.charges| < |f.procs|
  {
    EveryRun(s, cs, t0);
    var f := Run(s, cs);
    var x := f.procs[p];
    assert Charged(f, p);
    Pigeonhole(x.charges, |f.commits|);
    ChargedToOthers(x.charges, f.commits, p, |f.procs|);
  }

  lemma ChargedToOthers(charges: seq<nat>, commits: seq<Commit>, p: nat, n: nat)
    requires p < n && forall i, j :: 0 <= i < j < |commits| ==> commits[i].pid != commits[j].pid
    requires forall i :: 0 <= i < |commits| ==> commits[i].pid < n
    requires forall i, j :: 0 <= i < j < |charges| ==> charges[i] < charges[j]
    requires forall i :: 0 <= i < |charges| ==> charges[i] < |commits| && commits[charges[i]].pid != p
    ensures |charges| < n
  {
    var pids := seq(|charges|, i requires 0 <= i < |charges| => commits[charges[i]].pid) + [p];
    forall i, j | 0 <= i < j < |pids| ensures pids[i] != pids[j] {
      if j < |charges| { assert commits[charges[i]].pid != commits[charges[j]].pid; }
    }
    Pigeonhole(pids, n);
  }

  predicate MovesOn(c: Choice) { !(c.Spawn? || c.Fail? || c.Die?) }

  /** While any process is unfinished some process can take an ordinary step. */
  lemma SomeProcessMoves(s: State, cs: seq<Choice>, t0: Table, p: nat) returns (c: Choice)
    requires Start(s, t0) && IsRun(s, cs) && p < |Run(s, cs).procs| && !Ended(Run(s, cs).procs[p].pc)
    ensures Enabled(Run(s, cs), c) && MovesOn(c)
  {
    EveryRun(s, cs, t0);
    var f := Run(s, cs);
    var q := p;
    if f.procs[p].pc == Blocked && f.procs[p].fd in f.locks { q := f.locks[f.procs[p].fd]; }
    assert OwnsFiles(f, q);
    match f.procs[q].pc
    case Opening => c := Open(q);
    case Blocked => c := Lock(q);
    case Comparing => c := Compare(q);
    case Retrying => c := Retry(q);
    case Loading => c := Load(q);
    case Mutating => c := Mutate(q);
    case Creating =>
      var i := NotIn(f.files.Keys);
      c := Create(q, i);
    case Filling => c := Fill(q);
    case Replacing => c := Replace(q);
    case _ => c := Close(q);
  }

  // ----- claims ---------------------------------------------------------------------------

  lemma {:induction false} PendingAfterClaims(t0: Table, ops: seq<Op>, n: nat)
    requires n <= |ops| && forall i :: 0 <= i < |ops| ==> ops[i].Claim? && Apply(ops[i], ApplyAll(t0, ops[..i])).Some?
    ensures n <= |Pending(t0)| && Pending(ApplyAll(t0, ops[..n])) == Pending(t0)[n..]
  {
    forall i | 0 <= i < |ops[..n]| ensures ops[..n][i].Claim? && Apply(ops[..n][i], ApplyAll(t0, ops[..n][..i])).Some? {
      assert ops[..n][..i] == ops[..i];
    }
    ClaimsPickInOrder(t0, ops[..n]);
  }

  predicate OnlyClaims(f: State) {
    forall p :: 0 <= p < |f.procs| ==> f.procs[p].op.Claim? && f.procs[p].pc in {Committed, NothingDone}
  }

  lemma CommitsAreClaims(f: State, t0: Table)
    requires CommitsOnce(f) && CommitsApplied(f, t0) && OnlyClaims(f)
    ensures var ops := Ops(f.commits);
            forall i :: 0 <= i < |ops| ==> ops[i].Claim? && Apply(ops[i], ApplyAll(t0, ops[..i])).Some?
  {
    hide Apply, ApplyAll, Picked;
    forall i | 0 <= i < |f.commits| ensures f.commits[i].op.Claim? {
      assert f.commits[i].op == f.procs[f.commits[i].pid].op;
    }
  }

  /** A claimer that found nothing: every pending scenario had been claimed. */
  lemma EmptyHanded(f: State, t0: Table, p: nat)
    requires CommitsOnce(f) && CommitsApplied(f, t0) && OnlyClaims(f) && f.path.Some?
    requires p < |f.procs| && f.procs[p].pc == NothingDone && Knows(f, t0, f.procs[p])
    ensures |Pending(t0)| <= |f.commits|
  {
    hide Picked, Apply, ApplyAll, Pending;
    var ops := Ops(f.commits);
    var n := f.procs[p].seen;
    CommitsAreClaims(f, t0);
    ClaimTakesTheFirst(f.procs[p].op.session, ApplyAll(t0, ops[..n]));
    PendingAfterClaims(t0, ops, n);
  }

  function Pids(cs: seq<Commit>): seq<nat> {
    seq(|cs|, i requires 0 <= i < |cs| => cs[i].pid)
  }

  lemma CommitsPerProcess(f: State)
    requires CommitsOnce(f)
    ensures |f.commits| <= |f.procs|
    ensures (forall p :: 0 <= p < |f.procs| ==> f.procs[p].pc == Committed) ==> |f.commits| == |f.procs|
  {
    var pids := Pids(f.commits);
    Pigeonhole(pids, |f.procs|);
    if forall p :: 0 <= p < |f.procs| ==> f.procs[p].pc == Committed {
      forall p: nat | p < |f.procs| ensures p in pids {
        assert f.procs[p].pc == Committed;
        var i :| 0 <= i < |f.commits| && f.commits[i].pid == p;
        assert pids[i] == p;
      }
      Covering(pids, |f.procs|);
    }
  }

  /** One commit per successful claimer, and no more than there were pending scenarios. */
  lemma HowManyClaims(f: State, t0: Table)
    requires Inv(f, t0) && OnlyClaims(f)
    ensures |f.commits| == if |f.procs| <= |Pending(t0)| then |f.procs| else |Pending(t0)|
  {
    hide Picked, InUse, Apply, ApplyAll, Pending;
    CommitsAreClaims(f, t0);
    ClaimsPickInOrder(t0, Ops(f.commits));
    CommitsPerProcess(f);
    if p :| 0 <= p < |f.procs| && f.procs[p].pc == NothingDone {
      EmptyHanded(f, t0, p);
    }
  }

  lemma CommittedAreRecorded(f: State, p: nat)
    requires CommitsOnce(f) && OnlyClaims(f) && p < |f.procs|
    ensures f.procs[p].pc == Committed <==> exists i :: 0 <= i < |f.commits| && f.commits[i].pid == p
  {
    if i :| 0 <= i < |f.commits| && f.commits[i].pid == p {
      assert f.procs[f.commits[i].pid].pc in {Closing, Committed, Dead};
    }
  }

  /** Claimers alone, none of them crashed or failed: over a matrix with k pending
      scenarios, n of them return min(n, k) names, which are the first min(n, k) pending
      scenarios, all different, each handed to exactly one claimer. */
  lemma ClaimExactness(s: State, cs: seq<Choice>, t0: Table)
    requires Start(s, t0) && IsRun(s, cs) && NamesUnique(t0)
    requires OnlyClaims(Run(s, cs))
    ensures var f := Run(s, cs);
            && |f.commits| == (if |f.procs| <= |Pending(t0)| then |f.procs| else |Pending(t0)|)
            && (forall i :: 0 <= i < |f.commits| ==> f.commits[i].picked == Some(Pending(t0)[i]))
            && (forall i, j :: 0 <= i < j < |f.commits| ==> f.commits[i].picked != f.commits[j].picked)
            && (forall p :: 0 <= p < |f.procs| ==>
                  (f.procs[p].pc == Committed <==> exists i :: 0 <= i < |f.commits| && f.commits[i].pid == p))
  {
    EveryRun(s, cs, t0);
    var f := Run(s, cs);
    hide Run, IsRun;
    HowManyClaims(f, t0);
    CommitsAreClaims(f, t0);
    ClaimsPickInOrder(t0, Ops(f.commits));
    PendingIsDistinct(t0);
    forall i | 0 <= i < |f.commits| ensures f.commits[i].picked == Some(Pending(t0)[i]) {
      assert f.commits[i].picked == Picked(Ops(f.commits)[i], ApplyAll(t0, Ops(f.commits)[..i]));
    }
    forall p | 0 <= p < |f.procs|
      ensures f.procs[p].pc == Committed <==> exists i :: 0 <= i < |f.commits| && f.commits[i].pid == p
    {
      CommittedAreRecorded(f, p);
    }
  }

  /** With claims, status writes and resets interleaved in any way, two commits hand out
      the same scenario only if a commit in between sent it back to pending. */
  lemma ClaimedOncePerReopening(s: State, cs: seq<Choice>, t0: Table, a: nat, b: nat) returns (k: nat)
    requires Start(s, t0) && IsRun(s, cs) && NamesUnique(t0)
    requires a < b < |Run(s, cs).commits|
    requires Run(s, cs).commits[a].picked.Some? && Run(s, cs).commits[b].picked == Run(s, cs).commits[a].picked
    ensures a < k < b && Reopens(Run(s, cs).commits[k].op, Run(s, cs).commits[a].picked.value)
  {
    EveryRun(s, cs, t0);
    var f := Run(s, cs);
    var ops := Ops(f.commits);
    assert ops[a] == f.commits[a].op && ops[b] == f.commits[b].op;
    k := HandedOutOnce(t0, ops, a, b);
  }

  // ----- one process on its own -------------------------------------------------------------

  lemma {:induction false} RunAppend(s: State, cs: seq<Choice>, c: Choice)
    requires IsRun(s, cs) && Enabled(Run(s, cs), c)
    ensures IsRun(s, cs + [c]) && Run(s, cs + [c]) == Next(Run(s, cs), c)
    decreases |cs|
  {
    hide Enabled, Next;
    if cs == [] {
      assert [c][1..] == [];
      assert IsRun(Next(s, c), []);
    } else {
      RunAppend(Next(s, cs[0]), cs[1..], c);
      assert (cs + [c])[0] == cs[0] && (cs + [c])[1..] == cs[1..] + [c];
    }
  }

  /** Process `p`, having found the matrix unlocked, opens, locks, compares and reads it
      without a retry. */
  lemma ReadsAlone(s: State, cs: seq<Choice>, t0: Table, p: nat) returns (ds: seq<Choice>)
    requires Start(s, t0) && IsRun(s, cs) && At(Run(s, cs), p, Opening)
    requires Run(s, cs).path.Some? && Run(s, cs).path.value !in Run(s, cs).locks
    ensures IsRun(s, ds) && At(Run(s, ds), p, Mutating)
    ensures var f := Run(s, cs); var g := Run(s, ds); var x := g.procs[p];
            && g.path == f.path && g.commits == f.commits && g.files == f.files
            && x.op == f.procs[p].op && x.charges == f.procs[p].charges
            && f.path.value in f.files && f.files[f.path.value] == Whole(x.table)
  {
    EveryRun(s, cs, t0);
    var f := Run(s, cs);
    assert f.path.value in f.files && f.files[f.path.value] == Whole(Serial(t0, f));
    hide Inv, Start, Run, IsRun, Serial, Closed, Apply, Picked;
    ds := LocksAlone(s, cs, p);
    RunAppend(s, ds, Compare(p));
    ds := ds + [Compare(p)];
    RunAppend(s, ds, Load(p));
    ds := ds + [Load(p)];
  }

  lemma LocksAlone(s: State, cs: seq<Choice>, p: nat) returns (ds: seq<Choice>)
    requires IsRun(s, cs) && At(Run(s, cs), p, Opening)
    requires Run(s, cs).path.Some? && Run(s, cs).path.value !in Run(s, cs).locks
    ensures IsRun(s, ds) && At(Run(s, ds), p, Comparing)
    ensures var f := Run(s, cs); var g := Run(s, ds); var x := g.procs[p];
            && g.path == f.path && g.commits == f.commits && g.files == f.files
            && x.op == f.procs[p].op && x.charges == f.procs[p].charges && f.path == Some(x.fd)
  {
    hide Run, IsRun, Closed, Apply, Picked;
    RunAppend(s, cs, Open(p));
    ds := cs + [Open(p)];
    RunAppend(s, ds, Lock(p));
    ds := ds + [Lock(p)];
  }

  lemma ClosesAlone(s: State, cs: seq<Choice>, p: nat) returns (ds: seq<Choice>)
    requires IsRun(s, cs) && (At(Run(s, cs), p, Closing) || At(Run(s, cs), p, Abandoning))
    ensures IsRun(s, ds) && p < |Run(s, ds).procs| && Run(s, ds).commits == Run(s, cs).commits
    ensures var x := Run(s, cs).procs[p]; Run(s, ds).procs[p] == x.(pc := Outcome(x.pc))
  {
    hide Run, IsRun, Closed;
    var f := Run(s, cs);
    ClosedMoves(f, p, Outcome(f.procs[p].pc));
    RunAppend(s, cs, Close(p));
    ds := cs + [Close(p)];
  }

  lemma ReplacesAlone(s: State, cs: seq<Choice>, p: nat) returns (ds: seq<Choice>)
    requires IsRun(s, cs) && At(Run(s, cs), p, Creating)
    ensures IsRun(s, ds) && At(Run(s, ds), p, Closing)
    ensures var f := Run(s, cs); var g := Run(s, ds); var x := f.procs[p];
            && g.procs[p].charges == x.charges && g.commits == f.commits + [Commit(p, x.op, x.picked)]
  {
    hide Run, IsRun;
    var i := NotIn(Run(s, cs).files.Keys);
    RunAppend(s, cs, Create(p, i));
    ds := cs + [Create(p, i)];
    RunAppend(s, ds, Fill(p));
    ds := ds + [Fill(p)];
    RunAppend(s, ds, Replace(p));
    ds := ds + [Replace(p)];
  }

  /** Process `p`, having read the table, writes what its body makes of it, or nothing. */
  lemma WritesAlone(s: State, cs: seq<Choice>, p: nat) returns (ds: seq<Choice>)
    requires IsRun(s, cs) && At(Run(s, cs), p, Mutating)
    ensures IsRun(s, ds) && p < |Run(s, ds).procs|
    ensures var f := Run(s, cs); var g := Run(s, ds); var x := f.procs[p];
            && g.procs[p].charges == x.charges
            && match Apply(x.op, x.table)
               case Some(_) => g.procs[p].pc == Committed && g.commits == f.commits + [Commit(p, x.op, Picked(x.op, x.table))]
               case None => g.procs[p].pc == NothingDone && g.commits == f.commits
  {
    hide Run, IsRun, Apply, Picked;
    RunAppend(s, cs, Mutate(p));
    ds := cs + [Mutate(p)];
    if At(Run(s, ds), p, Creating) {
      ds := ReplacesAlone(s, ds, p);
    }
    ds := ClosesAlone(s, ds, p);
  }

  /** A transaction that is left alone succeeds: whatever happened before, a process that
      finds the matrix unlocked can run to its end without a retry, and the file then holds
      its body applied to the table that was there, or, when its body abandons, that table. */
  lemma SucceedsAlone(s: State, cs: seq<Choice>, t0: Table, p: nat) returns (ds: seq<Choice>, t: Table)
    requires Start(s, t0) && IsRun(s, cs) && At(Run(s, cs), p, Opening)
    requires Run(s, cs).path.Some? && Run(s, cs).path.value !in Run(s, cs).locks
    ensures IsRun(s, ds) && p < |Run(s, ds).procs|
    ensures var f := Run(s, cs); var g := Run(s, ds); var op := f.procs[p].op;
            && f.path.value in f.files && f.files[f.path.value] == Whole(t)
            && g.path.Some? && g.path.value in g.files
            && g.procs[p].charges == f.procs[p].charges
            && match Apply(op, t)
               case Some(u) => g.procs[p].pc == Committed && g.files[g.path.value] == Whole(u)
               case None => g.procs[p].pc == NothingDone && g.files[g.path.value] == Whole(t)
  {
    var es := ReadsAlone(s, cs, t0, p);
    ds := WritesAlone(s, es, p);
    t := Run(s, es).procs[p].table;
    EveryRun(s, es, t0);
    EveryRun(s, ds, t0);
    var f, g := Run(s, es), Run(s, ds);
    hide Run, IsRun, Apply, Picked, Storage, Knows, Charged, CommitsOnce, CommitsApplied, AtPath;
    assert g.files[g.path.value] == Whole(Serial(t0, g)) && f.files[f.path.value] == Whole(Serial(t0, f));
    if Apply(f.procs[p].op, t).Some? {
      OpsOneMore(f.commits, g.commits[|f.commits|]);
      assert Ops(g.commits)[..|f.commits|] == Ops(f.commits);
    }
  }

  // ----- how processes end, and what they leave ------------------------------------------------

  /** No exception and no kill in this run. */
  predicate Undisturbed(cs: seq<Choice>) { forall i :: 0 <= i < |cs| ==> !cs[i].Fail? && !cs[i].Die? }

  predicate NoKill(cs: seq<Choice>) { forall i :: 0 <= i < |cs| ==> !cs[i].Die? }

  predicate NoneFailing(s: State) {
    forall p :: 0 <= p < |s.procs| ==> s.procs[p].pc != Failing && s.procs[p].pc != Failed && s.procs[p].pc != Dead
  }

  /** What a process is about to read is a complete file. */
  lemma ReadsWhole(s: State, t0: Table, p: nat)
    requires Inv(s, t0) && At(s, p, Loading) && s.procs[p].fd in s.files
    ensures s.files[s.procs[p].fd].Whole?
  {
    assert AtPath(s) && Critical(s.procs[p].pc);
    hide Inv;
  }

  lemma StillNoneFailing(s: State, c: Choice, t0: Table)
    requires Inv(s, t0) && Enabled(s, c) && NoneFailing(s) && !c.Fail? && !c.Die?
    ensures NoneFailing(Next(s, c))
  {
    hide Enabled, Next, Storage, Knows, Charged, CommitsOnce, CommitsApplied, AtPath;
    assert s.path.Some? by { HasPath(s, t0); }
    if c.Load? { LoadingNow(s, c); ReadsWhole(s, t0, c.p); }
    ActorFares(s, c);
  }

  lemma HasPath(s: State, t0: Table)
    requires Inv(s, t0)
    ensures s.path.Some?
  {
  }

  lemma LoadingNow(s: State, c: Choice)
    requires Enabled(s, c) && c.Load?
    ensures At(s, c.p, Loading) && s.procs[c.p].fd in s.files
  {
  }

  predicate Fares(pc: Pc) { pc != Failing && pc != Failed && pc != Dead }

  lemma ActorFares(s: State, c: Choice)
    requires Enabled(s, c) && s.path.Some? && !c.Fail? && !c.Die?
    requires c.Load? ==> s.files[s.procs[c.p].fd].Whole?
    ensures |s.procs| <= |Next(s, c).procs|
    ensures forall q :: 0 <= q < |Next(s, c).procs| ==>
              var y := Next(s, c).procs[q];
              (q < |s.procs| && y == s.procs[q]) || (q < |s.procs| && Fares(y.pc)) || y.pc == Opening
              || (q < |s.procs| && !Fares(s.procs[q].pc))
  {
    hide Enabled, Next;
    if c.Retry? || c.Close? { CloserFares(s, c); }
    else if c.Spawn? { NewcomerFares(s, c); }
    else if c.Open? || c.Lock? || c.Compare? { OpenerFares(s, c); }
    else { WorkerFares(s, c); }
  }

  lemma NewcomerFares(s: State, c: Choice)
    requires Enabled(s, c) && c.Spawn?
    ensures |Next(s, c).procs| == |s.procs| + 1 && Next(s, c).procs[|s.procs|].pc == Opening
    ensures forall q :: 0 <= q < |s.procs| ==> Next(s, c).procs[q] == s.procs[q]
  {
  }

  lemma OpenerFares(s: State, c: Choice)
    requires Enabled(s, c) && s.path.Some? && (c.Open? || c.Lock? || c.Compare?)
    ensures c.p < |s.procs| && Next(s, c).procs == s.procs[c.p := Next(s, c).procs[c.p]] && Fares(Next(s, c).procs[c.p].pc)
  {
  }

  lemma WorkerFares(s: State, c: Choice)
    requires Enabled(s, c) && (c.Load? || c.Mutate? || c.Create? || c.Fill? || c.Replace?)
    requires c.Load? ==> s.files[s.procs[c.p].fd].Whole?
    ensures c.p < |s.procs| && Next(s, c).procs == s.procs[c.p := Next(s, c).procs[c.p]] && Fares(Next(s, c).procs[c.p].pc)
  {
    hide Closed, Apply, Picked, Compared;
  }

  lemma CloserFares(s: State, c: Choice)
    requires Enabled(s, c) && (c.Retry? || c.Close?)
    ensures c.p < |s.procs| && Next(s, c).procs == s.procs[c.p := Next(s, c).procs[c.p]]
    ensures Fares(s.procs[c.p].pc) ==> Fares(Next(s, c).procs[c.p].pc)
  {
    hide Closed;
    ClosedMoves(s, c.p, if c.Retry? then Opening else Outcome(s.procs[c.p].pc));
  }

  lemma {:induction false} NobodyFails(s: State, cs: seq<Choice>, t0: Table)
    requires Inv(s, t0) && IsRun(s, cs) && NoneFailing(s) && Undisturbed(cs)
    ensures NoneFailing(Run(s, cs))
    decreases |cs|
  {
    hide Inv, Enabled, Next, NoneFailing;
    if cs != [] {
      StepKeeps(s, cs[0], t0);
      StillNoneFailing(s, cs[0], t0);
      forall i | 0 <= i < |cs[1..]| ensures !cs[1..][i].Fail? && !cs[1..][i].Die? { assert cs[1..][i] == cs[i + 1]; }
      NobodyFails(Next(s, cs[0]), cs[1..], t0);
    }
  }

  /** However many others are at work, a process that nothing disturbs ends by having applied
      its own body exactly once, or by having read a committed table on which its body has
      nothing to do. Losing a race is never a failure. */
  lemma EveryoneIsServed(s: State, cs: seq<Choice>, t0: Table, p: nat)
    requires Start(s, t0) && IsRun(s, cs) && Undisturbed(cs)
    requires p < |Run(s, cs).procs| && Ended(Run(s, cs).procs[p].pc)
    ensures var f := Run(s, cs); var x := f.procs[p];
            if x.pc == Committed then
              exists i :: 0 <= i < |f.commits| && CommitOf(f, p, i) && forall j :: 0 <= j < |f.commits| && j != i ==> f.commits[j].pid != p
            else
              x.pc == NothingDone && x.seen <= |f.commits| && Apply(x.op, ApplyAll(t0, Ops(f.commits)[..x.seen])).None?
  {
    StartIsInv(s, t0);
    EveryRun(s, cs, t0);
    NobodyFails(s, cs, t0);
    var f := Run(s, cs);
    assert Knows(f, t0, f.procs[p]) && CommitsOnce(f);
    hide Run, IsRun, Inv, Apply, Picked, ApplyAll, Ops;
    if f.procs[p].pc == Committed {
      var i :| 0 <= i < |f.commits| && f.commits[i].pid == p;
      assert CommitOf(f, p, i);
    }
  }

  predicate CommitOf(f: State, p: nat, i: nat)
    requires i < |f.commits| && p < |f.procs|
  {
    f.commits[i].pid == p && f.commits[i].op == f.procs[p].op
  }

  /** Every file was there before or is in use. */
  predicate Tidy(s: State, before: set<Ino>) { forall i :: i in s.files ==> i in before || InUse(s, i) }

  lemma UsedBy(s: State, i: Ino, q: nat)
    requires q < |s.procs|
    requires (IsOpen(s.procs[q].pc) && s.procs[q].fd == i) || (HasTemp(s.procs[q].pc) && s.procs[q].tmp == i)
    ensures InUse(s, i)
  {
  }

  /** A step that closes nothing takes no file out of use, except a temporary file it removes. */
  lemma StillUsed(s: State, c: Choice, t0: Table, i: Ino)
    requires Inv(s, t0) && Enabled(s, c) && !c.Retry? && !c.Close? && !c.Die?
    requires i in Next(s, c).files && (i in s.files ==> InUse(s, i))
    ensures InUse(Next(s, c), i)
  {
    var s' := Next(s, c);
    if i in s.files && s.path != Some(i) && i !in s.litter {
      var q :| 0 <= q < |s.procs| && ((IsOpen(s.procs[q].pc) && s.procs[q].fd == i) || (HasTemp(s.procs[q].pc) && s.procs[q].tmp == i));
      KeepsHold(s, c, t0, i, q);
    } else if c.Replace? && s.path == Some(i) {
      ReplacerHolds(s, c.p, t0);
      UsedBy(s', i, c.p);
    } else if i !in s.files {
      UsedBy(s', i, c.p);
    }
  }

  lemma ReplacerHolds(s: State, p: nat, t0: Table)
    requires Inv(s, t0) && Enabled(s, Replace(p))
    ensures s.path == Some(s.procs[p].fd)
    ensures var s' := Next(s, Replace(p)); |s'.procs| == |s.procs| && IsOpen(s'.procs[p].pc) && s'.procs[p].fd == s.procs[p].fd
  {
    assert AtPath(s) && Critical(s.procs[p].pc);
    hide Inv;
  }

  lemma KeepsHold(s: State, c: Choice, t0: Table, i: Ino, q: nat)
    requires Inv(s, t0) && Enabled(s, c) && !c.Retry? && !c.Close? && !c.Die? && i in Next(s, c).files && q < |s.procs|
    requires (IsOpen(s.procs[q].pc) && s.procs[q].fd == i) || (HasTemp(s.procs[q].pc) && s.procs[q].tmp == i)
    ensures InUse(Next(s, c), i)
  {
    hide Inv, Enabled, Next, InUse;
    if c.Spawn? || q != c.p { BystanderHolds(s, c, i, q); }
    else if c.Replace? { ReplacerKeeps(s, q, i); }
    else { ActorKeeps(s, c, i); }
  }

  lemma BystanderHolds(s: State, c: Choice, i: Ino, q: nat)
    requires Enabled(s, c) && !c.Retry? && !c.Close? && !c.Die? && q < |s.procs| && (c.Spawn? || q != c.p)
    requires (IsOpen(s.procs[q].pc) && s.procs[q].fd == i) || (HasTemp(s.procs[q].pc) && s.procs[q].tmp == i)
    ensures InUse(Next(s, c), i)
  {
    hide InUse, Closed, Apply, Picked;
    assert Next(s, c).procs[q] == s.procs[q];
    UsedBy(Next(s, c), i, q);
  }

  lemma ReplacerKeeps(s: State, p: nat, i: Ino)
    requires Enabled(s, Replace(p)) && (s.procs[p].fd == i || s.procs[p].tmp == i)
    ensures InUse(Next(s, Replace(p)), i)
  {
    hide InUse;
    if s.procs[p].tmp == i { AtThePath(Next(s, Replace(p)), i); } else { UsedBy(Next(s, Replace(p)), i, p); }
  }

  lemma ActorKeeps(s: State, c: Choice, i: Ino)
    requires Enabled(s, c) && !c.Spawn? && !c.Retry? && !c.Close? && !c.Die? && !c.Replace? && i in Next(s, c).files
    requires (IsOpen(s.procs[c.p].pc) && s.procs[c.p].fd == i) || (HasTemp(s.procs[c.p].pc) && s.procs[c.p].tmp == i)
    ensures InUse(Next(s, c), i)
  {
    hide InUse, Closed, Apply, Picked;
    UsedBy(Next(s, c), i, c.p);
  }

  lemma AtThePath(s: State, i: Ino)
    requires s.path == Some(i)
    ensures InUse(s, i)
  {
  }

  /** One that closes frees the file it had open if nobody else uses it. */
  lemma StillUsedClosed(s: State, p: nat, pc: Pc, i: Ino)
    requires p < |s.procs| && !HasTemp(s.procs[p].pc) && IsOpen(s.procs[p].pc)
    requires i in Closed(s, p, pc).files && InUse(s, i)
    ensures InUse(Closed(s, p, pc), i)
  {
    var x := s.procs[p];
    var s' := Closed(s, p, pc);
    ClosedMoves(s, p, pc);
    if s.path == Some(i) || i in s.litter {
      assert s'.path == s.path && s'.litter == s.litter;
    } else {
      var q :| 0 <= q < |s.procs| && ((IsOpen(s.procs[q].pc) && s.procs[q].fd == i) || (HasTemp(s.procs[q].pc) && s.procs[q].tmp == i));
      if q != p { UsedBy(s', i, q); }
    }
  }

  lemma TidyStep(s: State, c: Choice, t0: Table, before: set<Ino>)
    requires Inv(s, t0) && Enabled(s, c) && Tidy(s, before) && !c.Die?
    ensures Tidy(Next(s, c), before) && Next(s, c).litter == s.litter
  {
    hide Inv, Enabled, Next, InUse;
    SameLitter(s, c);
    forall i | i in Next(s, c).files && i !in before ensures InUse(Next(s, c), i) {
      if c.Retry? || c.Close? { ClosingUses(s, c, i); } else { StillUsed(s, c, t0, i); }
    }
  }

  lemma SameLitter(s: State, c: Choice)
    requires Enabled(s, c) && !c.Die?
    ensures Next(s, c).litter == s.litter
    ensures c.Retry? || c.Close? ==> Next(s, c).files.Keys <= s.files.Keys
  {
    hide InUse, Apply, Picked;
  }

  lemma ClosingUses(s: State, c: Choice, i: Ino)
    requires Enabled(s, c) && (c.Retry? || c.Close?) && i in Next(s, c).files && InUse(s, i)
    ensures InUse(Next(s, c), i)
  {
    hide InUse, Closed;
    StillUsedClosed(s, c.p, if c.Retry? then Opening else Outcome(s.procs[c.p].pc), i);
  }

  lemma {:induction false} TidyRun(s: State, cs: seq<Choice>, t0: Table, before: set<Ino>)
    requires Inv(s, t0) && IsRun(s, cs) && Tidy(s, before) && NoKill(cs)
    ensures Tidy(Run(s, cs), before) && Run(s, cs).litter == s.litter
    decreases |cs|
  {
    hide Inv, Enabled, Next, Tidy;
    if cs != [] {
      StepKeeps(s, cs[0], t0);
      TidyStep(s, cs[0], t0, before);
      forall i | 0 <= i < |cs[1..]| ensures !cs[1..][i].Die? { assert cs[1..][i] == cs[i + 1]; }
      TidyRun(Next(s, cs[0]), cs[1..], t0, before);
    }
  }

  /** Nothing is left behind: when every process has ended and none was killed, however many
      retried, failed or replaced the file, the directory holds what it held besides the
      matrix, and one file at the matrix's path. */
  lemma NothingLeftBehind(s: State, cs: seq<Choice>, t0: Table)
    requires Start(s, t0) && IsRun(s, cs) && NoKill(cs)
    requires forall p :: 0 <= p < |Run(s, cs).procs| ==> Ended(Run(s, cs).procs[p].pc)
    ensures var f := Run(s, cs);
            f.path.Some? && f.path.value in f.files && f.files.Keys <= (s.files.Keys - {s.path.value}) + {f.path.value}
  {
    StartIsInv(s, t0);
    EveryRun(s, cs, t0);
    var before := s.files.Keys - {s.path.value};
    TidyRun(s, cs, t0, before);
    var f := Run(s, cs);
    assert f.path.Some? && f.path.value in f.files;
    hide Inv, Run, IsRun;
    forall i | i in f.files ensures i in before + {f.path.value} {
      assert i in before || InUse(f, i);
      if i in f.litter { assert i in s.litter; }
    }
  }
}
