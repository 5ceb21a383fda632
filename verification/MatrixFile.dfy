/**
  The scenario table of a matrix file and the three transactions on it: claim the
  first pending scenario, set one status, send everything that has not passed back
  to pending. Each has a specification on values and an in-place method.
  */
module MatrixFile {
  import opened Prelude

  /** One scenario entry; `rest` stands for the fields no transaction looks at. */
  datatype Entry = Entry(status: Option<string>, evidence: Option<string>, rest: nat)

  datatype Row = Row(name: string, entry: Entry)

  /** A JSON object in file order. */
  type Table = seq<Row>

  predicate NamesUnique(t: Table) {
    forall i, j :: 0 <= i < j < |t| ==> t[i].name != t[j].name
  }

  datatype Op = Claim(session: string) | Status(scenario: string, status: string, evidence: string) | Reset

  const PENDING := "pending"

  predicate IsPending(e: Entry) { e.status == Some(PENDING) }

  predicate HasPassed(e: Entry) { e.status.Some? && "passed-" <= e.status.value }

  function Names(t: Table): seq<string> {
    seq(|t|, i requires 0 <= i < |t| => t[i].name)
  }

  /** The pending scenarios, in file order. */
  function Pending(t: Table): seq<string> {
    if t == [] then []
    else Pending(t[..|t| - 1]) + if IsPending(t[|t| - 1].entry) then [t[|t| - 1].name] else []
  }

  predicate FirstPendingAt(t: Table, i: nat) {
    i < |t| && IsPending(t[i].entry) && forall j :: 0 <= j < i ==> !IsPending(t[j].entry)
  }

  predicate NamedAt(t: Table, name: string, i: nat) {
    i < |t| && t[i].name == name && forall j :: 0 <= j < i ==> t[j].name != name
  }

  function SeekPending(t: Table, i: nat): (r: nat)
    requires i <= |t| && forall j :: 0 <= j < i ==> !IsPending(t[j].entry)
    ensures i <= r <= |t|
    ensures if r < |t| then FirstPendingAt(t, r) else forall j :: 0 <= j < |t| ==> !IsPending(t[j].entry)
    decreases |t| - i
  {
    if i == |t| || IsPending(t[i].entry) then i else SeekPending(t, i + 1)
  }

  function SeekName(t: Table, name: string, i: nat): (r: nat)
    requires i <= |t| && forall j :: 0 <= j < i ==> t[j].name != name
    ensures i <= r <= |t|
    ensures if r < |t| then NamedAt(t, name, r) else forall j :: 0 <= j < |t| ==> t[j].name != name
    decreases |t| - i
  {
    if i == |t| || t[i].name == name then i else SeekName(t, name, i + 1)
  }

  function Claimed(e: Entry, session: string): Entry { e.(status := Some("claimed-" + session)) }

  function WithStatus(e: Entry, status: string, evidence: string): Entry {
    var f := e.(status := Some(status));
    if evidence == "" then f else f.(evidence := Some(evidence))
  }

  function Retried(e: Entry): Entry { if HasPassed(e) then e else e.(status := Some(PENDING)) }

  /** What a transaction makes of the table it reads; None when it abandons without writing. */
  function Apply(op: Op, t: Table): Option<Table> {
    match op
    case Claim(session) =>
      var i := SeekPending(t, 0);
      if i == |t| then None else Some(t[i := Row(t[i].name, Claimed(t[i].entry, session))])
    case Status(name, status, evidence) =>
      var i := SeekName(t, name, 0);
      if i == |t| then None else Some(t[i := Row(t[i].name, WithStatus(t[i].entry, status, evidence))])
    case Reset => Some(seq(|t|, i requires 0 <= i < |t| => Row(t[i].name, Retried(t[i].entry))))
  }

  /** The name a claim prints. */
  function Picked(op: Op, t: Table): Option<string> {
    if op.Claim? then
      var i := SeekPending(t, 0);
      if i == |t| then None else Some(t[i].name)
    else None
  }

  function CountPassed(t: Table): nat {
    if t == [] then 0 else CountPassed(t[..|t| - 1]) + if HasPassed(t[|t| - 1].entry) then 1 else 0
  }

  // ----- what the words mean ---------------------------------------------------------

  /** "passed-" and a session. */
  ghost predicate PassedBySomeone(e: Entry) { exists who :: e.status == Some("passed-" + who) }

  /** From `t` to `u`, row `i`, the first that is pending, was claimed and its name printed. */
  predicate HandsOut(t: Table, i: nat, session: string, picked: string, u: Table)
    requires i < |t|
  {
    && t[i].entry.status == Some("pending") && (forall j :: 0 <= j < i ==> t[j].entry.status != Some("pending"))
    && picked == t[i].name
    && u == t[i := Row(t[i].name, Entry(Some("claimed-" + session), t[i].entry.evidence, t[i].entry.rest))]
  }

  /** From `t` to `u`, row `i`, the first of this name, got this status, and this evidence if any is given. */
  predicate Records(t: Table, i: nat, name: string, status: string, evidence: string, u: Table)
    requires i < |t|
  {
    && t[i].name == name && (forall j :: 0 <= j < i ==> t[j].name != name)
    && u == t[i := Row(name, Entry(Some(status), if evidence == "" then t[i].entry.evidence else Some(evidence), t[i].entry.rest))]
  }

  /** From `t` to `u` exactly the rows that have passed, and those that were pending already,
      stay as they were; every other row is pending and otherwise as it was. */
  ghost predicate SentBack(t: Table, u: Table) {
    && |u| == |t|
    && forall i :: 0 <= i < |t| ==>
         && (u[i] == t[i] <==> PassedBySomeone(t[i].entry) || t[i].entry.status == Some("pending"))
         && (u[i] == t[i] || u[i] == Row(t[i].name, Entry(Some("pending"), t[i].entry.evidence, t[i].entry.rest)))
  }

  ghost function Unpassed(t: Table): set<nat> {
    set i: nat | i < |t| && !PassedBySomeone(t[i].entry)
  }

  lemma AfterPrefix(text: string, prefix: string)
    ensures prefix <= text <==> exists rest :: text == prefix + rest
  {
    if prefix <= text { assert text == prefix + text[|prefix|..]; }
  }

  lemma PassedIs(e: Entry)
    ensures HasPassed(e) <==> PassedBySomeone(e)
  {
    if e.status.Some? {
      AfterPrefix(e.status.value, "passed-");
      if HasPassed(e) {
        var who :| e.status.value == "passed-" + who;
        assert e.status == Some("passed-" + who);
      }
    }
  }

  lemma PassedIsNotPending(e: Entry)
    requires e.status == Some("pending")
    ensures !PassedBySomeone(e)
  {
    forall who ensures "passed-" + who != "pending" { Differ("passed-" + who, "pending", 1); }
  }

  lemma Differ(a: string, b: string, n: nat)
    requires n < |a| && n < |b| && a[n] != b[n]
    ensures a != b
  {
  }

  /** A claim hands out the first pending scenario, marked with the session; it finds none
      only when no status is "pending". */
  lemma AClaim(session: string, t: Table)
    ensures Apply(Claim(session), t).None? <==> forall i :: 0 <= i < |t| ==> t[i].entry.status != Some("pending")
    ensures Picked(Claim(session), t).Some? <==> Apply(Claim(session), t).Some?
    ensures Apply(Claim(session), t).Some? ==>
              exists i :: 0 <= i < |t| && HandsOut(t, i, session, Picked(Claim(session), t).value, Apply(Claim(session), t).value)
  {
    var i := SeekPending(t, 0);
    if i < |t| {
      assert HandsOut(t, i, session, Picked(Claim(session), t).value, Apply(Claim(session), t).value);
    }
  }

  /** A status write changes the named scenario alone, and is refused only for an unknown name. */
  lemma AStatus(name: string, status: string, evidence: string, t: Table)
    ensures Apply(Status(name, status, evidence), t).None? <==> forall i :: 0 <= i < |t| ==> t[i].name != name
    ensures Apply(Status(name, status, evidence), t).Some? ==>
              exists i :: 0 <= i < |t| && Records(t, i, name, status, evidence, Apply(Status(name, status, evidence), t).value)
  {
    var i := SeekName(t, name, 0);
    if i < |t| {
      assert Records(t, i, name, status, evidence, Apply(Status(name, status, evidence), t).value);
    }
  }

  /** A reset keeps exactly the rows with "passed-" and some text, and sends every other back. */
  lemma AReset(t: Table)
    ensures Apply(Reset, t).Some? && SentBack(t, Apply(Reset, t).value)
  {
    var u := Apply(Reset, t).value;
    forall i | 0 <= i < |t|
      ensures u[i] == t[i] <==> PassedBySomeone(t[i].entry) || t[i].entry.status == Some("pending")
      ensures u[i] == t[i] || u[i] == Row(t[i].name, Entry(Some("pending"), t[i].entry.evidence, t[i].entry.rest))
    {
      PassedIs(t[i].entry);
    }
  }

  lemma {:induction false} UnpassedCount(t: Table)
    ensures |Unpassed(t)| == |t| - CountPassed(t)
  {
    if t != [] {
      var last := |t| - 1;
      UnpassedCount(t[..last]);
      PassedIs(t[last].entry);
      assert Unpassed(t) == Unpassed(t[..last]) + if HasPassed(t[last].entry) then {} else {last};
    }
  }

  /** What was reported as passed survives a reset, and nothing else that was reported does. */
  lemma ReportedThenReset(name: string, verdict: string, who: string, evidence: string, t: Table, i: nat)
    requires NamesUnique(t) && i < |t| && t[i].name == name && verdict in {"passed-", "failed-", "claimed-", "blocked-needs-"}
    ensures Apply(Status(name, verdict + who, evidence), t).Some?
    ensures var u := Apply(Status(name, verdict + who, evidence), t).value; var v := Apply(Reset, u);
            && v.Some? && |v.value| == |u| == |t|
            && u[i].entry.status == Some(verdict + who)
            && (if verdict == "passed-" then v.value[i] == u[i] else v.value[i].entry.status == Some("pending"))
  {
    AStatus(name, verdict + who, evidence, t);
    var u := Apply(Status(name, verdict + who, evidence), t).value;
    var k :| 0 <= k < |t| && Records(t, k, name, verdict + who, evidence, u);
    assert k == i;
    AReset(u);
    var e := u[i].entry;
    if verdict == "passed-" {
      assert PassedBySomeone(e);
    } else {
      forall other ensures verdict + who != "passed-" + other { Differ(verdict + who, "passed-" + other, 0); }
    }
  }

  // ----- in place -----------------------------------------------------------------

  class ScenarioTable {
    var rows: Table

    constructor (rows: Table)
      ensures this.rows == rows
    {
      this.rows := rows;
    }

    method Claim(session: string) returns (picked: Option<string>)
      modifies this
      ensures picked == Picked(Op.Claim(session), old(rows))
      ensures rows == match Apply(Op.Claim(session), old(rows)) case Some(t) => t case None => old(rows)
      ensures picked.None? <==> forall i :: 0 <= i < |old(rows)| ==> old(rows)[i].entry.status != Some("pending")
      ensures picked.None? ==> rows == old(rows)
      ensures picked.Some? ==> exists i :: 0 <= i < |old(rows)| && HandsOut(old(rows), i, session, picked.value, rows)
    {
      AClaim(session, rows);
      var i := 0;
      while i < |rows|
        invariant i <= |rows| && rows == old(rows)
        invariant forall j :: 0 <= j < i ==> !IsPending(rows[j].entry)
        invariant SeekPending(rows, 0) == SeekPending(rows, i)
      {
        if rows[i].entry.status == Some("pending") {
          rows := rows[i := Row(rows[i].name, rows[i].entry.(status := Some("claimed-" + session)))];
          return Some(rows[i].name);
        }
        i := i + 1;
      }
      picked := None;
    }

    /** The dictionary's lookup: where a name is, or the number of rows. */
    method Find(name: string) returns (i: nat)
      ensures i <= |rows| && (i < |rows| ==> NamedAt(rows, name, i))
      ensures i == |rows| ==> forall j :: 0 <= j < |rows| ==> rows[j].name != name
    {
      i := 0;
      while i < |rows| && rows[i].name != name
        invariant i <= |rows| && forall j :: 0 <= j < i ==> rows[j].name != name
      {
        i := i + 1;
      }
    }

    method SetStatus(scenario: string, status: string, evidence: string) returns (exit: int)
      modifies this
      ensures rows == match Apply(Op.Status(scenario, status, evidence), old(rows)) case Some(t) => t case None => old(rows)
      ensures exit == if Apply(Op.Status(scenario, status, evidence), old(rows)).Some? then 0 else 2
      ensures exit == 2 ==> rows == old(rows) && forall i :: 0 <= i < |rows| ==> rows[i].name != scenario
      ensures exit == 0 ==> exists i :: 0 <= i < |old(rows)| && Records(old(rows), i, scenario, status, evidence, rows)
    {
      AStatus(scenario, status, evidence, rows);
      var i := Find(scenario);
      if i == |rows| { return 2; }
      rows := rows[i := Row(scenario, rows[i].entry.(status := Some(status)))];
      if evidence != "" {
        rows := rows[i := Row(scenario, rows[i].entry.(evidence := Some(evidence)))];
      }
      exit := 0;
    }

    /** Returns how many entries were set to pending and how many keep their pass. */
    method Reset() returns (moved: nat, remain: int)
      modifies this
      ensures Apply(Op.Reset, old(rows)) == Some(rows)
      ensures moved == |old(rows)| - CountPassed(old(rows)) && remain == CountPassed(old(rows))
      ensures SentBack(old(rows), rows) && moved == |Unpassed(old(rows))| && remain == |old(rows)| - moved
    {
      AReset(rows);
      UnpassedCount(rows);
      moved := 0;
      var i := 0;
      while i < |rows|
        invariant i <= |rows| == |old(rows)|
        invariant forall j :: 0 <= j < i ==> rows[j] == Row(old(rows)[j].name, Retried(old(rows)[j].entry))
        invariant forall j :: i <= j < |rows| ==> rows[j] == old(rows)[j]
        invariant moved == i - CountPassed(old(rows)[..i])
      {
        assert old(rows)[..i + 1][..i] == old(rows)[..i];
        var status := match rows[i].entry.status case Some(v) => v case None => "";
        if !("passed-" <= status) {
          rows := rows[i := Row(rows[i].name, rows[i].entry.(status := Some("pending")))];
          moved := moved + 1;
        }
        i := i + 1;
      }
      assert old(rows)[..i] == old(rows);
      assert rows == Apply(Op.Reset, old(rows)).value;
      remain := |rows| - moved;
    }
  }

  // ----- every transaction ------------------------------------------------------------

  /** No transaction renames, adds, drops or reorders scenarios, or touches their other fields. */
  lemma ShapePreserved(op: Op, t: Table)
    requires Apply(op, t).Some?
    ensures var u := Apply(op, t).value;
            && |u| == |t| && Names(u) == Names(t)
            && (forall i :: 0 <= i < |t| ==> u[i].entry.rest == t[i].entry.rest)
            && (NamesUnique(t) ==> NamesUnique(u))
  {
  }

  lemma {:induction false} PendingCharacter(t: Table, i: nat)
    requires NamesUnique(t) && i < |t|
    ensures t[i].name in Pending(t) <==> IsPending(t[i].entry)
  {
    var front := t[..|t| - 1];
    if i < |t| - 1 {
      PendingCharacter(front, i);
    } else {
      OnlyNames(front, t[i].name);
    }
  }

  lemma {:induction false} OnlyNames(t: Table, name: string)
    requires forall i :: 0 <= i < |t| ==> t[i].name != name
    ensures name !in Pending(t)
  {
    if t != [] { OnlyNames(t[..|t| - 1], name); }
  }

  lemma {:induction false} NonePending(t: Table)
    requires forall j :: 0 <= j < |t| ==> !IsPending(t[j].entry)
    ensures Pending(t) == []
  {
    if t != [] { NonePending(t[..|t| - 1]); }
  }

  /** Pending splits at the first pending entry. */
  lemma {:induction false} PendingFrom(t: Table, i: nat, e: Entry)
    requires FirstPendingAt(t, i) && !IsPending(e)
    ensures Pending(t) == [t[i].name] + Pending(t[i := Row(t[i].name, e)])
    decreases |t|
  {
    var u := t[i := Row(t[i].name, e)];
    var front := t[..|t| - 1];
    if i == |t| - 1 {
      NonePending(front);
      assert u[..|u| - 1] == front;
    } else {
      PendingFrom(front, i, e);
      assert u[..|u| - 1] == front[i := Row(t[i].name, e)];
    }
  }

  /** A claim takes the first pending scenario and nothing else, and finds nothing only
      when nothing is pending. */
  lemma ClaimTakesTheFirst(session: string, t: Table)
    ensures Apply(Claim(session), t).None? <==> Pending(t) == []
    ensures Apply(Claim(session), t).Some? ==>
              && Pending(t) != [] && Picked(Claim(session), t) == Some(Pending(t)[0])
              && Pending(Apply(Claim(session), t).value) == Pending(t)[1..]
  {
    var i := SeekPending(t, 0);
    if i == |t| {
      NonePending(t);
    } else {
      var e := Claimed(t[i].entry, session);
      assert e.status.value[0] == 'c' && PENDING[0] == 'p';
      PendingFrom(t, i, e);
      assert Pending(t) == [t[i].name] + Pending(Apply(Claim(session), t).value);
    }
  }

  /** A second reset changes nothing; after one, every row has passed or is pending, and the
      rows that have passed are those that had. */
  lemma ResetIsIdempotent(t: Table)
    ensures Apply(Reset, t).Some? && Apply(Reset, Apply(Reset, t).value) == Apply(Reset, t)
    ensures var u := Apply(Reset, t).value;
            && |u| == |t|
            && forall i :: 0 <= i < |t| ==>
                 && (PassedBySomeone(u[i].entry) || u[i].entry.status == Some("pending"))
                 && (PassedBySomeone(u[i].entry) <==> PassedBySomeone(t[i].entry))
                 && (PassedBySomeone(t[i].entry) ==> u[i] == t[i])
  {
    var u := Apply(Reset, t).value;
    AReset(t);
    AReset(u);
    forall i | 0 <= i < |t|
      ensures PassedBySomeone(u[i].entry) || u[i].entry.status == Some("pending")
      ensures PassedBySomeone(u[i].entry) <==> PassedBySomeone(t[i].entry)
    {
      if u[i].entry.status == Some("pending") { PassedIsNotPending(u[i].entry); }
      if t[i].entry.status == Some("pending") { PassedIsNotPending(t[i].entry); }
    }
    assert Apply(Reset, u).value == u;
  }

  // ----- histories ----------------------------------------------------------------------

  /** The table after a sequence of committed transactions. */
  function ApplyAll(t: Table, ops: seq<Op>): Table {
    if ops == [] then t
    else
      var before := ApplyAll(t, ops[..|ops| - 1]);
      match Apply(ops[|ops| - 1], before) case Some(u) => u case None => before
  }

  lemma {:induction false} ApplyOneMore(t: Table, ops: seq<Op>, n: nat)
    requires n < |ops|
    ensures ApplyAll(t, ops[..n + 1]) ==
            match Apply(ops[n], ApplyAll(t, ops[..n])) case Some(u) => u case None => ApplyAll(t, ops[..n])
  {
    assert ops[..n + 1][..n] == ops[..n];
  }

  lemma {:induction false} ShapeAlways(t: Table, ops: seq<Op>)
    ensures var u := ApplyAll(t, ops);
            && |u| == |t| && Names(u) == Names(t) && (NamesUnique(t) ==> NamesUnique(u))
            && forall i :: 0 <= i < |t| ==> u[i].entry.rest == t[i].entry.rest
  {
    if ops != [] {
      ShapeAlways(t, ops[..|ops| - 1]);
      var before := ApplyAll(t, ops[..|ops| - 1]);
      if Apply(ops[|ops| - 1], before).Some? { ShapePreserved(ops[|ops| - 1], before); }
    }
  }

  /** The scenario named at row `i` is pending after the first `n` transactions. */
  predicate PendingAfter(t: Table, ops: seq<Op>, n: nat, i: nat)
    requires n <= |ops|
  {
    var u := ApplyAll(t, ops[..n]);
    i < |u| && IsPending(u[i].entry)
  }

  /** The transactions that can send row `i` back to pending. */
  predicate Reopens(op: Op, name: string) {
    op.Reset? || (op.Status? && op.scenario == name && op.status == PENDING)
  }

  /** One transaction sends a row back to pending only if it reopens it. */
  lemma TakenStep(op: Op, t: Table, i: nat)
    requires i < |t| && !IsPending(t[i].entry) && !Reopens(op, t[i].name) && Apply(op, t).Some?
    ensures i < |Apply(op, t).value| && !IsPending(Apply(op, t).value[i].entry)
  {
    ClaimedIsNotPending(op);
  }

  lemma {:induction false} StaysTaken(t: Table, ops: seq<Op>, m: nat, n: nat, i: nat)
    requires NamesUnique(t) && m <= n <= |ops| && i < |t|
    requires !PendingAfter(t, ops, m, i)
    requires forall k :: m <= k < n ==> !Reopens(ops[k], t[i].name)
    ensures !PendingAfter(t, ops, n, i)
    decreases n - m
  {
    if m < n {
      StaysTaken(t, ops, m, n - 1, i);
      ApplyOneMore(t, ops, n - 1);
      ShapeAlways(t, ops[..n - 1]);
      var before := ApplyAll(t, ops[..n - 1]);
      assert before[i].name == Names(before)[i] == Names(t)[i] == t[i].name;
      hide Apply, IsPending, Reopens, ApplyAll;
      if Apply(ops[n - 1], before).Some? { TakenStep(ops[n - 1], before, i); }
    }
  }

  lemma ClaimedIsNotPending(op: Op)
    ensures op.Claim? ==> "claimed-" + op.session != PENDING
  {
    if op.Claim? { assert ("claimed-" + op.session)[0] == 'c' && PENDING[0] == 'p'; }
  }

  /** A scenario is handed out a second time only after some transaction in between
      sent it back to pending. */
  lemma HandedOutOnce(t: Table, ops: seq<Op>, a: nat, b: nat) returns (k: nat)
    requires NamesUnique(t) && a < b < |ops|
    requires Picked(ops[a], ApplyAll(t, ops[..a])).Some?
    requires Picked(ops[b], ApplyAll(t, ops[..b])) == Picked(ops[a], ApplyAll(t, ops[..a]))
    ensures a < k < b && Reopens(ops[k], Picked(ops[a], ApplyAll(t, ops[..a])).value)
  {
    var before, later := ApplyAll(t, ops[..a]), ApplyAll(t, ops[..b]);
    var i, j := SeekPending(before, 0), SeekPending(later, 0);
    ShapeAlways(t, ops[..a]);
    ShapeAlways(t, ops[..b]);
    var name := before[i].name;
    assert Names(before)[i] == Names(t)[i] && Names(later)[j] == Names(t)[j];
    assert t[i].name == t[j].name == name;
    assert i == j;
    ApplyOneMore(t, ops, a);
    ClaimedIsNotPending(ops[a]);
    assert !PendingAfter(t, ops, a + 1, i);
    if forall n :: a + 1 <= n < b ==> !Reopens(ops[n], name) {
      StaysTaken(t, ops, a + 1, b, i);
      assert PendingAfter(t, ops, b, i);
      assert false;
    }
    k :| a + 1 <= k < b && Reopens(ops[k], name);
  }

  /** Only claims, each finding something: they pick the pending scenarios in order. */
  lemma {:induction false} ClaimsPickInOrder(t: Table, ops: seq<Op>)
    requires forall n :: 0 <= n < |ops| ==> ops[n].Claim? && Apply(ops[n], ApplyAll(t, ops[..n])).Some?
    ensures |ops| <= |Pending(t)| && Pending(ApplyAll(t, ops)) == Pending(t)[|ops|..]
    ensures forall n :: 0 <= n < |ops| ==> Picked(ops[n], ApplyAll(t, ops[..n])) == Some(Pending(t)[n])
  {
    hide Apply, Pending;
    if ops == [] {
      assert Pending(t)[0..] == Pending(t);
    } else {
      var front := ops[..|ops| - 1];
      var last := |ops| - 1;
      forall n | 0 <= n < |front| ensures front[n].Claim? && Apply(front[n], ApplyAll(t, front[..n])).Some? {
        assert front[..n] == ops[..n];
      }
      ClaimsPickInOrder(t, front);
      ClaimTakesTheFirst(ops[last].session, ApplyAll(t, front));
      forall n | 0 <= n < |ops| ensures Picked(ops[n], ApplyAll(t, ops[..n])) == Some(Pending(t)[n]) {
        if n < last { assert front[..n] == ops[..n] && front[n] == ops[n]; }
      }
    }
  }

  lemma {:induction false} PendingIsDistinct(t: Table)
    requires NamesUnique(t)
    ensures forall i, j :: 0 <= i < j < |Pending(t)| ==> Pending(t)[i] != Pending(t)[j]
  {
    if t != [] {
      PendingIsDistinct(t[..|t| - 1]);
      OnlyNames(t[..|t| - 1], t[|t| - 1].name);
    }
  }

  // ----- sessions ---------------------------------------------------------------------------

  /** The documented protocol: a session's status write is refused when the scenario's
      present status does not have the session in it, except that any scenario may be
      marked blocked. */
  predicate DocumentedRefusal(session: string, scenario: string, status: string, t: Table) {
    && !("blocked-needs-" <= status)
    && exists i :: 0 <= i < |t| && t[i].name == scenario
                   && !(t[i].entry.status.Some? && Contains(t[i].entry.status.value, session))
  }

  /** A write meets the protocol if it is refused whenever the protocol says so. */
  predicate Honours(session: string, scenario: string, status: string, evidence: string, t: Table) {
    DocumentedRefusal(session, scenario, status, t) ==> Apply(Status(scenario, status, evidence), t).None?
  }

  /** The code refuses a status write for one reason only, an unknown name. So a session's
      write meets the protocol if and only if the name is unknown, the session is in the
      scenario's present status, or the new status marks it blocked. */
  lemma SessionCheckExactly(session: string, scenario: string, status: string, evidence: string, t: Table)
    requires NamesUnique(t)
    ensures var i := SeekName(t, scenario, 0);
            Honours(session, scenario, status, evidence, t) <==>
              || i == |t|
              || (t[i].entry.status.Some? && Contains(t[i].entry.status.value, session))
              || "blocked-needs-" <= status
  {
    var i := SeekName(t, scenario, 0);
    if i < |t| { assert t[i].name == scenario; }
  }

  lemma ContainsItsFirst(text: string, pat: string)
    ensures Contains(text, pat) && pat != "" ==> pat[0] in text
  {
  }

  /** It does not always: session y passes a scenario that session x has claimed. */
  lemma SessionsWritePastEachOther()
    ensures var t := [Row("sc00", Entry(Some("claimed-x"), None, 0))];
            && NamesUnique(t) && DocumentedRefusal("y", "sc00", "passed-y", t)
            && Apply(Status("sc00", "passed-y", ""), t) == Some([Row("sc00", Entry(Some("passed-y"), None, 0))])
  {
    var e := Entry(Some("claimed-x"), None, 0);
    var t := [Row("sc00", e)];
    assert 'y' !in "claimed-x";
    ContainsItsFirst("claimed-x", "y");
    assert "passed-y"[0] == 'p' && "blocked-needs-"[0] == 'b';
    assert t[0].name == "sc00" && t[0].entry == e;
    assert SeekName(t, "sc00", 0) == 0;
    var r := Row("sc00", Entry(Some("passed-y"), None, 0));
    assert Apply(Status("sc00", "passed-y", ""), t) == Some(t[0 := r]) && t[0 := r] == [r];
  }
}
