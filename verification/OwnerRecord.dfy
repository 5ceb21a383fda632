/**
  owner.json: the record of who owns the lock directory, how it is read back, and the
  files by which it is replaced. A JSON value is cast by PowerShell when it is used;
  the casts are parameters, taken to give back what the script itself wrote.
  */
module OwnerRecord {
  import opened Prelude
  import opened Paths
  import opened LeaseLedger

  datatype Value = Null | Text(s: string) | Number(n: int) | Time(at: Instant)

  type Record = map<string, Value>

  /** A file as somebody may find it: a complete JSON document, or one still being written. */
  datatype Document = Whole(record: Record) | Torn

  /** The files of the lock directory itself; a number stands for a GUID. */
  datatype Entry = OwnerJson | Scratch(guid: nat) | Backup(guid: nat)

  type Entries = map<Entry, Document>

  datatype Casts = Casts(time: Value -> Option<Instant>, whole: Value -> Option<int>, text: Value -> string)

  ghost predicate Faithful(c: Casts) {
    && (forall t :: c.time(Time(t)) == Some(t))
    && (forall n :: c.whole(Number(n)) == Some(n))
    && (forall s :: c.text(Text(s)) == s)
  }

  const RUN_ID := "run_id"
  const HOST := "host"
  const PID := "pid"
  const TOKEN := "token"
  const ACQUIRED := "acquired_utc"
  const RENEWED := "renewed_utc"
  const SECONDS := "lease_seconds"

  const Required: seq<string> := [RUN_ID, HOST, PID, TOKEN, RENEWED, SECONDS]

  const MAX_SECONDS := 86400

  predicate Filled(r: Record, field: string) { field in r && r[field] != Null && r[field] != Text("") }

  /** The lease a record stands for, unless a field is missing, empty, of the wrong kind or
      out of range. */
  function LeaseIn(c: Casts, r: Record): Option<Lease> {
    if exists i :: 0 <= i < |Required| && !Filled(r, Required[i]) then None
    else
      assert Filled(r, Required[0]) && Filled(r, Required[3]) && Filled(r, Required[4]) && Filled(r, Required[5]);
      match (c.time(r[RENEWED]), c.whole(r[SECONDS]))
      case (Some(stamp), Some(seconds)) =>
        if 1 <= seconds <= MAX_SECONDS && ValidToken(c.text(r[TOKEN])) then
          Some(Lease(c.text(r[TOKEN]), c.text(r[RUN_ID]), stamp, seconds))
        else None
      case _ => None
  }

  /** Nobody but the script writes owner.json, so a token found there is one it accepts. */
  predicate OwnTokens(c: Casts, files: Entries) {
    OwnerJson in files && files[OwnerJson].Whole? && Filled(files[OwnerJson].record, TOKEN) ==>
      ValidToken(c.text(files[OwnerJson].record[TOKEN]))
  }

  /** The lease of a lock directory with these files. */
  function OwnerIn(c: Casts, files: Entries): Option<Lease> {
    if OwnerJson in files && files[OwnerJson].Whole? then LeaseIn(c, files[OwnerJson].record) else None
  }

  function NewRecord(token: Token, runId: RunId, host: string, pid: string, seconds: int, now: Instant): Record {
    map[RUN_ID := Text(runId), HOST := Text(host), PID := Text(pid), TOKEN := Text(token),
        ACQUIRED := Time(now), RENEWED := Time(now), SECONDS := Number(seconds)]
  }

  function Renewed(r: Record, now: Instant): Record { r[RENEWED := Time(now)] }

  function OwnerFile(files: Entries): Option<Document> {
    if OwnerJson in files then Some(files[OwnerJson]) else None
  }

  /** On the way from `was` to a directory whose owner.json is `value`: it is there as it was
      or complete, and no other document but scratch and backup files has changed. */
  predicate Complete(was: Entries, value: Record, now: Entries) {
    && (OwnerFile(now) == OwnerFile(was) || OwnerFile(now) == Some(Whole(value)))
    && forall e :: e in was && e != OwnerJson ==> e in now && now[e] == was[e]
  }

  /** From `was` to `now` owner.json got a new stamp and nothing else has changed. */
  predicate OnlyRestamped(was: Entries, now: Entries, at: Instant) {
    && OwnerJson in was && was[OwnerJson].Whole?
    && now == was[OwnerJson := Whole(Renewed(was[OwnerJson].record, at))]
  }

  /** The script's checks of its arguments are exactly what makes the record it writes one
      that it can read. */
  lemma NewRecordReads(c: Casts, token: Token, runId: RunId, host: string, pid: string, seconds: int, now: Instant)
    requires Faithful(c)
    ensures var read := LeaseIn(c, NewRecord(token, runId, host, pid, seconds, now));
            if runId != "" && host != "" && pid != "" && 1 <= seconds <= 86400
            then read == Some(Lease(token, runId, now, seconds)) else read.None?
  {
    var r := NewRecord(token, runId, host, pid, seconds, now);
    assert Filled(r, Required[0]) == (runId != "") && Filled(r, Required[1]) == (host != "");
    assert Filled(r, Required[2]) == (pid != "") && Filled(r, Required[3]);
    assert Filled(r, Required[4]) && Filled(r, Required[5]);
  }

  /** A record is an owner only with all of six fields, none null or empty, a time stamp that
      is a time, and a lease of one second to a day. */
  lemma SixFieldsNeeded(c: Casts, r: Record)
    requires LeaseIn(c, r).Some?
    ensures forall field :: field in {"run_id", "host", "pid", "token", "renewed_utc", "lease_seconds"}
                            ==> field in r && r[field] != Null && r[field] != Text("")
    ensures var l := LeaseIn(c, r).value;
            && c.time(r["renewed_utc"]) == Some(l.stamp) && c.whole(r["lease_seconds"]) == Some(l.seconds)
            && 1 <= l.seconds <= 86400 && c.text(r["token"]) == l.token && c.text(r["run_id"]) == l.runId
  {
    assert Filled(r, Required[0]) && Filled(r, Required[1]) && Filled(r, Required[2]);
    assert Filled(r, Required[3]) && Filled(r, Required[4]) && Filled(r, Required[5]);
  }

  /** A renewal that is written over a readable record is readable, and moves the stamp alone. */
  lemma RenewedReads(c: Casts, r: Record, now: Instant)
    requires Faithful(c) && LeaseIn(c, r).Some?
    ensures LeaseIn(c, Renewed(r, now)) == Some(LeaseIn(c, r).value.(stamp := now))
    ensures forall field :: field != RENEWED ==> (field in Renewed(r, now) <==> field in r) && (field in r ==> Renewed(r, now)[field] == r[field])
  {
    forall i | 0 <= i < |Required| ensures Filled(Renewed(r, now), Required[i]) { assert Filled(r, Required[i]); }
  }
}
