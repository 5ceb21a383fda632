/**
  PowerShell literals as the dispatcher writes them and as a PowerShell parser whose
  only quote delimiter is the apostrophe reads them, one level deep and two.
  */
module Quoting {
  import opened Prelude

  const QUOTE: char := '\''

  /** Every apostrophe doubled. */
  function Doubled(value: string): string {
    if value == "" then ""
    else (if value[0] == QUOTE then [QUOTE, QUOTE] else [value[0]]) + Doubled(value[1..])
  }

  function PsLiteral(value: string): string { [QUOTE] + Doubled(value) + [QUOTE] }

  /** Reads the inside of a literal up to its closing apostrophe: the value and what follows. */
  function ReadQuoted(s: string): Option<(string, string)> {
    if s == "" then None
    else if s[0] != QUOTE then
      (match ReadQuoted(s[1..])
       case Some((value, rest)) => Some(([s[0]] + value, rest))
       case None => None)
    else if |s| >= 2 && s[1] == QUOTE then
      (match ReadQuoted(s[2..])
       case Some((value, rest)) => Some(([QUOTE] + value, rest))
       case None => None)
    else Some(("", s[1..]))
  }

  function ReadLiteral(s: string): Option<(string, string)> {
    if s != "" && s[0] == QUOTE then ReadQuoted(s[1..]) else None
  }

  lemma {:induction false} ReadsBack(value: string, rest: string)
    requires rest == "" || rest[0] != QUOTE
    ensures ReadQuoted(Doubled(value) + [QUOTE] + rest) == Some((value, rest))
    decreases |value|
  {
    var s := Doubled(value) + [QUOTE] + rest;
    if value == "" {
      assert s == [QUOTE] + rest;
    } else {
      var tail := Doubled(value[1..]) + [QUOTE] + rest;
      ReadsBack(value[1..], rest);
      assert [value[0]] + value[1..] == value;
      if value[0] == QUOTE {
        assert s == [QUOTE, QUOTE] + tail;
        assert s[2..] == tail;
      } else {
        assert s == [value[0]] + tail;
        assert s[1..] == tail;
      }
    }
  }

  /** Reading a literal followed by anything that does not start with an apostrophe gives
      back exactly the value and exactly what follows. */
  lemma LiteralRoundTrip(value: string, rest: string)
    requires rest == "" || rest[0] != QUOTE
    ensures ReadLiteral(PsLiteral(value) + rest) == Some((value, rest))
  {
    ReadsBack(value, rest);
    assert (PsLiteral(value) + rest)[1..] == Doubled(value) + [QUOTE] + rest;
  }

  /** Two values never share a literal. */
  lemma LiteralsDiffer(a: string, b: string)
    ensures PsLiteral(a) == PsLiteral(b) <==> a == b
  {
    LiteralRoundTrip(a, "");
    LiteralRoundTrip(b, "");
    assert PsLiteral(a) + "" == PsLiteral(a) && PsLiteral(b) + "" == PsLiteral(b);
  }

  // ----- commands of words and literals ----------------------------------------------------

  /** A command line as the dispatcher composes one: bare words and quoted values. */
  datatype Part = Bare(text: string) | Quoted(value: string)

  function Render(parts: seq<Part>): string {
    if parts == [] then ""
    else (match parts[0] case Bare(t) => t case Quoted(v) => PsLiteral(v)) + Render(parts[1..])
  }

  predicate NoQuote(s: string) { QUOTE !in s }

  /** Bare words hold no apostrophe, none is empty, and words and values alternate; so a
      literal is never followed by an apostrophe. */
  predicate Composed(parts: seq<Part>) {
    && (forall i :: 0 <= i < |parts| && parts[i].Bare? ==> NoQuote(parts[i].text) && parts[i].text != "")
    && (forall i :: 0 <= i < |parts| - 1 ==> parts[i].Bare? != parts[i + 1].Bare?)
  }

  /** The longest stretch without an apostrophe, and what follows. */
  function BareEnd(s: string): (n: nat)
    ensures n <= |s| && NoQuote(s[..n]) && (n < |s| ==> s[n] == QUOTE)
  {
    if s == "" || s[0] == QUOTE then 0
    else
      var n := BareEnd(s[1..]);
      assert s[..n + 1] == [s[0]] + s[1..][..n];
      n + 1
  }

  lemma ReadShortens(s: string)
    ensures ReadQuoted(s).Some? ==> |ReadQuoted(s).value.1| < |s|
  {
  }

  /** Reads a command line back into words and values; None if a literal never closes. */
  function ReadParts(s: string): Option<seq<Part>>
    decreases |s|
  {
    if s == "" then Some([])
    else if s[0] == QUOTE then
      match ReadQuoted(s[1..])
      case None => None
      case Some((value, rest)) =>
        ReadShortens(s[1..]);
        (match ReadParts(rest)
         case Some(more) => Some([Quoted(value)] + more)
         case None => None)
    else
      var n := BareEnd(s);
      match ReadParts(s[n..])
      case Some(more) => Some([Bare(s[..n])] + more)
      case None => None
  }

  lemma {:induction false} BareEndIs(a: string, rest: string)
    requires NoQuote(a) && (rest == "" || rest[0] == QUOTE)
    ensures BareEnd(a + rest) == |a|
    decreases |a|
  {
    if a != "" {
      BareEndIs(a[1..], rest);
      assert (a + rest)[1..] == a[1..] + rest;
      assert a[0] in a;
    } else {
      assert a + rest == rest;
    }
  }

  /** Whatever is composed of words and literals is read back part by part. */
  lemma {:induction false} CommandRoundTrip(parts: seq<Part>)
    requires Composed(parts)
    ensures ReadParts(Render(parts)) == Some(parts)
    decreases |parts|
  {
    if parts != [] {
      var tail := parts[1..];
      assert Composed(tail) by {
        forall i | 0 <= i < |tail| - 1 ensures tail[i].Bare? != tail[i + 1].Bare? {
          assert parts[i + 1].Bare? != parts[i + 2].Bare?;
        }
      }
      CommandRoundTrip(tail);
      StartsAs(tail);
      assert tail != [] ==> parts[0].Bare? != parts[1].Bare?;
      match parts[0]
      case Bare(t) =>
        var s := t + Render(tail);
        BareEndIs(t, Render(tail));
        assert Render(parts) == s && s[|t|..] == Render(tail) && s[..|t|] == t;
        assert t[0] in t && s[0] == t[0];
        assert ReadParts(s) == Some([Bare(t)] + tail) && [Bare(t)] + tail == parts;
      case Quoted(v) =>
        LiteralRoundTrip(v, Render(tail));
        assert Render(parts) == PsLiteral(v) + Render(tail);
        assert ReadParts(Render(parts)) == Some([Quoted(v)] + tail) && [Quoted(v)] + tail == parts;
    }
  }

  lemma StartsAs(parts: seq<Part>)
    requires Composed(parts)
    ensures parts == [] ==> Render(parts) == ""
    ensures parts != [] ==> Render(parts) != "" && (Render(parts)[0] == QUOTE <==> parts[0].Quoted?)
  {
    if parts != [] && parts[0].Bare? {
      assert parts[0].text[0] in parts[0].text;
    }
  }

  // ----- the dispatcher's commands --------------------------------------------------------------

  datatype Identity = Identity(script: string, workdir: string, runId: string, host: string, pid: string, token: string)

  /** The lock script called on behalf of the lease's owner, with a command to guard. */
  function Invocation(l: Identity, command: string): seq<Part> { Pairs(InvocationPairs(l, command)) }

  function InvocationPairs(l: Identity, command: string): seq<(string, string)> {
    [("& ", l.script), (" -Action Invoke -Workdir ", l.workdir), (" -RunId ", l.runId),
     (" -OwnerHost ", l.host), (" -OwnerPid ", l.pid), (" -OwnerToken ", l.token), (" -Command ", command)]
  }

  /** A command line that is words and a value, words and a value, and so on. */
  function Pairs(ps: seq<(string, string)>): seq<Part> {
    if ps == [] then [] else [Bare(ps[0].0), Quoted(ps[0].1)] + Pairs(ps[1..])
  }

  predicate PlainPairs(ps: seq<(string, string)>) {
    forall i :: 0 <= i < |ps| ==> ps[i].0 != "" && NoQuote(ps[i].0)
  }

  lemma {:induction false} PairsCompose(ps: seq<(string, string)>, end: seq<Part>)
    requires PlainPairs(ps)
    requires Composed(end) && (end == [] || end[0].Bare?)
    ensures Composed(Pairs(ps) + end) && (ps == [] || (Pairs(ps) + end)[0].Bare?)
  {
    if ps == [] {
      assert Pairs(ps) + end == end;
    } else {
      PairsCompose(ps[1..], end);
      var tail := Pairs(ps[1..]) + end;
      var all := Pairs(ps) + end;
      assert all == [Bare(ps[0].0), Quoted(ps[0].1)] + tail;
      forall i | 0 <= i < |all| - 1 ensures all[i].Bare? != all[i + 1].Bare? {
        if i >= 2 { assert tail[i - 2].Bare? != tail[i - 1].Bare?; }
      }
    }
  }

  /** vm_lock_command: the command itself without a lease, wrapped in the lock script with
      one. A lease with a missing variable is refused earlier. */
  function LockCommand(lease: Option<Identity>, command: string): string {
    match lease
    case None => command
    case Some(l) => Render(Invocation(l, command))
  }

  lemma NothingComposed()
    ensures Composed([])
  {
  }

  lemma InvocationIsPlain(l: Identity, command: string)
    ensures Composed(Invocation(l, command))
  {
    hide Pairs, Composed;
    var ps := InvocationPairs(l, command);
    NothingComposed();
    PairsCompose(ps, []);
    assert Pairs(ps) + [] == Pairs(ps);
  }

  /** Nested quoting round trip: whatever command is wrapped, an expanded op template with
      any quotes of its own included, the wrapped line reads back as the lock script with
      the run's own identity and, as its last value, that very command. */
  lemma NestedRoundTrip(l: Identity, command: string)
    ensures ReadParts(LockCommand(Some(l), command)) == Some(Invocation(l, command))
    ensures Guarded(LockCommand(Some(l), command)) == Some(command)
  {
    InvocationIsPlain(l, command);
    CommandRoundTrip(Invocation(l, command));
    LastValue(InvocationPairs(l, command));
  }

  /** The values a command line hands over, in order. */
  function Values(parts: seq<Part>): seq<string> {
    if parts == [] then []
    else (if parts[0].Quoted? then [parts[0].value] else []) + Values(parts[1..])
  }

  lemma {:induction false} PairValues(ps: seq<(string, string)>, end: seq<Part>)
    ensures Values(Pairs(ps) + end) == seq(|ps|, i requires 0 <= i < |ps| => ps[i].1) + Values(end)
  {
    if ps == [] {
      assert Pairs(ps) + end == end;
    } else {
      PairValues(ps[1..], end);
      var tail := Pairs(ps[1..]) + end;
      assert Pairs(ps) + end == [Bare(ps[0].0)] + ([Quoted(ps[0].1)] + tail);
      assert ([Quoted(ps[0].1)] + tail)[1..] == tail;
      assert (Pairs(ps) + end)[1..] == [Quoted(ps[0].1)] + tail;
    }
  }

  function CopyCommand(from: string, to: string): seq<Part> {
    Pairs([("Copy-Item -LiteralPath ", from), (" -Destination ", to)]) + [Bare(" -Recurse -Force")]
  }

  function MoveCommand(from: string, to: string): seq<Part> {
    Pairs([("Move-Item -LiteralPath ", from), (" -Destination ", to)]) + [Bare(" -Force")]
  }

  function RemoveCommand(path: string): seq<Part> {
    Pairs([("Remove-Item -LiteralPath ", path)]) + [Bare(" -Recurse -Force")]
  }

  /** The script's: make the directory, then move. */
  function PlaceCommand(destDir: string, stage: string, dest: string): seq<Part> {
    Pairs([("New-Item -ItemType Directory -Path ", destDir), (" -Force | Out-Null; Move-Item -LiteralPath ", stage),
           (" -Destination ", dest)]) + [Bare(" -Force")]
  }

  function StagedPairs(guestPath: string, vmPath: string, stage: string): seq<(string, string)> {
    [("$ErrorActionPreference = ", "Stop"), ("; Copy-Item -LiteralPath ", guestPath), (" -Destination ", stage),
     (" -Recurse -Force; Move-Item -LiteralPath ", stage), (" -Destination ", vmPath)]
  }

  function DirectPairs(from: string, to: string): seq<(string, string)> {
    [("$ErrorActionPreference = ", "Stop"), ("; Copy-Item -LiteralPath ", from), (" -Destination ", to)]
  }

  /** shared_ship_command: the copy through the share, staged into the VM when a lease is held. */
  function SharedShip(toVm: bool, guestPath: string, vmPath: string, stage: Option<string>): seq<Part> {
    if toVm && stage.Some? then Pairs(StagedPairs(guestPath, vmPath, stage.value)) + [Bare(" -Force")]
    else if toVm then Pairs(DirectPairs(guestPath, vmPath)) + [Bare(" -Recurse -Force")]
    else Pairs(DirectPairs(vmPath, guestPath)) + [Bare(" -Recurse -Force")]
  }

  lemma TransferWords()
    ensures NoQuote("Copy-Item -LiteralPath ") && NoQuote("Move-Item -LiteralPath ") && NoQuote("Remove-Item -LiteralPath ")
  {
  }

  lemma PlaceWords()
    ensures NoQuote("New-Item -ItemType Directory -Path ") && NoQuote(" -Force | Out-Null; Move-Item -LiteralPath ")
  {
  }

  lemma Ending(ps: seq<(string, string)>, word: string)
    requires PlainPairs(ps) && word != "" && NoQuote(word)
    ensures Composed(Pairs(ps) + [Bare(word)])
  {
    LastWord(word);
    PairsCompose(ps, [Bare(word)]);
  }

  /** The dispatcher's and the script's single commands are words and values. */
  lemma CommandsCompose(from: string, to: string, destDir: string)
    ensures Composed(CopyCommand(from, to)) && Composed(MoveCommand(from, to)) && Composed(RemoveCommand(from))
    ensures Composed(PlaceCommand(destDir, from, to)) && Composed([Bare("$null = 0")])
  {
    hide Pairs, NoQuote, Composed;
    TransferWords();
    PlaceWords();
    MoveWords();
    ForceWords();
    assert NoQuote("$null = 0") by { ProbeWord(); }
    LastWord("$null = 0");
    Ending([("Copy-Item -LiteralPath ", from), (" -Destination ", to)], " -Recurse -Force");
    Ending([("Move-Item -LiteralPath ", from), (" -Destination ", to)], " -Force");
    Ending([("Remove-Item -LiteralPath ", from)], " -Recurse -Force");
    Ending([("New-Item -ItemType Directory -Path ", destDir), (" -Force | Out-Null; Move-Item -LiteralPath ", from),
            (" -Destination ", to)], " -Force");
  }

  lemma ProbeWord()
    ensures NoQuote("$null = 0")
  {
  }

  lemma StagedPlain(guestPath: string, vmPath: string, stage: string)
    ensures PlainPairs(StagedPairs(guestPath, vmPath, stage))
  {
    hide NoQuote;
    var ps := StagedPairs(guestPath, vmPath, stage);
    assert NoQuote(ps[0].0) && NoQuote(ps[1].0) && NoQuote(ps[2].0) && NoQuote(ps[3].0) && NoQuote(ps[4].0) by {
      StagedWords();
    }
  }

  lemma StagedWords()
    ensures NoQuote("$ErrorActionPreference = ") && NoQuote("; Copy-Item -LiteralPath ") && NoQuote(" -Destination ")
    ensures NoQuote(" -Recurse -Force; Move-Item -LiteralPath ")
  {
    hide NoQuote;
    CopyWords();
    MoveWords();
  }

  lemma CopyWords()
    ensures NoQuote("$ErrorActionPreference = ") && NoQuote("; Copy-Item -LiteralPath ")
  {
  }

  lemma MoveWords()
    ensures NoQuote(" -Destination ") && NoQuote(" -Recurse -Force; Move-Item -LiteralPath ")
  {
  }

  lemma LastWord(word: string)
    requires word != "" && NoQuote(word)
    ensures Composed([Bare(word)])
  {
  }

  lemma ForceWords()
    ensures NoQuote(" -Force") && NoQuote(" -Recurse -Force")
  {
  }

  lemma StagedShip(guestPath: string, vmPath: string, stage: string)
    ensures Composed(Pairs(StagedPairs(guestPath, vmPath, stage)) + [Bare(" -Force")])
    ensures Values(Pairs(StagedPairs(guestPath, vmPath, stage)) + [Bare(" -Force")]) == ["Stop", guestPath, stage, stage, vmPath]
  {
    hide Values, Pairs, NoQuote, PlainPairs, Composed;
    var ps := StagedPairs(guestPath, vmPath, stage);
    StagedPlain(guestPath, vmPath, stage);
    ForceWords();
    LastWord(" -Force");
    PairsCompose(ps, [Bare(" -Force")]);
    PairValues(ps, [Bare(" -Force")]);
    NoValues(" -Force");
  }

  lemma DirectPlain(from: string, to: string)
    ensures PlainPairs(DirectPairs(from, to))
  {
    hide NoQuote;
    StagedWords();
  }

  lemma DirectShip(from: string, to: string)
    ensures Composed(Pairs(DirectPairs(from, to)) + [Bare(" -Recurse -Force")])
    ensures Values(Pairs(DirectPairs(from, to)) + [Bare(" -Recurse -Force")]) == ["Stop", from, to]
  {
    hide Values, Pairs, NoQuote, PlainPairs, Composed;
    var ps := DirectPairs(from, to);
    DirectPlain(from, to);
    ForceWords();
    LastWord(" -Recurse -Force");
    PairsCompose(ps, [Bare(" -Recurse -Force")]);
    PairValues(ps, [Bare(" -Recurse -Force")]);
    NoValues(" -Recurse -Force");
  }

  lemma NoValues(word: string)
    ensures Values([Bare(word)]) == []
  {
    assert [Bare(word)][1..] == [];
  }

  lemma {:induction false} LastValue(ps: seq<(string, string)>)
    requires ps != []
    ensures Pairs(ps) != [] && Pairs(ps)[|Pairs(ps)| - 1] == Quoted(ps[|ps| - 1].1)
  {
    if |ps| > 1 { LastValue(ps[1..]); }
  }

  /** The command inside a wrapped command line: its last value. */
  function Guarded(line: string): Option<string> {
    match ReadParts(line)
    case Some(parts) =>
      if parts != [] && parts[|parts| - 1].Quoted? then Some(parts[|parts| - 1].value) else None
    case None => None
  }

  /** A ship through the share, wrapped as the Invoke argument and read back at both levels,
      names exactly the paths it was built from, whatever characters they hold: staged, it
      copies the shared file to the stage and moves that stage to the destination. */
  lemma SharedShipDecodes(l: Identity, toVm: bool, guestPath: string, vmPath: string, stage: Option<string>)
    ensures var command := Render(SharedShip(toVm, guestPath, vmPath, stage));
            && Guarded(LockCommand(Some(l), command)) == Some(command)
            && ReadParts(command) == Some(SharedShip(toVm, guestPath, vmPath, stage))
            && Values(SharedShip(toVm, guestPath, vmPath, stage)) ==
               (if toVm && stage.Some? then ["Stop", guestPath, stage.value, stage.value, vmPath]
                else if toVm then ["Stop", guestPath, vmPath] else ["Stop", vmPath, guestPath])
  {
    var inner := SharedShip(toVm, guestPath, vmPath, stage);
    if toVm && stage.Some? {
      StagedShip(guestPath, vmPath, stage.value);
    } else if toVm {
      DirectShip(guestPath, vmPath);
    } else {
      DirectShip(vmPath, guestPath);
    }
    hide Pairs, Values, Composed;
    NestedRoundTrip(l, Render(inner));
    CommandRoundTrip(inner);
  }
}
