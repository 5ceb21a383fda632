/**
  What a command line says, read off its words without reference to the functions that
  compose it: which lock action it orders and with which arguments, and which files it
  copies, moves and removes.
*/
module CommandReading {
  import opened Prelude
  import opened LeaseLedger
  import opened Quoting

  predicate EndsWith(text: string, end: string) { |end| <= |text| && text[|text| - |end|..] == end }

  // ----- lock orders ----------------------------------------------------------------------

  /** The value handed over by an option: the one after the bare word that ends with it. */
  function ArgumentAfter(parts: seq<Part>, option: string): Option<string> {
    if |parts| < 2 then None
    else if parts[0].Bare? && parts[1].Quoted? && EndsWith(parts[0].text, " -" + option + " ") then Some(parts[1].value)
    else ArgumentAfter(parts[1..], option)
  }

  function ActionName(a: Action): string {
    match a
    case Acquire => "Acquire"
    case Renew => "Renew"
    case Verify => "Verify"
    case Invoke => "Invoke"
    case Release => "Release"
  }

  predicate OrdersAction(parts: seq<Part>, a: Action) {
    exists i :: 0 <= i < |parts| && parts[i].Bare? && " -Action " + ActionName(a) + " " <= parts[i].text
  }

  /** A call of the lock script to guard a command. */
  datatype Order = Order(script: string, workdir: string, runId: string, host: string, pid: string, token: string, command: string)

  /** The order a line gives, if it calls a script with `-Action Invoke` and all its options. */
  function OrderIn(parts: seq<Part>): Option<Order> {
    if |parts| < 2 || parts[0] != Bare("& ") || !parts[1].Quoted? || !OrdersAction(parts, Invoke) then None
    else
      match (ArgumentAfter(parts, "Workdir"), ArgumentAfter(parts, "RunId"), ArgumentAfter(parts, "OwnerHost"),
             ArgumentAfter(parts, "OwnerPid"), ArgumentAfter(parts, "OwnerToken"), ArgumentAfter(parts, "Command"))
      case (Some(w), Some(r), Some(h), Some(p), Some(t), Some(c)) => Some(Order(parts[1].value, w, r, h, p, t, c))
      case _ => None
  }

  function ReadOrder(line: string): Option<Order> {
    match ReadParts(line)
    case Some(parts) => OrderIn(parts)
    case None => None
  }

  /** The last two letters of its option tell every word of the call from the others. */
  lemma SameEnd(text: string, end: string)
    requires |text| >= 3 && |end| >= 3
    ensures EndsWith(text, end) ==> text[|text| - 2] == end[|end| - 2] && text[|text| - 3] == end[|end| - 3]
  {
    if EndsWith(text, end) {
      var tail := text[|text| - |end|..];
      assert tail[|end| - 2] == text[|text| - 2] && tail[|end| - 3] == text[|text| - 3];
    }
  }

  lemma {:induction false} ArgumentIn(ps: seq<(string, string)>, option: string, k: nat)
    requires k < |ps| && EndsWith(ps[k].0, " -" + option + " ")
    requires forall j :: 0 <= j < k ==> !EndsWith(ps[j].0, " -" + option + " ")
    ensures ArgumentAfter(Pairs(ps), option) == Some(ps[k].1)
    decreases k
  {
    hide EndsWith;
    var rest := Pairs(ps[1..]);
    assert Pairs(ps) == [Bare(ps[0].0), Quoted(ps[0].1)] + rest;
    if k > 0 {
      ArgumentIn(ps[1..], option, k - 1);
      assert Pairs(ps)[1..] == [Quoted(ps[0].1)] + rest && ([Quoted(ps[0].1)] + rest)[1..] == rest;
      assert rest != [];
    }
  }

  /** The options of the call, each where its value stands among the values. */
  const Options: seq<string> := ["", "Workdir", "RunId", "OwnerHost", "OwnerPid", "OwnerToken", "Command"]

  const WorkdirWord := " -Action Invoke -Workdir "

  lemma WordEnds(text: string, option: string, a: char, b: char)
    requires |text| >= 3 && |option| >= 2 && option[|option| - 2] == a && option[|option| - 1] == b
    ensures EndsWith(text, " -" + option + " ") ==> text[|text| - 3] == a && text[|text| - 2] == b
  {
    var end := " -" + option + " ";
    assert end[|end| - 2] == b && end[|end| - 3] == a;
    SameEnd(text, end);
  }

  lemma TooShort(text: string, end: string)
    requires |text| < |end|
    ensures !EndsWith(text, end)
  {
  }

  /** No word of the call but its own ends with an option. */
  lemma OtherWords(l: Identity, command: string, option: string, k: nat)
    requires 1 <= k <= 6 && |option| >= 2
    requires option == Options[k]
    ensures forall j :: 0 <= j < k ==> !EndsWith(InvocationPairs(l, command)[j].0, " -" + option + " ")
  {
    hide EndsWith;
    var ps := InvocationPairs(l, command);
    var a, b := option[|option| - 2], option[|option| - 1];
    TooShort(ps[0].0, " -" + option + " ");
    WordEnds(ps[1].0, option, a, b);
    WordEnds(ps[2].0, option, a, b);
    WordEnds(ps[3].0, option, a, b);
    WordEnds(ps[4].0, option, a, b);
    WordEnds(ps[5].0, option, a, b);
  }

  lemma OwnWord(l: Identity, command: string, option: string, k: nat)
    requires 1 <= k <= 6 && option == Options[k]
    ensures EndsWith(InvocationPairs(l, command)[k].0, " -" + option + " ")
  {
    hide EndsWith;
    WordsOfOptions();
    var end := " -" + option + " ";
    var front := if k == 1 then " -Action Invoke" else "";
    assert InvocationPairs(l, command)[k].0 == front + end by { if k > 1 { assert "" + end == end; } }
    Ended(front, end);
  }

  lemma Ended(front: string, end: string)
    ensures EndsWith(front + end, end)
  {
  }

  lemma WordsOfOptions()
    ensures " -Action Invoke" + (" -" + "Workdir" + " ") == WorkdirWord
    ensures " -" + "RunId" + " " == " -RunId "
    ensures " -" + "OwnerHost" + " " == " -OwnerHost "
    ensures " -" + "OwnerPid" + " " == " -OwnerPid "
    ensures " -" + "OwnerToken" + " " == " -OwnerToken "
    ensures " -" + "Command" + " " == " -Command "
  {
  }

  lemma OptionReads(l: Identity, command: string, option: string, k: nat)
    requires 1 <= k <= 6 && option == Options[k]
    ensures ArgumentAfter(Invocation(l, command), option) == Some(InvocationPairs(l, command)[k].1)
  {
    OtherWords(l, command, option, k);
    OwnWord(l, command, option, k);
    hide EndsWith, InvocationPairs;
    ArgumentIn(InvocationPairs(l, command), option, k);
  }

  /** Whoever reads the wrapped line finds a call of the lock script that orders an Invoke,
      each option followed by the value it is named for, whatever characters they hold.
      Without a lease the command goes as it is. */
  lemma LockCommandOrders(l: Identity, command: string)
    ensures LockCommand(None, command) == command
    ensures ReadOrder(LockCommand(Some(l), command))
            == Some(Order(l.script, l.workdir, l.runId, l.host, l.pid, l.token, command))
  {
    hide OrderIn, Invocation, Guarded, ReadParts;
    NestedRoundTrip(l, command);
    CallOrders(l, command);
  }

  lemma CallOrders(l: Identity, command: string)
    ensures OrderIn(Invocation(l, command)) == Some(Order(l.script, l.workdir, l.runId, l.host, l.pid, l.token, command))
  {
    hide ArgumentAfter, OrdersAction, Invocation;
    OptionReads(l, command, "Workdir", 1);
    OptionReads(l, command, "RunId", 2);
    OptionReads(l, command, "OwnerHost", 3);
    OptionReads(l, command, "OwnerPid", 4);
    OptionReads(l, command, "OwnerToken", 5);
    OptionReads(l, command, "Command", 6);
    CallsInvoke(l, command);
  }

  lemma CallsInvoke(l: Identity, command: string)
    ensures var parts := Invocation(l, command);
            |parts| >= 3 && parts[0] == Bare("& ") && parts[1] == Quoted(l.script) && OrdersAction(parts, Invoke)
  {
    var ps := InvocationPairs(l, command);
    assert Pairs(ps) == [Bare(ps[0].0), Quoted(ps[0].1)] + Pairs(ps[1..]);
    assert Pairs(ps[1..])[0] == Bare(ps[1].0);
    assert WorkdirWord == " -Action Invoke " + "-Workdir ";
    assert " -Action " + ActionName(Invoke) + " " == " -Action Invoke ";
    assert Pairs(ps)[2].Bare?;
  }

  // ----- what a line does to files ----------------------------------------------------------

  /** `whole` is the -Recurse that takes a directory with all it holds, `over` the -Force that
      replaces what is there already. */
  datatype Effect =
    | Copies(from: string, to: string, whole: bool)
    | Moves(from: string, to: string, over: bool)
    | Removes(path: string, whole: bool)
    | Makes(path: string)

  datatype Cmdlet = CopyItem | MoveItem | RemoveItem | NewDirectory

  /** The cmdlet a bare word ends with, when the next thing on the line is its path. */
  function CmdletAt(text: string): Option<Cmdlet> {
    if EndsWith(text, "Copy-Item -LiteralPath ") then Some(CopyItem)
    else if EndsWith(text, "Move-Item -LiteralPath ") then Some(MoveItem)
    else if EndsWith(text, "Remove-Item -LiteralPath ") then Some(RemoveItem)
    else if EndsWith(text, "New-Item -ItemType Directory -Path ") then Some(NewDirectory)
    else None
  }

  /** The destination of the cmdlet whose path is at the head of these parts. */
  function DestinationIn(parts: seq<Part>): Option<string> {
    if |parts| >= 3 && parts[1] == Bare(" -Destination ") && parts[2].Quoted? then Some(parts[2].value) else None
  }

  /** The switches right after a cmdlet's last value. */
  predicate Switched(rest: seq<Part>, switches: string) {
    rest != [] && rest[0].Bare? && switches <= rest[0].text
  }

  /** What a line does, in its order. */
  function Effects(parts: seq<Part>): seq<Effect> {
    if |parts| < 2 then []
    else if parts[0].Quoted? || parts[1].Bare? then Effects(parts[1..])
    else
      var path := parts[1].value;
      match (CmdletAt(parts[0].text), DestinationIn(parts[1..]))
      case (Some(CopyItem), Some(to)) => [Copies(path, to, Switched(parts[4..], " -Recurse -Force"))] + Effects(parts[2..])
      case (Some(MoveItem), Some(to)) => [Moves(path, to, Switched(parts[4..], " -Force"))] + Effects(parts[2..])
      case (Some(RemoveItem), _) => [Removes(path, Switched(parts[2..], " -Recurse -Force"))] + Effects(parts[2..])
      case (Some(NewDirectory), _) => [Makes(path)] + Effects(parts[2..])
      case _ => Effects(parts[2..])
  }

  /** What a command line does; None if it does not read as words and values. */
  function LineEffects(line: string): Option<seq<Effect>> {
    match ReadParts(line)
    case Some(parts) => Some(Effects(parts))
    case None => None
  }

  /** A word that ends with the first letter of its cmdlet in another place ends with no other. */
  lemma EndLetter(text: string, end: string, n: nat)
    requires 1 <= n <= |text| && n <= |end|
    ensures EndsWith(text, end) ==> text[|text| - n] == end[|end| - n]
  {
    if EndsWith(text, end) {
      var tail := text[|text| - |end|..];
      assert tail[|end| - n] == text[|text| - n];
    }
  }

  lemma CopyWord(front: string)
    ensures CmdletAt(front + "Copy-Item -LiteralPath ") == Some(CopyItem)
  {
    hide EndsWith;
    Ended(front, "Copy-Item -LiteralPath ");
  }

  lemma MoveWord(front: string)
    ensures CmdletAt(front + "Move-Item -LiteralPath ") == Some(MoveItem)
  {
    hide EndsWith;
    var text := front + "Move-Item -LiteralPath ";
    Ended(front, "Move-Item -LiteralPath ");
    assert text[|text| - 20] == 'e';
    EndLetter(text, "Copy-Item -LiteralPath ", 20);
  }

  lemma RemoveWord()
    ensures CmdletAt("Remove-Item -LiteralPath ") == Some(RemoveItem)
  {
    hide EndsWith;
    var text := "Remove-Item -LiteralPath ";
    Ended("", text);
    assert "" + text == text;
    EndLetter(text, "Copy-Item -LiteralPath ", 20);
    EndLetter(text, "Move-Item -LiteralPath ", 23);
  }

  lemma DirectoryWord()
    ensures CmdletAt("New-Item -ItemType Directory -Path ") == Some(NewDirectory)
  {
    hide EndsWith;
    var text := "New-Item -ItemType Directory -Path ";
    Ended("", text);
    assert "" + text == text;
    EndLetter(text, "Copy-Item -LiteralPath ", 6);
    EndLetter(text, "Move-Item -LiteralPath ", 6);
    EndLetter(text, "Remove-Item -LiteralPath ", 6);
  }

  lemma StopWord()
    ensures CmdletAt("$ErrorActionPreference = ") == None
  {
    hide EndsWith;
    var text := "$ErrorActionPreference = ";
    EndLetter(text, "Copy-Item -LiteralPath ", 2);
    EndLetter(text, "Move-Item -LiteralPath ", 2);
    EndLetter(text, "Remove-Item -LiteralPath ", 2);
    EndLetter(text, "New-Item -ItemType Directory -Path ", 2);
  }

  lemma OnWithWord(word: string, value: string, rest: seq<Part>)
    ensures var all := [Bare(word), Quoted(value)] + rest;
            match CmdletAt(word)
            case None => Effects(all) == Effects(rest)
            case Some(RemoveItem) => Effects(all) == [Removes(value, Switched(rest, " -Recurse -Force"))] + Effects(rest)
            case Some(NewDirectory) => Effects(all) == [Makes(value)] + Effects(rest)
            case _ => true
  {
    hide CmdletAt;
    assert ([Bare(word), Quoted(value)] + rest)[2..] == rest;
  }

  lemma OnWithDestination(word: string, from: string, to: string, rest: seq<Part>)
    requires (CmdletAt(word) == Some(CopyItem) || CmdletAt(word) == Some(MoveItem)) && CmdletAt(" -Destination ") == None
    ensures Effects([Bare(word), Quoted(from), Bare(" -Destination "), Quoted(to)] + rest)
            == [if CmdletAt(word) == Some(CopyItem) then Copies(from, to, Switched(rest, " -Recurse -Force"))
                else Moves(from, to, Switched(rest, " -Force"))] + Effects(rest)
  {
    hide CmdletAt;
    var tail := [Bare(" -Destination "), Quoted(to)] + rest;
    var all := [Bare(word), Quoted(from)] + tail;
    assert [Bare(word), Quoted(from), Bare(" -Destination "), Quoted(to)] + rest == all;
    assert all[2..] == tail && tail[2..] == rest && all[4..] == rest && all[1..] == [Quoted(from)] + tail;
    assert DestinationIn(all[1..]) == Some(to);
  }

  lemma DestinationWord()
    ensures CmdletAt(" -Destination ") == None
  {
    hide EndsWith;
    var text := " -Destination ";
    TooShort(text, "Copy-Item -LiteralPath ");
    TooShort(text, "Move-Item -LiteralPath ");
    TooShort(text, "Remove-Item -LiteralPath ");
    TooShort(text, "New-Item -ItemType Directory -Path ");
  }

  lemma {:induction false} PairsJoined(a: seq<(string, string)>, b: seq<(string, string)>)
    ensures Pairs(a + b) == Pairs(a) + Pairs(b)
  {
    if a == [] {
      assert a + b == b;
    } else {
      PairsJoined(a[1..], b);
      assert (a + b)[1..] == a[1..] + b;
    }
  }

  lemma OnePair(a: (string, string))
    ensures Pairs([a]) == [Bare(a.0), Quoted(a.1)]
  {
    assert [a][1..] == [];
  }

  lemma TwoPairs(a: (string, string), b: (string, string))
    ensures Pairs([a, b]) == [Bare(a.0), Quoted(a.1), Bare(b.0), Quoted(b.1)]
  {
    hide Pairs;
    assert [a, b] == [a] + [b];
    PairsJoined([a], [b]);
    OnePair(a);
    OnePair(b);
  }

  lemma CopyDoes(from: string, to: string)
    ensures Effects(CopyCommand(from, to)) == [Copies(from, to, true)]
  {
    hide CmdletAt, Effects, Pairs;
    CopyWord("");
    assert "" + "Copy-Item -LiteralPath " == "Copy-Item -LiteralPath ";
    TwoPairs(("Copy-Item -LiteralPath ", from), (" -Destination ", to));
    DestinationWord();
    OnWithDestination("Copy-Item -LiteralPath ", from, to, [Bare(" -Recurse -Force")]);
    LastDoesNothing(" -Recurse -Force");
  }

  lemma LastDoesNothing(word: string)
    ensures Effects([Bare(word)]) == []
  {
  }

  lemma MoveDoes(from: string, to: string)
    ensures Effects(MoveCommand(from, to)) == [Moves(from, to, true)]
  {
    hide CmdletAt, Effects, Pairs;
    MoveWord("");
    assert "" + "Move-Item -LiteralPath " == "Move-Item -LiteralPath ";
    TwoPairs(("Move-Item -LiteralPath ", from), (" -Destination ", to));
    DestinationWord();
    OnWithDestination("Move-Item -LiteralPath ", from, to, [Bare(" -Force")]);
    LastDoesNothing(" -Force");
  }

  /** The script's way of putting a staged file in place makes its directory first. */
  lemma PlaceDoes(destDir: string, from: string, to: string)
    ensures Effects(PlaceCommand(destDir, from, to)) == [Makes(destDir), Moves(from, to, true)]
  {
    hide CmdletAt, Effects, Pairs;
    var ps := [("New-Item -ItemType Directory -Path ", destDir), (PlacedMove, from), (" -Destination ", to)];
    var move := [Bare(PlacedMove), Quoted(from), Bare(" -Destination "), Quoted(to)] + [Bare(" -Force")];
    assert ps == [ps[0]] + [ps[1], ps[2]];
    PairsJoined([ps[0]], [ps[1], ps[2]]);
    OnePair(ps[0]);
    TwoPairs(ps[1], ps[2]);
    assert PlaceCommand(destDir, from, to) == [Bare(ps[0].0), Quoted(destDir)] + move;
    DirectoryWord();
    PlacedMoveText();
    MoveWord(" -Force | Out-Null; ");
    DestinationWord();
    OnWithWord(ps[0].0, destDir, move);
    OnWithDestination(PlacedMove, from, to, [Bare(" -Force")]);
    LastDoesNothing(" -Force");
  }

  const PlacedMove := " -Force | Out-Null; Move-Item -LiteralPath "

  lemma PlacedMoveText()
    ensures " -Force | Out-Null; " + "Move-Item -LiteralPath " == PlacedMove
  {
  }

  lemma RemoveDoes(path: string)
    ensures Effects(RemoveCommand(path)) == [Removes(path, true)]
  {
    hide CmdletAt, Effects, Pairs;
    RemoveWord();
    OnePair(("Remove-Item -LiteralPath ", path));
    OnWithWord("Remove-Item -LiteralPath ", path, [Bare(" -Recurse -Force")]);
    LastDoesNothing(" -Recurse -Force");
  }

  lemma DirectDoes(from: string, to: string)
    ensures Effects(Pairs(DirectPairs(from, to)) + [Bare(" -Recurse -Force")]) == [Copies(from, to, true)]
  {
    hide CmdletAt, Effects, Pairs;
    var ps := DirectPairs(from, to);
    var copy := [Bare("; Copy-Item -LiteralPath "), Quoted(from), Bare(" -Destination "), Quoted(to)] + [Bare(" -Recurse -Force")];
    StopWord();
    NextCopyWord();
    assert ps == [ps[0]] + [ps[1], ps[2]];
    PairsJoined([ps[0]], [ps[1], ps[2]]);
    OnePair(ps[0]);
    TwoPairs(ps[1], ps[2]);
    assert Pairs(ps) + [Bare(" -Recurse -Force")] == [Bare(ps[0].0), Quoted("Stop")] + copy;
    OnWithWord(ps[0].0, "Stop", copy);
    DestinationWord();
    OnWithDestination("; Copy-Item -LiteralPath ", from, to, [Bare(" -Recurse -Force")]);
    LastDoesNothing(" -Recurse -Force");
  }

  const StagedMove := " -Recurse -Force; Move-Item -LiteralPath "

  lemma StagedMoveWord()
    ensures CmdletAt(StagedMove) == Some(MoveItem)
  {
    hide CmdletAt;
    StagedMoveText();
    MoveWord(" -Recurse -Force; ");
  }

  lemma StagedMoveText()
    ensures " -Recurse -Force; " + "Move-Item -LiteralPath " == StagedMove
  {
  }

  lemma NextCopyWord()
    ensures CmdletAt("; Copy-Item -LiteralPath ") == Some(CopyItem)
  {
    hide CmdletAt;
    assert "; " + "Copy-Item -LiteralPath " == "; Copy-Item -LiteralPath ";
    CopyWord("; ");
  }

  lemma StagedDoes(guestPath: string, vmPath: string, stage: string)
    ensures Effects(Pairs(StagedPairs(guestPath, vmPath, stage)) + [Bare(" -Force")]) == [Copies(guestPath, stage, true), Moves(stage, vmPath, true)]
  {
    hide CmdletAt, Effects, Pairs;
    var end := [Bare(" -Force")];
    var move := [Bare(StagedMove), Quoted(stage), Bare(" -Destination "), Quoted(vmPath)] + end;
    var copy := [Bare("; Copy-Item -LiteralPath "), Quoted(guestPath), Bare(" -Destination "), Quoted(stage)] + move;
    StopWord();
    NextCopyWord();
    StagedMoveWord();
    DestinationWord();
    StagedParts(guestPath, vmPath, stage);
    OnWithWord("$ErrorActionPreference = ", "Stop", copy);
    OnWithDestination("; Copy-Item -LiteralPath ", guestPath, stage, move);
    OnWithDestination(StagedMove, stage, vmPath, end);
    LastDoesNothing(" -Force");
  }

  lemma StagedParts(guestPath: string, vmPath: string, stage: string)
    ensures Pairs(StagedPairs(guestPath, vmPath, stage)) + [Bare(" -Force")]
            == [Bare("$ErrorActionPreference = "), Quoted("Stop")]
               + ([Bare("; Copy-Item -LiteralPath "), Quoted(guestPath), Bare(" -Destination "), Quoted(stage)]
                  + ([Bare(StagedMove), Quoted(stage), Bare(" -Destination "), Quoted(vmPath)] + [Bare(" -Force")]))
  {
    hide Pairs;
    var ps := StagedPairs(guestPath, vmPath, stage);
    assert ps == [ps[0]] + ([ps[1], ps[2]] + [ps[3], ps[4]]);
    PairsJoined([ps[0]], [ps[1], ps[2]] + [ps[3], ps[4]]);
    PairsJoined([ps[1], ps[2]], [ps[3], ps[4]]);
    OnePair(ps[0]);
    TwoPairs(ps[1], ps[2]);
    TwoPairs(ps[3], ps[4]);
  }

  /** The single commands of a ship, read off their rendered lines. */
  lemma CommandsDo(from: string, to: string, destDir: string)
    ensures LineEffects(Render(CopyCommand(from, to))) == Some([Copies(from, to, true)])
    ensures LineEffects(Render(MoveCommand(from, to))) == Some([Moves(from, to, true)])
    ensures LineEffects(Render(RemoveCommand(from))) == Some([Removes(from, true)])
    ensures LineEffects(Render(PlaceCommand(destDir, from, to))) == Some([Makes(destDir), Moves(from, to, true)])
    ensures LineEffects(Render([Bare("$null = 0")])) == Some([])
  {
    hide Effects, Render, ReadParts, Composed, CopyCommand, MoveCommand, RemoveCommand, PlaceCommand;
    CommandsCompose(from, to, destDir);
    CommandRoundTrip(CopyCommand(from, to));
    CommandRoundTrip(MoveCommand(from, to));
    CommandRoundTrip(RemoveCommand(from));
    CommandRoundTrip(PlaceCommand(destDir, from, to));
    CommandRoundTrip([Bare("$null = 0")]);
    CopyDoes(from, to);
    MoveDoes(from, to);
    RemoveDoes(from);
    PlaceDoes(destDir, from, to);
    LastDoesNothing("$null = 0");
  }

  /** A ship through the share, read off its rendered command line: into the VM under a lease
      it copies the shared file to the stage and moves that stage to its place; otherwise it
      copies straight from one end to the other, in the ship's direction. */
  lemma SharedShipDoes(toVm: bool, guestPath: string, vmPath: string, stage: Option<string>)
    ensures LineEffects(Render(SharedShip(toVm, guestPath, vmPath, stage)))
            == Some(if !toVm then [Copies(vmPath, guestPath, true)]
                    else match stage
                         case Some(st) => [Copies(guestPath, st, true), Moves(st, vmPath, true)]
                         case None => [Copies(guestPath, vmPath, true)])
  {
    hide Effects, Render, ReadParts, Pairs, StagedPairs, DirectPairs, Composed, Values;
    if toVm && stage.Some? {
      StagedShip(guestPath, vmPath, stage.value);
      StagedDoes(guestPath, vmPath, stage.value);
    } else if toVm {
      DirectShip(guestPath, vmPath);
      DirectDoes(guestPath, vmPath);
    } else {
      DirectShip(vmPath, guestPath);
      DirectDoes(vmPath, guestPath);
    }
    CommandRoundTrip(SharedShip(toVm, guestPath, vmPath, stage));
  }
}
