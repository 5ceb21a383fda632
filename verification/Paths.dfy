/**
  Paths in the VM, and where under a workdir they lie. A path is read segment by
  segment, with `.`, `..` and empty segments resolved and either slash separating.
  */
module Paths {

  predicate Separates(c: char) { c == '/' || c == '\\' }

  /** A single file name, which can neither climb nor descend. */
  predicate Plain(name: string) {
    name != "" && name != "." && name != ".." && forall i :: 0 <= i < |name| ==> !Separates(name[i])
  }

  predicate TokenChar(c: char) { 'A' <= c <= 'Z' || 'a' <= c <= 'z' || '0' <= c <= '9' || c == '-' }

  predicate ValidToken(t: string) { 1 <= |t| <= 128 && forall i :: 0 <= i < |t| ==> TokenChar(t[i]) }

  /** An owner token, as the lock script accepts one. */
  type Token = t: string | ValidToken(t) witness "0"

  lemma TokensArePlain(t: Token)
    ensures Plain(t)
  {
    assert TokenChar(t[0]);
  }

  function Split(path: string): (segments: seq<string>)
    ensures |segments| > 0
  {
    if path == "" then [""]
    else
      var rest := Split(path[1..]);
      if Separates(path[0]) then [""] + rest else [[path[0]] + rest[0]] + rest[1..]
  }

  /** Walks the segments from the directory `at`. */
  function Follow(at: seq<string>, segments: seq<string>): seq<string>
    decreases |segments|
  {
    if segments == [] then at
    else
      var s := segments[0];
      Follow(if s == "" || s == "." then at
             else if s == ".." then (if at == [] then [] else at[..|at| - 1])
             else at + [s],
             segments[1..])
  }

  function Resolve(path: string): seq<string> { Follow([], Split(path)) }

  lemma {:induction false} SplitJoined(a: string, b: string)
    ensures Split(a + "/" + b) == Split(a) + Split(b)
    decreases |a|
  {
    hide Separates, Split;
    if a == "" {
      SplitSlash(b);
      assert "" + "/" + b == "/" + b && Split("") == [""] by { NothingSplit(); }
    } else {
      var c, t := a[0], a[1..];
      assert a == [c] + t;
      SplitJoined(t, b);
      SplitFirst(c, t);
      SplitFirst(c, t + "/" + b);
      FirstMoves(c, t, b);
      HeadGrows(c, Split(t), Split(b));
    }
  }

  lemma NothingSplit()
    ensures Split("") == [""]
  {
  }

  lemma HeadGrows(c: char, rest: seq<string>, more: seq<string>)
    requires rest != []
    ensures [""] + (rest + more) == [""] + rest + more
    ensures [[c] + (rest + more)[0]] + (rest + more)[1..] == [[c] + rest[0]] + rest[1..] + more
  {
    assert (rest + more)[0] == rest[0] && (rest + more)[1..] == rest[1..] + more;
  }

  lemma SplitSlash(b: string)
    ensures Split("/" + b) == [""] + Split(b)
  {
    assert ("/" + b)[1..] == b;
  }

  lemma SplitFirst(c: char, t: string)
    ensures Split([c] + t) == if Separates(c) then [""] + Split(t) else [[c] + Split(t)[0]] + Split(t)[1..]
  {
    hide Separates;
    assert ([c] + t)[1..] == t;
  }

  lemma FirstMoves(c: char, t: string, b: string)
    ensures [c] + t + "/" + b == [c] + (t + "/" + b)
  {
  }

  lemma {:induction false} SplitName(name: string)
    requires forall i :: 0 <= i < |name| ==> !Separates(name[i])
    ensures Split(name) == [name]
    decreases |name|
  {
    if name != "" {
      SplitName(name[1..]);
      assert [name[0]] + name[1..] == name;
    }
  }

  lemma {:induction false} FollowJoined(at: seq<string>, xs: seq<string>, ys: seq<string>)
    ensures Follow(at, xs + ys) == Follow(Follow(at, xs), ys)
    decreases |xs|
  {
    if xs == [] {
      assert xs + ys == ys;
    } else {
      assert (xs + ys)[0] == xs[0] && (xs + ys)[1..] == xs[1..] + ys;
      var s := xs[0];
      FollowJoined(if s == "" || s == "." then at
                   else if s == ".." then (if at == [] then [] else at[..|at| - 1])
                   else at + [s], xs[1..], ys);
    }
  }

  /** Where a path leads is where its directory leads, followed by the rest. */
  lemma ResolveJoined(a: string, b: string)
    ensures Resolve(a + "/" + b) == Follow(Resolve(a), Split(b))
  {
    SplitJoined(a, b);
    FollowJoined([], Split(a), Split(b));
  }

  /** A plain name below a directory stays below it. */
  lemma ResolveBelow(a: string, name: string)
    requires Plain(name)
    ensures Resolve(a + "/" + name) == Resolve(a) + [name]
  {
    ResolveJoined(a, name);
    SplitName(name);
    assert [name][1..] == [];
  }

  // ----- the lock directory -------------------------------------------------------------------

  const LOCK := ".fswth-matrix.lock"

  function LockDirectory(workdir: string): string { workdir + "/" + LOCK }

  function StagePath(workdir: string, token: Token, name: string): string {
    LockDirectory(workdir) + "/" + token + "/" + name
  }

  /** A file staged under a token, another part of the lock directory, or anywhere else. */
  datatype Location = InStage(token: string, name: string) | InLock | Elsewhere(at: seq<string>)

  function Locate(workdir: string, path: string): Location {
    var root := Resolve(LockDirectory(workdir));
    var at := Resolve(path);
    if !(root <= at) then Elsewhere(at)
    else if |at| == |root| + 2 then InStage(at[|root|], at[|root| + 1])
    else InLock
  }

  /** A stage path with a plain name lies in the directory of its own token. */
  lemma StageIsLocated(workdir: string, token: Token, name: string)
    requires Plain(name)
    ensures Locate(workdir, StagePath(workdir, token, name)) == InStage(token, name)
  {
    TokensArePlain(token);
    ResolveBelow(LockDirectory(workdir), token);
    ResolveBelow(LockDirectory(workdir) + "/" + token, name);
    var root := Resolve(LockDirectory(workdir));
    assert Resolve(StagePath(workdir, token, name)) == root + [token] + [name];
  }

  /** So two stage paths meet only if token and name are the same: an upload sent by a
      stale owner cannot reach a file of its replacement. */
  lemma StagesAreApart(workdir: string, token: Token, name: string, other: Token, file: string)
    requires Plain(name) && Plain(file)
    ensures Resolve(StagePath(workdir, token, name)) == Resolve(StagePath(workdir, other, file)) <==> token == other && name == file
    ensures Locate(workdir, StagePath(workdir, token, name)) == InStage(other, file) <==> token == other && name == file
  {
    StageIsLocated(workdir, token, name);
    StageIsLocated(workdir, other, file);
  }

  /** Plainness is needed: a name that climbs leads into another token's directory. */
  lemma ClimbingNamesEscape(workdir: string, token: Token, other: Token, file: string)
    requires Plain(file)
    ensures Locate(workdir, StagePath(workdir, token, "../" + other + "/" + file)) == InStage(other, file)
  {
    var dir := LockDirectory(workdir);
    TokensArePlain(token);
    TokensArePlain(other);
    ResolveBelow(dir, token);
    ResolveJoined(dir + "/" + token, "..");
    SplitName("..");
    assert [".."][1..] == [];
    var up := dir + "/" + token + "/" + "..";
    assert Resolve(up) == Resolve(dir);
    ResolveBelow(up, other);
    ResolveBelow(up + "/" + other, file);
    assert StagePath(workdir, token, "../" + other + "/" + file) == up + "/" + other + "/" + file;
    var root := Resolve(dir);
    assert Resolve(up + "/" + other + "/" + file) == root + [other] + [file];
  }
}
