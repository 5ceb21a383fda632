/**
  What expansion promises, said about walks in the reference graph: a walk starts
  at a reference of the template and goes on to a reference of the string each
  path stands for.
  */
module TemplateTheorems {
  import opened Prelude
  import opened Counting
  import opened Utf8
  import opened Template
  import opened Expander

  // ----- the reference graph ------------------------------------------------------------

  predicate NamesAt(ctx: Context, template: Text, nested: bool, path: Text, optional: bool, k: nat) {
    var ps := Parse(template);
    k < |ps| && ps[k].Ref? && ps[k].ref == Reference(path, optional) && IsReference(ctx, nested, path)
  }

  /** `template` mentions `path` as a reference. */
  predicate Names(ctx: Context, template: Text, nested: bool, path: Text, optional: bool) {
    exists k :: 0 <= k < |Parse(template)| && NamesAt(ctx, template, nested, path, optional, k)
  }

  predicate Mentions(ctx: Context, template: Text, nested: bool, path: Text) {
    Names(ctx, template, nested, path, true) || Names(ctx, template, nested, path, false)
  }

  /** A walk along references that stand for strings, each mentioned by the one before. */
  predicate StringWalk(ctx: Context, template: Text, nested: bool, w: seq<Text>)
    decreases |w|
  {
    w == [] ||
    (&& Mentions(ctx, template, nested, w[0]) && MeaningOf(ctx, w[0]).Again?
     && StringWalk(ctx, MeaningOf(ctx, w[0]).template, true, w[1..]))
  }

  /** A string walk that ends in a text with a required mention of `r`, which stands for nothing. */
  predicate MissingWalk(ctx: Context, template: Text, nested: bool, w: seq<Text>, r: Text)
    decreases |w|
  {
    if w == [] then Names(ctx, template, nested, r, false) && MeaningOf(ctx, r).Gone?
    else
      && Mentions(ctx, template, nested, w[0]) && MeaningOf(ctx, w[0]).Again?
      && MissingWalk(ctx, MeaningOf(ctx, w[0]).template, true, w[1..], r)
  }

  // ----- reading the tree ------------------------------------------------------------------

  lemma {:induction false} UnfoldAt(ctx: Context, ps: seq<Piece>, chain: seq<Text>, k: nat)
    requires |chain| <= MAX_DEPTH && k < |ps|
    ensures Unfold(ctx, ps, chain)[k] == UnfoldPiece(ctx, ps[k], chain)
    decreases |ps|
  {
    hide UnfoldPiece;
    if k < |ps| - 1 { UnfoldAt(ctx, ps[..|ps| - 1], chain, k); }
  }

  lemma {:induction false} FaultAt(nodes: seq<Node>, k: nat)
    requires k < |nodes| && FaultOf(nodes).None?
    ensures NodeFault(nodes[k]).None?
    decreases |nodes|
  {
    if k < |nodes| - 1 { FaultAt(nodes[..|nodes| - 1], k); }
  }

  lemma {:induction false} WhichFault(nodes: seq<Node>) returns (k: nat)
    requires FaultOf(nodes).Some?
    ensures k < |nodes| && NodeFault(nodes[k]) == FaultOf(nodes)
    decreases |nodes|
  {
    if FaultOf(nodes[..|nodes| - 1]).Some? {
      k := WhichFault(nodes[..|nodes| - 1]);
    } else {
      k := |nodes| - 1;
    }
  }

  lemma {:induction false} MissingAt(nodes: seq<Node>, k: nat, r: Text)
    requires k < |nodes| && r in NodeMissing(nodes[k])
    ensures r in MissingOf(nodes)
    decreases |nodes|
  {
    if k < |nodes| - 1 { MissingAt(nodes[..|nodes| - 1], k, r); }
  }

  lemma {:induction false} WhichMissing(nodes: seq<Node>, r: Text) returns (k: nat)
    requires r in MissingOf(nodes)
    ensures k < |nodes| && r in NodeMissing(nodes[k])
    decreases |nodes|
  {
    if r in MissingOf(nodes[..|nodes| - 1]) {
      k := WhichMissing(nodes[..|nodes| - 1], r);
    } else {
      k := |nodes| - 1;
    }
  }

  // ----- faults ------------------------------------------------------------------------------

  /** In a faultless expansion every string reference is new on its chain and within the
      depth limit, and its own text is faultless in turn. */
  lemma FaultlessStep(ctx: Context, template: Text, chain: seq<Text>, path: Text) returns (k: nat)
    requires |chain| <= MAX_DEPTH && FaultOf(Unfold(ctx, Parse(template), chain)).None?
    requires Mentions(ctx, template, chain != [], path) && MeaningOf(ctx, path).Again?
    ensures path !in chain && |chain| < MAX_DEPTH
    ensures FaultOf(Unfold(ctx, Parse(MeaningOf(ctx, path).template), chain + [path])).None?
    ensures k < |Parse(template)|
    ensures Unfold(ctx, Parse(template), chain)[k]
            == Inner(path, Unfold(ctx, Parse(MeaningOf(ctx, path).template), chain + [path]))
  {
    k := MentionAt(ctx, template, chain != [], path);
    hide Parse, FaultOf, NodeFault, MeaningOf, Unfold, UnfoldPiece, IsReference, Mentions;
    UnfoldAt(ctx, Parse(template), chain, k);
    FaultAt(Unfold(ctx, Parse(template), chain), k);
    FaultlessReference(ctx, Parse(template)[k], chain);
  }

  lemma FaultlessReference(ctx: Context, piece: Piece, chain: seq<Text>)
    requires |chain| <= MAX_DEPTH && piece.Ref? && IsReference(ctx, chain != [], piece.ref.path)
    requires MeaningOf(ctx, piece.ref.path).Again? && NodeFault(UnfoldPiece(ctx, piece, chain)).None?
    ensures piece.ref.path !in chain && |chain| < MAX_DEPTH
    ensures var inner := Unfold(ctx, Parse(MeaningOf(ctx, piece.ref.path).template), chain + [piece.ref.path]);
            FaultOf(inner).None? && UnfoldPiece(ctx, piece, chain) == Inner(piece.ref.path, inner)
  {
    hide Parse, FaultOf, MeaningOf, Unfold, IsReference;
  }

  lemma MentionAt(ctx: Context, template: Text, nested: bool, path: Text) returns (k: nat)
    requires Mentions(ctx, template, nested, path)
    ensures k < |Parse(template)| && Parse(template)[k].Ref? && Parse(template)[k].ref.path == path
    ensures IsReference(ctx, nested, path)
  {
    hide Parse, IsReference;
    if Names(ctx, template, nested, path, true) {
      k :| 0 <= k < |Parse(template)| && NamesAt(ctx, template, nested, path, true, k);
    } else {
      k :| 0 <= k < |Parse(template)| && NamesAt(ctx, template, nested, path, false, k);
    }
  }

  lemma {:induction false} FaultlessWalk(ctx: Context, template: Text, chain: seq<Text>, w: seq<Text>)
    requires |chain| <= MAX_DEPTH && FaultOf(Unfold(ctx, Parse(template), chain)).None?
    requires StringWalk(ctx, template, chain != [], w) && Distinct(chain)
    ensures |chain + w| <= MAX_DEPTH && Distinct(chain + w)
    decreases |w|
  {
    hide Parse, FaultOf, MeaningOf, Unfold, Mentions;
    if w == [] {
      assert chain + w == chain;
    } else {
      var k := FaultlessStep(ctx, template, chain, w[0]);
      FaultlessWalk(ctx, MeaningOf(ctx, w[0]).template, chain + [w[0]], w[1..]);
      assert chain + [w[0]] + w[1..] == chain + w;
    }
  }

  /** A cycle closes on its last reference and repeats nothing before it. */
  predicate Closes(refs: seq<Text>) {
    && 0 < |refs| <= MAX_DEPTH + 1
    && Distinct(refs[..|refs| - 1]) && refs[|refs| - 1] in refs[..|refs| - 1]
  }

  predicate Overflows(refs: seq<Text>) { |refs| == MAX_DEPTH + 1 && Distinct(refs) }

  predicate Reports(f: Fault, refs: seq<Text>) {
    match f
    case Cycle(rs) => rs == refs && Closes(refs)
    case TooDeep(rs) => rs == refs && Overflows(refs)
  }

  /** The walk behind a fault: the reported references are the chain so far and a genuine
      string walk, which for a cycle ends in its first repetition and for excess depth is
      one reference too long without any repetition. */
  lemma {:induction false} FaultIsAWalk(ctx: Context, template: Text, chain: seq<Text>) returns (w: seq<Text>)
    requires |chain| <= MAX_DEPTH && Distinct(chain)
    requires FaultOf(Unfold(ctx, Parse(template), chain)).Some?
    ensures w != [] && StringWalk(ctx, template, chain != [], w)
    ensures Reports(FaultOf(Unfold(ctx, Parse(template), chain)).value, chain + w)
    decreases MAX_DEPTH - |chain|
  {
    hide Parse, MeaningOf, FaultOf, Unfold, IsReference, Distinct, Reports;
    var ps := Parse(template);
    var nodes := Unfold(ctx, ps, chain);
    var k := WhichFault(nodes);
    UnfoldAt(ctx, ps, chain, k);
    var path := ps[k].ref.path;
    assert NamesAt(ctx, template, chain != [], path, ps[k].ref.optional, k);
    assert Mentions(ctx, template, chain != [], path);
    var inner := MeaningOf(ctx, path).template;
    if nodes[k].Broken? {
      w := [path];
      assert w[1..] == [];
      BrokenReports(nodes[k].fault, chain, path);
    } else {
      NewOnChain(chain, path);
      var rest := FaultIsAWalk(ctx, inner, chain + [path]);
      w := [path] + rest;
      assert w[1..] == rest && chain + w == chain + [path] + rest;
    }
  }

  lemma NewOnChain(chain: seq<Text>, path: Text)
    requires Distinct(chain) && path !in chain
    ensures Distinct(chain + [path]) && chain + [path] != []
  {
  }

  lemma BrokenReports(f: Fault, chain: seq<Text>, path: Text)
    requires Distinct(chain) && |chain| <= MAX_DEPTH && f.refs == chain + [path]
    requires f.Cycle? ==> path in chain
    requires f.TooDeep? ==> path !in chain && |chain| == MAX_DEPTH
    ensures Reports(f, chain + [path])
  {
    assert (chain + [path])[..|chain|] == chain;
  }

  /** A walk that repeats a reference or is longer than eight. */
  predicate Excessive(w: seq<Text>) { !(Distinct(w) && |w| <= 8) }

  lemma ReportsExcess(f: Fault, w: seq<Text>)
    requires Reports(f, w)
    ensures Excessive(w)
  {
    var last := |w| - 1;
    if f.Cycle? {
      var j :| 0 <= j < last && w[..last][j] == w[last];
      assert w[j] == w[last];
    }
  }

  /** Expansion stops with a cycle or excess depth exactly when some walk along string
      references repeats a reference or is longer than the limit; so a template that can
      reach a cycle through string values never yields a command. */
  lemma FaultExactly(ctx: Context, template: Text)
    ensures Expanded(ctx, template).Err? && Expanded(ctx, template).error.Faulty? <==>
            exists w :: StringWalk(ctx, template, false, w) && Excessive(w)
  {
    hide Parse, MeaningOf, FaultOf, Unfold, TextOf, MissingOf, Collect, StringWalk, Distinct, Excessive;
    if FaultOf(Unfolded(ctx, template)).Some? {
      NothingYet();
      var w := FaultIsAWalk(ctx, template, []);
      assert [] + w == w;
      ReportsExcess(FaultOf(Unfolded(ctx, template)).value, w);
    } else {
      forall w | StringWalk(ctx, template, false, w) ensures !Excessive(w) {
        NothingYet();
        FaultlessWalk(ctx, template, [], w);
        assert [] + w == w;
        WithinLimits(w);
      }
    }
  }

  lemma NothingYet()
    ensures Distinct<Text>([])
  {
  }

  lemma WithinLimits(w: seq<Text>)
    requires Distinct(w) && |w| <= MAX_DEPTH
    ensures !Excessive(w)
  {
  }

  /** A reported chain is genuine: it is a walk from the template, no reference on it is
      repeated before the last, and a cycle's last reference closes it. */
  lemma ReportedChainIsGenuine(ctx: Context, template: Text)
    requires FaultOf(Unfolded(ctx, template)).Some?
    ensures var f := FaultOf(Unfolded(ctx, template)).value;
            Reports(f, f.refs) && StringWalk(ctx, template, false, f.refs)
  {
    var w := FaultIsAWalk(ctx, template, []);
    assert [] + w == w;
  }

  // ----- missing references -----------------------------------------------------------------------

  lemma {:induction false} MissingHasWalk(ctx: Context, template: Text, chain: seq<Text>, r: Text) returns (w: seq<Text>)
    requires |chain| <= MAX_DEPTH && r in MissingOf(Unfold(ctx, Parse(template), chain))
    ensures MissingWalk(ctx, template, chain != [], w, r)
    decreases MAX_DEPTH - |chain|
  {
    hide Parse, MeaningOf, Unfold, IsReference, MissingOf;
    var ps := Parse(template);
    var nodes := Unfold(ctx, ps, chain);
    var k := WhichMissing(nodes, r);
    UnfoldAt(ctx, ps, chain, k);
    var path := ps[k].ref.path;
    assert NamesAt(ctx, template, chain != [], path, ps[k].ref.optional, k);
    if nodes[k].Missing? {
      w := [];
    } else {
      var rest := MissingHasWalk(ctx, MeaningOf(ctx, path).template, chain + [path], r);
      w := [path] + rest;
      assert w[1..] == rest;
      assert Mentions(ctx, template, chain != [], path);
    }
  }

  lemma MissingMention(ctx: Context, template: Text, chain: seq<Text>, r: Text)
    requires |chain| <= MAX_DEPTH && Names(ctx, template, chain != [], r, false) && MeaningOf(ctx, r).Gone?
    ensures r in MissingOf(Unfold(ctx, Parse(template), chain))
  {
    hide Parse, MeaningOf, Unfold, MissingOf, IsReference;
    var k :| 0 <= k < |Parse(template)| && NamesAt(ctx, template, chain != [], r, false, k);
    UnfoldAt(ctx, Parse(template), chain, k);
    MissingAt(Unfold(ctx, Parse(template), chain), k, r);
  }

  lemma {:induction false} WalkIsMissing(ctx: Context, template: Text, chain: seq<Text>, w: seq<Text>, r: Text)
    requires |chain| <= MAX_DEPTH && FaultOf(Unfold(ctx, Parse(template), chain)).None?
    requires MissingWalk(ctx, template, chain != [], w, r)
    ensures r in MissingOf(Unfold(ctx, Parse(template), chain))
    decreases |w|
  {
    hide Parse, MeaningOf, Unfold, FaultOf, MissingOf, Mentions, Names;
    var nodes := Unfold(ctx, Parse(template), chain);
    if w == [] {
      MissingMention(ctx, template, chain, r);
    } else {
      var k := FaultlessStep(ctx, template, chain, w[0]);
      WalkIsMissing(ctx, MeaningOf(ctx, w[0]).template, chain + [w[0]], w[1..], r);
      MissingAt(nodes, k, r);
    }
  }

  lemma {:induction false} CollectIsDistinct(known: seq<Text>, more: seq<Text>)
    requires Distinct(known)
    ensures Distinct(Collect(known, more))
    ensures forall r :: r in Collect(known, more) <==> r in known || r in more
    ensures known <= Collect(known, more)
  {
    if more != [] {
      CollectIsDistinct(known, more[..|more| - 1]);
      assert more == more[..|more| - 1] + [more[|more| - 1]];
    }
  }

  /** First-reached order: if `a` is listed before `b` then some mention of `a` was reached
      before every mention of `b`. */
  lemma {:induction false} CollectKeepsOrder(more: seq<Text>, i: nat, j: nat)
    requires i < j < |Collect([], more)|
    ensures exists m :: 0 <= m < |more| && more[m] == Collect([], more)[i]
                        && forall n :: 0 <= n <= m ==> more[n] != Collect([], more)[j]
    decreases |more|
  {
    var last := |more| - 1;
    var front := Collect([], more[..last]);
    CollectIsDistinct([], more[..last]);
    if j < |front| {
      CollectKeepsOrder(more[..last], i, j);
      var m :| 0 <= m < last && more[..last][m] == front[i] && forall n :: 0 <= n <= m ==> more[..last][n] != front[j];
      assert more[m] == front[i];
      forall n | 0 <= n <= m ensures more[n] != front[j] { assert more[..last][n] == more[n]; }
    } else {
      assert front[i] in front;
      var m :| 0 <= m < last && more[..last][m] == front[i];
      assert more[m] == front[i];
      forall n | 0 <= n <= m ensures more[n] != more[last] { assert more[..last][n] in more[..last]; }
    }
  }

  /** `r` stands for nothing and is required somewhere along a walk from the template. */
  ghost predicate NeedsButLacks(ctx: Context, template: Text, r: Text) {
    exists w :: MissingWalk(ctx, template, false, w, r)
  }

  lemma MissingExactly(ctx: Context, template: Text, r: Text)
    requires FaultOf(Unfolded(ctx, template)).None?
    ensures r in MissingOf(Unfolded(ctx, template)) <==> NeedsButLacks(ctx, template, r)
  {
    if r in MissingOf(Unfolded(ctx, template)) {
      var w := MissingHasWalk(ctx, template, [], r);
    }
    if NeedsButLacks(ctx, template, r) {
      var w :| MissingWalk(ctx, template, false, w, r);
      WalkIsMissing(ctx, template, [], w, r);
    }
  }

  /** Without a fault: an Unresolved error lists, without duplicates, exactly the references
      that stand for nothing and are required somewhere along a walk, at any depth; and the
      template yields a command exactly when there are none. */
  lemma UnresolvedExactly(ctx: Context, template: Text)
    requires FaultOf(Unfolded(ctx, template)).None?
    ensures match Expanded(ctx, template)
            case Err(e) => && e.Unresolved? && e.paths != [] && Distinct(e.paths)
                           && forall r :: r in e.paths <==> NeedsButLacks(ctx, template, r)
            case Ok(_) => forall r :: !NeedsButLacks(ctx, template, r)
  {
    hide Parse, MeaningOf, FaultOf, Unfold, TextOf, MissingOf, Collect, NeedsButLacks;
    var missing := MissingOf(Unfolded(ctx, template));
    NothingYet();
    CollectIsDistinct([], missing);
    CollectEmpty(missing);
    forall r ensures r in missing <==> NeedsButLacks(ctx, template, r) {
      MissingExactly(ctx, template, r);
    }
  }

  // ----- escaping -----------------------------------------------------------------------------------

  /** Every brace of a text doubled. */
  function Escape(t: Text): Text {
    if t == [] then [] else EscapeByte(t[0]) + Escape(t[1..])
  }

  function EscapeByte(b: Byte): Text { if b == OPEN || b == CLOSE then [b, b] else [b] }

  predicate AllLiteral(ps: seq<Piece>) { forall k :: 0 <= k < |ps| ==> ps[k].Lit? }

  function LitText(ps: seq<Piece>): Text
    requires AllLiteral(ps)
  {
    if ps == [] then [] else ps[0].text + LitText(ps[1..])
  }

  lemma {:induction false} EscapeJoined(a: Text, b: Text)
    ensures Escape(a + b) == Escape(a) + Escape(b)
  {
    hide EscapeByte;
    if a == [] {
      assert a + b == b;
    } else {
      EscapeJoined(a[1..], b);
      assert (a + b)[1..] == a[1..] + b && (a + b)[0] == a[0];
      JoinedAfter(EscapeByte(a[0]), Escape(a[1..]), Escape(b));
    }
  }

  lemma JoinedAfter(x: Text, y: Text, z: Text)
    ensures x + (y + z) == x + y + z
  {
  }

  lemma {:induction false} EscapeBraceless(t: Text)
    requires forall i :: 0 <= i < |t| ==> t[i] != OPEN && t[i] != CLOSE
    ensures Escape(t) == t
  {
    if t != [] { EscapeBraceless(t[1..]); }
  }

  /** The bytes of a character other than a brace are not braces. */
  lemma NoBraceInside(t: Text)
    requires CharLen(t) > 0 && t[0] != OPEN && t[0] != CLOSE
    ensures forall i :: 0 <= i < CharLen(t) ==> t[i] != OPEN && t[i] != CLOSE
  {
  }

  /** The first piece of an escaped text is its first character. */
  lemma EscapeFirst(t: Text)
    requires CharLen(t) > 0
    ensures var e := Escape(t); var n := CharLen(t);
            && e != [] && FirstPiece(e).Lit? && FirstPiece(e).text == t[..n]
            && e[|FirstPiece(e).raw|..] == Escape(t[n..])
            && (WellFormed(Escape(t[n..])) ==> WellFormed(e))
  {
    var n := CharLen(t);
    var e := Escape(t);
    EscapeJoined(t[..n], t[n..]);
    assert t == t[..n] + t[n..];
    if t[0] == OPEN || t[0] == CLOSE {
      assert Escape(t[..1]) == [t[0], t[0]] by { assert t[..1][1..] == []; }
      assert e == [t[0], t[0]] + Escape(t[1..]);
      assert e[2..] == Escape(t[1..]) && e[..1] == t[..1];
      assert CharLen(e) == 1 && CharLen(e[1..]) == 1 && e[1..][1..] == Escape(t[1..]);
    } else {
      NoBraceInside(t);
      EscapeBraceless(t[..n]);
      assert e == t[..n] + Escape(t[n..]);
      CharLenPrefix(t, e);
      assert e[n..] == Escape(t[n..]) && e[..n] == t[..n];
      assert e[0] == t[0];
    }
  }

  lemma {:induction false} EscapeParses(t: Text)
    requires WellFormed(t)
    ensures AllLiteral(Parse(Escape(t))) && LitText(Parse(Escape(t))) == t && WellFormed(Escape(t))
    decreases |t|
  {
    if t != [] {
      var n := CharLen(t);
      var tail := t[n..];
      assert n > 0 && WellFormed(tail) && t == t[..n] + tail;
      hide FirstPiece, CharLen, Escape, WellFormed, AllLiteral, LitText, Parse;
      EscapeParses(tail);
      EscapeFirst(t);
      LiteralFirst(Escape(t));
    }
  }

  lemma LiteralFirst(e: Text)
    requires e != [] && FirstPiece(e).Lit?
    ensures var rest := Parse(e[|FirstPiece(e).raw|..]);
            AllLiteral(rest) ==> AllLiteral(Parse(e)) && LitText(Parse(e)) == FirstPiece(e).text + LitText(rest)
  {
    hide FirstPiece;
    var rest := Parse(e[|FirstPiece(e).raw|..]);
    assert Parse(e) == [FirstPiece(e)] + rest && Parse(e)[1..] == rest;
  }

  lemma {:induction false} LiteralsUnfold(ctx: Context, ps: seq<Piece>, chain: seq<Text>)
    requires |chain| <= MAX_DEPTH && AllLiteral(ps)
    ensures FaultOf(Unfold(ctx, ps, chain)).None? && MissingOf(Unfold(ctx, ps, chain)) == []
    ensures TextOf(Unfold(ctx, ps, chain)) == LitText(ps)
    decreases |ps|
  {
    if ps != [] {
      LiteralsUnfold(ctx, ps[..|ps| - 1], chain);
      LitTextSnoc(ps);
    }
  }

  lemma {:induction false} LitTextSnoc(ps: seq<Piece>)
    requires ps != [] && AllLiteral(ps)
    ensures LitText(ps) == LitText(ps[..|ps| - 1]) + ps[|ps| - 1].text
    decreases |ps|
  {
    if |ps| > 1 {
      LitTextSnoc(ps[1..]);
      assert ps[1..][..|ps| - 2] == ps[..|ps| - 1][1..];
    }
  }

  /** Escape round trip: doubling every brace of any text gives a template that expands
      back to exactly that text, in every context. */
  lemma EscapeRoundTrip(ctx: Context, t: Str)
    ensures WellFormed(Escape(t)) && Expanded(ctx, Escape(t)) == Ok(t)
  {
    EscapeParses(t);
    LiteralsUnfold(ctx, Parse(Escape(t)), []);
  }

  lemma {:induction false} ClosesAt(t: Text, from: nat, k: nat)
    requires from <= k < |t| && t[k] == CLOSE && forall j :: from <= j < k ==> t[j] != CLOSE
    ensures FindClose(t, from) == k
    decreases k - from
  {
    if from < k { ClosesAt(t, from + 1, k); }
  }

  /** A template that is one reference, required or optional, and nothing else. */
  function Reading(path: Text, optional: bool): Text {
    [OPEN] + path + (if optional then [QUESTION] else []) + [CLOSE]
  }

  lemma ReadingParses(path: Text, optional: bool)
    requires IsPath(path)
    ensures Parse(Reading(path, optional)) == [Ref(Reference(path, optional), Reading(path, optional))]
  {
    var t := Reading(path, optional);
    var inner := path + if optional then [QUESTION] else [];
    var n := |inner|;
    assert t == [OPEN] + inner + [CLOSE];
    assert t[1] == path[0] && ByteOfPath(path, 0);
    NoCloseInPath(path);
    assert t[1..n + 1] == inner;
    forall j | 1 <= j < n + 1 ensures t[j] != CLOSE { assert t[j] == inner[j - 1]; }
    ClosesAt(t, 1, n + 1);
    InnerParses(path, optional);
    assert t[..n + 2] == t && t[n + 2..] == [];
  }

  lemma InnerParses(path: Text, optional: bool)
    requires IsPath(path)
    ensures Placeholder(path + if optional then [QUESTION] else []) == Some(Reference(path, optional))
  {
    assert ByteOfPath(path, |path| - 1) && path[|path| - 1] != QUESTION;
    if optional {
      assert (path + [QUESTION])[..|path|] == path;
    } else {
      assert path + [] == path;
    }
  }

  lemma NoCloseInPath(path: Text)
    requires IsPath(path)
    ensures forall j :: 0 <= j < |path| ==> path[j] != CLOSE
  {
    forall j | 0 <= j < |path| ensures path[j] != CLOSE { assert ByteOfPath(path, j); }
  }

  /** Read the same: the same text, missing references and first fault. */
  predicate ReadAlike(a: seq<Node>, b: seq<Node>) {
    TextOf(a) == TextOf(b) && MissingOf(a) == MissingOf(b) && FaultOf(a) == FaultOf(b)
  }

  predicate NodesAlike(a: Node, b: Node) {
    NodeText(a) == NodeText(b) && NodeMissing(a) == NodeMissing(b) && NodeFault(a) == NodeFault(b)
  }

  lemma OneMoreNode(nodes: seq<Node>, node: Node)
    ensures TextOf(nodes + [node]) == TextOf(nodes) + NodeText(node)
    ensures MissingOf(nodes + [node]) == MissingOf(nodes) + NodeMissing(node)
    ensures FaultOf(nodes + [node]) == (if FaultOf(nodes).Some? then FaultOf(nodes) else NodeFault(node))
  {
    hide NodeText, NodeMissing, NodeFault;
    assert (nodes + [node])[..|nodes|] == nodes;
  }

  lemma AlikeOneMore(a: seq<Node>, b: seq<Node>, x: Node, y: Node)
    requires ReadAlike(a, b) && NodesAlike(x, y)
    ensures ReadAlike(a + [x], b + [y])
  {
    hide NodeText, NodeMissing, NodeFault, TextOf, MissingOf, FaultOf;
    OneMoreNode(a, x);
    OneMoreNode(b, y);
  }

  /** A reference, below `chain`, to a string whose braces are all doubled. */
  predicate EscapedAt(ctx: Context, ps: seq<Piece>, chain: seq<Text>, k: nat, t: Str) {
    && k < |ps| && ps[k].Ref? && |chain| < MAX_DEPTH && ps[k].ref.path !in chain
    && IsReference(ctx, chain != [], ps[k].ref.path)
    && MeaningOf(ctx, ps[k].ref.path).Again? && MeaningOf(ctx, ps[k].ref.path).template == Escape(t)
  }

  lemma EscapedPiece(ctx: Context, ps: seq<Piece>, chain: seq<Text>, k: nat, t: Str)
    requires EscapedAt(ctx, ps, chain, k, t)
    ensures NodesAlike(UnfoldPiece(ctx, ps[k], chain), Words(t))
  {
    hide Parse, Escape, MeaningOf, IsReference, Unfold, UnfoldPiece, TextOf, MissingOf, FaultOf, LitText, AllLiteral;
    hide WellFormed, CharLen;
    EscapeParses(t);
    LiteralsUnfold(ctx, Parse(Escape(t)), chain + [ps[k].ref.path]);
    StringReference(ctx, ps[k], chain);
  }

  lemma StringReference(ctx: Context, piece: Piece, chain: seq<Text>)
    requires piece.Ref? && |chain| < MAX_DEPTH && piece.ref.path !in chain
    requires IsReference(ctx, chain != [], piece.ref.path) && MeaningOf(ctx, piece.ref.path).Again?
    ensures var nodes := Unfold(ctx, Parse(MeaningOf(ctx, piece.ref.path).template), chain + [piece.ref.path]);
            var node := UnfoldPiece(ctx, piece, chain);
            NodeText(node) == TextOf(nodes) && NodeMissing(node) == MissingOf(nodes) && NodeFault(node) == FaultOf(nodes)
  {
    hide Parse, MeaningOf, IsReference, Unfold, TextOf, MissingOf, FaultOf;
  }

  lemma {:induction false} EscapedReference(ctx: Context, ps: seq<Piece>, chain: seq<Text>, k: nat, t: Str)
    requires EscapedAt(ctx, ps, chain, k, t)
    ensures ReadAlike(Unfold(ctx, ps, chain), Unfold(ctx, ps[k := Lit(t, ps[k].raw)], chain))
    decreases |ps|
  {
    hide EscapedAt, ReadAlike, NodesAlike, UnfoldPiece;
    assert k < |ps| && |chain| < MAX_DEPTH by { InBounds(ctx, ps, chain, k, t); }
    var qs := ps[k := Lit(t, ps[k].raw)];
    var last := |ps| - 1;
    if k == last {
      assert qs[..last] == ps[..last];
      EscapedPiece(ctx, ps, chain, k, t);
      assert UnfoldPiece(ctx, qs[last], chain) == Words(t) by { LiteralUnfolds(ctx, qs[last], chain); }
      Itself(Unfold(ctx, ps[..last], chain));
    } else {
      assert qs[..last] == ps[..last][k := Lit(t, ps[k].raw)];
      assert EscapedAt(ctx, ps[..last], chain, k, t) by { InFront(ctx, ps, chain, k, t); }
      EscapedReference(ctx, ps[..last], chain, k, t);
      ItselfNode(UnfoldPiece(ctx, ps[last], chain));
    }
    AlikeOneMore(Unfold(ctx, ps[..last], chain), Unfold(ctx, qs[..last], chain),
                 UnfoldPiece(ctx, ps[last], chain), UnfoldPiece(ctx, qs[last], chain));
  }

  lemma InBounds(ctx: Context, ps: seq<Piece>, chain: seq<Text>, k: nat, t: Str)
    requires EscapedAt(ctx, ps, chain, k, t)
    ensures k < |ps| && |chain| < MAX_DEPTH
  {
  }

  lemma InFront(ctx: Context, ps: seq<Piece>, chain: seq<Text>, k: nat, t: Str)
    requires EscapedAt(ctx, ps, chain, k, t) && k < |ps| - 1
    ensures EscapedAt(ctx, ps[..|ps| - 1], chain, k, t)
  {
    hide IsReference, MeaningOf, Escape;
  }

  lemma LiteralUnfolds(ctx: Context, piece: Piece, chain: seq<Text>)
    requires |chain| <= MAX_DEPTH && piece.Lit?
    ensures UnfoldPiece(ctx, piece, chain) == Words(piece.text)
  {
  }

  lemma Itself(nodes: seq<Node>)
    ensures ReadAlike(nodes, nodes)
  {
  }

  lemma ItselfNode(node: Node)
    ensures NodesAlike(node, node)
  {
  }

  /** The same through scenario and step values: in any template, and wherever in it, a
      reference to a string whose braces are doubled comes to the same as that string
      written out, whatever else the template holds. */
  lemma EscapeRoundTripNested(ctx: Context, template: Text, k: nat, t: Str)
    requires k < |Parse(template)| && Parse(template)[k].Ref?
    requires var m := MeaningOf(ctx, Parse(template)[k].ref.path); m.Again? && m.template == Escape(t)
    ensures Expanded(ctx, template) == ResultOf(Unfold(ctx, Parse(template)[k := Lit(t, Parse(template)[k].raw)], []))
  {
    hide Parse, Escape, MeaningOf, Unfold, TextOf, MissingOf, FaultOf;
    EscapedReference(ctx, Parse(template), [], k, t);
  }

  /** So a template that is such a reference and nothing else expands to the string itself. */
  lemma EscapeRoundTripAlone(ctx: Context, path: Text, t: Str)
    requires IsPath(path) && MeaningOf(ctx, path).Again? && MeaningOf(ctx, path).template == Escape(t)
    ensures Expanded(ctx, Reading(path, false)) == Ok(t)
  {
    hide Parse, Escape, MeaningOf, IsPath, Unfold, UnfoldPiece, Reading, TextOf, MissingOf, FaultOf;
    ReadingParses(path, false);
    EscapeRoundTripNested(ctx, Reading(path, false), 0, t);
    OneLiteral(ctx, t, Reading(path, false));
    assert Parse(Reading(path, false))[0 := Lit(t, Reading(path, false))] == [Lit(t, Reading(path, false))];
  }

  lemma OneLiteral(ctx: Context, t: Text, raw: Text)
    ensures ResultOf(Unfold(ctx, [Lit(t, raw)], [])) == Ok(t)
  {
    var ps := [Lit(t, raw)];
    LiteralsUnfold(ctx, ps, []);
    assert ps[1..] == [] && LitText(ps) == t + [] && t + [] == t;
  }

  // ----- arrays -------------------------------------------------------------------------------------------

  predicate Dotted(t: Text) {
    t == [] ||
    (t[|t| - 1] != DOT && forall k :: 1 <= k < |t| && t[k - 1] == DOT ==> StartsSegment(t[k]))
  }

  predicate Named(segment: Text) { segment != [] && StartsSegment(segment[0]) }

  lemma {:induction false} SegmentsAreNamed(t: Text)
    requires Dotted(t)
    ensures forall k :: 0 < k < |Split(t)| ==> Named(Split(t)[k])
    ensures t != [] && StartsSegment(t[0]) ==> Named(Split(t)[0])
    decreases |t|
  {
    if t != [] {
      var rest := t[1..];
      forall k | 1 <= k < |rest| && rest[k - 1] == DOT ensures StartsSegment(rest[k]) {
        assert t[k] == DOT && rest[k] == t[k + 1];
      }
      SegmentsAreNamed(rest);
    }
  }

  lemma PathIsDotted(path: Text)
    requires IsPath(path)
    ensures Dotted(path)
  {
    forall k | 1 <= k < |path| && path[k - 1] == DOT ensures StartsSegment(path[k]) {
      assert ByteOfPath(path, k);
    }
  }

  lemma NamedIsNoIndex(segment: Text)
    requires Named(segment)
    ensures ParseIndex(segment) == None
  {
    assert !Digit(segment[0]);
    assert !AllDigits(segment);
  }

  /** A reference in a template never indexes an array: no placeholder has a segment that
      parses as an index, whatever array it meets on its way. */
  lemma ReferencesNeverIndexArrays(inner: Text, n: nat, items: seq<Json>)
    requires Placeholder(inner).Some? && 0 < n < |Split(Placeholder(inner).value.path)|
    ensures Descend(Array(items), Split(Placeholder(inner).value.path)[n]) == None
  {
    var path := Placeholder(inner).value.path;
    PathIsDotted(path);
    SegmentsAreNamed(path);
    NamedIsNoIndex(Split(path)[n]);
  }

  // A `when` predicate that is no placeholder is looked up as it stands.
  function WhenPath(trimmed: Text): Text {
    match Placeholder(trimmed)
    case Some(ref) => ref.path
    case None => trimmed
  }

  predicate IsTruthy(v: Json) {
    match v
    case Null => false
    case Bool(b) => b
    case Number(_, nonZero) => nonZero
    case String(s) => s != []
    case Array(items) => items != []
    case Object(fields) => fields != map[]
  }

  /** The condition on an op, its surrounding white space already removed. */
  predicate EvaluateWhen(ctx: Context, trimmed: Text) {
    trimmed == [] ||
    match LookupValue(ctx, WhenPath(trimmed))
    case None => false
    case Some(v) => IsTruthy(v)
  }

  lemma {:induction false} SplitAt(a: Text, b: Text)
    requires DOT !in a
    ensures Split(a + [DOT] + b) == [a] + Split(b)
  {
    var t := a + [DOT] + b;
    if a == [] {
      assert t[1..] == b;
    } else {
      SplitAt(a[1..], b);
      assert t[1..] == a[1..] + [DOT] + b && t[0] == a[0];
      assert [a[0]] + a[1..] == a;
    }
  }

  lemma SplitWhole(a: Text)
    requires DOT !in a
    ensures Split(a) == [a]
    decreases |a|
  {
    if a != [] {
      SplitWhole(a[1..]);
      assert [a[0]] + a[1..] == a;
    }
  }

  lemma NoDotInScenario()
    ensures DOT !in Bytes("scenario")
  {
    assert |Bytes("scenario")| == 8;
  }

  lemma ScenarioSegments(field: Text, index: Text)
    requires DOT !in field && DOT !in index
    ensures Split(Bytes("scenario") + [DOT] + (field + [DOT] + index)) == [Bytes("scenario"), field, index]
  {
    hide Bytes, Split;
    var a := Bytes("scenario");
    NoDotInScenario();
    SplitAt(a, field + [DOT] + index);
    SplitAt(field, index);
    SplitWhole(index);
    assert [a] + ([field] + [index]) == [a, field, index];
  }

  lemma DigitsAreAnIndex(index: Text)
    requires index != [] && AllDigits(index)
    ensures DOT !in index
    ensures ParseIndex(index) == if DigitsValue(index) > USIZE_MAX then None else Some(DigitsValue(index))
  {
    assert Digit(index[0]);
    forall k | 0 <= k < |index| ensures index[k] != DOT { assert Digit(index[k]); }
  }

  /** A plus sign before an index changes nothing. */
  lemma PlusChangesNothing(items: seq<Json>, index: Text)
    requires index != [] && AllDigits(index)
    ensures Descend(Array(items), [PLUS] + index) == Descend(Array(items), index)
  {
    assert ([PLUS] + index)[1..] == index;
    assert Digit(index[0]);
  }

  lemma WalkIntoArray(fields: map<Text, Json>, field: Text, items: seq<Json>, index: Text)
    requires index != [] && AllDigits(index) && field in fields && fields[field] == Array(items)
    ensures Walk(Object(fields), [field, index]) ==
            if DigitsValue(index) <= USIZE_MAX && DigitsValue(index) < |items| then Some(items[DigitsValue(index)]) else None
  {
    DigitsAreAnIndex(index);
    var segments := [field, index];
    assert segments[1..] == [index] && [index][1..] == [];
    var found := Descend(Array(items), index);
    if found.Some? { assert Walk(found.value, [index][1..]) == found; }
  }

  /** The documented numeric index works in a `when` condition and nowhere else: for every
      scenario field holding an array and every decimal index, `scenario.<field>.<index>` is
      no reference, and as a condition it is the truth of that element, or false past the end. */
  lemma WhenIndexesArrays(ctx: Context, field: Text, items: seq<Json>, index: Text)
    requires IsPath(field) && DOT !in field && index != [] && AllDigits(index)
    requires ctx.scenario.Object? && field in ctx.scenario.fields && ctx.scenario.fields[field] == Array(items)
    ensures var p := Bytes("scenario") + [DOT] + (field + [DOT] + index);
            && Placeholder(p).None?
            && (EvaluateWhen(ctx, p) <==>
                  DigitsValue(index) <= USIZE_MAX && DigitsValue(index) < |items| && IsTruthy(items[DigitsValue(index)]))
  {
    DigitsAreAnIndex(index);
    NoPlaceholder(field, index);
    hide Split, Bytes, Placeholder, Walk, IsPath, AllDigits, DigitsValue;
    var p := Bytes("scenario") + [DOT] + (field + [DOT] + index);
    ScenarioSegments(field, index);
    WalkIntoArray(ctx.scenario.fields, field, items, index);
    var segments := Split(p);
    assert segments[1..] == [field, index];
    assert p != [];
  }

  lemma NoPlaceholder(field: Text, index: Text)
    requires index != [] && AllDigits(index)
    ensures Placeholder(Bytes("scenario") + [DOT] + (field + [DOT] + index)).None?
  {
    hide Bytes;
    var p := Bytes("scenario") + [DOT] + (field + [DOT] + index);
    var n := |Bytes("scenario")| + |field| + 2;
    assert p[n] == index[0] && p[n - 1] == DOT && Digit(index[0]);
    assert !ByteOfPath(p, n);
    assert p[|p| - 1] == index[|index| - 1] && Digit(index[|index| - 1]);
  }
}
