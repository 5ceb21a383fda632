/**
  The template expander as it runs: a byte scanner that calls a resolver, which
  calls the scanner again on what it finds, with one chain of references being
  expanded and one list of missing references shared by all of them. Each method
  is proved against the denotation of module Template.
  */
module Expander {
  import opened Prelude
  import opened Utf8
  import opened Template

  // ----- the tree grows with the template ---------------------------------------------

  lemma UnfoldOneMore(ctx: Context, ps: seq<Piece>, p: Piece, chain: seq<Text>)
    requires |chain| <= MAX_DEPTH
    ensures Unfold(ctx, ps + [p], chain) == Unfold(ctx, ps, chain) + [UnfoldPiece(ctx, p, chain)]
  {
    assert (ps + [p])[..|ps|] == ps;
  }

  lemma FoldsOneMore(nodes: seq<Node>, n: Node)
    ensures TextOf(nodes + [n]) == TextOf(nodes) + NodeText(n)
    ensures MissingOf(nodes + [n]) == MissingOf(nodes) + NodeMissing(n)
    ensures FaultOf(nodes + [n]) == match FaultOf(nodes) case Some(f) => Some(f) case None => NodeFault(n)
  {
    assert (nodes + [n])[..|nodes|] == nodes;
  }

  /** A fault found early stays the first fault. */
  lemma {:induction false} FaultSticks(nodes: seq<Node>, more: seq<Node>)
    requires FaultOf(nodes).Some?
    ensures FaultOf(nodes + more) == FaultOf(nodes)
    decreases |more|
  {
    if more == [] {
      assert nodes + more == nodes;
    } else {
      FaultSticks(nodes, more[..|more| - 1]);
      FoldsOneMore(nodes + more[..|more| - 1], more[|more| - 1]);
      assert nodes + more == nodes + more[..|more| - 1] + [more[|more| - 1]];
    }
  }

  lemma {:induction false} UnfoldJoined(ctx: Context, ps: seq<Piece>, qs: seq<Piece>, chain: seq<Text>)
    requires |chain| <= MAX_DEPTH
    ensures Unfold(ctx, ps + qs, chain) == Unfold(ctx, ps, chain) + Unfold(ctx, qs, chain)
    decreases |qs|
  {
    hide UnfoldPiece;
    if qs == [] {
      assert ps + qs == ps;
    } else {
      var front, last := qs[..|qs| - 1], qs[|qs| - 1];
      UnfoldJoined(ctx, ps, front, chain);
      UnfoldOneMore(ctx, ps + front, last, chain);
      UnfoldOneMore(ctx, front, last, chain);
      assert ps + qs == ps + front + [last] && qs == front + [last];
    }
  }

  lemma {:induction false} CollectJoined(known: seq<Text>, a: seq<Text>, b: seq<Text>)
    ensures Collect(known, a + b) == Collect(Collect(known, a), b)
    decreases |b|
  {
    if b == [] {
      assert a + b == a;
    } else {
      CollectJoined(known, a, b[..|b| - 1]);
      assert (a + b)[..|a + b| - 1] == a + b[..|b| - 1];
    }
  }

  // ----- one step of the scanner ------------------------------------------------------------

  /** Where the scanner stands: the pieces read so far account for the output and for
      the missing list, and the rest of the template starts on a character boundary. */
  ghost predicate Standing(ctx: Context, template: Text, i: nat, done: seq<Piece>, chain: seq<Text>,
                           out: Text, known: seq<Text>, missing: seq<Text>)
    requires |chain| <= MAX_DEPTH
  {
    && i <= |template| && WellFormed(template[i..])
    && Parse(template) == done + Parse(template[i..])
    && var nodes := Unfold(ctx, done, chain);
       FaultOf(nodes).None? && out == TextOf(nodes) && missing == Collect(known, MissingOf(nodes))
  }

  lemma ParseOneMore(template: Text, i: nat, done: seq<Piece>)
    requires i < |template| && Parse(template) == done + Parse(template[i..])
    ensures var p := FirstPiece(template[i..]);
            i + |p.raw| <= |template| && Parse(template) == (done + [p]) + Parse(template[i + |p.raw|..])
  {
    hide FirstPiece;
    var p := FirstPiece(template[i..]);
    assert template[i..][|p.raw|..] == template[i + |p.raw|..];
    assert done + ([p] + Parse(template[i + |p.raw|..])) == (done + [p]) + Parse(template[i + |p.raw|..]);
  }

  /** Reading one faultless piece keeps the scanner's standing. */
  lemma Advance(ctx: Context, template: Text, i: nat, done: seq<Piece>, chain: seq<Text>,
                out: Text, known: seq<Text>, missing: seq<Text>, missing': seq<Text>)
    requires |chain| <= MAX_DEPTH && i < |template|
    requires Standing(ctx, template, i, done, chain, out, known, missing)
    requires var p := FirstPiece(template[i..]); var node := UnfoldPiece(ctx, p, chain);
             && NodeFault(node).None? && missing' == Collect(missing, NodeMissing(node))
             && WellFormed(template[i..][|p.raw|..])
    ensures var p := FirstPiece(template[i..]); var node := UnfoldPiece(ctx, p, chain);
            Standing(ctx, template, i + |p.raw|, done + [p], chain, out + NodeText(node), known, missing')
  {
    hide UnfoldPiece, NodeText, NodeMissing, NodeFault, FirstPiece;
    var p := FirstPiece(template[i..]);
    var node := UnfoldPiece(ctx, p, chain);
    ParseOneMore(template, i, done);
    assert template[i..][|p.raw|..] == template[i + |p.raw|..];
    UnfoldOneMore(ctx, done, p, chain);
    FoldsOneMore(Unfold(ctx, done, chain), node);
    CollectJoined(known, MissingOf(Unfold(ctx, done, chain)), NodeMissing(node));
  }

  /** Reading a faulty piece settles the template's fault. */
  lemma Faulted(ctx: Context, template: Text, i: nat, done: seq<Piece>, chain: seq<Text>,
                out: Text, known: seq<Text>, missing: seq<Text>)
    requires |chain| <= MAX_DEPTH && i < |template|
    requires Standing(ctx, template, i, done, chain, out, known, missing)
    requires NodeFault(UnfoldPiece(ctx, FirstPiece(template[i..]), chain)).Some?
    ensures FaultOf(Unfold(ctx, Parse(template), chain)) == NodeFault(UnfoldPiece(ctx, FirstPiece(template[i..]), chain))
  {
    hide UnfoldPiece, NodeText, NodeMissing, NodeFault, FirstPiece;
    var p := FirstPiece(template[i..]);
    ParseOneMore(template, i, done);
    UnfoldOneMore(ctx, done, p, chain);
    FoldsOneMore(Unfold(ctx, done, chain), UnfoldPiece(ctx, p, chain));
    FaultIsFirst(ctx, done + [p], Parse(template[i + |p.raw|..]), chain);
  }

  /** A fault in the pieces done so far is the template's fault. */
  lemma FaultIsFirst(ctx: Context, done: seq<Piece>, rest: seq<Piece>, chain: seq<Text>)
    requires |chain| <= MAX_DEPTH && FaultOf(Unfold(ctx, done, chain)).Some?
    ensures FaultOf(Unfold(ctx, done + rest, chain)) == FaultOf(Unfold(ctx, done, chain))
  {
    UnfoldJoined(ctx, done, rest, chain);
    FaultSticks(Unfold(ctx, done, chain), Unfold(ctx, rest, chain));
  }

  // ----- the methods -------------------------------------------------------------------------

  method FindFrom(t: Text, from: nat) returns (k: nat)
    requires from <= |t|
    ensures k == FindClose(t, from)
  {
    k := from;
    while k < |t| && t[k] != CLOSE
      invariant from <= k <= |t| && FindClose(t, from) == FindClose(t, k)
    {
      k := k + 1;
    }
  }

  method ParsePlaceholder(inner: Text) returns (r: Option<Reference>)
    ensures r == Placeholder(inner)
  {
    if inner == [] { return None; }
    var body, optional := inner, false;
    if inner[|inner| - 1] == QUESTION {
      body, optional := inner[..|inner| - 1], true;
    }
    if body == [] { return None; }
    var prevDot := true;
    for k := 0 to |body|
      invariant prevDot == (k == 0 || body[k - 1] == DOT)
      invariant forall j :: 0 <= j < k ==> ByteOfPath(body, j)
    {
      var b := body[k];
      var valid := if prevDot then StartsSegment(b) else InSegment(b);
      assert valid == ByteOfPath(body, k);
      if !valid { return None; }
      prevDot := b == DOT;
    }
    if body[|body| - 1] == DOT { return None; }
    r := Some(Reference(body, optional));
  }

  method LookUp(ctx: Context, path: Text) returns (r: Option<Json>)
    ensures r == LookupValue(ctx, path)
  {
    hide Bytes, Split, Descend;
    var segments := Split(path);
    var cursor;
    if segments[0] == Bytes("scenario") {
      cursor := ctx.scenario;
    } else if segments[0] == Bytes("step") {
      cursor := ctx.step;
    } else {
      return if path in ctx.flat then Some(String(ctx.flat[path])) else None;
    }
    var n := 1;
    while n < |segments|
      invariant 1 <= n <= |segments|
      invariant Walk(cursor, segments[n..]) == LookupValue(ctx, path)
    {
      var next := Descend(cursor, segments[n]);
      assert segments[n..][1..] == segments[n + 1..];
      if next.None? { return None; }
      cursor := next.value;
      n := n + 1;
    }
    r := Some(cursor);
  }

  class Expansion {
    const ctx: Context
    var chain: seq<Text>
    var missing: seq<Text>

    constructor (ctx: Context)
      ensures this.ctx == ctx && chain == [] && missing == []
    {
      this.ctx := ctx;
      chain, missing := [], [];
    }

    /** One level of expansion. `out` is a Rust string throughout, so the index is on a
        character boundary wherever the template is cut. */
    method ExpandIn(template: Str) returns (r: Result<Str, Fault>)
      requires |chain| <= MAX_DEPTH
      modifies this
      ensures chain == old(chain)
      ensures var nodes := Unfold(ctx, Parse(template), chain);
              match FaultOf(nodes)
              case Some(f) => r == Err(f)
              case None => r.Ok? && r.value == TextOf(nodes) && missing == Collect(old(missing), MissingOf(nodes))
      decreases MAX_DEPTH - |chain|, 2
    {
      hide Unfold, UnfoldPiece, FirstPiece, NodeText, NodeMissing, NodeFault;
      hide TextOf, MissingOf, FaultOf, Parse, Collect, MeaningOf, WellFormed, CharLen;
      var out: Str := Nothing();
      var i := 0;
      ghost var done: seq<Piece> := [];
      StartStanding(ctx, template, chain, missing);
      while i < |template|
        invariant chain == old(chain)
        invariant Standing(ctx, template, i, done, chain, out, old(missing), missing)
      {
        ghost var p := FirstPiece(template[i..]);
        ghost var before := missing;
        var piece := ReadPiece(template, i);
        if piece.Err? {
          Faulted(ctx, template, i, done, chain, out, old(missing), before);
          return Err(piece.error);
        }
        var (n, s) := piece.value;
        Advance(ctx, template, i, done, chain, out, old(missing), before, missing);
        Joined(out, s);
        out, done, i := out + s, done + [p], i + n;
      }
      EndStanding(ctx, template, i, done, chain, out, old(missing), missing);
      r := Ok(out);
    }

    /** One turn of the scanner at index `i`: how far it moves and what it appends. */
    method ReadPiece(template: Str, i: nat) returns (r: Result<(nat, Str), Fault>)
      requires |chain| <= MAX_DEPTH && i < |template| && WellFormed(template[i..])
      modifies this
      ensures chain == old(chain)
      ensures var p := FirstPiece(template[i..]);
              var node := UnfoldPiece(ctx, p, chain);
              match NodeFault(node)
              case Some(f) => r == Err(f)
              case None =>
                && r.Ok? && r.value.0 == |p.raw| && r.value.1 == NodeText(node)
                && missing == Collect(old(missing), NodeMissing(node))
                && WellFormed(template[i..][|p.raw|..])
      decreases MAX_DEPTH - |chain|, 1
    {
      hide Unfold, UnfoldPiece, NodeText, NodeMissing, NodeFault, Collect, Placeholder, WellFormed, CharLen;
      ghost var rest := template[i..];
      ghost var p := FirstPiece(rest);
      LiteralStays(ctx, p, chain, missing);
      var b := template[i];
      if i + 1 < |template| && template[i + 1] == b && (b == OPEN || b == CLOSE) {
        // A doubled brace is one literal brace.
        AfterAscii(rest, 2);
        assert rest[..1] == [b];
        return Ok((2, [b]));
      }
      if b == OPEN {
        var k := FindFrom(template, i + 1);
        FindCloseShift(template, i);
        if k < |template| {
          var found := ParsePlaceholder(template[i + 1..k]);
          assert template[i + 1..k] == rest[1..k - i];
          if found.Some? {
            assert p == Ref(found.value, rest[..k - i + 1]);
            AfterAscii(rest, k - i + 1);
            assert rest[..k - i + 1] == template[i..k + 1];
            var s := Replace(found.value, template[i..k + 1]);
            match s {
              case Err(f) => return Err(f);
              case Ok(text) => return Ok((k + 1 - i, text));
            }
          }
        }
      }
      var ch := CharAt(template, i);
      r := Ok((|ch|, ch));
    }

    /** The text that stands in for a placeholder; `raw` is the placeholder itself. */
    method Replace(ref: Reference, raw: Str) returns (r: Result<Str, Fault>)
      requires |chain| <= MAX_DEPTH
      modifies this
      ensures chain == old(chain)
      ensures var node := UnfoldPiece(ctx, Ref(ref, raw), chain);
              match NodeFault(node)
              case Some(f) => r == Err(f)
              case None => r.Ok? && r.value == NodeText(node) && missing == Collect(old(missing), NodeMissing(node))
      decreases MAX_DEPTH - |chain|, 1, 0
    {
      hide Unfold, TextOf, MissingOf, FaultOf, Parse, MeaningOf, WellFormed, HasNamespace, Collect;
      ghost var node := UnfoldPiece(ctx, Ref(ref, raw), chain);
      CollectOne(missing, NodeMissing(node));
      if chain != [] && ref.path !in ctx.flat && !HasNamespace(ref.path) {
        return Ok(raw);
      }
      var resolved := Resolve(ref.path);
      match resolved {
        case Err(f) => return Err(f);
        case Ok(Some(text)) => return Ok(text);
        case Ok(None) =>
          if !ref.optional && ref.path !in missing {
            missing := missing + [ref.path];
          }
          return Ok(Nothing());
      }
    }

    /** A reference's text, or None when it stands for nothing. */
    method Resolve(path: Text) returns (r: Result<Option<Str>, Fault>)
      requires |chain| <= MAX_DEPTH
      modifies this
      ensures chain == old(chain)
      ensures match MeaningOf(ctx, path)
              case Gone => r == Ok(None) && missing == old(missing)
              case Verbatim(t) => r == Ok(Some(t)) && missing == old(missing)
              case Again(t) =>
                if path in chain then r == Err(Cycle(chain + [path]))
                else if |chain| >= MAX_DEPTH then r == Err(TooDeep(chain + [path]))
                else
                  var nodes := Unfold(ctx, Parse(t), chain + [path]);
                  match FaultOf(nodes)
                  case Some(f) => r == Err(f)
                  case None => r.Ok? && r.value.Some? && r.value.value == TextOf(nodes)
                               && missing == Collect(old(missing), MissingOf(nodes))
      decreases MAX_DEPTH - |chain|, 0
    {
      hide Unfold, TextOf, MissingOf, FaultOf, Parse, Collect, LookupValue, Shown, WellFormed;
      if path in ctx.flat { return Ok(Some(ctx.flat[path])); }
      var v := LookUp(ctx, path);
      if v.None? { return Ok(None); }
      if IsLiteralObject(v.value) { return Ok(Some(v.value.fields[Bytes("literal")].s)); }
      if !v.value.String? { return Ok(Some(Shown(ctx, v.value))); }
      var at := chain + [path];
      if path in chain { return Err(Cycle(at)); }
      if |chain| >= MAX_DEPTH { return Err(TooDeep(at)); }
      chain := chain + [path];
      var expanded := ExpandIn(v.value.s);
      chain := chain[..|chain| - 1];
      match expanded {
        case Ok(s) => r := Ok(Some(s));
        case Err(f) => r := Err(f);
      }
    }
  }

  /** What the dispatcher calls: the command, or why there is none. */
  method ExpandChecked(ctx: Context, template: Str) returns (r: Result<Text, Error>)
    ensures r == Expanded(ctx, template)
  {
    var e := new Expansion(ctx);
    var out := e.ExpandIn(template);
    match out {
      case Err(f) => r := Err(Faulty(f));
      case Ok(text) =>
        CollectEmpty(MissingOf(Unfolded(ctx, template)));
        r := if e.missing == [] then Ok(text) else Err(Unresolved(e.missing));
    }
  }

  // ----- small facts the methods use ---------------------------------------------------------

  function Nothing(): (t: Str)
    ensures t == []
  {
    []
  }

  lemma StartStanding(ctx: Context, template: Text, chain: seq<Text>, known: seq<Text>)
    requires |chain| <= MAX_DEPTH && WellFormed(template)
    ensures Standing(ctx, template, 0, [], chain, [], known, known)
  {
    assert template[0..] == template;
  }

  lemma EndStanding(ctx: Context, template: Text, i: nat, done: seq<Piece>, chain: seq<Text>,
                    out: Text, known: seq<Text>, missing: seq<Text>)
    requires |chain| <= MAX_DEPTH && i == |template|
    requires Standing(ctx, template, i, done, chain, out, known, missing)
    ensures var nodes := Unfold(ctx, Parse(template), chain);
            FaultOf(nodes).None? && out == TextOf(nodes) && missing == Collect(known, MissingOf(nodes))
  {
    assert done + [] == done;
  }

  /** The character at a boundary; it is there because the text is well-formed. */
  function CharAt(t: Str, i: nat): (c: Str)
    requires i < |t| && WellFormed(t[i..])
    ensures c != [] && c == t[i..][..CharLen(t[i..])] && |c| == CharLen(t[i..])
    ensures WellFormed(t[i..][|c|..])
  {
    OneChar(t[i..]);
    t[i..][..CharLen(t[i..])]
  }

  lemma AfterAscii(t: Text, k: nat)
    requires WellFormed(t) && 0 < k <= |t| && t[0] <= 0x7F && t[k - 1] <= 0x7F
    ensures WellFormed(t[k..]) && WellFormed(t[..k]) && WellFormed(t[..1])
  {
    hide WellFormed, CharLen;
    CutAtAscii(t, k - 1);
    var u := t[k - 1..];
    assert u[1..] == t[k..];
    FirstByte(u);
    Joined(t[..k - 1], u[..1]);
    assert t[..k] == t[..k - 1] + u[..1];
    FirstByte(t);
  }

  lemma FirstByte(t: Text)
    requires WellFormed(t) && t != [] && t[0] <= 0x7F
    ensures WellFormed(t[1..]) && WellFormed(t[..1])
  {
    OneChar(t);
  }

  lemma {:induction false} FindCloseFrom(t: Text, i: nat, from: nat)
    requires i <= from <= |t|
    ensures FindClose(t, from) == i + FindClose(t[i..], from - i)
    decreases |t| - from
  {
    if from < |t| && t[from] != CLOSE { FindCloseFrom(t, i, from + 1); }
  }

  lemma FindCloseShift(t: Text, i: nat)
    requires i < |t|
    ensures FindClose(t, i + 1) == i + FindClose(t[i..], 1)
  {
    FindCloseFrom(t, i, i + 1);
  }

  lemma CollectOne(known: seq<Text>, more: seq<Text>)
    ensures |more| == 1 ==> Collect(known, more) == if more[0] in known then known else known + more
    ensures more == [] ==> Collect(known, more) == known
  {
    if |more| == 1 { assert more[..0] == []; }
  }

  lemma LiteralStays(ctx: Context, p: Piece, chain: seq<Text>, known: seq<Text>)
    requires |chain| <= MAX_DEPTH
    ensures p.Lit? ==>
            var node := UnfoldPiece(ctx, p, chain);
            NodeText(node) == p.text && NodeFault(node).None? && Collect(known, NodeMissing(node)) == known
  {
  }

  lemma {:induction false} CollectEmpty(xs: seq<Text>)
    ensures Collect([], xs) == [] <==> xs == []
  {
    if xs != [] { CollectEmpty(xs[..|xs| - 1]); }
  }
}
