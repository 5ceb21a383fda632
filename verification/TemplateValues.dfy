/**
  Which value a reference stands for and what it expands to, said by the data it leads
  through: from `scenario` or `step`, field by field, and from the flat tokens.
  */
module TemplateValues {
  import opened Prelude
  import opened Utf8
  import opened Template
  import opened TemplateTheorems

  predicate Identifier(field: Text) { IsPath(field) && DOT !in field }

  predicate Identifiers(fields: seq<Text>) { forall i :: 0 <= i < |fields| ==> Identifier(fields[i]) }

  function Joined(fields: seq<Text>): Text {
    if fields == [] then [] else [DOT] + fields[0] + Joined(fields[1..])
  }

  /** root.field1.field2 and so on. */
  function PathOf(root: Text, fields: seq<Text>): Text { root + Joined(fields) }

  /** From `v`, object by object, these fields lead to `w`. */
  predicate Leads(v: Json, fields: seq<Text>, w: Json)
    decreases |fields|
  {
    if fields == [] then v == w
    else v.Object? && fields[0] in v.fields && Leads(v.fields[fields[0]], fields[1..], w)
  }

  /** The two roots of a context and their names. */
  predicate Root(ctx: Context, root: Text, v: Json) {
    (root == Bytes("scenario") && v == ctx.scenario) || (root == Bytes("step") && v == ctx.step)
  }

  // ----- paths ---------------------------------------------------------------------------------

  lemma {:induction false} FieldsSplit(a: Text, fields: seq<Text>)
    requires DOT !in a && Identifiers(fields)
    ensures Split(a + Joined(fields)) == [a] + fields
    decreases |fields|
  {
    hide IsPath, Split;
    if fields == [] {
      assert a + [] == a;
      SplitWhole(a);
    } else {
      var rest := fields[0] + Joined(fields[1..]);
      FieldsSplit(fields[0], fields[1..]);
      assert a + Joined(fields) == a + [DOT] + rest;
      SplitAt(a, rest);
      assert [a] + ([fields[0]] + fields[1..]) == [a] + fields;
    }
  }

  lemma PathsJoin(a: Text, b: Text)
    requires IsPath(a) && IsPath(b)
    ensures IsPath(a + [DOT] + b)
  {
    var t := a + [DOT] + b;
    forall k | 0 <= k < |t| ensures ByteOfPath(t, k) {
      if k < |a| {
        assert ByteOfPath(a, k);
      } else if k > |a| {
        assert ByteOfPath(b, k - |a| - 1) && t[k] == b[k - |a| - 1];
        if k > |a| + 1 { assert t[k - 1] == b[k - |a| - 2]; }
      }
    }
    assert t[|t| - 1] == b[|b| - 1];
  }

  lemma {:induction false} FieldsArePath(a: Text, fields: seq<Text>)
    requires IsPath(a) && Identifiers(fields)
    ensures IsPath(a + Joined(fields))
    decreases |fields|
  {
    hide IsPath;
    if fields == [] {
      assert a + [] == a;
    } else {
      var b := fields[0] + Joined(fields[1..]);
      FieldsArePath(fields[0], fields[1..]);
      PathsJoin(a, b);
      assert Joined(fields) == [DOT] + b;
      JoinedAfter(a, [DOT], b);
    }
  }

  lemma RootsAreIdentifiers()
    ensures Identifier(Bytes("scenario")) && Identifier(Bytes("step")) && Bytes("scenario") != Bytes("step")
  {
    hide Bytes;
    assert |Bytes("scenario")| == 8 && |Bytes("step")| == 4;
    LettersAreIdentifier(Bytes("scenario"));
    LettersAreIdentifier(Bytes("step"));
  }

  lemma LettersAreIdentifier(field: Text)
    requires field != [] && forall k :: 0 <= k < |field| ==> Alphabetic(field[k])
    ensures Identifier(field)
  {
    forall k | 0 <= k < |field| ensures ByteOfPath(field, k) { assert Alphabetic(field[k]); }
  }

  predicate Letter(b: Byte) { 0x41 <= b <= 0x5A || 0x61 <= b <= 0x7A || b == 0x5F }

  predicate Inner(b: Byte) { Letter(b) || 0x30 <= b <= 0x39 || b == 0x2D }

  /** A letter or underscore, then letters, digits, underscores and hyphens. */
  predicate Segment(t: Text) { t != [] && Letter(t[0]) && forall k :: 0 <= k < |t| ==> Inner(t[k]) }

  /** The rest of a path that is already inside a segment. */
  predicate RestOfPath(t: Text) {
    t == [] || (t[|t| - 1] != DOT && InSegment(t[0]) && forall k :: 1 <= k < |t| ==> ByteOfPath(t, k))
  }

  predicate AllSegments(ts: seq<Text>) { forall k :: 0 <= k < |ts| ==> Segment(ts[k]) }

  predicate AllInner(t: Text) { forall k :: 0 <= k < |t| ==> Inner(t[k]) }

  /** A reference is dotted identifiers and nothing else: exactly the texts whose every
      stretch between dots is one. */
  lemma {:induction false} PathsAreSegments(t: Text)
    ensures IsPath(t) <==> AllSegments(Split(t))
    decreases |t|, 1
  {
    hide IsPath, RestOfPath, Segment, AllInner, Letter, Inner;
    if t == [] {
      NoPath();
      NoSegment([[]], 0);
    } else {
      RestsAreSegments(t[1..]);
      OneByteIn(t);
      var more := Split(t[1..]);
      if t[0] == DOT {
        assert Split(t)[0] == [];
        NoSegment(Split(t), 0);
      } else {
        assert Split(t) == [[t[0]] + more[0]] + more[1..];
        FirstGrows(t[0], more);
      }
    }
  }

  lemma {:induction false} RestsAreSegments(t: Text)
    ensures RestOfPath(t) <==> AllInner(Split(t)[0]) && AllSegments(Split(t)[1..])
    decreases |t|, 0
  {
    hide IsPath, RestOfPath, Segment, Letter, Inner, AllSegments;
    if t == [] {
      NoRest();
      assert Split(t)[0] == [] && Split(t)[1..] == [];
    } else {
      var rest := t[1..];
      OneByteOn(t);
      if t[0] == DOT {
        PathsAreSegments(rest);
        assert Split(t)[1..] == Split(rest);
      } else {
        RestsAreSegments(rest);
        OneMoreInner(t[0], Split(rest)[0]);
        assert Split(t)[1..] == Split(rest)[1..];
      }
    }
  }

  lemma NoRest()
    ensures RestOfPath([]) && AllSegments([])
  {
  }

  lemma NoSegment(ts: seq<Text>, k: nat)
    requires k < |ts| && ts[k] == []
    ensures !AllSegments(ts)
  {
    assert !Segment(ts[k]);
  }

  lemma OneMoreInner(b: Byte, rest: Text)
    ensures AllInner([b] + rest) <==> Inner(b) && AllInner(rest)
  {
    var t := [b] + rest;
    assert t[0] == b && forall k :: 0 <= k < |rest| ==> t[k + 1] == rest[k];
    if AllInner(t) {
      forall k | 0 <= k < |rest| ensures Inner(rest[k]) { assert Inner(t[k + 1]); }
    }
  }

  lemma FirstGrows(b: Byte, more: seq<Text>)
    requires more != []
    ensures AllSegments([[b] + more[0]] + more[1..]) <==> Letter(b) && AllInner(more[0]) && AllSegments(more[1..])
  {
    var ts := [[b] + more[0]] + more[1..];
    OneMoreInner(b, more[0]);
    assert ts[0] == [b] + more[0] && ts[0][0] == b && ts[1..] == more[1..];
    assert Segment(ts[0]) <==> Letter(b) && AllInner(ts[0]);
    hide Segment, AllInner;
    assert AllSegments(ts) <==> Segment(ts[0]) && AllSegments(ts[1..]) by { SegmentsFrom(ts); }
  }

  lemma SegmentsFrom(ts: seq<Text>)
    requires ts != []
    ensures AllSegments(ts) <==> Segment(ts[0]) && AllSegments(ts[1..])
  {
    hide Segment;
    forall k | 1 <= k < |ts| ensures ts[k] == ts[1..][k - 1] { }
    if AllSegments(ts) {
      forall k | 0 <= k < |ts| - 1 ensures Segment(ts[1..][k]) { assert Segment(ts[k + 1]); }
    }
  }

  lemma NoPath()
    ensures !IsPath([])
  {
  }

  lemma OneByteIn(t: Text)
    requires t != []
    ensures IsPath(t) <==> Letter(t[0]) && RestOfPath(t[1..])
    ensures Letter(t[0]) ==> t[0] != DOT && Inner(t[0])
  {
    PathGoesOn(t);
  }

  lemma PathGoesOn(t: Text)
    requires t != []
    ensures IsPath(t) <==> StartsSegment(t[0]) && RestOfPath(t[1..])
  {
    var rest := t[1..];
    hide StartsSegment, InSegment;
    if IsPath(t) {
      assert ByteOfPath(t, 0);
      forall k | 1 <= k < |rest| ensures ByteOfPath(rest, k) { assert ByteOfPath(t, k + 1); }
      if rest != [] { assert ByteOfPath(t, 1); }
    }
    if StartsSegment(t[0]) && RestOfPath(rest) {
      forall k | 0 <= k < |t| ensures ByteOfPath(t, k) { if k > 1 { assert ByteOfPath(rest, k - 1); } }
    }
  }

  lemma OneByteOn(t: Text)
    requires t != []
    ensures t[0] == DOT ==> (RestOfPath(t) <==> IsPath(t[1..]))
    ensures t[0] != DOT ==> (RestOfPath(t) <==> Inner(t[0]) && RestOfPath(t[1..]))
  {
    var rest := t[1..];
    forall k | 1 <= k < |t| ensures ByteOfPath(t, k) == if k == 1 && t[0] != DOT then InSegment(t[1]) else ByteOfPath(rest, k - 1) {
    }
    if rest != [] { assert t[|t| - 1] == rest[|rest| - 1]; }
    hide StartsSegment;
    if RestOfPath(t) {
      forall k | 0 <= k < |rest| && (k > 0 || t[0] == DOT) ensures ByteOfPath(rest, k) { assert ByteOfPath(t, k + 1); }
      if rest != [] { assert ByteOfPath(t, 1); }
    }
  }

  // ----- values ----------------------------------------------------------------------------------

  lemma IdentifierIsNoIndex(field: Text)
    requires Identifier(field)
    ensures ParseIndex(field) == None
  {
    assert ByteOfPath(field, 0);
    NamedIsNoIndex(field);
  }

  lemma {:induction false} WalkLeads(v: Json, fields: seq<Text>, w: Json)
    requires Identifiers(fields)
    ensures Walk(v, fields) == Some(w) <==> Leads(v, fields, w)
    decreases |fields|
  {
    if fields != [] {
      hide IsPath, ParseIndex;
      IdentifierIsNoIndex(fields[0]);
      if v.Object? && fields[0] in v.fields { WalkLeads(v.fields[fields[0]], fields[1..], w); }
    }
  }

  /** A path from `scenario` or `step` stands for the value its fields lead to from just that
      root, and for nothing if they lead nowhere. */
  lemma PathReads(ctx: Context, root: Text, v: Json, fields: seq<Text>, w: Json)
    requires Root(ctx, root, v) && Identifiers(fields)
    ensures LookupValue(ctx, PathOf(root, fields)) == Some(w) <==> Leads(v, fields, w)
  {
    hide Bytes, Split, Walk, Joined, IsPath;
    RootsAreIdentifiers();
    FieldsSplit(root, fields);
    assert ([root] + fields)[1..] == fields;
    WalkLeads(v, fields, w);
  }

  /** Neither root has a say in what a path from the other stands for. */
  lemma OtherRootHasNoSay(ctx: Context, fields: seq<Text>, other: Json)
    requires Identifiers(fields)
    ensures MeaningOf(ctx.(scenario := other), PathOf(Bytes("step"), fields)) == MeaningOf(ctx, PathOf(Bytes("step"), fields))
    ensures MeaningOf(ctx.(step := other), PathOf(Bytes("scenario"), fields)) == MeaningOf(ctx, PathOf(Bytes("scenario"), fields))
  {
    hide Bytes, Split, Walk, Joined, IsPath, IsLiteralObject;
    RootsAreIdentifiers();
    FieldsSplit(Bytes("step"), fields);
    FieldsSplit(Bytes("scenario"), fields);
  }

  // ----- expansions of one reference -----------------------------------------------------------

  /** The outcome of a template that is one piece. */
  lemma OnePieceEnds(ctx: Context, template: Text, piece: Piece)
    requires Parse(template) == [piece]
    ensures Expanded(ctx, template) ==
            match UnfoldPiece(ctx, piece, [])
            case Words(t) => Ok(t)
            case Missing(path) => Err(Unresolved([path]))
            case Inner(_, nodes) => ResultOf(nodes)
            case Broken(f) => Err(Faulty(f))
  {
    hide Parse, UnfoldPiece, TextOf, MissingOf, FaultOf, Collect;
    var node := UnfoldPiece(ctx, piece, []);
    assert [piece][..0] == [];
    assert Unfold(ctx, [piece], []) == [node];
    OneNodeReads(node);
    if node.Missing? { CollectsOne(node.path); }
  }

  lemma OneNodeReads(node: Node)
    ensures TextOf([node]) == NodeText(node) && MissingOf([node]) == NodeMissing(node) && FaultOf([node]) == NodeFault(node)
  {
    hide NodeText, NodeMissing, NodeFault, TextOf, MissingOf, FaultOf;
    Empty();
    OneMoreNode([], node);
    assert [] + [node] == [node];
    assert [] + NodeText(node) == NodeText(node) && [] + NodeMissing(node) == NodeMissing(node);
  }

  lemma Empty()
    ensures TextOf([]) == [] && MissingOf([]) == [] && FaultOf([]) == None
  {
  }

  lemma CollectsOne(path: Text)
    ensures Collect([], [path]) == [path]
  {
    assert [path][..0] == [];
  }

  /** A flat token wins over both roots. */
  lemma FlatTokenWins(ctx: Context, path: Text, optional: bool)
    requires IsPath(path) && path in ctx.flat
    ensures Expanded(ctx, Reading(path, optional)) == Ok(ctx.flat[path])
  {
    hide Parse, IsPath, Reading, Expanded;
    ReadingParses(path, optional);
    OnePieceEnds(ctx, Reading(path, optional), Ref(Reference(path, optional), Reading(path, optional)));
  }

  lemma MeaningEnds(ctx: Context, path: Text, optional: bool)
    requires IsPath(path)
    ensures var m := MeaningOf(ctx, path); var outcome := Expanded(ctx, Reading(path, optional));
            && (m.Verbatim? ==> outcome == Ok(m.text))
            && (m.Gone? ==> outcome == if optional then Ok([]) else Err(Unresolved([path])))
            && (m.Again? ==> outcome == ResultOf(Unfold(ctx, Parse(m.template), [path])))
  {
    hide Parse, IsPath, Reading, Expanded, MeaningOf, Unfold, TextOf, MissingOf, FaultOf, Collect;
    ReadingParses(path, optional);
    assert [] + [path] == [path];
    OnePieceEnds(ctx, Reading(path, optional), Ref(Reference(path, optional), Reading(path, optional)));
  }

  lemma PathMeans(ctx: Context, root: Text, v: Json, fields: seq<Text>, w: Json)
    requires Root(ctx, root, v) && Identifiers(fields) && PathOf(root, fields) !in ctx.flat && Leads(v, fields, w)
    ensures IsPath(PathOf(root, fields)) && LookupValue(ctx, PathOf(root, fields)) == Some(w)
  {
    hide Bytes, Leads, LookupValue, Joined, IsPath;
    RootsAreIdentifiers();
    FieldsArePath(root, fields);
    PathReads(ctx, root, v, fields, w);
  }

  /** A reference from `scenario` or `step` to a string: the string itself if it has no
      braces, and in general the text whose braces, doubled, it spells. */
  lemma StringExpands(ctx: Context, root: Text, v: Json, fields: seq<Text>, t: Str, s: Str, optional: bool)
    requires Root(ctx, root, v) && Identifiers(fields) && PathOf(root, fields) !in ctx.flat
    requires Leads(v, fields, String(s)) && s == Escape(t)
    ensures Expanded(ctx, Reading(PathOf(root, fields), optional)) == Ok(t)
  {
    hide Bytes, Leads, LookupValue, Joined, IsPath, Escape, Reading, Expanded, Parse, Unfold, TextOf, MissingOf, FaultOf, Collect;
    hide LitText, AllLiteral, PathOf, WellFormed, CharLen;
    var path := PathOf(root, fields);
    PathMeans(ctx, root, v, fields, String(s));
    MeaningEnds(ctx, path, optional);
    EscapeParses(t);
    LiteralsUnfold(ctx, Parse(s), [path]);
  }

  /** A string without braces is itself. */
  lemma PlainStringExpands(ctx: Context, root: Text, v: Json, fields: seq<Text>, s: Str, optional: bool)
    requires Root(ctx, root, v) && Identifiers(fields) && PathOf(root, fields) !in ctx.flat
    requires Leads(v, fields, String(s)) && OPEN !in s && CLOSE !in s
    ensures Expanded(ctx, Reading(PathOf(root, fields), optional)) == Ok(s)
  {
    EscapeBraceless(s);
    hide Expanded, Reading, PathOf, Leads, Root, Escape;
    StringExpands(ctx, root, v, fields, s, s, optional);
  }

  /** What is no string: nothing for null, true or false, the number as it is displayed, the
      JSON text of an array or an object; and the string of a `literal` object as it stands,
      braces and all. */
  lemma OtherValuesExpand(ctx: Context, root: Text, v: Json, fields: seq<Text>, w: Json, optional: bool)
    requires Root(ctx, root, v) && Identifiers(fields) && PathOf(root, fields) !in ctx.flat
    requires Leads(v, fields, w) && !w.String?
    ensures Expanded(ctx, Reading(PathOf(root, fields), optional)) ==
            Ok(if w == Null then []
               else if w == Bool(true) then Bytes("true")
               else if w == Bool(false) then Bytes("false")
               else if w.Number? then w.shown
               else if w.Object? && w.fields.Keys == {Bytes("literal")} && w.fields[Bytes("literal")].String? then
                 w.fields[Bytes("literal")].s
               else ctx.render(w))
  {
    hide Bytes, Leads, LookupValue, Joined, IsPath, Reading, Expanded, Parse, Unfold, PathOf;
    PathMeans(ctx, root, v, fields, w);
    MeaningEnds(ctx, PathOf(root, fields), optional);
  }

  /** A reference whose fields lead nowhere is unresolved, or nothing if it is optional. */
  lemma NowhereExpands(ctx: Context, root: Text, v: Json, fields: seq<Text>, optional: bool)
    requires Root(ctx, root, v) && Identifiers(fields) && PathOf(root, fields) !in ctx.flat
    requires forall w :: !Leads(v, fields, w)
    ensures var path := PathOf(root, fields);
            Expanded(ctx, Reading(path, optional)) == if optional then Ok([]) else Err(Unresolved([path]))
  {
    hide Bytes, Leads, LookupValue, Joined, IsPath, Reading, Expanded, PathOf;
    var path := PathOf(root, fields);
    RootsAreIdentifiers();
    assert IsPath(path) by { PathOfIsPath(root, fields); }
    if LookupValue(ctx, path).Some? { PathReads(ctx, root, v, fields, LookupValue(ctx, path).value); }
    MeaningEnds(ctx, path, optional);
  }

  lemma PathOfIsPath(root: Text, fields: seq<Text>)
    requires IsPath(root) && Identifiers(fields)
    ensures IsPath(PathOf(root, fields))
  {
    FieldsArePath(root, fields);
  }

  /** A name nobody knows is unresolved, or nothing if it is optional. */
  lemma UnknownNameExpands(ctx: Context, q: Text, optional: bool)
    requires Identifier(q) && q !in ctx.flat && q != Bytes("scenario") && q != Bytes("step")
    ensures Expanded(ctx, Reading(q, optional)) == if optional then Ok([]) else Err(Unresolved([q]))
  {
    hide Bytes, IsPath, Reading, Expanded, Split;
    SplitWhole(q);
    MeaningEnds(ctx, q, optional);
  }

  // ----- references inside values --------------------------------------------------------------

  /** The string a value holds is one reference to `q`: what becomes of it. */
  lemma InsideEnds(ctx: Context, root: Text, v: Json, fields: seq<Text>, q: Text, s: Str, optional: bool)
    requires Root(ctx, root, v) && Identifiers(fields) && PathOf(root, fields) !in ctx.flat
    requires Leads(v, fields, String(s)) && IsPath(q) && s == Reading(q, false)
    ensures var path := PathOf(root, fields);
            Expanded(ctx, Reading(path, optional))
            == ResultOf([UnfoldPiece(ctx, Ref(Reference(q, false), s), [path])])
  {
    hide Bytes, Leads, LookupValue, Joined, IsPath, Reading, Expanded, Parse, UnfoldPiece, TextOf, MissingOf, FaultOf, Collect, PathOf;
    var path := PathOf(root, fields);
    var piece := Ref(Reference(q, false), s);
    PathMeans(ctx, root, v, fields, String(s));
    MeaningEnds(ctx, path, optional);
    ReadingParses(q, false);
    assert [piece][..0] == [];
    assert Unfold(ctx, [piece], [path]) == [UnfoldPiece(ctx, piece, [path])];
  }

  lemma OneNodeEnds(node: Node)
    ensures ResultOf([node]) ==
            match node
            case Words(t) => Ok(t)
            case Missing(path) => Err(Unresolved([path]))
            case Inner(_, nodes) => ResultOf(nodes)
            case Broken(f) => Err(Faulty(f))
  {
    hide TextOf, MissingOf, FaultOf, Collect;
    OneNodeReads(node);
    Empty();
    if node.Missing? { CollectsOne(node.path); }
  }

  /** Inside a value a name in braces that is neither a flat token nor under one of the
      harness's own namespaces is somebody else's marker and stays as it is. */
  lemma MarkersStay(ctx: Context, root: Text, v: Json, fields: seq<Text>, q: Text, s: Str, optional: bool)
    requires Root(ctx, root, v) && Identifiers(fields) && PathOf(root, fields) !in ctx.flat
    requires Leads(v, fields, String(s)) && s == Reading(q, false) && Identifier(q) && q !in ctx.flat
    ensures Expanded(ctx, Reading(PathOf(root, fields), optional)) == Ok(s)
  {
    hide Bytes, Leads, LookupValue, Joined, IsPath, Reading, Expanded, Parse, TextOf, MissingOf, FaultOf, Collect, PathOf;
    hide MeaningOf, HasNamespace;
    InsideEnds(ctx, root, v, fields, q, s, optional);
    NoNamespace(q);
    OneNodeEnds(UnfoldPiece(ctx, Ref(Reference(q, false), s), [PathOf(root, fields)]));
  }

  lemma NoNamespace(q: Text)
    requires DOT !in q
    ensures !HasNamespace(q)
  {
    hide Bytes;
    NotUnder("scenario.", q);
    NotUnder("step.", q);
    NotUnder("tools.", q);
    NotUnder("vm.", q);
  }

  lemma NotUnder(name: string, q: Text)
    requires DOT !in q && name != "" && name[|name| - 1] == '.'
    ensures !(Bytes(name) <= q)
  {
    hide Bytes;
    if Bytes(name) <= q { Under(name, q); }
  }

  lemma Under(name: string, q: Text)
    requires Bytes(name) <= q && name != "" && name[|name| - 1] == '.'
    ensures DOT in q
  {
    hide Bytes;
    assert q[|name| - 1] == DOT;
  }

  /** A reference under `tools` or `vm` is one even there: without such a token it is unresolved. */
  lemma NamespacesAreOurs(ctx: Context, root: Text, v: Json, fields: seq<Text>, space: Text, more: seq<Text>, s: Str, optional: bool)
    requires Root(ctx, root, v) && Identifiers(fields) && PathOf(root, fields) !in ctx.flat
    requires space == Bytes("tools") || space == Bytes("vm")
    requires more != [] && Identifiers(more) && PathOf(space, more) !in ctx.flat
    requires Leads(v, fields, String(s)) && s == Reading(PathOf(space, more), false)
    ensures Expanded(ctx, Reading(PathOf(root, fields), optional)) == Err(Unresolved([PathOf(space, more)]))
  {
    hide Bytes, Leads, Joined, IsPath, Reading, Expanded, Parse, TextOf, MissingOf, FaultOf, Collect, PathOf, HasNamespace, Split;
    var q := PathOf(space, more);
    SpacesAreNamespaces(space, more);
    InsideEnds(ctx, root, v, fields, q, s, optional);
    OneNodeEnds(UnfoldPiece(ctx, Ref(Reference(q, false), s), [PathOf(root, fields)]));
  }

  lemma SpacesAreNamespaces(space: Text, more: seq<Text>)
    requires space == Bytes("tools") || space == Bytes("vm")
    requires more != [] && Identifiers(more)
    ensures HasNamespace(PathOf(space, more)) && IsPath(PathOf(space, more))
    ensures var root := Split(PathOf(space, more))[0]; root != Bytes("scenario") && root != Bytes("step")
  {
    hide Bytes, IsPath, Split;
    assert |Bytes("tools")| == 5 && |Bytes("vm")| == 2 && |Bytes("scenario")| == 8 && |Bytes("step")| == 4;
    assert Identifier(space) by { LettersAreIdentifier(space); }
    FieldsArePath(space, more);
    FieldsSplit(space, more);
    Prefixed(space, if space == Bytes("tools") then "tools." else "vm.", more);
  }

  lemma Prefixed(space: Text, name: string, more: seq<Text>)
    requires more != [] && |name| == |space| + 1 && space == Bytes(name)[..|space|] && name[|space|] == '.'
    ensures Bytes(name) <= PathOf(space, more)
  {
    WithDot(space, name);
    FirstJoined(more);
    hide Bytes, Joined;
    Onward(space, more[0], Joined(more[1..]));
  }

  lemma WithDot(space: Text, name: string)
    requires |name| == |space| + 1 && space == Bytes(name)[..|space|] && name[|space|] == '.'
    ensures Bytes(name) == space + [DOT]
  {
    hide Bytes;
  }

  lemma Onward(space: Text, field: Text, rest: Text)
    ensures space + [DOT] <= space + ([DOT] + field + rest)
  {
    JoinedAfter([DOT], field, rest);
    JoinedAfter(space, [DOT], field + rest);
    Begins(space + [DOT], field + rest);
  }

  lemma FirstJoined(fields: seq<Text>)
    requires fields != []
    ensures Joined(fields) == [DOT] + fields[0] + Joined(fields[1..])
  {
  }

  lemma Begins(a: Text, b: Text)
    ensures a <= a + b
  {
  }

  /** A reference inside a value is followed: two steps from a template to plain text. */
  lemma TwoStepsExpand(ctx: Context, root: Text, v: Json, fields: seq<Text>, root2: Text, v2: Json, more: seq<Text>,
                       s: Str, t: Str, optional: bool)
    requires Root(ctx, root, v) && Identifiers(fields) && PathOf(root, fields) !in ctx.flat
    requires Root(ctx, root2, v2) && Identifiers(more) && more != [] && PathOf(root2, more) !in ctx.flat
    requires PathOf(root2, more) != PathOf(root, fields)
    requires Leads(v, fields, String(s)) && s == Reading(PathOf(root2, more), false)
    requires Leads(v2, more, String(t)) && OPEN !in t && CLOSE !in t
    ensures Expanded(ctx, Reading(PathOf(root, fields), optional)) == Ok(t)
  {
    hide Bytes, Leads, Joined, IsPath, Reading, Expanded, Parse, TextOf, MissingOf, FaultOf, Collect, PathOf, HasNamespace, Split;
    hide LookupValue, Unfold, Escape, LitText, AllLiteral, Root;
    var path, q := PathOf(root, fields), PathOf(root2, more);
    PathMeans(ctx, root2, v2, more, String(t));
    RootIsNamespace(ctx, root2, v2, more);
    InsideEnds(ctx, root, v, fields, q, s, optional);
    EscapeBraceless(t);
    EscapeParses(t);
    LiteralsUnfold(ctx, Parse(t), [path] + [q]);
    OneNodeEnds(UnfoldPiece(ctx, Ref(Reference(q, false), s), [path]));
  }

  lemma RootIsNamespace(ctx: Context, root: Text, v: Json, more: seq<Text>)
    requires Root(ctx, root, v) && more != [] && Identifiers(more)
    ensures HasNamespace(PathOf(root, more))
  {
    hide Bytes;
    assert |Bytes("scenario")| == 8 && |Bytes("step")| == 4;
    Prefixed(root, if root == Bytes("scenario") then "scenario." else "step.", more);
  }

  // ----- conditions --------------------------------------------------------------------------------

  /** Null, false, zero, and whatever is empty. */
  predicate NothingMuch(w: Json) {
    || w == Null || w == Bool(false) || (w.Number? && !w.nonZero)
    || (w.String? && |w.s| == 0) || (w.Array? && |w.items| == 0) || (w.Object? && |w.fields| == 0)
  }

  /** A condition on a value: false for null, false, zero, and the empty string, array and
      object; false where the fields lead nowhere; true otherwise. A question mark changes nothing. */
  lemma WhenReads(ctx: Context, root: Text, v: Json, fields: seq<Text>, optional: bool)
    requires Root(ctx, root, v) && Identifiers(fields)
    ensures var condition := PathOf(root, fields) + if optional then [QUESTION] else [];
            EvaluateWhen(ctx, condition) <==>
              exists w :: Leads(v, fields, w) && !NothingMuch(w)
  {
    hide Bytes, Leads, Joined, IsPath, PathOf, LookupValue, Placeholder;
    var path := PathOf(root, fields);
    RootsAreIdentifiers();
    PathOfIsPath(root, fields);
    InnerParses(path, optional);
    assert path != [] by { NotEmpty(path); }
    assert path + (if optional then [QUESTION] else []) != [];
    forall w ensures LookupValue(ctx, path) == Some(w) <==> Leads(v, fields, w) { PathReads(ctx, root, v, fields, w); }
    if LookupValue(ctx, path).Some? { TruthIs(LookupValue(ctx, path).value); }
  }

  lemma NotEmpty(path: Text)
    requires IsPath(path)
    ensures path != []
  {
  }

  lemma TruthIs(w: Json)
    ensures IsTruthy(w) <==> !NothingMuch(w)
  {
  }
}
