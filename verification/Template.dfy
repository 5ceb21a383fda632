/**
  What a command template means, said without a scanner: a template is a sequence
  of literals and references, a reference unfolds to what it names, and text,
  missing references and faults are read off the unfolded tree.
  */
module Template {
  import opened Prelude
  import opened Utf8

  const OPEN: Byte := 0x7B
  const CLOSE: Byte := 0x7D
  const DOT: Byte := 0x2E
  const QUESTION: Byte := 0x3F
  const UNDERSCORE: Byte := 0x5F
  const HYPHEN: Byte := 0x2D
  const PLUS: Byte := 0x2B

  const MAX_DEPTH: nat := 8

  // ----- placeholders ----------------------------------------------------------------

  predicate Alphabetic(b: Byte) { 0x41 <= b <= 0x5A || 0x61 <= b <= 0x7A }

  predicate Digit(b: Byte) { 0x30 <= b <= 0x39 }

  predicate StartsSegment(b: Byte) { Alphabetic(b) || b == UNDERSCORE }

  predicate InSegment(b: Byte) { Alphabetic(b) || Digit(b) || b == UNDERSCORE || b == HYPHEN || b == DOT }

  predicate ByteOfPath(t: Text, k: nat)
    requires k < |t|
  {
    if k == 0 || t[k - 1] == DOT then StartsSegment(t[k]) else InSegment(t[k])
  }

  /** Dotted identifiers: every segment starts with a letter or underscore. */
  predicate IsPath(t: Text) {
    && t != [] && t[|t| - 1] != DOT
    && forall k :: 0 <= k < |t| ==> ByteOfPath(t, k)
  }

  datatype Reference = Reference(path: Text, optional: bool)

  function Placeholder(inner: Text): Option<Reference> {
    if inner == [] then None
    else
      var optional := inner[|inner| - 1] == QUESTION;
      var body := if optional then inner[..|inner| - 1] else inner;
      if IsPath(body) then Some(Reference(body, optional)) else None
  }

  // ----- parsing ----------------------------------------------------------------------

  /** `raw` is the stretch of template a piece was read from. */
  datatype Piece =
    | Lit(text: Text, raw: Text)
    | Ref(ref: Reference, raw: Text)

  /** The first closing brace at or after `from`, or the length. */
  function FindClose(t: Text, from: nat): (k: nat)
    requires from <= |t|
    ensures from <= k <= |t| && (k < |t| ==> t[k] == CLOSE)
    ensures forall j :: from <= j < k ==> t[j] != CLOSE
    decreases |t| - from
  {
    if from == |t| || t[from] == CLOSE then from else FindClose(t, from + 1)
  }

  predicate DoubledBrace(t: Text) {
    |t| >= 2 && t[0] == t[1] && (t[0] == OPEN || t[0] == CLOSE)
  }

  /** The piece a template starts with. */
  function FirstPiece(t: Text): (p: Piece)
    requires t != []
    ensures 0 < |p.raw| <= |t| && p.raw == t[..|p.raw|]
  {
    if DoubledBrace(t) then Lit(t[..1], t[..2])
    else
      var k := FindClose(t, 1);
      if t[0] == OPEN && k < |t| && Placeholder(t[1..k]).Some? then
        Ref(Placeholder(t[1..k]).value, t[..k + 1])
      else
        var n := if CharLen(t) > 0 then CharLen(t) else 1;
        Lit(t[..n], t[..n])
  }

  function Parse(t: Text): seq<Piece>
    decreases |t|
  {
    if t == [] then [] else [FirstPiece(t)] + Parse(t[|FirstPiece(t).raw|..])
  }

  function Unparse(ps: seq<Piece>): Text {
    if ps == [] then [] else ps[0].raw + Unparse(ps[1..])
  }

  /** Parsing loses nothing: the pieces are the template, cut up. */
  lemma {:induction false} ParseIsLossless(t: Text)
    ensures Unparse(Parse(t)) == t
    decreases |t|
  {
    if t != [] {
      var n := |FirstPiece(t).raw|;
      ParseIsLossless(t[n..]);
      assert t == t[..n] + t[n..];
      assert Parse(t)[1..] == Parse(t[n..]);
    }
  }

  // ----- the context --------------------------------------------------------------------

  /** A number is kept as its display form and whether it is non-zero. */
  datatype Json =
    | Null
    | Bool(b: bool)
    | Number(shown: Str, nonZero: bool)
    | String(s: Str)
    | Array(items: seq<Json>)
    | Object(fields: map<Text, Json>)

  /** `render` is the JSON text of an array or object, which another library prints. */
  datatype Context = Context(flat: map<Text, Str>, scenario: Json, step: Json, render: Json -> Str)

  function Split(t: Text): (segments: seq<Text>)
    ensures |segments| > 0
  {
    if t == [] then [[]]
    else
      var rest := Split(t[1..]);
      if t[0] == DOT then [[]] + rest else [[t[0]] + rest[0]] + rest[1..]
  }

  predicate AllDigits(t: Text) { forall i :: 0 <= i < |t| ==> Digit(t[i]) }

  function DigitsValue(t: Text): nat
    requires AllDigits(t)
  {
    if t == [] then 0
    else
      assert Digit(t[|t| - 1]);
      10 * DigitsValue(t[..|t| - 1]) + (t[|t| - 1] as int - 0x30)
  }

  const USIZE_MAX := 0xFFFF_FFFF_FFFF_FFFF

  /** An array index as Rust parses one: an optional plus sign, then digits, within 64 bits. */
  function ParseIndex(seg: Text): Option<nat> {
    var digits := if seg != [] && seg[0] == PLUS then seg[1..] else seg;
    if digits == [] || !AllDigits(digits) then None
    else if DigitsValue(digits) > USIZE_MAX then None
    else Some(DigitsValue(digits))
  }

  /** One segment down into a value. */
  function Descend(v: Json, seg: Text): Option<Json> {
    match v
    case Object(m) => if seg in m then Some(m[seg]) else None
    case Array(items) =>
      (match ParseIndex(seg)
       case Some(i) => if i < |items| then Some(items[i]) else None
       case None => None)
    case _ => None
  }

  function Walk(v: Json, segments: seq<Text>): Option<Json> {
    if segments == [] then Some(v)
    else match Descend(v, segments[0])
         case Some(w) => Walk(w, segments[1..])
         case None => None
  }

  function LookupValue(ctx: Context, path: Text): Option<Json> {
    var segments := Split(path);
    if segments[0] == Bytes("scenario") then Walk(ctx.scenario, segments[1..])
    else if segments[0] == Bytes("step") then Walk(ctx.step, segments[1..])
    else if path in ctx.flat then Some(String(ctx.flat[path])) else None
  }

  function Shown(ctx: Context, v: Json): Str {
    match v
    case Null => []
    case Bool(b) => ShownBool(b)
    case Number(n, _) => n
    case String(s) => s
    case _ => ctx.render(v)
  }

  function ShownBool(b: bool): Str {
    var t := if b then Bytes("true") else Bytes("false");
    AsciiIsWellFormed(t);
    t
  }

  predicate IsLiteralObject(v: Json) {
    v.Object? && v.fields.Keys == {Bytes("literal")} && v.fields[Bytes("literal")].String?
  }

  /** What a path stands for: nothing, text to use as it is, or a template in its turn. */
  datatype Meaning = Gone | Verbatim(text: Str) | Again(template: Str)

  function MeaningOf(ctx: Context, path: Text): Meaning {
    if path in ctx.flat then Verbatim(ctx.flat[path])
    else match LookupValue(ctx, path)
         case None => Gone
         case Some(v) =>
           if IsLiteralObject(v) then Verbatim(v.fields[Bytes("literal")].s)
           else if v.String? then Again(v.s)
           else Verbatim(Shown(ctx, v))
  }

  predicate HasNamespace(path: Text) {
    || Bytes("scenario.") <= path || Bytes("step.") <= path
    || Bytes("tools.") <= path || Bytes("vm.") <= path
  }

  /** Inside a resolved value only harness namespaces and known flat tokens are references;
      anything else in braces is the consumer's own marker. */
  predicate IsReference(ctx: Context, nested: bool, path: Text) {
    !nested || path in ctx.flat || HasNamespace(path)
  }

  // ----- unfolding --------------------------------------------------------------------------

  datatype Fault = Cycle(refs: seq<Text>) | TooDeep(refs: seq<Text>)

  datatype Node =
    | Words(text: Text)
    | Missing(path: Text)
    | Inner(path: Text, nodes: seq<Node>)
    | Broken(fault: Fault)

  function UnfoldPiece(ctx: Context, piece: Piece, chain: seq<Text>): Node
    requires |chain| <= MAX_DEPTH
    decreases MAX_DEPTH - |chain|, 0
  {
    match piece
    case Lit(text, _) => Words(text)
    case Ref(ref, raw) =>
      if !IsReference(ctx, chain != [], ref.path) then Words(raw)
      else match MeaningOf(ctx, ref.path)
           case Verbatim(text) => Words(text)
           case Gone => if ref.optional then Words([]) else Missing(ref.path)
           case Again(template) =>
             if ref.path in chain then Broken(Cycle(chain + [ref.path]))
             else if |chain| >= MAX_DEPTH then Broken(TooDeep(chain + [ref.path]))
             else Inner(ref.path, Unfold(ctx, Parse(template), chain + [ref.path]))
  }

  function Unfold(ctx: Context, ps: seq<Piece>, chain: seq<Text>): (nodes: seq<Node>)
    requires |chain| <= MAX_DEPTH
    ensures |nodes| == |ps|
    decreases MAX_DEPTH - |chain|, 1, |ps|
  {
    if ps == [] then []
    else Unfold(ctx, ps[..|ps| - 1], chain) + [UnfoldPiece(ctx, ps[|ps| - 1], chain)]
  }

  function NodeText(n: Node): Text
    decreases n, 0
  {
    match n
    case Words(text) => text
    case Inner(_, nodes) => TextOf(nodes)
    case _ => []
  }

  function TextOf(nodes: seq<Node>): Text
    decreases nodes, 1
  {
    if nodes == [] then [] else TextOf(nodes[..|nodes| - 1]) + NodeText(nodes[|nodes| - 1])
  }

  function NodeMissing(n: Node): seq<Text>
    decreases n, 0
  {
    match n
    case Missing(path) => [path]
    case Inner(_, nodes) => MissingOf(nodes)
    case _ => []
  }

  /** Every missing reference, as often as it is reached, in template order. */
  function MissingOf(nodes: seq<Node>): seq<Text>
    decreases nodes, 1
  {
    if nodes == [] then [] else MissingOf(nodes[..|nodes| - 1]) + NodeMissing(nodes[|nodes| - 1])
  }

  function NodeFault(n: Node): Option<Fault>
    decreases n, 0
  {
    match n
    case Broken(fault) => Some(fault)
    case Inner(_, nodes) => FaultOf(nodes)
    case _ => None
  }

  /** The first fault in template order. */
  function FaultOf(nodes: seq<Node>): Option<Fault>
    decreases nodes, 1
  {
    if nodes == [] then None
    else match FaultOf(nodes[..|nodes| - 1])
         case Some(f) => Some(f)
         case None => NodeFault(nodes[|nodes| - 1])
  }

  /** Each name once, where it first occurs, after those already known. */
  function Collect(known: seq<Text>, more: seq<Text>): seq<Text> {
    if more == [] then known
    else
      var front := Collect(known, more[..|more| - 1]);
      if more[|more| - 1] in front then front else front + [more[|more| - 1]]
  }

  // ----- the denotation -----------------------------------------------------------------------

  datatype Error = Unresolved(paths: seq<Text>) | Faulty(fault: Fault)

  function Unfolded(ctx: Context, template: Text): seq<Node> {
    Unfold(ctx, Parse(template), [])
  }

  /** How an unfolded template ends: in its first fault, its missing references, or its text. */
  function ResultOf(nodes: seq<Node>): Result<Text, Error> {
    match FaultOf(nodes)
    case Some(f) => Err(Faulty(f))
    case None =>
      if MissingOf(nodes) == [] then Ok(TextOf(nodes)) else Err(Unresolved(Collect([], MissingOf(nodes))))
  }

  function Expanded(ctx: Context, template: Text): Result<Text, Error> {
    ResultOf(Unfolded(ctx, template))
  }
}
