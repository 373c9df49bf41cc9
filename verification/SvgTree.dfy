/** Translating the element tree of an approved SVG to canvas operations: save, transform, draw,
    children, restore. The canvas keeps a stack of transforms. */
module SvgTree {
  import opened Options
  import opened SvgPath

  // ---------- transforms ----------

  /** x -> sx * x + tx, y -> sy * y + ty. */
  datatype Affine = Affine(sx: real, tx: real, sy: real, ty: real)

  const IDENTITY := Affine(1.0, 0.0, 1.0, 0.0)

  function Transformed(m: Affine, p: Point): Point { Point(m.sx * p.x + m.tx, m.sy * p.y + m.ty) }

  /** First `inner`, then `outer`. */
  function Compose(outer: Affine, inner: Affine): Affine {
    Affine(outer.sx * inner.sx, outer.sx * inner.tx + outer.tx, outer.sy * inner.sy, outer.sy * inner.ty + outer.ty)
  }

  lemma ScaleTwice(a: real, b: real, x: real, t: real, u: real)
    ensures (a * b) * x + (a * t + u) == a * (b * x + t) + u
  {
    assert a * (b * x + t) == a * (b * x) + a * t;
    assert a * (b * x) == (a * b) * x;
  }

  lemma ProductAssociative(a: real, b: real, c: real)
    ensures (a * b) * c == a * (b * c)
  {
  }

  /** Composition is doing one after the other. */
  lemma ComposeTransforms(outer: Affine, inner: Affine, p: Point)
    ensures Transformed(Compose(outer, inner), p) == Transformed(outer, Transformed(inner, p))
  {
    var l, r := Transformed(Compose(outer, inner), p), Transformed(outer, Transformed(inner, p));
    assert l.x == r.x by { ScaleTwice(outer.sx, inner.sx, p.x, inner.tx, outer.tx); }
    assert l.y == r.y by { ScaleTwice(outer.sy, inner.sy, p.y, inner.ty, outer.ty); }
  }

  lemma ComposeAssociative(a: Affine, b: Affine, c: Affine)
    ensures Compose(Compose(a, b), c) == Compose(a, Compose(b, c))
  {
    var l, r := Compose(Compose(a, b), c), Compose(a, Compose(b, c));
    assert l.sx == r.sx by { ProductAssociative(a.sx, b.sx, c.sx); }
    assert l.sy == r.sy by { ProductAssociative(a.sy, b.sy, c.sy); }
    assert l.tx == r.tx by { ScaleTwice(a.sx, b.sx, c.tx, b.tx, a.tx); }
    assert l.ty == r.ty by { ScaleTwice(a.sy, b.sy, c.ty, b.ty, a.ty); }
  }

  /** One entry of a transform attribute, with one or two numbers. */
  datatype Function = Translate(args: seq<real>) | Scale(args: seq<real>)

  predicate ArgsOk(f: Function) { |f.args| == 1 || |f.args| == 2 }

  /** A missing second number is 0 for a translation and repeats the first for a scaling. */
  function Second(f: Function): real
    requires ArgsOk(f)
  {
    if |f.args| == 2 then f.args[1] else if f.Scale? then f.args[0] else 0.0
  }

  function Matrix(f: Function): Affine
    requires ArgsOk(f)
  {
    match f
    case Translate(args) => Affine(1.0, args[0], 1.0, if |args| == 1 then 0.0 else args[1])
    case Scale(args) => Affine(args[0], 0.0, if |args| == 1 then args[0] else args[1], 0.0)
  }

  predicate TransformOk(fs: seq<Function>) { forall f | f in fs :: ArgsOk(f) }

  /** A transform attribute means the product of its entries, leftmost outermost. */
  function Product(fs: seq<Function>): Affine
    requires TransformOk(fs)
  {
    if |fs| == 0 then IDENTITY else Compose(Matrix(fs[0]), Product(fs[1..]))
  }

  // ---------- the tree and what it draws ----------

  datatype Tag = SvgTag | GroupTag | PathTag | TitleTag | DescTag | OtherTag

  datatype ViewBox = ViewBox(x: real, y: real, width: real, height: real)

  /** The used size of an svg element and its view box. */
  datatype Viewport = Viewport(width: real, height: real, box: Option<ViewBox>)

  /** `known` says that the element carries only the attributes its tag allows, with an acceptable
      aspect ratio; `spaced` that the transform attribute holds nothing but its entries; `native` that the
      element is one of SVG's own namespace. `viewport` matters for svg elements only. */
  datatype Node = Node(
    tag: Tag, native: bool, known: bool, fill: Option<string>, transform: seq<Function>, spaced: bool,
    d: seq<Token>, viewport: Viewport, children: seq<Node>)

  predicate HexDigit(c: char) { '0' <= c <= '9' || 'a' <= c <= 'f' || 'A' <= c <= 'F' }

  predicate Colour(fill: Option<string>) {
    fill.Some? && |fill.value| == 7 && fill.value[0] == '#' && forall i | 1 <= i < 7 :: HexDigit(fill.value[i])
  }

  function Inherited(n: Node, fill: Option<string>): Option<string> { if n.fill.Some? then n.fill else fill }

  predicate Silent(n: Node) { n.tag == TitleTag || n.tag == DescTag }

  /** Only groups and paths may carry a fill or a transform. */
  predicate AttributesOk(n: Node) {
    n.known && n.tag != OtherTag && (n.tag == SvgTag || Silent(n) ==> n.fill.None? && n.transform == [] && n.spaced)
  }

  predicate NodeOk(n: Node, fill: Option<string>) {
    AttributesOk(n) && (!Silent(n) ==> n.spaced && TransformOk(n.transform)) &&
    (n.tag == PathTag ==> Colour(Inherited(n, fill)) && SvgPath.Translate(n.d).Some?)
  }

  /** The translator accepts this element with the given inherited fill. */
  predicate Accepted(n: Node, fill: Option<string>)
    decreases n, |n.children| + 1
  {
    NodeOk(n, fill) && (Silent(n) || AcceptedFrom(n, 0, Inherited(n, fill)))
  }

  predicate AcceptedFrom(n: Node, i: nat, fill: Option<string>)
    requires i <= |n.children|
    decreases n, |n.children| - i
  {
    i < |n.children| ==> Accepted(n.children[i], fill) && AcceptedFrom(n, i + 1, fill)
  }

  /** One path on the page: its calls, the transform it is drawn under and its colour. */
  datatype Drawing = Drawing(calls: seq<Call>, under: Affine, colour: string)

  function Own(n: Node, m: Affine, fill: Option<string>): seq<Drawing>
    requires NodeOk(n, fill)
  {
    if n.tag == PathTag then [Drawing(SvgPath.Translate(n.d).value, m, Inherited(n, fill).value)] else []
  }

  /** Every path of the tree under the composed transforms of its ancestors and itself, with the nearest
      fill, in document order. */
  function Drawn(n: Node, m: Affine, fill: Option<string>): seq<Drawing>
    requires Accepted(n, fill)
    decreases n, |n.children| + 1
  {
    if Silent(n) then []
    else
      var inner := Compose(m, Product(n.transform));
      Own(n, inner, fill) + DrawnFrom(n, 0, inner, Inherited(n, fill))
  }

  function DrawnFrom(n: Node, i: nat, m: Affine, fill: Option<string>): seq<Drawing>
    requires i <= |n.children| && AcceptedFrom(n, i, fill)
    decreases n, |n.children| - i
  {
    if i == |n.children| then [] else Drawn(n.children[i], m, fill) + DrawnFrom(n, i + 1, m, fill)
  }

  // ---------- what is accepted ----------

  /** The elements the walk comes to, each with the fill it inherits: all but those inside a title or a
      description. */
  function Visited(n: Node, fill: Option<string>): seq<(Node, Option<string>)>
    decreases n, |n.children| + 1
  {
    [(n, fill)] + if n.tag == TitleTag || n.tag == DescTag then [] else VisitedFrom(n, 0, if n.fill.Some? then n.fill else fill)
  }

  function VisitedFrom(n: Node, i: nat, fill: Option<string>): seq<(Node, Option<string>)>
    requires i <= |n.children|
    decreases n, |n.children| - i
  {
    if i == |n.children| then [] else Visited(n.children[i], fill) + VisitedFrom(n, i + 1, fill)
  }

  /** An element of the subset: a known tag with known attributes; fill and transform on groups and paths
      only, each transform with one or two numbers and nothing in between; and a path has path data that
      spells commands, and six hex digits for its colour. */
  ghost predicate Proper(n: Node, fill: Option<string>) {
    var colour := if n.fill.Some? then n.fill else fill;
    && n.known && n.spaced && n.tag in {SvgTag, GroupTag, PathTag, TitleTag, DescTag}
    && (n.tag in {SvgTag, TitleTag, DescTag} ==> n.fill == None && n.transform == [])
    && (forall f | f in n.transform :: 1 <= |f.args| <= 2)
    && (n.tag == PathTag ==>
          && Spelled(n.d)
          && colour.Some? && |colour.value| == 7 && colour.value[0] == '#'
          && forall c | c in colour.value[1..] :: '0' <= c <= '9' || 'a' <= c <= 'f' || 'A' <= c <= 'F')
  }

  /** Path data that spells some list of commands. */
  ghost predicate Spelled(tokens: seq<Token>) { exists cs :: Spells(tokens, cs, None) }

  lemma SpelledTranslates(tokens: seq<Token>)
    ensures Spelled(tokens) <==> SvgPath.Translate(tokens).Some?
  {
    AcceptedIffSpelled(tokens);
    if Spelled(tokens) {
      var cs :| Spells(tokens, cs, None);
      ParseSpelling(tokens, cs, None);
    }
  }

  lemma ColourExactly(fill: Option<string>)
    ensures Colour(fill) <==> fill.Some? && |fill.value| == 7 && fill.value[0] == '#'
                              && forall c | c in fill.value[1..] :: '0' <= c <= '9' || 'a' <= c <= 'f' || 'A' <= c <= 'F'
  {
    if fill.Some? && |fill.value| == 7 {
      var digits := fill.value[1..];
      assert forall i | 0 <= i < 6 :: digits[i] == fill.value[i + 1];
      if forall c | c in digits :: '0' <= c <= '9' || 'a' <= c <= 'f' || 'A' <= c <= 'F' {
        forall i | 1 <= i < 7 ensures HexDigit(fill.value[i]) { assert digits[i - 1] in digits; }
      }
    }
  }

  lemma NodeExactly(n: Node, fill: Option<string>)
    ensures NodeOk(n, fill) <==> Proper(n, fill)
  {
    var colour := if n.fill.Some? then n.fill else fill;
    var numbered := forall f | f in n.transform :: 1 <= |f.args| <= 2;
    ColourExactly(colour);
    SpelledTranslates(n.d);
    assert numbered <==> TransformOk(n.transform) by { assert forall f | f in n.transform :: ArgsOk(f) <==> 1 <= |f.args| <= 2; }
    assert n.transform == [] ==> TransformOk(n.transform);
    hide Colour, SvgPath.Translate, Spelled, TransformOk;
    if NodeOk(n, fill) { assert Proper(n, fill); }
    if Proper(n, fill) { assert NodeOk(n, fill); }
  }

  /** A tree is accepted if and only if every element the walk comes to is proper. */
  lemma {:induction false} AcceptedExactly(n: Node, fill: Option<string>)
    ensures Accepted(n, fill) <==> forall v | v in Visited(n, fill) :: Proper(v.0, v.1)
    decreases n, |n.children| + 1
  {
    NodeExactly(n, fill);
    hide NodeOk, Proper;
    assert (n, fill) in Visited(n, fill);
    if !Silent(n) { AcceptedFromExactly(n, 0, Inherited(n, fill)); }
  }

  lemma {:induction false} AcceptedFromExactly(n: Node, i: nat, fill: Option<string>)
    requires i <= |n.children|
    ensures AcceptedFrom(n, i, fill) <==> forall v | v in VisitedFrom(n, i, fill) :: Proper(v.0, v.1)
    decreases n, |n.children| - i
  {
    if i < |n.children| {
      AcceptedExactly(n.children[i], fill);
      AcceptedFromExactly(n, i + 1, fill);
      hide Visited, Accepted, Proper;
      assert forall v :: v in VisitedFrom(n, i, fill) <==> v in Visited(n.children[i], fill) || v in VisitedFrom(n, i + 1, fill);
    }
  }

  // ---------- the canvas ----------

  datatype Op = Save | TranslateOp(x: real, y: real) | ScaleOp(x: real, y: real) | Draw(calls: seq<Call>, colour: string) | Restore

  /** `stuck` records a restore without a save. */
  datatype Canvas = Canvas(m: Affine, stack: seq<Affine>, drawn: seq<Drawing>, stuck: bool)

  function Step(c: Canvas, op: Op): Canvas {
    match op
    case Save => c.(stack := c.stack + [c.m])
    case TranslateOp(x, y) => c.(m := Compose(c.m, Affine(1.0, x, 1.0, y)))
    case ScaleOp(x, y) => c.(m := Compose(c.m, Affine(x, 0.0, y, 0.0)))
    case Draw(calls, colour) => c.(drawn := c.drawn + [Drawing(calls, c.m, colour)])
    case Restore => if |c.stack| == 0 then c.(stuck := true) else c.(m := c.stack[|c.stack| - 1], stack := c.stack[..|c.stack| - 1])
  }

  function Play(c: Canvas, ops: seq<Op>): Canvas
    decreases |ops|
  {
    if |ops| == 0 then c else Play(Step(c, ops[0]), ops[1..])
  }

  lemma {:induction false} PlayConcat(c: Canvas, a: seq<Op>, b: seq<Op>)
    ensures Play(c, a + b) == Play(Play(c, a), b)
    decreases |a|
  {
    if |a| == 0 {
      assert a + b == b;
    } else {
      assert (a + b)[0] == a[0] && (a + b)[1..] == a[1..] + b;
      PlayConcat(Step(c, a[0]), a[1..], b);
    }
  }

  // ---------- the emitted operations ----------

  function TransformOp(f: Function): Op
    requires ArgsOk(f)
  {
    if f.Translate? then TranslateOp(f.args[0], Second(f)) else ScaleOp(f.args[0], Second(f))
  }

  function TransformOps(fs: seq<Function>): seq<Op>
    requires TransformOk(fs)
  {
    if |fs| == 0 then [] else [TransformOp(fs[0])] + TransformOps(fs[1..])
  }

  function OwnOps(n: Node, fill: Option<string>): seq<Op>
    requires NodeOk(n, fill)
  {
    if n.tag == PathTag then [Draw(SvgPath.Translate(n.d).value, Inherited(n, fill).value)] else []
  }

  function Ops(n: Node, fill: Option<string>): seq<Op>
    requires Accepted(n, fill)
    decreases n, |n.children| + 1
  {
    if Silent(n) then []
    else [Save] + TransformOps(n.transform) + OwnOps(n, fill) + OpsFrom(n, 0, Inherited(n, fill)) + [Restore]
  }

  function OpsFrom(n: Node, i: nat, fill: Option<string>): seq<Op>
    requires i <= |n.children| && AcceptedFrom(n, i, fill)
    decreases n, |n.children| - i
  {
    if i == |n.children| then [] else Ops(n.children[i], fill) + OpsFrom(n, i + 1, fill)
  }

  /** Applying the entries one after the other composes their product. */
  lemma {:induction false} PlayTransforms(c: Canvas, fs: seq<Function>)
    requires TransformOk(fs)
    ensures Play(c, TransformOps(fs)) == c.(m := Compose(c.m, Product(fs)))
    decreases |fs|
  {
    if |fs| == 0 {
      assert Compose(c.m, IDENTITY) == c.m;
    } else {
      var ops := TransformOps(fs);
      assert ops[0] == TransformOp(fs[0]) && ops[1..] == TransformOps(fs[1..]);
      var next := Step(c, ops[0]);
      hide Compose;
      assert next == c.(m := Compose(c.m, Matrix(fs[0])));
      PlayTransforms(next, fs[1..]);
      ComposeAssociative(c.m, Matrix(fs[0]), Product(fs[1..]));
    }
  }

  lemma PlayOwn(c: Canvas, n: Node, fill: Option<string>)
    requires NodeOk(n, fill)
    ensures Play(c, OwnOps(n, fill)) == c.(drawn := c.drawn + Own(n, c.m, fill))
  {
    if n.tag == PathTag {
      var ops := OwnOps(n, fill);
      assert ops[1..] == [];
      assert Play(Step(c, ops[0]), []) == Step(c, ops[0]);
    } else {
      assert c.drawn + [] == c.drawn;
    }
  }

  /** Running the emitted list draws exactly the tree's paths, under their composed transforms and
      inherited fill, and leaves transform and stack as it found them. */
  lemma {:induction false} OpsDrawTree(c: Canvas, n: Node, fill: Option<string>)
    requires Accepted(n, fill)
    ensures Play(c, Ops(n, fill)) == c.(drawn := c.drawn + Drawn(n, c.m, fill))
    decreases n, |n.children| + 1
  {
    if Silent(n) {
      assert c.drawn + [] == c.drawn;
    } else {
      hide Compose, Product, TransformOps, OwnOps, Own, NodeOk, Play, Accepted, Step, Drawn, Ops;
      AcceptedParts(n, fill);
      DrawnParts(n, c.m, fill);
      var inner := Compose(c.m, Product(n.transform));
      var own, rest := Own(n, inner, fill), DrawnFrom(n, 0, inner, Inherited(n, fill));
      var c1 := c.(stack := c.stack + [c.m]);
      var c2 := c1.(m := inner);
      var c3 := c2.(drawn := c.drawn + own);
      var c4 := c3.(drawn := c.drawn + own + rest);
      SaveAndRestore(c, inner, c4.drawn);
      PlayTransforms(c1, n.transform);
      PlayOwn(c2, n, fill);
      OpsDrawChildren(c3, n, 0, Inherited(n, fill));
      PlayNode(c, n, fill, c1, c2, c3, c4);
      assert c4.drawn == c.drawn + (own + rest);
    }
  }

  lemma AcceptedParts(n: Node, fill: Option<string>)
    requires Accepted(n, fill) && !Silent(n)
    ensures NodeOk(n, fill) && TransformOk(n.transform) && AcceptedFrom(n, 0, Inherited(n, fill))
  {
  }

  lemma DrawnParts(n: Node, m: Affine, fill: Option<string>)
    requires Accepted(n, fill) && !Silent(n)
    ensures NodeOk(n, fill) && TransformOk(n.transform) && AcceptedFrom(n, 0, Inherited(n, fill))
    ensures var inner := Compose(m, Product(n.transform));
            Drawn(n, m, fill) == Own(n, inner, fill) + DrawnFrom(n, 0, inner, Inherited(n, fill))
  {
    hide Compose, Product, Own, NodeOk;
    AcceptedParts(n, fill);
  }

  lemma SaveAndRestore(c: Canvas, m: Affine, drawn: seq<Drawing>)
    ensures Step(c, Save) == c.(stack := c.stack + [c.m])
    ensures Step(Canvas(m, c.stack + [c.m], drawn, c.stuck), Restore) == c.(drawn := drawn)
  {
    assert (c.stack + [c.m])[..|c.stack|] == c.stack;
  }

  lemma PlayOne(c: Canvas, op: Op)
    ensures Play(c, [op]) == Step(c, op)
  {
    assert [op][1..] == [];
    assert Play(Step(c, op), []) == Step(c, op);
  }

  /** The five parts of an element's list, one after the other. */
  lemma PlayNode(c: Canvas, n: Node, fill: Option<string>, c1: Canvas, c2: Canvas, c3: Canvas, c4: Canvas)
    requires Accepted(n, fill) && !Silent(n)
    requires c1 == Step(c, Save) && c2 == Play(c1, TransformOps(n.transform)) && c3 == Play(c2, OwnOps(n, fill))
    requires c4 == Play(c3, OpsFrom(n, 0, Inherited(n, fill)))
    ensures Play(c, Ops(n, fill)) == Step(c4, Restore)
  {
    var t, o, k := TransformOps(n.transform), OwnOps(n, fill), OpsFrom(n, 0, Inherited(n, fill));
    hide Step, Accepted, Play, TransformOps, OwnOps;
    PlayConcat(c, [Save] + t + o + k, [Restore]);
    PlayConcat(c, [Save] + t + o, k);
    PlayConcat(c, [Save] + t, o);
    PlayConcat(c, [Save], t);
    PlayOne(c, Save);
    PlayOne(c4, Restore);
  }

  lemma {:induction false} OpsDrawChildren(c: Canvas, n: Node, i: nat, fill: Option<string>)
    requires i <= |n.children| && AcceptedFrom(n, i, fill)
    ensures Play(c, OpsFrom(n, i, fill)) == c.(drawn := c.drawn + DrawnFrom(n, i, c.m, fill))
    decreases n, |n.children| - i
  {
    if i == |n.children| {
      assert c.drawn + [] == c.drawn;
    } else {
      var first := Drawn(n.children[i], c.m, fill);
      OpsDrawTree(c, n.children[i], fill);
      var next := c.(drawn := c.drawn + first);
      OpsDrawChildren(next, n, i + 1, fill);
      PlayConcat(c, Ops(n.children[i], fill), OpsFrom(n, i + 1, fill));
      assert c.drawn + first + DrawnFrom(n, i + 1, c.m, fill) == c.drawn + (first + DrawnFrom(n, i + 1, c.m, fill));
    }
  }

  // ---------- the geometry on the page ----------

  /** Content is cut to the viewport of an inner svg. */
  datatype Window = Window(under: Affine, width: real, height: real)

  /** One path as a shape: its pieces, the transform, the colour, and the windows it is cut to. */
  datatype Figure = Figure(shape: seq<Segment>, under: Affine, colour: string, windows: seq<Window>)

  function FigureOf(d: Drawing): Figure { Figure(Traced(d.calls), d.under, d.colour, []) }

  /** What the canvas shows after a list of drawings. */
  function Shown(ds: seq<Drawing>): seq<Figure> { seq(|ds|, i requires 0 <= i < |ds| => FigureOf(ds[i])) }

  lemma ShownConcat(a: seq<Drawing>, b: seq<Drawing>)
    ensures Shown(a + b) == Shown(a) + Shown(b)
  {
  }

  lemma ShownLength(ds: seq<Drawing>)
    ensures |Shown(ds)| == |ds|
  {
  }

  /** A viewport or view box without an area disables rendering (section 8.6 of SVG 2). */
  predicate Renders(v: Viewport) {
    v.width > 0.0 && v.height > 0.0 && (v.box.Some? ==> v.box.value.width > 0.0 && v.box.value.height > 0.0)
  }

  /** The view box scaled to fit the viewport, centred: `xMidYMid meet` (section 8.2 of SVG 2). */
  function ViewTransform(v: Viewport): Affine
    requires Renders(v)
  {
    match v.box
    case None => IDENTITY
    case Some(b) =>
      var (h, w) := (v.height / b.height, v.width / b.width);
      var s := if w < h then w else h;
      Affine(s, (v.width - s * b.width) / 2.0 - s * b.x, s, (v.height - s * b.height) / 2.0 - s * b.y)
  }

  function Cut(figures: seq<Figure>, window: Window): seq<Figure> {
    seq(|figures|, i requires 0 <= i < |figures| => figures[i].(windows := [window] + figures[i].windows))
  }

  function OwnFigure(n: Node, m: Affine, fill: Option<string>): seq<Figure>
    requires NodeOk(n, fill)
  {
    if n.tag == PathTag then [Figure(SvgShape(Parse(n.d, None).value), m, Inherited(n, fill).value, [])] else []
  }

  /** What SVG shows, in the coordinates of the root: the path data's own geometry; nothing of elements
      that are not SVG's, or of the children of a path; and inside an inner svg its viewport's picture. */
  function Pictured(n: Node, m: Affine, fill: Option<string>, root: bool): seq<Figure>
    requires Accepted(n, fill)
    decreases n, |n.children| + 1
  {
    if Silent(n) || !n.native then []
    else
      var inner := Compose(m, Product(n.transform));
      if n.tag == PathTag then OwnFigure(n, inner, fill)
      else if n.tag == SvgTag && !root then
        if Renders(n.viewport)
        then Cut(PicturedFrom(n, 0, Compose(inner, ViewTransform(n.viewport)), Inherited(n, fill)), Window(inner, n.viewport.width, n.viewport.height))
        else []
      else PicturedFrom(n, 0, inner, Inherited(n, fill))
  }

  function PicturedFrom(n: Node, i: nat, m: Affine, fill: Option<string>): seq<Figure>
    requires i <= |n.children| && AcceptedFrom(n, i, fill)
    decreases n, |n.children| - i
  {
    if i == |n.children| then [] else Pictured(n.children[i], m, fill, false) + PicturedFrom(n, i + 1, m, fill)
  }

  predicate PathFree(n: Node)
    decreases n, |n.children| + 1
  {
    Silent(n) || (n.tag != PathTag && PathFreeFrom(n, 0))
  }

  predicate PathFreeFrom(n: Node, i: nat)
    requires i <= |n.children|
    decreases n, |n.children| - i
  {
    i < |n.children| ==> PathFree(n.children[i]) && PathFreeFrom(n, i + 1)
  }

  predicate SafePath(n: Node) { n.tag == PathTag && Parse(n.d, None).Some? ==> Faithful(Parse(n.d, None).value) }

  /** No path inside an inner svg, inside another path or inside an element that is not SVG's, and every
      path is drawn faithfully. */
  predicate SafeTree(n: Node, root: bool)
    decreases n, |n.children| + 1
  {
    Silent(n) ||
    if !n.native || (n.tag == SvgTag && !root) then PathFree(n)
    else if n.tag == PathTag then SafePath(n) && PathFreeFrom(n, 0)
    else SafeFrom(n, 0)
  }

  predicate SafeFrom(n: Node, i: nat)
    requires i <= |n.children|
    decreases n, |n.children| - i
  {
    i < |n.children| ==> SafeTree(n.children[i], false) && SafeFrom(n, i + 1)
  }

  /** Lists of parts are equal only part by part when no part of the second is longer. */
  lemma PartsEqual<T>(a: seq<T>, b: seq<T>, c: seq<T>, d: seq<T>)
    requires |c| <= |a| && |d| <= |b|
    ensures a + b == c + d <==> a == c && b == d
  {
    if a + b == c + d {
      assert |a| + |b| == |c| + |d|;
      assert a == (a + b)[..|a|] && c == (c + d)[..|a|];
      assert b == (a + b)[|a|..] && d == (c + d)[|a|..];
    }
  }

  lemma OwnGeometry(n: Node, m: Affine, fill: Option<string>)
    requires NodeOk(n, fill)
    ensures |Own(n, m, fill)| == |OwnFigure(n, m, fill)| == if n.tag == PathTag then 1 else 0
    ensures Shown(Own(n, m, fill)) == OwnFigure(n, m, fill) <==> SafePath(n)
  {
    if n.tag == PathTag {
      ParsedIsSpelled(n.d, None);
      TranslationPreservesGeometry(n.d, Parse(n.d, None).value);
      hide Traced, SvgShape, Faithful, Parse, Emit, Colour, Inherited, Spells;
      assert Shown(Own(n, m, fill))[0] == FigureOf(Own(n, m, fill)[0]);
    }
  }

  /** The picture never has more figures than are drawn, and path-free trees draw nothing. */
  lemma {:induction false} PictureFits(n: Node, m: Affine, fill: Option<string>, root: bool, under: Affine)
    requires Accepted(n, fill)
    ensures |Pictured(n, under, fill, root)| <= |Drawn(n, m, fill)|
    ensures |Drawn(n, m, fill)| == 0 <==> PathFree(n)
    decreases n, |n.children| + 1
  {
    if !Silent(n) {
      AcceptedParts(n, fill);
      DrawnParts(n, m, fill);
      var inner, other := Compose(m, Product(n.transform)), Compose(under, Product(n.transform));
      OwnGeometry(n, inner, fill);
      OwnGeometry(n, other, fill);
      PictureFitsFrom(n, 0, inner, Inherited(n, fill), other);
      if Renders(n.viewport) { PictureFitsFrom(n, 0, inner, Inherited(n, fill), Compose(other, ViewTransform(n.viewport))); }
      hide Compose, Product, Own, OwnFigure, NodeOk, SafePath, Shown, Drawn, ViewTransform, Renders, PathFreeFrom, DrawnFrom, PicturedFrom;
    }
  }

  lemma {:induction false} PictureFitsFrom(n: Node, i: nat, m: Affine, fill: Option<string>, under: Affine)
    requires i <= |n.children| && AcceptedFrom(n, i, fill)
    ensures |PicturedFrom(n, i, under, fill)| <= |DrawnFrom(n, i, m, fill)|
    ensures |DrawnFrom(n, i, m, fill)| == 0 <==> PathFreeFrom(n, i)
    decreases n, |n.children| - i
  {
    if i < |n.children| {
      PictureFits(n.children[i], m, fill, false, under);
      PictureFitsFrom(n, i + 1, m, fill, under);
      hide Drawn, Pictured, PathFree, Accepted;
    }
  }

  lemma NothingShown(ds: seq<Drawing>)
    ensures Shown(ds) == [] <==> |ds| == 0
  {
  }

  /** What an inner svg cuts is never what the canvas shows, unless it is nothing. */
  lemma CutDiffers(ds: seq<Drawing>, figures: seq<Figure>, window: Window)
    ensures Shown(ds) == Cut(figures, window) <==> |ds| == |figures| == 0
  {
    if |ds| > 0 && |figures| > 0 {
      assert Shown(ds)[0].windows == [];
      assert Cut(figures, window)[0].windows == [window] + figures[0].windows;
    }
  }

  /** Elements whose content SVG does not show, or shows elsewhere. */
  lemma LostGeometry(n: Node, m: Affine, fill: Option<string>, root: bool)
    requires Accepted(n, fill) && !Silent(n) && (!n.native || (n.tag == SvgTag && !root))
    ensures Shown(Drawn(n, m, fill)) == Pictured(n, m, fill, root) <==> PathFree(n)
  {
    AcceptedParts(n, fill);
    PictureFits(n, m, fill, root, m);
    NothingShown(Drawn(n, m, fill));
    var inner := Compose(m, Product(n.transform));
    if n.native && Renders(n.viewport) {
      var figures := PicturedFrom(n, 0, Compose(inner, ViewTransform(n.viewport)), Inherited(n, fill));
      CutDiffers(Drawn(n, m, fill), figures, Window(inner, n.viewport.width, n.viewport.height));
    }
    hide Compose, Product, PicturedFrom, Shown, Drawn, ViewTransform, Renders, PathFree;
  }

  /** The drawn tree shows the picture SVG means if and only if the tree is safe. */
  lemma {:induction false} TreeGeometry(n: Node, m: Affine, fill: Option<string>, root: bool)
    requires Accepted(n, fill)
    ensures Shown(Drawn(n, m, fill)) == Pictured(n, m, fill, root) <==> SafeTree(n, root)
    decreases n, |n.children| + 1
  {
    if !Silent(n) {
      if !n.native || (n.tag == SvgTag && !root) {
        LostGeometry(n, m, fill, root);
      } else {
        AcceptedParts(n, fill);
        DrawnParts(n, m, fill);
        var inner := Compose(m, Product(n.transform));
        var own, rest := Own(n, inner, fill), DrawnFrom(n, 0, inner, Inherited(n, fill));
        OwnGeometry(n, inner, fill);
        ChildrenGeometry(n, 0, inner, Inherited(n, fill));
        PictureFitsFrom(n, 0, inner, Inherited(n, fill), inner);
        hide Compose, Product, Own, OwnFigure, NodeOk, SafePath, Shown, Drawn, PicturedFrom, DrawnFrom, PathFreeFrom, SafeFrom;
        NothingShown(rest);
        ShownConcat(own, rest);
        ShownLength(own);
        if n.tag == PathTag {
          PartsEqual(Shown(own), Shown(rest), OwnFigure(n, inner, fill), []);
        } else {
          assert own == [] && own + rest == rest;
        }
      }
    }
  }

  lemma {:induction false} ChildrenGeometry(n: Node, i: nat, m: Affine, fill: Option<string>)
    requires i <= |n.children| && AcceptedFrom(n, i, fill)
    ensures Shown(DrawnFrom(n, i, m, fill)) == PicturedFrom(n, i, m, fill) <==> SafeFrom(n, i)
    decreases n, |n.children| - i
  {
    if i < |n.children| {
      var first, rest := Drawn(n.children[i], m, fill), DrawnFrom(n, i + 1, m, fill);
      TreeGeometry(n.children[i], m, fill, false);
      ChildrenGeometry(n, i + 1, m, fill);
      PictureFits(n.children[i], m, fill, false, m);
      PictureFitsFrom(n, i + 1, m, fill, m);
      hide Drawn, Pictured, SafeTree, Accepted, Shown, PathFree;
      ShownConcat(first, rest);
      ShownLength(first);
      ShownLength(rest);
      PartsEqual(Shown(first), Shown(rest), Pictured(n.children[i], m, fill, false), PicturedFrom(n, i + 1, m, fill));
    }
  }

  /** End to end: running the emitted list for a document on any canvas adds exactly the picture SVG means
      if and only if its tree is safe. */
  lemma OpsShowPicture(c: Canvas, n: Node, fill: Option<string>)
    requires Accepted(n, fill)
    ensures Shown(Play(c, Ops(n, fill)).drawn) == Shown(c.drawn) + Pictured(n, c.m, fill, true) <==> SafeTree(n, true)
  {
    OpsDrawTree(c, n, fill);
    TreeGeometry(n, c.m, fill, true);
    PictureFits(n, c.m, fill, true, c.m);
    ShownConcat(c.drawn, Drawn(n, c.m, fill));
    ShownLength(Drawn(n, c.m, fill));
    hide Drawn, Pictured, SafeTree, Accepted, Shown, Play, Ops;
    PartsEqual(Shown(c.drawn), Shown(Drawn(n, c.m, fill)), Shown(c.drawn), Pictured(n, c.m, fill, true));
  }

  // ---------- the failing families ----------

  const PLAIN := Viewport(100.0, 100.0, None)

  const LINE: seq<Token> := [Letter('M'), Num(0.0), Num(0.0), Letter('L'), Num(1.0), Num(1.0)]

  function LinePath(native: bool, children: seq<Node>): Node { Node(PathTag, native, true, Some("#000000"), [], true, LINE, PLAIN, children) }

  function SvgElement(viewport: Viewport, child: Node): Node { Node(SvgTag, true, true, None, [], true, [], viewport, [child]) }

  lemma LineTranslates()
    ensures SvgPath.Translate(LINE).Some?
  {
    var cs := [MoveTo(ORIGIN), LineTo(Point(1.0, 1.0))];
    var rest: seq<Token> := [Letter('L'), Num(1.0), Num(1.0)];
    NoLeadingMoveMisdraws();
    assert cs[1..] == [LineTo(Point(1.0, 1.0))];
    assert rest[1..] == [Num(1.0), Num(1.0)];
    assert LINE[1..][Count('M')..] == rest;
    assert HasNumbers(LINE[1..], Count('M')) && Make('M', LINE[1..]) == MoveTo(ORIGIN);
    assert Parse(rest, Some('L')) == ParseNumbers(rest[1..], 'L') == Parse(rest, None);
    assert Parse(rest, None).Some?;
  }

  lemma OneChild(n: Node, fill: Option<string>)
    requires |n.children| == 1 && !Silent(n)
    ensures Accepted(n, fill) <==> NodeOk(n, fill) && Accepted(n.children[0], Inherited(n, fill))
    ensures SafeFrom(n, 0) <==> SafeTree(n.children[0], false)
    ensures PathFreeFrom(n, 0) <==> PathFree(n.children[0])
  {
    assert AcceptedFrom(n, 0, Inherited(n, fill)) <==> Accepted(n.children[0], Inherited(n, fill)) && AcceptedFrom(n, 1, Inherited(n, fill));
    assert SafeFrom(n, 0) <==> SafeTree(n.children[0], false) && SafeFrom(n, 1);
    assert PathFreeFrom(n, 0) <==> PathFree(n.children[0]) && PathFreeFrom(n, 1);
    hide NodeOk, Accepted, SafeTree, PathFree;
  }

  lemma LineAccepted(native: bool, fill: Option<string>)
    ensures Accepted(LinePath(native, []), fill) && !PathFree(LinePath(native, []))
    ensures NodeOk(LinePath(native, []), fill)
  {
    LineTranslates();
    hide SvgPath.Translate;
  }

  /** A path inside an inner svg: SVG shows it at half size, the canvas at full size. */
  lemma InnerSvgMisdraws(c: Canvas)
    ensures var doc := SvgElement(PLAIN, SvgElement(Viewport(10.0, 10.0, Some(ViewBox(0.0, 0.0, 20.0, 20.0))), LinePath(true, [])));
            && ViewTransform(doc.children[0].viewport) == Affine(0.5, 0.0, 0.5, 0.0)
            && Accepted(doc, None) && Shown(Play(c, Ops(doc, None)).drawn) != Shown(c.drawn) + Pictured(doc, c.m, None, true)
  {
    var inner := SvgElement(Viewport(10.0, 10.0, Some(ViewBox(0.0, 0.0, 20.0, 20.0))), LinePath(true, []));
    var doc := SvgElement(PLAIN, inner);
    LineAccepted(true, None);
    OneChild(inner, None);
    OneChild(doc, None);
    hide Accepted, Play, Ops, Pictured, Shown, SafeFrom;
    OpsShowPicture(c, doc, None);
  }

  /** A path inside a path: SVG does not show it. */
  lemma PathInPathMisdraws(c: Canvas)
    ensures var doc := SvgElement(PLAIN, LinePath(true, [LinePath(true, [])]));
            Accepted(doc, None) && Shown(Play(c, Ops(doc, None)).drawn) != Shown(c.drawn) + Pictured(doc, c.m, None, true)
  {
    var outer := LinePath(true, [LinePath(true, [])]);
    var doc := SvgElement(PLAIN, outer);
    LineAccepted(true, None);
    LineAccepted(true, Some("#000000"));
    OneChild(outer, None);
    OneChild(doc, None);
    hide Accepted, Play, Ops, Pictured, Shown, SafeFrom;
    OpsShowPicture(c, doc, None);
  }

  /** A path of another namespace: SVG does not know it. */
  lemma ForeignPathMisdraws(c: Canvas)
    ensures var doc := SvgElement(PLAIN, LinePath(false, []));
            Accepted(doc, None) && Shown(Play(c, Ops(doc, None)).drawn) != Shown(c.drawn) + Pictured(doc, c.m, None, true)
  {
    var doc := SvgElement(PLAIN, LinePath(false, []));
    LineAccepted(false, None);
    OneChild(doc, None);
    hide Accepted, Play, Ops, Pictured, Shown, SafeFrom;
    OpsShowPicture(c, doc, None);
  }

  // ---------- the generator ----------

  /** `walk` appends to one shared list; a failed assertion abandons the whole generation. */
  class Generator {
    var lines: seq<Op>

    constructor ()
      ensures lines == []
    {
      lines := [];
    }

    method EmitTransforms(fs: seq<Function>) returns (ok: bool)
      modifies this
      ensures ok <==> TransformOk(fs)
      ensures ok ==> lines == old(lines) + TransformOps(fs)
    {
      var i := 0;
      assert fs[0..] == fs;
      while i < |fs|
        invariant 0 <= i <= |fs| && TransformOk(fs[..i])
        invariant TransformOk(fs) ==> TransformOk(fs[i..]) && lines + TransformOps(fs[i..]) == old(lines) + TransformOps(fs)
      {
        if |fs[i].args| != 1 && |fs[i].args| != 2 {
          assert fs[i] in fs && !ArgsOk(fs[i]);
          return false;
        }
        assert fs[..i + 1] == fs[..i] + [fs[i]];
        ghost var rest := fs[i..];
        assert rest[0] == fs[i] && rest[1..] == fs[i + 1..];
        var args := if |fs[i].args| == 2 then fs[i].args else fs[i].args + [if fs[i].Scale? then fs[i].args[0] else 0.0];
        lines := lines + [if fs[i].Translate? then TranslateOp(args[0], args[1]) else ScaleOp(args[0], args[1])];
        i := i + 1;
      }
      assert fs[..i] == fs;
      assert fs[i..] == [];
      return true;
    }

    /** The draw call of a path element; other elements draw nothing themselves. */
    method EmitOwn(n: Node, fill: Option<string>) returns (ok: bool)
      modifies this
      ensures ok <==> (n.tag == PathTag ==> Colour(Inherited(n, fill)) && SvgPath.Translate(n.d).Some?)
      ensures ok && NodeOk(n, fill) ==> lines == old(lines) + OwnOps(n, fill)
    {
      hide SvgPath.Translate, Colour;
      ok := true;
      if n.tag == PathTag {
        var inherited := if n.fill.Some? then n.fill else fill;
        if !Colour(inherited) { return false; }
        var calls := PathCalls(n.d);
        if calls.None? { return false; }
        assert inherited.Some? by { ColourIsGiven(inherited); }
        lines := lines + [Draw(calls.value, inherited.value)];
      }
    }

    /** The nested `walk`: it succeeds exactly on accepted trees and then has appended their list. */
    method WalkNode(n: Node, fill: Option<string>) returns (ok: bool)
      modifies this
      ensures ok <==> Accepted(n, fill)
      ensures ok ==> lines == old(lines) + Ops(n, fill)
      decreases n, 1
    {
      hide AttributesOk, Colour, SvgPath.Translate, TransformOk, TransformOps, OwnOps;
      if !AttributesOk(n) { return false; }
      if n.tag == TitleTag || n.tag == DescTag { return true; }
      lines := lines + [Save];
      if !n.spaced { return false; }
      ok := EmitTransforms(n.transform);
      if !ok { return false; }
      ok := EmitOwn(n, fill);
      if !ok { return false; }
      assert NodeOk(n, fill);
      ok := WalkChildren(n, if n.fill.Some? then n.fill else fill);
      if !ok { return false; }
      lines := lines + [Restore];
      assert lines == old(lines) + ([Save] + TransformOps(n.transform) + OwnOps(n, fill) + OpsFrom(n, 0, Inherited(n, fill)) + [Restore]);
    }

    method WalkChildren(n: Node, fill: Option<string>) returns (ok: bool)
      modifies this
      ensures ok <==> AcceptedFrom(n, 0, fill)
      ensures ok ==> lines == old(lines) + OpsFrom(n, 0, fill)
      decreases n, 0
    {
      hide Accepted, Ops;
      var i := 0;
      while i < |n.children|
        invariant 0 <= i <= |n.children| && AcceptedFrom(n, 0, fill) == AcceptedFrom(n, i, fill)
        invariant AcceptedFrom(n, 0, fill) ==> old(lines) + OpsFrom(n, 0, fill) == lines + OpsFrom(n, i, fill)
      {
        ghost var here := lines;
        ok := WalkNode(n.children[i], fill);
        if !ok { return false; }
        assert AcceptedFrom(n, 0, fill) ==> here + OpsFrom(n, i, fill) == here + Ops(n.children[i], fill) + OpsFrom(n, i + 1, fill);
        i := i + 1;
      }
      assert lines + OpsFrom(n, i, fill) == lines;
      ok := true;
    }
  }

  lemma ColourIsGiven(fill: Option<string>)
    requires Colour(fill)
    ensures fill.Some?
  {
  }
}
