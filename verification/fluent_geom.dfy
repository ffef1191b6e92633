/** The chainable wrapper around one geometry: the classes `FluentGeom2`,
    `FluentGeom3` and `FluentPath2`, modelled as one value tagged with its
    variant. Every method that the TypeScript returns as `this` rebuilds its
    result through the receiver's own constructor (`_wrap`), which here is
    `Wrap`: the variant of the receiver is kept. */
module FluentGeom {
  import opened Wrappers
  import opened Engine

  /** A fluent geometry: the class it is an instance of, and the geometry data
      its constructor copied in. */
  datatype Fluent = Fluent(variant: Variant, geom: Geom)

  /** The `type` field every instance of a class carries. */
  function TypeTag(v: Variant): string {
    match v
    case Geom2 => "geom2"
    case Geom3 => "geom3"
    case Path2 => "path2"
  }

  /** The `type` tag tells the three classes apart: two values carry the
      same tag exactly when they are instances of the same class. */
  lemma TypeTagIdentifiesVariant(v: Variant, w: Variant)
    ensures TypeTag(v) == TypeTag(w) <==> v == w
  {
  }

  /** The constructor: copies the given geometry, or the engine's empty
      geometry of the class's variant when given `null` or `undefined`. */
  function New(v: Variant, g: Option<Geom>): (f: Fluent)
    ensures f.variant == v
    ensures g.Some? ==> f.geom == g.value
    ensures g.None? ==> f.geom == Created(v)
  {
    Fluent(v, g.GetOr(Created(v)))
  }

  /** `_wrap`: a new instance of the receiver's own class around `g`. */
  function Wrap(f: Fluent, g: Geom): Fluent {
    New(f.variant, Some(g))
  }

  /** Rewrapping a fluent value through its own constructor loses nothing. */
  lemma RewrapIsIdentity(v: Variant, g: Option<Geom>)
    ensures Wrap(New(v, g), New(v, g).geom) == New(v, g)
  {
  }

  /** Which transforms a class offers: `FluentGeom3` has no `offset`. */
  predicate Offers(v: Variant, op: TransformOp) {
    op.Offset? ==> v != Geom3
  }

  /** A transform method (`translate` … `transform`, `colorize`, `expand`,
      `offset`): the engine transforms the receiver and the result is wrapped
      in the receiver's class. */
  function Apply(f: Fluent, op: TransformOp): (r: Fluent)
    requires Offers(f.variant, op)
    ensures r.variant == f.variant
    ensures r.geom == Transformed(op, f.geom)
  {
    Wrap(f, Transformed(op, f.geom))
  }

  predicate AllOffered(v: Variant, ops: seq<TransformOp>) {
    forall i :: 0 <= i < |ops| ==> Offers(v, ops[i])
  }

  /** A method chain `f.op0(..).op1(..)…`, applied left to right. */
  function Chain(f: Fluent, ops: seq<TransformOp>): Fluent
    requires AllOffered(f.variant, ops)
    decreases |ops|
  {
    if |ops| == 0 then f else Chain(Apply(f, ops[0]), ops[1..])
  }

  /** The reference reading of a chain: each op wraps the term built so far. */
  function Nest(g: Geom, ops: seq<TransformOp>): Geom
    decreases |ops|
  {
    if |ops| == 0 then g else Nest(Transformed(ops[0], g), ops[1..])
  }

  /** However long the chain, the variant of the receiver survives it, and the
      geometry is the engine term of the ops applied in order. */
  lemma {:induction false} ChainKeepsVariant(f: Fluent, ops: seq<TransformOp>)
    requires AllOffered(f.variant, ops)
    ensures Chain(f, ops).variant == f.variant
    ensures Chain(f, ops).geom == Nest(f.geom, ops)
    decreases |ops|
  {
    if |ops| > 0 {
      var g := Apply(f, ops[0]);
      assert AllOffered(g.variant, ops[1..]) by {
        forall i | 0 <= i < |ops[1..]| ensures Offers(g.variant, ops[1..][i]) {
          assert ops[1..][i] == ops[i + 1];
        }
      }
      ChainKeepsVariant(g, ops[1..]);
    }
  }

  /** An operand of a boolean: one geometry or an array of them. */
  datatype Operand = One(f: Fluent) | Many(fs: seq<Fluent>)

  /** The geometries of a list of fluent values, in order. */
  function Geoms(fs: seq<Fluent>): seq<Geom>
    decreases |fs|
  {
    if |fs| == 0 then [] else [fs[0].geom] + Geoms(fs[1..])
  }

  /** The flat operand list the engine's booleans work on: arrays are spliced
      in place, order is kept. */
  function Flatten(args: seq<Operand>): seq<Geom>
    decreases |args|
  {
    if |args| == 0 then [] else Spliced(args[0]) + Flatten(args[1..])
  }

  /** What one operand contributes to the flat list. */
  function Spliced(a: Operand): seq<Geom> {
    match a
    case One(f) => [f.geom]
    case Many(fs) => Geoms(fs)
  }

  lemma {:induction false} GeomsLength(fs: seq<Fluent>)
    ensures |Geoms(fs)| == |fs|
    ensures forall i :: 0 <= i < |fs| ==> Geoms(fs)[i] == fs[i].geom
    decreases |fs|
  {
    if |fs| > 0 {
      GeomsLength(fs[1..]);
      assert forall i :: 1 <= i < |fs| ==> fs[1..][i - 1] == fs[i];
    }
  }

  /** Flattening distributes over concatenation of operand lists. */
  lemma {:induction false} FlattenAppend(a: seq<Operand>, b: seq<Operand>)
    ensures Flatten(a + b) == Flatten(a) + Flatten(b)
    decreases |a|
  {
    if |a| == 0 {
      assert a + b == b;
    } else {
      assert (a + b)[0] == a[0];
      assert (a + b)[1..] == a[1..] + b;
      FlattenAppend(a[1..], b);
      calc {
        Flatten(a + b);
        Spliced(a[0]) + Flatten(a[1..] + b);
        Spliced(a[0]) + (Flatten(a[1..]) + Flatten(b));
        (Spliced(a[0]) + Flatten(a[1..])) + Flatten(b);
      }
    }
  }

  /** Each fluent value as an operand of its own. */
  function Singles(fs: seq<Fluent>): seq<Operand>
    decreases |fs|
  {
    if |fs| == 0 then [] else [One(fs[0])] + Singles(fs[1..])
  }

  /** Passing an array or passing its elements one by one gives the engine the
      same operand list. */
  lemma {:induction false} FlattenGrouping(fs: seq<Fluent>)
    ensures Flatten([Many(fs)]) == Flatten(Singles(fs))
    decreases |fs|
  {
    assert Flatten([Many(fs)]) == Geoms(fs) + Flatten([]);
    if |fs| > 0 {
      FlattenGrouping(fs[1..]);
      assert Flatten([Many(fs[1..])]) == Geoms(fs[1..]) + Flatten([]);
      FlattenAppend([One(fs[0])], Singles(fs[1..]));
    }
  }

  /** `union`/`subtract`/`intersect` as methods, offered by `FluentGeom2` and
      `FluentGeom3`: the engine gets `[this, ...others]`, receiver first, and the
      result is wrapped in the receiver's class. */
  function CombineWith(f: Fluent, op: BoolOp, others: seq<Operand>): (r: Fluent)
    requires f.variant != Path2
    ensures r.variant == f.variant
    ensures r.geom.Boolean? && r.geom.bop == op
    ensures |r.geom.operands| >= 1 && r.geom.operands[0] == f.geom
    ensures r.geom.operands[1..] == Flatten(others)
  {
    Wrap(f, Boolean(op, Flatten([One(f)] + others)))
  }

  /** `a.union(b, [c, d])` is `a.union(b, c, d)`: grouping others into arrays
      does not change the result. */
  lemma CombineWithGrouping(f: Fluent, op: BoolOp, before: seq<Operand>, fs: seq<Fluent>, after: seq<Operand>)
    requires f.variant != Path2
    ensures CombineWith(f, op, before + [Many(fs)] + after) == CombineWith(f, op, before + Singles(fs) + after)
  {
    FlattenAppend(before + [Many(fs)], after);
    FlattenAppend(before, [Many(fs)]);
    FlattenAppend(before + Singles(fs), after);
    FlattenAppend(before, Singles(fs));
    FlattenGrouping(fs);
    FlattenAppend([One(f)], before + [Many(fs)] + after);
    FlattenAppend([One(f)], before + Singles(fs) + after);
  }

  /** `hull()` on one value: the engine hull of the receiver alone, same class. */
  function HullOf(f: Fluent): (r: Fluent)
    ensures r.variant == f.variant && r.geom == Hull([f.geom])
  {
    Wrap(f, Hull([f.geom]))
  }

  /** `hullChain()` on one value, same class. */
  function HullChainOf(f: Fluent): (r: Fluent)
    ensures r.variant == f.variant && r.geom == HullChain([f.geom])
  {
    Wrap(f, HullChain([f.geom]))
  }

  /** `extrudeLinear` on a `FluentGeom2`: the only method that changes the
      variant; the result is a `FluentGeom3`. */
  function ExtrudeLinear(f: Fluent, options: ExtrudeLinearOptions): (r: Fluent)
    requires f.variant == Geom2
    ensures r.variant == Geom3 && r.variant != f.variant
    ensures r.geom == ExtrudedLinear(options, f.geom)
  {
    New(Geom3, Some(ExtrudedLinear(options, f.geom)))
  }

  /** `extrudeRotate` on a `FluentGeom2`, giving a `FluentGeom3`. */
  function ExtrudeRotate(f: Fluent, options: ExtrudeRotateOptions): (r: Fluent)
    requires f.variant == Geom2
    ensures r.variant == Geom3 && r.variant != f.variant
    ensures r.geom == ExtrudedRotate(options, f.geom)
  {
    New(Geom3, Some(ExtrudedRotate(options, f.geom)))
  }

  /** Which queries a class offers: `measureArea` and `toPoints` on the 2D
      classes, `toOutlines` on `FluentGeom2`, `measureVolume` and `toPolygons`
      on `FluentGeom3`. */
  predicate Answers(v: Variant, q: Query) {
    match q
    case Area => v != Geom3
    case Points => v != Geom3
    case Outlines => v == Geom2
    case Volume => v == Geom3
    case Polygons => v == Geom3
    case _ => true
  }

  /** A measurement method: the engine's value, returned unwrapped. */
  function Measure(f: Fluent, q: Query): (r: Reading)
    requires Answers(f.variant, q)
    ensures r.query == q && r.subject == f.geom
  {
    Reading(q, f.geom)
  }

  /** A measurement sees only the geometry: the class wrapped around it, and
      rewrapping it through a constructor, make no difference. */
  lemma MeasureSeesThroughWrapper(v: Variant, w: Variant, g: Geom, q: Query)
    requires Answers(v, q) && Answers(w, q)
    ensures Measure(New(v, Some(g)), q) == Measure(Fluent(w, g), q)
    ensures Measure(Wrap(Fluent(w, g), g), q) == Reading(q, g)
  {
  }
}
