/** The fluent collections: `FluentGeometryArray` and its three subclasses
    `FluentGeom2Array`, `FluentGeom3Array` and `FluentPath2Array`. The base
    class broadcasts transforms over its elements; the subclasses add
    `append`, the hulls and (for 2D regions) the extrusions. */
module FluentArrays {
  import opened Wrappers
  import opened Engine
  import opened FluentGeom

  /** The runtime class of a collection: the base class, or the subclass
      holding one variant. */
  datatype ArrayClass = Base | Of(variant: Variant)

  datatype FluentArray = FluentArray(cls: ArrayClass, items: seq<Geom>)

  /** `FluentGeom2Array.create(...items)` and its siblings. */
  function Create(v: Variant, items: seq<Geom>): (r: FluentArray)
    ensures r.cls == Of(v) && r.items == items
  {
    FluentArray(Of(v), items)
  }

  /** `append` on a single value: the value and the new geometry, in that
      order, in the subclass of the value's variant. */
  function AppendOne(f: Fluent, g: Geom): (r: FluentArray)
    ensures r.cls == Of(f.variant)
    ensures |r.items| == 2 && r.items[0] == f.geom && r.items[1] == g
  {
    Create(f.variant, [f.geom, g])
  }

  /** `append` on a collection: only the subclasses define it; on a base-class
      collection the call is a `TypeError`. */
  function Append(a: FluentArray, g: Geom): (r: Result<FluentArray>)
    ensures r.Failure? <==> a.cls == Base
    ensures r.Success? ==> r.value.cls == a.cls && |r.value.items| == |a.items| + 1
    ensures r.Success? ==> r.value.items[..|a.items|] == a.items && r.value.items[|a.items|] == g
  {
    if a.cls == Base then Failure("append is not a function")
    else Success(a.(items := a.items + [g]))
  }

  /** Appending to a single value and then to the pair is appending both in
      order. */
  lemma AppendAfterAppendOne(f: Fluent, g: Geom, h: Geom)
    ensures Append(AppendOne(f, g), h) == Success(Create(f.variant, [f.geom, g, h]))
  {
    assert [f.geom, g] + [h] == [f.geom, g, h];
  }

  /** `append` mutates the collection and returns it: the returned object and
      the receiver are one and the same. */
  class Collection {
    var cls: ArrayClass
    var items: seq<Geom>

    constructor (v: Variant, items: seq<Geom>)
      ensures this.cls == Of(v) && this.items == items
    {
      this.cls := Of(v);
      this.items := items;
    }

    method Append(g: Geom) returns (r: Collection)
      requires cls.Of?
      modifies this
      ensures r == this && cls == old(cls)
      ensures items == old(items) + [g]
    {
      items := items + [g];
      r := this;
    }
  }

  // ---------------------------------------------------------------------
  // Broadcast transforms

  /** The transforms the base class broadcasts: everything but `expand` and
      `offset`. */
  predicate IsBroadcast(op: TransformOp) {
    !op.Expand? && !op.Offset?
  }

  /** Every element transformed by the engine's list form. */
  function MapOp(op: TransformOp, items: seq<Geom>): (r: seq<Geom>)
    ensures |r| == |items|
    ensures forall i :: 0 <= i < |r| ==> r[i] == Transformed(op, items[i])
  {
    seq(|items|, i requires 0 <= i < |items| => Transformed(op, items[i]))
  }

  /** A broadcast transform as the source writes it: the result is built with
      `new FluentGeometryArray(...)`, so it is a base-class collection whatever
      the receiver was; the `as this` cast does not change the runtime class. */
  function BroadcastAsWritten(a: FluentArray, op: TransformOp): (r: FluentArray)
    requires IsBroadcast(op)
    ensures r.cls == Base
    ensures |r.items| == |a.items|
    ensures forall i :: 0 <= i < |r.items| ==> r.items[i] == Transformed(op, a.items[i])
  {
    FluentArray(Base, MapOp(op, a.items))
  }

  /** A broadcast transform as its declared `this` return type promises: the
      same elements, in a collection of the receiver's class. */
  function Broadcast(a: FluentArray, op: TransformOp): (r: FluentArray)
    requires IsBroadcast(op)
    ensures r.cls == a.cls
    ensures |r.items| == |a.items|
    ensures forall i :: 0 <= i < |r.items| ==> r.items[i] == Transformed(op, a.items[i])
  {
    a.(items := MapOp(op, a.items))
  }

  /** The two differ in the class only. After a broadcast transform of a
      subclass collection, the source's result no longer has `append`, while
      the declared type says it has. */
  lemma AsWrittenLosesAppend(a: FluentArray, op: TransformOp, g: Geom)
    requires IsBroadcast(op) && a.cls.Of?
    ensures BroadcastAsWritten(a, op).items == Broadcast(a, op).items
    ensures Append(BroadcastAsWritten(a, op), g).Failure?
    ensures Append(Broadcast(a, op), g).Success?
  {
  }

  /** Concretely: `FluentGeom2Array.create(g1, g2).translate([1, 0, 0])`
      translates both items, and `.append(h)` on the result fails. */
  lemma TranslateThenAppendFails(g1: Geom, g2: Geom, h: Geom)
    ensures var op := Translate(Vec3(1.0, 0.0, 0.0));
            var t := BroadcastAsWritten(Create(Geom2, [g1, g2]), op);
            && t.items == [Transformed(op, g1), Transformed(op, g2)]
            && Append(t, h) == Failure("append is not a function")
  {
  }

  /** Each element is transformed exactly as the single value's method would
      transform it. */
  lemma BroadcastMatchesSingle(a: FluentArray, op: TransformOp, i: int)
    requires IsBroadcast(op) && a.cls.Of? && 0 <= i < |a.items|
    ensures Broadcast(a, op).items[i] == Apply(Fluent(a.cls.variant, a.items[i]), op).geom
  {
  }

  /** Transforming then appending the transformed geometry is appending then
      transforming. */
  lemma BroadcastCommutesWithAppend(a: FluentArray, op: TransformOp, g: Geom)
    requires IsBroadcast(op) && a.cls.Of?
    ensures Append(a, g).Success?
    ensures Broadcast(Append(a, g).value, op) == Append(Broadcast(a, op), Transformed(op, g)).value
  {
    var l := Broadcast(Append(a, g).value, op);
    var r := Append(Broadcast(a, op), Transformed(op, g)).value;
    assert |l.items| == |r.items|;
    forall i | 0 <= i < |l.items| ensures l.items[i] == r.items[i] {
      if i < |a.items| {
        assert r.items[i] == r.items[..|a.items|][i];
      }
    }
  }

  predicate AllBroadcast(ops: seq<TransformOp>) {
    forall k :: 0 <= k < |ops| ==> IsBroadcast(ops[k])
  }

  /** A chain of broadcast transforms, applied left to right. */
  function BroadcastChain(a: FluentArray, ops: seq<TransformOp>): FluentArray
    requires AllBroadcast(ops)
    decreases |ops|
  {
    if |ops| == 0 then a else BroadcastChain(Broadcast(a, ops[0]), ops[1..])
  }

  /** A chain on the collection is the same chain on every element: the class
      is kept, and element `i` ends up as the single value's chain would
      leave it. */
  lemma {:induction false} BroadcastChainIsElementwise(a: FluentArray, ops: seq<TransformOp>)
    requires AllBroadcast(ops)
    ensures BroadcastChain(a, ops).cls == a.cls
    ensures |BroadcastChain(a, ops).items| == |a.items|
    ensures forall i :: 0 <= i < |a.items| ==> BroadcastChain(a, ops).items[i] == Nest(a.items[i], ops)
    decreases |ops|
  {
    if |ops| > 0 {
      var b := Broadcast(a, ops[0]);
      assert AllBroadcast(ops[1..]);
      BroadcastChainIsElementwise(b, ops[1..]);
      forall i | 0 <= i < |a.items| ensures BroadcastChain(a, ops).items[i] == Nest(a.items[i], ops) {
        assert b.items[i] == Transformed(ops[0], a.items[i]);
      }
    }
  }

  // ---------------------------------------------------------------------
  // Extrusions and hulls

  /** `extrudeLinear` on a `FluentGeom2Array`: a `FluentGeom3Array` of the
      extruded elements. */
  function ExtrudeLinearAll(a: FluentArray, options: ExtrudeLinearOptions): (r: FluentArray)
    requires a.cls == Of(Geom2)
    ensures r.cls == Of(Geom3)
    ensures |r.items| == |a.items|
    ensures forall i :: 0 <= i < |r.items| ==> r.items[i] == ExtrudeLinear(Fluent(Geom2, a.items[i]), options).geom
  {
    Create(Geom3, seq(|a.items|, i requires 0 <= i < |a.items| => ExtrudedLinear(options, a.items[i])))
  }

  /** `extrudeRotate` on a `FluentGeom2Array`. */
  function ExtrudeRotateAll(a: FluentArray, options: ExtrudeRotateOptions): (r: FluentArray)
    requires a.cls == Of(Geom2)
    ensures r.cls == Of(Geom3)
    ensures |r.items| == |a.items|
    ensures forall i :: 0 <= i < |r.items| ==> r.items[i] == ExtrudeRotate(Fluent(Geom2, a.items[i]), options).geom
  {
    Create(Geom3, seq(|a.items|, i requires 0 <= i < |a.items| => ExtrudedRotate(options, a.items[i])))
  }

  /** Extruding distributes over `append`. */
  lemma ExtrudeDistributesOverAppend(a: FluentArray, options: ExtrudeLinearOptions, g: Geom)
    requires a.cls == Of(Geom2)
    ensures Append(a, g).Success?
    ensures ExtrudeLinearAll(Append(a, g).value, options)
         == Append(ExtrudeLinearAll(a, options), ExtrudedLinear(options, g)).value
  {
    var l := ExtrudeLinearAll(Append(a, g).value, options);
    var r := Append(ExtrudeLinearAll(a, options), ExtrudedLinear(options, g)).value;
    assert |l.items| == |r.items|;
    forall i | 0 <= i < |l.items| ensures l.items[i] == r.items[i] {
      if i < |a.items| {
        assert r.items[i] == r.items[..|a.items|][i];
      }
    }
  }

  /** `hull` on a subclass collection: one single value of the element
      variant, the hull of all elements. */
  function HullAll(a: FluentArray): (r: Fluent)
    requires a.cls.Of?
    ensures r.variant == a.cls.variant && r.geom == Hull(a.items)
  {
    New(a.cls.variant, Some(Hull(a.items)))
  }

  /** `hullChain` on a subclass collection. */
  function HullChainAll(a: FluentArray): (r: Fluent)
    requires a.cls.Of?
    ensures r.variant == a.cls.variant && r.geom == HullChain(a.items)
  {
    New(a.cls.variant, Some(HullChain(a.items)))
  }

  /** A one-element collection hulls as its element does; `f.append(g).hull()`
      hulls the two geometries in order and keeps the variant. */
  lemma HullAgreesWithSingle(f: Fluent, g: Geom)
    ensures HullAll(Create(f.variant, [f.geom])) == HullOf(f)
    ensures HullChainAll(Create(f.variant, [f.geom])) == HullChainOf(f)
    ensures HullAll(AppendOne(f, g)) == Fluent(f.variant, Hull([f.geom, g]))
  {
  }

  // ---------------------------------------------------------------------
  // toString

  function DigitChar(d: nat): (c: char)
    requires d < 10
    ensures '0' <= c <= '9'
  {
    "0123456789"[d]
  }

  function DigitValue(c: char): int {
    c as int - '0' as int
  }

  predicate IsDigit(c: char) {
    '0' <= c <= '9'
  }

  /** The decimal representation of a length. */
  function NatToString(n: nat): (s: string)
    ensures |s| >= 1
    ensures forall k :: 0 <= k < |s| ==> IsDigit(s[k])
    decreases n
  {
    if n < 10 then [DigitChar(n)] else NatToString(n / 10) + [DigitChar(n % 10)]
  }

  /** The value of a string of decimal digits. */
  function ParseDigits(s: string): int
    decreases |s|
  {
    if |s| == 0 then 0 else ParseDigits(s[..|s| - 1]) * 10 + DigitValue(s[|s| - 1])
  }

  /** The longest prefix of decimal digits. */
  function TakeDigits(s: string): (d: string)
    ensures |d| <= |s| && d == s[..|d|]
    ensures forall k :: 0 <= k < |d| ==> IsDigit(d[k])
    ensures |d| < |s| ==> !IsDigit(s[|d|])
    decreases |s|
  {
    if |s| == 0 || !IsDigit(s[0]) then "" else [s[0]] + TakeDigits(s[1..])
  }

  /** `NatToString` is read back by `ParseDigits`. */
  lemma {:induction false} ParseNatToString(n: nat)
    ensures ParseDigits(NatToString(n)) == n
    decreases n
  {
    if n >= 10 {
      var s := NatToString(n);
      assert s[..|s| - 1] == NatToString(n / 10);
      ParseNatToString(n / 10);
    }
  }

  /** Digits followed by a non-digit: `TakeDigits` stops exactly there. */
  lemma {:induction false} TakeDigitsStops(d: string, rest: string)
    requires forall k :: 0 <= k < |d| ==> IsDigit(d[k])
    requires |rest| > 0 && !IsDigit(rest[0])
    ensures TakeDigits(d + rest) == d
    decreases |d|
  {
    if |d| == 0 {
      assert d + rest == rest;
    } else {
      assert (d + rest)[1..] == d[1..] + rest;
      TakeDigitsStops(d[1..], rest);
    }
  }

  const Prefix: string := "FluentGeometryArray("

  /** The items joined with `", "`. */
  function Join(parts: seq<string>, sep: string): string
    decreases |parts|
  {
    if |parts| == 0 then "" else if |parts| == 1 then parts[0] else parts[0] + sep + Join(parts[1..], sep)
  }

  /** Joining one more part adds the separator and the part at the end. */
  lemma {:induction false} JoinSnoc(ps: seq<string>, p: string, sep: string)
    ensures Join(ps + [p], sep) == if |ps| == 0 then p else Join(ps, sep) + sep + p
    decreases |ps|
  {
    if |ps| > 1 {
      assert (ps + [p])[1..] == ps[1..] + [p];
      JoinSnoc(ps[1..], p, sep);
    } else if |ps| == 1 {
      assert ps + [p] == [ps[0], p];
      assert [ps[0], p][1..] == [p];
    }
  }

  /** What each element prints as, in order. */
  function Shown(a: FluentArray, show: Geom -> string): (r: seq<string>)
    ensures |r| == |a.items| && forall i :: 0 <= i < |r| ==> r[i] == show(a.items[i])
  {
    seq(|a.items|, i requires 0 <= i < |a.items| => show(a.items[i]))
  }

  /** `toString()`: `FluentGeometryArray(<length>)[<items, comma separated>]`,
      each item shown by the engine's `toString` (a parameter here). After
      the header come the element strings joined with `", "`, in brackets. */
  function ToString(a: FluentArray, show: Geom -> string): (r: string)
    ensures |r| > |Prefix| && r[..|Prefix|] == Prefix && r[|r| - 1] == ']'
    ensures |r| > |Prefix| + |NatToString(|a.items|)| && r[|Prefix| + |NatToString(|a.items|)|..] == ")[" + Join(Shown(a, show), ", ") + "]"
  {
    Prefix + NatToString(|a.items|) + ")[" + Join(Shown(a, show), ", ") + "]"
  }

  /** Appending to a non-empty collection extends its printed contents by
      `", "` and the new element's string. */
  lemma ToStringAppend(a: FluentArray, g: Geom, show: Geom -> string)
    requires a.cls.Of? && |a.items| > 0
    ensures Append(a, g).Success?
    ensures Join(Shown(Append(a, g).value, show), ", ") == Join(Shown(a, show), ", ") + ", " + show(g)
  {
    var b := Append(a, g).value;
    assert Shown(b, show) == Shown(a, show) + [show(g)];
    JoinSnoc(Shown(a, show), show(g), ", ");
  }

  /** A two-element collection prints both elements, comma separated. */
  lemma TwoToString(v: ArrayClass, g1: Geom, g2: Geom, show: Geom -> string)
    ensures ToString(FluentArray(v, [g1, g2]), show) == "FluentGeometryArray(2)[" + show(g1) + ", " + show(g2) + "]"
  {
    var a := FluentArray(v, [g1, g2]);
    assert Shown(a, show) == [show(g1), show(g2)];
    assert Join([show(g1), show(g2)], ", ") == show(g1) + ", " + show(g2);
  }

  /** What a reader of the header gets back. */
  function ReadCount(s: string): Option<int> {
    if |s| >= |Prefix| && s[..|Prefix|] == Prefix && |TakeDigits(s[|Prefix|..])| > 0
    then Some(ParseDigits(TakeDigits(s[|Prefix|..])))
    else None
  }

  /** The header states the number of elements, whatever the elements print
      as, and the text ends with `]`. */
  lemma ToStringReportsLength(a: FluentArray, show: Geom -> string)
    ensures ReadCount(ToString(a, show)) == Some(|a.items|)
    ensures ToString(a, show)[|ToString(a, show)| - 1] == ']'
  {
    var s := ToString(a, show);
    var d := NatToString(|a.items|);
    var rest := ")[" + Join(Shown(a, show), ", ") + "]";
    assert s == Prefix + (d + rest);
    assert s[..|Prefix|] == Prefix;
    assert s[|Prefix|..] == d + rest;
    TakeDigitsStops(d, rest);
    ParseNatToString(|a.items|);
  }

  /** An empty collection prints as `FluentGeometryArray(0)[]`. */
  lemma EmptyToString(v: ArrayClass, show: Geom -> string)
    ensures ToString(FluentArray(v, []), show) == "FluentGeometryArray(0)[]"
  {
  }
}
