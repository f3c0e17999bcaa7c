/**
  Loading the world map: every multi-part geometry of the frame's geometry
  column is replaced by its part of largest area (the first such part on a
  tie, as an argmax picks it); single-part geometries are kept; no other
  column changes.

  The frame that is read from the bundled dataset is a parameter. An area is
  a number carried by the polygon; computing it from the outline is not part
  of this model.
 */
module WorldGeometry {

  import opened Remote

  datatype Point = Point(x: real, y: real)

  datatype Polygon = Polygon(exterior: seq<Point>, area: real)

  /** A geometry of the column: one polygon, or a collection of parts (it has "geoms"). */
  datatype Geometry = Single(polygon: Polygon) | Multi(parts: seq<Polygon>)

  /** The ValueError of an argmax over an empty sequence of areas. */
  datatype WorldError = EmptyArgmax

  function Areas(parts: seq<Polygon>): (areas: seq<real>)
    ensures |areas| == |parts| && forall i :: 0 <= i < |parts| ==> areas[i] == parts[i].area
  {
    seq(|parts|, i requires 0 <= i < |parts| => parts[i].area)
  }

  /** The index of a maximum, the first one when several are equal. */
  function ArgMax(xs: seq<real>): (k: nat)
    requires |xs| > 0
    ensures k < |xs|
    ensures forall j :: 0 <= j < |xs| ==> xs[j] <= xs[k]
    ensures forall j :: 0 <= j < k ==> xs[j] < xs[k]
  {
    if |xs| == 1 then 0
    else
      var k := ArgMax(xs[..|xs| - 1]);
      assert forall j :: 0 <= j < |xs| - 1 ==> xs[..|xs| - 1][j] == xs[j];
      if xs[|xs| - 1] > xs[k] then |xs| - 1 else k
  }

  /** The argmax is unique: no other index is both maximal and before every other maximum. */
  lemma ArgMaxUnique(xs: seq<real>, k: nat)
    requires k < |xs|
    requires forall j :: 0 <= j < |xs| ==> xs[j] <= xs[k]
    requires forall j :: 0 <= j < k ==> xs[j] < xs[k]
    ensures ArgMax(xs) == k
  {
  }

  /** The loop body: a multi-part geometry becomes its largest part, a single one stays. */
  function LargestPart(g: Geometry): (r: Result<Geometry, WorldError>)
    ensures r.Failure? <==> g.Multi? && g.parts == []
    ensures r.Success? ==> r.value.Single?
    ensures g.Single? ==> r == Success(g)
    ensures g.Multi? && r.Success? ==>
      && r.value.polygon in g.parts
      && forall p :: p in g.parts ==> p.area <= r.value.polygon.area
  {
    match g
    case Single(_) => Success(g)
    case Multi(parts) =>
      if parts == [] then Failure(EmptyArgmax)
      else Success(Single(parts[ArgMax(Areas(parts))]))
  }

  /** Among equally large parts, the first one is taken. */
  lemma LargestPartFirstOnTie(parts: seq<Polygon>, i: nat)
    requires i < |parts|
    requires forall j :: 0 <= j < |parts| ==> parts[j].area <= parts[i].area
    requires forall j :: 0 <= j < i ==> parts[j].area < parts[i].area
    ensures LargestPart(Multi(parts)) == Success(Single(parts[i]))
  {
    ArgMaxUnique(Areas(parts), i);
  }

  /** Loading twice changes nothing more: every geometry it leaves is single. */
  lemma LargestPartIdempotent(g: Geometry)
    requires LargestPart(g).Success?
    ensures LargestPart(LargestPart(g).value) == LargestPart(g)
  {
  }

  /**
    The loop of get_world over the geometry column: the geometries in the
    same order, each replaced by its largest part; the ValueError when a
    collection has no parts.
   */
  method SelectLargestParts(column: seq<Geometry>) returns (r: Result<seq<Geometry>, WorldError>)
    ensures r.Success? <==> forall i :: 0 <= i < |column| ==> LargestPart(column[i]).Success?
    ensures r.Success? ==>
      && |r.value| == |column|
      && forall i :: 0 <= i < |column| ==> r.value[i] == LargestPart(column[i]).value
    ensures r.Failure? ==> r.error == EmptyArgmax
  {
    var geometries: seq<Geometry> := [];
    for i := 0 to |column|
      invariant |geometries| == i
      invariant forall j :: 0 <= j < i ==> LargestPart(column[j]).Success?
      invariant forall j :: 0 <= j < i ==> geometries[j] == LargestPart(column[j]).value
    {
      var g := column[i];
      if g.Multi? {
        if g.parts == [] {
          return Failure(EmptyArgmax);
        }
        g := Single(g.parts[ArgMax(Areas(g.parts))]);
      }
      geometries := geometries + [g];
    }
    return Success(geometries);
  }

  /** A table with a geometry column and other columns; Valid: one entry per row in each. */
  class GeoFrame {
    var geometry: seq<Geometry>
    var columns: map<string, seq<string>>

    predicate Valid()
      reads this
    {
      forall name :: name in columns ==> |columns[name]| == |geometry|
    }

    constructor (geometry: seq<Geometry>, columns: map<string, seq<string>>)
      requires forall name :: name in columns ==> |columns[name]| == |geometry|
      ensures Valid()
      ensures this.geometry == geometry && this.columns == columns
    {
      this.geometry := geometry;
      this.columns := columns;
    }
  }

  /**
    get_world on the frame read from the dataset: on success its geometry
    column holds the largest parts and every other column is as it was; on
    the ValueError the frame is left untouched.
   */
  method GetWorld(world: GeoFrame) returns (error: Option<WorldError>)
    requires world.Valid()
    modifies world
    ensures world.Valid()
    ensures world.columns == old(world.columns)
    ensures error.None? <==> forall i :: 0 <= i < |old(world.geometry)| ==> LargestPart(old(world.geometry)[i]).Success?
    ensures error.None? ==>
      && |world.geometry| == |old(world.geometry)|
      && forall i :: 0 <= i < |world.geometry| ==>
           world.geometry[i] == LargestPart(old(world.geometry)[i]).value && world.geometry[i].Single?
    ensures error.Some? ==> world.geometry == old(world.geometry)
  {
    var r := SelectLargestParts(world.geometry);
    if r.Failure? {
      return Some(r.error);
    }
    world.geometry := r.value;
    return None;
  }
}
