/** The build plan: an ordered list of box-like primitives and named anchors. */
module PlanTypes {
  import opened Ir

  datatype Vec3 = Vec3(x: real, y: real, z: real)

  const Origin := Vec3(0.0, 0.0, 0.0)

  datatype Primitive = Primitive(
    name: string,
    shape: string,
    dimensions_mm: Vec3,
    location_mm: Vec3,
    rotation_deg: Vec3,
    params: map<string, Json>)

  /** `Primitive(name, shape, dims, loc)` with the dataclass defaults for rotation and params. */
  function NewPrimitive(name: string, shape: string, dims: Vec3, loc: Vec3): (p: Primitive)
    ensures p.name == name && p.shape == shape && p.dimensions_mm == dims && p.location_mm == loc
    ensures p.rotation_deg == Origin && p.params == map[]
  {
    Primitive(name, shape, dims, loc, Origin, map[])
  }

  datatype Anchor = Anchor(name: string, location_mm: Vec3)

  function PrimitiveNames(ps: seq<Primitive>): (r: seq<string>)
    ensures |r| == |ps| && forall i :: 0 <= i < |ps| ==> r[i] == ps[i].name
  {
    seq(|ps|, i requires 0 <= i < |ps| => ps[i].name)
  }

  function AnchorNames(anchors: seq<Anchor>): (r: seq<string>)
    ensures |r| == |anchors| && forall i :: 0 <= i < |anchors| ==> r[i] == anchors[i].name
  {
    seq(|anchors|, i requires 0 <= i < |anchors| => anchors[i].name)
  }

  /** The mutable plan every component builder appends to. */
  class BuildPlan {
    var primitives: seq<Primitive>
    var anchors: seq<Anchor>
    var metadata: map<string, string>

    constructor()
      ensures primitives == [] && anchors == [] && metadata == map[]
    {
      primitives := [];
      anchors := [];
      metadata := map[];
    }

    /** `plan.primitives.append(p)`. */
    method AddPrimitive(p: Primitive)
      modifies this
      ensures primitives == old(primitives) + [p]
      ensures anchors == old(anchors) && metadata == old(metadata)
    {
      primitives := primitives + [p];
    }

    /** `plan.anchors.append(a)`. */
    method AddAnchor(a: Anchor)
      modifies this
      ensures anchors == old(anchors) + [a]
      ensures primitives == old(primitives) && metadata == old(metadata)
    {
      anchors := anchors + [a];
    }
  }
}
