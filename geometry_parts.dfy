/** What the three equipment builders produce, with the three.js objects
    reduced to records: a part is a mesh's kind, its geometry's dimensions,
    its position, its rotation and its colour, and a group is the list of
    parts in the order they were added. Rotations are in half-turns, so
    0.5 stands for `Math.PI / 2`. */
module GeometryParts {

  datatype Vec3 = Vec3(x: real, y: real, z: real)

  const NoRotation: Vec3 := Vec3(0.0, 0.0, 0.0)

  /** The geometry constructors the builders use, with their arguments. */
  datatype Shape =
    | Box(width: real, height: real, depth: real)
    | Cylinder(radiusTop: real, radiusBottom: real, height: real, radialSegments: real)
    | Cone(radius: real, height: real, radialSegments: real)
    | Torus(radius: real, tube: real, radialSegments: real, tubularSegments: real)
    | Plane(width: real, height: real)

  datatype Kind =
    | Tower | Base | Motor | Pulley | Belt | Bucket | Platform | Ladder | Rung | Brace | Window | Chute
    | Hopper | Leg | Body | Roof | Rail | Ring | Cap | Door

  datatype Part = Part(kind: Kind, shape: Shape, position: Vec3, rotation: Vec3, color: real)

  /** The vertical extent of an unrotated shape. */
  function Height(s: Shape): real {
    match s
    case Box(_, h, _) => h
    case Cylinder(_, _, h, _) => h
    case Cone(_, h, _) => h
    case Torus(_, tube, _, _) => 2.0 * tube
    case Plane(_, h) => h
  }

  /** Three.js centres every one of these shapes on its position. */
  function Bottom(p: Part): real {
    p.position.y - Height(p.shape) / 2.0
  }

  function Top(p: Part): real {
    p.position.y + Height(p.shape) / 2.0
  }

  /** `{ ...base, ...over }` on configuration records: a key of `over`
      wins, every other key keeps its value in `base`. */
  function Spread<F(==,!new)>(base: map<F, real>, over: map<F, real>): (r: map<F, real>)
    ensures forall f :: f in r <==> f in base || f in over
    ensures forall f :: f in over ==> r[f] == over[f]
    ensures forall f :: f in base && f !in over ==> r[f] == base[f]
  {
    base + over
  }

  /** A scene-graph group: `group.add(mesh)` appends. */
  class Group {
    var parts: seq<Part>

    constructor ()
      ensures parts == []
    {
      parts := [];
    }

    method Add(p: Part)
      modifies this
      ensures parts == old(parts) + [p]
    {
      parts := parts + [p];
    }
  }
}
