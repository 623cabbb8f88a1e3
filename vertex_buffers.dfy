/** The flat per-vertex attribute buffers of the particle mesh and the writer
    that stores one particle into them: six vertices (two triangles) per
    particle, each carrying the particle's centre, texture coordinates, colour
    and alpha, size, rotation, and a corner index from which the vertex shader
    displaces it to its corner of the quad. */
module VertexBuffers {

  import opened Options
  import opened Vectors
  import opened Particles
  import opened TextureAtlas

  const VerticesPerParticle: nat := 6

  /** The double closest to pi, and the conversion factor from degrees. */
  const Pi: real := 3.141592653589793
  const DegreesToRadians: real := Pi / 180.0

  /** The corner index stored at each of a particle's six vertices. */
  const CornerIndices: seq<real> := [0.0, 1.0, 3.0, 1.0, 2.0, 3.0]

  function CornerIndex(v: nat): real
    requires v < VerticesPerParticle
  {
    CornerIndices[v]
  }

  /** The texture coordinates stored at each of a particle's six vertices,
      taken from its atlas image. */
  function CornerUv(d: ImageDescriptor, v: nat): (real, real)
    requires v < VerticesPerParticle
  {
    [(d.left, d.top), (d.left, d.bottom), (d.right, d.top),
     (d.left, d.bottom), (d.right, d.bottom), (d.right, d.top)][v]
  }

  /** GLSL `step(edge, x)`. */
  function Step(edge: real, x: real): real {
    if x < edge then 0.0 else 1.0
  }

  /** The side of the quad the vertex shader moves a vertex to along the
      camera's x axis (-1 or +1), from its corner index. */
  function XFactor(index: real): real {
    -1.0 + Step(2.0, index) * 2.0
  }

  /** The same along the camera's y axis. */
  function YFactor(index: real): real {
    -1.0 + Step(index, 0.5) * 2.0 + Step(3.0, index) * 2.0
  }

  /** Each vertex's texture coordinates are the image corner on the side the
      shader moves it to: the right edge exactly when it moves along +x, the
      top edge exactly when it moves along +y. */
  lemma CornersMatchShader(d: ImageDescriptor, v: nat)
    requires v < VerticesPerParticle
    ensures XFactor(CornerIndex(v)) == 1.0 || XFactor(CornerIndex(v)) == -1.0
    ensures YFactor(CornerIndex(v)) == 1.0 || YFactor(CornerIndex(v)) == -1.0
    ensures CornerUv(d, v) == (if XFactor(CornerIndex(v)) > 0.0 then d.right else d.left,
                               if YFactor(CornerIndex(v)) > 0.0 then d.top else d.bottom)
  {
  }

  /** The two triangles each use three different corners, together all four,
      and they share the diagonal from corner 1 to corner 3. */
  lemma TrianglesCoverQuad()
    ensures |{CornerIndex(0), CornerIndex(1), CornerIndex(2)}| == 3
    ensures |{CornerIndex(3), CornerIndex(4), CornerIndex(5)}| == 3
    ensures {CornerIndex(0), CornerIndex(1), CornerIndex(2), CornerIndex(3), CornerIndex(4), CornerIndex(5)}
            == {0.0, 1.0, 2.0, 3.0}
    ensures {CornerIndex(0), CornerIndex(1), CornerIndex(2)} * {CornerIndex(3), CornerIndex(4), CornerIndex(5)}
            == {1.0, 3.0}
  {
    assert {CornerIndex(0), CornerIndex(1), CornerIndex(2)} == {0.0, 1.0, 3.0};
    assert {CornerIndex(3), CornerIndex(4), CornerIndex(5)} == {1.0, 2.0, 3.0};
  }

  /** Components of vertex `i` of an attribute with three, two and four
      components per vertex. */
  function Vec3At(a: array<real>, i: nat): Vec3
    reads a
    requires 3 * i + 3 <= a.Length
  {
    Vec3(a[3 * i], a[3 * i + 1], a[3 * i + 2])
  }

  function Vec2At(a: array<real>, i: nat): (real, real)
    reads a
    requires 2 * i + 2 <= a.Length
  {
    (a[2 * i], a[2 * i + 1])
  }

  function ColorAt(a: array<real>, i: nat): (Rgb, real)
    reads a
    requires 4 * i + 4 <= a.Length
  {
    (Rgb(a[4 * i], a[4 * i + 1], a[4 * i + 2]), a[4 * i + 3])
  }

  /** `a` and `b` agree on every cell outside `[lo, hi)`. */
  predicate SameOutside(a: seq<real>, b: seq<real>, lo: int, hi: int) {
    |a| == |b| && forall j :: 0 <= j < |a| && (j < lo || hi <= j) ==> a[j] == b[j]
  }

  /** `updateAttributeVector2XY`: vertex `index` of a two-component attribute
      becomes `(x, y)`. */
  method UpdateAttributeVector2XY(a: array<real>, index: nat, x: real, y: real)
    requires 2 * index + 2 <= a.Length
    modifies a
    ensures a[2 * index] == x && a[2 * index + 1] == y
    ensures forall j :: 0 <= j < a.Length && (j < 2 * index || 2 * index + 2 <= j) ==> a[j] == old(a[j])
  {
    a[index * 2] := x;
    a[index * 2 + 1] := y;
  }

  /** `updateAttributeVector3`. */
  method UpdateAttributeVector3(a: array<real>, index: nat, v: Vec3)
    requires 3 * index + 3 <= a.Length
    modifies a
    ensures a[3 * index] == v.x && a[3 * index + 1] == v.y && a[3 * index + 2] == v.z
    ensures forall j :: 0 <= j < a.Length && (j < 3 * index || 3 * index + 3 <= j) ==> a[j] == old(a[j])
  {
    a[index * 3] := v.x;
    a[index * 3 + 1] := v.y;
    a[index * 3 + 2] := v.z;
  }

  /** `updateAttributeColor`: red, green, blue, then the alpha the writer
      attaches to the colour. */
  method UpdateAttributeColor(a: array<real>, index: nat, c: Rgb, alpha: real)
    requires 4 * index + 4 <= a.Length
    modifies a
    ensures a[4 * index] == c.r && a[4 * index + 1] == c.g && a[4 * index + 2] == c.b && a[4 * index + 3] == alpha
    ensures forall j :: 0 <= j < a.Length && (j < 4 * index || 4 * index + 4 <= j) ==> a[j] == old(a[j])
  {
    a[index * 4] := c.r;
    a[index * 4 + 1] := c.g;
    a[index * 4 + 2] := c.b;
    a[index * 4 + 3] := alpha;
  }

  /** `updateAttributeScalar`. */
  method UpdateAttributeScalar(a: array<real>, index: nat, value: real)
    requires index < a.Length
    modifies a
    ensures a[index] == value
    ensures forall j :: 0 <= j < a.Length && j != index ==> a[j] == old(a[j])
  {
    a[index] := value;
  }

  /** The contents of the six vertex buffers. */
  datatype Buffers = Buffers(position: seq<real>, uv: seq<real>, customColor: seq<real>,
                             size: seq<real>, rotation: seq<real>, customIndex: seq<real>)

  /** `a` and `b` hold the same cells for every vertex from `v` on, in buffers
      of the same sizes. */
  predicate KeptFrom(a: Buffers, b: Buffers, v: nat) {
    && SameOutside(a.position, b.position, 0, 3 * v)
    && SameOutside(a.uv, b.uv, 0, 2 * v)
    && SameOutside(a.customColor, b.customColor, 0, 4 * v)
    && SameOutside(a.size, b.size, 0, 2 * v)
    && SameOutside(a.rotation, b.rotation, 0, v)
    && SameOutside(a.customIndex, b.customIndex, 0, v)
  }

  /** The mesh's attribute buffers, sized for `vertexCount` vertices, and its
      draw range (`None` until one is set: everything is drawn). */
  class Geometry {
    const vertexCount: nat
    const position: array<real>
    const uv: array<real>
    const customColor: array<real>
    const size: array<real>
    const rotation: array<real>
    const customIndex: array<real>
    var drawCount: Option<nat>

    ghost predicate Valid() {
      && position.Length == 3 * vertexCount
      && uv.Length == 2 * vertexCount
      && customColor.Length == 4 * vertexCount
      && size.Length == 2 * vertexCount
      && rotation.Length == vertexCount
      && customIndex.Length == vertexCount
      && position != uv && position != customColor && position != size && position != rotation && position != customIndex
      && uv != customColor && uv != size && uv != rotation && uv != customIndex
      && customColor != size && customColor != rotation && customColor != customIndex
      && size != rotation && size != customIndex
      && rotation != customIndex
    }

    /** What the six buffers hold. */
    ghost function Contents(): Buffers
      reads position, uv, customColor, size, rotation, customIndex
    {
      Buffers(position[..], uv[..], customColor[..], size[..], rotation[..], customIndex[..])
    }

    /** `initializeGeometry`: zero-filled buffers of the right sizes. */
    constructor (vertexCount: nat)
      ensures Valid() && this.vertexCount == vertexCount && drawCount == None
      ensures fresh(position) && fresh(uv) && fresh(customColor) && fresh(size) && fresh(rotation) && fresh(customIndex)
      ensures forall j :: 0 <= j < position.Length ==> position[j] == 0.0
      ensures forall j :: 0 <= j < uv.Length ==> uv[j] == 0.0
      ensures forall j :: 0 <= j < customColor.Length ==> customColor[j] == 0.0
      ensures forall j :: 0 <= j < size.Length ==> size[j] == 0.0
      ensures forall j :: 0 <= j < rotation.Length ==> rotation[j] == 0.0
      ensures forall j :: 0 <= j < customIndex.Length ==> customIndex[j] == 0.0
    {
      this.vertexCount := vertexCount;
      position := new real[3 * vertexCount](_ => 0.0);
      uv := new real[2 * vertexCount](_ => 0.0);
      customColor := new real[4 * vertexCount](_ => 0.0);
      size := new real[2 * vertexCount](_ => 0.0);
      rotation := new real[vertexCount](_ => 0.0);
      customIndex := new real[vertexCount](_ => 0.0);
      drawCount := None;
    }

    /** Vertex `i` holds particle `q` drawn with atlas image `d`, at corner
        `i % 6` of its quad. */
    ghost predicate VertexIs(i: nat, q: Particle, d: ImageDescriptor)
      reads position, uv, customColor, size, rotation, customIndex
      requires Valid() && i < vertexCount
    {
      && Vec3At(position, i) == q.position
      && Vec2At(uv, i) == CornerUv(d, i % VerticesPerParticle)
      && ColorAt(customColor, i) == (q.color, q.alpha)
      && Vec2At(size, i) == (q.size.x, q.size.y)
      && rotation[i] == q.rotation * DegreesToRadians
      && customIndex[i] == CornerIndex(i % VerticesPerParticle)
    }

    /** `setDrawRange(0, count)`: the first `count` vertices are drawn. */
    method SetDrawRange(count: nat)
      modifies this`drawCount
      ensures drawCount == Some(count)
    {
      drawCount := Some(count);
    }
  }

  /** Vertex `i` holds particle `q` with the atlas image it names. */
  ghost predicate Drawn(g: Geometry, atlas: Atlas, i: nat, q: Particle)
    reads g.position, g.uv, g.customColor, g.size, g.rotation, g.customIndex, atlas
    requires g.Valid() && atlas.Valid() && i < g.vertexCount
  {
    var d := atlas.GetImageDescriptor(q.atlasIndex);
    d.Some? && g.VertexIs(i, q, d.value)
  }

  /** The body of the writer's loop for the particle `q` in live slot `slot`:
      its six vertices get its position; then its atlas image is looked up,
      and if there is one the vertices get their texture coordinates, colour,
      size, rotation and corner index. A missing image stops the writer after
      the positions. Only the cells of the slot's six vertices change. */
  method WriteParticleVertices(g: Geometry, atlas: Atlas, slot: nat, q: Particle) returns (ok: bool)
    requires g.Valid() && atlas.Valid()
    requires VerticesPerParticle * slot + VerticesPerParticle <= g.vertexCount
    modifies g.position, g.uv, g.customColor, g.size, g.rotation, g.customIndex
    ensures ok <==> atlas.GetImageDescriptor(q.atlasIndex).Some?
    ensures forall i :: 6 * slot <= i < 6 * slot + 6 ==> Vec3At(g.position, i) == q.position
    ensures ok ==> forall i :: 6 * slot <= i < 6 * slot + 6 ==>
                     g.VertexIs(i, q, atlas.GetImageDescriptor(q.atlasIndex).value)
    ensures SameOutside(g.position[..], old(g.position[..]), 18 * slot, 18 * slot + 18)
    ensures SameOutside(g.uv[..], old(g.uv[..]), 12 * slot, 12 * slot + 12)
    ensures SameOutside(g.customColor[..], old(g.customColor[..]), 24 * slot, 24 * slot + 24)
    ensures SameOutside(g.size[..], old(g.size[..]), 12 * slot, 12 * slot + 12)
    ensures SameOutside(g.rotation[..], old(g.rotation[..]), 6 * slot, 6 * slot + 6)
    ensures SameOutside(g.customIndex[..], old(g.customIndex[..]), 6 * slot, 6 * slot + 6)
    ensures !ok ==> && g.uv[..] == old(g.uv[..]) && g.customColor[..] == old(g.customColor[..])
                    && g.size[..] == old(g.size[..]) && g.rotation[..] == old(g.rotation[..])
                    && g.customIndex[..] == old(g.customIndex[..])
  {
    var base := slot * VerticesPerParticle;
    WritePositions(g.position, base, q.position);
    var desc := atlas.GetImageDescriptor(q.atlasIndex);
    if desc.None? {
      return false;
    }
    var d := desc.value;
    WriteUvs(g.uv, base, d);
    WriteVertexData(g.customColor, g.size, g.rotation, base, q);
    WriteCornerIndices(g.customIndex, base);
    forall i | base <= i < base + VerticesPerParticle
      ensures g.VertexIs(i, q, d)
    {
      assert i % VerticesPerParticle == i - base;
    }
    ok := true;
  }

  /** The writer's inner loop over a slot's six vertices: colour with alpha,
      size, and rotation in radians. */
  method WriteVertexData(color: array<real>, size: array<real>, rotation: array<real>, base: nat, q: Particle)
    requires 4 * base + 24 <= color.Length && 2 * base + 12 <= size.Length && base + 6 <= rotation.Length
    requires color != size && color != rotation && size != rotation
    modifies color, size, rotation
    ensures forall v :: base <= v < base + 6 ==> ColorAt(color, v) == (q.color, q.alpha)
    ensures forall v :: base <= v < base + 6 ==> Vec2At(size, v) == (q.size.x, q.size.y)
    ensures forall v :: base <= v < base + 6 ==> rotation[v] == q.rotation * DegreesToRadians
    ensures SameOutside(color[..], old(color[..]), 4 * base, 4 * base + 24)
    ensures SameOutside(size[..], old(size[..]), 2 * base, 2 * base + 12)
    ensures SameOutside(rotation[..], old(rotation[..]), base, base + 6)
  {
    var i := 0;
    while i < VerticesPerParticle
      invariant 0 <= i <= VerticesPerParticle
      invariant forall v :: base <= v < base + i ==> ColorAt(color, v) == (q.color, q.alpha)
      invariant forall v :: base <= v < base + i ==> Vec2At(size, v) == (q.size.x, q.size.y)
      invariant forall v :: base <= v < base + i ==> rotation[v] == q.rotation * DegreesToRadians
      invariant SameOutside(color[..], old(color[..]), 4 * base, 4 * base + 24)
      invariant SameOutside(size[..], old(size[..]), 2 * base, 2 * base + 12)
      invariant SameOutside(rotation[..], old(rotation[..]), base, base + 6)
    {
      WriteVertex(color, size, rotation, base + i, q);
      i := i + 1;
    }
  }

  /** One pass of the inner loop: vertex `v` gets the particle's colour with
      alpha, size, and rotation in radians. */
  method WriteVertex(color: array<real>, size: array<real>, rotation: array<real>, v: nat, q: Particle)
    requires 4 * v + 4 <= color.Length && 2 * v + 2 <= size.Length && v < rotation.Length
    requires color != size && color != rotation && size != rotation
    modifies color, size, rotation
    ensures ColorAt(color, v) == (q.color, q.alpha)
    ensures Vec2At(size, v) == (q.size.x, q.size.y)
    ensures rotation[v] == q.rotation * DegreesToRadians
    ensures forall j :: 0 <= j < color.Length && (j < 4 * v || 4 * v + 4 <= j) ==> color[j] == old(color[j])
    ensures forall j :: 0 <= j < size.Length && (j < 2 * v || 2 * v + 2 <= j) ==> size[j] == old(size[j])
    ensures forall j :: 0 <= j < rotation.Length && j != v ==> rotation[j] == old(rotation[j])
    ensures forall w :: 0 <= w && 4 * w + 4 <= color.Length && w != v ==> ColorAt(color, w) == old(ColorAt(color, w))
    ensures forall w :: 0 <= w && 2 * w + 2 <= size.Length && w != v ==> Vec2At(size, w) == old(Vec2At(size, w))
  {
    UpdateAttributeColor(color, v, q.color, q.alpha);
    UpdateAttributeVector2XY(size, v, q.size.x, q.size.y);
    UpdateAttributeScalar(rotation, v, q.rotation * DegreesToRadians);
  }

  /** The six `updateAttributeVector3` calls: every vertex of the slot gets
      the particle's position. */
  method WritePositions(a: array<real>, base: nat, position: Vec3)
    requires 3 * base + 18 <= a.Length
    modifies a
    ensures forall i :: base <= i < base + 6 ==> Vec3At(a, i) == position
    ensures SameOutside(a[..], old(a[..]), 3 * base, 3 * base + 18)
  {
    UpdateAttributeVector3(a, base, position);
    UpdateAttributeVector3(a, base + 1, position);
    UpdateAttributeVector3(a, base + 2, position);
    UpdateAttributeVector3(a, base + 3, position);
    UpdateAttributeVector3(a, base + 4, position);
    UpdateAttributeVector3(a, base + 5, position);
  }

  /** The six `updateAttributeVector2XY` calls on the texture coordinates. */
  method WriteUvs(a: array<real>, base: nat, d: ImageDescriptor)
    requires 2 * base + 12 <= a.Length
    modifies a
    ensures forall i :: base <= i < base + 6 ==> Vec2At(a, i) == CornerUv(d, i - base)
    ensures SameOutside(a[..], old(a[..]), 2 * base, 2 * base + 12)
  {
    UpdateAttributeVector2XY(a, base, d.left, d.top);
    UpdateAttributeVector2XY(a, base + 1, d.left, d.bottom);
    UpdateAttributeVector2XY(a, base + 2, d.right, d.top);
    UpdateAttributeVector2XY(a, base + 3, d.left, d.bottom);
    UpdateAttributeVector2XY(a, base + 4, d.right, d.bottom);
    UpdateAttributeVector2XY(a, base + 5, d.right, d.top);
  }

  /** The six `updateAttributeScalar` calls on the corner indices. */
  method WriteCornerIndices(a: array<real>, base: nat)
    requires base + 6 <= a.Length
    modifies a
    ensures forall i :: base <= i < base + 6 ==> a[i] == CornerIndex(i - base)
    ensures SameOutside(a[..], old(a[..]), base, base + 6)
  {
    UpdateAttributeScalar(a, base, 0.0);
    UpdateAttributeScalar(a, base + 1, 1.0);
    UpdateAttributeScalar(a, base + 2, 3.0);
    UpdateAttributeScalar(a, base + 3, 1.0);
    UpdateAttributeScalar(a, base + 4, 2.0);
    UpdateAttributeScalar(a, base + 5, 3.0);
  }

  /** Every particle of `live` has an image in the atlas. */
  ghost predicate Drawable(atlas: Atlas, live: seq<Particle>)
    reads atlas
    requires atlas.Valid()
  {
    forall s :: 0 <= s < |live| ==> atlas.GetImageDescriptor(live[s].atlasIndex).Some?
  }

  /** One pass of the writer's loop: slot `p` gets particle `p`, and the
      vertices of the earlier slots keep theirs. */
  method WriteSlot(g: Geometry, atlas: Atlas, live: array<Particle>, n: nat, p: nat) returns (ok: bool)
    requires g.Valid() && atlas.Valid()
    requires p < n <= live.Length && VerticesPerParticle * n <= g.vertexCount
    requires forall i :: 0 <= i < 6 * p ==>
               Drawn(g, atlas, i, live[i / 6])
    modifies g.position, g.uv, g.customColor, g.size, g.rotation, g.customIndex
    ensures ok <==> atlas.GetImageDescriptor(live[p].atlasIndex).Some?
    ensures ok ==> forall i :: 0 <= i < 6 * p + 6 ==>
                     Drawn(g, atlas, i, live[i / 6])
    ensures SameOutside(g.position[..], old(g.position[..]), 18 * p, 18 * p + 18)
    ensures SameOutside(g.uv[..], old(g.uv[..]), 12 * p, 12 * p + 12)
    ensures SameOutside(g.customColor[..], old(g.customColor[..]), 24 * p, 24 * p + 24)
    ensures SameOutside(g.size[..], old(g.size[..]), 12 * p, 12 * p + 12)
    ensures SameOutside(g.rotation[..], old(g.rotation[..]), 6 * p, 6 * p + 6)
    ensures SameOutside(g.customIndex[..], old(g.customIndex[..]), 6 * p, 6 * p + 6)
  {
    ok := WriteParticleVertices(g, atlas, p, live[p]);
    if ok {
      forall i | 6 * p <= i < 6 * p + 6
        ensures Drawn(g, atlas, i, live[i / 6])
      {
        assert i / 6 == p;
      }
    }
  }

  /** `updateAttributesWithParticleData`'s loop over the first `n` particles
      of `live`: slot `p` gets particle `p`. It succeeds exactly when every
      particle has an atlas image, and then vertex `i` holds particle `i / 6`
      with its image; vertices past the last slot keep their values. */
  method WriteLiveParticles(g: Geometry, atlas: Atlas, live: array<Particle>, n: nat) returns (ok: bool)
    requires g.Valid() && atlas.Valid()
    requires n <= live.Length && VerticesPerParticle * n <= g.vertexCount
    modifies g.position, g.uv, g.customColor, g.size, g.rotation, g.customIndex
    ensures ok <==> Drawable(atlas, live[..n])
    ensures ok ==> forall i :: 0 <= i < 6 * n ==>
                     Drawn(g, atlas, i, live[i / 6])
    ensures SameOutside(g.position[..], old(g.position[..]), 0, 18 * n)
    ensures SameOutside(g.uv[..], old(g.uv[..]), 0, 12 * n)
    ensures SameOutside(g.customColor[..], old(g.customColor[..]), 0, 24 * n)
    ensures SameOutside(g.size[..], old(g.size[..]), 0, 12 * n)
    ensures SameOutside(g.rotation[..], old(g.rotation[..]), 0, 6 * n)
    ensures SameOutside(g.customIndex[..], old(g.customIndex[..]), 0, 6 * n)
    ensures KeptFrom(g.Contents(), old(g.Contents()), VerticesPerParticle * n)
  {
    var p := 0;
    while p < n
      invariant 0 <= p <= n
      invariant Drawable(atlas, live[..p])
      invariant forall i :: 0 <= i < 6 * p ==>
                  Drawn(g, atlas, i, live[i / 6])
      invariant SameOutside(g.position[..], old(g.position[..]), 0, 18 * n)
      invariant SameOutside(g.uv[..], old(g.uv[..]), 0, 12 * n)
      invariant SameOutside(g.customColor[..], old(g.customColor[..]), 0, 24 * n)
      invariant SameOutside(g.size[..], old(g.size[..]), 0, 12 * n)
      invariant SameOutside(g.rotation[..], old(g.rotation[..]), 0, 6 * n)
      invariant SameOutside(g.customIndex[..], old(g.customIndex[..]), 0, 6 * n)
    {
      ok := WriteSlot(g, atlas, live, n, p);
      if !ok {
        return;
      }
      p := p + 1;
    }
    assert live[..p] == live[..n];
    ok := true;
  }
}
