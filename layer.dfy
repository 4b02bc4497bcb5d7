/** `Layer2D`: the textures of one draw layer and the three GPU buffers it
    keeps for its entities (vertices, indices and one raw record per entity),
    which `set_vertex_buffers` either overwrites in place or recreates when
    the number of entities has grown. */
module Layer {
  import opened Common
  import Gpu

  /** One corner of an entity's quad. */
  datatype Vertex = Vertex(position: Vector3, texCoords: (real, real))

  /** `Entity2DRaw`: the per-instance record of an entity. */
  datatype EntityRaw = EntityRaw(position: Vector3, textureOffset: Cell)

  /** What the layer reads from an entity: its vertices, its indices and its
      raw record. */
  datatype LayerEntity = LayerEntity(vertices: seq<Vertex>, indices: seq<nat>, raw: EntityRaw)

  datatype LayerTexture = LayerTexture(id: TextureId, path: string)

  /** The usage every buffer of the layer is created with. */
  const VERTEX_ONLY: set<Gpu.BufferUsage> := {Gpu.Vertex}

  /** `flat_map(|e| e.vertices())`. */
  function Vertices(es: seq<LayerEntity>): seq<Vertex>
  {
    if es == [] then [] else es[0].vertices + Vertices(es[1..])
  }

  /** `flat_map(|e| e.indicies())`. */
  function Indices(es: seq<LayerEntity>): seq<nat>
  {
    if es == [] then [] else es[0].indices + Indices(es[1..])
  }

  /** `map(|e| e.to_raw())`. */
  function Raws(es: seq<LayerEntity>): (r: seq<EntityRaw>)
    ensures |r| == |es| && forall i :: 0 <= i < |es| ==> r[i] == es[i].raw
  {
    seq(|es|, i requires 0 <= i < |es| => es[i].raw)
  }

  /** `fold(acc, |acc, e| acc + e.indicies().len())`. */
  function IndexCount(es: seq<LayerEntity>, acc: nat): nat
  {
    if es == [] then acc else IndexCount(es[1..], acc + |es[0].indices|)
  }

  /** The fold counts exactly the indices the index buffer is built from. */
  lemma {:induction false} IndexCountIsLength(es: seq<LayerEntity>, acc: nat)
    ensures IndexCount(es, acc) == acc + |Indices(es)|
  {
    if es != [] {
      IndexCountIsLength(es[1..], acc + |es[0].indices|);
    }
  }

  /** The buffer fields and counters of a layer. */
  datatype LayerBuffers = LayerBuffers(
    vertex: Option<Gpu.DeviceBuffer<Vertex>>,
    index: Option<Gpu.DeviceBuffer<nat>>,
    entity: Option<Gpu.DeviceBuffer<EntityRaw>>,
    entityCount: nat,
    indices: nat)

  function NoBuffers(): LayerBuffers
  {
    LayerBuffers(None, None, None, 0, 0)
  }

  /** `set_entity_buffer`: a missing buffer, or one the caller asks to
      recreate, is created from the raw records; otherwise the records are
      written over it. */
  function EntityBuffered(b: LayerBuffers, es: seq<LayerEntity>, recreate: bool): LayerBuffers
  {
    match b.entity
    case Some(buffer) =>
      if recreate then b.(entity := Some(Gpu.CreateInit(Raws(es), VERTEX_ONLY)))
      else b.(entity := Some(Gpu.WriteAt0(buffer, Raws(es))))
    case None => b.(entity := Some(Gpu.CreateInit(Raws(es), VERTEX_ONLY)))
  }

  /** `set_vertex_buffers` as written. When the entity count has grown, the
      index branch recreates the vertex buffer a second time and leaves the
      index buffer as it was. */
  function Reconciled(b: LayerBuffers, es: seq<LayerEntity>): LayerBuffers
  {
    var grow := |es| > b.entityCount;
    var vertex :=
      if b.vertex.Some? && !grow then Gpu.WriteAt0(b.vertex.value, Vertices(es))
      else Gpu.CreateInit(Vertices(es), VERTEX_ONLY);
    var b1 :=
      match b.index
      case Some(ib) =>
        if grow then b.(vertex := Some(Gpu.CreateInit(Vertices(es), VERTEX_ONLY)))
        else b.(vertex := Some(vertex), index := Some(Gpu.WriteAt0(ib, Indices(es))))
      case None => b.(vertex := Some(vertex), index := Some(Gpu.CreateInit(Indices(es), VERTEX_ONLY)));
    EntityBuffered(b1, es, grow).(entityCount := |es|, indices := IndexCount(es, 0))
  }

  const VERTEX_USAGE: set<Gpu.BufferUsage> := {Gpu.Vertex, Gpu.CopyDst}
  const INDEX_USAGE: set<Gpu.BufferUsage> := {Gpu.Index, Gpu.CopyDst}

  /** `set_vertex_buffers` corrected: the index branch recreates the index
      buffer, and every buffer is created with `COPY_DST` (and the index
      buffer with `INDEX`) so that the in-place writes are allowed. */
  function ReconciledFixed(b: LayerBuffers, es: seq<LayerEntity>): LayerBuffers
  {
    var grow := |es| > b.entityCount;
    var vertex :=
      if b.vertex.Some? && !grow then Gpu.WriteAt0(b.vertex.value, Vertices(es))
      else Gpu.CreateInit(Vertices(es), VERTEX_USAGE);
    var index :=
      if b.index.Some? && !grow then Gpu.WriteAt0(b.index.value, Indices(es))
      else Gpu.CreateInit(Indices(es), INDEX_USAGE);
    var entity :=
      if b.entity.Some? && !grow then Gpu.WriteAt0(b.entity.value, Raws(es))
      else Gpu.CreateInit(Raws(es), VERTEX_USAGE);
    LayerBuffers(Some(vertex), Some(index), Some(entity), |es|, IndexCount(es, 0))
  }

  class Layer2D {
    const id: LayerId
    var textures: map<TextureId, LayerTexture>
    var vertexBuffer: Option<Gpu.DeviceBuffer<Vertex>>
    var indexBuffer: Option<Gpu.DeviceBuffer<nat>>
    var entityBuffer: Option<Gpu.DeviceBuffer<EntityRaw>>
    var entityCount: nat
    var indices: nat

    /** `Layer2D::new`: the layer holds the one texture and no buffers. */
    constructor (id: LayerId, texture: LayerTexture)
      ensures this.id == id && textures == map[texture.id := texture]
      ensures Buffers() == NoBuffers()
    {
      this.id := id;
      textures := map[texture.id := texture];
      vertexBuffer, indexBuffer, entityBuffer := None, None, None;
      entityCount, indices := 0, 0;
    }

    function Buffers(): LayerBuffers
      reads this
    {
      LayerBuffers(vertexBuffer, indexBuffer, entityBuffer, entityCount, indices)
    }

    /** `add_texture`: the texture is recorded only when the atlas accepted
        it; the atlas's error or panic is passed on. */
    method AddTexture(texture: LayerTexture, atlasResult: Outcome<()>) returns (r: Outcome<()>)
      modifies this
      ensures r == atlasResult
      ensures r.Ok? ==> textures == old(textures)[texture.id := texture]
      ensures !r.Ok? ==> textures == old(textures)
      ensures Buffers() == old(Buffers())
    {
      r := atlasResult;
      if atlasResult.Ok? {
        textures := textures[texture.id := texture];
      }
    }

    /** `create_entity_buffer`. */
    method CreateEntityBuffer(es: seq<LayerEntity>)
      modifies this
      ensures Buffers() == old(Buffers()).(entity := Some(Gpu.CreateInit(Raws(es), VERTEX_ONLY)))
      ensures textures == old(textures)
    {
      entityBuffer := Some(Gpu.CreateInit(Raws(es), VERTEX_ONLY));
    }

    /** `create_index_buffer`. */
    method CreateIndexBuffer(es: seq<LayerEntity>)
      modifies this
      ensures Buffers() == old(Buffers()).(index := Some(Gpu.CreateInit(Indices(es), VERTEX_ONLY)))
      ensures textures == old(textures)
    {
      indexBuffer := Some(Gpu.CreateInit(Indices(es), VERTEX_ONLY));
    }

    /** `create_vertex_buffer`. */
    method CreateVertexBuffer(es: seq<LayerEntity>)
      modifies this
      ensures Buffers() == old(Buffers()).(vertex := Some(Gpu.CreateInit(Vertices(es), VERTEX_ONLY)))
      ensures textures == old(textures)
    {
      vertexBuffer := Some(Gpu.CreateInit(Vertices(es), VERTEX_ONLY));
    }

    /** `set_entity_buffer`; it never fails. */
    method SetEntityBuffer(es: seq<LayerEntity>, recreate: bool) returns (r: Outcome<()>)
      modifies this
      ensures r == Ok(())
      ensures Buffers() == EntityBuffered(old(Buffers()), es, recreate)
      ensures textures == old(textures)
    {
      match entityBuffer {
        case Some(buffer) =>
          if recreate {
            CreateEntityBuffer(es);
          } else {
            entityBuffer := Some(Gpu.WriteAt0(buffer, Raws(es)));
          }
        case None =>
          CreateEntityBuffer(es);
      }
      r := Ok(());
    }

    /** `set_vertex_buffers`; it never fails. */
    method SetVertexBuffers(es: seq<LayerEntity>) returns (r: Outcome<()>)
      modifies this
      ensures r == Ok(())
      ensures Buffers() == Reconciled(old(Buffers()), es)
      ensures textures == old(textures)
    {
      var grow := |es| > entityCount;
      match vertexBuffer {
        case Some(buffer) =>
          if grow {
            CreateVertexBuffer(es);
          } else {
            vertexBuffer := Some(Gpu.WriteAt0(buffer, Vertices(es)));
          }
        case None =>
          CreateVertexBuffer(es);
      }
      match indexBuffer {
        case Some(buffer) =>
          if grow {
            CreateVertexBuffer(es);
          } else {
            indexBuffer := Some(Gpu.WriteAt0(buffer, Indices(es)));
          }
        case None =>
          CreateIndexBuffer(es);
      }
      r := SetEntityBuffer(es, grow);
      entityCount := |es|;
      var total: nat, i := 0, 0;
      while i < |es|
        invariant i <= |es|
        invariant IndexCount(es[i..], total) == IndexCount(es, 0)
      {
        assert es[i..][1..] == es[i + 1..];
        total := total + |es[i].indices|;
        i := i + 1;
      }
      assert es[i..] == [];
      indices := total;
    }
  }

  /** After `set_vertex_buffers` all three buffers exist, the entity count is
      the number of entities and the index count is the number of indices
      they bring. */
  lemma ReconciledCounts(b: LayerBuffers, es: seq<LayerEntity>)
    ensures var r := Reconciled(b, es);
            r.vertex.Some? && r.index.Some? && r.entity.Some? &&
            r.entityCount == |es| && r.indices == |Indices(es)|
  {
    IndexCountIsLength(es, 0);
  }

  /** As written, once the index buffer exists it is never recreated: it
      keeps its length whatever the entities, and a growing entity count
      leaves it untouched. */
  lemma IndexBufferNeverRegrows(b: LayerBuffers, es: seq<LayerEntity>)
    requires b.index.Some?
    ensures Reconciled(b, es).index.Some?
    ensures |Reconciled(b, es).index.value.contents| == |b.index.value.contents|
    ensures |es| > b.entityCount ==> Reconciled(b, es).index == b.index
  {
  }

  predicate VertexOnly(b: LayerBuffers)
  {
    (b.vertex.Some? ==> b.vertex.value.usage == VERTEX_ONLY) &&
    (b.index.Some? ==> b.index.value.usage == VERTEX_ONLY) &&
    (b.entity.Some? ==> b.entity.value.usage == VERTEX_ONLY)
  }

  /** As written, every buffer of the layer has `VERTEX` usage only, so any
      call that does not grow the entity count has all three of its in-place
      writes refused. */
  lemma RewriteRefused(b: LayerBuffers, es: seq<LayerEntity>)
    requires VertexOnly(b)
    ensures VertexOnly(Reconciled(b, es))
    ensures b.vertex.Some? && b.index.Some? && b.entity.Some? && |es| <= b.entityCount ==>
              Reconciled(b, es).vertex.value.faulted &&
              Reconciled(b, es).index.value.faulted &&
              Reconciled(b, es).entity.value.faulted
  {
  }

  /** An entity drawn as one quad: four vertices and six indices. */
  predicate IsQuad(e: LayerEntity)
  {
    |e.vertices| == 4 && |e.indices| == 6
  }

  lemma {:induction false} QuadLengths(es: seq<LayerEntity>)
    requires forall i :: 0 <= i < |es| ==> IsQuad(es[i])
    ensures |Vertices(es)| == 4 * |es| && |Indices(es)| == 6 * |es|
  {
    if es != [] {
      QuadLengths(es[1..]);
    }
  }

  /** One entity, then two: the index buffer keeps the six indices of the
      first call while the index count becomes twelve, so a draw of
      `index_count()` indices reads past the end of the index buffer; the
      vertex buffer, recreated twice, does hold all eight vertices. */
  lemma StaleIndexBuffer(q: LayerEntity)
    requires IsQuad(q)
    ensures var b1 := Reconciled(NoBuffers(), [q]);
            var b2 := Reconciled(b1, [q, q]);
            |b2.index.value.contents| == 6 && b2.indices == 12 &&
            b2.vertex.value.contents == q.vertices + q.vertices
  {
    var b1 := Reconciled(NoBuffers(), [q]);
    QuadLengths([q]);
    QuadLengths([q, q]);
    assert [q, q][1..] == [q];
    assert Vertices([q, q]) == q.vertices + Vertices([q]);
    IndexBufferNeverRegrows(b1, [q, q]);
    ReconciledCounts(b1, [q, q]);
  }

  /** The same entity twice in a row: the second call writes in place, and
      the write to the vertex buffer is refused. */
  lemma SecondCallRefused(q: LayerEntity)
    ensures Reconciled(Reconciled(NoBuffers(), [q]), [q]).vertex.value.faulted
  {
    RewriteRefused(NoBuffers(), [q]);
    RewriteRefused(Reconciled(NoBuffers(), [q]), [q]);
  }

  /** The corrected buffers are large enough for the recorded entity count
      of quads and accept writes; none has reported a validation error. */
  predicate Sized(b: LayerBuffers)
  {
    (b.vertex.None? && b.index.None? && b.entity.None? && b.entityCount == 0) ||
    (b.vertex.Some? && b.index.Some? && b.entity.Some? &&
     b.vertex.value.usage == VERTEX_USAGE && b.index.value.usage == INDEX_USAGE &&
     b.entity.value.usage == VERTEX_USAGE &&
     |b.vertex.value.contents| >= 4 * b.entityCount &&
     |b.index.value.contents| >= 6 * b.entityCount &&
     |b.entity.value.contents| >= b.entityCount &&
     !b.vertex.value.faulted && !b.index.value.faulted && !b.entity.value.faulted)
  }

  /** With the correction, every call on quads keeps the buffers sized, never
      reports a validation error, and leaves each buffer starting with exactly
      the current vertices, indices and records. */
  lemma ReconciledFixedKeepsSized(b: LayerBuffers, es: seq<LayerEntity>)
    requires Sized(b)
    requires forall i :: 0 <= i < |es| ==> IsQuad(es[i])
    ensures var r := ReconciledFixed(b, es);
            Sized(r) && r.entityCount == |es| && r.indices == |Indices(es)| &&
            r.vertex.value.contents[..|Vertices(es)|] == Vertices(es) &&
            r.index.value.contents[..|Indices(es)|] == Indices(es) &&
            r.entity.value.contents[..|es|] == Raws(es)
  {
    QuadLengths(es);
    IndexCountIsLength(es, 0);
  }
}
