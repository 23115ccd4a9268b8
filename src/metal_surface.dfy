// The Metal rendering surfaces: a scene of triangle nodes rebuilt from the
// figure's artists, with GPU buffers cached by the address of the vector
// they were made from. CounterPlot's surface takes its colour map from each
// artist; PatchView's surface keeps one of eight built-in colour maps.
module MetalSurfaces {
  import opened Wrappers
  import opened Geometry
  import opened Colours
  import opened ColourMaps

  /** The three element types of the cached vectors: `simd::float1`, `float2`, `float4`. */
  datatype Kind = Float1 | Float2 | Float4

  /** A `std::vector` as the caches see it: its address and its number of elements. */
  datatype Data = Data(address: nat, length: nat)

  /** A `metal::Buffer`: the empty default, or the `id`-th buffer made on the device. */
  datatype Buffer = NoBuffer | Buffer(id: nat, length: nat)

  /** `ScalarMapping`: colour stops and the scalar range they span. */
  datatype ScalarMapping = ScalarMapping(stops: seq<Colour>, vmin: real, vmax: real)

  /** `DeviceBufferFloatN`: a buffer already on the device and its element count. */
  datatype DeviceBuffer = DeviceBuffer(size: nat, metal: Buffer)

  /** `metal::Node`: what a draw call puts in the scene; unset parts stay empty. */
  datatype Node = Node(
    positions: Buffer,
    colours: Buffer,
    scalars: Buffer,
    mapping: seq<Word>,
    scalarDomain: Option<(real, real)>,
    vertexCount: nat)

  /** The cache size at which `cleanBufferCaches` empties a cache (`maxBuffersInCache`). */
  const MaxBuffersInCache := 3

  /** The RGBA texture of a list of colour stops, as `fromColours` makes it. */
  function TextureOf(stops: seq<Colour>): (t: seq<Word>)
  {
    seq(|stops|, n requires 0 <= n < |stops| => ToRGBA(stops[n]))
  }

  /** `fromColours` computes exactly `TextureOf`. */
  method Texture(stops: seq<Colour>) returns (t: seq<Word>)
    ensures t == TextureOf(stops)
  {
    t := FromColours(stops);
  }

  /** A texture reads back to the colours it was made from, one word per stop. */
  lemma TextureOfRoundTrip(stops: seq<Colour>)
    ensures |TextureOf(stops)| == |stops|
    ensures forall n :: 0 <= n < |stops| ==> FromRGBAWord(TextureOf(stops)[n]) == stops[n]
  {
    forall n | 0 <= n < |stops|
      ensures FromRGBAWord(TextureOf(stops)[n]) == stops[n]
    {
      RGBAWordRoundTrip(stops[n]);
    }
  }

  /** `DeviceBufferFloatN (data)`: a new device buffer whose size is the vector's length. */
  function MakeDeviceBuffer(data: Data, id: nat): (d: DeviceBuffer)
    ensures d.size == data.length && d.metal.Buffer? && d.metal.length == d.size
  {
    DeviceBuffer(data.length, Buffer(id, data.length))
  }

  /** One cache after `cleanBufferCaches`: emptied once it holds `limit` buffers. */
  function Cleaned(c: map<nat, Buffer>, limit: nat): (r: map<nat, Buffer>)
    ensures r == c || r == map[]
    ensures |c| < limit ==> r == c
  {
    if |c| >= limit then map[] else c
  }

  /**
   * A cache within its limit is, after cleaning and one insertion of a new
   * key, still within its limit; a cleaned cache always has room for one more.
   */
  lemma CleanedThenInsert(c: map<nat, Buffer>, limit: nat, key: nat, b: Buffer)
    requires 0 < limit && |c| <= limit
    ensures |Cleaned(c, limit)| < limit
    ensures |Cleaned(c, limit)[key := b]| <= limit
  {
    var r := Cleaned(c, limit);
    if |c| >= limit {
      assert r == map[];
      assert r[key := b] == map[key := b];
    } else {
      assert r == c;
      InsertSize(c, key, b);
    }
  }

  /** Setting one key adds at most one entry. */
  lemma InsertSize(c: map<nat, Buffer>, key: nat, b: Buffer)
    ensures |c[key := b]| <= |c| + 1
  {
    if key in c {
      assert c[key := b].Keys == c.Keys;
    } else {
      assert c[key := b].Keys == c.Keys + {key};
    }
  }

  /**
   * The three buffer caches, keyed by vector address, and the count of
   * buffers made so far. Both surfaces own one.
   */
  class BufferCaches {
    var cache1: map<nat, Buffer>
    var cache2: map<nat, Buffer>
    var cache4: map<nat, Buffer>
    var created: nat
    const limit: nat

    function Cache(kind: Kind): map<nat, Buffer>
      reads this
    {
      match kind
      case Float1 => cache1
      case Float2 => cache2
      case Float4 => cache4
    }

    /** No cache ever holds more than `limit` buffers, and each holds only buffers made on the device. */
    predicate Valid()
      reads this
    {
      0 < limit && |cache1| <= limit && |cache2| <= limit && |cache4| <= limit
      && (forall a :: a in cache1 ==> cache1[a].Buffer?)
      && (forall a :: a in cache2 ==> cache2[a].Buffer?)
      && (forall a :: a in cache4 ==> cache4[a].Buffer?)
    }

    constructor(limit: nat)
      requires 0 < limit
      ensures Valid() && this.limit == limit
      ensures cache1 == map[] && cache2 == map[] && cache4 == map[] && created == 0
    {
      this.limit := limit;
      cache1, cache2, cache4 := map[], map[], map[];
      created := 0;
    }

    /**
     * What one lookup of `key` does: a hit returns the stored buffer and
     * changes nothing; a miss makes a new buffer, cleans every cache, and
     * stores the new buffer under `key` in the cache of its kind.
     */
    twostate predicate LookedUp(kind: Kind, key: nat, length: nat, b: Buffer)
      reads this
    {
      if key in old(Cache(kind)) then
        b == old(Cache(kind))[key] && created == old(created)
        && cache1 == old(cache1) && cache2 == old(cache2) && cache4 == old(cache4)
      else
        b == Buffer(old(created), length) && created == old(created) + 1
        && (kind == Float1 ==> cache1 == Cleaned(old(cache1), limit)[key := b])
        && (kind == Float2 ==> cache2 == Cleaned(old(cache2), limit)[key := b])
        && (kind == Float4 ==> cache4 == Cleaned(old(cache4), limit)[key := b])
        && (kind != Float1 ==> cache1 == Cleaned(old(cache1), limit))
        && (kind != Float2 ==> cache2 == Cleaned(old(cache2), limit))
        && (kind != Float4 ==> cache4 == Cleaned(old(cache4), limit))
    }

    /** `cleanBufferCaches`: empty every cache that has reached the limit. */
    method Clean()
      modifies this
      ensures cache1 == Cleaned(old(cache1), limit)
      ensures cache2 == Cleaned(old(cache2), limit)
      ensures cache4 == Cleaned(old(cache4), limit)
      ensures created == old(created)
    {
      if |cache1| >= limit {
        cache1 := map[];
      }
      if |cache2| >= limit {
        cache2 := map[];
      }
      if |cache4| >= limit {
        cache4 := map[];
      }
    }

    /**
     * The lookup shared by both surfaces' `getOrCreateBuffer`: return the
     * cached buffer for this vector, or make one, clean, and cache it.
     * Afterwards the buffer is cached under the key, so the next lookup of
     * the same vector hits and returns it.
     */
    method GetOrCreate(kind: Kind, data: Data) returns (b: Buffer)
      requires Valid()
      modifies this
      ensures Valid()
      ensures LookedUp(kind, data.address, data.length, b)
      ensures data.address in Cache(kind) && Cache(kind)[data.address] == b
      ensures b.Buffer?
    {
      var cache := Cache(kind);
      if data.address in cache {
        return cache[data.address];
      }
      b := Buffer(created, data.length);
      created := created + 1;
      CleanedThenInsert(cache1, limit, data.address, b);
      CleanedThenInsert(cache2, limit, data.address, b);
      CleanedThenInsert(cache4, limit, data.address, b);
      Clean();
      match kind {
        case Float1 => cache1 := cache1[data.address := b];
        case Float2 => cache2 := cache2[data.address := b];
        case Float4 => cache4 := cache4[data.address := b];
      }
    }
  }

  /**
   * An artist as the surface sees it: one that draws nothing on the surface,
   * a `TriangleMeshArtist` over device buffers, or a quad-mesh artist that
   * hands the surface its own vectors and colour map.
   */
  datatype SurfaceArtist =
    | SoftwareOnly
    | DeviceMesh(vertices: DeviceBuffer, scalars: DeviceBuffer, mapping: ScalarMapping)
    | VectorMesh(vertexData: Data, scalarData: Data, mapping: ScalarMapping)

  /** The part of a node that does not depend on the caches. */
  datatype Shape = Shape(vertexCount: nat, mapping: seq<Word>, scalarDomain: Option<(real, real)>)

  function ShapeOfNode(n: Node): Shape
  {
    Shape(n.vertexCount, n.mapping, n.scalarDomain)
  }

  /** Whether an artist puts a node in the scene. */
  predicate IsMesh(a: SurfaceArtist)
  {
    !a.SoftwareOnly?
  }

  /** The shape of the node a mesh artist adds: its vertex count, colour map and range. */
  function ShapeOfArtist(a: SurfaceArtist): Shape
    requires IsMesh(a)
  {
    match a
    case DeviceMesh(v, _, m) => Shape(v.size, TextureOf(m.stops), Some((m.vmin, m.vmax)))
    case VectorMesh(v, _, m) => Shape(v.length, TextureOf(m.stops), Some((m.vmin, m.vmax)))
  }

  /** The node shapes CounterPlot's `setContent` puts in the scene. */
  function ShapesOf(artists: seq<SurfaceArtist>): (r: seq<Shape>)
    ensures |r| <= |artists|
  {
    if artists == [] then []
    else
      var a := artists[|artists| - 1];
      ShapesOf(artists[..|artists| - 1]) + (if IsMesh(a) then [ShapeOfArtist(a)] else [])
  }

  /** The artists that add a node, in order. */
  function Meshes(artists: seq<SurfaceArtist>): (r: seq<SurfaceArtist>)
    ensures forall i :: 0 <= i < |r| ==> IsMesh(r[i])
  {
    if artists == [] then []
    else
      var a := artists[|artists| - 1];
      Meshes(artists[..|artists| - 1]) + (if IsMesh(a) then [a] else [])
  }

  /**
   * The scene holds one node per mesh artist, in the artists' order, each
   * shaped by its own artist alone.
   */
  lemma {:induction false} ShapesFollowMeshes(artists: seq<SurfaceArtist>)
    ensures |ShapesOf(artists)| == |Meshes(artists)|
    ensures forall i :: 0 <= i < |Meshes(artists)| ==>
      ShapesOf(artists)[i] == ShapeOfArtist(Meshes(artists)[i])
  {
    if artists != [] {
      ShapesFollowMeshes(artists[..|artists| - 1]);
    }
  }

  /** A scene of software-only artists is empty. */
  lemma {:induction false} SoftwareOnlyDrawsNothing(artists: seq<SurfaceArtist>)
    requires forall i :: 0 <= i < |artists| ==> artists[i].SoftwareOnly?
    ensures ShapesOf(artists) == []
  {
    if artists != [] {
      SoftwareOnlyDrawsNothing(artists[..|artists| - 1]);
    }
  }

  /** Every mesh artist's vertex and scalar vectors have the same length (the surface asserts it). */
  predicate MeshSizesAgree(artists: seq<SurfaceArtist>)
  {
    forall i :: 0 <= i < |artists| ==>
      match artists[i]
      case SoftwareOnly => true
      case DeviceMesh(v, s, _) => v.size == s.size
      case VectorMesh(v, s, _) => v.length == s.length
  }

  function ShapesOfScene(scene: seq<Node>): seq<Shape>
  {
    seq(|scene|, i requires 0 <= i < |scene| => ShapeOfNode(scene[i]))
  }

  /** CounterPlot's `MetalRenderingSurface`. */
  class MetalRenderingSurface {
    const caches: BufferCaches
    var scene: seq<Node>
    var sceneDomain: Domain

    predicate Valid()
      reads this, caches
    {
      caches.Valid() && caches.limit == MaxBuffersInCache
    }

    constructor()
      ensures Valid() && fresh(caches) && scene == []
      ensures caches.cache1 == map[] && caches.cache2 == map[] && caches.cache4 == map[]
    {
      caches := new BufferCaches(MaxBuffersInCache);
      scene := [];
      sceneDomain := Domain(0.0, 0.0, 1.0, 1.0);
    }

    /**
     * `getOrCreateBuffer`: an empty vector gets the empty buffer and leaves
     * the caches alone; any other vector is looked up as `LookedUp` says.
     */
    method GetOrCreateBuffer(kind: Kind, data: Data) returns (b: Buffer)
      requires Valid()
      modifies caches
      ensures Valid()
      ensures data.length == 0 ==> b == NoBuffer && unchanged(caches)
      ensures data.length > 0 ==> caches.LookedUp(kind, data.address, data.length, b)
      ensures data.length > 0 ==> b.Buffer?
    {
      if data.length == 0 {
        return NoBuffer;
      }
      b := caches.GetOrCreate(kind, data);
    }

    /** `renderTriangles (vertices, colors)`: add a node of coloured vertices. */
    method RenderColoured(vertices: Data, colours: Data)
      requires Valid() && vertices.length == colours.length
      modifies this, caches
      ensures Valid()
      ensures |scene| == |old(scene)| + 1 && scene[..|old(scene)|] == old(scene)
      ensures var n := scene[|scene| - 1];
        n.vertexCount == vertices.length && n.scalars == NoBuffer
        && n.mapping == [] && n.scalarDomain == None
        && (vertices.length > 0 <==> n.positions.Buffer? && n.colours.Buffer?)
      ensures sceneDomain == old(sceneDomain)
    {
      var p := GetOrCreateBuffer(Float2, vertices);
      var c := GetOrCreateBuffer(Float4, colours);
      scene := scene + [Node(p, c, NoBuffer, [], None, vertices.length)];
    }

    /** `renderTriangles (vertices, scalars, mapping)`: add a node of colour-mapped scalars. */
    method RenderMapped(vertices: Data, scalars: Data, mapping: ScalarMapping)
      requires Valid() && vertices.length == scalars.length
      modifies this, caches
      ensures Valid()
      ensures |scene| == |old(scene)| + 1 && scene[..|old(scene)|] == old(scene)
      ensures var n := scene[|scene| - 1];
        ShapeOfNode(n) == Shape(vertices.length, TextureOf(mapping.stops), Some((mapping.vmin, mapping.vmax)))
        && n.colours == NoBuffer
        && (vertices.length > 0 <==> n.positions.Buffer? && n.scalars.Buffer?)
      ensures sceneDomain == old(sceneDomain)
    {
      var texture := Texture(mapping.stops);
      var p := GetOrCreateBuffer(Float2, vertices);
      var s := GetOrCreateBuffer(Float1, scalars);
      scene := scene + [Node(p, NoBuffer, s, texture, Some((mapping.vmin, mapping.vmax)), vertices.length)];
    }

    /** `renderTriangles` over device buffers: the node uses them as they are. */
    method RenderDeviceColoured(vertices: DeviceBuffer, colours: DeviceBuffer)
      requires vertices.size == colours.size
      modifies this
      ensures scene == old(scene) + [Node(vertices.metal, colours.metal, NoBuffer, [], None, vertices.size)]
      ensures sceneDomain == old(sceneDomain)
    {
      scene := scene + [Node(vertices.metal, colours.metal, NoBuffer, [], None, vertices.size)];
    }

    /** `renderTriangles` over device buffers with a colour map. */
    method RenderDeviceMapped(vertices: DeviceBuffer, scalars: DeviceBuffer, mapping: ScalarMapping)
      requires vertices.size == scalars.size
      modifies this
      ensures scene == old(scene) + [Node(vertices.metal, NoBuffer, scalars.metal,
        TextureOf(mapping.stops), Some((mapping.vmin, mapping.vmax)), vertices.size)]
      ensures sceneDomain == old(sceneDomain)
    {
      var texture := Texture(mapping.stops);
      scene := scene + [Node(vertices.metal, NoBuffer, scalars.metal, texture,
        Some((mapping.vmin, mapping.vmax)), vertices.size)];
    }

    /**
     * `setContent`: clear the scene, take the transformer's domain, and let
     * every artist draw in order; the scene's shapes are `ShapesOf (artists)`.
     */
    method SetContent(artists: seq<SurfaceArtist>, domain: Domain)
      requires Valid() && MeshSizesAgree(artists)
      modifies this, caches
      ensures Valid()
      ensures sceneDomain == domain
      ensures ShapesOfScene(scene) == ShapesOf(artists)
    {
      scene := [];
      sceneDomain := domain;
      var n := 0;
      while n < |artists|
        invariant 0 <= n <= |artists|
        invariant Valid() && sceneDomain == domain
        invariant ShapesOfScene(scene) == ShapesOf(artists[..n])
      {
        ghost var before := scene;
        match artists[n] {
          case SoftwareOnly =>
          case DeviceMesh(v, s, m) => RenderDeviceMapped(v, s, m);
          case VectorMesh(v, s, m) => RenderMapped(v, s, m);
        }
        assert artists[..n + 1][..n] == artists[..n];
        assert ShapesOfScene(scene) == ShapesOfScene(before) + ShapesOfScene(scene)[|before|..];
        n := n + 1;
      }
      assert artists[..n] == artists;
    }
  }

  /** The embedded colour tables of PatchView, in the order of its colour-map cursor. */
  const ColorMapCount := 8

  /** PatchView's `MetalRenderingSurface`: one of eight colour maps, chosen by a cursor. */
  class PatchMetalSurface {
    const caches: BufferCaches
    /** The texts of the eight embedded `.cmap` tables (cividis … viridis). */
    const tables: seq<string>
    var colorMapIndex: int
    var colormap: seq<Word>
    var scene: seq<Node>
    var sceneDomain: Domain

    predicate Valid()
      reads this, caches
    {
      caches.Valid() && |tables| == ColorMapCount
    }

    /** The texture `setColorMap (index)` loads, or an error when the table does not parse. */
    static function TextureAt(tables: seq<string>, index: int): (r: Result<seq<Word>>)
      requires |tables| == ColorMapCount
      ensures !(0 <= index < ColorMapCount) ==> r == Ok([])
      ensures 0 <= index < ColorMapCount ==> (r.Ok? <==> ParseRGBTable(tables[index]).Ok?)
    {
      if 0 <= index < ColorMapCount then
        match ParseRGBTable(tables[index])
        case Ok(colours) => Ok(TextureOf(colours))
        case Err(e) => Err(e)
      else Ok([])
    }

    /**
     * The constructor selects colour map 0. The cache limit is a parameter
     * (its declaration is not part of this model).
     */
    constructor(tables: seq<string>, limit: nat)
      requires |tables| == ColorMapCount && 0 < limit
      ensures Valid() && fresh(caches) && this.tables == tables && scene == []
      ensures colorMapIndex == 0
      ensures TextureAt(tables, 0).Ok? ==> colormap == TextureAt(tables, 0).value
      ensures TextureAt(tables, 0).Err? ==> colormap == []
    {
      caches := new BufferCaches(limit);
      this.tables := tables;
      scene := [];
      sceneDomain := Domain(0.0, 0.0, 1.0, 1.0);
      colormap := [];
      colorMapIndex := 0;
      new;
      var _ := SetColorMap(0);
    }

    /**
     * `setColorMap`: record the index, then load the texture of that table
     * (an empty texture for an index outside 0-7). A table that does not
     * parse throws after the index is recorded, leaving the texture as it was.
     */
    method SetColorMap(index: int) returns (error: Option<string>)
      requires |tables| == ColorMapCount
      modifies this
      ensures colorMapIndex == index
      ensures TextureAt(tables, index).Ok? ==> error == None && colormap == TextureAt(tables, index).value
      ensures TextureAt(tables, index).Err? ==> error == Some(TextureAt(tables, index).error) && colormap == old(colormap)
      ensures scene == old(scene) && sceneDomain == old(sceneDomain)
    {
      colorMapIndex := index;
      if 0 <= index < ColorMapCount {
        var r := TextureFromRGBTable(tables[index]);
        if r.Err? {
          return Some(r.error);
        }
        assert r.value == TextureOf(ParseRGBTable(tables[index]).value);
        colormap := r.value;
      } else {
        colormap := [];
      }
      error := None;
    }

    /** `nextColorMap`: one forward, wrapping with C++ `%`. */
    method NextColorMap() returns (error: Option<string>)
      requires |tables| == ColorMapCount
      modifies this
      ensures colorMapIndex == NextIndex(old(colorMapIndex), ColorMapCount)
      ensures TextureAt(tables, colorMapIndex).Ok? ==> colormap == TextureAt(tables, colorMapIndex).value
    {
      error := SetColorMap(NextIndex(colorMapIndex, ColorMapCount));
    }

    /** `prevColorMap`: one back, wrapping with C++ `%`. */
    method PrevColorMap() returns (error: Option<string>)
      requires |tables| == ColorMapCount
      modifies this
      ensures colorMapIndex == PrevIndex(old(colorMapIndex), ColorMapCount)
      ensures TextureAt(tables, colorMapIndex).Ok? ==> colormap == TextureAt(tables, colorMapIndex).value
    {
      error := SetColorMap(PrevIndex(colorMapIndex, ColorMapCount));
    }

    /** `getOrCreateBuffer`: this copy has no special case for an empty vector. */
    method GetOrCreateBuffer(kind: Kind, data: Data) returns (b: Buffer)
      requires Valid()
      modifies caches
      ensures Valid()
      ensures caches.LookedUp(kind, data.address, data.length, b)
      ensures b.Buffer?
    {
      b := caches.GetOrCreate(kind, data);
    }

    /** `renderTriangles (vertices, colors)`. */
    method RenderColoured(vertices: Data, colours: Data)
      requires Valid() && vertices.length == colours.length
      modifies this, caches
      ensures Valid()
      ensures |scene| == |old(scene)| + 1 && scene[..|old(scene)|] == old(scene)
      ensures var n := scene[|scene| - 1];
        n.vertexCount == vertices.length && n.positions.Buffer? && n.colours.Buffer?
        && n.scalars == NoBuffer && n.mapping == [] && n.scalarDomain == None
      ensures colormap == old(colormap) && colorMapIndex == old(colorMapIndex)
    {
      var p := GetOrCreateBuffer(Float2, vertices);
      var c := GetOrCreateBuffer(Float4, colours);
      scene := scene + [Node(p, c, NoBuffer, [], None, vertices.length)];
    }

    /** `renderTriangles (vertices, scalars, vmin, vmax)`: scalars go through the current colour map. */
    method RenderMapped(vertices: Data, scalars: Data, vmin: real, vmax: real)
      requires Valid() && vertices.length == scalars.length
      modifies this, caches
      ensures Valid()
      ensures |scene| == |old(scene)| + 1 && scene[..|old(scene)|] == old(scene)
      ensures var n := scene[|scene| - 1];
        ShapeOfNode(n) == Shape(vertices.length, colormap, Some((vmin, vmax)))
        && n.positions.Buffer? && n.scalars.Buffer? && n.colours == NoBuffer
      ensures colormap == old(colormap) && colorMapIndex == old(colorMapIndex)
    {
      var p := GetOrCreateBuffer(Float2, vertices);
      var s := GetOrCreateBuffer(Float1, scalars);
      scene := scene + [Node(p, NoBuffer, s, colormap, Some((vmin, vmax)), vertices.length)];
    }
  }
}
