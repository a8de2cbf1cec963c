/**
 * Models: loading a scene into a flat list of meshes.  The scene graph is
 * walked depth first; every non-null mesh is converted (vertices, indices,
 * then diffuse and specular textures of its material) and appended to the
 * model.  Textures are cached by resolved path for the model's lifetime:
 * a path already in the cache reuses its texture, a new path is decoded
 * and uploaded once.
 */
module Models {
  import opened Common
  import opened Textures
  import opened Meshes
  import opened Scenes

  datatype ModelError = ImportError(message: string) | TextureFailed(cause: TextureError)

  // ---------------------------------------------------------------------
  // Paths

  /** The directory part of a path: everything before its last '/'. */
  function ParentPath(path: string): string {
    if path == [] then []
    else if path[|path| - 1] == '/' then path[..|path| - 1]
    else ParentPath(path[..|path| - 1])
  }

  /** A relative path resolved against a directory. */
  function Join(dir: string, rel: string): string {
    if dir == [] then rel else dir + "/" + rel
  }

  /** The resolved paths of a material's slots of one kind, in slot order. */
  function ResolvedPaths(dir: string, material: Material, kind: TextureKind): seq<string> {
    var slots := Slots(material, kind);
    seq(|slots|, i requires 0 <= i < |slots| => Join(dir, slots[i]))
  }

  /** The first `n` paths of `paths`, as a set. */
  function PathsUpTo(paths: seq<string>, n: nat): set<string>
    requires n <= |paths|
  {
    set j | 0 <= j < n :: paths[j]
  }

  lemma PathsUpToNext(paths: seq<string>, n: nat)
    requires n < |paths|
    ensures PathsUpTo(paths, n + 1) == PathsUpTo(paths, n) + {paths[n]}
  {
  }

  // ---------------------------------------------------------------------
  // What converting one source mesh yields

  function ToVertex(src: SceneMesh, v: SourceVertex): Vertex {
    Vertex(v.position, v.normal,
           if src.hasTexCoords then Vec2(v.texCoord.x, v.texCoord.y) else Vec2(0.0, 0.0))
  }

  /** The vertex list of a converted mesh. */
  function VerticesOf(src: SceneMesh): (vs: seq<Vertex>)
    ensures Truncated(src) ==> vs == []
    ensures !Truncated(src) ==> |vs| == |src.vertices|
    ensures forall i :: 0 <= i < |vs| ==>
      && vs[i].position == src.vertices[i].position
      && vs[i].normal == src.vertices[i].normal
      && (src.hasTexCoords ==> vs[i].texCoords == Vec2(src.vertices[i].texCoord.x, src.vertices[i].texCoord.y))
      && (!src.hasTexCoords ==> vs[i].texCoords == Vec2(0.0, 0.0))
  {
    if Truncated(src) then []
    else seq(|src.vertices|, i requires 0 <= i < |src.vertices| => ToVertex(src, src.vertices[i]))
  }

  /** The indices of all faces, face after face. */
  function Concat(faces: seq<Face>): seq<nat> {
    if faces == [] then []
    else Concat(faces[..|faces| - 1]) + faces[|faces| - 1].indices
  }

  /** The total number of indices over all faces. */
  function IndexCount(faces: seq<Face>): nat {
    if faces == [] then 0
    else IndexCount(faces[..|faces| - 1]) + |faces[|faces| - 1].indices|
  }

  /** The resolved paths whose textures a converted mesh holds: diffuse slots, then specular slots. */
  function TextureRefs(src: SceneMesh, scene: Scene, dir: string): seq<string> {
    if Truncated(src) || src.materialIndex >= |scene.materials| then []
    else match scene.materials[src.materialIndex]
      case None => []
      case Some(material) =>
        ResolvedPaths(dir, material, Diffuse) + ResolvedPaths(dir, material, Specular)
  }

  /** The resolved texture paths of one mesh, as a set. */
  function MeshPaths(src: SceneMesh, scene: Scene, dir: string): set<string> {
    var refs := TextureRefs(src, scene, dir);
    PathsUpTo(refs, |refs|)
  }

  /** The resolved texture paths of all meshes of `srcs`. */
  function TexPaths(srcs: seq<SceneMesh>, scene: Scene, dir: string): set<string> {
    set j, p | 0 <= j < |srcs| && p in MeshPaths(srcs[j], scene, dir) :: p
  }

  lemma TexPathsAppend(srcs0: seq<SceneMesh>, srcs1: seq<SceneMesh>, scene: Scene, dir: string)
    ensures TexPaths(srcs0 + srcs1, scene, dir) == TexPaths(srcs0, scene, dir) + TexPaths(srcs1, scene, dir)
  {
    var srcs := srcs0 + srcs1;
    forall p | p in TexPaths(srcs, scene, dir)
      ensures p in TexPaths(srcs0, scene, dir) + TexPaths(srcs1, scene, dir)
    {
      var j :| 0 <= j < |srcs| && p in MeshPaths(srcs[j], scene, dir);
      if j < |srcs0| {
        assert srcs[j] == srcs0[j];
      } else {
        assert srcs[j] == srcs1[j - |srcs0|];
      }
    }
    forall p | p in TexPaths(srcs0, scene, dir) + TexPaths(srcs1, scene, dir)
      ensures p in TexPaths(srcs, scene, dir)
    {
      if p in TexPaths(srcs0, scene, dir) {
        var j :| 0 <= j < |srcs0| && p in MeshPaths(srcs0[j], scene, dir);
        assert srcs[j] == srcs0[j];
      } else {
        var j :| 0 <= j < |srcs1| && p in MeshPaths(srcs1[j], scene, dir);
        assert srcs[|srcs0| + j] == srcs1[j];
      }
    }
  }

  /**
   * `m` is what converting `src` yields, its textures being the entries of
   * `cache` for the mesh's resolved texture paths.
   */
  predicate Converts(m: Mesh, src: SceneMesh, scene: Scene, dir: string, cache: map<string, Texture>) {
    var refs := TextureRefs(src, scene, dir);
    && m.vertices == VerticesOf(src)
    && m.indices == (if Truncated(src) then [] else Concat(src.faces))
    && |m.textures| == |refs|
    && forall k :: 0 <= k < |refs| ==> refs[k] in cache && m.textures[k] == cache[refs[k]]
  }

  /** Each mesh of `ms` is the conversion of the source mesh at the same position. */
  predicate ConvertsAll(ms: seq<Mesh>, srcs: seq<SceneMesh>, scene: Scene, dir: string, cache: map<string, Texture>) {
    && |ms| == |srcs|
    && forall j {:trigger Converts(ms[j], srcs[j], scene, dir, cache)} :: 0 <= j < |ms| ==> Converts(ms[j], srcs[j], scene, dir, cache)
  }

  // ---------------------------------------------------------------------
  // The texture cache

  /** `cache1` keeps every entry of `cache0` unchanged. */
  predicate Extends(cache0: map<string, Texture>, cache1: map<string, Texture>) {
    forall p :: p in cache0 ==> p in cache1 && cache1[p] == cache0[p]
  }

  /**
   * From (cache0, uploads0) to (cache1, uploads1) the cache only grew and
   * exactly one GL texture object was created per new cache key (the keys
   * of cache0 being keys of cache1, the difference of the sizes counts the
   * new keys).
   */
  predicate Grew(cache0: map<string, Texture>, cache1: map<string, Texture>, uploads0: seq<Upload>, uploads1: seq<Upload>) {
    && Extends(cache0, cache1)
    && |uploads0| <= |uploads1| && uploads1[..|uploads0|] == uploads0
    && |uploads1| - |uploads0| == |cache1| - |cache0|
  }

  /** Every cached texture is a generated GL object. */
  predicate HandlesValid(cache: map<string, Texture>, uploads: seq<Upload>) {
    forall p :: p in cache ==> 1 <= cache[p].id <= |uploads|
  }

  /** A path the loader can supply a texture for: it is cached already, or its file decodes. */
  predicate Available(images: string -> Option<Image>, cache: map<string, Texture>, path: string) {
    path in cache || images(path).Some?
  }

  /** Each of the first `n` paths is available. */
  predicate AvailableUpTo(images: string -> Option<Image>, cache: map<string, Texture>, paths: seq<string>, n: nat)
    requires n <= |paths|
  {
    forall i :: 0 <= i < n ==> Available(images, cache, paths[i])
  }

  /** `e` is the decode failure of one of the first `n` paths, a path neither cached nor decodable. */
  predicate CulpritUpTo(images: string -> Option<Image>, cache: map<string, Texture>, paths: seq<string>, n: nat, e: ModelError)
    requires n <= |paths|
  {
    exists i :: 0 <= i < n && !Available(images, cache, paths[i]) && e == TextureFailed(DecodeError(paths[i]))
  }

  /** Every key that `cache1` has and `cache0` lacks names a file that decodes. */
  predicate NewKeysDecode(images: string -> Option<Image>, cache0: map<string, Texture>, cache1: map<string, Texture>) {
    forall p :: p in cache1 && p !in cache0 ==> images(p).Some?
  }

  lemma CachedAreAvailable(images: string -> Option<Image>, cache: map<string, Texture>, paths: seq<string>, n: nat)
    requires n <= |paths| && PathsUpTo(paths, n) <= cache.Keys
    ensures AvailableUpTo(images, cache, paths, n)
  {
    forall i | 0 <= i < n
      ensures Available(images, cache, paths[i])
    {
      assert paths[i] in PathsUpTo(paths, n);
    }
  }

  // ---------------------------------------------------------------------
  // The loops of mesh conversion

  /** The vertex loop: stops at once, with nothing, when the mesh has no normals. */
  method ConvertVertices(src: SceneMesh) returns (vertices: seq<Vertex>, complete: bool)
    ensures complete <==> !Truncated(src)
    ensures vertices == VerticesOf(src)
  {
    vertices := [];
    var i := 0;
    while i < |src.vertices|
      invariant 0 <= i <= |src.vertices|
      invariant i > 0 ==> src.hasNormals
      invariant |vertices| == i
      invariant forall j :: 0 <= j < i ==> vertices[j] == ToVertex(src, src.vertices[j])
    {
      var v := src.vertices[i];
      if !src.hasNormals {
        return vertices, false;
      }
      var texCoords := Vec2(0.0, 0.0);
      if src.hasTexCoords {
        texCoords := Vec2(v.texCoord.x, v.texCoord.y);
      }
      vertices := vertices + [Vertex(v.position, v.normal, texCoords)];
      i := i + 1;
    }
    complete := true;
  }

  /** The face loop: every face's indices, in face order. */
  method FlattenFaces(faces: seq<Face>) returns (indices: seq<nat>)
    ensures indices == Concat(faces)
  {
    indices := [];
    var i := 0;
    while i < |faces|
      invariant 0 <= i <= |faces|
      invariant indices == Concat(faces[..i])
    {
      var face := faces[i];
      var j := 0;
      while j < |face.indices|
        invariant 0 <= j <= |face.indices|
        invariant indices == Concat(faces[..i]) + face.indices[..j]
      {
        indices := indices + [face.indices[j]];
        j := j + 1;
      }
      assert faces[..i + 1][..i] == faces[..i];
      assert face.indices[..j] == face.indices;
      i := i + 1;
    }
    assert faces[..i] == faces;
  }

  /** Index j of face f sits after all indices of the faces before f. */
  lemma {:induction false} ConcatAt(faces: seq<Face>, f: nat, j: nat)
    requires f < |faces| && j < |faces[f].indices|
    ensures |Concat(faces)| == IndexCount(faces)
    ensures IndexCount(faces[..f]) + j < |Concat(faces)|
    ensures Concat(faces)[IndexCount(faces[..f]) + j] == faces[f].indices[j]
  {
    var n := |faces|;
    var init := faces[..n - 1];
    ConcatLength(init);
    if f < n - 1 {
      ConcatAt(init, f, j);
      assert init[..f] == faces[..f];
    } else {
      assert faces[..f] == init;
    }
  }

  lemma {:induction false} ConcatLength(faces: seq<Face>)
    ensures |Concat(faces)| == IndexCount(faces)
  {
    if faces != [] {
      ConcatLength(faces[..|faces| - 1]);
    }
  }

  // ---------------------------------------------------------------------
  // Facts about the cache

  lemma ConvertsKept(m: Mesh, src: SceneMesh, scene: Scene, dir: string, cache0: map<string, Texture>, cache1: map<string, Texture>)
    requires Converts(m, src, scene, dir, cache0) && Extends(cache0, cache1)
    ensures Converts(m, src, scene, dir, cache1)
  {
  }

  /** Meshes converted against a cache stay converted against any cache that extends it. */
  lemma ConvertsAllKept(ms: seq<Mesh>, srcs: seq<SceneMesh>, scene: Scene, dir: string, cache0: map<string, Texture>, cache1: map<string, Texture>)
    requires ConvertsAll(ms, srcs, scene, dir, cache0) && Extends(cache0, cache1)
    ensures ConvertsAll(ms, srcs, scene, dir, cache1)
  {
    forall j | 0 <= j < |ms|
      ensures Converts(ms[j], srcs[j], scene, dir, cache1)
    {
      ConvertsKept(ms[j], srcs[j], scene, dir, cache0, cache1);
    }
  }

  lemma ConvertsAllAppend(ms0: seq<Mesh>, srcs0: seq<SceneMesh>, ms1: seq<Mesh>, srcs1: seq<SceneMesh>, scene: Scene, dir: string, cache: map<string, Texture>)
    requires ConvertsAll(ms0, srcs0, scene, dir, cache) && ConvertsAll(ms1, srcs1, scene, dir, cache)
    ensures ConvertsAll(ms0 + ms1, srcs0 + srcs1, scene, dir, cache)
  {
    var ms, srcs := ms0 + ms1, srcs0 + srcs1;
    forall j | 0 <= j < |ms|
      ensures Converts(ms[j], srcs[j], scene, dir, cache)
    {
      if j < |ms0| {
        assert ms[j] == ms0[j] && srcs[j] == srcs0[j];
      } else {
        assert ms[j] == ms1[j - |ms0|] && srcs[j] == srcs1[j - |ms0|];
      }
    }
  }

  /** Growth composes: two steps of growth are one. */
  lemma GrewTransitive(c0: map<string, Texture>, c1: map<string, Texture>, c2: map<string, Texture>, u0: seq<Upload>, u1: seq<Upload>, u2: seq<Upload>)
    requires Grew(c0, c1, u0, u1) && Grew(c1, c2, u1, u2)
    ensures Grew(c0, c2, u0, u2)
  {
    assert u2[..|u0|] == u2[..|u1|][..|u0|];
  }

  lemma KeysStep(keys0: set<string>, keys1: set<string>, keys2: set<string>, paths: seq<string>, i: nat)
    requires i < |paths|
    requires keys1 <= keys0 + PathsUpTo(paths, i) && keys2 == keys1 + {paths[i]}
    ensures keys2 <= keys0 + PathsUpTo(paths, i + 1)
  {
    PathsUpToNext(paths, i);
  }

  /** Every key of `c1` is a key of `c0` or one of the first `n` paths. */
  predicate KeysWithin(c0: map<string, Texture>, c1: map<string, Texture>, paths: seq<string>, n: nat)
    requires n <= |paths|
  {
    c1.Keys <= c0.Keys + PathsUpTo(paths, n)
  }

  /** Each texture of `textures` is the cache's entry for the path at the same position. */
  predicate CachedAs(textures: seq<Texture>, paths: seq<string>, n: nat, cache: map<string, Texture>)
    requires n <= |paths|
  {
    |textures| == n && forall j :: 0 <= j < n ==> paths[j] in cache && textures[j] == cache[paths[j]]
  }

  lemma CachedAsAppend(textures: seq<Texture>, paths: seq<string>, n: nat, cache0: map<string, Texture>, cache1: map<string, Texture>, t: Texture)
    requires n < |paths| && CachedAs(textures, paths, n, cache0) && Extends(cache0, cache1)
    requires paths[n] in cache1 && cache1[paths[n]] == t
    ensures CachedAs(textures + [t], paths, n + 1, cache1)
  {
  }

  /** Growth of the cache in which every new entry holds a texture of the given kind. */
  predicate GrewWith(c0: map<string, Texture>, c1: map<string, Texture>, u0: seq<Upload>, u1: seq<Upload>, kind: TextureKind) {
    && Grew(c0, c1, u0, u1)
    && forall p :: p in c1 && p !in c0 ==> c1[p].kind == kind
  }

  /**
   * One slot's effect on the cache: a path already cached yields its entry
   * and changes nothing; a new path gets a texture of the requested kind,
   * generated as the next GL object and inserted under that path.
   */
  predicate SlotLoaded(c0: map<string, Texture>, u0: seq<Upload>, c1: map<string, Texture>, u1: seq<Upload>, path: string, kind: TextureKind, t: Texture) {
    if path in c0 then t == c0[path] && c1 == c0 && u1 == u0
    else
      && |u1| == |u0| + 1 && u1[..|u0|] == u0
      && t == Texture(|u1|, kind) && c1 == c0[path := t]
  }

  /** A loaded slot is growth by at most the slot's path, and keeps the handles valid. */
  lemma SlotGrows(c0: map<string, Texture>, u0: seq<Upload>, c1: map<string, Texture>, u1: seq<Upload>, path: string, kind: TextureKind, t: Texture)
    requires SlotLoaded(c0, u0, c1, u1, path, kind, t)
    ensures Grew(c0, c1, u0, u1)
    ensures c1.Keys == c0.Keys + {path} && c1[path] == t
  {
    if path !in c0 {
      assert |c1| == |c0| + 1;
      assert u1[..|u0|] == u0;
    }
  }

  /** Loading a slot keeps every cached texture a generated GL object. */
  lemma SlotKeepsHandles(c0: map<string, Texture>, u0: seq<Upload>, c1: map<string, Texture>, u1: seq<Upload>, path: string, kind: TextureKind, t: Texture)
    requires HandlesValid(c0, u0) && SlotLoaded(c0, u0, c1, u1, path, kind, t)
    ensures HandlesValid(c1, u1)
  {
  }

  /**
   * The state of texture loading after the first n slots of `paths`: the
   * cache grew from c0, every new key holds the requested kind and is one of
   * those n paths, `textures` are their cache entries in slot order, and
   * nothing changed at all if those paths were all cached already.
   */
  predicate SlotsLoaded(c0: map<string, Texture>, u0: seq<Upload>, c: map<string, Texture>, u: seq<Upload>, paths: seq<string>, n: nat, kind: TextureKind, textures: seq<Texture>)
    requires n <= |paths|
  {
    && GrewWith(c0, c, u0, u, kind)
    && KeysWithin(c0, c, paths, n)
    && CachedAs(textures, paths, n, c)
    && (PathsUpTo(paths, n) <= c0.Keys ==> c == c0 && u == u0)
  }

  lemma SlotsLoadedStart(c0: map<string, Texture>, u0: seq<Upload>, paths: seq<string>, kind: TextureKind)
    ensures SlotsLoaded(c0, u0, c0, u0, paths, 0, kind, [])
  {
    assert u0[..|u0|] == u0;
  }

  lemma SlotsLoadedStep(c0: map<string, Texture>, u0: seq<Upload>, c1: map<string, Texture>, u1: seq<Upload>, c2: map<string, Texture>, u2: seq<Upload>,
                        paths: seq<string>, n: nat, kind: TextureKind, textures: seq<Texture>, t: Texture)
    requires n < |paths| && SlotsLoaded(c0, u0, c1, u1, paths, n, kind, textures)
    requires SlotLoaded(c1, u1, c2, u2, paths[n], kind, t)
    ensures SlotsLoaded(c0, u0, c2, u2, paths, n + 1, kind, textures + [t])
  {
    SlotGrows(c1, u1, c2, u2, paths[n], kind, t);
    GrewWithStep(c0, c1, c2, u0, u1, u2, paths[n], kind, t);
    KeysStep(c0.Keys, c1.Keys, c2.Keys, paths, n);
    CachedAsAppend(textures, paths, n, c1, c2, t);
    UnchangedStep(c0, u0, c1, u1, c2, u2, paths, n, kind, t);
  }

  lemma GrewWithStep(c0: map<string, Texture>, c1: map<string, Texture>, c2: map<string, Texture>, u0: seq<Upload>, u1: seq<Upload>, u2: seq<Upload>,
                     path: string, kind: TextureKind, t: Texture)
    requires GrewWith(c0, c1, u0, u1, kind) && SlotLoaded(c1, u1, c2, u2, path, kind, t)
    ensures GrewWith(c0, c2, u0, u2, kind)
  {
    SlotGrows(c1, u1, c2, u2, path, kind, t);
    GrewTransitive(c0, c1, c2, u0, u1, u2);
  }

  lemma UnchangedStep(c0: map<string, Texture>, u0: seq<Upload>, c1: map<string, Texture>, u1: seq<Upload>, c2: map<string, Texture>, u2: seq<Upload>,
                      paths: seq<string>, n: nat, kind: TextureKind, t: Texture)
    requires n < |paths| && SlotLoaded(c1, u1, c2, u2, paths[n], kind, t)
    requires PathsUpTo(paths, n) <= c0.Keys ==> c1 == c0 && u1 == u0
    ensures PathsUpTo(paths, n + 1) <= c0.Keys ==> c2 == c0 && u2 == u0
  {
    PathsUpToNext(paths, n);
  }

  /** Once every slot is loaded, the new keys are exactly the slots' paths not cached before. */
  lemma SlotsLoadedKeys(c0: map<string, Texture>, u0: seq<Upload>, c: map<string, Texture>, u: seq<Upload>, paths: seq<string>, kind: TextureKind, textures: seq<Texture>)
    requires SlotsLoaded(c0, u0, c, u, paths, |paths|, kind, textures)
    ensures c.Keys == c0.Keys + PathsUpTo(paths, |paths|)
  {
  }

  // ---------------------------------------------------------------------
  // Facts about one converted mesh

  /** A converted mesh's textures: its material's diffuse entries, then its specular ones. */
  lemma MaterialConverted(src: SceneMesh, scene: Scene, dir: string, material: Material, vertices: seq<Vertex>, indices: seq<nat>,
                          c1: map<string, Texture>, c2: map<string, Texture>, diffuse: seq<Texture>, specular: seq<Texture>)
    requires src.materialIndex < |scene.materials| && scene.materials[src.materialIndex] == Some(material)
    requires !Truncated(src) && vertices == VerticesOf(src) && indices == Concat(src.faces)
    requires var d := ResolvedPaths(dir, material, Diffuse); CachedAs(diffuse, d, |d|, c1)
    requires Extends(c1, c2)
    requires var s := ResolvedPaths(dir, material, Specular); CachedAs(specular, s, |s|, c2)
    ensures Converts(Mesh(vertices, indices, diffuse + specular), src, scene, dir, c2)
  {
    var d := ResolvedPaths(dir, material, Diffuse);
    var refs := TextureRefs(src, scene, dir);
    var textures := diffuse + specular;
    forall k | 0 <= k < |refs|
      ensures refs[k] in c2 && textures[k] == c2[refs[k]]
    {
      if k < |d| {
        assert refs[k] == d[k];
      }
    }
  }

  /** Every resolved diffuse or specular path of a mesh's material is one of the mesh's texture references. */
  lemma SlotInRefs(src: SceneMesh, scene: Scene, dir: string, material: Material, kind: TextureKind, i: nat)
    requires src.materialIndex < |scene.materials| && scene.materials[src.materialIndex] == Some(material)
    requires !Truncated(src) && (kind == Diffuse || kind == Specular)
    requires i < |ResolvedPaths(dir, material, kind)|
    ensures ResolvedPaths(dir, material, kind)[i] in TextureRefs(src, scene, dir)
  {
    var d := ResolvedPaths(dir, material, Diffuse);
    var refs := TextureRefs(src, scene, dir);
    if kind == Diffuse {
      assert refs[i] == d[i];
    } else {
      assert refs[|d| + i] == ResolvedPaths(dir, material, Specular)[i];
    }
  }

  /** A decode failure among a material's slots of one kind is one among the mesh's texture references. */
  lemma CulpritInRefs(images: string -> Option<Image>, src: SceneMesh, scene: Scene, dir: string, material: Material, kind: TextureKind,
                      c0: map<string, Texture>, c1: map<string, Texture>, e: ModelError)
    requires src.materialIndex < |scene.materials| && scene.materials[src.materialIndex] == Some(material)
    requires !Truncated(src) && (kind == Diffuse || kind == Specular) && Extends(c0, c1)
    requires var ps := ResolvedPaths(dir, material, kind); CulpritUpTo(images, c1, ps, |ps|, e)
    ensures var refs := TextureRefs(src, scene, dir); CulpritUpTo(images, c0, refs, |refs|, e)
  {
    var ps := ResolvedPaths(dir, material, kind);
    var i :| 0 <= i < |ps| && !Available(images, c1, ps[i]) && e == TextureFailed(DecodeError(ps[i]));
    var refs := TextureRefs(src, scene, dir);
    var k := if kind == Diffuse then i else |ResolvedPaths(dir, material, Diffuse)| + i;
    assert refs[k] == ps[i];
    assert !Available(images, c0, refs[k]);
  }

  /**
   * When every diffuse path is available from `c0`, and every specular path
   * from `c1`, which adds only decodable keys to `c0`, then every texture
   * reference of the mesh is available from `c0`.
   */
  lemma RefsAvailable(images: string -> Option<Image>, src: SceneMesh, scene: Scene, dir: string, material: Material,
                      c0: map<string, Texture>, c1: map<string, Texture>)
    requires src.materialIndex < |scene.materials| && scene.materials[src.materialIndex] == Some(material)
    requires !Truncated(src) && NewKeysDecode(images, c0, c1)
    requires var d := ResolvedPaths(dir, material, Diffuse); AvailableUpTo(images, c0, d, |d|)
    requires var s := ResolvedPaths(dir, material, Specular); AvailableUpTo(images, c1, s, |s|)
    ensures var refs := TextureRefs(src, scene, dir); AvailableUpTo(images, c0, refs, |refs|)
  {
    var d, s := ResolvedPaths(dir, material, Diffuse), ResolvedPaths(dir, material, Specular);
    var refs := TextureRefs(src, scene, dir);
    forall k | 0 <= k < |refs|
      ensures Available(images, c0, refs[k])
    {
      if k < |d| {
        assert refs[k] == d[k];
      } else {
        assert refs[k] == s[k - |d|];
      }
    }
  }

  lemma NewKeysDecodeTransitive(images: string -> Option<Image>, c0: map<string, Texture>, c1: map<string, Texture>, c2: map<string, Texture>)
    requires NewKeysDecode(images, c0, c1) && NewKeysDecode(images, c1, c2)
    ensures NewKeysDecode(images, c0, c2)
  {
  }

  lemma AppendAssociates<T>(a: seq<T>, b: seq<T>, c: seq<T>)
    ensures a + b + c == a + (b + c)
  {
  }

  // ---------------------------------------------------------------------
  // Loading, as functions of the loader's state

  /** The loader's texture state: the cache, and the GL texture objects generated so far. */
  datatype LoadState = LoadState(cache: map<string, Texture>, uploads: seq<Upload>)

  /** What one loading step yields, and the state it leaves behind. */
  datatype Loaded<T> = Loaded(result: Result<T, ModelError>, state: LoadState)

  /** What visiting part of the scene graph yields: how it ended, the meshes it appended, and the state it leaves behind. */
  datatype Visit = Visit(outcome: Outcome<ModelError>, meshes: seq<Mesh>, state: LoadState)

  /**
   * One texture slot: a cached path yields its entry and changes nothing; a
   * new path is decoded and, if that succeeds, becomes the next GL object,
   * with the requested kind, and is inserted under that path.
   */
  function LoadSlot(images: string -> Option<Image>, st: LoadState, path: string, kind: TextureKind): (l: Loaded<Texture>)
    ensures l.result.Success? <==> path in st.cache || images(path).Some?
    ensures l.result.Success? ==> SlotLoaded(st.cache, st.uploads, l.state.cache, l.state.uploads, path, kind, l.result.value)
    ensures l.result.Failure? ==> l.state == st && l.result.error == TextureFailed(DecodeError(path))
  {
    if path in st.cache then Loaded(Success(st.cache[path]), st)
    else match images(path)
      case None => Loaded(Failure(TextureFailed(DecodeError(path))), st)
      case Some(image) =>
        var uploads := st.uploads + [Upload(ChannelsToFormat(image.channels), image.width, image.height)];
        var t := Texture(|uploads|, kind);
        Loaded(Success(t), LoadState(st.cache[path := t], uploads))
  }

  /** The slots of one kind, in slot order, up to the first that fails. */
  function LoadSlots(images: string -> Option<Image>, st: LoadState, paths: seq<string>, kind: TextureKind): Loaded<seq<Texture>> {
    if paths == [] then Loaded(Success([]), st)
    else NextSlot(images, LoadSlots(images, st, paths[..|paths| - 1], kind), paths[|paths| - 1], kind)
  }

  lemma LoadSlotsNext(images: string -> Option<Image>, st: LoadState, paths: seq<string>, i: nat, kind: TextureKind)
    requires i < |paths|
    ensures LoadSlots(images, st, paths[..i + 1], kind) == NextSlot(images, LoadSlots(images, st, paths[..i], kind), paths[i], kind)
  {
    assert paths[..i + 1][..i] == paths[..i];
  }

  /** One more slot after `before`, unless `before` already failed. */
  function NextSlot(images: string -> Option<Image>, before: Loaded<seq<Texture>>, path: string, kind: TextureKind): Loaded<seq<Texture>> {
    if before.result.Failure? then before
    else
      var slot := LoadSlot(images, before.state, path, kind);
      match slot.result
      case Failure(e) => Loaded(Failure(e), slot.state)
      case Success(t) => Loaded(Success(before.result.value + [t]), slot.state)
  }

  /**
   * Conversion of one source mesh: nothing at all for a truncated mesh; no
   * textures for a null material; otherwise the diffuse slots, then the
   * specular slots, of its material.
   */
  function MeshLoad(images: string -> Option<Image>, st: LoadState, src: SceneMesh, scene: Scene, dir: string): Loaded<Mesh>
    requires MaterialResolves(src, scene)
  {
    if Truncated(src) then Loaded(Success(Mesh([], [], [])), st)
    else match scene.materials[src.materialIndex]
      case None => Loaded(Success(Mesh(VerticesOf(src), Concat(src.faces), [])), st)
      case Some(material) =>
        var diffuse := LoadSlots(images, st, ResolvedPaths(dir, material, Diffuse), Diffuse);
        if diffuse.result.Failure? then Loaded(Failure(diffuse.result.error), diffuse.state)
        else
          var specular := LoadSlots(images, diffuse.state, ResolvedPaths(dir, material, Specular), Specular);
          if specular.result.Failure? then Loaded(Failure(specular.result.error), specular.state)
          else Loaded(Success(Mesh(VerticesOf(src), Concat(src.faces), diffuse.result.value + specular.result.value)), specular.state)
  }

  /** A node's own meshes, in reference order, null references skipped, up to the first failure. */
  function OwnLoad(images: string -> Option<Image>, st: LoadState, refs: seq<nat>, scene: Scene, dir: string): Visit
    requires RefsInScene(refs, scene) && RefsMaterialsResolve(refs, scene)
  {
    if refs == [] then Visit(Pass, [], st)
    else NextMesh(images, OwnLoad(images, st, refs[..|refs| - 1], scene, dir), scene.meshes[refs[|refs| - 1]], scene, dir)
  }

  /** One more mesh-table entry after `before`: skipped when null, converted and appended otherwise, unless `before` already failed. */
  function NextMesh(images: string -> Option<Image>, before: Visit, entry: Option<SceneMesh>, scene: Scene, dir: string): Visit
    requires entry.Some? ==> MaterialResolves(entry.value, scene)
  {
    if before.outcome.Fail? || entry.None? then before
    else
      var mesh := MeshLoad(images, before.state, entry.value, scene, dir);
      match mesh.result
      case Failure(e) => Visit(Fail(e), before.meshes, mesh.state)
      case Success(m) => Visit(Pass, before.meshes + [m], mesh.state)
  }

  lemma OwnLoadNext(images: string -> Option<Image>, st: LoadState, refs: seq<nat>, i: nat, scene: Scene, dir: string)
    requires RefsInScene(refs, scene) && RefsMaterialsResolve(refs, scene) && i < |refs|
    ensures OwnLoad(images, st, refs[..i + 1], scene, dir)
      == NextMesh(images, OwnLoad(images, st, refs[..i], scene, dir), scene.meshes[refs[i]], scene, dir)
  {
    assert refs[..i + 1][..i] == refs[..i];
  }

  /** After `start`, the first `k` children of `node`, null children skipped, up to the first failure. */
  function ChildrenLoad(images: string -> Option<Image>, start: Visit, node: Node, k: nat, scene: Scene, dir: string): Visit
    requires NodeInScene(node, scene) && MaterialsResolve(node, scene) && k <= |node.children|
    decreases node, k
  {
    if k == 0 then start
    else NextChild(images, ChildrenLoad(images, start, node, k - 1, scene, dir), node.children[k - 1], scene, dir)
  }

  /** One more child after `before`: skipped when null, visited otherwise, unless `before` already failed. */
  function NextChild(images: string -> Option<Image>, before: Visit, child: Option<Node>, scene: Scene, dir: string): Visit
    requires child.Some? ==> NodeInScene(child.value, scene) && MaterialsResolve(child.value, scene)
    decreases child, 0
  {
    if before.outcome.Fail? || child.None? then before
    else
      var sub := NodeLoad(images, before.state, child.value, scene, dir);
      Visit(sub.outcome, before.meshes + sub.meshes, sub.state)
  }

  /** The depth-first visit of a node: its own meshes, then its children, left to right. */
  function NodeLoad(images: string -> Option<Image>, st: LoadState, node: Node, scene: Scene, dir: string): Visit
    requires NodeInScene(node, scene) && MaterialsResolve(node, scene)
    decreases node, |node.children| + 1
  {
    ChildrenLoad(images, OwnLoad(images, st, node.meshRefs, scene, dir), node, |node.children|, scene, dir)
  }

  // ---------------------------------------------------------------------
  // A failure ends the loading

  lemma {:induction false} SlotsFailureSticks(images: string -> Option<Image>, st: LoadState, paths: seq<string>, n: nat, kind: TextureKind)
    requires n <= |paths| && LoadSlots(images, st, paths[..n], kind).result.Failure?
    ensures LoadSlots(images, st, paths, kind) == LoadSlots(images, st, paths[..n], kind)
  {
    if n < |paths| {
      var init := paths[..|paths| - 1];
      assert init[..n] == paths[..n];
      SlotsFailureSticks(images, st, init, n, kind);
    } else {
      assert paths[..n] == paths;
    }
  }

  lemma {:induction false} OwnFailureSticks(images: string -> Option<Image>, st: LoadState, refs: seq<nat>, n: nat, scene: Scene, dir: string)
    requires RefsInScene(refs, scene) && RefsMaterialsResolve(refs, scene)
    requires n <= |refs| && OwnLoad(images, st, refs[..n], scene, dir).outcome.Fail?
    ensures OwnLoad(images, st, refs, scene, dir) == OwnLoad(images, st, refs[..n], scene, dir)
  {
    if n < |refs| {
      var init := refs[..|refs| - 1];
      assert init[..n] == refs[..n];
      OwnFailureSticks(images, st, init, n, scene, dir);
    } else {
      assert refs[..n] == refs;
    }
  }

  lemma {:induction false} ChildrenFailureSticks(images: string -> Option<Image>, start: Visit, node: Node, k: nat, k': nat, scene: Scene, dir: string)
    requires NodeInScene(node, scene) && MaterialsResolve(node, scene) && k <= k' <= |node.children|
    requires ChildrenLoad(images, start, node, k, scene, dir).outcome.Fail?
    ensures ChildrenLoad(images, start, node, k', scene, dir) == ChildrenLoad(images, start, node, k, scene, dir)
    decreases k'
  {
    if k < k' {
      ChildrenFailureSticks(images, start, node, k, k' - 1, scene, dir);
    }
  }

  // ---------------------------------------------------------------------
  // What loading achieves

  /**
   * What loading the first `n` slots of `paths` from state `st` achieved,
   * `l` being its result and the state it left behind.
   */
  predicate SlotsSoFar(images: string -> Option<Image>, st: LoadState, l: Loaded<seq<Texture>>, paths: seq<string>, n: nat, kind: TextureKind)
    requires n <= |paths|
  {
    && HandlesValid(l.state.cache, l.state.uploads)
    && GrewWith(st.cache, l.state.cache, st.uploads, l.state.uploads, kind)
    && NewKeysDecode(images, st.cache, l.state.cache)
    && (l.result.Success? ==> SlotsLoaded(st.cache, st.uploads, l.state.cache, l.state.uploads, paths, n, kind, l.result.value))
    && (l.result.Success? <==> AvailableUpTo(images, st.cache, paths, n))
    && (l.result.Failure? ==> CulpritUpTo(images, st.cache, paths, n, l.result.error))
  }

  lemma SlotsSoFarStart(images: string -> Option<Image>, st: LoadState, paths: seq<string>, kind: TextureKind)
    requires HandlesValid(st.cache, st.uploads)
    ensures SlotsSoFar(images, st, Loaded(Success([]), st), paths, 0, kind)
  {
    SlotsLoadedStart(st.cache, st.uploads, paths, kind);
  }

  lemma SlotsSoFarStep(images: string -> Option<Image>, st: LoadState, before: Loaded<seq<Texture>>, paths: seq<string>, n: nat, kind: TextureKind)
    requires n < |paths| && SlotsSoFar(images, st, before, paths, n, kind)
    ensures SlotsSoFar(images, st, NextSlot(images, before, paths[n], kind), paths, n + 1, kind)
  {
    PathsUpToNext(paths, n);
    if before.result.Success? {
      var slot := LoadSlot(images, before.state, paths[n], kind);
      if slot.result.Success? {
        SlotFilled(images, st, before, slot, paths, n, kind);
      } else {
        SlotFailed(images, st, before, slot, paths, n, kind);
      }
    }
  }

  lemma SlotFilled(images: string -> Option<Image>, st: LoadState, before: Loaded<seq<Texture>>, slot: Loaded<Texture>, paths: seq<string>, n: nat, kind: TextureKind)
    requires n < |paths| && SlotsSoFar(images, st, before, paths, n, kind) && before.result.Success?
    requires slot == LoadSlot(images, before.state, paths[n], kind) && slot.result.Success?
    ensures SlotsSoFar(images, st, Loaded(Success(before.result.value + [slot.result.value]), slot.state), paths, n + 1, kind)
  {
    var c1, u1 := before.state.cache, before.state.uploads;
    SlotKeepsHandles(c1, u1, slot.state.cache, slot.state.uploads, paths[n], kind, slot.result.value);
    SlotsLoadedStep(st.cache, st.uploads, c1, u1, slot.state.cache, slot.state.uploads, paths, n, kind, before.result.value, slot.result.value);
  }

  lemma SlotFailed(images: string -> Option<Image>, st: LoadState, before: Loaded<seq<Texture>>, slot: Loaded<Texture>, paths: seq<string>, n: nat, kind: TextureKind)
    requires n < |paths| && SlotsSoFar(images, st, before, paths, n, kind) && before.result.Success?
    requires slot == LoadSlot(images, before.state, paths[n], kind) && slot.result.Failure?
    ensures SlotsSoFar(images, st, Loaded(Failure(slot.result.error), slot.state), paths, n + 1, kind)
  {
    assert paths[n] !in st.cache;
    assert !Available(images, st.cache, paths[n]);
  }

  lemma LoadSlotsPrefixStep(images: string -> Option<Image>, st: LoadState, paths: seq<string>, n: nat, kind: TextureKind)
    requires 0 < n <= |paths| && SlotsSoFar(images, st, LoadSlots(images, st, paths[..n - 1], kind), paths, n - 1, kind)
    ensures SlotsSoFar(images, st, LoadSlots(images, st, paths[..n], kind), paths, n, kind)
  {
    LoadSlotsNext(images, st, paths, n - 1, kind);
    SlotsSoFarStep(images, st, LoadSlots(images, st, paths[..n - 1], kind), paths, n - 1, kind);
  }

  lemma LoadSlotsPrefixStart(images: string -> Option<Image>, st: LoadState, paths: seq<string>, kind: TextureKind)
    requires HandlesValid(st.cache, st.uploads)
    ensures SlotsSoFar(images, st, LoadSlots(images, st, paths[..0], kind), paths, 0, kind)
  {
    assert paths[..0] == [];
    SlotsSoFarStart(images, st, paths, kind);
  }

  lemma {:induction false} LoadSlotsPrefix(images: string -> Option<Image>, st: LoadState, paths: seq<string>, n: nat, kind: TextureKind)
    requires n <= |paths| && HandlesValid(st.cache, st.uploads)
    ensures SlotsSoFar(images, st, LoadSlots(images, st, paths[..n], kind), paths, n, kind)
  {
    if n == 0 {
      LoadSlotsPrefixStart(images, st, paths, kind);
    } else {
      LoadSlotsPrefix(images, st, paths, n - 1, kind);
      LoadSlotsPrefixStep(images, st, paths, n, kind);
    }
  }

  /**
   * Loading the slots of one kind.  On success there is one texture per
   * slot, in slot order, each the cache's entry for the slot's resolved
   * path; new keys are exactly the slots' paths not cached before (and on
   * failure only some of them), each holding a texture of the requested
   * kind, one new GL object per new key; old
   * entries are untouched; nothing changes when every path was cached.  A
   * failure names a slot whose path was not cached and could not be decoded.
   */
  lemma LoadSlotsSpec(images: string -> Option<Image>, st: LoadState, paths: seq<string>, kind: TextureKind)
    requires HandlesValid(st.cache, st.uploads)
    ensures var l := LoadSlots(images, st, paths, kind);
      && HandlesValid(l.state.cache, l.state.uploads)
      && GrewWith(st.cache, l.state.cache, st.uploads, l.state.uploads, kind)
      && NewKeysDecode(images, st.cache, l.state.cache)
      && l.state.cache.Keys <= st.cache.Keys + PathsUpTo(paths, |paths|)
      && (l.result.Success? ==> SlotsLoaded(st.cache, st.uploads, l.state.cache, l.state.uploads, paths, |paths|, kind, l.result.value))
      && (l.result.Success? <==> AvailableUpTo(images, st.cache, paths, |paths|))
      && (l.result.Failure? ==> CulpritUpTo(images, st.cache, paths, |paths|, l.result.error))
      && (PathsUpTo(paths, |paths|) <= st.cache.Keys ==> l.result.Success?)
  {
    LoadSlotsPrefix(images, st, paths, |paths|, kind);
    LoadSlotsKeys(images, st, paths, kind);
    assert paths[..|paths|] == paths;
    assert SlotsSoFar(images, st, LoadSlots(images, st, paths, kind), paths, |paths|, kind);
    if PathsUpTo(paths, |paths|) <= st.cache.Keys {
      CachedAreAvailable(images, st.cache, paths, |paths|);
    }
  }

  /**
   * The cache is keyed by path alone: a file that is both a diffuse and a
   * specular map of a material is decoded once, as a diffuse texture, and the
   * specular slot reuses that texture, kind included, without a new GL object.
   */
  lemma SharedPathKeepsFirstKind(images: string -> Option<Image>, st: LoadState, path: string)
    requires path !in st.cache && images(path).Some?
    ensures var d := LoadSlots(images, st, [path], Diffuse);
      var s := LoadSlots(images, d.state, [path], Specular);
      && d.result == Success([Texture(|st.uploads| + 1, Diffuse)])
      && s.result == d.result && s.state == d.state
  {
    assert [path][..0] == [];
    var d := LoadSlots(images, st, [path], Diffuse);
    var slot := LoadSlot(images, st, path, Diffuse);
    assert slot.result == Success(Texture(|st.uploads| + 1, Diffuse));
    assert LoadSlots(images, st, [path][..0], Diffuse) == Loaded(Success([]), st);
    assert d == NextSlot(images, Loaded(Success([]), st), path, Diffuse);
    assert [] + [slot.result.value] == [slot.result.value];
    assert d == Loaded(Success([slot.result.value]), slot.state);
    assert path in d.state.cache && d.state.cache[path] == slot.result.value;
  }

  /**
   * Converting one mesh: on success the mesh is the conversion of the source
   * against the resulting cache; the cache only grows; a failure names a
   * texture path of the mesh that was not cached and could not be decoded; a
   * truncated mesh converts to the empty mesh and touches nothing.
   */
  lemma MeshLoadSpec(images: string -> Option<Image>, st: LoadState, src: SceneMesh, scene: Scene, dir: string)
    requires MaterialResolves(src, scene) && HandlesValid(st.cache, st.uploads)
    ensures var l := MeshLoad(images, st, src, scene, dir);
      && HandlesValid(l.state.cache, l.state.uploads)
      && Grew(st.cache, l.state.cache, st.uploads, l.state.uploads)
      && NewKeysDecode(images, st.cache, l.state.cache)
      && l.state.cache.Keys <= st.cache.Keys + MeshPaths(src, scene, dir)
      && (l.result.Success? ==> Converts(l.result.value, src, scene, dir, l.state.cache))
      && var refs := TextureRefs(src, scene, dir);
      && (l.result.Success? <==> AvailableUpTo(images, st.cache, refs, |refs|))
      && (l.result.Failure? ==> CulpritUpTo(images, st.cache, refs, |refs|, l.result.error))
      && (Truncated(src) ==> l == Loaded(Success(Mesh([], [], [])), st))
  {
    assert st.uploads[..|st.uploads|] == st.uploads;
    MeshLoadKeys(images, st, src, scene, dir);
    var l := MeshLoad(images, st, src, scene, dir);
    if Truncated(src) {
      assert l == Loaded(Success(Mesh([], [], [])), st);
    } else if scene.materials[src.materialIndex].None? {
      assert l == Loaded(Success(Mesh(VerticesOf(src), Concat(src.faces), [])), st);
      assert Converts(l.result.value, src, scene, dir, l.state.cache);
    } else {
      var material := scene.materials[src.materialIndex].value;
      var d := ResolvedPaths(dir, material, Diffuse);
      LoadSlotsSpec(images, st, d, Diffuse);
      var diffuse := LoadSlots(images, st, d, Diffuse);
      if diffuse.result.Failure? {
        assert l == Loaded(Failure(diffuse.result.error), diffuse.state);
        CulpritInRefs(images, src, scene, dir, material, Diffuse, st.cache, st.cache, diffuse.result.error);
      } else {
        var s := ResolvedPaths(dir, material, Specular);
        LoadSlotsSpec(images, diffuse.state, s, Specular);
        var specular := LoadSlots(images, diffuse.state, s, Specular);
        GrewTransitive(st.cache, diffuse.state.cache, specular.state.cache, st.uploads, diffuse.state.uploads, specular.state.uploads);
        NewKeysDecodeTransitive(images, st.cache, diffuse.state.cache, specular.state.cache);
        if specular.result.Failure? {
          assert l == Loaded(Failure(specular.result.error), specular.state);
          CulpritInRefs(images, src, scene, dir, material, Specular, st.cache, diffuse.state.cache, specular.result.error);
        } else {
          RefsAvailable(images, src, scene, dir, material, st.cache, diffuse.state.cache);
          var m := Mesh(VerticesOf(src), Concat(src.faces), diffuse.result.value + specular.result.value);
          assert l == Loaded(Success(m), specular.state);
          MaterialConverted(src, scene, dir, material, VerticesOf(src), Concat(src.faces), diffuse.state.cache, specular.state.cache,
                            diffuse.result.value, specular.result.value);
        }
      }
    }
  }

  /** A mesh with a material names its diffuse paths and its specular paths, and no others. */
  lemma MeshPathsOfMaterial(src: SceneMesh, scene: Scene, dir: string, material: Material)
    requires src.materialIndex < |scene.materials| && scene.materials[src.materialIndex] == Some(material) && !Truncated(src)
    ensures var d, s := ResolvedPaths(dir, material, Diffuse), ResolvedPaths(dir, material, Specular);
      MeshPaths(src, scene, dir) == PathsUpTo(d, |d|) + PathsUpTo(s, |s|)
  {
    var d, s := ResolvedPaths(dir, material, Diffuse), ResolvedPaths(dir, material, Specular);
    assert TextureRefs(src, scene, dir) == d + s;
    ConcatPaths(d, s);
  }

  lemma ConcatPaths(d: seq<string>, s: seq<string>)
    ensures PathsUpTo(d + s, |d + s|) == PathsUpTo(d, |d|) + PathsUpTo(s, |s|)
  {
    var refs := d + s;
    forall p | p in PathsUpTo(refs, |refs|)
      ensures p in PathsUpTo(d, |d|) + PathsUpTo(s, |s|)
    {
      var k :| 0 <= k < |refs| && refs[k] == p;
      if k < |d| {
        assert d[k] == p;
      } else {
        assert s[k - |d|] == p;
      }
    }
    forall p | p in PathsUpTo(d, |d|) + PathsUpTo(s, |s|)
      ensures p in PathsUpTo(refs, |refs|)
    {
      if p in PathsUpTo(d, |d|) {
        var k :| 0 <= k < |d| && d[k] == p;
        assert refs[k] == p;
      } else {
        var k :| 0 <= k < |s| && s[k] == p;
        assert refs[|d| + k] == p;
      }
    }
  }

  /** Every texture reference of `src` is available from `cache`. */
  predicate MeshAvailable(images: string -> Option<Image>, cache: map<string, Texture>, src: SceneMesh, scene: Scene, dir: string) {
    var refs := TextureRefs(src, scene, dir);
    AvailableUpTo(images, cache, refs, |refs|)
  }

  /** `e` is the decode failure of a texture reference of `src` that is neither in `cache` nor decodable. */
  predicate MeshCulprit(images: string -> Option<Image>, cache: map<string, Texture>, src: SceneMesh, scene: Scene, dir: string, e: ModelError) {
    var refs := TextureRefs(src, scene, dir);
    CulpritUpTo(images, cache, refs, |refs|, e)
  }

  /** Every texture reference of every mesh of `srcs` is available from `cache`. */
  predicate AllAvailable(images: string -> Option<Image>, cache: map<string, Texture>, srcs: seq<SceneMesh>, scene: Scene, dir: string) {
    forall j :: 0 <= j < |srcs| ==> MeshAvailable(images, cache, srcs[j], scene, dir)
  }

  /** `e` is the decode failure of a texture reference of some mesh of `srcs`, neither in `cache` nor decodable. */
  predicate FailsAt(images: string -> Option<Image>, cache: map<string, Texture>, srcs: seq<SceneMesh>, scene: Scene, dir: string, e: ModelError) {
    exists j :: 0 <= j < |srcs| && MeshCulprit(images, cache, srcs[j], scene, dir, e)
  }

  lemma AllAvailableAppend(images: string -> Option<Image>, c0: map<string, Texture>, c1: map<string, Texture>,
                           srcs0: seq<SceneMesh>, srcs1: seq<SceneMesh>, scene: Scene, dir: string)
    requires AllAvailable(images, c0, srcs0, scene, dir) && AllAvailable(images, c1, srcs1, scene, dir) && NewKeysDecode(images, c0, c1)
    ensures AllAvailable(images, c0, srcs0 + srcs1, scene, dir)
  {
    var srcs := srcs0 + srcs1;
    forall j | 0 <= j < |srcs|
      ensures MeshAvailable(images, c0, srcs[j], scene, dir)
    {
      if j < |srcs0| {
        assert srcs[j] == srcs0[j];
      } else {
        assert srcs[j] == srcs1[j - |srcs0|];
        assert MeshAvailable(images, c1, srcs1[j - |srcs0|], scene, dir);
      }
    }
  }

  /** A culprit of a later visit, whose cache extends `c0`, is a culprit of the whole visit. */
  lemma FailsAtShift(images: string -> Option<Image>, c0: map<string, Texture>, c1: map<string, Texture>,
                     srcs0: seq<SceneMesh>, srcs1: seq<SceneMesh>, scene: Scene, dir: string, e: ModelError)
    requires FailsAt(images, c1, srcs1, scene, dir, e) && Extends(c0, c1)
    ensures FailsAt(images, c0, srcs0 + srcs1, scene, dir, e)
  {
    var j :| 0 <= j < |srcs1| && MeshCulprit(images, c1, srcs1[j], scene, dir, e);
    var refs := TextureRefs(srcs1[j], scene, dir);
    var i :| 0 <= i < |refs| && !Available(images, c1, refs[i]) && e == TextureFailed(DecodeError(refs[i]));
    assert !Available(images, c0, refs[i]);
    assert (srcs0 + srcs1)[|srcs0| + j] == srcs1[j];
    assert MeshCulprit(images, c0, (srcs0 + srcs1)[|srcs0| + j], scene, dir, e);
  }

  lemma FailsAtExtend(images: string -> Option<Image>, cache: map<string, Texture>, srcs0: seq<SceneMesh>, srcs1: seq<SceneMesh>, scene: Scene, dir: string, e: ModelError)
    requires FailsAt(images, cache, srcs0, scene, dir, e)
    ensures FailsAt(images, cache, srcs0 + srcs1, scene, dir, e)
  {
    var j :| 0 <= j < |srcs0| && MeshCulprit(images, cache, srcs0[j], scene, dir, e);
    assert (srcs0 + srcs1)[j] == srcs0[j];
  }

  /** A culprit is an unavailable reference, so the meshes are not all available. */
  lemma FailsAtNotAvailable(images: string -> Option<Image>, cache: map<string, Texture>, srcs: seq<SceneMesh>, scene: Scene, dir: string, e: ModelError)
    requires FailsAt(images, cache, srcs, scene, dir, e)
    ensures !AllAvailable(images, cache, srcs, scene, dir)
  {
    var j :| 0 <= j < |srcs| && MeshCulprit(images, cache, srcs[j], scene, dir, e);
    var refs := TextureRefs(srcs[j], scene, dir);
    var i :| 0 <= i < |refs| && !Available(images, cache, refs[i]) && e == TextureFailed(DecodeError(refs[i]));
    assert !MeshAvailable(images, cache, srcs[j], scene, dir);
  }

  /**
   * `v`, a visit that started in state `st`, went well as far as it goes:
   * the cache only grew, by files that decode, and its handles are
   * generated GL objects; if it passed, every texture path of `srcs` was
   * available and its meshes are their conversions against the final
   * cache; if it failed, the error names a path that was not available.
   */
  predicate VisitedAs(images: string -> Option<Image>, st: LoadState, v: Visit, srcs: seq<SceneMesh>, scene: Scene, dir: string) {
    && HandlesValid(v.state.cache, v.state.uploads)
    && Grew(st.cache, v.state.cache, st.uploads, v.state.uploads)
    && NewKeysDecode(images, st.cache, v.state.cache)
    && (v.outcome.Pass? ==> ConvertsAll(v.meshes, srcs, scene, dir, v.state.cache) && AllAvailable(images, st.cache, srcs, scene, dir))
    && (v.outcome.Fail? ==> FailsAt(images, st.cache, srcs, scene, dir, v.outcome.error))
  }

  /** A visit that passed, followed by a visit from the state it left, is one visit of both source lists. */
  lemma VisitsCompose(images: string -> Option<Image>, st: LoadState, before: Visit, sub: Visit, srcs0: seq<SceneMesh>, srcs1: seq<SceneMesh>, scene: Scene, dir: string)
    requires before.outcome.Pass? && VisitedAs(images, st, before, srcs0, scene, dir) && VisitedAs(images, before.state, sub, srcs1, scene, dir)
    ensures VisitedAs(images, st, Visit(sub.outcome, before.meshes + sub.meshes, sub.state), srcs0 + srcs1, scene, dir)
  {
    GrewTransitive(st.cache, before.state.cache, sub.state.cache, st.uploads, before.state.uploads, sub.state.uploads);
    NewKeysDecodeTransitive(images, st.cache, before.state.cache, sub.state.cache);
    if sub.outcome.Pass? {
      ConvertsAllKept(before.meshes, srcs0, scene, dir, before.state.cache, sub.state.cache);
      ConvertsAllAppend(before.meshes, srcs0, sub.meshes, srcs1, scene, dir, sub.state.cache);
      AllAvailableAppend(images, st.cache, before.state.cache, srcs0, srcs1, scene, dir);
    } else {
      FailsAtShift(images, st.cache, before.state.cache, srcs0, srcs1, scene, dir, sub.outcome.error);
    }
  }

  /** Visiting one more mesh-table entry after a visit keeps it a visit of the entry's mesh, if any, appended. */
  lemma NextMeshSpec(images: string -> Option<Image>, st: LoadState, before: Visit, entry: Option<SceneMesh>, srcs: seq<SceneMesh>, scene: Scene, dir: string)
    requires entry.Some? ==> MaterialResolves(entry.value, scene)
    requires VisitedAs(images, st, before, srcs, scene, dir)
    ensures VisitedAs(images, st, NextMesh(images, before, entry, scene, dir), srcs + (if entry.Some? then [entry.value] else []), scene, dir)
  {
    if before.outcome.Fail? || entry.None? {
      assert NextMesh(images, before, entry, scene, dir) == before;
      assert entry.None? ==> srcs + [] == srcs;
      if before.outcome.Fail? {
        FailsAtExtend(images, st.cache, srcs, if entry.Some? then [entry.value] else [], scene, dir, before.outcome.error);
      }
    } else {
      var sub := MeshVisit(images, before.state, entry.value, scene, dir);
      MeshVisitSpec(images, before.state, entry.value, scene, dir);
      VisitsCompose(images, st, before, sub, srcs, [entry.value], scene, dir);
      assert NextMesh(images, before, entry, scene, dir) == Visit(sub.outcome, before.meshes + sub.meshes, sub.state);
    }
  }

  /** Loading one mesh, as a visit of its own: converted on success, a culprit named on failure. */
  function MeshVisit(images: string -> Option<Image>, st: LoadState, src: SceneMesh, scene: Scene, dir: string): (v: Visit)
    requires MaterialResolves(src, scene)
    ensures v.state == MeshLoad(images, st, src, scene, dir).state
  {
    var mesh := MeshLoad(images, st, src, scene, dir);
    match mesh.result
    case Failure(e) => Visit(Fail(e), [], mesh.state)
    case Success(m) => Visit(Pass, [m], mesh.state)
  }

  lemma MeshVisitSpec(images: string -> Option<Image>, st: LoadState, src: SceneMesh, scene: Scene, dir: string)
    requires MaterialResolves(src, scene) && HandlesValid(st.cache, st.uploads)
    ensures VisitedAs(images, st, MeshVisit(images, st, src, scene, dir), [src], scene, dir)
  {
    MeshLoadSpec(images, st, src, scene, dir);
    var mesh := MeshLoad(images, st, src, scene, dir);
    match mesh.result
    case Failure(e) =>
      assert MeshCulprit(images, st.cache, [src][0], scene, dir, e);
    case Success(m) =>
      assert ConvertsAll([m], [src], scene, dir, mesh.state.cache);
      assert AllAvailable(images, st.cache, [src], scene, dir);
  }

  lemma {:induction false} OwnLoadSpec(images: string -> Option<Image>, st: LoadState, refs: seq<nat>, scene: Scene, dir: string)
    requires RefsInScene(refs, scene) && RefsMaterialsResolve(refs, scene) && HandlesValid(st.cache, st.uploads)
    ensures VisitedAs(images, st, OwnLoad(images, st, refs, scene, dir), OwnMeshes(refs, scene), scene, dir)
  {
    if refs == [] {
      assert st.uploads[..|st.uploads|] == st.uploads;
    } else {
      var init := refs[..|refs| - 1];
      OwnLoadSpec(images, st, init, scene, dir);
      NextMeshSpec(images, st, OwnLoad(images, st, init, scene, dir), scene.meshes[refs[|refs| - 1]], OwnMeshes(init, scene), scene, dir);
    }
  }

  /** Visiting one more child after a visit keeps it a visit of the child's flattening, if any, appended. */
  lemma {:induction false} NextChildSpec(images: string -> Option<Image>, st: LoadState, before: Visit, child: Option<Node>, srcs: seq<SceneMesh>, scene: Scene, dir: string)
    requires child.Some? ==> NodeInScene(child.value, scene) && MaterialsResolve(child.value, scene)
    requires VisitedAs(images, st, before, srcs, scene, dir)
    ensures VisitedAs(images, st, NextChild(images, before, child, scene, dir), srcs + (if child.Some? then Flatten(child.value, scene) else []), scene, dir)
    decreases child, 0
  {
    var next := NextChild(images, before, child, scene, dir);
    if before.outcome.Fail? || child.None? {
      assert next == before;
      assert child.None? ==> srcs + [] == srcs;
      if before.outcome.Fail? {
        FailsAtExtend(images, st.cache, srcs, if child.Some? then Flatten(child.value, scene) else [], scene, dir, before.outcome.error);
      }
    } else {
      NodeLoadSpec(images, before.state, child.value, scene, dir);
      VisitsCompose(images, st, before, NodeLoad(images, before.state, child.value, scene, dir), srcs, Flatten(child.value, scene), scene, dir);
    }
  }

  lemma ChildInScope(node: Node, i: nat, scene: Scene)
    requires NodeInScene(node, scene) && MaterialsResolve(node, scene) && i < |node.children|
    ensures node.children[i].Some? ==> NodeInScene(node.children[i].value, scene) && MaterialsResolve(node.children[i].value, scene)
  {
  }

  lemma {:induction false} ChildrenLoadSpec(images: string -> Option<Image>, st: LoadState, start: Visit, node: Node, k: nat, scene: Scene, dir: string)
    requires NodeInScene(node, scene) && MaterialsResolve(node, scene) && k <= |node.children|
    requires VisitedAs(images, st, start, OwnMeshes(node.meshRefs, scene), scene, dir)
    ensures VisitedAs(images, st, ChildrenLoad(images, start, node, k, scene, dir), OwnMeshes(node.meshRefs, scene) + FlattenChildren(node, k, scene), scene, dir)
    decreases node, k
  {
    if k == 0 {
      ChildrenLoadNone(images, st, start, node, scene, dir);
    } else {
      ChildrenLoadSpec(images, st, start, node, k - 1, scene, dir);
      ChildrenLoadStep(images, st, start, node, k, scene, dir);
    }
  }

  lemma ChildrenLoadNone(images: string -> Option<Image>, st: LoadState, start: Visit, node: Node, scene: Scene, dir: string)
    requires NodeInScene(node, scene) && MaterialsResolve(node, scene)
    requires VisitedAs(images, st, start, OwnMeshes(node.meshRefs, scene), scene, dir)
    ensures VisitedAs(images, st, ChildrenLoad(images, start, node, 0, scene, dir), OwnMeshes(node.meshRefs, scene) + FlattenChildren(node, 0, scene), scene, dir)
  {
    assert ChildrenLoad(images, start, node, 0, scene, dir) == start;
    assert OwnMeshes(node.meshRefs, scene) + FlattenChildren(node, 0, scene) == OwnMeshes(node.meshRefs, scene);
  }

  lemma ChildrenLoadStep(images: string -> Option<Image>, st: LoadState, start: Visit, node: Node, k: nat, scene: Scene, dir: string)
    requires NodeInScene(node, scene) && MaterialsResolve(node, scene) && 0 < k <= |node.children|
    requires VisitedAs(images, st, ChildrenLoad(images, start, node, k - 1, scene, dir), OwnMeshes(node.meshRefs, scene) + FlattenChildren(node, k - 1, scene), scene, dir)
    ensures VisitedAs(images, st, ChildrenLoad(images, start, node, k, scene, dir), OwnMeshes(node.meshRefs, scene) + FlattenChildren(node, k, scene), scene, dir)
    decreases node, k, 0
  {
    var own := OwnMeshes(node.meshRefs, scene);
    var child := node.children[k - 1];
    var prev := ChildrenLoad(images, start, node, k - 1, scene, dir);
    var tail := if child.Some? then Flatten(child.value, scene) else [];
    var done := FlattenChildren(node, k - 1, scene);
    ChildInScope(node, k - 1, scene);
    NextChildSpec(images, st, prev, child, own + done, scene, dir);
    assert ChildrenLoad(images, start, node, k, scene, dir) == NextChild(images, prev, child, scene, dir);
    assert FlattenChildren(node, k, scene) == done + tail;
    AppendAssociates(own, done, tail);
  }

  /**
   * Visiting a node: the cache only grows and its handles stay generated GL
   * objects; when the visit passes, the meshes it appends are the
   * conversions of the node's flattening (its own non-null meshes, then its
   * non-null children's, depth first), one per source mesh and in that
   * order; when it fails, a texture could not be loaded.
   */
  lemma {:induction false} NodeLoadSpec(images: string -> Option<Image>, st: LoadState, node: Node, scene: Scene, dir: string)
    requires NodeInScene(node, scene) && MaterialsResolve(node, scene) && HandlesValid(st.cache, st.uploads)
    ensures VisitedAs(images, st, NodeLoad(images, st, node, scene, dir), Flatten(node, scene), scene, dir)
    ensures NodeLoad(images, st, node, scene, dir).outcome.Pass? <==> AllAvailable(images, st.cache, Flatten(node, scene), scene, dir)
    ensures var v := NodeLoad(images, st, node, scene, dir);
      v.outcome.Pass? ==> v.state.cache.Keys == st.cache.Keys + TexPaths(Flatten(node, scene), scene, dir)
    decreases node, |node.children| + 1
  {
    OwnLoadSpec(images, st, node.meshRefs, scene, dir);
    ChildrenLoadSpec(images, st, OwnLoad(images, st, node.meshRefs, scene, dir), node, |node.children|, scene, dir);
    var v := NodeLoad(images, st, node, scene, dir);
    if v.outcome.Fail? {
      FailsAtNotAvailable(images, st.cache, Flatten(node, scene), scene, dir, v.outcome.error);
    } else {
      ConvertedPathsCached(v.meshes, Flatten(node, scene), scene, dir, v.state.cache);
      NodeLoadKeys(images, st, node, scene, dir);
    }
  }

  /** Converted meshes hold cache entries, so every texture path of their sources is a key of the cache. */
  lemma ConvertedPathsCached(ms: seq<Mesh>, srcs: seq<SceneMesh>, scene: Scene, dir: string, cache: map<string, Texture>)
    requires ConvertsAll(ms, srcs, scene, dir, cache)
    ensures TexPaths(srcs, scene, dir) <= cache.Keys
  {
    forall p | p in TexPaths(srcs, scene, dir)
      ensures p in cache
    {
      var j :| 0 <= j < |srcs| && p in MeshPaths(srcs[j], scene, dir);
      assert Converts(ms[j], srcs[j], scene, dir, cache);
      var refs := TextureRefs(srcs[j], scene, dir);
      var k :| 0 <= k < |refs| && refs[k] == p;
    }
  }

  // ---------------------------------------------------------------------
  // Which paths loading caches

  /** Loading slots caches no path but the slots' own. */
  lemma {:induction false} LoadSlotsKeys(images: string -> Option<Image>, st: LoadState, paths: seq<string>, kind: TextureKind)
    ensures LoadSlots(images, st, paths, kind).state.cache.Keys <= st.cache.Keys + PathsUpTo(paths, |paths|)
  {
    if paths != [] {
      var n := |paths| - 1;
      var init := paths[..n];
      LoadSlotsKeys(images, st, init, kind);
      PathsUpToNext(paths, n);
      assert PathsUpTo(init, |init|) == PathsUpTo(paths, n);
    }
  }

  /** Converting a mesh caches no path but the mesh's own texture paths. */
  lemma MeshLoadKeys(images: string -> Option<Image>, st: LoadState, src: SceneMesh, scene: Scene, dir: string)
    requires MaterialResolves(src, scene)
    ensures MeshLoad(images, st, src, scene, dir).state.cache.Keys <= st.cache.Keys + MeshPaths(src, scene, dir)
  {
    if !Truncated(src) && scene.materials[src.materialIndex].Some? {
      var material := scene.materials[src.materialIndex].value;
      MeshPathsOfMaterial(src, scene, dir, material);
      var d := ResolvedPaths(dir, material, Diffuse);
      LoadSlotsKeys(images, st, d, Diffuse);
      LoadSlotsKeys(images, LoadSlots(images, st, d, Diffuse).state, ResolvedPaths(dir, material, Specular), Specular);
    }
  }

  lemma TexPathsSingle(src: SceneMesh, scene: Scene, dir: string)
    ensures TexPaths([src], scene, dir) == MeshPaths(src, scene, dir)
  {
    forall p | p in MeshPaths(src, scene, dir)
      ensures p in TexPaths([src], scene, dir)
    {
      assert p in MeshPaths([src][0], scene, dir);
    }
  }

  /** A visit of a node's own meshes caches only their texture paths. */
  lemma {:induction false} OwnLoadKeys(images: string -> Option<Image>, st: LoadState, refs: seq<nat>, scene: Scene, dir: string)
    requires RefsInScene(refs, scene) && RefsMaterialsResolve(refs, scene)
    ensures OwnLoad(images, st, refs, scene, dir).state.cache.Keys <= st.cache.Keys + TexPaths(OwnMeshes(refs, scene), scene, dir)
  {
    if refs != [] {
      var init := refs[..|refs| - 1];
      var entry := scene.meshes[refs[|refs| - 1]];
      OwnLoadKeys(images, st, init, scene, dir);
      TexPathsAppend(OwnMeshes(init, scene), if entry.Some? then [entry.value] else [], scene, dir);
      var before := OwnLoad(images, st, init, scene, dir);
      if entry.Some? && before.outcome.Pass? {
        MeshLoadKeys(images, before.state, entry.value, scene, dir);
        TexPathsSingle(entry.value, scene, dir);
      }
    }
  }

  lemma {:induction false} NextChildKeys(images: string -> Option<Image>, before: Visit, child: Option<Node>, scene: Scene, dir: string)
    requires child.Some? ==> NodeInScene(child.value, scene) && MaterialsResolve(child.value, scene)
    ensures NextChild(images, before, child, scene, dir).state.cache.Keys
      <= before.state.cache.Keys + TexPaths(if child.Some? then Flatten(child.value, scene) else [], scene, dir)
    decreases child, 0
  {
    if before.outcome.Pass? && child.Some? {
      NodeLoadKeys(images, before.state, child.value, scene, dir);
    }
  }

  /**
   * Visiting the first `k` children caches no path but theirs. The lemmas
   * below compare this predicate and the scope predicates with `true`, so
   * that the verifier keeps each as one fact rather than unfolding it at
   * every call.
   */
  predicate ChildrenKeysWithin(images: string -> Option<Image>, start: Visit, node: Node, k: nat, scene: Scene, dir: string)
    requires NodeInScene(node, scene) && MaterialsResolve(node, scene) && k <= |node.children|
  {
    ChildrenLoad(images, start, node, k, scene, dir).state.cache.Keys
      <= start.state.cache.Keys + TexPaths(FlattenChildren(node, k, scene), scene, dir)
  }

  lemma {:induction false} ChildrenLoadKeys(images: string -> Option<Image>, start: Visit, node: Node, k: nat, scene: Scene, dir: string)
    requires (NodeInScene(node, scene) && MaterialsResolve(node, scene)) == true && k <= |node.children|
    ensures ChildrenKeysWithin(images, start, node, k, scene, dir) == true
    decreases node, k
  {
    ChildrenKeysNone(images, start, node, scene, dir);
    var j := 0;
    while j < k
      invariant j <= k && ChildrenKeysWithin(images, start, node, j, scene, dir) == true
    {
      ChildrenKeysStep(images, start, node, j, scene, dir);
      j := j + 1;
    }
  }

  lemma ChildrenKeysNone(images: string -> Option<Image>, start: Visit, node: Node, scene: Scene, dir: string)
    requires (NodeInScene(node, scene) && MaterialsResolve(node, scene)) == true
    ensures ChildrenKeysWithin(images, start, node, 0, scene, dir) == true
  {
    assert ChildrenLoad(images, start, node, 0, scene, dir) == start;
  }

  lemma ChildrenKeysStep(images: string -> Option<Image>, start: Visit, node: Node, i: nat, scene: Scene, dir: string)
    requires (NodeInScene(node, scene) && MaterialsResolve(node, scene)) == true && i < |node.children|
    requires ChildrenKeysWithin(images, start, node, i, scene, dir) == true
    ensures ChildrenKeysWithin(images, start, node, i + 1, scene, dir) == true
    decreases node, i + 1, 0
  {
    var child := node.children[i];
    var sub := if child.Some? then Flatten(child.value, scene) else [];
    var before := ChildrenLoad(images, start, node, i, scene, dir);
    ChildInScope(node, i, scene);
    NextChildKeys(images, before, child, scene, dir);
    TexPathsAppend(FlattenChildren(node, i, scene), sub, scene, dir);
    assert FlattenChildren(node, i + 1, scene) == FlattenChildren(node, i, scene) + sub;
  }

  /** Visiting a node caches no path but the texture paths of the meshes it flattens to. */
  lemma {:induction false} NodeLoadKeys(images: string -> Option<Image>, st: LoadState, node: Node, scene: Scene, dir: string)
    requires NodeInScene(node, scene) && MaterialsResolve(node, scene)
    ensures NodeLoad(images, st, node, scene, dir).state.cache.Keys <= st.cache.Keys + TexPaths(Flatten(node, scene), scene, dir)
    decreases node, |node.children| + 1
  {
    OwnLoadKeys(images, st, node.meshRefs, scene, dir);
    ChildrenLoadKeys(images, OwnLoad(images, st, node.meshRefs, scene, dir), node, |node.children|, scene, dir);
    TexPathsAppend(OwnMeshes(node.meshRefs, scene), FlattenChildren(node, |node.children|, scene), scene, dir);
  }

  /** Nothing is imported unless the importer produced a complete scene with a root node. */
  function ImportedRoot(imported: Option<Scene>): (root: Option<Node>)
    ensures root.Some? <==> imported.Some? && !imported.value.incomplete && imported.value.root.Some?
    ensures root.Some? ==> root == imported.value.root
  {
    if imported.None? || imported.value.incomplete || imported.value.root.None? then None
    else imported.value.root
  }

  /** The references the loader follows resolve: every mesh reference of the scene graph, and the material index of every mesh it converts in full. */
  predicate SceneInScope(scene: Scene) {
    scene.root.Some? ==> NodeInScene(scene.root.value, scene) && MaterialsResolve(scene.root.value, scene)
  }

  // ---------------------------------------------------------------------
  // The model

  class Model {
    var meshes: seq<Mesh>
    const directory: string
    var loadedTextures: map<string, Texture>

    constructor (directory: string)
      ensures this.directory == directory && meshes == [] && loadedTextures == map[]
    {
      this.directory := directory;
      meshes := [];
      loadedTextures := map[];
    }

    /**
     * Loading: the import must have produced a complete scene with a root,
     * otherwise loading fails and no model exists.  The model's directory is
     * that of the scene file, and its meshes are the converted meshes of the
     * scene graph in depth-first pre-order.  A texture that cannot be decoded
     * aborts the load.
     */
    static method Load(path: string, imported: Option<Scene>, importerMessage: string, platform: Platform)
      returns (r: Result<Model, ModelError>)
      requires ImportedRoot(imported).Some? ==> SceneInScope(imported.value)
      modifies platform
      ensures ImportedRoot(imported).None? ==>
        r == Failure(ImportError("ERROR::Assimp: " + importerMessage)) && platform.textures == old(platform.textures)
      ensures r.Failure? ==> (r.error.ImportError? <==> ImportedRoot(imported).None?)
      ensures r.Success? ==>
        var scene := imported.value;
        var model := r.value;
        && fresh(model)
        && ImportedRoot(imported).Some?
        && model.directory == ParentPath(path)
        && ConvertsAll(model.meshes, Flatten(scene.root.value, scene), scene, model.directory, model.loadedTextures)
        && HandlesValid(model.loadedTextures, platform.textures)
        && Grew(map[], model.loadedTextures, old(platform.textures), platform.textures)
        && model.loadedTextures.Keys == TexPaths(Flatten(scene.root.value, scene), scene, model.directory)
        && |platform.textures| == |old(platform.textures)| + |TexPaths(Flatten(scene.root.value, scene), scene, model.directory)|
      ensures ImportedRoot(imported).Some? ==>
        var scene := imported.value;
        (r.Success? <==> AllAvailable(platform.images, map[], Flatten(scene.root.value, scene), scene, ParentPath(path)))
      ensures ImportedRoot(imported).Some? && r.Failure? ==>
        var scene := imported.value;
        FailsAt(platform.images, map[], Flatten(scene.root.value, scene), scene, ParentPath(path), r.error)
    {
      var root := ImportedRoot(imported);
      if root.None? {
        return Failure(ImportError("ERROR::Assimp: " + importerMessage));
      }
      var scene := imported.value;
      var model := new Model(ParentPath(path));
      ghost var st0 := LoadState(map[], platform.textures);
      ghost var added;
      var outcome;
      outcome, added := model.ProcessNode(root.value, scene, platform);
      NodeLoadSpec(platform.images, st0, root.value, scene, model.directory);
      if outcome.Fail? {
        return Failure(outcome.error);
      }
      assert |model.loadedTextures| == |model.loadedTextures.Keys|;
      r := Success(model);
    }

    /**
     * One slot of texture loading: the cache's texture for a resolved path,
     * constructed with the requested kind and inserted on a miss.
     */
    method CachedTexture(path: string, kind: TextureKind, platform: Platform)
      returns (r: Result<Texture, ModelError>)
      modifies this`loadedTextures, platform
      ensures Loaded(r, LoadState(loadedTextures, platform.textures))
        == LoadSlot(platform.images, LoadState(old(loadedTextures), old(platform.textures)), path, kind)
    {
      if path in loadedTextures {
        return Success(loadedTextures[path]);
      }
      var t := NewTexture(platform, path, kind);
      if t.Failure? {
        return Failure(TextureFailed(t.error));
      }
      loadedTextures := loadedTextures[path := t.value];
      r := Success(t.value);
    }

    /**
     * Texture loading for one kind of one material: the slots in slot order,
     * each resolved against the model's directory and looked up in the
     * cache, until one fails.
     */
    method LoadMaterialTextures(material: Material, kind: TextureKind, platform: Platform)
      returns (r: Result<seq<Texture>, ModelError>)
      modifies this`loadedTextures, platform
      ensures Loaded(r, LoadState(loadedTextures, platform.textures))
        == LoadSlots(platform.images, LoadState(old(loadedTextures), old(platform.textures)), ResolvedPaths(directory, material, kind), kind)
    {
      ghost var paths := ResolvedPaths(directory, material, kind);
      ghost var st0 := LoadState(loadedTextures, platform.textures);
      var slots := Slots(material, kind);
      var textures := [];
      var i := 0;
      while i < |slots|
        invariant 0 <= i <= |slots| == |paths|
        invariant LoadSlots(platform.images, st0, paths[..i], kind) == Loaded(Success(textures), LoadState(loadedTextures, platform.textures))
      {
        var path := Join(directory, slots[i]);
        assert path == paths[i];
        LoadSlotsNext(platform.images, st0, paths, i, kind);
        var t := CachedTexture(path, kind, platform);
        if t.Failure? {
          SlotsFailureSticks(platform.images, st0, paths, i + 1, kind);
          return Failure(t.error);
        }
        textures := textures + [t.value];
        i := i + 1;
      }
      assert paths[..i] == paths;
      r := Success(textures);
    }

    /**
     * Conversion of one source mesh: the vertex loop (which gives up at once
     * on a mesh without normals), the face loop, then the diffuse and the
     * specular textures of its material, unless the material is null.
     */
    method ProcessMesh(src: SceneMesh, scene: Scene, platform: Platform) returns (r: Result<Mesh, ModelError>)
      requires MaterialResolves(src, scene)
      modifies this`loadedTextures, platform
      ensures Loaded(r, LoadState(loadedTextures, platform.textures))
        == MeshLoad(platform.images, LoadState(old(loadedTextures), old(platform.textures)), src, scene, directory)
    {
      var vertices, complete := ConvertVertices(src);
      if !complete {
        return Success(Mesh(vertices, [], []));
      }
      var indices := FlattenFaces(src.faces);
      // The material index is unsigned, so the source's `>= 0` guard always holds.
      var material := scene.materials[src.materialIndex];
      if material.None? {
        return Success(Mesh(vertices, indices, []));
      }
      var diffuse := LoadMaterialTextures(material.value, Diffuse, platform);
      if diffuse.Failure? {
        return Failure(diffuse.error);
      }
      var specular := LoadMaterialTextures(material.value, Specular, platform);
      if specular.Failure? {
        return Failure(specular.error);
      }
      r := Success(Mesh(vertices, indices, diffuse.value + specular.value));
    }

    /**
     * Depth-first visit of a node: its own meshes in reference order, null
     * references skipped; then each non-null child, left to right.  The
     * meshes already in the model stay as they are; `added` are the ones
     * appended.
     */
    method ProcessNode(node: Node, scene: Scene, platform: Platform) returns (o: Outcome<ModelError>, ghost added: seq<Mesh>)
      requires NodeInScene(node, scene) && MaterialsResolve(node, scene)
      modifies this, platform
      ensures meshes == old(meshes) + added
      ensures Visit(o, added, LoadState(loadedTextures, platform.textures))
        == NodeLoad(platform.images, LoadState(old(loadedTextures), old(platform.textures)), node, scene, directory)
      decreases node
    {
      ghost var ms0, st0 := meshes, LoadState(loadedTextures, platform.textures);
      added := [];
      var i := 0;
      while i < |node.meshRefs|
        invariant 0 <= i <= |node.meshRefs|
        invariant meshes == ms0 + added
        invariant OwnLoad(platform.images, st0, node.meshRefs[..i], scene, directory)
          == Visit(Pass, added, LoadState(loadedTextures, platform.textures))
      {
        OwnLoadNext(platform.images, st0, node.meshRefs, i, scene, directory);
        var src := scene.meshes[node.meshRefs[i]];
        if src.Some? {
          var mesh := ProcessMesh(src.value, scene, platform);
          if mesh.Failure? {
            OwnFailureSticks(platform.images, st0, node.meshRefs, i + 1, scene, directory);
            ChildrenFailureSticks(platform.images, OwnLoad(platform.images, st0, node.meshRefs, scene, directory),
                                  node, 0, |node.children|, scene, directory);
            return Fail(mesh.error), added;
          }
          AppendAssociates(ms0, added, [mesh.value]);
          meshes := meshes + [mesh.value];
          added := added + [mesh.value];
        }
        i := i + 1;
      }
      assert node.meshRefs[..i] == node.meshRefs;
      ghost var own := OwnLoad(platform.images, st0, node.meshRefs, scene, directory);
      var c := 0;
      while c < |node.children|
        invariant 0 <= c <= |node.children|
        invariant meshes == ms0 + added
        invariant ChildrenLoad(platform.images, own, node, c, scene, directory)
          == Visit(Pass, added, LoadState(loadedTextures, platform.textures))
      {
        var child := node.children[c];
        if child.Some? {
          var sub;
          ghost var subAdded;
          sub, subAdded := ProcessNode(child.value, scene, platform);
          AppendAssociates(ms0, added, subAdded);
          assert ChildrenLoad(platform.images, own, node, c + 1, scene, directory)
            == Visit(sub, added + subAdded, LoadState(loadedTextures, platform.textures));
          if sub.Fail? {
            ChildrenFailureSticks(platform.images, own, node, c + 1, |node.children|, scene, directory);
            return sub, added + subAdded;
          }
          added := added + subAdded;
        } else {
          assert ChildrenLoad(platform.images, own, node, c + 1, scene, directory)
            == ChildrenLoad(platform.images, own, node, c, scene, directory);
        }
        c := c + 1;
      }
      o := Pass;
    }
  }
}
