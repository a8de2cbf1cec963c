/**
 * Meshes: the renderer-ready mesh (vertices, indices, textures) and its
 * draw pass, which binds the i-th texture to texture unit i and names its
 * sampler "texture_<kind><k>", k counting textures of that kind only.
 * The GL calls of the draw pass become the returned list of bindings and
 * the element count of the draw call.
 */
module Meshes {
  import opened Common
  import opened Textures

  datatype Vec3 = Vec3(x: real, y: real, z: real)
  datatype Vec2 = Vec2(u: real, v: real)

  datatype Vertex = Vertex(position: Vec3, normal: Vec3, texCoords: Vec2)

  /** The mesh constructor stores its three arguments unchanged; the GL buffers it fills are not modelled. */
  datatype Mesh = Mesh(vertices: seq<Vertex>, indices: seq<nat>, textures: seq<Texture>)

  /** Texture `texture` is active on unit `unit`, and the sampler `sampler` is set to that unit. */
  datatype Binding = Binding(unit: nat, texture: nat, sampler: string)

  /** Kinds the draw pass can name. */
  predicate Nameable(kind: TextureKind) {
    kind == Diffuse || kind == Specular
  }

  /** Number of textures of kind `kind` in `ts`. */
  function CountKind(ts: seq<Texture>, kind: TextureKind): (n: nat)
    ensures n <= |ts|
  {
    if ts == [] then 0
    else CountKind(ts[..|ts| - 1], kind) + (if ts[|ts| - 1].kind == kind then 1 else 0)
  }

  function Digit(d: nat): (c: char)
    requires d < 10
    ensures '0' <= c <= '9'
  {
    "0123456789"[d]
  }

  /** Decimal notation of a natural number, as the standard library prints it. */
  function DecimalString(n: nat): (s: string)
    ensures 1 <= |s|
    ensures n < 10 <==> |s| == 1
    ensures s[|s| - 1] == Digit(n % 10)
  {
    if n < 10 then [Digit(n)] else DecimalString(n / 10) + [Digit(n % 10)]
  }

  function SamplerName(kindName: string, k: nat): string {
    "texture_" + kindName + DecimalString(k)
  }

  /** The sampler of the i-th texture: its kind's name and its rank among textures of that kind before it. */
  function SamplerOf(ts: seq<Texture>, i: nat): string
    requires i < |ts| && Nameable(ts[i].kind)
  {
    SamplerName(TypeAsString(ts[i].kind).value, CountKind(ts[..i], ts[i].kind))
  }

  /**
   * The draw pass.  One texture after another is activated on the next unit
   * and named with its kind's own running counter; a texture of a kind that
   * has no name aborts the pass before the draw call.
   */
  method Draw(mesh: Mesh) returns (bindings: seq<Binding>, drawn: Result<nat, TextureError>)
    ensures drawn.Success? <==> forall t <- mesh.textures :: Nameable(t.kind)
    ensures drawn.Success? ==> |bindings| == |mesh.textures| && drawn.value == |mesh.indices|
    ensures drawn.Failure? ==>
      && |bindings| < |mesh.textures|
      && !Nameable(mesh.textures[|bindings|].kind)
      && drawn.error == BadTextureType(mesh.textures[|bindings|].kind)
    ensures forall i :: 0 <= i < |bindings| ==> Nameable(mesh.textures[i].kind)
    ensures forall i {:trigger bindings[i]} :: 0 <= i < |bindings| ==>
      bindings[i] == Binding(i, mesh.textures[i].id, SamplerOf(mesh.textures, i))
  {
    var ts := mesh.textures;
    var diffuseCnt, specularCnt := 0, 0;
    var i := 0;
    bindings := [];
    while i < |ts|
      invariant 0 <= i <= |ts| && |bindings| == i
      invariant diffuseCnt == CountKind(ts[..i], Diffuse)
      invariant specularCnt == CountKind(ts[..i], Specular)
      invariant forall j :: 0 <= j < i ==> Nameable(ts[j].kind)
      invariant forall j {:trigger bindings[j]} :: 0 <= j < i ==> bindings[j] == Binding(j, ts[j].id, SamplerOf(ts, j))
    {
      var texture := ts[i];
      CountKindNext(ts, i, Diffuse);
      CountKindNext(ts, i, Specular);
      var texNumber := 0;
      match texture.kind {
        case Diffuse =>
          texNumber := diffuseCnt;
          diffuseCnt := diffuseCnt + 1;
        case Specular =>
          texNumber := specularCnt;
          specularCnt := specularCnt + 1;
        case _ =>
      }
      var kindName := TypeAsString(texture.kind);
      if kindName.Failure? {
        return bindings, Failure(kindName.error);
      }
      bindings := bindings + [Binding(i, texture.id, SamplerName(kindName.value, texNumber))];
      i := i + 1;
    }
    assert ts[..i] == ts;
    drawn := Success(|mesh.indices|);
  }

  lemma CountKindNext(ts: seq<Texture>, i: nat, kind: TextureKind)
    requires i < |ts|
    ensures CountKind(ts[..i + 1], kind) == CountKind(ts[..i], kind) + (if ts[i].kind == kind then 1 else 0)
  {
    assert ts[..i + 1][..i] == ts[..i];
  }

  lemma {:induction false} DecimalStringInjective(m: nat, n: nat)
    requires DecimalString(m) == DecimalString(n)
    ensures m == n
  {
    var s, t := DecimalString(m), DecimalString(n);
    if m >= 10 && n >= 10 {
      assert s[..|s| - 1] == DecimalString(m / 10);
      assert t[..|t| - 1] == DecimalString(n / 10);
      DecimalStringInjective(m / 10, n / 10);
      assert "0123456789"[m % 10] == "0123456789"[n % 10];
    } else {
      assert m < 10 && n < 10;
      assert "0123456789"[m] == "0123456789"[n];
    }
  }

  /** Counting over a longer prefix never yields less, and passing a texture of the kind adds one. */
  lemma {:induction false} CountKindGrows(ts: seq<Texture>, i: nat, j: nat, kind: TextureKind)
    requires i < j <= |ts|
    ensures CountKind(ts[..i], kind) + (if ts[i].kind == kind then 1 else 0) <= CountKind(ts[..j], kind)
  {
    if j == i + 1 {
      assert ts[..j][..i] == ts[..i];
    } else {
      CountKindGrows(ts, i, j - 1, kind);
      assert ts[..j][..j - 1] == ts[..j - 1];
    }
  }

  /** Each sampler number of a kind lies below the number of textures of that kind. */
  lemma SamplerNumberInRange(ts: seq<Texture>, i: nat)
    requires i < |ts|
    ensures CountKind(ts[..i], ts[i].kind) < CountKind(ts, ts[i].kind)
  {
    CountKindGrows(ts, i, |ts|, ts[i].kind);
    assert ts[..|ts|] == ts;
  }

  /**
   * Every number below a kind's count is taken: some texture of that kind
   * gets it as its sampler number.  With `SamplerNumberInRange` and
   * `SamplerNamesDistinct`, the samplers of a kind are numbered 0 up to
   * its count minus one, each number used exactly once.
   */
  lemma {:induction false} SamplerNumbersCover(ts: seq<Texture>, kind: TextureKind, k: nat)
    requires k < CountKind(ts, kind)
    ensures exists i :: 0 <= i < |ts| && ts[i].kind == kind && CountKind(ts[..i], kind) == k
  {
    var n := |ts| - 1;
    var init := ts[..n];
    if k < CountKind(init, kind) {
      SamplerNumbersCover(init, kind, k);
      var i :| 0 <= i < |init| && init[i].kind == kind && CountKind(init[..i], kind) == k;
      assert init[..i] == ts[..i];
      assert ts[i] == init[i];
    } else {
      assert ts[..n] == init;
      assert ts[n].kind == kind && CountKind(ts[..n], kind) == k;
    }
  }

  /** No two textures of a mesh are given the same sampler name. */
  lemma SamplerNamesDistinct(ts: seq<Texture>, i: nat, j: nat)
    requires i < j < |ts| && Nameable(ts[i].kind) && Nameable(ts[j].kind)
    ensures SamplerOf(ts, i) != SamplerOf(ts, j)
  {
    var a, b := SamplerOf(ts, i), SamplerOf(ts, j);
    if ts[i].kind != ts[j].kind {
      assert a[8] != b[8];
    } else {
      var kind := ts[i].kind;
      var prefix := "texture_" + TypeAsString(kind).value;
      CountKindGrows(ts, i, j, kind);
      if a == b {
        assert a[|prefix|..] == DecimalString(CountKind(ts[..i], kind));
        assert b[|prefix|..] == DecimalString(CountKind(ts[..j], kind));
        DecimalStringInjective(CountKind(ts[..i], kind), CountKind(ts[..j], kind));
      }
    }
  }
}
