// A mesh: its vertices, its triangle indices and the textures it samples,
// uploaded once into a vertex array with a vertex buffer and an index buffer.
// Drawing binds texture i to unit i under a sampler uniform named after the
// texture's type and its ordinal among the textures of that type.

module Meshes {
  import opened GL
  import opened Decimals
  import opened Vectors

  /** One vertex as the buffer stores it: five three-component float vectors
      (the texture coordinates too, of which the shader reads two). */
  datatype Vertex = Vertex(position: Vec3, normal: Vec3, texCoords: Vec3, tangent: Vec3, bitangent: Vec3)

  /** A texture the mesh samples: its name, its material role and the file
      it came from. */
  datatype Texture = Texture(id: Name, typeName: string, path: string)

  /** Bytes per vertex (five vectors of three 4-byte floats) and per index. */
  const VERTEX_SIZE: nat := 60
  const INDEX_SIZE: nat := 4

  const DIFFUSE: string := "texture_diffuse"
  const SPECULAR: string := "texture_specular"
  const NORMAL: string := "texture_normal"
  const HEIGHT: string := "texture_height"

  /** The texture roles whose samplers carry an ordinal. */
  predicate Numbered(typeName: string)
  {
    typeName == DIFFUSE || typeName == SPECULAR || typeName == NORMAL || typeName == HEIGHT
  }

  /** The four numbered roles are four different strings. */
  lemma RolesDistinct()
    ensures DIFFUSE != SPECULAR && DIFFUSE != NORMAL && DIFFUSE != HEIGHT
    ensures SPECULAR != NORMAL && SPECULAR != HEIGHT && NORMAL != HEIGHT
  {
    assert DIFFUSE[8] == 'd' && SPECULAR[8] == 's' && NORMAL[8] == 'n' && HEIGHT[8] == 'h';
  }

  /** How many of the first `n` textures have role `typeName`. */
  function CountType(ts: seq<Texture>, n: nat, typeName: string): (count: nat)
    requires n <= |ts|
    ensures count <= n
  {
    if n == 0 then 0
    else CountType(ts, n - 1, typeName) + (if ts[n - 1].typeName == typeName then 1 else 0)
  }

  /** The role of texture `i`, numbered when it is one of the four. */
  function RoleName(ts: seq<Texture>, i: nat): string
    requires i < |ts|
  {
    var t := ts[i].typeName;
    t + (if Numbered(t) then Decimal(CountType(ts, i, t) + 1) else "")
  }

  /** The sampler uniform texture `i` is bound under. */
  function SamplerName(ts: seq<Texture>, i: nat): string
    requires i < |ts|
  {
    "material." + RoleName(ts, i)
  }

  /** A decimal appended to a name can be read back from behind it. */
  lemma DecimalSuffixReads(prefix: string, n: nat)
    ensures var name := prefix + Decimal(n);
      |name| > |prefix| && name[..|prefix|] == prefix &&
      (forall k :: |prefix| <= k < |name| ==> IsDigit(name[k])) &&
      Parse(name[|prefix|..]) == n
  {
    var name := prefix + Decimal(n);
    ParseDecimal(n);
    assert name[|prefix|..] == Decimal(n);
  }

  /** A sampler name is `material.` and the texture's role, followed, for the
      four numbered roles, by digits that read as the texture's ordinal among
      those of its role, counting from 1, and by nothing for any other role. */
  lemma SamplerNameReadsOrdinal(ts: seq<Texture>, i: nat)
    requires i < |ts|
    ensures var name, prefix := SamplerName(ts, i), "material." + ts[i].typeName;
      |prefix| <= |name| && name[..|prefix|] == prefix &&
      (!Numbered(ts[i].typeName) ==> name == prefix) &&
      (Numbered(ts[i].typeName) ==>
        |name| > |prefix| &&
        (forall k :: |prefix| <= k < |name| ==> IsDigit(name[k])) &&
        Parse(name[|prefix|..]) == CountType(ts, i + 1, ts[i].typeName))
  {
    var t := ts[i].typeName;
    var prefix := "material." + t;
    if Numbered(t) {
      var digits := Decimal(CountType(ts, i, t) + 1);
      assert RoleName(ts, i) == t + digits;
      assert "material." + (t + digits) == prefix + digits;
      DecimalSuffixReads(prefix, CountType(ts, i, t) + 1);
    } else {
      assert SamplerName(ts, i) == prefix;
    }
  }

  /** The calls binding the first `n` textures: unit i is made active, the
      sampler of texture i is set to i and texture i is bound there. */
  function TextureBindings(ts: seq<Texture>, n: nat): (cmds: seq<Command>)
    requires n <= |ts|
    ensures |cmds| == 3 * n
  {
    if n == 0 then []
    else TextureBindings(ts, n - 1) + [ActiveTexture(n - 1), SetInt(SamplerName(ts, n - 1), n - 1), BindTexture(ts[n - 1].id)]
  }

  /** Texture i is bound to unit i under its own sampler name, for every i. */
  lemma {:induction false} BindingsAt(ts: seq<Texture>, n: nat, i: nat)
    requires i < n <= |ts|
    ensures TextureBindings(ts, n)[3 * i] == ActiveTexture(i)
    ensures TextureBindings(ts, n)[3 * i + 1] == SetInt(SamplerName(ts, i), i)
    ensures TextureBindings(ts, n)[3 * i + 2] == BindTexture(ts[i].id)
  {
    if i < n - 1 {
      BindingsAt(ts, n - 1, i);
    }
  }

  /** Binding textures issues no draw call and leaves the unit of the last
      texture active. */
  lemma {:induction false} BindingsDrawNothing(ts: seq<Texture>, n: nat)
    requires n <= |ts|
    ensures DrawCalls(TextureBindings(ts, n)) == []
    ensures n > 0 ==> ActiveUnit(TextureBindings(ts, n), 0) == n - 1
  {
    if n > 0 {
      var last := [ActiveTexture(n - 1), SetInt(SamplerName(ts, n - 1), n - 1), BindTexture(ts[n - 1].id)];
      BindingsDrawNothing(ts, n - 1);
      DrawCallsCompose(TextureBindings(ts, n - 1), last);
      NoDrawCalls(last);
      BindingsCompose(TextureBindings(ts, n - 1), last, 0);
      BindingLeavesUnit(n - 1, SamplerName(ts, n - 1), ts[n - 1].id, ActiveUnit(TextureBindings(ts, n - 1), 0));
    }
  }

  lemma BindingLeavesUnit(unit: nat, sampler: string, id: Name, init: nat)
    ensures ActiveUnit([ActiveTexture(unit), SetInt(sampler, unit), BindTexture(id)], init) == unit
  {
    ActiveUnitLast([ActiveTexture(unit), SetInt(sampler, unit), BindTexture(id)], 0, init);
  }

  /** A texture of role `t` counts towards the ordinals of every later one. */
  lemma {:induction false} CountTypeGrows(ts: seq<Texture>, i: nat, j: nat, t: string)
    requires i < j <= |ts| && ts[i].typeName == t
    ensures CountType(ts, i, t) < CountType(ts, j, t)
  {
    if j > i + 1 {
      CountTypeGrows(ts, i, j - 1, t);
    }
  }

  /** When every texture has a numbered role, no two textures share a
      sampler: same-role textures get different ordinals, and the four roles
      differ in their ninth letter. */
  lemma SamplerNamesDistinct(ts: seq<Texture>, i: nat, j: nat)
    requires i < j < |ts|
    requires Numbered(ts[i].typeName) && Numbered(ts[j].typeName)
    ensures SamplerName(ts, i) != SamplerName(ts, j)
  {
    var a, b := RoleName(ts, i), RoleName(ts, j);
    var t, u := ts[i].typeName, ts[j].typeName;
    if t == u {
      var m, n := CountType(ts, i, t) + 1, CountType(ts, j, t) + 1;
      CountTypeGrows(ts, i, j, t);
      DecimalInjective(m, n);
      assert a[|t|..] == Decimal(m) && b[|t|..] == Decimal(n);
    } else {
      NinthLetterTellsRoles(t, u);
      assert a[8] == t[8] && b[8] == u[8];
    }
    assert SamplerName(ts, i)[9..] == a && SamplerName(ts, j)[9..] == b;
  }

  /** The four numbered roles differ in their ninth letter. */
  lemma NinthLetterTellsRoles(t: string, u: string)
    requires Numbered(t) && Numbered(u) && t != u
    ensures |t| > 8 && |u| > 8 && t[8] != u[8]
  {
    assert DIFFUSE[8] == 'd' && SPECULAR[8] == 's' && NORMAL[8] == 'n' && HEIGHT[8] == 'h';
  }

  /** How many of the first `n` textures of `ts` with `x` inserted at `p`
      have role `t`, when `x` has another role. */
  lemma {:induction false} CountTypeInsert(ts: seq<Texture>, p: nat, x: Texture, n: nat, t: string)
    requires p <= |ts| && n <= |ts| && x.typeName != t
    ensures var us := ts[..p] + [x] + ts[p..];
      CountType(us, if n <= p then n else n + 1, t) == CountType(ts, n, t)
  {
    var us := ts[..p] + [x] + ts[p..];
    if n > 0 {
      CountTypeInsert(ts, p, x, n - 1, t);
      if n <= p {
        assert us[n - 1] == ts[n - 1];
      } else {
        assert us[n] == ts[n - 1];
        if n - 1 == p {
          assert us[p] == x;
        }
      }
    }
  }

  /** Ordinals are counted per role: inserting a texture of another role
      anywhere leaves the sampler name of every texture unchanged. */
  lemma SamplerNameIgnoresOtherRoles(ts: seq<Texture>, p: nat, x: Texture, i: nat)
    requires p <= |ts| && i < |ts| && x.typeName != ts[i].typeName
    ensures var us := ts[..p] + [x] + ts[p..];
      SamplerName(us, if i < p then i else i + 1) == SamplerName(ts, i)
  {
    var us := ts[..p] + [x] + ts[p..];
    var j := if i < p then i else i + 1;
    assert us[j] == ts[i];
    CountTypeInsert(ts, p, x, i, ts[i].typeName);
  }

  /** The calls that upload a mesh of `vertexCount` vertices and `indexCount`
      indices into vertex array `vao`, vertex buffer `vbo` and index buffer
      `ebo`, and describe the vertex layout. */
  function SetupCommands(vao: Name, vbo: Name, ebo: Name, vertexCount: nat, indexCount: nat): seq<Command>
  {
    [ BindVertexArray(vao),
      BindBuffer(ARRAY_BUFFER, vbo),
      BufferData(ARRAY_BUFFER, vertexCount * VERTEX_SIZE),
      BindBuffer(ELEMENT_ARRAY_BUFFER, ebo),
      BufferData(ELEMENT_ARRAY_BUFFER, indexCount * INDEX_SIZE) ]
    + AttributeLayout()
    + [BindVertexArray(0)]
  }

  /** The five vertex attributes: position, normal, texture coordinates,
      tangent and bitangent, each enabled and read from its own slot of the
      vertex, the slots in order and none overlapping the next. */
  function AttributeLayout(): (layout: seq<Command>)
    ensures |layout| == 10
    ensures forall k :: 0 <= k < |layout| ==> layout[k].EnableVertexAttribArray? || layout[k].VertexAttribPointer?
    ensures forall k :: 0 <= k < 5 ==>
      layout[2 * k] == EnableVertexAttribArray(k) &&
      layout[2 * k + 1].VertexAttribPointer? &&
      layout[2 * k + 1].index == k &&
      layout[2 * k + 1].stride == VERTEX_SIZE &&
      0 <= layout[2 * k + 1].offset &&
      layout[2 * k + 1].offset + 4 * layout[2 * k + 1].size <= VERTEX_SIZE
    ensures forall k :: 0 <= k < 4 ==>
      layout[2 * k + 1].offset + 4 * layout[2 * k + 1].size <= layout[2 * k + 3].offset
  {
    [ EnableVertexAttribArray(0), VertexAttribPointer(0, 3, VERTEX_SIZE, 0),
      EnableVertexAttribArray(1), VertexAttribPointer(1, 3, VERTEX_SIZE, 12),
      EnableVertexAttribArray(2), VertexAttribPointer(2, 2, VERTEX_SIZE, 24),
      EnableVertexAttribArray(3), VertexAttribPointer(3, 3, VERTEX_SIZE, 36),
      EnableVertexAttribArray(4), VertexAttribPointer(4, 3, VERTEX_SIZE, 48) ]
  }

  /** Uploading a mesh leaves no vertex array bound, the vertex buffer bound
      to the array-buffer target, and draws nothing. */
  lemma SetupLeavesNothingBound(vao: Name, vbo: Name, ebo: Name, vertexCount: nat, indexCount: nat, init: nat)
    ensures VertexArrayBinding(SetupCommands(vao, vbo, ebo, vertexCount, indexCount), init) == 0
    ensures ArrayBufferBinding(SetupCommands(vao, vbo, ebo, vertexCount, indexCount), init) == vbo
    ensures DrawCalls(SetupCommands(vao, vbo, ebo, vertexCount, indexCount)) == []
  {
    var cmds := SetupCommands(vao, vbo, ebo, vertexCount, indexCount);
    var layout := AttributeLayout();
    forall k | 0 <= k < |cmds|
      ensures !IsDraw(cmds[k])
      ensures 1 < k ==> !(cmds[k].BindBuffer? && cmds[k].target == ARRAY_BUFFER)
      ensures k < |cmds| - 1 ==> !cmds[k].BindVertexArray? || k == 0
    {
      if 5 <= k < 15 {
        assert cmds[k] == layout[k - 5];
      }
    }
    NoDrawCalls(cmds);
    ArrayBufferLast(cmds, 1, init);
    VertexArrayLast(cmds, |cmds| - 1, init);
  }

  /** One step of the sampler naming: a numbered role takes its counter as
      a suffix and advances it; any other role is used as it is. */
  method NumberRole(typeName: string, diffuseNr: nat, specularNr: nat, normalNr: nat, heightNr: nat)
    returns (name: string, diffuseNr': nat, specularNr': nat, normalNr': nat, heightNr': nat)
    ensures diffuseNr' == diffuseNr + (if typeName == DIFFUSE then 1 else 0)
    ensures specularNr' == specularNr + (if typeName == SPECULAR then 1 else 0)
    ensures normalNr' == normalNr + (if typeName == NORMAL then 1 else 0)
    ensures heightNr' == heightNr + (if typeName == HEIGHT then 1 else 0)
    ensures name == typeName + (if typeName == DIFFUSE then Decimal(diffuseNr)
                                else if typeName == SPECULAR then Decimal(specularNr)
                                else if typeName == NORMAL then Decimal(normalNr)
                                else if typeName == HEIGHT then Decimal(heightNr)
                                else "")
  {
    RolesDistinct();
    diffuseNr', specularNr', normalNr', heightNr' := diffuseNr, specularNr, normalNr, heightNr;
    name := typeName;
    if name == DIFFUSE {
      name := name + Decimal(diffuseNr');
      diffuseNr' := diffuseNr' + 1;
    } else if name == SPECULAR {
      name := name + Decimal(specularNr');
      specularNr' := specularNr' + 1;
    } else if name == NORMAL {
      name := name + Decimal(normalNr');
      normalNr' := normalNr' + 1;
    } else if name == HEIGHT {
      name := name + Decimal(heightNr');
      heightNr' := heightNr' + 1;
    } else {
      assert name + "" == name;
    }
  }

  /** With each counter one past the number of earlier textures of its
      role, the name the counters give texture `i` is its role name. */
  lemma CountersGiveRoleName(ts: seq<Texture>, i: nat, diffuseNr: nat, specularNr: nat, normalNr: nat, heightNr: nat)
    requires i < |ts|
    requires diffuseNr == CountType(ts, i, DIFFUSE) + 1
    requires specularNr == CountType(ts, i, SPECULAR) + 1
    requires normalNr == CountType(ts, i, NORMAL) + 1
    requires heightNr == CountType(ts, i, HEIGHT) + 1
    ensures var t := ts[i].typeName;
      t + (if t == DIFFUSE then Decimal(diffuseNr)
           else if t == SPECULAR then Decimal(specularNr)
           else if t == NORMAL then Decimal(normalNr)
           else if t == HEIGHT then Decimal(heightNr)
           else "")
      == RoleName(ts, i)
  {
    var t := ts[i].typeName;
    if t == DIFFUSE {
      assert Numbered(t) && CountType(ts, i, t) + 1 == diffuseNr;
    } else if t == SPECULAR {
      RolesDistinct();
      assert Numbered(t) && CountType(ts, i, t) + 1 == specularNr;
    } else if t == NORMAL {
      RolesDistinct();
      assert Numbered(t) && CountType(ts, i, t) + 1 == normalNr;
    } else if t == HEIGHT {
      RolesDistinct();
      assert Numbered(t) && CountType(ts, i, t) + 1 == heightNr;
    } else {
      assert !Numbered(t);
    }
  }

  /** The calls that draw `count` indices from vertex array `vao` once the
      textures are bound, and reset the bindings after. */
  function ElementDraw(vao: Name, count: nat): seq<Command>
  {
    [BindVertexArray(vao), DrawElements(TRIANGLES, count, UNSIGNED_INT), BindVertexArray(0), ActiveTexture(0)]
  }

  /** Drawing a mesh's elements is one indexed draw of all its indices, and
      leaves no vertex array bound and unit 0 active. */
  lemma ElementDrawLeavesNothingBound(vao: Name, count: nat, init: nat)
    ensures DrawCalls(ElementDraw(vao, count)) == [DrawElements(TRIANGLES, count, UNSIGNED_INT)]
    ensures VertexArrayBinding(ElementDraw(vao, count), init) == 0
    ensures ActiveUnit(ElementDraw(vao, count), init) == 0
  {
    var cmds := ElementDraw(vao, count);
    OneDrawCall(cmds, 1);
    VertexArrayLast(cmds, 2, init);
    ActiveUnitLast(cmds, 3, init);
  }

  /** The calls drawing a mesh: its textures bound, then its elements. */
  function DrawCommands(mesh: Mesh): seq<Command>
  {
    TextureBindings(mesh.textures, |mesh.textures|) + ElementDraw(mesh.vao, |mesh.indices|)
  }

  /** Drawing a mesh is one indexed draw of all its indices, and leaves no
      vertex array bound and unit 0 active, whatever was bound before. */
  lemma DrawCommandsDrawOnce(mesh: Mesh, init: nat)
    ensures DrawCalls(DrawCommands(mesh)) == [DrawElements(TRIANGLES, |mesh.indices|, UNSIGNED_INT)]
    ensures VertexArrayBinding(DrawCommands(mesh), init) == 0
    ensures ActiveUnit(DrawCommands(mesh), init) == 0
  {
    var bindings := TextureBindings(mesh.textures, |mesh.textures|);
    var tail := ElementDraw(mesh.vao, |mesh.indices|);
    BindingsDrawNothing(mesh.textures, |mesh.textures|);
    ElementDrawLeavesNothingBound(mesh.vao, |mesh.indices|, ActiveUnit(bindings, init));
    ElementDrawLeavesNothingBound(mesh.vao, |mesh.indices|, VertexArrayBinding(bindings, init));
    DrawCallsCompose(bindings, tail);
    BindingsCompose(bindings, tail, init);
  }

  /** Binding a mesh's vertex array and drawing `amount` instances of its
      elements; the vertex array stays bound. */
  function InstancedElementDraw(vao: Name, count: nat, amount: int): seq<Command>
  {
    [BindVertexArray(vao), DrawElementsInstanced(TRIANGLES, count, UNSIGNED_INT, amount)]
  }

  /** An instanced element draw is one instanced draw and leaves `vao` bound. */
  lemma InstancedElementDrawKeepsArray(vao: Name, count: nat, amount: int, init: nat)
    ensures DrawCalls(InstancedElementDraw(vao, count, amount)) == [DrawElementsInstanced(TRIANGLES, count, UNSIGNED_INT, amount)]
    ensures VertexArrayBinding(InstancedElementDraw(vao, count, amount), init) == vao
  {
    var cmds := InstancedElementDraw(vao, count, amount);
    OneDrawCall(cmds, 1);
    VertexArrayLast(cmds, 0, init);
  }

  /** The calls drawing `amount` instances of a mesh: its textures bound,
      then its vertex array, which stays bound. */
  function InstancedCommands(mesh: Mesh, amount: int): seq<Command>
  {
    TextureBindings(mesh.textures, |mesh.textures|) + InstancedElementDraw(mesh.vao, |mesh.indices|, amount)
  }

  /** Instanced drawing of a mesh is one instanced draw of all its indices,
      and leaves the mesh's vertex array bound. */
  lemma InstancedCommandsDrawOnce(mesh: Mesh, amount: int, init: nat)
    ensures DrawCalls(InstancedCommands(mesh, amount)) == [DrawElementsInstanced(TRIANGLES, |mesh.indices|, UNSIGNED_INT, amount)]
    ensures VertexArrayBinding(InstancedCommands(mesh, amount), init) == mesh.vao
  {
    var bindings := TextureBindings(mesh.textures, |mesh.textures|);
    var tail := InstancedElementDraw(mesh.vao, |mesh.indices|, amount);
    BindingsDrawNothing(mesh.textures, |mesh.textures|);
    InstancedElementDrawKeepsArray(mesh.vao, |mesh.indices|, amount, VertexArrayBinding(bindings, init));
    DrawCallsCompose(bindings, tail);
    BindingsCompose(bindings, tail, init);
  }

  /** A mesh as the renderer keeps it: its geometry and textures never
      change after construction, nor do the three names it was uploaded to. */
  class Mesh {
    const vertices: seq<Vertex>
    const indices: seq<nat>
    const textures: seq<Texture>
    const vao: Name
    const vbo: Name
    const ebo: Name

    /** Stores the geometry and textures as given and uploads them, naming
        the vertex array, vertex buffer and index buffer in that order. */
    constructor (vertices: seq<Vertex>, indices: seq<nat>, textures: seq<Texture>, gl: Context)
      modifies gl
      ensures this.vertices == vertices && this.indices == indices && this.textures == textures
      ensures vao == old(gl.next) && vbo == vao + 1 && ebo == vao + 2 && gl.next == old(gl.next) + 3
      ensures gl.trace == old(gl.trace) + SetupCommands(vao, vbo, ebo, |vertices|, |indices|)
    {
      this.vertices := vertices;
      this.indices := indices;
      this.textures := textures;
      var a := gl.Gen();
      var b := gl.Gen();
      var e := gl.Gen();
      vao, vbo, ebo := a, b, e;
      new;
      gl.Issue(SetupCommands(a, b, e, |vertices|, |indices|));
    }

    /** Binds every texture to its unit under its sampler name; the role
        counters start afresh on every call. */
    method InitDraw() returns (cmds: seq<Command>)
      ensures cmds == TextureBindings(textures, |textures|)
    {
      var diffuseNr, specularNr, normalNr, heightNr := 1, 1, 1, 1;
      cmds := [];
      var i := 0;
      while i < |textures|
        invariant i <= |textures|
        invariant diffuseNr == CountType(textures, i, DIFFUSE) + 1
        invariant specularNr == CountType(textures, i, SPECULAR) + 1
        invariant normalNr == CountType(textures, i, NORMAL) + 1
        invariant heightNr == CountType(textures, i, HEIGHT) + 1
        invariant cmds == TextureBindings(textures, i)
      {
        CountersGiveRoleName(textures, i, diffuseNr, specularNr, normalNr, heightNr);
        var name;
        name, diffuseNr, specularNr, normalNr, heightNr :=
          NumberRole(textures[i].typeName, diffuseNr, specularNr, normalNr, heightNr);
        assert name == RoleName(textures, i);
        cmds := cmds + [ActiveTexture(i), SetInt("material." + name, i), BindTexture(textures[i].id)];
        i := i + 1;
      }
    }

    /** Binds the textures, issues one indexed draw of all the indices from
        the mesh's vertex array, and leaves no vertex array bound and unit 0
        active. */
    method Draw() returns (cmds: seq<Command>)
      ensures cmds == DrawCommands(this)
      ensures DrawCalls(cmds) == [DrawElements(TRIANGLES, |indices|, UNSIGNED_INT)]
      ensures VertexArrayBinding(cmds, 0) == 0
      ensures ActiveUnit(cmds, 0) == 0
    {
      var bindings := InitDraw();
      cmds := bindings + ElementDraw(vao, |indices|);
      DrawCommandsDrawOnce(this, 0);
    }
  }
}
