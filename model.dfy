// A model loaded from a scene file: the importer's scene tree is walked in
// pre-order, every scene mesh it names becomes a `Mesh` with its vertices,
// its faces' indices laid end to end and the textures of its material.
// Textures are loaded through a cache keyed by file path, so a file that
// several meshes share is loaded once.

module Models {
  import opened Wrappers
  import opened GL
  import opened Vectors
  import opened FileUtils
  import opened Meshes

  // The scene as the importer hands it over, after triangulation and
  // tangent generation.

  datatype AiFace = AiFace(indices: seq<nat>)

  datatype AiTextureType = Diffuse | Specular | Ambient | Emissive | Height | Normals | Other

  /** A material: for each texture type, the file paths of its slots. */
  datatype AiMaterial = AiMaterial(textures: map<AiTextureType, seq<string>>)

  /** A mesh of the scene; `texCoords` is the first texture-coordinate set,
      absent when the mesh has none. */
  datatype AiMesh = AiMesh(vertices: seq<Vec3>, normals: seq<Vec3>, texCoords: Option<seq<Vec3>>,
                           tangents: seq<Vec3>, bitangents: seq<Vec3>, faces: seq<AiFace>,
                           materialIndex: nat)

  /** A node names meshes of the scene by index and has child nodes. */
  datatype AiNode = AiNode(meshes: seq<nat>, children: seq<AiNode>)

  datatype AiScene = AiScene(incomplete: bool, root: Option<AiNode>, meshes: seq<AiMesh>, materials: seq<AiMaterial>)

  /** The paths of a material's slots of one texture type, in slot order. */
  function TexturePaths(mat: AiMaterial, t: AiTextureType): seq<string>
  {
    if t in mat.textures then mat.textures[t] else []
  }

  /** One normal, tangent, bitangent and (when present) texture coordinate
      per vertex. */
  predicate PerVertex(m: AiMesh)
  {
    |m.normals| == |m.vertices| && |m.tangents| == |m.vertices| && |m.bitangents| == |m.vertices| &&
    (m.texCoords.Some? ==> |m.texCoords.value| == |m.vertices|)
  }

  /** What the importer guarantees of a mesh: its per-vertex data, and a
      material that exists. */
  predicate MeshOk(m: AiMesh, materialCount: nat)
  {
    PerVertex(m) && m.materialIndex < materialCount
  }

  /** Every mesh index in the subtree names a mesh of the scene. */
  predicate NodeOk(node: AiNode, meshCount: nat)
  {
    (forall k :: 0 <= k < |node.meshes| ==> node.meshes[k] < meshCount) &&
    (forall c :: c in node.children ==> NodeOk(c, meshCount))
  }

  predicate SceneOk(scene: AiScene)
  {
    (forall k :: 0 <= k < |scene.meshes| ==> MeshOk(scene.meshes[k], |scene.materials|)) &&
    (scene.root.Some? ==> NodeOk(scene.root.value, |scene.meshes|))
  }

  // ---------------------------------------------------------------------
  // The directory of a model file

  /** The position of the last '/' among the first `n` characters. */
  function LastSlash(path: string, n: nat): (r: Option<nat>)
    requires n <= |path|
    ensures r.None? ==> forall k :: 0 <= k < n ==> path[k] != '/'
    ensures r.Some? ==> (r.value < n && path[r.value] == '/' &&
                         forall k :: r.value < k < n ==> path[k] != '/')
  {
    if n == 0 then None
    else if path[n - 1] == '/' then Some(n - 1)
    else LastSlash(path, n - 1)
  }

  /** The directory textures are looked up in: what precedes the last '/'
      of the model's path, or the whole path when it has none. */
  function Directory(path: string): (dir: string)
    ensures '/' !in path ==> dir == path
    ensures '/' in path ==> (|dir| < |path| && path[..|dir|] == dir && path[|dir|] == '/' &&
                             '/' !in path[|dir| + 1..])
  {
    match LastSlash(path, |path|)
    case None => path
    case Some(k) =>
      path[..k]
  }

  /** The directory of a texture file named under `dir` is `dir` again,
      whenever the texture's own path has no '/'. */
  lemma DirectoryOfTextureFile(dir: string, path: string)
    requires '/' !in path
    ensures Directory(TextureFilename(dir, path)) == dir
  {
    var name := TextureFilename(dir, path);
    assert name[|dir|] == '/';
    assert '/' in name;
  }

  // ---------------------------------------------------------------------
  // Geometry of one mesh

  /** All face indices, face after face, each face's in its own order. */
  function Flatten(faces: seq<AiFace>, n: nat): seq<nat>
    requires n <= |faces|
  {
    if n == 0 then [] else Flatten(faces, n - 1) + faces[n - 1].indices
  }

  predicate Triangulated(faces: seq<AiFace>)
  {
    forall k :: 0 <= k < |faces| ==> |faces[k].indices| == 3
  }

  /** After triangulation, corner `c` of face `i` is index `3 * i + c`. */
  lemma {:induction false} FlattenTriangles(faces: seq<AiFace>, n: nat, i: nat, c: nat)
    requires n <= |faces| && Triangulated(faces) && i < n && c < 3
    ensures |Flatten(faces, n)| == 3 * n
    ensures Flatten(faces, n)[3 * i + c] == faces[i].indices[c]
  {
    FlattenLength(faces, n - 1);
    if i < n - 1 {
      FlattenTriangles(faces, n - 1, i, c);
    }
  }

  lemma {:induction false} FlattenLength(faces: seq<AiFace>, n: nat)
    requires n <= |faces| && Triangulated(faces)
    ensures |Flatten(faces, n)| == 3 * n
  {
    if n > 0 {
      FlattenLength(faces, n - 1);
    }
  }

  /** Vertex `i` of a scene mesh as the renderer stores it; a mesh without
      texture coordinates gets zero ones. */
  function VertexOf(m: AiMesh, i: nat): Vertex
    requires PerVertex(m) && i < |m.vertices|
  {
    Vertex(m.vertices[i], m.normals[i],
           if m.texCoords.Some? then m.texCoords.value[i] else ZERO,
           m.tangents[i], m.bitangents[i])
  }

  // ---------------------------------------------------------------------
  // The texture cache

  /** The cache, the name generator and the calls issued so far. */
  datatype Loader = Loader(cache: seq<Texture>, next: Name, trace: seq<Command>)

  /** The first cache entry at or after `j` for `path`. */
  function FindFrom(cache: seq<Texture>, path: string, j: nat): (r: Option<nat>)
    requires j <= |cache|
    ensures r.Some? ==> j <= r.value < |cache|
    decreases |cache| - j
  {
    if j == |cache| then None
    else if cache[j].path == path then Some(j)
    else FindFrom(cache, path, j + 1)
  }

  lemma {:induction false} FindFromFinds(cache: seq<Texture>, path: string, j: nat)
    requires j <= |cache|
    ensures FindFrom(cache, path, j).None? ==> forall k :: j <= k < |cache| ==> cache[k].path != path
    ensures FindFrom(cache, path, j).Some? ==>
      j <= FindFrom(cache, path, j).value < |cache| && cache[FindFrom(cache, path, j).value].path == path
    decreases |cache| - j
  {
    if j < |cache| && cache[j].path != path {
      FindFromFinds(cache, path, j + 1);
    }
  }

  /** One material slot: the cached texture for `path` if there is one,
      otherwise a texture loaded from `directory/path`, tagged with
      `typeName` and `path` and appended to the cache. */
  function LoadSlot(st: Loader, path: string, typeName: string, directory: string,
                    images: map<string, Image>): (Loader, Texture)
  {
    match FindFrom(st.cache, path, 0)
    case Some(k) => (st, st.cache[k])
    case None =>
      var t := Texture(st.next, typeName, path);
      (Loader(st.cache + [t], st.next + 1,
              st.trace + LoadCommands(st.next, TextureFilename(directory, path), false, images)), t)
  }

  /** The first `n` slots, loaded one after the other. */
  function LoadSlots(st: Loader, paths: seq<string>, n: nat, typeName: string, directory: string,
                     images: map<string, Image>): (r: (Loader, seq<Texture>))
    requires n <= |paths|
    ensures |r.1| == n
  {
    if n == 0 then (st, [])
    else
      var (st', ts) := LoadSlots(st, paths, n - 1, typeName, directory, images);
      var (st'', t) := LoadSlot(st', paths[n - 1], typeName, directory, images);
      (st'', ts + [t])
  }

  /** Every slot of one texture type of `mat`. */
  function LoadType(st: Loader, mat: AiMaterial, t: AiTextureType, typeName: string, directory: string,
                    images: map<string, Image>): (Loader, seq<Texture>)
  {
    LoadSlots(st, TexturePaths(mat, t), |TexturePaths(mat, t)|, typeName, directory, images)
  }

  /** A mesh's textures: its material's diffuse maps, then its specular
      maps, then its height maps as normal maps, then its ambient maps as
      height maps. */
  function LoadMaterial(st: Loader, mat: AiMaterial, directory: string, images: map<string, Image>)
    : (Loader, seq<Texture>)
  {
    var (s1, diffuse) := LoadType(st, mat, Diffuse, DIFFUSE, directory, images);
    var (s2, specular) := LoadType(s1, mat, Specular, SPECULAR, directory, images);
    var (s3, normal) := LoadType(s2, mat, Height, NORMAL, directory, images);
    var (s4, height) := LoadType(s3, mat, Ambient, HEIGHT, directory, images);
    (s4, diffuse + specular + normal + height)
  }

  /** The paths a material's textures come from, in the order a mesh lists
      them. */
  function MaterialPaths(mat: AiMaterial): seq<string>
  {
    TexturePaths(mat, Diffuse) + TexturePaths(mat, Specular) + TexturePaths(mat, Height) + TexturePaths(mat, Ambient)
  }

  /** The cache never holds two entries for one path, and every name in it
      was handed out before `next`. */
  ghost predicate CacheOk(st: Loader)
  {
    (forall i, j :: 0 <= i < j < |st.cache| ==> st.cache[i].path != st.cache[j].path) &&
    (forall i :: 0 <= i < |st.cache| ==> st.cache[i].id < st.next)
  }

  /** `st'` only adds to `st`: the cache and the trace only grow, and the
      generator only moves on. */
  ghost predicate Grows(st: Loader, st': Loader)
  {
    st.cache <= st'.cache && st.next <= st'.next && st.trace <= st'.trace
  }

  /** A slot whose path is cached gets the cached texture, and nothing is
      loaded; a slot whose path is not cached gets a freshly named texture
      with the requested type and that path, which is appended to the cache
      and loaded from the model's directory. */
  lemma LoadSlotCases(st: Loader, path: string, typeName: string, directory: string, images: map<string, Image>)
    ensures var (st', t) := LoadSlot(st, path, typeName, directory, images);
      t.path == path &&
      ((exists k :: 0 <= k < |st.cache| && st.cache[k].path == path) ==>
        st' == st && t in st.cache) &&
      ((forall k :: 0 <= k < |st.cache| ==> st.cache[k].path != path) ==>
        t == Texture(st.next, typeName, path) && st'.cache == st.cache + [t] && st'.next == st.next + 1 &&
        st'.trace == st.trace + LoadCommands(st.next, TextureFilename(directory, path), false, images))
  {
    FindFromFinds(st.cache, path, 0);
  }

  /** Loading a slot keeps the cache free of duplicate paths and its names
      issued, and only adds to the state. */
  lemma LoadSlotKeepsCache(st: Loader, path: string, typeName: string, directory: string, images: map<string, Image>)
    requires CacheOk(st)
    ensures CacheOk(LoadSlot(st, path, typeName, directory, images).0)
    ensures Grows(st, LoadSlot(st, path, typeName, directory, images).0)
  {
    FindFromFinds(st.cache, path, 0);
  }

  /** Loading slots keeps the cache free of duplicates and only adds to the
      state. */
  lemma {:induction false} LoadSlotsKeepCache(st: Loader, paths: seq<string>, n: nat, typeName: string,
                                              directory: string, images: map<string, Image>)
    requires n <= |paths| && CacheOk(st)
    ensures CacheOk(LoadSlots(st, paths, n, typeName, directory, images).0)
    ensures Grows(st, LoadSlots(st, paths, n, typeName, directory, images).0)
  {
    if n > 0 {
      var s1 := LoadSlots(st, paths, n - 1, typeName, directory, images).0;
      LoadSlotsKeepCache(st, paths, n - 1, typeName, directory, images);
      LoadSlotKeepsCache(s1, paths[n - 1], typeName, directory, images);
    }
  }

  /** Loading slots returns one texture per slot, in slot order, each with
      its slot's path. */
  lemma {:induction false} LoadSlotsFollowSlots(st: Loader, paths: seq<string>, n: nat, typeName: string,
                                                directory: string, images: map<string, Image>, k: nat)
    requires k < n <= |paths|
    ensures LoadSlots(st, paths, n, typeName, directory, images).1[k].path == paths[k]
  {
    var (s1, ts) := LoadSlots(st, paths, n - 1, typeName, directory, images);
    if k < n - 1 {
      LoadSlotsFollowSlots(st, paths, n - 1, typeName, directory, images, k);
    } else {
      FindFromFinds(s1.cache, paths[k], 0);
    }
  }

  /** Loading a material keeps the cache free of duplicates and only adds
      to the state. */
  lemma LoadMaterialKeepsCache(st: Loader, mat: AiMaterial, directory: string, images: map<string, Image>)
    requires CacheOk(st)
    ensures CacheOk(LoadMaterial(st, mat, directory, images).0)
    ensures Grows(st, LoadMaterial(st, mat, directory, images).0)
  {
    var s1 := LoadType(st, mat, Diffuse, DIFFUSE, directory, images).0;
    var s2 := LoadType(s1, mat, Specular, SPECULAR, directory, images).0;
    var s3 := LoadType(s2, mat, Height, NORMAL, directory, images).0;
    LoadSlotsKeepCache(st, TexturePaths(mat, Diffuse), |TexturePaths(mat, Diffuse)|, DIFFUSE, directory, images);
    LoadSlotsKeepCache(s1, TexturePaths(mat, Specular), |TexturePaths(mat, Specular)|, SPECULAR, directory, images);
    LoadSlotsKeepCache(s2, TexturePaths(mat, Height), |TexturePaths(mat, Height)|, NORMAL, directory, images);
    LoadSlotsKeepCache(s3, TexturePaths(mat, Ambient), |TexturePaths(mat, Ambient)|, HEIGHT, directory, images);
  }

  lemma LoadMaterialLength(st: Loader, mat: AiMaterial, directory: string, images: map<string, Image>)
    ensures |LoadMaterial(st, mat, directory, images).1| == |MaterialPaths(mat)|
  {
  }

  /** A mesh gets one texture per slot of its material, with the slot's
      path: diffuse slots first, then specular, then height, then ambient. */
  lemma LoadMaterialFollowsSlots(st: Loader, mat: AiMaterial, directory: string, images: map<string, Image>, k: nat)
    requires k < |MaterialPaths(mat)|
    ensures LoadMaterial(st, mat, directory, images).1[k].path == MaterialPaths(mat)[k]
  {
    var (s1, a) := LoadType(st, mat, Diffuse, DIFFUSE, directory, images);
    var (s2, b) := LoadType(s1, mat, Specular, SPECULAR, directory, images);
    var (s3, c) := LoadType(s2, mat, Height, NORMAL, directory, images);
    var (s4, d) := LoadType(s3, mat, Ambient, HEIGHT, directory, images);
    var pa, pb, pc, pd := TexturePaths(mat, Diffuse), TexturePaths(mat, Specular), TexturePaths(mat, Height), TexturePaths(mat, Ambient);
    var ts, ps := a + b + c + d, pa + pb + pc + pd;
    if k < |a| {
      LoadSlotsFollowSlots(st, pa, |pa|, DIFFUSE, directory, images, k);
      assert ts[k] == a[k] && ps[k] == pa[k];
    } else if k < |a| + |b| {
      LoadSlotsFollowSlots(s1, pb, |pb|, SPECULAR, directory, images, k - |a|);
      assert ts[k] == b[k - |a|] && ps[k] == pb[k - |a|];
    } else if k < |a| + |b| + |c| {
      LoadSlotsFollowSlots(s2, pc, |pc|, NORMAL, directory, images, k - |a| - |b|);
      assert ts[k] == c[k - |a| - |b|] && ps[k] == pc[k - |a| - |b|];
    } else {
      LoadSlotsFollowSlots(s3, pd, |pd|, HEIGHT, directory, images, k - |a| - |b| - |c|);
      assert ts[k] == d[k - |a| - |b| - |c|] && ps[k] == pd[k - |a| - |b| - |c|];
    }
  }

  // ---------------------------------------------------------------------
  // The scene tree

  /** The scene meshes a subtree names, in pre-order: the node's own meshes
      in order, then each child's subtree, left to right. */
  function PreOrder(node: AiNode): seq<nat>
    decreases node, 1
  {
    node.meshes + Forest(node.children, |node.children|)
  }

  /** The pre-order mesh lists of the first `n` subtrees, one after the
      other. */
  function Forest(children: seq<AiNode>, n: nat): seq<nat>
    requires n <= |children|
    decreases children, n
  {
    if n == 0 then [] else Forest(children, n - 1) + PreOrder(children[n - 1])
  }

  /** `mesh` was built from scene mesh `m` with material `mat`: the same
      vertices, the faces' indices laid end to end, and one texture per
      material slot, with the slot's path. */
  ghost predicate Built(mesh: Mesh, m: AiMesh, mat: AiMaterial)
  {
    PerVertex(m) &&
    |mesh.vertices| == |m.vertices| &&
    (forall k :: 0 <= k < |m.vertices| ==> mesh.vertices[k] == VertexOf(m, k)) &&
    mesh.indices == Flatten(m.faces, |m.faces|) &&
    |mesh.textures| == |MaterialPaths(mat)| &&
    (forall k :: 0 <= k < |mesh.textures| ==> mesh.textures[k].path == MaterialPaths(mat)[k])
  }

  /** From position `from` on, `meshes` are built from the scene meshes
      `order` names, in that order, and nothing follows them. */
  ghost predicate BuiltInOrder(meshes: seq<Mesh>, from: nat, order: seq<nat>, scene: AiScene)
  {
    |meshes| == from + |order| &&
    forall k :: 0 <= k < |order| ==> BuiltFrom(meshes[from + k], order[k], scene)
  }

  /** `mesh` was built from scene mesh `index` and its material. */
  ghost predicate BuiltFrom(mesh: Mesh, index: nat, scene: AiScene)
  {
    index < |scene.meshes| &&
    scene.meshes[index].materialIndex < |scene.materials| &&
    Built(mesh, scene.meshes[index], scene.materials[scene.meshes[index].materialIndex])
  }

  lemma BuiltInOrderAppend(meshes: seq<Mesh>, meshes': seq<Mesh>, from: nat, a: seq<nat>, b: seq<nat>, scene: AiScene)
    requires BuiltInOrder(meshes, from, a, scene)
    requires meshes <= meshes' && BuiltInOrder(meshes', from + |a|, b, scene)
    ensures BuiltInOrder(meshes', from, a + b, scene)
  {
    var ab := a + b;
    forall k | 0 <= k < |ab|
      ensures BuiltFrom(meshes'[from + k], ab[k], scene)
    {
      if k < |a| {
        assert ab[k] == a[k] && meshes'[from + k] == meshes[from + k];
      } else {
        assert ab[k] == b[k - |a|] && from + k == from + |a| + (k - |a|);
      }
    }
  }

  /** The pre-order list of the first `i + 1` subtrees extends that of the
      first `i` by subtree `i`'s. */
  lemma ForestStep(node: AiNode, i: nat)
    requires i < |node.children|
    ensures node.meshes + Forest(node.children, i + 1) == node.meshes + Forest(node.children, i) + PreOrder(node.children[i])
  {
  }

  // ---------------------------------------------------------------------
  // Drawing

  /** The calls drawing the first `n` meshes, one mesh after the other. */
  function DrawMeshes(meshes: seq<Mesh>, n: nat): seq<Command>
    requires n <= |meshes|
  {
    if n == 0 then [] else DrawMeshes(meshes, n - 1) + DrawCommands(meshes[n - 1])
  }

  /** One indexed draw of all its indices per mesh, in mesh order. */
  function ElementDraws(meshes: seq<Mesh>, n: nat): (draws: seq<Command>)
    requires n <= |meshes|
    ensures |draws| == n
  {
    if n == 0 then [] else ElementDraws(meshes, n - 1) + [DrawElements(TRIANGLES, |meshes[n - 1].indices|, UNSIGNED_INT)]
  }

  /** The calls drawing `amount` instances of each of the first `n` meshes. */
  function InstancedDraws(meshes: seq<Mesh>, n: nat, amount: int): seq<Command>
    requires n <= |meshes|
  {
    if n == 0 then [] else InstancedDraws(meshes, n - 1, amount) + InstancedCommands(meshes[n - 1], amount)
  }

  /** One instanced draw of all its indices per mesh, in mesh order. */
  function InstancedElementDraws(meshes: seq<Mesh>, n: nat, amount: int): (draws: seq<Command>)
    requires n <= |meshes|
    ensures |draws| == n
  {
    if n == 0 then []
    else InstancedElementDraws(meshes, n - 1, amount) + [DrawElementsInstanced(TRIANGLES, |meshes[n - 1].indices|, UNSIGNED_INT, amount)]
  }

  /** Drawing meshes draws each once, in order, and leaves no vertex array
      bound and unit 0 active. */
  lemma {:induction false} DrawMeshesDrawEach(meshes: seq<Mesh>, n: nat)
    requires n <= |meshes|
    ensures DrawCalls(DrawMeshes(meshes, n)) == ElementDraws(meshes, n)
    ensures VertexArrayBinding(DrawMeshes(meshes, n), 0) == 0
    ensures ActiveUnit(DrawMeshes(meshes, n), 0) == 0
  {
    if n > 0 {
      var before := DrawMeshes(meshes, n - 1);
      DrawMeshesDrawEach(meshes, n - 1);
      DrawCommandsDrawOnce(meshes[n - 1], 0);
      DrawCallsCompose(before, DrawCommands(meshes[n - 1]));
      BindingsCompose(before, DrawCommands(meshes[n - 1]), 0);
    }
  }

  /** Instanced drawing draws each mesh once, in order, and leaves the last
      mesh's vertex array bound. */
  lemma {:induction false} InstancedDrawsDrawEach(meshes: seq<Mesh>, n: nat, amount: int)
    requires n <= |meshes|
    ensures DrawCalls(InstancedDraws(meshes, n, amount)) == InstancedElementDraws(meshes, n, amount)
    ensures n > 0 ==> VertexArrayBinding(InstancedDraws(meshes, n, amount), 0) == meshes[n - 1].vao
  {
    if n > 0 {
      var before := InstancedDraws(meshes, n - 1, amount);
      var vao := VertexArrayBinding(before, 0);
      InstancedDrawsDrawEach(meshes, n - 1, amount);
      InstancedCommandsDrawOnce(meshes[n - 1], amount, vao);
      DrawCallsCompose(before, InstancedCommands(meshes[n - 1], amount));
      BindingsCompose(before, InstancedCommands(meshes[n - 1], amount), 0);
    }
  }

  // ---------------------------------------------------------------------
  // The model

  class Model {
    var meshes: seq<Mesh>
    var texturesLoaded: seq<Texture>
    var directory: string

    /** The cache, the name generator and the calls issued so far. */
    ghost function State(gl: Context): Loader
      reads this, gl
    {
      Loader(texturesLoaded, gl.next, gl.trace)
    }

    /** Loads the model at `path`, of which the importer made `scene`: a
        missing, incomplete or rootless scene leaves the model empty;
        otherwise the directory is taken from the path and the scene tree
        is walked from its root. */
    constructor (path: string, scene: Option<AiScene>, images: map<string, Image>, gl: Context)
      requires scene.Some? ==> SceneOk(scene.value)
      modifies gl
      ensures scene.None? || scene.value.incomplete || scene.value.root.None? ==>
        meshes == [] && texturesLoaded == [] && directory == "" && gl.next == old(gl.next) && gl.trace == old(gl.trace)
      ensures scene.Some? && !scene.value.incomplete && scene.value.root.Some? ==>
        directory == Directory(path) &&
        BuiltInOrder(meshes, 0, PreOrder(scene.value.root.value), scene.value) &&
        CacheOk(State(gl)) && old(gl.next) <= gl.next && old(gl.trace) <= gl.trace
    {
      meshes := [];
      texturesLoaded := [];
      directory := "";
      new;
      if scene.None? || scene.value.incomplete || scene.value.root.None? {
        return;
      }
      directory := Directory(path);
      ProcessNode(scene.value.root.value, scene.value, images, gl);
    }

    /** Appends, in pre-order, one mesh per scene mesh the subtree names. */
    method ProcessNode(node: AiNode, scene: AiScene, images: map<string, Image>, gl: Context)
      requires SceneOk(scene) && NodeOk(node, |scene.meshes|)
      requires CacheOk(State(gl))
      modifies this`meshes, this`texturesLoaded, gl
      ensures old(meshes) <= meshes
      ensures BuiltInOrder(meshes, |old(meshes)|, PreOrder(node), scene)
      ensures CacheOk(State(gl)) && Grows(old(State(gl)), State(gl))
      decreases node
    {
      ghost var start := meshes;
      ProcessMeshes(node.meshes, scene, images, gl);
      var i := 0;
      while i < |node.children|
        invariant i <= |node.children|
        invariant start <= meshes
        invariant BuiltInOrder(meshes, |start|, node.meshes + Forest(node.children, i), scene)
        invariant CacheOk(State(gl)) && Grows(old(State(gl)), State(gl))
      {
        ghost var before := meshes;
        assert node.children[i] in node.children;
        ProcessNode(node.children[i], scene, images, gl);
        BuiltInOrderAppend(before, meshes, |start|, node.meshes + Forest(node.children, i), PreOrder(node.children[i]), scene);
        ForestStep(node, i);
        i := i + 1;
      }
    }

    /** Appends one mesh per scene mesh `indices` names, in order. */
    method ProcessMeshes(indices: seq<nat>, scene: AiScene, images: map<string, Image>, gl: Context)
      requires SceneOk(scene) && forall k :: 0 <= k < |indices| ==> indices[k] < |scene.meshes|
      requires CacheOk(State(gl))
      modifies this`meshes, this`texturesLoaded, gl
      ensures old(meshes) <= meshes
      ensures BuiltInOrder(meshes, |old(meshes)|, indices, scene)
      ensures CacheOk(State(gl)) && Grows(old(State(gl)), State(gl))
    {
      ghost var start := meshes;
      var i := 0;
      while i < |indices|
        invariant i <= |indices|
        invariant start <= meshes
        invariant BuiltInOrder(meshes, |start|, indices[..i], scene)
        invariant CacheOk(State(gl)) && Grows(old(State(gl)), State(gl))
      {
        AddMesh(indices[i], scene, images, gl);
        assert indices[..i + 1] == indices[..i] + [indices[i]];
        i := i + 1;
      }
      assert indices[..i] == indices;
    }

    /** Appends the mesh built from scene mesh `index`. */
    method AddMesh(index: nat, scene: AiScene, images: map<string, Image>, gl: Context)
      requires SceneOk(scene) && index < |scene.meshes|
      requires CacheOk(State(gl))
      modifies this`meshes, this`texturesLoaded, gl
      ensures |meshes| == |old(meshes)| + 1 && old(meshes) <= meshes
      ensures BuiltInOrder(meshes, |old(meshes)|, [index], scene)
      ensures CacheOk(State(gl)) && Grows(old(State(gl)), State(gl))
    {
      var mesh := ProcessMesh(scene.meshes[index], scene, images, gl);
      meshes := meshes + [mesh];
    }

    /** Builds one mesh from scene mesh `m`: its vertices, its faces'
        indices in face order, and its material's textures through the
        cache. */
    method ProcessMesh(m: AiMesh, scene: AiScene, images: map<string, Image>, gl: Context) returns (mesh: Mesh)
      requires MeshOk(m, |scene.materials|)
      requires CacheOk(State(gl))
      modifies this`texturesLoaded, gl
      ensures fresh(mesh)
      ensures Built(mesh, m, scene.materials[m.materialIndex])
      ensures var (st, ts) := LoadMaterial(old(State(gl)), scene.materials[m.materialIndex], directory, images);
        mesh.textures == ts && texturesLoaded == st.cache && mesh.vao == st.next && gl.next == st.next + 3 &&
        gl.trace == st.trace + SetupCommands(mesh.vao, mesh.vbo, mesh.ebo, |m.vertices|, |mesh.indices|)
      ensures CacheOk(State(gl)) && Grows(old(State(gl)), State(gl))
    {
      var vertices := [];
      var i := 0;
      while i < |m.vertices|
        invariant i <= |m.vertices| && |vertices| == i
        invariant forall k :: 0 <= k < i ==> vertices[k] == VertexOf(m, k)
      {
        var texCoords := ZERO;
        if m.texCoords.Some? {
          texCoords := m.texCoords.value[i];
        }
        vertices := vertices + [Vertex(m.vertices[i], m.normals[i], texCoords, m.tangents[i], m.bitangents[i])];
        i := i + 1;
      }
      var indices := FlattenFaces(m.faces);
      var material := scene.materials[m.materialIndex];
      ghost var st0 := State(gl);
      var diffuseMaps := LoadMaterialTextures(material, Diffuse, DIFFUSE, images, gl);
      var specularMaps := LoadMaterialTextures(material, Specular, SPECULAR, images, gl);
      var normalMaps := LoadMaterialTextures(material, Height, NORMAL, images, gl);
      var heightMaps := LoadMaterialTextures(material, Ambient, HEIGHT, images, gl);
      var textures := diffuseMaps + specularMaps + normalMaps + heightMaps;
      LoadMaterialKeepsCache(st0, material, directory, images);
      LoadMaterialLength(st0, material, directory, images);
      mesh := new Mesh(vertices, indices, textures, gl);
      forall k | 0 <= k < |textures|
        ensures textures[k].path == MaterialPaths(material)[k]
      {
        LoadMaterialFollowsSlots(st0, material, directory, images, k);
      }
      LoadMaterialLength(st0, material, directory, images);
    }

    /** Loads the slots of one texture type, each through the cache, and
        returns one texture per slot in slot order. */
    method LoadMaterialTextures(mat: AiMaterial, t: AiTextureType, typeName: string,
                                images: map<string, Image>, gl: Context)
      returns (textures: seq<Texture>)
      modifies this`texturesLoaded, gl
      ensures (State(gl), textures) == LoadType(old(State(gl)), mat, t, typeName, directory, images)
    {
      var paths := TexturePaths(mat, t);
      textures := [];
      var i := 0;
      while i < |paths|
        invariant i <= |paths|
        invariant (State(gl), textures) == LoadSlots(old(State(gl)), paths, i, typeName, directory, images)
      {
        var texture := LoadTexture(paths[i], typeName, images, gl);
        textures := textures + [texture];
        i := i + 1;
      }
    }

    /** One slot: the cached texture with this path if there is one;
        otherwise the texture is loaded, tagged and cached. */
    method LoadTexture(path: string, typeName: string, images: map<string, Image>, gl: Context)
      returns (texture: Texture)
      modifies this`texturesLoaded, gl
      ensures (State(gl), texture) == LoadSlot(old(State(gl)), path, typeName, directory, images)
    {
      var found := FindCached(path);
      if found.Some? {
        texture := texturesLoaded[found.value];
      } else {
        var id := TextureFromFile(path, directory, images, gl);
        texture := Texture(id, typeName, path);
        texturesLoaded := texturesLoaded + [texture];
      }
    }

    /** The first cache entry for `path`, found by a scan that stops at the
        first match. */
    method FindCached(path: string) returns (found: Option<nat>)
      ensures found == FindFrom(texturesLoaded, path, 0)
    {
      var skip := false;
      found := None;
      var j := 0;
      while j < |texturesLoaded|
        invariant j <= |texturesLoaded|
        invariant FindFrom(texturesLoaded, path, j) == FindFrom(texturesLoaded, path, 0)
        invariant !skip && found.None?
      {
        if texturesLoaded[j].path == path {
          found := Some(j);
          skip := true;
          break;
        }
        j := j + 1;
      }
    }

    /** Draws every mesh once, in order. */
    method Draw() returns (cmds: seq<Command>)
      ensures cmds == DrawMeshes(meshes, |meshes|)
      ensures DrawCalls(cmds) == ElementDraws(meshes, |meshes|)
      ensures VertexArrayBinding(cmds, 0) == 0 && ActiveUnit(cmds, 0) == 0
    {
      cmds := [];
      var i := 0;
      while i < |meshes|
        invariant i <= |meshes|
        invariant cmds == DrawMeshes(meshes, i)
      {
        var drawn := meshes[i].Draw();
        cmds := cmds + drawn;
        i := i + 1;
      }
      DrawMeshesDrawEach(meshes, |meshes|);
    }

    /** Draws `amount` instances of every mesh once, in order; unlike `Draw`
        it leaves the last mesh's vertex array bound. */
    method InstancedDraw(amount: int) returns (cmds: seq<Command>)
      ensures cmds == InstancedDraws(meshes, |meshes|, amount)
      ensures DrawCalls(cmds) == InstancedElementDraws(meshes, |meshes|, amount)
      ensures |meshes| > 0 ==> VertexArrayBinding(cmds, 0) == meshes[|meshes| - 1].vao
    {
      cmds := [];
      var i := 0;
      while i < |meshes|
        invariant i <= |meshes|
        invariant cmds == InstancedDraws(meshes, i, amount)
      {
        var bindings := meshes[i].InitDraw();
        cmds := cmds + (bindings + InstancedElementDraw(meshes[i].vao, |meshes[i].indices|, amount));
        i := i + 1;
      }
      InstancedDrawsDrawEach(meshes, |meshes|, amount);
    }
  }

  /** All face indices, face after face. */
  method FlattenFaces(faces: seq<AiFace>) returns (indices: seq<nat>)
    ensures indices == Flatten(faces, |faces|)
  {
    indices := [];
    var i := 0;
    while i < |faces|
      invariant i <= |faces|
      invariant indices == Flatten(faces, i)
    {
      var face := faces[i];
      var j := 0;
      while j < |face.indices|
        invariant j <= |face.indices|
        invariant indices == Flatten(faces, i) + face.indices[..j]
      {
        indices := indices + [face.indices[j]];
        assert face.indices[..j + 1] == face.indices[..j] + [face.indices[j]];
        j := j + 1;
      }
      assert face.indices[..j] == face.indices;
      i := i + 1;
    }
  }
}
