/**
  The bookkeeping of src/model.rs: walking the imported scene tree,
  building each mesh's vertices and indices, collecting its textures through
  a cache keyed by file path, and deriving the model's directory from the
  model path.

  The importer's scene is the datatype `Scene`; `load_texture` (image
  decoding and GL upload) is the parameter `loader`; `Mesh::new` is the
  constructor `Mesh` (its GL buffer setup is not modelled). The model state
  also records `loads`, every path handed to the loader in call order, which
  model.rs does not store but which lets the model say how often the
  loader runs.
*/
module ModelLoading {
  import opened Options
  import opened Vectors

  /** `mesh::Texture`: a GL texture name, the sampler prefix it is bound under, and its file. */
  datatype Texture = Texture(id: nat, texType: string, path: string)
  datatype Vertex = Vertex(position: Vec3, normal: Vec3, texCoords: Vec2)
  /** `mesh::Mesh` as `Mesh::new` receives it. */
  datatype Mesh = Mesh(vertices: seq<Vertex>, indices: seq<nat>, textures: seq<Texture>)

  /** The importer's texture semantics: the two this code asks for, and all others. */
  datatype TextureType = Diffuse | Specular | OtherTextureType(code: nat)
  /** A material property's value: a string (such as a texture file name) or some other kind. */
  datatype PropertyData = StringValue(s: string) | NonString
  datatype MaterialProperty = MaterialProperty(semantic: TextureType, data: PropertyData)
  datatype Material = Material(properties: seq<MaterialProperty>)

  /**
    An imported mesh: positions, normals, texture coordinate channel 0 (if
    present), faces as lists of vertex indices, and a material index.
  */
  datatype ImportedMesh = ImportedMesh(
    vertices: seq<Vec3>,
    normals: seq<Vec3>,
    texCoords: Option<seq<Vec3>>,
    faces: seq<seq<nat>>,
    materialIndex: int)

  datatype Node = Node(name: string, meshes: seq<nat>, children: seq<Node>)
  datatype Scene = Scene(meshes: seq<ImportedMesh>, materials: seq<Material>, root: Option<Node>)

  /** `load_texture`: the GL texture name produced for a file. */
  type Loader = string -> nat

  /** `model::Model`, plus the record of loader calls. */
  datatype Model = Model(meshes: seq<Mesh>, directory: string, texturesLoaded: seq<Texture>, loads: seq<string>)

  /** The state `Model::new` starts from. */
  const Empty: Model := Model([], "", [], [])

  const DiffuseName: string := "texture_diffuse"
  const SpecularName: string := "texture_specular"

  // ---------------------------------------------------------------------------
  // The texture cache

  /** `format!("{}/{}", directory, name)` */
  function TextureFile(directory: string, name: string): string {
    directory + "/" + name
  }

  function Paths(ts: seq<Texture>): seq<string>
  {
    seq(|ts|, i requires 0 <= i < |ts| => ts[i].path)
  }

  ghost predicate NoDuplicates(ss: seq<string>) {
    forall i, j :: 0 <= i < j < |ss| ==> ss[i] != ss[j]
  }

  /**
    The cache invariant: no two cached textures share a path, and the loader
    has been called exactly for the cached paths, in cache order.
  */
  ghost predicate Consistent(m: Model) {
    NoDuplicates(Paths(m.texturesLoaded)) && m.loads == Paths(m.texturesLoaded)
  }

  /** The inner loop of `load_material_textures`: the first cached texture with the given path. */
  function FindLoaded(cache: seq<Texture>, file: string): (r: Option<nat>)
    ensures r.Some? ==> r.value < |cache| && cache[r.value].path == file
    ensures r.Some? ==> forall j :: 0 <= j < r.value ==> cache[j].path != file
    ensures r.None? <==> forall j :: 0 <= j < |cache| ==> cache[j].path != file
    decreases |cache|
  {
    if cache == [] then None
    else if cache[0].path == file then Some(0)
    else match FindLoaded(cache[1..], file)
      case None => None
      case Some(i) => Some(i + 1)
  }

  /** A search of a longer cache finds what a search of its prefix finds. */
  lemma {:induction false} FindLoadedExtend(cache: seq<Texture>, more: seq<Texture>, file: string)
    requires FindLoaded(cache, file).Some?
    ensures FindLoaded(cache + more, file) == FindLoaded(cache, file)
    decreases |cache|
  {
    assert (cache + more)[0] == cache[0];
    if cache[0].path != file {
      assert (cache + more)[1..] == cache[1..] + more;
      FindLoadedExtend(cache[1..], more, file);
    }
  }

  /** The files of the properties with the given semantic and a string value, in property order. */
  function MatchingFiles(directory: string, props: seq<MaterialProperty>, texType: TextureType): seq<string>
    decreases |props|
  {
    if props == [] then []
    else
      var p := props[0];
      (if p.semantic == texType && p.data.StringValue? then [TextureFile(directory, p.data.s)] else [])
      + MatchingFiles(directory, props[1..], texType)
  }

  /** `Paths` distributes over concatenation. */
  lemma PathsAppend(a: seq<Texture>, b: seq<Texture>)
    ensures Paths(a + b) == Paths(a) + Paths(b)
  {
  }

  /**
    How one step of loading may change the model: meshes and directory stay,
    existing cache entries are neither removed nor reordered, each appended
    entry's path was absent from the cache when it was appended, each appended
    entry is typed `texName` and carries the loader's result for its path,
    and the loader was called exactly for the appended paths, in order.
  */
  ghost predicate CacheExtends(m: Model, m': Model, texName: string, loader: Loader) {
    && m'.meshes == m.meshes && m'.directory == m.directory
    && |m.texturesLoaded| <= |m'.texturesLoaded|
    && m'.texturesLoaded[..|m.texturesLoaded|] == m.texturesLoaded
    && m'.loads == m.loads + Paths(m'.texturesLoaded[|m.texturesLoaded|..])
    && forall j :: |m.texturesLoaded| <= j < |m'.texturesLoaded| ==> FreshEntry(m'.texturesLoaded, j, texName, loader)
  }

  /**
    Cache entry `j` was appended by a load: its path occurs nowhere before it,
    it is typed `texName`, and it holds the loader's result for its path.
  */
  ghost predicate FreshEntry(cache: seq<Texture>, j: nat, texName: string, loader: Loader)
    requires j < |cache|
  {
    && FindLoaded(cache[..j], cache[j].path).None?
    && cache[j].texType == texName
    && cache[j].id == loader(cache[j].path)
  }

  /**
    How textures returned against cache `m` (now grown to `m'`) relate to the
    cache: each is an entry of the final cache; one whose path was already
    cached in `m` is exactly that cached texture, with its original type; any
    other was loaded during this call with type `texName`.
  */
  ghost predicate Served(m: Model, m': Model, textures: seq<Texture>, texName: string, loader: Loader) {
    && (forall i :: 0 <= i < |textures| ==> textures[i] in m'.texturesLoaded)
    && forall i :: 0 <= i < |textures| ==>
         match FindLoaded(m.texturesLoaded, textures[i].path)
         case Some(k) => textures[i] == m.texturesLoaded[k]
         case None => textures[i].texType == texName && textures[i].id == loader(textures[i].path)
  }

  lemma CacheExtendsTransitive(m1: Model, m2: Model, m3: Model, texName: string, loader: Loader)
    requires CacheExtends(m1, m2, texName, loader) && CacheExtends(m2, m3, texName, loader)
    ensures CacheExtends(m1, m3, texName, loader)
  {
    var c1, c2, c3 := m1.texturesLoaded, m2.texturesLoaded, m3.texturesLoaded;
    assert c3 == c2 + c3[|c2|..];
    assert c2 == c1 + c2[|c1|..];
    assert c3[..|c1|] == c1;
    AppendedEntriesTransitive(c1, c2, c3, texName, loader);
    LoadsTransitive(m1.loads, m2.loads, m3.loads, c1, c2, c3);
  }

  /** The loader-call part of `CacheExtends`, carried across two stages of growth. */
  lemma LoadsTransitive(l1: seq<string>, l2: seq<string>, l3: seq<string>,
                        c1: seq<Texture>, c2: seq<Texture>, c3: seq<Texture>)
    requires |c1| <= |c2| <= |c3| && c2[..|c1|] == c1 && c3[..|c2|] == c2
    requires l2 == l1 + Paths(c2[|c1|..]) && l3 == l2 + Paths(c3[|c2|..])
    ensures l3 == l1 + Paths(c3[|c1|..])
  {
    assert c3[|c1|..] == c2[|c1|..] + c3[|c2|..];
    PathsAppend(c2[|c1|..], c3[|c2|..]);
  }

  /** The entry-wise part of `CacheExtends`, carried across two stages of growth. */
  lemma AppendedEntriesTransitive(c1: seq<Texture>, c2: seq<Texture>, c3: seq<Texture>, texName: string,
                                  loader: Loader)
    requires |c1| <= |c2| <= |c3| && c3[..|c2|] == c2
    requires forall j :: |c1| <= j < |c2| ==> FreshEntry(c2, j, texName, loader)
    requires forall j :: |c2| <= j < |c3| ==> FreshEntry(c3, j, texName, loader)
    ensures forall j :: |c1| <= j < |c3| ==> FreshEntry(c3, j, texName, loader)
  {
    forall j | |c1| <= j < |c2|
      ensures FreshEntry(c3, j, texName, loader)
    {
      assert FreshEntry(c2, j, texName, loader);
      assert c3[..j] == c2[..j];
      assert c3[j] == c2[j];
    }
  }

  /** Textures served against a cache are served against any earlier state of it. */
  lemma ServedFromEarlier(m1: Model, m2: Model, m3: Model, textures: seq<Texture>, texName: string,
                          loader: Loader)
    requires CacheExtends(m1, m2, texName, loader) && CacheExtends(m2, m3, texName, loader)
    requires Served(m2, m3, textures, texName, loader)
    ensures Served(m1, m3, textures, texName, loader)
  {
    var c1, c2 := m1.texturesLoaded, m2.texturesLoaded;
    forall i | 0 <= i < |textures|
      ensures match FindLoaded(c1, textures[i].path)
        case Some(k) => textures[i] == c1[k]
        case None => textures[i].texType == texName && textures[i].id == loader(textures[i].path)
    {
      var p := textures[i].path;
      assert c2 == c1 + c2[|c1|..];
      match FindLoaded(c1, p)
      case Some(k) =>
        FindLoadedExtend(c1, c2[|c1|..], p);
      case None =>
        assert forall j :: 0 <= j < |c1| ==> c2[j] == c1[j];
        match FindLoaded(c2, p)
        case Some(k) =>
          assert k >= |c1|;
          assert FreshEntry(c2, k, texName, loader);
        case None =>
    }
  }

  /** Textures served into a cache stay in it as the cache grows. */
  lemma ServedIntoLater(m1: Model, m2: Model, m3: Model, textures: seq<Texture>, texName: string,
                        loader: Loader)
    requires CacheExtends(m2, m3, texName, loader)
    requires Served(m1, m2, textures, texName, loader)
    ensures Served(m1, m3, textures, texName, loader)
  {
    forall i | 0 <= i < |textures|
      ensures textures[i] in m3.texturesLoaded
    {
      assert textures[i] in m3.texturesLoaded[..|m2.texturesLoaded|];
    }
  }

  /** Growing the cache by `CacheExtends` keeps it `Consistent`. */
  lemma CacheExtendsConsistent(m: Model, m': Model, texName: string, loader: Loader)
    requires CacheExtends(m, m', texName, loader)
    ensures Consistent(m) ==> Consistent(m')
  {
    if Consistent(m) {
      var c, c' := m.texturesLoaded, m'.texturesLoaded;
      assert c' == c + c'[|c|..];
      PathsAppend(c, c'[|c|..]);
      forall i, j | 0 <= i < j < |c'|
        ensures c'[i].path != c'[j].path
      {
        if j >= |c| {
          assert FreshEntry(c', j, texName, loader);
          assert c'[..j][i] == c'[i];
        } else {
          assert c'[i] == c[i] && c'[j] == c[j];
          assert Paths(c)[i] != Paths(c)[j];
        }
      }
    }
  }

  /** The loader is never asked twice for the same path while the model is `Consistent`. */
  lemma ConsistentLoadsDistinct(m: Model)
    requires Consistent(m)
    ensures forall i, j :: 0 <= i < j < |m.loads| ==> m.loads[i] != m.loads[j]
  {
  }

  datatype Loaded = Loaded(textures: seq<Texture>, model: Model)

  /** Every entry appended to cache `c` on the way to `c'` is for one of the requested files. */
  ghost predicate AppendsOnly(c: seq<Texture>, c': seq<Texture>, files: seq<string>) {
    forall j :: |c| <= j < |c'| ==> c'[j].path in files
  }

  /** A first step that appends nothing or exactly its own textures, then a step appending only `files`. */
  lemma AppendsOnlyCombine(c1: seq<Texture>, c2: seq<Texture>, c3: seq<Texture>, served: seq<Texture>,
                           files: seq<string>)
    requires c2 == c1 || c2 == c1 + served
    requires |c2| <= |c3| && c3[..|c2|] == c2
    requires AppendsOnly(c2, c3, files)
    ensures AppendsOnly(c1, c3, Paths(served) + files)
  {
    forall j | |c1| <= j < |c3|
      ensures c3[j].path in Paths(served) + files
    {
      if j < |c2| {
        assert c3[j] == c2[j] == served[j - |c1|];
        assert Paths(served)[j - |c1|] == c3[j].path;
      } else {
        assert c3[j].path in files;
      }
    }
  }

  /** One iteration of the property loop of `load_material_textures`. */
  function LoadProperty(m: Model, p: MaterialProperty, texType: TextureType, texName: string,
                        loader: Loader): (r: Loaded)
    ensures Paths(r.textures) ==
      (if p.semantic == texType && p.data.StringValue? then [TextureFile(m.directory, p.data.s)] else [])
    ensures CacheExtends(m, r.model, texName, loader)
    ensures Served(m, r.model, r.textures, texName, loader)
    ensures !(p.semantic == texType && p.data.StringValue?) ==> r.model == m
    ensures r.model.texturesLoaded == m.texturesLoaded || r.model.texturesLoaded == m.texturesLoaded + r.textures
  {
    if p.semantic != texType || !p.data.StringValue? then
      Loaded([], m)
    else
      var file := TextureFile(m.directory, p.data.s);
      match FindLoaded(m.texturesLoaded, file)
      case Some(i) =>
        Loaded([m.texturesLoaded[i]], m)
      case None =>
        var texture := Texture(loader(file), texName, file);
        var m' := m.(texturesLoaded := m.texturesLoaded + [texture], loads := m.loads + [file]);
        assert m'.texturesLoaded[..|m.texturesLoaded|] == m.texturesLoaded;
        assert m'.texturesLoaded[|m.texturesLoaded|..] == [texture];
        Loaded([texture], m')
  }

  /**
    `load_material_textures` over a list of properties: one texture per
    property with the requested semantic and a string value, in property
    order, each with path `directory/name`; a cached path is served from the
    cache, any other is loaded and appended to it.
  */
  function LoadTextures(m: Model, props: seq<MaterialProperty>, texType: TextureType, texName: string,
                        loader: Loader): (r: Loaded)
    ensures Paths(r.textures) == MatchingFiles(m.directory, props, texType)
    ensures CacheExtends(m, r.model, texName, loader)
    ensures Served(m, r.model, r.textures, texName, loader)
    ensures AppendsOnly(m.texturesLoaded, r.model.texturesLoaded, MatchingFiles(m.directory, props, texType))
    decreases |props|
  {
    if props == [] then
      assert m.texturesLoaded[..|m.texturesLoaded|] == m.texturesLoaded;
      assert m.texturesLoaded[|m.texturesLoaded|..] == [];
      Loaded([], m)
    else
      var first := LoadProperty(m, props[0], texType, texName, loader);
      var rest := LoadTextures(first.model, props[1..], texType, texName, loader);
      CacheExtendsTransitive(m, first.model, rest.model, texName, loader);
      ServedIntoLater(m, first.model, rest.model, first.textures, texName, loader);
      ServedFromEarlier(m, first.model, rest.model, rest.textures, texName, loader);
      PathsAppend(first.textures, rest.textures);
      assert MatchingFiles(m.directory, props, texType)
          == Paths(first.textures) + MatchingFiles(m.directory, props[1..], texType);
      AppendsOnlyCombine(m.texturesLoaded, first.model.texturesLoaded, rest.model.texturesLoaded,
                         first.textures, MatchingFiles(m.directory, props[1..], texType));
      Loaded(first.textures + rest.textures, rest.model)
  }

  /** `load_material_textures` */
  function LoadMaterialTextures(m: Model, material: Material, texType: TextureType, texName: string,
                                loader: Loader): (r: Loaded)
    ensures Paths(r.textures) == MatchingFiles(m.directory, material.properties, texType)
    ensures AppendsOnly(m.texturesLoaded, r.model.texturesLoaded, MatchingFiles(m.directory, material.properties, texType))
    ensures CacheExtends(m, r.model, texName, loader)
    ensures Served(m, r.model, r.textures, texName, loader)
    ensures Consistent(m) ==> Consistent(r.model)
  {
    var r := LoadTextures(m, material.properties, texType, texName, loader);
    CacheExtendsConsistent(m, r.model, texName, loader);
    r
  }

  // ---------------------------------------------------------------------------
  // Meshes

  /**
    What indexing in `process_mesh` needs of an imported mesh so that it does
    not panic: a normal per vertex, an element 0 in channel 0 when the channel
    is present and there are vertices, and a material index within the
    scene's materials.
  */
  ghost predicate MeshWellFormed(im: ImportedMesh, materialCount: nat) {
    && |im.normals| >= |im.vertices|
    && (im.texCoords.Some? && |im.vertices| > 0 ==> |im.texCoords.value| > 0)
    && (im.materialIndex >= 0 ==> im.materialIndex < materialCount)
  }

  /**
    The vertex loop of `process_mesh` as written: every vertex takes element
    0 of texture coordinate channel 0, or (0, 0) when there is no channel 0.
  */
  function BuildVerticesAsWritten(im: ImportedMesh): (vs: seq<Vertex>)
    requires |im.normals| >= |im.vertices|
    requires im.texCoords.Some? && |im.vertices| > 0 ==> |im.texCoords.value| > 0
    ensures |vs| == |im.vertices|
    ensures forall i :: 0 <= i < |vs| ==> vs[i].position == im.vertices[i] && vs[i].normal == im.normals[i]
    ensures forall i :: 0 <= i < |vs| ==>
      vs[i].texCoords == (if im.texCoords.Some? then Vec2(im.texCoords.value[0].x, im.texCoords.value[0].y)
                          else Vec2(0.0, 0.0))
  {
    seq(|im.vertices|, i requires 0 <= i < |im.vertices| =>
      var texCoords := if im.texCoords.Some? then Vec2(im.texCoords.value[0].x, im.texCoords.value[0].y)
                       else Vec2(0.0, 0.0);
      Vertex(im.vertices[i], im.normals[i], texCoords))
  }

  /** The vertex loop of `process_mesh` as evidently intended: vertex i takes coordinate i of channel 0. */
  function BuildVertices(im: ImportedMesh): (vs: seq<Vertex>)
    requires |im.normals| >= |im.vertices|
    requires im.texCoords.Some? ==> |im.texCoords.value| >= |im.vertices|
    ensures |vs| == |im.vertices|
    ensures forall i :: 0 <= i < |vs| ==> vs[i].position == im.vertices[i] && vs[i].normal == im.normals[i]
    ensures forall i :: 0 <= i < |vs| ==>
      vs[i].texCoords == (if im.texCoords.Some? then Vec2(im.texCoords.value[i].x, im.texCoords.value[i].y)
                          else Vec2(0.0, 0.0))
  {
    seq(|im.vertices|, i requires 0 <= i < |im.vertices| =>
      var texCoords := if im.texCoords.Some? then Vec2(im.texCoords.value[i].x, im.texCoords.value[i].y)
                       else Vec2(0.0, 0.0);
      Vertex(im.vertices[i], im.normals[i], texCoords))
  }

  /**
    The two vertex loops agree exactly when channel 0 is absent or gives
    every vertex the same (x, y) as vertex 0.
  */
  lemma AsWrittenAgreesOnlyOnUniformCoordinates(im: ImportedMesh)
    requires |im.normals| >= |im.vertices|
    requires im.texCoords.Some? ==> |im.texCoords.value| >= |im.vertices|
    ensures BuildVerticesAsWritten(im) == BuildVertices(im) <==>
      (im.texCoords.None? ||
       forall i :: 0 <= i < |im.vertices| ==>
         im.texCoords.value[i].x == im.texCoords.value[0].x && im.texCoords.value[i].y == im.texCoords.value[0].y)
  {
    var a, b := BuildVerticesAsWritten(im), BuildVertices(im);
    if a == b && im.texCoords.Some? {
      forall i | 0 <= i < |im.vertices|
        ensures im.texCoords.value[i].x == im.texCoords.value[0].x && im.texCoords.value[i].y == im.texCoords.value[0].y
      {
        assert a[i].texCoords == b[i].texCoords;
      }
    }
  }

  /** A two-vertex mesh whose channel 0 gives different coordinates: as written, both vertices get the first. */
  lemma AsWrittenLosesPerVertexCoordinates()
    ensures var im := ImportedMesh([Zero, Zero], [Zero, Zero], Some([Vec3(0.0, 0.0, 0.0), Vec3(1.0, 1.0, 0.0)]), [], -1);
      && BuildVerticesAsWritten(im)[1].texCoords == Vec2(0.0, 0.0)
      && BuildVertices(im)[1].texCoords == Vec2(1.0, 1.0)
  {
  }

  /** The faces' index lists concatenated in face order. */
  function Concat(faces: seq<seq<nat>>): seq<nat>
    decreases |faces|
  {
    if faces == [] then [] else faces[0] + Concat(faces[1..])
  }

  lemma {:induction false} ConcatSnoc(faces: seq<seq<nat>>, face: seq<nat>)
    ensures Concat(faces + [face]) == Concat(faces) + face
    decreases |faces|
  {
    if faces == [] {
      assert [] + [face] == [face];
    } else {
      assert (faces + [face])[1..] == faces[1..] + [face];
      ConcatSnoc(faces[1..], face);
    }
  }

  /** The nested face loop of `process_mesh`, pushing every index of every face in order. */
  method FlattenFaces(faces: seq<seq<nat>>) returns (indices: seq<nat>)
    ensures indices == Concat(faces)
  {
    indices := [];
    var f := 0;
    while f < |faces|
      invariant 0 <= f <= |faces|
      invariant indices == Concat(faces[..f])
    {
      var face := faces[f];
      var k := 0;
      while k < |face|
        invariant 0 <= k <= |face|
        invariant indices == Concat(faces[..f]) + face[..k]
      {
        indices := indices + [face[k]];
        k := k + 1;
      }
      ConcatSnoc(faces[..f], face);
      assert faces[..f + 1] == faces[..f] + [face];
      f := f + 1;
    }
    assert faces[..|faces|] == faces;
  }

  datatype Processed = Processed(mesh: Mesh, model: Model)

  /**
    A texture `process_mesh` hands out, given the cache it started from: the
    cached texture when its file was cached already; otherwise a texture just
    loaded for the file and typed by the pass that loaded it, which is the
    diffuse pass for a diffuse file (the specular pass then finds it cached)
    and the specular pass for any other.
  */
  ghost predicate MeshTexture(cache: seq<Texture>, t: Texture, diffuseFiles: seq<string>, loader: Loader) {
    match FindLoaded(cache, t.path)
    case Some(k) => t == cache[k]
    case None => t == Texture(loader(t.path), if t.path in diffuseFiles then DiffuseName else SpecularName, t.path)
  }

  /** The diffuse pass of `process_mesh` hands out `MeshTexture`s that stay cached through the specular pass. */
  lemma DiffuseTexturesServed(m: Model, material: Material, loader: Loader)
    ensures
      var d := LoadMaterialTextures(m, material, Diffuse, DiffuseName, loader);
      var s := LoadMaterialTextures(d.model, material, Specular, SpecularName, loader);
      forall i :: 0 <= i < |d.textures| ==>
        && d.textures[i] in s.model.texturesLoaded
        && MeshTexture(m.texturesLoaded, d.textures[i], MatchingFiles(m.directory, material.properties, Diffuse), loader)
  {
    var d := LoadMaterialTextures(m, material, Diffuse, DiffuseName, loader);
    var s := LoadMaterialTextures(d.model, material, Specular, SpecularName, loader);
    var diffuseFiles := MatchingFiles(m.directory, material.properties, Diffuse);
    forall i | 0 <= i < |d.textures|
      ensures d.textures[i] in s.model.texturesLoaded
      ensures MeshTexture(m.texturesLoaded, d.textures[i], diffuseFiles, loader)
    {
      var t := d.textures[i];
      assert t in s.model.texturesLoaded[..|d.model.texturesLoaded|];
      assert Paths(d.textures)[i] == t.path;
    }
  }

  /**
    The specular pass of `process_mesh` hands out `MeshTexture`s: a file the
    diffuse pass loaded comes back from the cache with the diffuse type.
  */
  lemma SpecularTexturesServed(m: Model, material: Material, loader: Loader)
    ensures
      var d := LoadMaterialTextures(m, material, Diffuse, DiffuseName, loader);
      var s := LoadMaterialTextures(d.model, material, Specular, SpecularName, loader);
      forall j :: 0 <= j < |s.textures| ==>
        && s.textures[j] in s.model.texturesLoaded
        && MeshTexture(m.texturesLoaded, s.textures[j], MatchingFiles(m.directory, material.properties, Diffuse), loader)
  {
    var d := LoadMaterialTextures(m, material, Diffuse, DiffuseName, loader);
    var s := LoadMaterialTextures(d.model, material, Specular, SpecularName, loader);
    var c, cd := m.texturesLoaded, d.model.texturesLoaded;
    var diffuseFiles := MatchingFiles(m.directory, material.properties, Diffuse);
    forall j | 0 <= j < |s.textures|
      ensures MeshTexture(c, s.textures[j], diffuseFiles, loader)
    {
      SpecularTextureServed(c, cd, d.textures, s.textures[j], diffuseFiles, loader);
    }
  }

  /** One texture of the specular pass, served against the cache `cd` the diffuse pass left behind. */
  lemma SpecularTextureServed(c: seq<Texture>, cd: seq<Texture>, diffuse: seq<Texture>, t: Texture,
                              diffuseFiles: seq<string>, loader: Loader)
    requires |c| <= |cd| && cd[..|c|] == c
    requires forall j :: |c| <= j < |cd| ==> FreshEntry(cd, j, DiffuseName, loader)
    requires AppendsOnly(c, cd, diffuseFiles)
    requires Paths(diffuse) == diffuseFiles && forall i :: 0 <= i < |diffuse| ==> diffuse[i] in cd
    requires match FindLoaded(cd, t.path)
      case Some(k) => t == cd[k]
      case None => t.texType == SpecularName && t.id == loader(t.path)
    ensures MeshTexture(c, t, diffuseFiles, loader)
  {
    assert cd == c + cd[|c|..];
    match FindLoaded(c, t.path)
    case Some(k) =>
      FindLoadedExtend(c, cd[|c|..], t.path);
    case None =>
      match FindLoaded(cd, t.path)
      case Some(k) =>
        assert k >= |c|;
        assert FreshEntry(cd, k, DiffuseName, loader);
      case None =>
        assert t.path !in diffuseFiles;
  }

  /**
    `process_mesh`'s textures for a material: the diffuse maps then the
    specular maps, each a `MeshTexture` kept in the final cache; the cache
    grows only by files of the two lists, and the loader ran exactly for the
    appended entries.
  */
  lemma MaterialMeshTextures(m: Model, material: Material, loader: Loader)
    ensures
      var d := LoadMaterialTextures(m, material, Diffuse, DiffuseName, loader);
      var s := LoadMaterialTextures(d.model, material, Specular, SpecularName, loader);
      var diffuseFiles := MatchingFiles(m.directory, material.properties, Diffuse);
      && AppendsOnly(m.texturesLoaded, s.model.texturesLoaded,
                     diffuseFiles + MatchingFiles(m.directory, material.properties, Specular))
      && |m.texturesLoaded| <= |s.model.texturesLoaded|
      && s.model.texturesLoaded[..|m.texturesLoaded|] == m.texturesLoaded
      && s.model.loads == m.loads + Paths(s.model.texturesLoaded[|m.texturesLoaded|..])
      && forall i :: 0 <= i < |d.textures + s.textures| ==>
           && (d.textures + s.textures)[i] in s.model.texturesLoaded
           && MeshTexture(m.texturesLoaded, (d.textures + s.textures)[i], diffuseFiles, loader)
  {
    var d := LoadMaterialTextures(m, material, Diffuse, DiffuseName, loader);
    var s := LoadMaterialTextures(d.model, material, Specular, SpecularName, loader);
    var c, cd, cs := m.texturesLoaded, d.model.texturesLoaded, s.model.texturesLoaded;
    assert cs[..|c|] == cs[..|cd|][..|c|];
    LoadsTransitive(m.loads, d.model.loads, s.model.loads, c, cd, cs);
    AppendsOnlyChain(c, cd, cs, MatchingFiles(m.directory, material.properties, Diffuse),
                     MatchingFiles(m.directory, material.properties, Specular));
    DiffuseTexturesServed(m, material, loader);
    SpecularTexturesServed(m, material, loader);
    var textures := d.textures + s.textures;
    forall i | 0 <= i < |textures|
      ensures textures[i] in cs && MeshTexture(c, textures[i], MatchingFiles(m.directory, material.properties, Diffuse), loader)
    {
      if i < |d.textures| {
        assert textures[i] == d.textures[i];
      } else {
        assert textures[i] == s.textures[i - |d.textures|];
      }
    }
  }

  /** Two growth steps, each appending only from its own file list, append only from both lists. */
  lemma AppendsOnlyChain(c1: seq<Texture>, c2: seq<Texture>, c3: seq<Texture>, files1: seq<string>,
                         files2: seq<string>)
    requires |c2| <= |c3| && c3[..|c2|] == c2
    requires AppendsOnly(c1, c2, files1) && AppendsOnly(c2, c3, files2)
    ensures AppendsOnly(c1, c3, files1 + files2)
  {
    forall j | |c1| <= j < |c3|
      ensures c3[j].path in files1 + files2
    {
      if j < |c2| {
        assert c3[j] == c2[j];
      }
    }
  }

  /**
    `process_mesh`: builds the vertices as the loop is written (every vertex
    takes element 0 of channel 0) and the flattened indices, and, when
    the mesh has a material, collects the material's diffuse maps followed by
    its specular maps (the specular lookup seeing what the diffuse one cached).
    The model's meshes and directory are not changed here.
  */
  function ProcessMesh(m: Model, im: ImportedMesh, materials: seq<Material>, loader: Loader): (r: Processed)
    requires MeshWellFormed(im, |materials|)
    ensures r.mesh.vertices == BuildVerticesAsWritten(im)
    ensures r.mesh.indices == Concat(im.faces)
    ensures im.materialIndex < 0 ==> r.mesh.textures == [] && r.model == m
    ensures im.materialIndex >= 0 ==>
      var props := materials[im.materialIndex].properties;
      Paths(r.mesh.textures) == MatchingFiles(m.directory, props, Diffuse) + MatchingFiles(m.directory, props, Specular)
    ensures im.materialIndex >= 0 ==>
      var props := materials[im.materialIndex].properties;
      var diffuseFiles := MatchingFiles(m.directory, props, Diffuse);
      && AppendsOnly(m.texturesLoaded, r.model.texturesLoaded, diffuseFiles + MatchingFiles(m.directory, props, Specular))
      && forall i :: 0 <= i < |r.mesh.textures| ==>
           && r.mesh.textures[i] in r.model.texturesLoaded
           && MeshTexture(m.texturesLoaded, r.mesh.textures[i], diffuseFiles, loader)
    ensures r.model.meshes == m.meshes && r.model.directory == m.directory
    ensures |m.texturesLoaded| <= |r.model.texturesLoaded|
    ensures r.model.texturesLoaded[..|m.texturesLoaded|] == m.texturesLoaded
    ensures r.model.loads == m.loads + Paths(r.model.texturesLoaded[|m.texturesLoaded|..])
    ensures Consistent(m) ==> Consistent(r.model)
  {
    var vertices := BuildVerticesAsWritten(im);
    var indices := Concat(im.faces);
    if im.materialIndex >= 0 then
      var material := materials[im.materialIndex];
      var diffuse := LoadMaterialTextures(m, material, Diffuse, DiffuseName, loader);
      var specular := LoadMaterialTextures(diffuse.model, material, Specular, SpecularName, loader);
      PathsAppend(diffuse.textures, specular.textures);
      MaterialMeshTextures(m, material, loader);
      Processed(Mesh(vertices, indices, diffuse.textures + specular.textures), specular.model)
    else
      assert m.texturesLoaded[..|m.texturesLoaded|] == m.texturesLoaded;
      assert m.texturesLoaded[|m.texturesLoaded|..] == [];
      Processed(Mesh(vertices, indices, []), m)
  }
  /**
    With a full channel 0, the mesh `process_mesh` builds has the intended
    per-vertex coordinates exactly when channel 0 is uniform.
  */
  lemma ProcessMeshVerticesIntended(m: Model, im: ImportedMesh, materials: seq<Material>, loader: Loader)
    requires MeshWellFormed(im, |materials|)
    requires im.texCoords.Some? ==> |im.texCoords.value| >= |im.vertices|
    ensures ProcessMesh(m, im, materials, loader).mesh.vertices == BuildVertices(im) <==>
      (im.texCoords.None? ||
       forall i :: 0 <= i < |im.vertices| ==>
         im.texCoords.value[i].x == im.texCoords.value[0].x && im.texCoords.value[i].y == im.texCoords.value[0].y)
  {
    AsWrittenAgreesOnlyOnUniformCoordinates(im);
  }


  // ---------------------------------------------------------------------------
  // The node tree

  /**
    Every listed index names a scene mesh that `process_mesh` can process
    without panicking. Meshes no index names are never looked at.
  */
  ghost predicate MeshesUsable(ids: seq<nat>, scene: Scene) {
    forall k :: 0 <= k < |ids| ==> ids[k] < |scene.meshes| && MeshWellFormed(scene.meshes[ids[k]], |scene.materials|)
  }

  /** `MeshesUsable` for the mesh indices of every node of the tree. */
  ghost predicate NodeIndexed(node: Node, scene: Scene) {
    && MeshesUsable(node.meshes, scene)
    && (forall i :: 0 <= i < |node.children| ==> NodeIndexed(node.children[i], scene))
  }

  /** The scene's mesh indices in pre-order: a node's own meshes, then each child's, left to right. */
  function PreOrder(node: Node): seq<nat>
    decreases node, |node.children| + 1
  {
    node.meshes + ChildrenPreOrder(node, 0)
  }

  function ChildrenPreOrder(parent: Node, i: nat): seq<nat>
    decreases parent, |parent.children| - i
  {
    if i >= |parent.children| then []
    else PreOrder(parent.children[i]) + ChildrenPreOrder(parent, i + 1)
  }

  /**
    The meshes built for a sequence of scene mesh indices, as far as they do
    not depend on the texture cache: mesh k has the vertices and indices of
    scene mesh ids[k].
  */
  ghost predicate GeometryMatches(meshes: seq<Mesh>, ids: seq<nat>, scene: Scene) {
    && |meshes| == |ids|
    && forall k :: 0 <= k < |ids| ==>
         && ids[k] < |scene.meshes|
         && MeshWellFormed(scene.meshes[ids[k]], |scene.materials|)
         && meshes[k].vertices == BuildVerticesAsWritten(scene.meshes[ids[k]])
         && meshes[k].indices == Concat(scene.meshes[ids[k]].faces)
  }

  lemma {:induction false} GeometryMatchesAppend(a: seq<Mesh>, ia: seq<nat>, b: seq<Mesh>, ib: seq<nat>, scene: Scene)
    requires GeometryMatches(a, ia, scene) && GeometryMatches(b, ib, scene)
    ensures GeometryMatches(a + b, ia + ib, scene)
  {
    forall k | 0 <= k < |ia| + |ib|
      ensures (ia + ib)[k] < |scene.meshes|
      ensures MeshWellFormed(scene.meshes[(ia + ib)[k]], |scene.materials|)
      ensures (a + b)[k].vertices == BuildVerticesAsWritten(scene.meshes[(ia + ib)[k]])
      ensures (a + b)[k].indices == Concat(scene.meshes[(ia + ib)[k]].faces)
    {
      if k < |ia| {
        assert (a + b)[k] == a[k] && (ia + ib)[k] == ia[k];
      } else {
        assert (a + b)[k] == b[k - |a|] && (ia + ib)[k] == ib[k - |ia|];
      }
    }
  }

  /** What each stage of the traversal keeps: earlier meshes, the directory, the cache prefix and its invariant. */
  ghost predicate Grows(m: Model, m': Model) {
    && |m.meshes| <= |m'.meshes| && m'.meshes[..|m.meshes|] == m.meshes
    && m'.directory == m.directory
    && (Consistent(m) ==> Consistent(m'))
  }

  lemma GrowsTransitive(m1: Model, m2: Model, m3: Model)
    requires Grows(m1, m2) && Grows(m2, m3)
    ensures Grows(m1, m3)
  {
    assert m3.meshes[..|m1.meshes|] == m3.meshes[..|m2.meshes|][..|m1.meshes|];
  }

  /** The mesh loop of `process_node`: process each listed scene mesh and push the result. */
  function ProcessMeshes(m: Model, ids: seq<nat>, scene: Scene, loader: Loader): (r: Model)
    requires MeshesUsable(ids, scene)
    ensures Grows(m, r)
    decreases |ids|
  {
    if ids == [] then
      assert m.meshes[..|m.meshes|] == m.meshes;
      m
    else
      var p := ProcessMesh(m, scene.meshes[ids[0]], scene.materials, loader);
      var m1 := p.model.(meshes := p.model.meshes + [p.mesh]);
      assert m1.meshes[..|m.meshes|] == m.meshes;
      var r := ProcessMeshes(m1, ids[1..], scene, loader);
      GrowsTransitive(m, m1, r);
      r
  }

  /** `process_node`: the node's own meshes first, then each child subtree, left to right. */
  function ProcessNode(m: Model, node: Node, scene: Scene, loader: Loader): (r: Model)
    requires NodeIndexed(node, scene)
    ensures Grows(m, r)
    decreases node, |node.children| + 1
  {
    var m1 := ProcessMeshes(m, node.meshes, scene, loader);
    var r := ProcessChildren(m1, node, 0, scene, loader);
    GrowsTransitive(m, m1, r);
    r
  }

  /** The child loop of `process_node`, from child `i` on. */
  function ProcessChildren(m: Model, parent: Node, i: nat, scene: Scene, loader: Loader): (r: Model)
    requires NodeIndexed(parent, scene)
    ensures Grows(m, r)
    decreases parent, |parent.children| - i
  {
    if i >= |parent.children| then
      assert m.meshes[..|m.meshes|] == m.meshes;
      m
    else
      var m1 := ProcessNode(m, parent.children[i], scene, loader);
      var r := ProcessChildren(m1, parent, i + 1, scene, loader);
      GrowsTransitive(m, m1, r);
      r
  }

  /** The meshes `ProcessMeshes` appends are those of the listed scene meshes, in list order. */
  lemma {:induction false} ProcessMeshesInOrder(m: Model, ids: seq<nat>, scene: Scene, loader: Loader)
    requires MeshesUsable(ids, scene)
    ensures GeometryMatches(ProcessMeshes(m, ids, scene, loader).meshes[|m.meshes|..], ids, scene)
    decreases |ids|
  {
    var r := ProcessMeshes(m, ids, scene, loader);
    if ids == [] {
    } else {
      var p := ProcessMesh(m, scene.meshes[ids[0]], scene.materials, loader);
      var m1 := p.model.(meshes := p.model.meshes + [p.mesh]);
      ProcessMeshesInOrder(m1, ids[1..], scene, loader);
      GeometryMatchesSingle(p.mesh, ids[0], scene);
      AppendedAfterOne(r.meshes, m.meshes, p.mesh);
      GeometryMatchesAppend([p.mesh], [ids[0]], r.meshes[|m1.meshes|..], ids[1..], scene);
      assert [ids[0]] + ids[1..] == ids;
    }
  }

  lemma {:induction false} GeometryMatchesSingle(mesh: Mesh, id: nat, scene: Scene)
    requires id < |scene.meshes| && MeshWellFormed(scene.meshes[id], |scene.materials|)
    requires mesh.vertices == BuildVerticesAsWritten(scene.meshes[id]) && mesh.indices == Concat(scene.meshes[id].faces)
    ensures GeometryMatches([mesh], [id], scene)
  {
  }

  /** What follows a prefix extended by one element is that element and then the rest. */
  lemma AppendedAfterOne(all: seq<Mesh>, before: seq<Mesh>, mesh: Mesh)
    requires |before| + 1 <= |all| && all[..|before| + 1] == before + [mesh]
    ensures all[|before|..] == [mesh] + all[|before| + 1..]
  {
    assert all[|before|] == (before + [mesh])[|before|];
  }

  /**
    `process_node` appends one mesh per scene mesh index of the subtree, in
    pre-order: the node's own meshes, then each child's subtree in turn.
  */
  lemma {:induction false} ProcessNodePreOrder(m: Model, node: Node, scene: Scene, loader: Loader)
    requires NodeIndexed(node, scene)
    ensures GeometryMatches(ProcessNode(m, node, scene, loader).meshes[|m.meshes|..], PreOrder(node), scene)
    decreases node, |node.children| + 1
  {
    var m1 := ProcessMeshes(m, node.meshes, scene, loader);
    var r := ProcessChildren(m1, node, 0, scene, loader);
    ProcessMeshesInOrder(m, node.meshes, scene, loader);
    ProcessChildrenPreOrder(m1, node, 0, scene, loader);
    SplitAppended(m, m1, r);
    GeometryMatchesAppend(m1.meshes[|m.meshes|..], node.meshes, r.meshes[|m1.meshes|..], ChildrenPreOrder(node, 0), scene);
  }

  lemma {:induction false} ProcessChildrenPreOrder(m: Model, parent: Node, i: nat, scene: Scene, loader: Loader)
    requires NodeIndexed(parent, scene)
    ensures GeometryMatches(ProcessChildren(m, parent, i, scene, loader).meshes[|m.meshes|..],
                            ChildrenPreOrder(parent, i), scene)
    decreases parent, |parent.children| - i
  {
    var r := ProcessChildren(m, parent, i, scene, loader);
    if i >= |parent.children| {
      assert r == m;
    } else {
      var m1 := ProcessNode(m, parent.children[i], scene, loader);
      ProcessNodePreOrder(m, parent.children[i], scene, loader);
      ProcessChildrenPreOrder(m1, parent, i + 1, scene, loader);
      SplitAppended(m, m1, r);
      GeometryMatchesAppend(m1.meshes[|m.meshes|..], PreOrder(parent.children[i]),
                            r.meshes[|m1.meshes|..], ChildrenPreOrder(parent, i + 1), scene);
    }
  }

  /** What two growth stages appended is what the first appended followed by what the second did. */
  lemma SplitAppended(m1: Model, m2: Model, m3: Model)
    requires Grows(m1, m2) && Grows(m2, m3)
    ensures m3.meshes[|m1.meshes|..] == m2.meshes[|m1.meshes|..] + m3.meshes[|m2.meshes|..]
  {
    assert m3.meshes[..|m2.meshes|] == m2.meshes;
  }

  // ---------------------------------------------------------------------------
  // Loading a model

  /** `str::rfind` for one character: the index of its last occurrence. */
  function LastIndexOf(s: string, c: char): (r: Option<nat>)
    ensures r.Some? ==> r.value < |s| && s[r.value] == c && forall j :: r.value < j < |s| ==> s[j] != c
    ensures r.None? <==> forall j :: 0 <= j < |s| ==> s[j] != c
    decreases |s|
  {
    if s == [] then None
    else if s[|s| - 1] == c then Some(|s| - 1)
    else LastIndexOf(s[..|s| - 1], c)
  }

  /** The directory part of a path: everything before its last '/'. */
  function Directory(path: string): (dir: string)
    requires '/' in path
    ensures |dir| < |path| && path == dir + "/" + path[|dir| + 1..]
    ensures '/' !in path[|dir| + 1..]
  {
    var i := LastIndexOf(path, '/').value;
    assert path == path[..i] + "/" + path[i + 1..];
    path[..i]
  }

  /**
    `Model::new` with `load_model`: `imported` is what the importer returned
    for `path` (`None` for an import error, which only gets logged). On
    success the directory is the path up to its last '/', and the root node,
    if any, is processed.
  */
  function LoadModel(path: string, imported: Option<Scene>, loader: Loader): (r: Model)
    requires imported.Some? ==> '/' in path
    requires imported.Some? && imported.value.root.Some? ==> NodeIndexed(imported.value.root.value, imported.value)
    ensures imported.None? ==> r == Empty
    ensures imported.Some? ==> r.directory == Directory(path)
    ensures imported.Some? && imported.value.root.None? ==> r.meshes == [] && r.texturesLoaded == []
    ensures Consistent(r)
  {
    match imported
    case None => Empty
    case Some(scene) =>
      var m := Empty.(directory := Directory(path));
      match scene.root
      case None => m
      case Some(root) => ProcessNode(m, root, scene, loader)
  }

  /**
    After loading, the model's meshes are those of the scene's mesh indices in
    pre-order, and no texture file was loaded twice.
  */
  lemma {:induction false} LoadModelContents(path: string, scene: Scene, loader: Loader)
    requires '/' in path
    requires scene.root.Some? ==> NodeIndexed(scene.root.value, scene)
    ensures var r := LoadModel(path, Some(scene), loader);
      && GeometryMatches(r.meshes, if scene.root.Some? then PreOrder(scene.root.value) else [], scene)
      && forall i, j :: 0 <= i < j < |r.loads| ==> r.loads[i] != r.loads[j]
  {
    var r := LoadModel(path, Some(scene), loader);
    var m := Empty.(directory := Directory(path));
    match scene.root
    case None =>
    case Some(root) =>
      ProcessNodePreOrder(m, root, scene, loader);
    ConsistentLoadsDistinct(r);
  }
}
