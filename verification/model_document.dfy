/** The 3MF model document (`3D/3dmodel.model`): resources (objects that
    hold a mesh or a list of components) and the build plate. Element-tree
    construction is modelled as building a document value; the XML text,
    namespaces, the `unit` attribute and the `metadata` entries (application,
    version, dates, title) are not part of the model. */
module ModelDocument {
  import opened Wrappers
  import opened Geometry
  import Transforms

  /** A `component` element: the object it places and its transform text. */
  datatype Component = Component(objectId: int, transform: string)

  /** What an object holds: a `mesh`, or a `components` list. */
  datatype Shape = MeshShape(mesh: Mesh) | ComponentsShape(components: seq<Component>)

  /** An `object` element of `resources` (always of type `model` here). */
  datatype Object = Object(id: int, name: Option<string>, shape: Shape)

  /** An `item` element of `build`. */
  datatype BuildItem = BuildItem(objectId: int, transform: Option<string>, printable: Option<bool>)

  datatype Model = Model(objects: seq<Object>, build: seq<BuildItem>)

  function Ids(m: Model): (r: seq<int>)
    ensures |r| == |m.objects|
  {
    seq(|m.objects|, i requires 0 <= i < |m.objects| => m.objects[i].id)
  }

  /** `id` names an object declared among the first `upTo` resources. */
  predicate DeclaredBefore(m: Model, id: int, upTo: int)
  {
    exists j :: 0 <= j < upTo && j < |m.objects| && m.objects[j].id == id
  }

  predicate Declares(m: Model, id: int)
  {
    DeclaredBefore(m, id, |m.objects|)
  }

  /** Object ids are positive and unique within the document. */
  predicate UniqueIds(m: Model)
  {
    (forall o :: o in m.objects ==> o.id >= 1) &&
    (forall i, j :: 0 <= i < j < |m.objects| ==> m.objects[i].id != m.objects[j].id)
  }

  /** Every component names an object declared before the object holding
      it, so there is no dangling, self or cyclic reference. */
  predicate ComponentsResolve(m: Model)
  {
    forall i, c ::
      (0 <= i < |m.objects| && m.objects[i].shape.ComponentsShape? && c in m.objects[i].shape.components)
      ==> DeclaredBefore(m, c.objectId, i)
  }

  /** There is a build item and every build item names a declared object. */
  predicate BuildResolves(m: Model)
  {
    |m.build| >= 1 && forall b :: b in m.build ==> Declares(m, b.objectId)
  }

  /** Every mesh obeys the flat-mesh index rules. */
  predicate MeshesWellIndexed(m: Model)
  {
    forall o :: o in m.objects && o.shape.MeshShape? ==> WellIndexed(o.shape.mesh)
  }

  /** Every reference in the document resolves and every mesh is well indexed. */
  predicate Valid(m: Model)
  {
    UniqueIds(m) && ComponentsResolve(m) && BuildResolves(m) && MeshesWellIndexed(m)
  }

  /** generate_bambu_3mf.py `_create_model_file`: the base mesh as object 1,
      the text mesh as object 2, object 3 composing both with the unit
      transform, and one printable build item for object 3 carrying the
      build-item transform literal. */
  function ComponentModel(base: Mesh, text: Mesh): Model
  {
    Model(
      [Object(1, None, MeshShape(base)),
       Object(2, None, MeshShape(text)),
       Object(3, None, ComponentsShape([Component(1, Transforms.UnitTransform), Component(2, Transforms.UnitTransform)]))],
      [BuildItem(3, Some(Transforms.BuildItemTransform), Some(true))])
  }

  /** generate_nameplates.py `_create_model_file`: the merged mesh as the
      only object, id 1, and one printable build item for it. */
  function SingleObjectModel(mesh: Mesh): Model
  {
    Model([Object(1, None, MeshShape(mesh))], [BuildItem(1, None, Some(true))])
  }

  /** generate_all_nameplates.py `create_3mf_with_separate_objects`: base and
      text as named objects 1 and 2, and one build item for each. */
  function SeparateObjectsModel(name: string, base: Mesh, text: Mesh): Model
  {
    Model(
      [Object(1, Some(name + " - Base"), MeshShape(base)),
       Object(2, Some(name + " - Text"), MeshShape(text))],
      [BuildItem(1, None, None), BuildItem(2, None, None)])
  }

  /** The component document: ids 1, 2, 3 are distinct; object 3 holds no
      mesh and composes objects 1 and 2, which both hold meshes; the single
      build item names object 3; every reference resolves. */
  lemma ComponentModelShape(base: Mesh, text: Mesh)
    requires WellIndexed(base) && WellIndexed(text)
    ensures var m := ComponentModel(base, text);
      Valid(m) && Ids(m) == [1, 2, 3] &&
      m.objects[0].shape.MeshShape? && m.objects[1].shape.MeshShape? &&
      m.objects[2].shape.ComponentsShape? &&
      m.objects[2].shape.components == [Component(1, Transforms.UnitTransform), Component(2, Transforms.UnitTransform)] &&
      |m.build| == 1 && m.build[0].objectId == 3 && m.build[0].printable == Some(true)
  {
    var m := ComponentModel(base, text);
    assert m.objects[0].id == 1 && m.objects[1].id == 2 && m.objects[2].id == 3;
    assert DeclaredBefore(m, 1, 2) && DeclaredBefore(m, 2, 2) && Declares(m, 3);
  }

  /** Both components of the component document carry a transform that
      parses to the 3MF identity. */
  lemma ComponentModelTransforms(base: Mesh, text: Mesh)
    ensures Transforms.IsIdentity3MF(Transforms.UnitTransformValues)
    ensures var m := ComponentModel(base, text);
      forall c :: c in m.objects[2].shape.components ==>
        Transforms.ParseNumbers(c.transform) == Some(Transforms.UnitTransformValues)
  {
    var comps := ComponentModel(base, text).objects[2].shape.components;
    assert forall c :: c in comps ==> c.transform == Transforms.UnitTransform;
    Transforms.UnitTransformIsIdentity();
  }

  /** The build item's transform, commented as an identity, parses to
      values that are not the 3MF identity. */
  lemma ComponentBuildItemTransform(base: Mesh, text: Mesh)
    ensures var item := ComponentModel(base, text).build[0];
      item.transform.Some? &&
      Transforms.ParseNumbers(item.transform.value) == Some(Transforms.BuildItemTransformValues) &&
      !Transforms.IsIdentity3MF(Transforms.BuildItemTransformValues)
  {
    assert ComponentModel(base, text).build[0].transform == Some(Transforms.BuildItemTransform);
    Transforms.BuildItemTransformIsNotIdentity();
  }

  /** The single-object document: one object, id 1, holding a mesh; no
      components; exactly one build item, naming object 1. */
  lemma SingleObjectModelShape(mesh: Mesh)
    requires WellIndexed(mesh)
    ensures var m := SingleObjectModel(mesh);
      Valid(m) && Ids(m) == [1] && m.objects[0].shape.MeshShape? &&
      |m.build| == 1 && m.build[0].objectId == 1
  {
    var m := SingleObjectModel(mesh);
    assert m.objects[0].id == 1;
  }

  /** The separate-objects document: ids 1 and 2 are distinct; both objects
      hold meshes and there is no composite; the build has exactly two items,
      naming 1 then 2, both declared. */
  lemma SeparateObjectsModelShape(name: string, base: Mesh, text: Mesh)
    requires WellIndexed(base) && WellIndexed(text)
    ensures var m := SeparateObjectsModel(name, base, text);
      Valid(m) && Ids(m) == [1, 2] &&
      (forall o :: o in m.objects ==> o.shape.MeshShape?) &&
      |m.build| == 2 && m.build[0].objectId == 1 && m.build[1].objectId == 2
  {
    var m := SeparateObjectsModel(name, base, text);
    assert m.objects[0].id == 1 && m.objects[1].id == 2;
  }

  /** The component document built from two soups: `_add_mesh_to_object`
      once per mesh object, then the literal component and build entries. */
  method CreateComponentModel(base: seq<Facet>, text: seq<Facet>) returns (m: Model)
    ensures m == ComponentModel(Encode(base, 0.0), Encode(text, 0.0))
    ensures Valid(m)
  {
    var baseMesh := AddMeshToObject(base, 0.0);
    var textMesh := AddMeshToObject(text, 0.0);
    m := Model(
      [Object(1, None, MeshShape(baseMesh)),
       Object(2, None, MeshShape(textMesh)),
       Object(3, None, ComponentsShape([Component(1, Transforms.UnitTransform), Component(2, Transforms.UnitTransform)]))],
      [BuildItem(3, Some(Transforms.BuildItemTransform), Some(true))]);
    EncodeWellIndexed(base, 0.0);
    EncodeWellIndexed(text, 0.0);
    ComponentModelShape(baseMesh, textMesh);
  }

  /** The single-object document built from the merged soup. */
  method CreateSingleObjectModel(facets: seq<Facet>) returns (m: Model)
    ensures m == SingleObjectModel(Encode(facets, 0.0))
    ensures Valid(m)
  {
    var mesh := AddMeshToObject(facets, 0.0);
    m := Model([Object(1, None, MeshShape(mesh))], [BuildItem(1, None, Some(true))]);
    EncodeWellIndexed(facets, 0.0);
    SingleObjectModelShape(mesh);
  }

  /** The separate-objects document: the base soup copied as it is, the text
      soup with `baseThickness` added to every z; the vertex counter restarts
      at 0 for the text object. */
  method CreateSeparateObjectsModel(name: string, base: seq<Facet>, text: seq<Facet>, baseThickness: real)
    returns (m: Model)
    ensures m == SeparateObjectsModel(name, Encode(base, 0.0), Encode(text, baseThickness))
    ensures Valid(m)
  {
    var baseMesh := AddMeshToObject(base, 0.0);
    var textMesh := AddMeshToObject(text, baseThickness);
    m := Model(
      [Object(1, Some(name + " - Base"), MeshShape(baseMesh)),
       Object(2, Some(name + " - Text"), MeshShape(textMesh))],
      [BuildItem(1, None, None), BuildItem(2, None, None)]);
    EncodeWellIndexed(base, 0.0);
    EncodeWellIndexed(text, baseThickness);
    SeparateObjectsModelShape(name, baseMesh, textMesh);
  }

  /** In the separate-objects document the base keeps every coordinate:
      its vertices are the corners of the base facets, in order. */
  lemma SeparateBaseUnchanged(name: string, base: seq<Facet>, text: seq<Facet>, baseThickness: real)
    ensures var bv := SeparateObjectsModel(name, Encode(base, 0.0), Encode(text, baseThickness)).objects[0].shape.mesh.vertices;
      |bv| == 3 * |base| &&
      forall i :: 0 <= i < |base| ==> bv[3 * i] == base[i].a && bv[3 * i + 1] == base[i].b && bv[3 * i + 2] == base[i].c
  {
    FlattenAt(base, 0.0);
  }

  /** The text keeps x and y and is raised by `baseThickness`: the three
      vertices of text facet i are its corners, each with z increased. */
  lemma SeparateTextRaised(name: string, base: seq<Facet>, text: seq<Facet>, baseThickness: real)
    ensures var tv := SeparateObjectsModel(name, Encode(base, 0.0), Encode(text, baseThickness)).objects[1].shape.mesh.vertices;
      |tv| == 3 * |text| &&
      forall i :: 0 <= i < |text| ==>
        tv[3 * i] == Vertex(text[i].a.x, text[i].a.y, text[i].a.z + baseThickness) &&
        tv[3 * i + 1] == Vertex(text[i].b.x, text[i].b.y, text[i].b.z + baseThickness) &&
        tv[3 * i + 2] == Vertex(text[i].c.x, text[i].c.y, text[i].c.z + baseThickness)
  {
    FlattenAt(text, baseThickness);
  }

  /** The text object's indices are local to it: bounded by its own vertex
      count, whatever the size of the base. */
  lemma SeparateTextLocal(name: string, base: seq<Facet>, text: seq<Facet>, baseThickness: real)
    ensures var m := SeparateObjectsModel(name, Encode(base, 0.0), Encode(text, baseThickness));
      forall t :: t in m.objects[1].shape.mesh.triangles ==>
        0 <= t.v1 < 3 * |text| && 0 <= t.v2 < 3 * |text| && 0 <= t.v3 < 3 * |text|
  {
    EncodeWellIndexed(text, baseThickness);
  }
}
