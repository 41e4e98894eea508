/** The 3MF package (Open Packaging Conventions, ECMA-376 Part 2): the
    content-types stream, the package relationships, the model part and, for
    the Bambu variants, the settings part. Staging directories, zip writing,
    deflate and cleanup are filesystem effects; what is modelled is the set
    of entry names the archive receives and the documents behind them. */
module Package {
  import opened Wrappers
  import opened Geometry
  import opened Dimensions
  import ModelDocument
  import Settings

  /** A `Default` element of `[Content_Types].xml`. */
  datatype ContentDefault = ContentDefault(extension: string, contentType: string)

  /** A `Relationship` element of `_rels/.rels`. */
  datatype Relationship = Relationship(target: string, id: string, relType: string)

  const RelsContentType := "application/vnd.openxmlformats-package.relationships+xml"
  const ModelContentType := "application/vnd.ms-package.3dmanufacturing-3dmodel+xml"
  const ModelRelationshipType := "http://schemas.microsoft.com/3dmanufacturing/2013/01/3dmodel"

  /** `_create_content_types`: only the `rels` and `model` extensions are
      declared. */
  const ContentTypes: seq<ContentDefault> :=
    [ContentDefault("rels", RelsContentType), ContentDefault("model", ModelContentType)]

  /** `_create_rels`: the one relationship, to the model part. */
  const Relationships: seq<Relationship> :=
    [Relationship("/3D/3dmodel.model", "rel0", ModelRelationshipType)]

  /** `os.path.join(dir, file)`: an absolute `file` replaces `dir`. */
  function Join(dir: string, file: string): string
  {
    if file != [] && file[0] == '/' then file
    else if dir == [] || dir[|dir| - 1] == '/' then dir + file
    else dir + "/" + file
  }

  /** A directory name without a trailing separator, as the scripts build them. */
  predicate PlainName(s: string)
  {
    s != [] && s[|s| - 1] != '/'
  }

  /** `path` lies inside the directory `root`. */
  predicate Under(root: string, path: string)
  {
    |root| + 1 < |path| && path[..|root| + 1] == root + "/"
  }

  /** `os.path.relpath(path, root)` for a path inside `root`. */
  function RelPath(root: string, path: string): string
    requires Under(root, path)
  {
    path[|root| + 1..]
  }

  /** The extension of a path (the text after the last dot of its last
      segment), or None when the last segment has no dot. */
  function Extension(path: string): Option<string>
  {
    if path == [] then None
    else
      var c := path[|path| - 1];
      if c == '.' then Some("")
      else if c == '/' then None
      else match Extension(path[..|path| - 1])
        case None => None
        case Some(e) => Some(e + [c])
  }

  predicate Declares(types: seq<ContentDefault>, ext: Option<string>)
  {
    ext.Some? && exists t :: t in types && t.extension == ext.value
  }

  /** Where `create_bambu_3mf` stages the package (both Bambu scripts). */
  const BambuStagingDir := Join(Join("output", "temp_generation"), "3mf_structure")

  /** Where `create_3mf_with_separate_objects` stages the package. */
  const SeparateStagingDir := Join(Join("output", "temp_scad"), "temp_3mf")

  /** The files a packaging run writes under its staging directory: the
      model part, the settings part when there is one, the content types and
      the relationships. */
  function StagedFiles(root: string, withSettings: bool): seq<string>
  {
    [ModelFile(root)] + (if withSettings then [SettingsFile(root)] else []) +
    [ContentTypesFile(root), RelsFile(root)]
  }

  function ModelFile(root: string): string { Join(Join(root, "3D"), "3dmodel.model") }
  function SettingsFile(root: string): string { Join(Join(root, "Metadata"), "model_settings.config") }
  function ContentTypesFile(root: string): string { Join(root, "[Content_Types].xml") }
  function RelsFile(root: string): string { Join(Join(root, "_rels"), ".rels") }

  /** The archive names `zipf.write(file_path, relpath(file_path, root))`
      gives the staged files (the walk order does not matter for a set). */
  function Entries(root: string, files: seq<string>): set<string>
    requires forall f :: f in files ==> Under(root, f)
  {
    set f | f in files :: RelPath(root, f)
  }

  const ModelEntry := "3D/3dmodel.model"
  const SettingsEntry := "Metadata/model_settings.config"
  const ContentTypesEntry := "[Content_Types].xml"
  const RelsEntry := "_rels/.rels"

  /** A whole package: its two packaging streams, its documents and the
      names of its archive entries. */
  datatype Archive = Archive(
    contentTypes: seq<ContentDefault>,
    relationships: seq<Relationship>,
    model: ModelDocument.Model,
    settings: Option<Settings.Config>,
    entries: set<string>)

  /** The settings document speaks of the model document's objects: every
      settings object, model instance and assemble item names the object of
      a build item, and every part's source object is a mesh object. */
  predicate SettingsAgree(m: ModelDocument.Model, c: Settings.Config)
  {
    (forall o :: o in c.objects ==> exists b :: b in m.build && b.objectId == o.id) &&
    (forall i :: i in c.instances ==> exists b :: b in m.build && b.objectId == i.objectId) &&
    (forall a :: a in c.assemble ==> exists b :: b in m.build && b.objectId == a.objectId) &&
    (forall o, p :: o in c.objects && p in o.parts && p.sourceObjectId.Some? ==>
      exists x :: x in m.objects && x.id == p.sourceObjectId.value && x.shape.MeshShape?)
  }

  /** What the consuming slicer needs: the packaging streams are present,
      every relationship targets an entry of the archive whose extension has
      a declared content type, one of them is the 3D model relationship to
      the model part, the model document's references resolve, and a
      settings document is present exactly when its entry is and agrees with
      the model document. */
  predicate Consistent(a: Archive)
  {
    StreamsResolve(a) &&
    ModelDocument.Valid(a.model) &&
    (a.settings.Some? <==> SettingsEntry in a.entries) &&
    (a.settings.Some? ==> SettingsAgree(a.model, a.settings.value))
  }

  /** The packaging streams are present, every relationship targets an
      entry of the archive whose extension has a declared content type, and
      one of them is the 3D model relationship to the model part. */
  predicate StreamsResolve(a: Archive)
  {
    ContentTypesEntry in a.entries && RelsEntry in a.entries && ModelEntry in a.entries &&
    Declares(a.contentTypes, Extension(RelsEntry)) &&
    (forall r :: r in a.relationships ==>
      |r.target| >= 1 && r.target[0] == '/' && r.target[1..] in a.entries &&
      Declares(a.contentTypes, Extension(r.target))) &&
    (exists r :: r in a.relationships && r.target == "/" + ModelEntry && r.relType == ModelRelationshipType)
  }

  /** The extension of a name ending in `.ext`, where `ext` holds no dot or
      separator, is `ext`. */
  lemma {:induction false} ExtensionAfterDot(prefix: string, ext: string)
    requires forall i :: 0 <= i < |ext| ==> ext[i] != '.' && ext[i] != '/'
    ensures Extension(prefix + "." + ext) == Some(ext)
    decreases |ext|
  {
    var p := prefix + "." + ext;
    if ext == [] {
      assert p[|p| - 1] == '.';
    } else {
      var init := ext[..|ext| - 1];
      assert p[..|p| - 1] == prefix + "." + init;
      assert p[|p| - 1] == ext[|ext| - 1];
      ExtensionAfterDot(prefix, init);
      assert init + [ext[|ext| - 1]] == ext;
    }
  }

  lemma EntryExtensions()
    ensures Extension(ModelEntry) == Some("model")
    ensures Extension(RelsEntry) == Some("rels")
    ensures Extension(SettingsEntry) == Some("config")
    ensures Extension(ContentTypesEntry) == Some("xml")
  {
    assert ModelEntry == "3D/3dmodel" + "." + "model";
    ExtensionAfterDot("3D/3dmodel", "model");
    assert RelsEntry == "_rels/" + "." + "rels";
    ExtensionAfterDot("_rels/", "rels");
    assert SettingsEntry == "Metadata/model_settings" + "." + "config";
    ExtensionAfterDot("Metadata/model_settings", "config");
    assert ContentTypesEntry == "[Content_Types]" + "." + "xml";
    ExtensionAfterDot("[Content_Types]", "xml");
  }

  /** A file directly inside a plain directory is archived under its own name. */
  lemma JoinTop(root: string, file: string)
    requires PlainName(root) && file != [] && file[0] != '/'
    ensures Under(root, Join(root, file))
    ensures RelPath(root, Join(root, file)) == file
  {
    var p := Join(root, file);
    assert p == root + "/" + file;
    assert p[..|root| + 1] == root + "/";
  }

  /** A file in a plain sub-directory of a plain directory is archived as
      `dir/file`. */
  lemma JoinNested(root: string, dir: string, file: string)
    requires PlainName(root) && PlainName(dir) && dir[0] != '/' && file != [] && file[0] != '/'
    ensures Under(root, Join(Join(root, dir), file))
    ensures RelPath(root, Join(Join(root, dir), file)) == dir + "/" + file
  {
    var d := Join(root, dir);
    assert d == root + "/" + dir;
    assert d[|d| - 1] == dir[|dir| - 1];
    var p := Join(d, file);
    assert p == root + "/" + (dir + "/" + file);
    assert p[..|root| + 1] == root + "/";
  }

  lemma EntryNames()
    ensures "3D" + "/" + "3dmodel.model" == ModelEntry
    ensures "Metadata" + "/" + "model_settings.config" == SettingsEntry
    ensures "_rels" + "/" + ".rels" == RelsEntry
  {
  }

  /** Each staged file lies in the staging directory and is archived under
      its OPC part name. */
  lemma StagedPaths(root: string)
    requires PlainName(root)
    ensures Under(root, ModelFile(root)) && RelPath(root, ModelFile(root)) == ModelEntry
    ensures Under(root, SettingsFile(root)) && RelPath(root, SettingsFile(root)) == SettingsEntry
    ensures Under(root, ContentTypesFile(root)) && RelPath(root, ContentTypesFile(root)) == ContentTypesEntry
    ensures Under(root, RelsFile(root)) && RelPath(root, RelsFile(root)) == RelsEntry
  {
    JoinNested(root, "3D", "3dmodel.model");
    JoinNested(root, "Metadata", "model_settings.config");
    JoinNested(root, "_rels", ".rels");
    JoinTop(root, "[Content_Types].xml");
    EntryNames();
  }

  /** Every staged file lies in the staging directory, and the archive
      receives exactly the model part, the two packaging streams and, when
      written, the settings part, under their OPC part names. */
  lemma StagedEntries(root: string, withSettings: bool)
    requires PlainName(root)
    ensures forall f :: f in StagedFiles(root, withSettings) ==> Under(root, f)
    ensures Entries(root, StagedFiles(root, withSettings)) ==
      {ModelEntry, ContentTypesEntry, RelsEntry} + (if withSettings then {SettingsEntry} else {})
  {
    StagedPaths(root);
    var files := StagedFiles(root, withSettings);
    if withSettings {
      assert files == [ModelFile(root), SettingsFile(root), ContentTypesFile(root), RelsFile(root)];
    } else {
      assert files == [ModelFile(root), ContentTypesFile(root), RelsFile(root)];
    }
  }

  /** Both staging directories are plain relative directory names. */
  lemma StagingDirsPlain()
    ensures PlainName(BambuStagingDir) && PlainName(SeparateStagingDir)
  {
    assert BambuStagingDir == Join("output", "temp_generation") + "/" + "3mf_structure";
    assert SeparateStagingDir == Join("output", "temp_scad") + "/" + "temp_3mf";
  }

  lemma StagingDirs()
    ensures BambuStagingDir == "output/temp_generation/3mf_structure"
    ensures SeparateStagingDir == "output/temp_scad/temp_3mf"
  {
    assert Join("output", "temp_generation") == "output/temp_generation";
    assert Join("output", "temp_scad") == "output/temp_scad";
  }

  /** The relationship target is the absolute form of the model part name,
      and only the `rels` and `model` extensions have a content type: the
      Bambu settings part (`.config`) is archived without one. */
  lemma PackagingStreams()
    ensures forall r :: r in Relationships ==> r.target == "/" + ModelEntry
    ensures Declares(ContentTypes, Extension(ModelEntry)) && Declares(ContentTypes, Extension(RelsEntry))
    ensures !Declares(ContentTypes, Extension(SettingsEntry))
    ensures !Declares(ContentTypes, Extension(ContentTypesEntry))
  {
    EntryExtensions();
    assert ContentTypes[0].extension == "rels";
    assert ContentTypes[1].extension == "model";
  }

  /** The archive `create_bambu_3mf` of the component script writes. */
  function ComponentArchive(name: string, base: Mesh, text: Mesh): Archive
    requires PlainName(BambuStagingDir)
  {
    StagedEntries(BambuStagingDir, true);
    Archive(ContentTypes, Relationships, ModelDocument.ComponentModel(base, text),
      Some(Settings.ComponentSettings(name, ComponentDims)), Entries(BambuStagingDir, StagedFiles(BambuStagingDir, true)))
  }

  /** The archive `create_bambu_3mf` of the painted script writes. */
  function PaintedArchive(name: string, mesh: Mesh): Archive
    requires PlainName(BambuStagingDir)
  {
    StagedEntries(BambuStagingDir, true);
    Archive(ContentTypes, Relationships, ModelDocument.SingleObjectModel(mesh),
      Some(Settings.PaintedSettings(name, PaintedDims)), Entries(BambuStagingDir, StagedFiles(BambuStagingDir, true)))
  }

  /** The archive `create_3mf_with_separate_objects` writes. Its staging
      directory is not emptied first, so whatever an earlier run left there
      (`stale`) is archived too. */
  function SeparateArchive(name: string, base: Mesh, text: Mesh, stale: set<string>): Archive
    requires PlainName(SeparateStagingDir)
  {
    StagedEntries(SeparateStagingDir, false);
    Archive(ContentTypes, Relationships, ModelDocument.SeparateObjectsModel(name, base, text),
      None, Entries(SeparateStagingDir, StagedFiles(SeparateStagingDir, false)) + stale)
  }

  lemma RelationshipTarget()
    ensures |Relationships| == 1
    ensures Relationships[0].target == "/" + ModelEntry
    ensures Relationships[0].target[1..] == ModelEntry
    ensures Extension(Relationships[0].target) == Some("model")
  {
    var t := Relationships[0].target;
    assert t[1..] == ModelEntry;
    assert t == [t[0]] + t[1..];
    var q := "/3D/3dmodel" + "." + "model";
    assert |q| == |t| && forall i :: 0 <= i < |t| ==> q[i] == t[i];
    assert q == t;
    ExtensionAfterDot("/3D/3dmodel", "model");
  }

  lemma StreamsConsistent(a: Archive)
    requires a.contentTypes == ContentTypes && a.relationships == Relationships
    requires {ModelEntry, ContentTypesEntry, RelsEntry} <= a.entries
    ensures StreamsResolve(a)
  {
    PackagingStreams();
    RelationshipTarget();
  }

  /** The component settings name the assembly object 3 and the two mesh
      objects 1 and 2 of the component document. */
  lemma ComponentAgree(name: string, base: seq<Facet>, text: seq<Facet>)
    ensures SettingsAgree(ModelDocument.ComponentModel(Encode(base, 0.0), Encode(text, 0.0)),
      Settings.ComponentSettings(name, ComponentDims))
  {
    EncodeWellIndexed(base, 0.0);
    EncodeWellIndexed(text, 0.0);
    var m := ModelDocument.ComponentModel(Encode(base, 0.0), Encode(text, 0.0));
    ModelDocument.ComponentModelShape(Encode(base, 0.0), Encode(text, 0.0));
    Settings.ComponentSettingsShape(name, ComponentDims);
    assert m.build[0].objectId == 3;
    assert m.objects[0].id == 1 && m.objects[0].shape.MeshShape?;
    assert m.objects[1].id == 2 && m.objects[1].shape.MeshShape?;
  }

  /** The painted settings name the one mesh object 1 of the document. */
  lemma PaintedAgree(name: string, facets: seq<Facet>)
    ensures SettingsAgree(ModelDocument.SingleObjectModel(Encode(facets, 0.0)),
      Settings.PaintedSettings(name, PaintedDims))
  {
    EncodeWellIndexed(facets, 0.0);
    var m := ModelDocument.SingleObjectModel(Encode(facets, 0.0));
    ModelDocument.SingleObjectModelShape(Encode(facets, 0.0));
    assert m.build[0].objectId == 1;
  }

  /** The component archive is consistent: the assembly's build item, model
      instance and assemble item name object 3, and the two parts are the
      mesh objects 1 and 2. */
  lemma ComponentArchiveConsistent(name: string, base: seq<Facet>, text: seq<Facet>)
    ensures PlainName(BambuStagingDir)
    ensures Consistent(ComponentArchive(name, Encode(base, 0.0), Encode(text, 0.0)))
  {
    StagingDirsPlain();
    StagedEntries(BambuStagingDir, true);
    var a := ComponentArchive(name, Encode(base, 0.0), Encode(text, 0.0));
    StreamsConsistent(a);
    EncodeWellIndexed(base, 0.0);
    EncodeWellIndexed(text, 0.0);
    ModelDocument.ComponentModelShape(Encode(base, 0.0), Encode(text, 0.0));
    ComponentAgree(name, base, text);
  }

  /** The painted archive is consistent: its one object, instance and
      assemble item are the build item's object 1. */
  lemma PaintedArchiveConsistent(name: string, facets: seq<Facet>)
    ensures PlainName(BambuStagingDir)
    ensures Consistent(PaintedArchive(name, Encode(facets, 0.0)))
  {
    StagingDirsPlain();
    StagedEntries(BambuStagingDir, true);
    var a := PaintedArchive(name, Encode(facets, 0.0));
    StreamsConsistent(a);
    EncodeWellIndexed(facets, 0.0);
    ModelDocument.SingleObjectModelShape(Encode(facets, 0.0));
    PaintedAgree(name, facets);
  }

  /** The separate-objects archive has no settings part, so it is consistent
      exactly when no stale settings entry was left in its staging directory. */
  lemma SeparateArchiveConsistent(name: string, base: seq<Facet>, text: seq<Facet>, baseThickness: real, stale: set<string>)
    ensures PlainName(SeparateStagingDir)
    ensures Consistent(SeparateArchive(name, Encode(base, 0.0), Encode(text, baseThickness), stale)) <==>
      SettingsEntry !in stale
  {
    StagingDirsPlain();
    StagedEntries(SeparateStagingDir, false);
    var a := SeparateArchive(name, Encode(base, 0.0), Encode(text, baseThickness), stale);
    assert SettingsEntry in a.entries <==> SettingsEntry in stale;
    StreamsConsistent(a);
    EncodeWellIndexed(base, 0.0);
    EncodeWellIndexed(text, baseThickness);
    ModelDocument.SeparateObjectsModelShape(name, Encode(base, 0.0), Encode(text, baseThickness));
  }

  /** `create_bambu_3mf` of the component script. `base` and `text` are the
      facet soups read from the two STL files (None when reading fails) and
      `written` says whether every filesystem step (staging, writing the
      documents, zipping) succeeds. It reports success exactly when both
      meshes load and the files are written, and the archive it then
      produces is the component archive, which is consistent. */
  method CreateComponent3mf(name: string, base: Option<seq<Facet>>, text: Option<seq<Facet>>, written: bool)
    returns (ok: bool, archive: Option<Archive>)
    ensures ok <==> base.Some? && text.Some? && written
    ensures ok <==> archive.Some?
    ensures ok ==> (PlainName(BambuStagingDir) &&
      archive == Some(ComponentArchive(name, Encode(base.value, 0.0), Encode(text.value, 0.0))))
    ensures archive.Some? ==> Consistent(archive.value)
  {
    if base.None? || text.None? {
      return false, None;
    }
    var model := ModelDocument.CreateComponentModel(base.value, text.value);
    var settings := Settings.ComponentSettings(name, ComponentDims);
    StagingDirsPlain();
    StagedEntries(BambuStagingDir, true);
    var entries := Entries(BambuStagingDir, StagedFiles(BambuStagingDir, true));
    if !written {
      return false, None;
    }
    ComponentArchiveConsistent(name, base.value, text.value);
    ok, archive := true, Some(Archive(ContentTypes, Relationships, model, Some(settings), entries));
  }

  /** `create_bambu_3mf` of the painted script: one combined mesh, one
      object, the height bands in the settings part. */
  method CreatePainted3mf(name: string, combined: Option<seq<Facet>>, written: bool)
    returns (ok: bool, archive: Option<Archive>)
    ensures ok <==> combined.Some? && written
    ensures ok <==> archive.Some?
    ensures ok ==> (PlainName(BambuStagingDir) &&
      archive == Some(PaintedArchive(name, Encode(combined.value, 0.0))))
    ensures archive.Some? ==> Consistent(archive.value)
  {
    if combined.None? {
      return false, None;
    }
    var model := ModelDocument.CreateSingleObjectModel(combined.value);
    var settings := Settings.PaintedSettings(name, PaintedDims);
    StagingDirsPlain();
    StagedEntries(BambuStagingDir, true);
    var entries := Entries(BambuStagingDir, StagedFiles(BambuStagingDir, true));
    if !written {
      return false, None;
    }
    PaintedArchiveConsistent(name, combined.value);
    ok, archive := true, Some(Archive(ContentTypes, Relationships, model, Some(settings), entries));
  }

  /** `create_3mf_with_separate_objects`: two mesh objects, the text raised
      by the base thickness, no settings part. `stale` is what an earlier run
      left in the staging directory, which is archived along with the new
      files. */
  method CreateSeparateObjects3mf(name: string, base: Option<seq<Facet>>, text: Option<seq<Facet>>,
                                  stale: set<string>, written: bool)
    returns (ok: bool, archive: Option<Archive>)
    ensures ok <==> base.Some? && text.Some? && written
    ensures ok <==> archive.Some?
    ensures ok ==> (PlainName(SeparateStagingDir) &&
      archive == Some(SeparateArchive(name, Encode(base.value, 0.0), Encode(text.value, SeparateDims.baseThickness), stale)))
    ensures archive.Some? ==> (Consistent(archive.value) <==> SettingsEntry !in stale)
  {
    if base.None? || text.None? {
      return false, None;
    }
    var model := ModelDocument.CreateSeparateObjectsModel(name, base.value, text.value, SeparateDims.baseThickness);
    StagingDirsPlain();
    StagedEntries(SeparateStagingDir, false);
    var entries := Entries(SeparateStagingDir, StagedFiles(SeparateStagingDir, false)) + stale;
    if !written {
      return false, None;
    }
    SeparateArchiveConsistent(name, base.value, text.value, SeparateDims.baseThickness, stale);
    ok, archive := true, Some(Archive(ContentTypes, Relationships, model, None, entries));
  }
}
