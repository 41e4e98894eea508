/** Bambu Studio's per-object settings document
    (`Metadata/model_settings.config`): which parts an object has, the
    extruder of each part or of each painted height band, the plate's model
    instance and the assemble item. Values the scripts write as decimal text
    are kept as numbers here. */
module Settings {
  import opened Wrappers
  import opened Dimensions
  import Transforms

  /** The `text_info` element of a text part. */
  datatype TextInfo = TextInfo(
    text: string, fontName: string, styleName: string, boldness: nat,
    fontSize: nat, thickness: real, bold: bool, italic: bool)

  /** A `paint` element: a height range `[low, high]` and its extruder. */
  datatype PaintBand = PaintBand(extruder: nat, low: real, high: real)

  /** A `part` element with its metadata entries. */
  datatype Part = Part(
    id: nat, subtype: string, name: string, extruder: Option<nat>, matrix: string,
    sourceObjectId: Option<nat>, textInfo: Option<TextInfo>, paints: seq<PaintBand>)

  /** An `object` element of the settings document. */
  datatype SettingsObject = SettingsObject(id: nat, name: string, extruder: Option<nat>, parts: seq<Part>)

  /** A `model_instance` of the plate. */
  datatype ModelInstance = ModelInstance(objectId: nat, instanceId: nat)

  /** An `assemble_item`. */
  datatype AssembleItem = AssembleItem(objectId: nat, instanceId: nat, transform: string, offset: string)

  /** The `config` root: objects, the plate (its `plater_id` and model
      instances) and the assemble section. */
  datatype Config = Config(
    objects: seq<SettingsObject>, platerId: nat, instances: seq<ModelInstance>, assemble: seq<AssembleItem>)

  /** generate_bambu_3mf.py `_create_model_settings`: object 3 with the base
      part (extruder 1, from object 1) and the text part (extruder 2, from
      object 2, with its text descriptor). */
  function ComponentSettings(name: string, d: Dims): Config
  {
    Config(
      [SettingsObject(3, name + ".3mf", Some(1), [
        Part(1, "normal_part", name + " - Base", Some(1), Transforms.PartMatrix, Some(1), None, []),
        Part(2, "normal_part", name + " - Text", Some(2), Transforms.PartMatrix, Some(2),
             Some(TextInfo(name, "Arial", "Bold", 109, d.fontSize, d.textHeight, true, false)), [])])],
      1,
      [ModelInstance(3, 0)],
      [AssembleItem(3, 0, Transforms.UnitTransform, "0 0 0")])
  }

  /** generate_nameplates.py `_create_model_settings`: object 1 with one part
      covering the whole merged mesh, painted extruder 1 from 0 up to the
      base thickness and extruder 2 from there up by the text height. */
  function PaintedSettings(name: string, d: Dims): Config
  {
    Config(
      [SettingsObject(1, name + ".3mf", None, [
        Part(1, "normal_part", name, None, Transforms.PartMatrix, None, None,
             [PaintBand(1, 0.0, d.baseThickness),
              PaintBand(2, d.baseThickness, d.baseThickness + d.textHeight)])])],
      1,
      [ModelInstance(1, 0)],
      [AssembleItem(1, 0, Transforms.UnitTransform, "0 0 0")])
  }

  /** A height `z` lies in a band when read as the half-open `[low, high)`. */
  predicate InBand(b: PaintBand, z: real)
  {
    b.low <= z < b.high
  }

  /** Bands stacked bottom to top: each is non-empty, each starts where the
      one below ends, and neighbours use different extruders. */
  predicate Stacked(bands: seq<PaintBand>)
  {
    (forall i :: 0 <= i < |bands| ==> bands[i].low < bands[i].high) &&
    (forall i :: 0 <= i < |bands| - 1 ==> bands[i].high == bands[i + 1].low && bands[i].extruder != bands[i + 1].extruder)
  }

  lemma {:induction false} StackedRises(bands: seq<PaintBand>, i: int, j: int)
    requires Stacked(bands)
    requires 0 <= i < j < |bands|
    ensures bands[i].high <= bands[j].low
  {
    if j > i + 1 {
      StackedRises(bands, i, j - 1);
    }
  }

  /** In stacked bands every height from the bottom of the first band to the
      top of the last lies in exactly one band. */
  lemma {:induction false} StackedPartition(bands: seq<PaintBand>, z: real)
    requires Stacked(bands) && |bands| >= 1
    requires bands[0].low <= z < bands[|bands| - 1].high
    ensures exists i :: 0 <= i < |bands| && InBand(bands[i], z)
    ensures forall i, j :: 0 <= i < |bands| && 0 <= j < |bands| && InBand(bands[i], z) && InBand(bands[j], z) ==> i == j
  {
    if z < bands[0].high || |bands| == 1 {
      assert InBand(bands[0], z);
    } else {
      var rest := bands[1..];
      assert Stacked(rest);
      StackedPartition(rest, z);
      var k :| 0 <= k < |rest| && InBand(rest[k], z);
      assert InBand(bands[k + 1], z);
    }
    forall i, j | 0 <= i < |bands| && 0 <= j < |bands| && InBand(bands[i], z) && InBand(bands[j], z)
      ensures i == j
    {
      if i < j {
        StackedRises(bands, i, j);
      } else if j < i {
        StackedRises(bands, j, i);
      }
    }
  }

  /** The painted part's bands: `[0, base]` for extruder 1 and
      `[base, base + text]` for extruder 2; they are stacked, so any height
      from 0 to the top lies in exactly one band read half-open, and a height
      exactly at the base thickness belongs to the text band. */
  lemma PaintedBands(name: string, d: Dims)
    requires d.baseThickness > 0.0 && d.textHeight > 0.0
    ensures var bands := PaintedSettings(name, d).objects[0].parts[0].paints;
      bands == [PaintBand(1, 0.0, d.baseThickness), PaintBand(2, d.baseThickness, d.baseThickness + d.textHeight)] &&
      Stacked(bands) &&
      !InBand(bands[0], d.baseThickness) && InBand(bands[1], d.baseThickness)
    ensures var bands := PaintedSettings(name, d).objects[0].parts[0].paints;
      forall z :: 0.0 <= z < d.baseThickness + d.textHeight ==>
        (InBand(bands[0], z) || InBand(bands[1], z)) && !(InBand(bands[0], z) && InBand(bands[1], z))
  {
    var bands := PaintedSettings(name, d).objects[0].parts[0].paints;
    forall z | 0.0 <= z < d.baseThickness + d.textHeight
      ensures (InBand(bands[0], z) || InBand(bands[1], z)) && !(InBand(bands[0], z) && InBand(bands[1], z))
    {
      StackedPartition(bands, z);
    }
  }

  /** With generate_nameplates.py's own constants the bands are `[0, 2]` and
      `[2, 3.2]`. */
  lemma PaintedDimsBands(name: string)
    ensures PaintedSettings(name, PaintedDims).objects[0].parts[0].paints ==
      [PaintBand(1, 0.0, 2.0), PaintBand(2, 2.0, 3.2)]
    ensures Stacked(PaintedSettings(name, PaintedDims).objects[0].parts[0].paints)
  {
    PaintedBands(name, PaintedDims);
  }

  /** The component settings: object 3 (also the plate's model instance and
      the assemble item) with part 1 on extruder 1 taken from object 1 and
      part 2 on extruder 2 taken from object 2; only part 2 carries the text
      descriptor, for the name itself. */
  lemma ComponentSettingsShape(name: string, d: Dims)
    ensures var c := ComponentSettings(name, d);
      |c.objects| == 1 && c.objects[0].id == 3 &&
      |c.objects[0].parts| == 2 &&
      c.objects[0].parts[0].id == 1 && c.objects[0].parts[0].extruder == Some(1) &&
      c.objects[0].parts[0].sourceObjectId == Some(1) && c.objects[0].parts[0].textInfo == None &&
      c.objects[0].parts[1].id == 2 && c.objects[0].parts[1].extruder == Some(2) &&
      c.objects[0].parts[1].sourceObjectId == Some(2) &&
      c.objects[0].parts[1].textInfo.Some? && c.objects[0].parts[1].textInfo.value.text == name &&
      c.instances == [ModelInstance(3, 0)] && |c.assemble| == 1 && c.assemble[0].objectId == 3
  {
  }

  /** Every part matrix of both settings documents is the `matrix` literal
      (the 4x4 identity, see Transforms.PartMatrixIsIdentity) and every
      assemble transform the unit literal (the 3MF identity, see
      Transforms.UnitTransformIsIdentity). */
  lemma SettingsTransforms(name: string, d: Dims)
    ensures forall c :: c in [ComponentSettings(name, d), PaintedSettings(name, d)] ==>
      (forall o, p :: o in c.objects && p in o.parts ==> p.matrix == Transforms.PartMatrix) &&
      (forall a :: a in c.assemble ==> a.transform == Transforms.UnitTransform)
  {
  }
}
