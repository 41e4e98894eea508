# Nameplate 3MF generator, modelled in Dafny

Three Python scripts turn a person's name into a printable nameplate for
Bambu Studio:

- `generate_bambu_3mf.py` renders a base plate and raised text as two STL
  files. It then packs them into a 3MF package as two mesh objects, joined
  by a component assembly, with a Bambu `model_settings.config` that gives
  the base extruder 1 and the text extruder 2.
- `generate_nameplates.py` renders one combined STL. Its packaging routine
  writes a single mesh object whose settings paint it in two height bands.
  `generate_nameplate` never calls that routine.
- `generate_all_nameplates.py` renders base and text separately. It packs
  them as two independent mesh objects, with the text raised by the base
  thickness, and no settings part.

The model covers:

- plate sizing;
- the flat 3MF mesh encoding (the loop that numbers vertices);
- the model and settings documents and the references between them;
- the transform strings;
- the package's content types, relationships and archive entry names;
- safe file-name stems;
- reading the names list;
- each script's `generate_nameplate` and `generate_batch`.

Modules, one per file:

- `Geometry`: facets, vertices, the 3MF mesh encoding and its decoding.
- `Dimensions`: the three scripts' constants, and `round(w/5)*5`, with
  Python's round-half-to-even.
- `Transforms`: splitting and parsing of the transform strings, plus the
  12-value 3MF identity (chapter 3 of the 3MF Core Specification) and the
  16-value 4×4 identity.
- `ModelDocument`: objects, components and build items, the three
  documents, and reference integrity.
- `Settings`: the Bambu settings document, its parts and the paint bands.
- `Package`: the OPC streams (ECMA-376 Part 2), staging paths turned into
  entry names, archive consistency and the three `create_*` routines.
- `Names`: `safe_name`, `str.strip`, the names file and source priority.
- `Pipeline`: `generate_nameplate` and `generate_batch` of each script.

The outside world is an input rather than an effect:

- Whether the OpenSCAD source files can be written is a boolean. None of
  the scripts catches an error there, so a failed write ends the batch.
- OpenSCAD render results are booleans.
- The STL meshes read back are `Option<seq<Facet>>`, with None when reading
  fails.
- Whether the package files get written is a boolean.
- The leftover content of the separate-objects staging directory is a set
  of entry names.

Behaviour worth knowing, all proved below:

- The build-item transform literal of the component document (`1 0 0 0 0 1
  0 0 0 0 1 0`) is commented as an identity. In 3MF order it is not one
  (m11 = 0, m12 = 1, m22 = 0). It is kept as written.
- The content types declare only `rels` and `model`. The Bambu `.config`
  part has no declared content type.
- The component script writes `os.path.join("output", name + ".3mf")`
  with the raw name. A `/` after the first character aims into a
  sub-directory of `output` that is never created. A name starting with `/`
  is an absolute path to `os.path.join`, which then drops `output`: the
  package goes to `/<name>.3mf`. The painted script uses the safe stem,
  which has no `/`, so its STL file always lies directly in `output`.
- The separate-objects stem keeps `/`, with the same two consequences for
  its package. For its OpenSCAD sources the first one means a write into
  a missing directory, which ends the whole batch (see Findings). Names
  differing only in ASCII case share one output file, and so do `A B` and
  `A_B` in the painted script.
- The separate-objects staging directory is not emptied before use. Its
  package is consistent exactly when no stale settings entry is left there.
- In the separate-objects script the text is already raised in its
  OpenSCAD source (generate_all_nameplates.py:146), and the mesh loop adds
  the base thickness to z again (:238). The model raises by the base
  thickness exactly once, in the mesh loop, as written there.

## Model

| member | source | states |
|---|---|---|
| Geometry.AddMeshToObject | generate_bambu_3mf.py:237-256 | the loop emits three vertices and one triangle per facet, in order; triangle i is (3i, 3i+1, 3i+2); the mesh equals the reference encoding |
| Geometry.FlattenAt | generate_nameplates.py:213-232 | the vertex list has 3n entries, and entries 3i, 3i+1 and 3i+2 are facet i's corners in winding order, raised by dz |
| Geometry.IndexedAt | generate_bambu_3mf.py:243-256 | there are n triangles and triangle i is (3i, 3i+1, 3i+2): the counter is always 3i |
| Geometry.EncodeWellIndexed | generate_all_nameplates.py:206-219 | every triangle's three indices are distinct and below the vertex count, and there are three vertices per triangle |
| Geometry.EncodeRoundTrip | generate_bambu_3mf.py:237-256 | reading the encoded mesh back by its indices gives the input facets (raised by dz), and the facets themselves when dz is 0 |
| Dimensions.RoundHalfEven | generate_bambu_3mf.py:52 | Python's round: within 0.5 of the argument, with ties going to the even integer |
| Dimensions.RoundMonotone | generate_bambu_3mf.py:52 | rounding never reverses order |
| Dimensions.PlateWidthBounds | generate_bambu_3mf.py:37-53 | the plate width is a multiple of 5, at least the minimum, and within 2.5 of the clamped text width plus margins |
| Dimensions.PlateWidthEmpty | generate_nameplates.py:43-53 | the empty name gets exactly the minimum width |
| Dimensions.PlateWidthMonotone | generate_all_nameplates.py:34-53 | a longer name never gets a narrower plate |
| Dimensions.ScriptsSensible | generate_all_nameplates.py:13-23 | each script's minimum width is a multiple of 5 that holds both margins, and its character width is non-negative |
| Dimensions.ComponentPlateWidth | generate_bambu_3mf.py:37-53 | multiple of 5, at least 30, and within 2.5 of max(len·3.75 + 10, 30) |
| Dimensions.ComponentPlateWidthTie | generate_bambu_3mf.py:43-53 | a six-character name gives 32.5, which rounds to 30 (half-to-even), where half-up would give 35 |
| Dimensions.PaintedPlateWidth | generate_nameplates.py:37-53 | multiple of 5, at least 40, and within 2.5 of max(len·6.3 + 14, 40) |
| Dimensions.SeparatePlateWidth | generate_all_nameplates.py:34-53 | multiple of 5, at least 60, and within 2.5 of max(len·6 + 16, 60) |
| Transforms.SplitFrom | generate_bambu_3mf.py:212-221 | splitting on single spaces yields space-free fields |
| Transforms.SplitJoin | generate_bambu_3mf.py:211-229 | the fields of a split, joined again with single spaces, are the text itself |
| Transforms.SplitRoundTrip | generate_bambu_3mf.py:211-229 | `' '.join(s.split(' ')) == s` for every text |
| Transforms.SplitSingleDigits | generate_bambu_3mf.py:212-221 | a string of single-digit fields splits into exactly those fields |
| Transforms.ParseSingleDigitTokens | generate_bambu_3mf.py:212-221 | single-digit fields parse to their digit values |
| Transforms.ParseDigitFields | generate_bambu_3mf.py:212-227 | a string of single-digit fields parses to its list of values |
| Transforms.UnitTransformIsIdentity | generate_bambu_3mf.py:212-221 | the component transform parses to twelve numbers that form the 3MF identity |
| Transforms.PartMatrixIsIdentity | generate_bambu_3mf.py:290-294 | the part matrix parses to sixteen numbers that form the 4×4 identity |
| Transforms.BuildItemTransformIsNotIdentity | generate_bambu_3mf.py:223-227 | the build-item transform parses to twelve numbers that are not the 3MF identity (m11 = 0, m12 = 1, m22 = 0); they are the first twelve values of the 4×4 identity |
| ModelDocument.ComponentModelShape | generate_bambu_3mf.py:190-229 | objects 1, 2 and 3 are distinct; 1 and 2 hold meshes; 3 holds components naming 1 and 2; the single build item names 3 and is printable; every reference resolves |
| ModelDocument.ComponentModelTransforms | generate_bambu_3mf.py:211-221 | both component transforms parse to the 3MF identity |
| ModelDocument.ComponentBuildItemTransform | generate_bambu_3mf.py:223-229 | the build item's transform, commented as an identity, parses to values that are not the 3MF identity |
| ModelDocument.SingleObjectModelShape | generate_nameplates.py:193-205 | one object, id 1, holding a mesh; no components; one build item naming 1 |
| ModelDocument.SeparateObjectsModelShape | generate_all_nameplates.py:196-249 | objects 1 and 2 hold meshes, with no composite; two build items name 1 then 2, both declared |
| ModelDocument.SeparateBaseUnchanged | generate_all_nameplates.py:206-214 | the base vertices are the base facets' corners, unchanged and in order |
| ModelDocument.SeparateTextRaised | generate_all_nameplates.py:232-240 | text vertices keep x and y and gain the base thickness in z |
| ModelDocument.SeparateTextLocal | generate_all_nameplates.py:231-245 | the text's indices restart at 0: bounded by the text's own vertex count, whatever the base's size |
| ModelDocument.CreateComponentModel | generate_bambu_3mf.py:166-235 | builds the component document from the two meshes through the mesh loop; the document is valid |
| ModelDocument.CreateSingleObjectModel | generate_nameplates.py:169-211 | builds the single-object document through the mesh loop; the document is valid |
| ModelDocument.CreateSeparateObjectsModel | generate_all_nameplates.py:186-249 | builds the two-object document, restarting the counter for the text and raising it; the document is valid |
| Settings.StackedRises | generate_nameplates.py:262-291 | in stacked bands an earlier band lies wholly below a later one |
| Settings.StackedPartition | generate_nameplates.py:262-291 | every height inside stacked bands lies in exactly one band |
| Settings.PaintedBands | generate_nameplates.py:262-291 | band 1 is [0, base thickness) with extruder 1 and band 2 is [base thickness, base thickness + text height) with extruder 2; they meet exactly, each is non-empty, the extruders differ, and every height on the part is painted once |
| Settings.PaintedDimsBands | generate_nameplates.py:262-291 | with the painted script's constants the bands are [0, 2) and [2, 3.2) |
| Settings.ComponentSettingsShape | generate_bambu_3mf.py:258-359 | settings object 3 holds part 1 (extruder 1, source object 1) and part 2 (extruder 2, source object 2, with its text settings); instance and assemble item name object 3 |
| Settings.SettingsTransforms | generate_bambu_3mf.py:290-357 | every part matrix is the 4×4 identity text and every assemble transform is the 3MF identity text, in both settings documents |
| Package.ExtensionAfterDot | generate_bambu_3mf.py:367-388 | the extension of a name ending in `.ext` is `ext` |
| Package.EntryExtensions | generate_bambu_3mf.py:367-388 | the model, rels, settings and content-types entries have the extensions model, rels, config and xml |
| Package.JoinTop | generate_bambu_3mf.py:148-153 | a file directly in the staging directory is archived under its own name |
| Package.JoinNested | generate_bambu_3mf.py:130-153 | a file in a sub-directory is archived as `dir/file` |
| Package.StagedPaths | generate_bambu_3mf.py:130-153 | each staged file lies in the staging directory and is archived under its part name |
| Package.StagedEntries | generate_bambu_3mf.py:124-153 | the archive entries are exactly the model part, the two packaging streams and, when written, the settings part |
| Package.StagingDirs | generate_all_nameplates.py:180 | the two staging directories, written out |
| Package.StagingDirsPlain | generate_all_nameplates.py:180 | both staging directories are plain relative names without a trailing separator |
| Package.PackagingStreams | generate_bambu_3mf.py:367-411 | the relationship targets `/` plus the model part name; `model` and `rels` are declared, `config` and `xml` are not |
| Package.RelationshipTarget | generate_bambu_3mf.py:399-403 | the one relationship targets `/3D/3dmodel.model`, whose extension is `model` |
| Package.StreamsConsistent | generate_bambu_3mf.py:367-411 | with these streams, every relationship resolves to an archive entry with a declared content type |
| Package.ComponentAgree | generate_bambu_3mf.py:258-359 | the component settings name only the assembly object of the build and the two mesh objects |
| Package.PaintedAgree | generate_nameplates.py:234-320 | the painted settings name only the one mesh object of the build |
| Package.ComponentArchiveConsistent | generate_bambu_3mf.py:113-159 | the component package is consistent: references resolve and the settings agree with the model |
| Package.PaintedArchiveConsistent | generate_nameplates.py:117-162 | the painted package is consistent |
| Package.SeparateArchiveConsistent | generate_all_nameplates.py:168-308 | the separate-objects package is consistent exactly when no stale settings entry is in its staging directory |
| Package.CreateComponent3mf | generate_bambu_3mf.py:113-164 | succeeds exactly when both meshes load and the writes succeed; the package is then the consistent component package |
| Package.CreatePainted3mf | generate_nameplates.py:117-167 | succeeds exactly when the mesh loads and the writes succeed; the package is then the consistent painted package |
| Package.CreateSeparateObjects3mf | generate_all_nameplates.py:168-313 | succeeds exactly when both meshes load and the writes succeed; the package includes stale entries, and is consistent exactly when none of them is the settings entry |
| Names.Replace | generate_bambu_3mf.py:415 | every occurrence of one character becomes the other, and nothing else changes |
| Names.AsciiLower | generate_all_nameplates.py:318 | ASCII capitals become lower case, and nothing else changes |
| Names.SafeNameClean | generate_nameplates.py:374 | the stem has no space and no slash, keeps the length, and keeps every other character in place |
| Names.SafeNameIdempotent | generate_nameplates.py:374 | sanitising twice is sanitising once |
| Names.SafeNameCollides | generate_bambu_3mf.py:415 | `A B`, `A/B` and `A_B` share a stem |
| Names.SafeNameLowerClean | generate_all_nameplates.py:318 | the stem has no space and no ASCII capital, keeps every slash, and is stable when applied twice |
| Names.SafeNameLowerCaseBlind | generate_all_nameplates.py:318 | names equal up to ASCII case share a stem |
| Names.SafeNameLowerCollides | generate_all_nameplates.py:318 | `Ann` and `ann` share a stem |
| Names.StripLeft | generate_all_nameplates.py:420 | drops exactly the leading whitespace |
| Names.StripRight | generate_all_nameplates.py:420 | drops exactly the trailing whitespace |
| Names.StripTrimmed | generate_all_nameplates.py:420 | a stripped line is empty or neither starts nor ends with whitespace |
| Names.StripSlice | generate_all_nameplates.py:420 | the stripped line is a slice of the line with only whitespace cut at both ends |
| Names.StripEmptyAllSpace | generate_all_nameplates.py:420 | a line that strips to nothing is all whitespace |
| Names.AllSpaceStripEmpty | generate_all_nameplates.py:420 | an all-whitespace line strips to nothing |
| Names.StripBlank | generate_all_nameplates.py:420 | a line strips to nothing exactly when it is all whitespace |
| Names.StripIdempotent | generate_all_nameplates.py:420 | stripping twice is stripping once |
| Names.NewlineCount | generate_all_nameplates.py:419-420 | counts line breaks; never more than the length |
| Names.LinesCount | generate_all_nameplates.py:419-420 | there is one line more than there are line breaks |
| Names.LinesConcat | generate_all_nameplates.py:419-420 | the lines put back together are the text without its line breaks |
| Names.LinesClean | generate_all_nameplates.py:419-420 | no line holds a line break |
| Names.LinesOne | generate_all_nameplates.py:419-420 | a text without line breaks is a single line, itself |
| Names.LinesBreak | generate_all_nameplates.py:419-420 | the text up to the first line break is the first line, and the lines after it are the lines of the rest, in order |
| Names.NonBlank | generate_bambu_3mf.py:513 | keeps no more entries than there are lines |
| Names.NonBlankTrimmed | generate_bambu_3mf.py:513 | every kept entry is non-empty and has no whitespace at either end |
| Names.NonBlankAppend | generate_nameplates.py:456 | the comprehension keeps file order: reading two pieces is reading each in turn |
| Names.NonBlankMembers | generate_all_nameplates.py:420 | every name is a stripped line, and every non-blank line contributes its stripped form |
| Names.StripNoNewline | generate_all_nameplates.py:420 | stripping a line without line breaks leaves none |
| Names.NonBlankNoNewline | generate_all_nameplates.py:419-420 | names kept from lines without line breaks hold none |
| Names.NamesFromFileClean | generate_all_nameplates.py:417-420 | names from the file are non-empty, have no edge whitespace and no line break, and are no more than the lines |
| Names.SelectNamesSources | generate_all_nameplates.py:417-428 | an existing names file decides, whatever the arguments; otherwise the arguments after the program name are taken verbatim when there are any, else the defaults; without a file the list is never empty |
| Names.EmptyNamesFile | generate_all_nameplates.py:417-420 | an existing empty names file gives no names, whatever the arguments |
| Pipeline.GenerateComponentNameplate | generate_bambu_3mf.py:413-458 | write the sources (a failure ends the run), render base, then text, then package, stopping at the first failure; success exactly when every step succeeds, and the package is then the component archive of this name's base and text meshes, which is consistent; the output path is `os.path.join("output", name + ".3mf")` on the raw name |
| Pipeline.GeneratePaintedNameplate | generate_nameplates.py:372-401 | write the source (a failure ends the run), then one combined render into `output/<safe name>.stl`; never packages; success is the render's |
| Pipeline.GenerateSeparateNameplate | generate_all_nameplates.py:315-365 | write both sources under the lower-case stem (a failure ends the run with no record); both renders always attempted; packaging only after both succeed; success is the packaging result, and the package is then the separate-objects archive of this name's base mesh and its text mesh raised by the base thickness, with the stale entries; `threemf` is the package path exactly on success; the width is the plate width |
| Pipeline.ComponentBatch | generate_bambu_3mf.py:460-471 | one record per name, in input order, with that name's outcome, up to the first name whose sources cannot be written, which ends the batch |
| Pipeline.PaintedBatch | generate_nameplates.py:403-414 | one record per name, in input order, with that name's outcome, up to the first name whose source cannot be written |
| Pipeline.SeparateBatch | generate_all_nameplates.py:367-378 | up to the first name whose sources cannot be written, one record per name, in input order: name, width, success and `threemf` as that name's run gives them |
| Pipeline.SeparateBatchCaught | generate_all_nameplates.py:309-313 | with a failed source write recorded as a failure, every name gets a record, in order, and succeeds exactly when its sources are written and every later step succeeds |
| Pipeline.Successful | generate_bambu_3mf.py:478 | keeps only successful records, drawn from the results |
| Pipeline.Failed | generate_nameplates.py:422 | keeps only failed records, drawn from the results |
| Pipeline.SummaryPartition | generate_all_nameplates.py:385-386 | successful and failed together are the results as a multiset, so the counts add up |
| Pipeline.SummaryMembers | generate_nameplates.py:421-422 | each record is listed as successful exactly when it succeeded, and as failed exactly when it did not |
| Pipeline.OutputPathNested | generate_bambu_3mf.py:426 | a name with a `/` after its first character puts the component and separate-objects packages into a sub-directory of `output` |
| Pipeline.OutputPathAbsolute | generate_all_nameplates.py:348 | a name starting with `/` puts the component and separate-objects packages at `/<name>.3mf`, outside `output` |
| Pipeline.PaintedOutputFlat | generate_nameplates.py:374-380 | the painted STL file always lies directly in `output`, whatever the name |
| Pipeline.ScadPathNested | generate_all_nameplates.py:318-337 | a separate-objects name with a `/` after its first character has its sources written into a sub-directory of `output/temp_scad` |
| Pipeline.ScadPathSlashExample | generate_all_nameplates.py:318-337 | `A/B` is such a name |
| Pipeline.OutputsCollide | generate_all_nameplates.py:318-348 | distinct names can share an output file: `A B` / `A_B` (painted) and `Ann` / `ann` (separate objects) |

## Left out

- OpenSCAD source generation (`generate_scad_*`): the text is an f-string
  with nothing to prove, and the width it embeds is `PlateWidth`. Only
  whether the write succeeds is modelled. A missing directory, a name too
  long for a file name or any other `OSError` is one input, and it ends
  the batch in all three scripts.
- `render_stl`: an OpenSCAD subprocess with a 60-second timeout. Its result
  is a boolean input.
- STL loading (numpy-stl): the facet soup is an input, and None stands for
  any failure to read it.
- XML serialisation: escaping, indentation, the XML declaration, namespaces,
  the `unit` attribute and `str()` formatting of coordinates. Documents are
  values, and coordinates are reals.
- Metadata entries (application, version, dates, title) and the
  `model_settings.config` plate metadata. They are not cross-referenced.
- Filesystem staging, zipping, deflate, `os.walk` order and cleanup. Only the
  set of entry names is modelled. A failed run produces no package in the
  model, though the script may leave a partial zip and the staging
  directory behind.
- Console output (`print`, tracebacks). Also `calculate_plate_width` in the
  component and painted drivers, which only feeds a printed line.
- Python's float arithmetic: widths and band limits are reals, so ties
  whose binary value is inexact may round differently in the scripts.
- Settings numbers (`extruder`, heights, font size) are kept as numbers,
  not as the attribute text they are written as.
- Transforms.ParseNumbers: parses fields of decimal digits only, which
  covers every transform literal the scripts write, but not signs,
  fractions or exponents.
- Names.AsciiLower: `str.lower()` is modelled on ASCII letters only.
  Other cased characters are kept.
- Names.Lines: splits at every `\n` and every `\r`. Python's universal
  newlines treat `\r\n` as one break; the extra empty line this yields is
  dropped by the non-blank filter, so the names read are the same.
- Pipeline.ComponentBatch, Pipeline.PaintedBatch, Pipeline.SeparateBatch:
  the environment is a function of the name, so two runs for the same name
  in one batch meet the same outcome. Nothing links one run to the next,
  so what a failed separate-objects run leaves in its staging directory is
  not carried into the next run's `stale` set.
- The painted script's `create_bambu_3mf` is unreachable from its
  `generate_nameplate`. It is modelled as `Package.CreatePainted3mf` all
  the same.

## Findings

| source | as written | input that shows it | evidently intended | confidence | as-written member | corrected member |
|---|---|---|---|---|---|---|
| generate_all_nameplates.py:318-337, :367-378 | The stem keeps `/`, so the OpenSCAD sources go into a sub-directory of `output/temp_scad` that is never created. The `open` at :136 then raises, and nothing catches it: the batch ends and later names get no record. | the name `A/B`, whose base source is `output/temp_scad/a/b_base.scad` | The failure is recorded as a failed name and the batch goes on, as the packaging step already does at :309-313. | not executed; medium | Pipeline.SeparateBatch, Pipeline.ScadPathSlashExample | Pipeline.SeparateBatchCaught |
