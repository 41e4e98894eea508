/** The drivers: `generate_nameplate` of each script (render, then package,
    with the short-circuits each script has) and `generate_batch` (one
    result per name, in order, then the successful / failed split). The
    environment a run meets (render results, meshes read back, what the
    staging directory still holds, whether the filesystem writes go through)
    is an input. */
module Pipeline {
  import opened Wrappers
  import opened Geometry
  import opened Dimensions
  import opened Names
  import Package

  /** The external steps a run can attempt. */
  datatype Step = WriteScad | RenderBase | RenderText | RenderCombined | Package3mf

  /** What the outside world does for one name: whether the OpenSCAD source
      files can be written (the scripts catch no error there), whether each
      OpenSCAD render succeeds, the facet soups read back from the STL files
      (None when reading fails), what an earlier run left in the
      separate-objects staging directory, and whether the package files are
      written. */
  datatype Env = Env(
    scadWritten: bool,
    baseRendered: bool, textRendered: bool, combinedRendered: bool,
    base: Option<seq<Facet>>, text: Option<seq<Facet>>,
    stale: set<string>, written: bool)

  /** A result record of the component and painted scripts. */
  datatype Report = Report(name: string, success: bool)

  /** A result record of the separate-objects script. */
  datatype SeparateReport = SeparateReport(name: string, threemf: Option<string>, width: int, success: bool)

  const OutputDir := "output"

  /** `scad_dir` of the separate-objects script. */
  const SeparateScadDir := Package.Join(OutputDir, "temp_scad")

  /** Both renders, both STL reads and the package writes go through. */
  predicate Succeeds(env: Env)
  {
    env.baseRendered && env.textRendered && env.base.Some? && env.text.Some? && env.written
  }

  /** `generate_nameplate` of the component script: write the OpenSCAD
      sources, which raises out of the run when it fails; render the base,
      stop if that fails; render the text, stop if that fails; package. It
      succeeds exactly when every step does, and then the package is the
      consistent component archive, written to `os.path.join("output",
      name + ".3mf")` under the name as given. */
  method GenerateComponentNameplate(name: string, env: Env)
    returns (aborted: bool, success: bool, steps: seq<Step>, output: string, archive: Option<Package.Archive>)
    ensures aborted <==> !env.scadWritten
    ensures steps == [WriteScad] +
      (if aborted then []
       else if !env.baseRendered then [RenderBase]
       else if !env.textRendered then [RenderBase, RenderText]
       else [RenderBase, RenderText, Package3mf])
    ensures Package3mf in steps <==> env.scadWritten && env.baseRendered && env.textRendered
    ensures success <==> !aborted && Succeeds(env)
    ensures success <==> archive.Some?
    ensures archive.Some? ==> (Package.PlainName(Package.BambuStagingDir) && env.base.Some? && env.text.Some? &&
      archive.value == Package.ComponentArchive(name, Encode(env.base.value, 0.0), Encode(env.text.value, 0.0)))
    ensures archive.Some? ==> Package.Consistent(archive.value)
    ensures output == Package.Join(OutputDir, name + ".3mf")
  {
    output := Package.Join(OutputDir, name + ".3mf");
    archive := None;
    steps := [WriteScad];
    if !env.scadWritten {
      return true, false, steps, output, archive;
    }
    aborted := false;
    steps := steps + [RenderBase];
    if !env.baseRendered {
      return aborted, false, steps, output, archive;
    }
    steps := steps + [RenderText];
    if !env.textRendered {
      return aborted, false, steps, output, archive;
    }
    steps := steps + [Package3mf];
    success, archive := Package.CreateComponent3mf(name, env.base, env.text, env.written);
  }

  /** `generate_nameplate` of the painted script: write the OpenSCAD source
      (an uncaught error there ends the run), then one combined render into
      `output/<safe name>.stl`; the package builder of that script is never
      reached. */
  method GeneratePaintedNameplate(name: string, env: Env)
    returns (aborted: bool, success: bool, steps: seq<Step>, stl: string)
    ensures aborted <==> !env.scadWritten
    ensures steps == [WriteScad] + (if aborted then [] else [RenderCombined])
    ensures Package3mf !in steps
    ensures success <==> !aborted && env.combinedRendered
    ensures stl == Package.Join(OutputDir, SafeName(name) + ".stl")
  {
    stl := Package.Join(OutputDir, SafeName(name) + ".stl");
    steps := [WriteScad];
    aborted := !env.scadWritten;
    success := false;
    if !aborted {
      steps := steps + [RenderCombined];
      success := env.combinedRendered;
    }
  }

  /** `generate_nameplate` of the separate-objects script: write the two
      OpenSCAD sources under the lower-case stem (an uncaught error there
      ends the run with no record), then attempt both renders, and package
      only when both succeed; the record names the package exactly when it
      succeeded and always carries the plate width. */
  method GenerateSeparateNameplate(name: string, env: Env)
    returns (report: Option<SeparateReport>, steps: seq<Step>, scadBase: string, archive: Option<Package.Archive>)
    ensures scadBase == Package.Join(SeparateScadDir, SafeNameLower(name) + "_base.scad")
    ensures report.None? <==> !env.scadWritten
    ensures steps == [WriteScad] +
      (if !env.scadWritten then []
       else [RenderBase, RenderText] + (if env.baseRendered && env.textRendered then [Package3mf] else []))
    ensures report.Some? ==>
      report.value.name == name && report.value.width == PlateWidth(SeparateDims, name) &&
      (report.value.success <==> Succeeds(env)) &&
      report.value.threemf == (if report.value.success
        then Some(Package.Join(OutputDir, SafeNameLower(name) + ".3mf")) else None)
    ensures archive.Some? <==> report.Some? && report.value.success
    ensures archive.Some? ==> (Package.PlainName(Package.SeparateStagingDir) && env.base.Some? && env.text.Some? &&
      archive.value == Package.SeparateArchive(name, Encode(env.base.value, 0.0),
        Encode(env.text.value, SeparateDims.baseThickness), env.stale))
    ensures archive.Some? ==> (Package.Consistent(archive.value) <==> Package.SettingsEntry !in env.stale)
  {
    var safe := SafeNameLower(name);
    var width := PlateWidth(SeparateDims, name);
    scadBase := Package.Join(SeparateScadDir, safe + "_base.scad");
    steps := [WriteScad];
    archive := None;
    if !env.scadWritten {
      return None, steps, scadBase, archive;
    }
    steps := steps + [RenderBase, RenderText];
    var threemf := Package.Join(OutputDir, safe + ".3mf");
    var success3mf := false;
    if env.baseRendered && env.textRendered {
      steps := steps + [Package3mf];
      success3mf, archive := Package.CreateSeparateObjects3mf(name, env.base, env.text, env.stale, env.written);
    }
    report := Some(SeparateReport(name, if success3mf then Some(threemf) else None, width, success3mf));
  }

  /** `generate_batch` of the component script: one record per name, in
      input order, carrying that name's outcome, until a name whose OpenSCAD
      sources cannot be written ends the whole batch. */
  method ComponentBatch(names: seq<string>, env: string -> Env) returns (results: seq<Report>, aborted: bool)
    ensures |results| <= |names|
    ensures aborted <==> |results| < |names|
    ensures forall k :: 0 <= k < |results| ==> env(names[k]).scadWritten
    ensures aborted ==> !env(names[|results|]).scadWritten
    ensures forall i :: 0 <= i < |results| ==> results[i] == Report(names[i], Succeeds(env(names[i])))
  {
    results := [];
    var i := 0;
    while i < |names|
      invariant 0 <= i <= |names|
      invariant |results| == i
      invariant forall k :: 0 <= k < i ==> env(names[k]).scadWritten
      invariant forall k :: 0 <= k < i ==> results[k] == Report(names[k], Succeeds(env(names[k])))
    {
      var stop, success, _, _, _ := GenerateComponentNameplate(names[i], env(names[i]));
      if stop {
        return results, true;
      }
      results := results + [Report(names[i], success)];
      i := i + 1;
    }
    aborted := false;
  }

  /** `generate_batch` of the painted script, ended the same way by a name
      whose OpenSCAD source cannot be written. */
  method PaintedBatch(names: seq<string>, env: string -> Env) returns (results: seq<Report>, aborted: bool)
    ensures |results| <= |names|
    ensures aborted <==> |results| < |names|
    ensures forall k :: 0 <= k < |results| ==> env(names[k]).scadWritten
    ensures aborted ==> !env(names[|results|]).scadWritten
    ensures forall i :: 0 <= i < |results| ==> results[i] == Report(names[i], env(names[i]).combinedRendered)
  {
    results := [];
    var i := 0;
    while i < |names|
      invariant 0 <= i <= |names|
      invariant |results| == i
      invariant forall k :: 0 <= k < i ==> env(names[k]).scadWritten
      invariant forall k :: 0 <= k < i ==> results[k] == Report(names[k], env(names[k]).combinedRendered)
    {
      var stop, success, _, _ := GeneratePaintedNameplate(names[i], env(names[i]));
      if stop {
        return results, true;
      }
      results := results + [Report(names[i], success)];
      i := i + 1;
    }
    aborted := false;
  }

  /** The record the separate-objects script keeps for a name whose run
      reaches its end. */
  predicate SeparateRecord(r: SeparateReport, name: string, env: Env)
  {
    r.name == name && r.width == PlateWidth(SeparateDims, name) &&
    (r.success <==> Succeeds(env)) &&
    r.threemf == (if r.success then Some(Package.Join(OutputDir, SafeNameLower(name) + ".3mf")) else None)
  }

  /** `generate_batch` of the separate-objects script as written: each
      record is that name's record from `generate_nameplate`, and the first
      name whose OpenSCAD sources cannot be written ends the batch. */
  method SeparateBatch(names: seq<string>, env: string -> Env) returns (results: seq<SeparateReport>, aborted: bool)
    ensures |results| <= |names|
    ensures aborted <==> |results| < |names|
    ensures forall k :: 0 <= k < |results| ==> env(names[k]).scadWritten
    ensures aborted ==> !env(names[|results|]).scadWritten
    ensures forall i :: 0 <= i < |results| ==> SeparateRecord(results[i], names[i], env(names[i]))
  {
    results := [];
    var i := 0;
    while i < |names|
      invariant 0 <= i <= |names|
      invariant |results| == i
      invariant forall k :: 0 <= k < i ==> env(names[k]).scadWritten
      invariant forall k :: 0 <= k < i ==> SeparateRecord(results[k], names[k], env(names[k]))
    {
      var report, _, _, _ := GenerateSeparateNameplate(names[i], env(names[i]));
      if report.None? {
        return results, true;
      }
      results := results + [report.value];
      i := i + 1;
    }
    aborted := false;
  }

  /** `generate_batch` of the separate-objects script as its packaging step
      already treats errors: a name whose OpenSCAD sources cannot be written
      is recorded as failed, and the batch goes on, so every name gets a
      record. */
  method SeparateBatchCaught(names: seq<string>, env: string -> Env) returns (results: seq<SeparateReport>)
    ensures |results| == |names|
    ensures forall i :: 0 <= i < |names| ==>
      if env(names[i]).scadWritten then SeparateRecord(results[i], names[i], env(names[i]))
      else results[i] == SeparateReport(names[i], None, PlateWidth(SeparateDims, names[i]), false)
    ensures forall i :: 0 <= i < |names| ==>
      (results[i].success <==> env(names[i]).scadWritten && Succeeds(env(names[i])))
  {
    results := [];
    var i := 0;
    while i < |names|
      invariant 0 <= i <= |names|
      invariant |results| == i
      invariant forall k :: 0 <= k < i ==>
        if env(names[k]).scadWritten then SeparateRecord(results[k], names[k], env(names[k]))
        else results[k] == SeparateReport(names[k], None, PlateWidth(SeparateDims, names[k]), false)
      invariant forall k :: 0 <= k < i ==>
        (results[k].success <==> env(names[k]).scadWritten && Succeeds(env(names[k])))
    {
      var report, _, _, _ := GenerateSeparateNameplate(names[i], env(names[i]));
      var r := if report.Some? then report.value
        else SeparateReport(names[i], None, PlateWidth(SeparateDims, names[i]), false);
      results := results + [r];
      i := i + 1;
    }
  }

  /** `[r for r in results if r['success']]`. */
  function Successful<R>(results: seq<R>, ok: R -> bool): (r: seq<R>)
    ensures |r| <= |results|
    ensures forall x :: x in r ==> x in results && ok(x)
  {
    if results == [] then []
    else (if ok(results[0]) then [results[0]] else []) + Successful(results[1..], ok)
  }

  /** `[r for r in results if not r['success']]`. */
  function Failed<R>(results: seq<R>, ok: R -> bool): (r: seq<R>)
    ensures |r| <= |results|
    ensures forall x :: x in r ==> x in results && !ok(x)
  {
    if results == [] then []
    else (if ok(results[0]) then [] else [results[0]]) + Failed(results[1..], ok)
  }

  /** The two summary lists together are the results: nothing is lost or
      counted twice. */
  lemma {:induction false} SummaryPartition<R>(results: seq<R>, ok: R -> bool)
    ensures multiset(Successful(results, ok)) + multiset(Failed(results, ok)) == multiset(results)
    ensures |Successful(results, ok)| + |Failed(results, ok)| == |results|
  {
    if results != [] {
      SummaryPartition(results[1..], ok);
      assert results == [results[0]] + results[1..];
    }
  }

  /** Every result is listed by the summary according to its success. */
  lemma {:induction false} SummaryMembers<R>(results: seq<R>, ok: R -> bool)
    ensures forall x :: x in results ==> (ok(x) <==> x in Successful(results, ok))
    ensures forall x :: x in results ==> (!ok(x) <==> x in Failed(results, ok))
  {
    if results != [] {
      SummaryMembers(results[1..], ok);
      assert forall x :: x in results ==> x == results[0] || x in results[1..];
    }
  }

  /** A name with a slash after its first character puts the component and
      separate-objects packages into a sub-directory of the output directory,
      one the scripts never create. */
  lemma OutputPathNested(name: string, i: int)
    requires 0 <= i < |name| && name[i] == '/' && name[0] != '/'
    ensures var out := Package.Join(OutputDir, name + ".3mf");
      Package.Under(OutputDir, out) && Package.RelPath(OutputDir, out) == name + ".3mf" &&
      Package.RelPath(OutputDir, out)[i] == '/'
    ensures var out := Package.Join(OutputDir, SafeNameLower(name) + ".3mf");
      Package.Under(OutputDir, out) && Package.RelPath(OutputDir, out)[i] == '/'
  {
    SafeNameLowerClean(name);
    Package.JoinTop(OutputDir, name + ".3mf");
    Package.JoinTop(OutputDir, SafeNameLower(name) + ".3mf");
  }

  /** A name starting with a slash is an absolute path to `os.path.join`:
      the component and separate-objects packages then land at
      `/<name>.3mf`, outside the output directory. */
  lemma OutputPathAbsolute(name: string)
    requires name != [] && name[0] == '/'
    ensures Package.Join(OutputDir, name + ".3mf") == name + ".3mf"
    ensures !Package.Under(OutputDir, Package.Join(OutputDir, name + ".3mf"))
    ensures Package.Join(OutputDir, SafeNameLower(name) + ".3mf") == SafeNameLower(name) + ".3mf"
    ensures !Package.Under(OutputDir, Package.Join(OutputDir, SafeNameLower(name) + ".3mf"))
  {
    SafeNameLowerClean(name);
    var a := name + ".3mf";
    assert a[0] == '/';
    var b := SafeNameLower(name) + ".3mf";
    assert b[0] == '/';
  }

  /** The painted script's stem has no slash, so its STL file always lies
      directly in the output directory. */
  lemma PaintedOutputFlat(name: string)
    ensures var stl := Package.Join(OutputDir, SafeName(name) + ".stl");
      Package.Under(OutputDir, stl) &&
      forall k :: 0 <= k < |Package.RelPath(OutputDir, stl)| ==> Package.RelPath(OutputDir, stl)[k] != '/'
  {
    SafeNameClean(name);
    var s := SafeName(name) + ".stl";
    assert forall k :: |SafeName(name)| <= k < |s| ==> s[k] == ".stl"[k - |SafeName(name)|];
    assert s[0] != '/';
    Package.JoinTop(OutputDir, s);
  }

  /** The OpenSCAD sources of a separate-objects name with a slash after its
      first character go into a sub-directory of `output/temp_scad`, which
      the script never creates, so writing them fails. */
  lemma ScadPathNested(name: string, i: int)
    requires 0 <= i < |name| && name[i] == '/' && name[0] != '/'
    ensures Package.PlainName(SeparateScadDir)
    ensures var p := Package.Join(SeparateScadDir, SafeNameLower(name) + "_base.scad");
      Package.Under(SeparateScadDir, p) && Package.RelPath(SeparateScadDir, p)[i] == '/'
  {
    assert SeparateScadDir == OutputDir + "/" + "temp_scad";
    SafeNameLowerClean(name);
    Package.JoinTop(SeparateScadDir, SafeNameLower(name) + "_base.scad");
  }

  /** `A/B` is such a name: its base source would be written below
      `output/temp_scad/a`. */
  lemma ScadPathSlashExample()
    ensures var p := Package.Join(SeparateScadDir, SafeNameLower("A/B") + "_base.scad");
      Package.Under(SeparateScadDir, p) && Package.RelPath(SeparateScadDir, p)[1] == '/'
  {
    ScadPathNested("A/B", 1);
  }

  /** Distinct names can be written to the same file, the later one
      replacing the earlier: `A B` and `A_B` in the painted script, `Ann`
      and `ann` in the separate-objects script. */
  lemma OutputsCollide()
    ensures Package.Join(OutputDir, SafeName("A B") + ".stl") == Package.Join(OutputDir, SafeName("A_B") + ".stl")
    ensures Package.Join(OutputDir, SafeNameLower("Ann") + ".3mf") == Package.Join(OutputDir, SafeNameLower("ann") + ".3mf")
  {
    SafeNameCollides();
    SafeNameLowerCollides();
  }
}
