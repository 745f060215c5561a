/** The configuration reader and the field-map loader of common/reader.h.

    `read_config` projects a parsed INI file onto the parameter record, the
    list of sample-length scales and the file manifest (category -> paths).
    The parsed file is given as `Option<Ini>` (None: the INI library could not
    read it) and the file system as the set of paths that exist.

    `read_fieldmap` copies a field-map header into the record and fills the
    caller's field and mask buffers from the data that follows it. */
module Reader {
  import opened Cxx
  import opened Ini
  import opened Parameters

  /** `M_PI` */
  const PI: real := 3.14159265358979323846

  /** The manifest categories the reader uses: `fieldmap`, `m0`, `xyz0` and `output`. */
  datatype Category = FieldMap | M0 | Xyz0 | Output

  /** The file manifest: category -> paths. */
  type Manifest = map<Category, seq<string>>

  /** A boolean option: any text except "0" switches it on
      (`value.compare("0") != 0`). */
  function Flag(v: string): (b: bool)
    ensures b <==> v != "0"
  {
    Compare(v, "0") != 0
  }

  // ---------------------------------------------------------------------
  // Indexed lists

  /** Position of the first path that does not exist, or the length. */
  function FirstMissing(paths: seq<string>, existing: set<string>): (k: nat)
    ensures k <= |paths|
    ensures forall j :: 0 <= j < k ==> paths[j] in existing
    ensures k < |paths| ==> paths[k] !in existing
  {
    if paths == [] || paths[0] !in existing then 0
    else 1 + FirstMissing(paths[1..], existing)
  }

  /** The field-map loop: `FIELD_MAP[0]`, `FIELD_MAP[1]`, ... are appended in
      order until the first missing index; a path that does not exist is
      appended and then ends the loop with failure. */
  method CollectFieldMaps(F: Section, existing: set<string>) returns (found: bool, paths: seq<string>)
    ensures var run := Run(F, "FIELD_MAP");
            var k := FirstMissing(run, existing);
            (found <==> k == |run|) &&
            paths == (if found then run else run[..k + 1])
  {
    ghost var run := Run(F, "FIELD_MAP");
    paths := [];
    var i: nat := 0;
    while Key("FIELD_MAP", i) in F
      invariant i <= |run|
      invariant paths == run[..i]
      invariant forall j :: 0 <= j < i ==> run[j] in existing
      decreases |F.Keys| - i
    {
      PresentKeysBound(F, "FIELD_MAP", i + 1);
      var p := F[Key("FIELD_MAP", i)];
      paths := paths + [p];
      if p !in existing {
        return false, paths;
      }
      i := i + 1;
    }
    found := true;
  }

  /** Whether every listed field map exists (vacuously so without `FIELD_MAP[0]`). */
  predicate FieldMapsFound(F: Section, existing: set<string>) {
    var run := Run(F, "FIELD_MAP");
    Key("FIELD_MAP", 0) !in F || FirstMissing(run, existing) == |run|
  }

  /** What the field-map loop leaves in the list when a path is missing: the
      paths up to and including the first missing one. */
  function FieldMapsRead(F: Section, existing: set<string>): (paths: seq<string>)
    requires !FieldMapsFound(F, existing)
    ensures 0 < |paths| <= |Run(F, "FIELD_MAP")|
    ensures paths == Run(F, "FIELD_MAP")[..|paths|]
    ensures paths[|paths| - 1] !in existing
    ensures forall j :: 0 <= j < |paths| - 1 ==> paths[j] in existing
  {
    var run := Run(F, "FIELD_MAP");
    run[..FirstMissing(run, existing) + 1]
  }

  /** `SAMPLE_LENGTH_SCALES[i]` converted with `stof`, up to the first missing index. */
  function ScaleValues(S: Section, host: Host): seq<real> {
    var run := Run(S, "SAMPLE_LENGTH_SCALES");
    seq(|run|, j requires 0 <= j < |run| => host.Stof(run[j]))
  }

  /** The sample-length-scale loop. */
  method CollectScales(S: Section, host: Host) returns (scales: seq<real>)
    ensures |scales| == |Run(S, "SAMPLE_LENGTH_SCALES")|
    ensures forall j :: 0 <= j < |scales| ==> scales[j] == host.Stof(Run(S, "SAMPLE_LENGTH_SCALES")[j])
    ensures scales == ScaleValues(S, host)
  {
    ghost var run := Run(S, "SAMPLE_LENGTH_SCALES");
    scales := [];
    var i: nat := 0;
    while Key("SAMPLE_LENGTH_SCALES", i) in S
      invariant i <= |run|
      invariant |scales| == i
      invariant forall j :: 0 <= j < i ==> scales[j] == host.Stof(run[j])
      decreases |S.Keys| - i
    {
      PresentKeysBound(S, "SAMPLE_LENGTH_SCALES", i + 1);
      scales := scales + [host.Stof(S[Key("SAMPLE_LENGTH_SCALES", i)])];
      i := i + 1;
    }
  }

  // ---------------------------------------------------------------------
  // Sections

  /** The manifest categories `read_config` looks up with `.at`, which throws
      for a missing category: `fieldmap` always, and the others when their
      keys are present and the field-map check has passed. */
  predicate ManifestCovers(F: Section, existing: set<string>, files: Manifest) {
    FieldMap in files &&
    (FieldMapsFound(F, existing) ==>
      ("m0" in F ==> M0 in files) &&
      ("xyz0" in F ==> Xyz0 in files) &&
      ("OUTPUTS" in F ==> Output in files))
  }

  /** The manifest after a `files` section whose field maps all exist. */
  function FilesSection(F: Section, existing: set<string>, files: Manifest): (m: Manifest)
    requires ManifestCovers(F, existing, files) && FieldMapsFound(F, existing)
    ensures m.Keys == files.Keys
    ensures Key("FIELD_MAP", 0) in F ==> m[FieldMap] == Run(F, "FIELD_MAP")
    ensures Key("FIELD_MAP", 0) !in F ==> m[FieldMap] == files[FieldMap]
    ensures forall p :: p in m[FieldMap] && Key("FIELD_MAP", 0) in F ==> p in existing
    ensures "m0" in F ==> m[M0] == (if F["m0"] in existing then [F["m0"]] else [])
    ensures "xyz0" in F ==> m[Xyz0] == (if F["xyz0"] in existing then [F["xyz0"]] else [])
    ensures "OUTPUTS" in F ==> m[Output] == [F["OUTPUTS"]]
    ensures "m0" !in F && M0 in files ==> m[M0] == files[M0]
    ensures "xyz0" !in F && Xyz0 in files ==> m[Xyz0] == files[Xyz0]
    ensures "OUTPUTS" !in F && Output in files ==> m[Output] == files[Output]
  {
    OtherFiles(F, existing, FieldMapList(F, files))
  }

  /** The manifest after the field-map list of a `files` section whose field maps all exist. */
  function FieldMapList(F: Section, files: Manifest): Manifest {
    if Key("FIELD_MAP", 0) in F then files[FieldMap := Run(F, "FIELD_MAP")] else files
  }

  /** The manifest after the `m0`, `xyz0` and `OUTPUTS` keys of a `files` section. */
  function OtherFiles(F: Section, existing: set<string>, m: Manifest): Manifest {
    var m1 := if "m0" in F then m[M0 := if F["m0"] in existing then [F["m0"]] else []] else m;
    var m2 := if "xyz0" in F then m1[Xyz0 := if F["xyz0"] in existing then [F["xyz0"]] else []] else m1;
    if "OUTPUTS" in F then m2[Output := [F["OUTPUTS"]]] else m2
  }

  /** SCAN_PARAMETERS: TR, dwell time, dummy scans and the flip angle (given in
      degrees, stored in radians); TE is then set to half of TR. */
  function ScanSection(S: Section, host: Host, t: Scan): (u: Scan)
    ensures "TR" in S ==> u.TR == host.Stof(S["TR"])
    ensures "DWELL_TIME" in S ==> u.dt == host.Stof(S["DWELL_TIME"])
    ensures "DUMMY_SCAN" in S ==> u.nDummyScan == host.Stoi(S["DUMMY_SCAN"])
    ensures "FA" in S ==> u.FA == host.Stof(S["FA"]) * PI / 180.0
    ensures "TR" !in S ==> u.TR == t.TR
    ensures "DWELL_TIME" !in S ==> u.dt == t.dt
    ensures "DUMMY_SCAN" !in S ==> u.nDummyScan == t.nDummyScan
    ensures "FA" !in S ==> u.FA == t.FA
    ensures u.TE == u.TR / 2.0
  {
    var tr := if "TR" in S then host.Stof(S["TR"]) else t.TR;
    Scan(tr,
         if "DWELL_TIME" in S then host.Stof(S["DWELL_TIME"]) else t.dt,
         if "DUMMY_SCAN" in S then host.Stoi(S["DUMMY_SCAN"]) else t.nDummyScan,
         if "FA" in S then host.Stof(S["FA"]) * PI / 180.0 else t.FA,
         tr / 2.0)
  }

  /** SIMULATION_PARAMETERS: B0, seed (an `int` stored in `uint32_t`), number
      of spins (a float converted to an integer), diffusion constant, the
      refocusing flag and, when `SAMPLE_LENGTH_SCALES[0]` is present, the
      number of scales. */
  function SimulationSection(S: Section, host: Host, m: Simulation): (n: Simulation)
    ensures "B0" in S ==> n.B0 == host.Stof(S["B0"])
    ensures "SEED" in S ==> n.seed == host.Stoi(S["SEED"]) % U32
    ensures "NUMBER_OF_SPINS" in S ==> n.nSpins == TruncToInt(host.Stof(S["NUMBER_OF_SPINS"]))
    ensures "DIFFUSION_CONSTANT" in S ==> n.diffusionConst == host.Stof(S["DIFFUSION_CONSTANT"])
    ensures "ENABLE_180_REFOCUSING" in S ==> (n.enRefocusing180 <==> S["ENABLE_180_REFOCUSING"] != "0")
    ensures Key("SAMPLE_LENGTH_SCALES", 0) in S ==> n.nSampleLengthScales == |Run(S, "SAMPLE_LENGTH_SCALES")|
    ensures "B0" !in S ==> n.B0 == m.B0
    ensures "SEED" !in S ==> n.seed == m.seed
    ensures "NUMBER_OF_SPINS" !in S ==> n.nSpins == m.nSpins
    ensures "DIFFUSION_CONSTANT" !in S ==> n.diffusionConst == m.diffusionConst
    ensures "ENABLE_180_REFOCUSING" !in S ==> n.enRefocusing180 == m.enRefocusing180
    ensures Key("SAMPLE_LENGTH_SCALES", 0) !in S ==> n.nSampleLengthScales == m.nSampleLengthScales
  {
    var m5 := SimulationScalars(S, host, m);
    if Key("SAMPLE_LENGTH_SCALES", 0) in S then m5.(nSampleLengthScales := |ScaleValues(S, host)|) else m5
  }

  /** SIMULATION_PARAMETERS up to, and not including, the sample-length scales. */
  function SimulationScalars(S: Section, host: Host, m: Simulation): Simulation {
    var m1 := if "B0" in S then m.(B0 := host.Stof(S["B0"])) else m;
    var m2 := if "SEED" in S then m1.(seed := WrapU32(host.Stoi(S["SEED"]))) else m1;
    var m3 := if "NUMBER_OF_SPINS" in S then m2.(nSpins := TruncToInt(host.Stof(S["NUMBER_OF_SPINS"]))) else m2;
    var m4 := if "DIFFUSION_CONSTANT" in S then m3.(diffusionConst := host.Stof(S["DIFFUSION_CONSTANT"])) else m3;
    if "ENABLE_180_REFOCUSING" in S then m4.(enRefocusing180 := Flag(S["ENABLE_180_REFOCUSING"])) else m4
  }

  /** The scale list after SIMULATION_PARAMETERS: replaced only when
      `SAMPLE_LENGTH_SCALES[0]` is present. */
  function ScalesSection(S: Section, host: Host, scales: seq<real>): (r: seq<real>)
    ensures Key("SAMPLE_LENGTH_SCALES", 0) in S ==>
              |r| == |Run(S, "SAMPLE_LENGTH_SCALES")| &&
              forall j :: 0 <= j < |r| ==> r[j] == host.Stof(Run(S, "SAMPLE_LENGTH_SCALES")[j])
    ensures Key("SAMPLE_LENGTH_SCALES", 0) !in S ==> r == scales
  {
    if Key("SAMPLE_LENGTH_SCALES", 0) in S then ScaleValues(S, host) else scales
  }

  /** TISSUE_PARAMETERS: one T1 and one T2 value. */
  function TissueSection(S: Section, host: Host, t: Tissue): (u: Tissue)
    ensures "T1" in S ==> u.T1 == host.Stof(S["T1"])
    ensures "T2" in S ==> u.T2 == host.Stof(S["T2"])
    ensures "T1" !in S ==> u.T1 == t.T1
    ensures "T2" !in S ==> u.T2 == t.T2
  {
    Tissue(if "T1" in S then host.Stof(S["T1"]) else t.T1,
           if "T2" in S then host.Stof(S["T2"]) else t.T2)
  }

  /** DEBUG: the two debugging switches. */
  function DebugSection(S: Section, d: Debug): (e: Debug)
    ensures "DUMP_INFO" in S ==> (e.enDebug <==> S["DUMP_INFO"] != "0")
    ensures "SIMULATE_STEADYSTATE" in S ==> (e.enSteadyStateSimulation <==> S["SIMULATE_STEADYSTATE"] != "0")
    ensures "DUMP_INFO" !in S ==> e.enDebug == d.enDebug
    ensures "SIMULATE_STEADYSTATE" !in S ==> e.enSteadyStateSimulation == d.enSteadyStateSimulation
  {
    Debug(if "DUMP_INFO" in S then Flag(S["DUMP_INFO"]) else d.enDebug,
          if "SIMULATE_STEADYSTATE" in S then Flag(S["SIMULATE_STEADYSTATE"]) else d.enSteadyStateSimulation)
  }

  // ---------------------------------------------------------------------
  // read_config as a whole

  /** What `read_config` returns and leaves in its three in-out arguments. */
  datatype Outcome = Outcome(ok: bool, fields: Fields, scales: seq<real>, files: Manifest)

  /** The reader's input can be read: the file exists and parses. */
  predicate Readable(configFile: string, parsed: Option<Ini>, existing: set<string>) {
    configFile in existing && parsed.Some?
  }

  /** What the caller must supply: every manifest category the reader looks up. */
  predicate CallerReady(configFile: string, parsed: Option<Ini>, existing: set<string>, files: Manifest) {
    Readable(configFile, parsed, existing) && "files" in parsed.value ==>
      ManifestCovers(parsed.value["files"], existing, files)
  }

  /** The record after the `files` section: the number of field maps. */
  function FilesStep(ini: Ini, f: Fields, fieldmaps: seq<string>): (g: Fields)
    ensures g.geometry == f.geometry && g.derived == f.derived
  {
    if "files" in ini then f.(counts := f.counts.(nFieldmaps := |fieldmaps|)) else f
  }

  function ScanStep(ini: Ini, host: Host, f: Fields): (g: Fields)
    ensures g.geometry == f.geometry && g.derived == f.derived
  {
    if "SCAN_PARAMETERS" in ini then f.(scan := ScanSection(ini["SCAN_PARAMETERS"], host, f.scan)) else f
  }

  function SimulationStep(ini: Ini, host: Host, f: Fields): (g: Fields)
    ensures g.geometry == f.geometry && g.derived == f.derived
  {
    if "SIMULATION_PARAMETERS" in ini then f.(sim := SimulationSection(ini["SIMULATION_PARAMETERS"], host, f.sim)) else f
  }

  function TissueStep(ini: Ini, host: Host, f: Fields): (g: Fields)
    ensures g.geometry == f.geometry && g.derived == f.derived
  {
    if "TISSUE_PARAMETERS" in ini then f.(tissue := TissueSection(ini["TISSUE_PARAMETERS"], host, f.tissue)) else f
  }

  function DebugStep(ini: Ini, f: Fields): (g: Fields)
    ensures g.geometry == f.geometry && g.derived == f.derived
  {
    if "DEBUG" in ini then f.(debug := DebugSection(ini["DEBUG"], f.debug)) else f
  }

  /** The sections applied in order to the record, with the field-map count
      taken from the manifest after the `files` section. Each section writes
      only its own group of fields; absent sections write nothing. */
  function Configure(ini: Ini, host: Host, f: Fields, fieldmaps: seq<string>): (g: Fields)
    ensures "files" in ini ==> g.counts == f.counts.(nFieldmaps := |fieldmaps|)
    ensures "files" !in ini ==> g.counts == f.counts
    ensures "SCAN_PARAMETERS" !in ini ==> g.scan == f.scan
    ensures "SCAN_PARAMETERS" in ini ==> g.scan.TE == g.scan.TR / 2.0
    ensures "SIMULATION_PARAMETERS" !in ini ==> g.sim == f.sim
    ensures "TISSUE_PARAMETERS" !in ini ==> g.tissue == f.tissue
    ensures "DEBUG" !in ini ==> g.debug == f.debug
    ensures g.(counts := f.counts, scan := f.scan, sim := f.sim, tissue := f.tissue, debug := f.debug) == f
  {
    DebugStep(ini, TissueStep(ini, host, SimulationStep(ini, host, ScanStep(ini, host, FilesStep(ini, f, fieldmaps)))))
  }

  /** The manifest after the `files` section, when its field maps all exist. */
  function ManifestAfter(ini: Ini, existing: set<string>, files: Manifest): Manifest
    requires "files" in ini ==> ManifestCovers(ini["files"], existing, files) && FieldMapsFound(ini["files"], existing)
  {
    if "files" in ini then FilesSection(ini["files"], existing, files) else files
  }

  /** The scale list after the SIMULATION_PARAMETERS section. */
  function ScalesAfter(ini: Ini, host: Host, scales: seq<real>): seq<real> {
    if "SIMULATION_PARAMETERS" in ini then ScalesSection(ini["SIMULATION_PARAMETERS"], host, scales) else scales
  }

  /** The field-map list `Configure` counts: the manifest's, when a `files` section is present. */
  function CountedMaps(ini: Ini, files: Manifest): seq<string> {
    if "files" in ini && FieldMap in files then files[FieldMap] else []
  }

  /** The whole of `read_config`, given the record's current fields and its
      first RF flip angle (which `prepare` reads). */
  function ReadConfigResult(configFile: string, parsed: Option<Ini>, existing: set<string>, host: Host,
                            f: Fields, fa0: real, scales: seq<real>, files: Manifest): Outcome
    requires WellShaped(f)
    requires CallerReady(configFile, parsed, existing, files)
  {
    if !Readable(configFile, parsed, existing) then
      Outcome(false, f, scales, files)
    else
      var ini := parsed.value;
      if "files" in ini && !FieldMapsFound(ini["files"], existing) then
        Outcome(false, f, scales, files[FieldMap := FieldMapsRead(ini["files"], existing)])
      else
        var files1 := ManifestAfter(ini, existing, files);
        var g := Configure(ini, host, f, CountedMaps(ini, files1));
        Outcome(true, Prepared(g, fa0, host), ScalesAfter(ini, host, scales), files1)
  }

  /** A missing or unreadable configuration file changes nothing. */
  lemma UnreadableChangesNothing(configFile: string, parsed: Option<Ini>, existing: set<string>, host: Host,
                                 f: Fields, fa0: real, scales: seq<real>, files: Manifest)
    requires WellShaped(f)
    requires !Readable(configFile, parsed, existing)
    ensures ReadConfigResult(configFile, parsed, existing, host, f, fa0, scales, files) ==
            Outcome(false, f, scales, files)
  {
  }

  /** `read_config` fails exactly when the file is missing or unreadable or a
      listed field map does not exist. A failure on a field map leaves the
      record and the scales alone and changes only the field-map list, which
      then ends with the missing path. */
  lemma FailureCases(configFile: string, parsed: Option<Ini>, existing: set<string>, host: Host,
                     f: Fields, fa0: real, scales: seq<real>, files: Manifest)
    requires WellShaped(f)
    requires CallerReady(configFile, parsed, existing, files)
    ensures var o := ReadConfigResult(configFile, parsed, existing, host, f, fa0, scales, files);
            !o.ok <==> !Readable(configFile, parsed, existing) ||
                       ("files" in parsed.value && !FieldMapsFound(parsed.value["files"], existing))
    ensures var o := ReadConfigResult(configFile, parsed, existing, host, f, fa0, scales, files);
            !o.ok ==> o.fields == f && o.scales == scales && o.files.Keys == files.Keys &&
                      forall c :: c in files && c != FieldMap ==> o.files[c] == files[c]
    ensures var o := ReadConfigResult(configFile, parsed, existing, host, f, fa0, scales, files);
            !o.ok && Readable(configFile, parsed, existing) ==>
              var paths := o.files[FieldMap];
              var run := Run(parsed.value["files"], "FIELD_MAP");
              0 < |paths| <= |run| && paths == run[..|paths|] && paths[|paths| - 1] !in existing
  {
  }

  /** A successful read ends with `prepare`: the record's derived fields are
      those of its other fields, and the manifest keeps its categories. */
  lemma SuccessIsPrepared(configFile: string, parsed: Option<Ini>, existing: set<string>, host: Host,
                     f: Fields, fa0: real, scales: seq<real>, files: Manifest)
    requires WellShaped(f)
    requires CallerReady(configFile, parsed, existing, files)
    ensures var o := ReadConfigResult(configFile, parsed, existing, host, f, fa0, scales, files);
            o.ok ==> o.files.Keys == files.Keys && WellShaped(o.fields) &&
                     Prepared(o.fields, fa0, host) == o.fields
  {
    var o := ReadConfigResult(configFile, parsed, existing, host, f, fa0, scales, files);
    if o.ok {
      var ini := parsed.value;
      var g := Configure(ini, host, f, CountedMaps(ini, ManifestAfter(ini, existing, files)));
      PreparedIdempotent(g, fa0, host);
    }
  }

  /** On success every listed field map exists and `n_fieldmaps` is the
      length of the field-map list. */
  lemma SuccessFieldMapCount(configFile: string, parsed: Option<Ini>, existing: set<string>, host: Host,
                             f: Fields, fa0: real, scales: seq<real>, files: Manifest)
    requires WellShaped(f)
    requires CallerReady(configFile, parsed, existing, files)
    ensures var o := ReadConfigResult(configFile, parsed, existing, host, f, fa0, scales, files);
            o.ok && "files" in parsed.value ==>
              o.fields.counts.nFieldmaps == |o.files[FieldMap]| &&
              (Key("FIELD_MAP", 0) in parsed.value["files"] ==>
                 forall p :: p in o.files[FieldMap] ==> p in existing)
  {
    var o := ReadConfigResult(configFile, parsed, existing, host, f, fa0, scales, files);
    if o.ok && "files" in parsed.value {
      var ini := parsed.value;
      var files1 := FilesSection(ini["files"], existing, files);
      var g := Configure(ini, host, f, CountedMaps(ini, files1));
      assert o.fields == Prepared(g, fa0, host) && o.files == files1;
      assert o.fields.counts == g.counts;
    }
  }

  /** On success `n_sample_length_scales` is the length of the scale list
      whenever `SAMPLE_LENGTH_SCALES[0]` is present. */
  lemma SuccessScaleCount(configFile: string, parsed: Option<Ini>, existing: set<string>, host: Host,
                          f: Fields, fa0: real, scales: seq<real>, files: Manifest)
    requires WellShaped(f)
    requires CallerReady(configFile, parsed, existing, files)
    ensures var o := ReadConfigResult(configFile, parsed, existing, host, f, fa0, scales, files);
            o.ok && "SIMULATION_PARAMETERS" in parsed.value &&
            Key("SAMPLE_LENGTH_SCALES", 0) in parsed.value["SIMULATION_PARAMETERS"] ==>
              o.fields.sim.nSampleLengthScales == |o.scales|
  {
    var o := ReadConfigResult(configFile, parsed, existing, host, f, fa0, scales, files);
    if o.ok && "SIMULATION_PARAMETERS" in parsed.value &&
       Key("SAMPLE_LENGTH_SCALES", 0) in parsed.value["SIMULATION_PARAMETERS"] {
      var ini := parsed.value;
      var maps := CountedMaps(ini, ManifestAfter(ini, existing, files));
      var f1 := ScanStep(ini, host, FilesStep(ini, f, maps));
      SimulationStepScales(ini, host, f1, scales);
      assert Configure(ini, host, f, maps).sim == SimulationStep(ini, host, f1).sim;
    }
  }

  lemma SimulationStepScales(ini: Ini, host: Host, f: Fields, scales: seq<real>)
    requires "SIMULATION_PARAMETERS" in ini
    requires Key("SAMPLE_LENGTH_SCALES", 0) in ini["SIMULATION_PARAMETERS"]
    ensures SimulationStep(ini, host, f).sim.nSampleLengthScales == |ScalesAfter(ini, host, scales)|
  {
  }

  /** On success TE is half of TR whenever the scan section is present. */
  lemma SuccessEchoTime(configFile: string, parsed: Option<Ini>, existing: set<string>, host: Host,
                     f: Fields, fa0: real, scales: seq<real>, files: Manifest)
    requires WellShaped(f)
    requires CallerReady(configFile, parsed, existing, files)
    ensures var o := ReadConfigResult(configFile, parsed, existing, host, f, fa0, scales, files);
            o.ok && "SCAN_PARAMETERS" in parsed.value ==> o.fields.scan.TE == o.fields.scan.TR / 2.0
  {
    var o := ReadConfigResult(configFile, parsed, existing, host, f, fa0, scales, files);
    if o.ok {
      var ini := parsed.value;
      var g := Configure(ini, host, f, CountedMaps(ini, ManifestAfter(ini, existing, files)));
      assert o.fields == Prepared(g, fa0, host);
    }
  }

  /** Sections and keys that are absent leave their fields as they were, apart
      from what `prepare` derives. */
  lemma AbsentSectionsKeepFields(configFile: string, parsed: Option<Ini>, existing: set<string>, host: Host,
                                 f: Fields, fa0: real, scales: seq<real>, files: Manifest)
    requires WellShaped(f)
    requires CallerReady(configFile, parsed, existing, files)
    requires Readable(configFile, parsed, existing)
    requires "files" !in parsed.value && "SCAN_PARAMETERS" !in parsed.value && "SIMULATION_PARAMETERS" !in parsed.value
    requires "TISSUE_PARAMETERS" !in parsed.value && "DEBUG" !in parsed.value
    ensures var o := ReadConfigResult(configFile, parsed, existing, host, f, fa0, scales, files);
            o.ok && o.fields == Prepared(f, fa0, host) && o.scales == scales && o.files == files
  {
  }

  // ---------------------------------------------------------------------
  // The imperative reader

  /** The field-map list of the `files` block: cleared and refilled only when
      `FIELD_MAP[0]` is present, failing on the first path that does not exist. */
  method ReadFieldMapList(F: Section, existing: set<string>, files: Manifest)
    returns (found: bool, filesOut: Manifest)
    requires FieldMap in files
    ensures found <==> FieldMapsFound(F, existing)
    ensures !found ==> filesOut == files[FieldMap := FieldMapsRead(F, existing)]
    ensures found ==> filesOut == FieldMapList(F, files)
  {
    filesOut := files;
    found := true;
    if Key("FIELD_MAP", 0) in F {
      var paths;
      found, paths := CollectFieldMaps(F, existing);
      filesOut := filesOut[FieldMap := paths];
    }
  }

  /** The `m0`, `xyz0` and `OUTPUTS` keys of the `files` block. */
  method ReadOtherFiles(F: Section, existing: set<string>, files: Manifest) returns (filesOut: Manifest)
    ensures filesOut == OtherFiles(F, existing, files)
  {
    filesOut := files;
    if "m0" in F {
      filesOut := filesOut[M0 := if F["m0"] in existing then [F["m0"]] else []];
    }
    if "xyz0" in F {
      filesOut := filesOut[Xyz0 := if F["xyz0"] in existing then [F["xyz0"]] else []];
    }
    if "OUTPUTS" in F {
      filesOut := filesOut[Output := [F["OUTPUTS"]]];
    }
  }

  /** The `files` block of `read_config`: the field-map list, which may fail,
      then its count, then `m0`, `xyz0` and the output path. */
  method ApplyFiles(ini: Ini, existing: set<string>, param: SimulationParameters, files: Manifest)
    returns (found: bool, filesOut: Manifest)
    requires "files" in ini ==> ManifestCovers(ini["files"], existing, files)
    modifies param`fields
    ensures found <==> "files" !in ini || FieldMapsFound(ini["files"], existing)
    ensures !found ==>
              param.fields == old(param.fields) &&
              filesOut == files[FieldMap := FieldMapsRead(ini["files"], existing)]
    ensures found ==>
              filesOut == ManifestAfter(ini, existing, files) &&
              param.fields == FilesStep(ini, old(param.fields), CountedMaps(ini, filesOut))
  {
    filesOut := files;
    if "files" !in ini {
      return true, filesOut;
    }
    var F := ini["files"];
    found, filesOut := ReadFieldMapList(F, existing, files);
    if !found {
      return;
    }
    ghost var maps := filesOut[FieldMap];
    param.fields := param.fields.(counts := param.fields.counts.(nFieldmaps := |filesOut[FieldMap]|));
    filesOut := ReadOtherFiles(F, existing, filesOut);
    assert filesOut == FilesSection(F, existing, files);
    assert filesOut[FieldMap] == maps;
  }

  /** The SCAN_PARAMETERS block of `read_config`. */
  method ApplyScan(ini: Ini, host: Host, param: SimulationParameters)
    modifies param`fields
    ensures param.fields == ScanStep(ini, host, old(param.fields))
  {
    if "SCAN_PARAMETERS" in ini {
      var S := ini["SCAN_PARAMETERS"];
      var t := param.fields.scan;
      if "TR" in S {
        t := t.(TR := host.Stof(S["TR"]));
      }
      if "DWELL_TIME" in S {
        t := t.(dt := host.Stof(S["DWELL_TIME"]));
      }
      if "DUMMY_SCAN" in S {
        t := t.(nDummyScan := host.Stoi(S["DUMMY_SCAN"]));
      }
      if "FA" in S {
        t := t.(FA := host.Stof(S["FA"]) * PI / 180.0);
      }
      t := t.(TE := t.TR / 2.0);
      param.fields := param.fields.(scan := t);
    }
  }

  /** The keys of the SIMULATION_PARAMETERS block before the sample-length scales. */
  method ReadSimulationScalars(S: Section, host: Host, m: Simulation) returns (n: Simulation)
    ensures n == SimulationScalars(S, host, m)
  {
    n := m;
    if "B0" in S {
      n := n.(B0 := host.Stof(S["B0"]));
    }
    if "SEED" in S {
      n := n.(seed := WrapU32(host.Stoi(S["SEED"])));
    }
    if "NUMBER_OF_SPINS" in S {
      n := n.(nSpins := TruncToInt(host.Stof(S["NUMBER_OF_SPINS"])));
    }
    if "DIFFUSION_CONSTANT" in S {
      n := n.(diffusionConst := host.Stof(S["DIFFUSION_CONSTANT"]));
    }
    if "ENABLE_180_REFOCUSING" in S {
      n := n.(enRefocusing180 := Flag(S["ENABLE_180_REFOCUSING"]));
    }
  }

  /** The SIMULATION_PARAMETERS block of `read_config`. */
  method ApplySimulation(ini: Ini, host: Host, param: SimulationParameters, scales: seq<real>)
    returns (scalesOut: seq<real>)
    modifies param`fields
    ensures param.fields == SimulationStep(ini, host, old(param.fields))
    ensures scalesOut == ScalesAfter(ini, host, scales)
  {
    scalesOut := scales;
    if "SIMULATION_PARAMETERS" in ini {
      var S := ini["SIMULATION_PARAMETERS"];
      var m := ReadSimulationScalars(S, host, param.fields.sim);
      if Key("SAMPLE_LENGTH_SCALES", 0) in S {
        scalesOut := CollectScales(S, host);
        m := m.(nSampleLengthScales := |scalesOut|);
      }
      param.fields := param.fields.(sim := m);
    }
  }

  /** The TISSUE_PARAMETERS block of `read_config`. */
  method ApplyTissue(ini: Ini, host: Host, param: SimulationParameters)
    modifies param`fields
    ensures param.fields == TissueStep(ini, host, old(param.fields))
  {
    if "TISSUE_PARAMETERS" in ini {
      var S := ini["TISSUE_PARAMETERS"];
      var t := param.fields.tissue;
      if "T1" in S {
        t := t.(T1 := host.Stof(S["T1"]));
      }
      if "T2" in S {
        t := t.(T2 := host.Stof(S["T2"]));
      }
      param.fields := param.fields.(tissue := t);
    }
  }

  /** The DEBUG block of `read_config`. */
  method ApplyDebug(ini: Ini, param: SimulationParameters)
    modifies param`fields
    ensures param.fields == DebugStep(ini, old(param.fields))
  {
    if "DEBUG" in ini {
      var S := ini["DEBUG"];
      var d := param.fields.debug;
      if "DUMP_INFO" in S {
        d := d.(enDebug := Flag(S["DUMP_INFO"]));
      }
      if "SIMULATE_STEADYSTATE" in S {
        d := d.(enSteadyStateSimulation := Flag(S["SIMULATE_STEADYSTATE"]));
      }
      param.fields := param.fields.(debug := d);
    }
  }

  /** `read_config`: updates the record in place and returns the new scale
      list and manifest. */
  method ReadConfig(configFile: string, parsed: Option<Ini>, existing: set<string>, host: Host,
                    param: SimulationParameters, scales: seq<real>, files: Manifest)
    returns (ok: bool, scalesOut: seq<real>, filesOut: Manifest)
    requires param.Valid()
    requires CallerReady(configFile, parsed, existing, files)
    modifies param`fields
    ensures param.Valid()
    ensures Outcome(ok, param.fields, scalesOut, filesOut) ==
            ReadConfigResult(configFile, parsed, existing, host, old(param.fields), param.rfFA[0], scales, files)
  {
    if configFile !in existing {
      return false, scales, files;
    }
    if parsed.None? {
      return false, scales, files;
    }
    var ini := parsed.value;
    ghost var f0 := param.fields;
    var found;
    found, filesOut := ApplyFiles(ini, existing, param, files);
    if !found {
      return false, scales, filesOut;
    }
    ApplyScan(ini, host, param);
    scalesOut := ApplySimulation(ini, host, param, scales);
    ApplyTissue(ini, host, param);
    ApplyDebug(ini, param);
    assert param.fields == Configure(ini, host, f0, CountedMaps(ini, filesOut));
    param.Prepare(host);
    ok := true;
  }

  // ---------------------------------------------------------------------
  // read_fieldmap

  /** The header of a field-map file: voxels per axis and the sample's extent. */
  datatype Header = Header(nx: uint32, ny: uint32, nz: uint32, lx: real, ly: real, lz: real)

  /** An opened field-map file: the header, then the bytes that follow it
      (the field as 4-byte floats, then one mask byte per voxel). */
  datatype FieldMapFile = FieldMapFile(header: Header, payload: seq<bv8>)

  function Size(h: Header): seq<uint32> {
    [h.nx, h.ny, h.nz]
  }

  /** The record after a header is copied in: its sizes and lengths, and the
      voxel count `prepare` would also compute from them. */
  function WithHeader(f: Fields, h: Header): (g: Fields)
    requires WellShaped(f)
    ensures WellShaped(g)
    ensures g.geometry.fieldmapSize == Size(h) && g.geometry.sampleLength == [h.lx, h.ly, h.lz]
    ensures g.derived.matrixLength == VoxelCount(g.geometry.fieldmapSize)
    ensures g.(geometry := f.geometry, derived := f.derived) == f
    ensures g.geometry.scaleToGrid == f.geometry.scaleToGrid
    ensures g.derived.(matrixLength := f.derived.matrixLength) == f.derived
  {
    f.(geometry := f.geometry.(fieldmapSize := Size(h), sampleLength := [h.lx, h.ly, h.lz]),
       derived := f.derived.(matrixLength := VoxelCount(Size(h))))
  }

  /** Reads `n` stored floats from the start of `bytes` into `a`. */
  method ReadFloats(a: array<real>, bytes: seq<bv8>, n: nat, decode: seq<bv8> -> real)
    requires n <= a.Length && 4 * n <= |bytes|
    modifies a
    ensures forall i :: 0 <= i < n ==> a[i] == decode(bytes[4 * i..4 * i + 4])
    ensures a[n..] == old(a[n..])
  {
    forall i | 0 <= i < n {
      a[i] := decode(bytes[4 * i..4 * i + 4]);
    }
  }

  /** Reads `n` bytes from the start of `bytes` into `a`. */
  method ReadBytes(a: array<bv8>, bytes: seq<bv8>, n: nat)
    requires n <= a.Length && n <= |bytes|
    modifies a
    ensures a[..n] == bytes[..n]
    ensures a[n..] == old(a[n..])
  {
    forall i | 0 <= i < n {
      a[i] := bytes[i];
    }
  }

  /** The caller's field and mask buffers (`std::vector<float>`, `std::vector<char>`). */
  class FieldBuffers {
    var field: array<real>
    var mask: array<bv8>

    /** The two vectors are separate objects. */
    predicate Valid()
      reads this
    {
      field as object != mask as object
    }

    constructor (n: nat)
      ensures Valid()
      ensures field.Length == n && mask.Length == n
      ensures fresh(field) && fresh(mask)
    {
      field := new real[n];
      mask := new bv8[n];
    }

    /** The buffer half of `read_fieldmap`: both buffers are replaced by
        buffers of `n` elements when the field buffer does not hold exactly
        `n`; then the field receives `n` stored floats and the mask the `n`
        bytes that follow them. */
    method Load(bytes: seq<bv8>, n: nat, decode: seq<bv8> -> real)
      requires Valid()
      requires 5 * n <= |bytes|
      requires field.Length == n ==> n <= mask.Length
      modifies this, field, mask
      ensures Valid()
      ensures field.Length == n && n <= mask.Length
      ensures forall i :: 0 <= i < n ==> field[i] == decode(bytes[4 * i..4 * i + 4])
      ensures mask[..n] == bytes[4 * n..5 * n]
      ensures old(field.Length) == n ==>
                field == old(field) && mask == old(mask) && mask[n..] == old(mask[n..])
      ensures old(field.Length) != n ==>
                fresh(field) && fresh(mask) && mask.Length == n
    {
      if field.Length != n {
        field := new real[n];
        mask := new bv8[n];
      }
      ReadFloats(field, bytes, n, decode);
      ghost var floats := field[..];
      ReadBytes(mask, bytes[4 * n..], n);
      assert field[..] == floats;
    }
  }

  /** `read_fieldmap`. The header's sizes and lengths are copied into the
      record and the voxel count is their `uint32_t` product. The buffers are
      replaced by buffers of that length only when the field buffer's length
      differs from it; then the field receives the next count floats and the
      mask the count bytes after them. */
  method ReadFieldmap(file: Option<FieldMapFile>, host: Host, buf: FieldBuffers, param: SimulationParameters)
    returns (ok: bool)
    requires param.Valid() && buf.Valid()
    requires file.Some? ==> 5 * VoxelCount(Size(file.value.header)) <= |file.value.payload|
    requires file.Some? && buf.field.Length == VoxelCount(Size(file.value.header)) ==>
               VoxelCount(Size(file.value.header)) <= buf.mask.Length
    modifies buf, buf.field, buf.mask, param`fields
    ensures param.Valid() && buf.Valid()
    ensures ok <==> file.Some?
    ensures file.None? ==>
              param.fields == old(param.fields) &&
              buf.field == old(buf.field) && buf.mask == old(buf.mask) &&
              buf.field[..] == old(buf.field[..]) && buf.mask[..] == old(buf.mask[..])
    ensures file.Some? ==> param.fields == WithHeader(old(param.fields), file.value.header)
    ensures file.Some? ==>
              var n := VoxelCount(Size(file.value.header));
              var bytes := file.value.payload;
              buf.field.Length == n && n <= buf.mask.Length &&
              (forall i :: 0 <= i < n ==> buf.field[i] == host.decodeFloat(bytes[4 * i..4 * i + 4])) &&
              buf.mask[..n] == bytes[4 * n..5 * n]
    ensures file.Some? && old(buf.field.Length) == VoxelCount(Size(file.value.header)) ==>
              var n := VoxelCount(Size(file.value.header));
              buf.field == old(buf.field) && buf.mask == old(buf.mask) && buf.mask[n..] == old(buf.mask[n..])
    ensures file.Some? && old(buf.field.Length) != VoxelCount(Size(file.value.header)) ==>
              fresh(buf.field) && fresh(buf.mask) && buf.mask.Length == buf.field.Length
  {
    if file.None? {
      return false;
    }
    var h := file.value.header;
    param.fields := WithHeader(param.fields, h);
    buf.Load(file.value.payload, param.fields.derived.matrixLength, host.decodeFloat);
    ok := true;
  }

  /** `read_fieldmap` and `prepare` compute the same voxel count from the
      same sizes, so preparing after loading a field map keeps it. */
  lemma LoadedCountSurvivesPrepare(f: Fields, h: Header, fa0: real, host: Host)
    requires WellShaped(f)
    ensures var g := WithHeader(f, h);
            Prepared(g, fa0, host).derived.matrixLength == g.derived.matrixLength
  {
  }
}
