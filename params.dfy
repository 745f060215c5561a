/** The simulation parameter record of src/miscellaneous.h: fixed-capacity
    event arrays with separate counts, the defaults its constructor installs,
    the in-place derivation `prepare` and the read-only report `dump`.

    Floating-point values are modelled as `real`; `cosf`/`sinf` come from the
    `Host`. Besides the struct's own fields the record holds six scalar fields
    that only the configuration reader writes (`scan.FA`, `scan.TE`,
    `tissue.T1`, `tissue.T2`, `sim.enRefocusing180` and
    `debug.enSteadyStateSimulation`): the reader was written against an older
    layout of this record, and neither `prepare` nor `dump` reads them. */
module Parameters {
  import opened Cxx

  const MAX_RF: nat := 256
  const MAX_TE: nat := 256
  const MAX_T12: nat := 256
  const MAX_DEPHASE: nat := 256
  const MAX_GRADIENT: nat := 256

  const DEG2RAD: real := 0.0174532925199433
  const MiB: nat := 1048576

  /** The fields that `prepare` derives from the others. */
  datatype Derived = Derived(c: real, s: real, c2: real, s2: real, matrixLength: int, nTimepoints: int)

  /** Timing of the scan: repetition time, dwell time, dummy scans, and the
      flip angle and echo time the reader stores as single values. */
  datatype Scan = Scan(TR: real, dt: real, nDummyScan: int, FA: real, TE: real)

  /** Settings of the random walk. */
  datatype Simulation = Simulation(
    B0: real, seed: uint32, nSpins: int, diffusionConst: real,
    enRefocusing180: bool, nSampleLengthScales: int)

  /** Single relaxation times, as the reader stores them. */
  datatype Tissue = Tissue(T1: real, T2: real)

  /** Debugging switches. */
  datatype Debug = Debug(enDebug: bool, enSteadyStateSimulation: bool)

  /** The sample's extent, its scale to the grid and the grid's voxel counts. */
  datatype Geometry = Geometry(sampleLength: seq<real>, scaleToGrid: seq<real>, fieldmapSize: seq<uint32>)

  /** Number of used entries of each event array, and of field maps. */
  datatype Counts = Counts(nTE: int, nRF: int, nDephasing: int, nGradient: int, nT12: int, nFieldmaps: int)

  /** The scalar and triple-valued fields of the record, as one value grouped
      by the configuration section that sets them. */
  datatype Fields = Fields(
    scan: Scan, sim: Simulation, tissue: Tissue, debug: Debug,
    geometry: Geometry, counts: Counts, derived: Derived,
    phaseCycling: real, enCrossBoundry: bool, enMultiTissue: bool)

  /** Number of voxels of a grid: the product of the three `uint32_t` axes,
      evaluated in `uint32_t` and so reduced modulo 2^32. */
  function VoxelCount(size: seq<uint32>): (n: uint32)
    requires |size| == 3
    ensures n == (size[0] as int * size[1] * size[2]) % U32
    ensures size[0] as int * size[1] * size[2] < U32 ==> n == size[0] as int * size[1] * size[2]
  {
    ModMulLeft(size[0] as int * size[1], size[2], U32);
    MulU32(MulU32(size[0], size[1]), size[2])
  }

  /** A grid of 2048^3 voxels wraps around to zero voxels. */
  lemma VoxelCountWraps()
    ensures VoxelCount([2048, 2048, 2048]) == 0
  {
    assert 2048 * 2048 == 4194304;
    assert MulU32(2048, 2048) == 4194304;
    assert 4194304 * 2048 == 2 * U32;
  }

  /** Number of whole `dt` steps in `TR`: the quotient converted to an integer,
      truncating toward zero. A zero `dt` gives 0. */
  function Quantize(tr: real, dt: real): (n: int)
    ensures dt > 0.0 && tr >= 0.0 ==> 0 <= n && n as real * dt <= tr < n as real * dt + dt
    ensures dt != 0.0 && tr / dt < 0.0 ==> n <= 0 && n as real - 1.0 < tr / dt <= n as real
  {
    if dt == 0.0 then 0
    else
      var n := TruncToInt(tr / dt);
      if dt > 0.0 && tr >= 0.0 then
        ScaleByStep(tr, dt, n);
        n
      else
        n
  }

  lemma ScaleByStep(tr: real, dt: real, n: int)
    requires dt > 0.0 && tr >= 0.0
    requires n as real <= tr / dt < n as real + 1.0
    ensures n as real * dt <= tr < n as real * dt + dt
  {
    var q, m := tr / dt, n as real;
    assert q * dt == tr;
    ScaleMonotone(m, q, dt);
    ScaleMonotone(q, m + 1.0, dt);
    var hi := (m + 1.0) * dt;
    assert tr < hi;
    assert hi == m * dt + dt;
  }

  lemma ScaleMonotone(a: real, b: real, c: real)
    requires a <= b && c > 0.0
    ensures a * c <= b * c
    ensures a < b ==> a * c < b * c
  {
    assert (b - a) * c >= 0.0;
    assert a < b ==> (b - a) * c > 0.0;
  }

  /** The geometry fields are triples. */
  predicate WellShaped(f: Fields) {
    |f.geometry.sampleLength| == 3 && |f.geometry.scaleToGrid| == 3 && |f.geometry.fieldmapSize| == 3
  }

  /** What `prepare` computes: the rotation coefficients of the first RF flip
      angle (in degrees) and of its half, the voxel count of the grid and the
      number of time points. */
  function Derive(fa0: real, size: seq<uint32>, tr: real, dt: real, host: Host): (d: Derived)
    requires |size| == 3
    ensures d.matrixLength == (size[0] as int * size[1] * size[2]) % U32
    ensures size[0] as int * size[1] * size[2] < U32 ==> d.matrixLength == size[0] as int * size[1] * size[2]
    ensures dt > 0.0 && tr >= 0.0 ==> 0 <= d.nTimepoints && d.nTimepoints as real * dt <= tr < d.nTimepoints as real * dt + dt
  {
    Derived(host.cosf(fa0 * DEG2RAD), host.sinf(fa0 * DEG2RAD),
            host.cosf(fa0 * DEG2RAD / 2.0), host.sinf(fa0 * DEG2RAD / 2.0),
            VoxelCount(size), Quantize(tr, dt))
  }

  /** The record after `prepare`: only the derived fields change. */
  function Prepared(p: Fields, fa0: real, host: Host): (q: Fields)
    requires WellShaped(p)
    ensures WellShaped(q)
    ensures q.(derived := p.derived) == p
  {
    p.(derived := Derive(fa0, p.geometry.fieldmapSize, p.scan.TR, p.scan.dt, host))
  }

  /** The derived fields depend only on fields that `prepare` does not write,
      so preparing twice gives the record that preparing once gives. */
  lemma PreparedIdempotent(p: Fields, fa0: real, host: Host)
    requires WellShaped(p)
    ensures Prepared(Prepared(p, fa0, host), fa0, host) == Prepared(p, fa0, host)
  {
  }

  lemma MiBFloor(x: nat)
    ensures x / 1024 / 1024 * MiB <= x < (x / 1024 / 1024 + 1) * MiB
  {
    var q1, r1 := x / 1024, x % 1024;
    var q2, r2 := q1 / 1024, q1 % 1024;
    assert x == 1024 * q1 + r1;
    assert q1 == 1024 * q2 + r2;
    assert x == MiB * q2 + (1024 * r2 + r1);
  }

  /** A byte count in whole MiB, as `bytes / 1024 / 1024` stored in a
      `uint16_t`: rounded down, and reduced modulo 2^16. */
  function MiBCount(bytes: nat): (mb: int)
    ensures 0 <= mb < U16
    ensures bytes < U16 * MiB ==> mb * MiB <= bytes < (mb + 1) * MiB
  {
    MiBFloor(bytes);
    bytes / 1024 / 1024 % U16
  }

  /** Field-map footprint in MiB as `dump` computes it: voxels times
      (sizeof(float) + sizeof(char)). */
  function FieldmapMB(size: seq<uint32>): (mb: int)
    requires |size| == 3
    ensures 0 <= mb < U16
    ensures mb * MiB <= VoxelCount(size) * 5 < (mb + 1) * MiB
  {
    MiBCount(VoxelCount(size) * 5)
  }

  /** Number of floats the spins occupy, `n_spins * 3 * (4 + n_TE)`, evaluated
      in `uint32_t`: `4 + n_TE` is converted to `uint32_t` as well. */
  function SpinWords(nSpins: int, nTE: int): (w: uint32)
    ensures w == nSpins * 3 * (4 + nTE) % U32
    ensures 0 <= nSpins * 3 * (4 + nTE) < U32 ==> w == nSpins * 3 * (4 + nTE)
  {
    ModMulLeft(nSpins, 3, U32);
    ModMulBoth(nSpins * 3, 4 + nTE, U32);
    MulU32(MulU32(WrapU32(nSpins), 3), WrapU32(4 + nTE))
  }

  /** Per-scale working-set footprint in MiB as `dump` computes it: the spin
      floats times sizeof(float). */
  function VariablesMB(nSpins: int, nTE: int): (mb: int)
    ensures 0 <= mb < U16
    ensures mb * MiB <= SpinWords(nSpins, nTE) * 4 < (mb + 1) * MiB
  {
    MiBCount(SpinWords(nSpins, nTE) * 4)
  }

  /** Loop counts as a `for (i = 0; i < n; i++)` sees them. */
  function Count(n: int): nat {
    if n < 0 then 0 else n
  }

  /** What `dump` reads and computes, without its text formatting. */
  datatype Report = Report(
    t1: seq<real>, t2: seq<real>, echoTimes: seq<real>,
    rfFlipAngles: seq<real>, rfPhases: seq<real>, rfTimes: seq<real>,
    dephasingAngles: seq<real>, dephasingTimes: seq<real>,
    gradients: seq<(real, real, real)>, gradientTimes: seq<real>,
    fieldmapMB: int, variablesMB: int, ramVariablesMB: int)

  /** `for (i = 0; i < n; i++) out << a[i];` */
  method ReadPrefix(a: array<real>, n: int) returns (xs: seq<real>)
    requires n <= a.Length
    ensures xs == a[..Count(n)]
  {
    xs := [];
    var i := 0;
    while i < n
      invariant 0 <= i <= Count(n)
      invariant xs == a[..i]
    {
      xs := xs + [a[i]];
      i := i + 1;
    }
  }

  /** Times stored in steps of dt, in seconds. */
  function InSeconds(steps: seq<int>, dt: real): seq<real> {
    seq(|steps|, i requires 0 <= i < |steps| => steps[i] as real * dt)
  }

  /** The first n rows of a flattened n-by-3 table. */
  function Rows(g: seq<real>, n: nat): seq<(real, real, real)>
    requires 3 * n <= |g|
  {
    seq(n, i requires 0 <= i < n => (g[3 * i], g[3 * i + 1], g[3 * i + 2]))
  }

  /** `for (i = 0; i < n; i++) out << a[i] * dt;` for times stored in steps of dt. */
  method ReadTimes(a: array<int>, n: int, dt: real) returns (xs: seq<real>)
    requires n <= a.Length
    ensures xs == InSeconds(a[..Count(n)], dt)
  {
    xs := [];
    var i := 0;
    while i < n
      invariant 0 <= i <= Count(n)
      invariant xs == InSeconds(a[..i], dt)
    {
      ghost var prev := xs;
      xs := xs + [a[i] as real * dt];
      forall k | 0 <= k < i + 1
        ensures xs[k] == InSeconds(a[..i + 1], dt)[k]
      {
        if k < i {
          assert xs[k] == prev[k] == InSeconds(a[..i], dt)[k];
        }
      }
      assert xs == InSeconds(a[..i + 1], dt);
      i := i + 1;
    }
  }

  /** The gradient loop of `dump`: row i is `g[3i+0], g[3i+1], g[3i+2]`. */
  method ReadGradients(g: array<real>, n: int) returns (rows: seq<(real, real, real)>)
    requires 3 * n <= g.Length
    ensures rows == Rows(g[..], Count(n))
  {
    rows := [];
    var i := 0;
    while i < n
      invariant 0 <= i <= Count(n)
      invariant rows == Rows(g[..], i)
    {
      rows := rows + [(g[3 * i], g[3 * i + 1], g[3 * i + 2])];
      i := i + 1;
    }
  }

  /** The record. Its scalar and triple-valued fields are held together as
      the value `fields`, updated field by field with datatype updates; its
      fixed-capacity arrays are arrays allocated once by the constructor. */
  class SimulationParameters {
    var fields: Fields
    const T1: array<real>
    const T2: array<real>
    const rfFA: array<real>
    const rfPH: array<real>
    const dephasing: array<real>
    const gradientXYZ: array<real>
    const rfST: array<int>
    const TE: array<int>
    const dephasingT: array<int>
    const gradientT: array<int>

    /** Array capacities are fixed and the geometry fields are triples. */
    predicate Valid()
      reads this`fields
    {
      T1.Length == MAX_T12 && T2.Length == MAX_T12 &&
      rfFA.Length == MAX_RF && rfPH.Length == MAX_RF && rfST.Length == MAX_RF &&
      TE.Length == MAX_TE &&
      dephasing.Length == MAX_DEPHASE && dephasingT.Length == MAX_DEPHASE &&
      gradientXYZ.Length == 3 * MAX_GRADIENT && gradientT.Length == MAX_GRADIENT &&
      WellShaped(fields)
    }

    /** The defaults: empty event lists, TR = 0.04, dt = 5e-5, B0 = 9.4, a zero
        grid, every tissue T1 = 2.2 and T2 = 0.04, all event arrays zero.
        Fields the source leaves uninitialised are not constrained. */
    constructor ()
      ensures Valid()
      ensures fields.scan.TR == 0.04 && fields.scan.dt == 0.00005 && fields.sim.B0 == 9.4
      ensures fields.counts.nTE == 0 && fields.counts.nRF == 0 && fields.counts.nT12 == 0
      ensures fields.counts.nDephasing == 0 && fields.counts.nGradient == 0 && fields.scan.nDummyScan == 0
      ensures fields.phaseCycling == 0.0
      ensures !fields.debug.enDebug && fields.enCrossBoundry && !fields.enMultiTissue
      ensures fields.geometry.fieldmapSize == [0, 0, 0] && fields.geometry.sampleLength == [0.0, 0.0, 0.0]
      ensures forall i :: 0 <= i < MAX_T12 ==> T1[i] == 2.2 && T2[i] == 0.04
      ensures forall i :: 0 <= i < MAX_TE ==> TE[i] == 0
      ensures forall i :: 0 <= i < MAX_RF ==> rfFA[i] == 0.0 && rfPH[i] == 0.0 && rfST[i] == 0
      ensures forall i :: 0 <= i < MAX_DEPHASE ==> dephasing[i] == 0.0 && dephasingT[i] == 0
      ensures forall i :: 0 <= i < 3 * MAX_GRADIENT ==> gradientXYZ[i] == 0.0
      ensures forall i :: 0 <= i < MAX_GRADIENT ==> gradientT[i] == 0
      ensures fresh(T1) && fresh(T2) && fresh(rfFA) && fresh(rfPH) && fresh(rfST) && fresh(TE)
      ensures fresh(dephasing) && fresh(dephasingT) && fresh(gradientXYZ) && fresh(gradientT)
    {
      // fields the source leaves uninitialised hold arbitrary values
      var unset: Fields := *;
      var gx: real, gy: real, gz: real := *, *, *;
      fields := unset.(
        scan := unset.scan.(TR := 0.04, dt := 0.00005, nDummyScan := 0),
        sim := unset.sim.(B0 := 9.4),
        counts := unset.counts.(nTE := 0, nRF := 0, nT12 := 0, nDephasing := 0, nGradient := 0),
        phaseCycling := 0.0,
        debug := unset.debug.(enDebug := false), enCrossBoundry := true, enMultiTissue := false,
        geometry := Geometry([0.0, 0.0, 0.0], [gx, gy, gz], [0, 0, 0]));
      TE := new int[MAX_TE](_ => 0);
      rfFA := new real[MAX_RF](_ => 0.0);
      rfST := new int[MAX_RF](_ => 0);
      rfPH := new real[MAX_RF](_ => 0.0);
      dephasing := new real[MAX_DEPHASE](_ => 0.0);
      dephasingT := new int[MAX_DEPHASE](_ => 0);
      gradientXYZ := new real[3 * MAX_GRADIENT](_ => 0.0);
      gradientT := new int[MAX_GRADIENT](_ => 0);
      T1 := new real[MAX_T12](_ => 2.2);
      T2 := new real[MAX_T12](_ => 0.04);
    }

    /** `prepare`: writes the rotation coefficients, the voxel count and the
        number of time points, and nothing else. */
    method Prepare(host: Host)
      requires Valid()
      modifies this`fields
      ensures Valid()
      ensures fields == Prepared(old(fields), rfFA[0], host)
    {
      var fa := rfFA[0];
      var size := fields.geometry.fieldmapSize;
      var d := fields.derived;
      d := d.(c := host.cosf(fa * DEG2RAD), c2 := host.cosf(fa * DEG2RAD / 2.0));
      d := d.(s := host.sinf(fa * DEG2RAD), s2 := host.sinf(fa * DEG2RAD / 2.0));
      d := d.(matrixLength := MulU32(MulU32(size[0], size[1]), size[2]));
      d := d.(nTimepoints := Quantize(fields.scan.TR, fields.scan.dt));
      fields := fields.(derived := d);
    }

    /** `dump`: reads each event array only below its count and computes the
        memory estimates; it changes nothing. The requires is exactly what keeps
        its reads in bounds (a negative count reads nothing). */
    method Dump() returns (r: Report)
      requires Valid()
      requires fields.counts.nT12 <= MAX_T12 && fields.counts.nTE <= MAX_TE && fields.counts.nRF <= MAX_RF
      requires fields.counts.nDephasing <= MAX_DEPHASE && fields.counts.nGradient <= MAX_GRADIENT
      ensures var f := fields;
              r.t1 == T1[..Count(f.counts.nT12)] && r.t2 == T2[..Count(f.counts.nT12)] &&
              r.rfFlipAngles == rfFA[..Count(f.counts.nRF)] && r.rfPhases == rfPH[..Count(f.counts.nRF)] &&
              r.dephasingAngles == dephasing[..Count(f.counts.nDephasing)]
      ensures var f := fields;
              r.echoTimes == InSeconds(TE[..Count(f.counts.nTE)], f.scan.dt) &&
              r.rfTimes == InSeconds(rfST[..Count(f.counts.nRF)], f.scan.dt) &&
              r.dephasingTimes == InSeconds(dephasingT[..Count(f.counts.nDephasing)], f.scan.dt) &&
              r.gradients == Rows(gradientXYZ[..], Count(f.counts.nGradient)) &&
              r.gradientTimes == InSeconds(gradientT[..Count(f.counts.nGradient)], f.scan.dt)
      ensures r.fieldmapMB == FieldmapMB(fields.geometry.fieldmapSize)
      ensures r.variablesMB == VariablesMB(fields.sim.nSpins, fields.counts.nTE)
      ensures r.ramVariablesMB == r.variablesMB * fields.sim.nSampleLengthScales
    {
      var f := fields;
      var t1 := ReadPrefix(T1, f.counts.nT12);
      var t2 := ReadPrefix(T2, f.counts.nT12);
      var te := ReadTimes(TE, f.counts.nTE, f.scan.dt);
      var fa := ReadPrefix(rfFA, f.counts.nRF);
      var ph := ReadPrefix(rfPH, f.counts.nRF);
      var st := ReadTimes(rfST, f.counts.nRF, f.scan.dt);
      var deph := ReadPrefix(dephasing, f.counts.nDephasing);
      var dephT := ReadTimes(dephasingT, f.counts.nDephasing, f.scan.dt);
      var grad := ReadGradients(gradientXYZ, f.counts.nGradient);
      var gradT := ReadTimes(gradientT, f.counts.nGradient, f.scan.dt);
      var fieldmapMB := FieldmapMB(f.geometry.fieldmapSize);
      var variablesMB := VariablesMB(f.sim.nSpins, f.counts.nTE);
      r := Report(t1, t2, te, fa, ph, st, deph, dephT, grad, gradT,
                  fieldmapMB, variablesMB, variablesMB * f.sim.nSampleLengthScales);
    }
  }

  /** Preparing an unchanged record a second time leaves it as the first
      preparation left it. */
  method PrepareTwice(p: SimulationParameters, host: Host)
    requires p.Valid()
    modifies p`fields
    ensures p.Valid()
    ensures p.fields == Prepared(old(p.fields), p.rfFA[0], host)
  {
    p.Prepare(host);
    ghost var once := p.fields;
    p.Prepare(host);
    PreparedIdempotent(old(p.fields), p.rfFA[0], host);
    assert p.fields == once;
  }
}
