/**
 * The performance service: the FPS estimate from a fixed table, the runtime
 * 40/60 score of a configuration, and the strengths/weaknesses summary.
 */
module Performance {
  import opened Wrappers
  import opened Json
  import opened Models
  import PyStr
  import SeedData

  // ---------------------------------------------------------------------------
  // FPS estimate
  // ---------------------------------------------------------------------------

  /** One row of the table: GPU key fragments with their fps, in table order. */
  type FpsRow = seq<(string, int)>

  const GtaV1080: FpsRow := [("rtx_4090", 180), ("rtx_4080", 150), ("rtx_4070", 120), ("rtx_4060", 90),
                              ("rx_7900", 160), ("rx_7800", 130), ("rx_7700", 100)]
  const GtaV1440: FpsRow := [("rtx_4090", 140), ("rtx_4080", 110), ("rtx_4070", 85), ("rtx_4060", 65),
                              ("rx_7900", 120), ("rx_7800", 95), ("rx_7700", 75)]
  const GtaV4k: FpsRow := [("rtx_4090", 90), ("rtx_4080", 70), ("rtx_4070", 50), ("rtx_4060", 35),
                            ("rx_7900", 80), ("rx_7800", 60), ("rx_7700", 45)]
  const Cyberpunk1080: FpsRow := [("rtx_4090", 120), ("rtx_4080", 95), ("rtx_4070", 70), ("rtx_4060", 50),
                                   ("rx_7900", 100), ("rx_7800", 75), ("rx_7700", 55)]
  const Cyberpunk1440: FpsRow := [("rtx_4090", 85), ("rtx_4080", 65), ("rtx_4070", 45), ("rtx_4060", 30),
                                   ("rx_7900", 70), ("rx_7800", 50), ("rx_7700", 35)]
  const Cyberpunk4k: FpsRow := [("rtx_4090", 50), ("rtx_4080", 38), ("rtx_4070", 25), ("rtx_4060", 18),
                                 ("rx_7900", 42), ("rx_7800", 30), ("rx_7700", 20)]

  const FpsTable: map<string, map<string, FpsRow>> := map[
    "gta_v" := map["1080p_ultra" := GtaV1080, "1440p_ultra" := GtaV1440, "4k_ultra" := GtaV4k],
    "cyberpunk_2077" := map["1080p_ultra" := Cyberpunk1080, "1440p_ultra" := Cyberpunk1440, "4k_ultra" := Cyberpunk4k]]

  /** `s.lower().replace(" ", "_")`. */
  function NormalizeKey(s: string): string {
    PyStr.ReplaceChar(PyStr.Lower(s), ' ', '_')
  }

  /** The fps of the first entry whose key occurs in `gpu`. */
  function FirstMatch(row: FpsRow, gpu: string): Option<int> {
    if row == [] then None
    else if PyStr.Contains(gpu, row[0].0) then Some(row[0].1)
    else FirstMatch(row[1..], gpu)
  }

  /** The row of the table for a game and a `"{resolution}_{settings}"` key, if it has one. */
  function FpsRowFor(game: string, resolution: string, settings: string): Option<FpsRow> {
    var gameKey := NormalizeKey(game);
    var resolutionKey := resolution + "_" + settings;
    if gameKey in FpsTable && resolutionKey in FpsTable[gameKey] then Some(FpsTable[gameKey][resolutionKey])
    else None
  }

  function Estimate(gpuModel: string, game: string, resolution: string, settings: string): Option<int> {
    match FpsRowFor(game, resolution, settings)
    case None => None
    case Some(row) => FirstMatch(row, NormalizeKey(gpuModel))
  }

  /** The table search: the first key of the row, in order, that occurs in the normalised GPU name. */
  method EstimateFps(gpuModel: string, game: string, resolution: string, settings: string)
    returns (fps: Option<int>)
    ensures fps == Estimate(gpuModel, game, resolution, settings)
  {
    var gameKey := NormalizeKey(game);
    var resolutionKey := resolution + "_" + settings;
    if gameKey !in FpsTable {
      return None;
    }
    var gameData := FpsTable[gameKey];
    if resolutionKey !in gameData {
      return None;
    }
    var gpuNormalized := NormalizeKey(gpuModel);
    var row := gameData[resolutionKey];
    for i := 0 to |row|
      invariant FirstMatch(row, gpuNormalized) == FirstMatch(row[i..], gpuNormalized)
    {
      if PyStr.Contains(gpuNormalized, row[i].0) {
        return Some(row[i].1);
      }
      assert row[i..][1..] == row[i + 1..];
    }
    return None;
  }

  /** `FirstMatch` gives the fps of the first matching key, and nothing exactly when no key matches. */
  lemma {:induction false} FirstMatchRule(row: FpsRow, gpu: string)
    ensures FirstMatch(row, gpu).None? <==> forall i :: 0 <= i < |row| ==> !PyStr.Contains(gpu, row[i].0)
    ensures FirstMatch(row, gpu).Some? ==>
      exists i :: 0 <= i < |row| && PyStr.Contains(gpu, row[i].0) && FirstMatch(row, gpu).value == row[i].1
        && forall j :: 0 <= j < i ==> !PyStr.Contains(gpu, row[j].0)
  {
    if row != [] && !PyStr.Contains(gpu, row[0].0) {
      FirstMatchRule(row[1..], gpu);
      assert forall i :: 1 <= i < |row| ==> row[1..][i - 1] == row[i];
      if FirstMatch(row, gpu).Some? {
        var i :| 0 <= i < |row[1..]| && PyStr.Contains(gpu, row[1..][i].0) && FirstMatch(row, gpu).value == row[1..][i].1
          && forall j :: 0 <= j < i ==> !PyStr.Contains(gpu, row[1..][j].0);
        assert row[i + 1] == row[1..][i];
      }
    } else if row != [] {
      assert PyStr.Contains(gpu, row[0].0);
    }
  }

  /** An unknown game or resolution key gives no estimate, whatever the GPU. */
  lemma UnknownKeyNoEstimate(gpuModel: string, game: string, resolution: string, settings: string)
    requires NormalizeKey(game) !in FpsTable
          || resolution + "_" + settings !in FpsTable[NormalizeKey(game)]
    ensures Estimate(gpuModel, game, resolution, settings).None?
  {
  }

  lemma NormalizeGtaV()
    ensures NormalizeKey("GTA V") == "gta_v"
  {
    var l := PyStr.Lower("GTA V");
    assert l == "gta v" by {
      assert l[0] == 'g' && l[1] == 't' && l[2] == 'a' && l[3] == ' ' && l[4] == 'v';
    }
    var n := NormalizeKey("GTA V");
    assert n[0] == 'g' && n[1] == 't' && n[2] == 'a' && n[3] == '_' && n[4] == 'v';
  }

  lemma NormalizeRtx4090()
    ensures NormalizeKey("RTX 4090") == "rtx_4090"
  {
    var l := PyStr.Lower("RTX 4090");
    assert l[0] == 'r' && l[1] == 't' && l[2] == 'x' && l[3] == ' ';
    var n := NormalizeKey("RTX 4090");
    assert n[0] == 'r' && n[1] == 't' && n[2] == 'x' && n[3] == '_'
        && n[4] == '4' && n[5] == '0' && n[6] == '9' && n[7] == '0';
  }

  /** An RTX 4090 in GTA V at 1080p on the default ultra settings is estimated at 180 fps. */
  lemma Rtx4090GtaV()
    ensures Estimate("RTX 4090", "GTA V", "1080p", "ultra") == Some(180)
  {
    NormalizeGtaV();
    NormalizeRtx4090();
    assert "1080p" + "_" + "ultra" == "1080p_ultra";
    assert PyStr.Contains("rtx_4090", "rtx_4090");
  }

  // ---------------------------------------------------------------------------
  // Runtime score
  // ---------------------------------------------------------------------------

  /** `components.get(key)` read with truthiness: an absent key and an empty id are both missing. */
  function SlotId(components: map<string, string>, key: string): Option<string> {
    if key in components && components[key] != "" then Some(components[key]) else None
  }

  /**
   * The configuration score: 40 % of the CPU's performance score and 60 % of
   * the GPU's gaming score, falling back to its performance score; a missing
   * or unknown CPU or GPU gives no score.
   */
  function RuntimeScore(components: map<string, string>, catalog: map<string, Product>): (r: Option<real>)
    ensures r.Some? <==>
      SlotId(components, "cpu").Some? && SlotId(components, "gpu").Some?
      && SlotId(components, "cpu").value in catalog && SlotId(components, "gpu").value in catalog
  {
    match (SlotId(components, "cpu"), SlotId(components, "gpu"))
    case (Some(cpuId), Some(gpuId)) =>
      if cpuId in catalog && gpuId in catalog then
        var cpu, gpu := catalog[cpuId], catalog[gpuId];
        Some(OrElse(cpu.performanceScore, 0.0) * 0.4 + OrElse(gpu.gamingScore, OrElse(gpu.performanceScore, 0.0)) * 0.6)
      else None
    case _ => None
  }

  /**
   * The runtime score of a configuration is the score the seeding gives a set
   * made of its CPU followed by its GPU.
   */
  lemma RuntimeScoreIsSetScore(components: map<string, string>, catalog: map<string, Product>)
    requires RuntimeScore(components, catalog).Some?
    requires catalog[components["cpu"]].kind == Cpu && catalog[components["gpu"]].kind == Gpu
    ensures RuntimeScore(components, catalog)
         == SeedData.SetScore([catalog[components["cpu"]], catalog[components["gpu"]]])
  {
    var cpu, gpu := catalog[components["cpu"]], catalog[components["gpu"]];
    assert SeedData.FirstOf([cpu, gpu], Cpu) == Some(cpu);
    assert [cpu, gpu][1..] == [gpu];
    assert SeedData.FirstOf([cpu, gpu], Gpu) == Some(gpu);
  }

  /** With scores in 0..100 the runtime score is in 0..100. */
  lemma RuntimeScoreInRange(components: map<string, string>, catalog: map<string, Product>)
    requires forall id :: id in catalog ==>
      SeedData.ScoreInRange(catalog[id].performanceScore) && SeedData.ScoreInRange(catalog[id].gamingScore)
    ensures RuntimeScore(components, catalog).Some? ==> 0.0 <= RuntimeScore(components, catalog).value <= 100.0
  {
  }

  // ---------------------------------------------------------------------------
  // Strengths and weaknesses
  // ---------------------------------------------------------------------------

  const StrongCpu := "Wydajny procesor"
  const WeakCpu := "Słabszy procesor może być wąskim gardłem"
  const StrongGpu := "Mocna karta graficzna"
  const WeakGpu := "Karta graficzna może ograniczać wydajność w grach"
  const LargeRam := "Duża ilość pamięci RAM"
  const SmallRam := "Mała ilość RAM może ograniczać wydajność"
  const FastDisk := "Szybki dysk SSD"
  const SlowDisk := "Wolniejszy dysk HDD"

  /** What one component contributes: a strength, a weakness, or nothing. */
  datatype Verdict = Strength(text: string) | Weakness(text: string) | Neutral

  /** A nullable score compared with Python truthiness first: high above 80, low below 50. */
  function ScoreVerdict(score: Option<real>, strong: string, weak: string): Verdict {
    if TruthyScore(score) && score.value > 80.0 then Strength(strong)
    else if TruthyScore(score) && score.value < 50.0 then Weakness(weak)
    else Neutral
  }

  function CpuVerdict(cpu: Option<Product>): Verdict {
    match cpu
    case None => Neutral
    case Some(p) => ScoreVerdict(p.performanceScore, StrongCpu, WeakCpu)
  }

  /** The GPU is judged on its gaming score only. */
  function GpuVerdict(gpu: Option<Product>): Verdict {
    match gpu
    case None => Neutral
    case Some(p) => ScoreVerdict(p.gamingScore, StrongGpu, WeakGpu)
  }

  /** RAM: a numeric capacity of at least 32 is a strength, below 16 a weakness. */
  function RamVerdict(ram: Option<Product>): Verdict {
    match ram
    case None => Neutral
    case Some(p) =>
      var c := SpecGet(p.specifications, "capacity", Int(0));
      if IsNumber(c) && NumberValue(c) >= 32.0 then Strength(LargeRam)
      else if IsNumber(c) && NumberValue(c) < 16.0 then Weakness(SmallRam)
      else Neutral
  }

  /** A drive type, lower-cased, that names an NVMe drive or an SSD. */
  predicate SolidState(t: string) {
    var l := PyStr.Lower(t);
    PyStr.Contains(l, "nvme") || PyStr.Contains(l, "ssd")
  }

  /**
   * The disk verdict read from the `type` entry of `record`: `.lower()` fails
   * with AttributeError on a value that is not a string.
   */
  function DiskVerdictOf(record: Product): Result<Verdict> {
    match SpecGet(record.specifications, "type", Str(""))
    case Str(t) => Ok(if SolidState(t) then Strength(FastDisk) else Weakness(SlowDisk))
    case _ => Raised(AttributeError)
  }

  /**
   * The storage verdict as the source writes it: the type is read from the
   * RAM record, so a storage present with no RAM raises AttributeError.
   */
  function StorageVerdictAsWritten(storage: Option<Product>, ram: Option<Product>): Result<Verdict> {
    match storage
    case None => Ok(Neutral)
    case Some(_) =>
      match ram
      case None => Raised(AttributeError)
      case Some(r) => DiskVerdictOf(r)
  }

  /** The storage verdict read from the storage record itself. */
  function StorageVerdict(storage: Option<Product>): Result<Verdict> {
    match storage
    case None => Ok(Neutral)
    case Some(s) => DiskVerdictOf(s)
  }

  datatype Analysis = Analysis(strengths: seq<string>, weaknesses: seq<string>)

  /** Adds one verdict to the lists. */
  function Add(a: Analysis, v: Verdict): Analysis {
    match v
    case Strength(t) => a.(strengths := a.strengths + [t])
    case Weakness(t) => a.(weaknesses := a.weaknesses + [t])
    case Neutral => a
  }

  /** The verdicts in order cpu, gpu, ram, storage, collected into the two lists. */
  function Collect(vs: seq<Verdict>): Analysis
    decreases |vs|
  {
    if vs == [] then Analysis([], []) else Add(Collect(vs[..|vs| - 1]), vs[|vs| - 1])
  }

  function Slots(components: map<string, string>, products: map<string, Product>, key: string): Option<Product> {
    var id := if key in components then components[key] else "";
    if id in products then Some(products[id]) else None
  }

  /** The analysis from the four slots and a storage verdict: the first three verdicts, then the storage one. */
  function AnalysisWith(cpu: Option<Product>, gpu: Option<Product>, ram: Option<Product>, sv: Result<Verdict>): Result<Analysis> {
    match sv
    case Raised(e) => Raised(e)
    case Ok(v) => Ok(Collect([CpuVerdict(cpu), GpuVerdict(gpu), RamVerdict(ram), v]))
  }

  /** `analyze_configuration` as written: the disk verdict is read from the RAM record. */
  function AnalysisOf(components: map<string, string>, products: map<string, Product>): Result<Analysis> {
    var cpu, gpu := Slots(components, products, "cpu"), Slots(components, products, "gpu");
    var ram, storage := Slots(components, products, "ram"), Slots(components, products, "storage");
    AnalysisWith(cpu, gpu, ram, StorageVerdictAsWritten(storage, ram))
  }

  /** The analysis as evidently intended: the disk verdict is read from the storage record. */
  function AnalysisOfIntended(components: map<string, string>, products: map<string, Product>): Result<Analysis> {
    var cpu, gpu := Slots(components, products, "cpu"), Slots(components, products, "gpu");
    var ram, storage := Slots(components, products, "ram"), Slots(components, products, "storage");
    AnalysisWith(cpu, gpu, ram, StorageVerdict(storage))
  }

  method AddVerdict(strengths: seq<string>, weaknesses: seq<string>, v: Verdict)
    returns (strengths': seq<string>, weaknesses': seq<string>)
    ensures Analysis(strengths', weaknesses') == Add(Analysis(strengths, weaknesses), v)
  {
    strengths', weaknesses' := strengths, weaknesses;
    match v {
      case Strength(t) => strengths' := strengths' + [t];
      case Weakness(t) => weaknesses' := weaknesses' + [t];
      case Neutral =>
    }
  }

  /** The strengths and weaknesses of a configuration, one component at a time. */
  method AnalyzeConfiguration(components: map<string, string>, products: map<string, Product>)
    returns (r: Result<Analysis>)
    ensures r == AnalysisOf(components, products)
  {
    var cpu, gpu := Slots(components, products, "cpu"), Slots(components, products, "gpu");
    var ram, storage := Slots(components, products, "ram"), Slots(components, products, "storage");
    var strengths: seq<string> := [];
    var weaknesses: seq<string> := [];
    strengths, weaknesses := AddVerdict(strengths, weaknesses, CpuVerdict(cpu));
    strengths, weaknesses := AddVerdict(strengths, weaknesses, GpuVerdict(gpu));
    strengths, weaknesses := AddVerdict(strengths, weaknesses, RamVerdict(ram));
    var sv := StorageVerdictAsWritten(storage, ram);
    if sv.Raised? {
      return Raised(sv.error);
    }
    strengths, weaknesses := AddVerdict(strengths, weaknesses, sv.value);
    CollectFourSteps(CpuVerdict(cpu), GpuVerdict(gpu), RamVerdict(ram), sv.value);
    r := Ok(Analysis(strengths, weaknesses));
  }

  lemma CollectFourSteps(a: Verdict, b: Verdict, c: Verdict, d: Verdict)
    ensures Collect([a, b, c, d]) == Add(Add(Add(Add(Analysis([], []), a), b), c), d)
  {
    assert Collect([a]) == Add(Analysis([], []), a) by { assert [a][..0] == []; }
    assert Collect([a, b]) == Add(Collect([a]), b) by { assert [a, b][..1] == [a]; }
    assert Collect([a, b, c]) == Add(Collect([a, b]), c) by { assert [a, b, c][..2] == [a, b]; }
    assert Collect([a, b, c, d]) == Add(Collect([a, b, c]), d) by { assert [a, b, c, d][..3] == [a, b, c]; }
  }

  /** Each verdict adds at most one message. */
  lemma {:induction false} CollectCounts(vs: seq<Verdict>)
    ensures |Collect(vs).strengths| + |Collect(vs).weaknesses| <= |vs|
    decreases |vs|
  {
    if vs != [] {
      CollectCounts(vs[..|vs| - 1]);
    }
  }

  /** The strengths list holds exactly the strength texts of the verdicts; likewise the weaknesses. */
  lemma {:induction false} CollectOrder(vs: seq<Verdict>, t: string)
    ensures t in Collect(vs).strengths <==> exists i :: 0 <= i < |vs| && vs[i] == Strength(t)
    ensures t in Collect(vs).weaknesses <==> exists i :: 0 <= i < |vs| && vs[i] == Weakness(t)
    decreases |vs|
  {
    if vs != [] {
      var n := |vs| - 1;
      CollectOrder(vs[..n], t);
      assert forall i :: 0 <= i < n ==> vs[..n][i] == vs[i];
    }
  }

  /** Membership in the lists collected from four verdicts. */
  lemma CollectFour(a: Verdict, b: Verdict, c: Verdict, d: Verdict, t: string)
    ensures t in Collect([a, b, c, d]).strengths <==>
      a == Strength(t) || b == Strength(t) || c == Strength(t) || d == Strength(t)
    ensures t in Collect([a, b, c, d]).weaknesses <==>
      a == Weakness(t) || b == Weakness(t) || c == Weakness(t) || d == Weakness(t)
  {
    var vs := [a, b, c, d];
    CollectOrder(vs, t);
    assert vs[0] == a && vs[1] == b && vs[2] == c && vs[3] == d;
  }

  /** Which message texts each verdict function can produce. */
  lemma VerdictTexts(cpu: Option<Product>, gpu: Option<Product>, ram: Option<Product>, storage: Option<Product>)
    ensures CpuVerdict(cpu) in {Neutral, Strength(StrongCpu), Weakness(WeakCpu)}
    ensures GpuVerdict(gpu) in {Neutral, Strength(StrongGpu), Weakness(WeakGpu)}
    ensures RamVerdict(ram) in {Neutral, Strength(LargeRam), Weakness(SmallRam)}
    ensures StorageVerdict(storage).Ok? ==> StorageVerdict(storage).value in {Neutral, Strength(FastDisk), Weakness(SlowDisk)}
  {
  }

  /**
   * The classification thresholds, for any storage verdict that does not raise:
   * a CPU above 80 is strong and a truthy one below 50 weak; the GPU is judged
   * on its gaming score alone; the RAM on a numeric capacity.
   */
  lemma AnalysisWithRule(cpu: Option<Product>, gpu: Option<Product>, ram: Option<Product>, sv: Result<Verdict>)
    requires AnalysisWith(cpu, gpu, ram, sv).Ok?
    requires sv.Ok? ==> sv.value in {Neutral, Strength(FastDisk), Weakness(SlowDisk)}
    ensures var a := AnalysisWith(cpu, gpu, ram, sv).value;
      var c := if ram.Some? then SpecGet(ram.value.specifications, "capacity", Int(0)) else Null;
      && (StrongCpu in a.strengths <==> cpu.Some? && TruthyScore(cpu.value.performanceScore)
                                        && cpu.value.performanceScore.value > 80.0)
      && (WeakCpu in a.weaknesses <==> cpu.Some? && TruthyScore(cpu.value.performanceScore)
                                       && cpu.value.performanceScore.value < 50.0)
      && (StrongGpu in a.strengths <==> gpu.Some? && TruthyScore(gpu.value.gamingScore)
                                        && gpu.value.gamingScore.value > 80.0)
      && (WeakGpu in a.weaknesses <==> gpu.Some? && TruthyScore(gpu.value.gamingScore)
                                       && gpu.value.gamingScore.value < 50.0)
      && (LargeRam in a.strengths <==> ram.Some? && IsNumber(c) && NumberValue(c) >= 32.0)
      && (SmallRam in a.weaknesses <==> ram.Some? && IsNumber(c) && NumberValue(c) < 16.0)
      && (FastDisk in a.strengths <==> sv.value == Strength(FastDisk))
      && (SlowDisk in a.weaknesses <==> sv.value == Weakness(SlowDisk))
      && |a.strengths| + |a.weaknesses| <= 4
  {
    var v := sv.value;
    VerdictTexts(cpu, gpu, ram, None);
    CollectFour(CpuVerdict(cpu), GpuVerdict(gpu), RamVerdict(ram), v, StrongCpu);
    CollectFour(CpuVerdict(cpu), GpuVerdict(gpu), RamVerdict(ram), v, WeakCpu);
    CollectFour(CpuVerdict(cpu), GpuVerdict(gpu), RamVerdict(ram), v, StrongGpu);
    CollectFour(CpuVerdict(cpu), GpuVerdict(gpu), RamVerdict(ram), v, WeakGpu);
    CollectFour(CpuVerdict(cpu), GpuVerdict(gpu), RamVerdict(ram), v, LargeRam);
    CollectFour(CpuVerdict(cpu), GpuVerdict(gpu), RamVerdict(ram), v, SmallRam);
    CollectFour(CpuVerdict(cpu), GpuVerdict(gpu), RamVerdict(ram), v, FastDisk);
    CollectFour(CpuVerdict(cpu), GpuVerdict(gpu), RamVerdict(ram), v, SlowDisk);
    CollectCounts([CpuVerdict(cpu), GpuVerdict(gpu), RamVerdict(ram), v]);
  }

  /**
   * The CPU and GPU messages of the analysis: a CPU above 80 is strong and a
   * truthy one below 50 weak; the GPU is judged on its gaming score alone.
   */
  lemma AnalysisRule(components: map<string, string>, products: map<string, Product>)
    requires AnalysisOf(components, products).Ok?
    ensures var a := AnalysisOf(components, products).value;
      var cpu, gpu := Slots(components, products, "cpu"), Slots(components, products, "gpu");
      && (StrongCpu in a.strengths <==> cpu.Some? && TruthyScore(cpu.value.performanceScore)
                                        && cpu.value.performanceScore.value > 80.0)
      && (WeakCpu in a.weaknesses <==> cpu.Some? && TruthyScore(cpu.value.performanceScore)
                                       && cpu.value.performanceScore.value < 50.0)
      && (StrongGpu in a.strengths <==> gpu.Some? && TruthyScore(gpu.value.gamingScore)
                                        && gpu.value.gamingScore.value > 80.0)
      && (WeakGpu in a.weaknesses <==> gpu.Some? && TruthyScore(gpu.value.gamingScore)
                                       && gpu.value.gamingScore.value < 50.0)
  {
    var cpu, gpu := Slots(components, products, "cpu"), Slots(components, products, "gpu");
    var ram, storage := Slots(components, products, "ram"), Slots(components, products, "storage");
    DiskVerdictTexts(ram);
    AnalysisWithRule(cpu, gpu, ram, StorageVerdictAsWritten(storage, ram));
  }

  /** A disk verdict is the SSD strength or the HDD weakness. */
  lemma DiskVerdictTexts(record: Option<Product>)
    ensures record.Some? && DiskVerdictOf(record.value).Ok? ==>
      DiskVerdictOf(record.value).value in {Strength(FastDisk), Weakness(SlowDisk)}
  {
  }

  /**
   * The analysis as written raises AttributeError exactly when a storage drive
   * resolves and the RAM does not, or the RAM's `type` is not a string. Otherwise
   * the RAM messages follow its numeric capacity, and the disk message follows the
   * RAM's `type`: the SSD strength when it names NVMe or SSD, else the HDD weakness,
   * and neither without a storage drive.
   */
  lemma AnalysisMemoryRule(components: map<string, string>, products: map<string, Product>)
    ensures var ram, storage := Slots(components, products, "ram"), Slots(components, products, "storage");
      var rt := if ram.Some? then SpecGet(ram.value.specifications, "type", Str("")) else Null;
      (AnalysisOf(components, products).Raised? <==> storage.Some? && (ram.None? || !rt.Str?)) &&
      (AnalysisOf(components, products).Raised? ==> AnalysisOf(components, products).error == AttributeError)
    ensures AnalysisOf(components, products).Ok? ==>
      var a := AnalysisOf(components, products).value;
      var ram, storage := Slots(components, products, "ram"), Slots(components, products, "storage");
      var c := if ram.Some? then SpecGet(ram.value.specifications, "capacity", Int(0)) else Null;
      var rt := if ram.Some? then SpecGet(ram.value.specifications, "type", Str("")) else Null;
      && (LargeRam in a.strengths <==> ram.Some? && IsNumber(c) && NumberValue(c) >= 32.0)
      && (SmallRam in a.weaknesses <==> ram.Some? && IsNumber(c) && NumberValue(c) < 16.0)
      && (FastDisk in a.strengths <==> storage.Some? && ram.Some? && SolidState(rt.str))
      && (SlowDisk in a.weaknesses <==> storage.Some? && ram.Some? && !SolidState(rt.str))
      && |a.strengths| + |a.weaknesses| <= 4
  {
    var cpu, gpu := Slots(components, products, "cpu"), Slots(components, products, "gpu");
    var ram, storage := Slots(components, products, "ram"), Slots(components, products, "storage");
    if AnalysisOf(components, products).Ok? {
      DiskVerdictTexts(ram);
      AnalysisWithRule(cpu, gpu, ram, StorageVerdictAsWritten(storage, ram));
    }
  }

  /**
   * The intended analysis never looks at the RAM for the disk: it raises only on a
   * drive whose `type` is not a string, and the disk message follows the drive's type.
   */
  lemma IntendedMemoryRule(components: map<string, string>, products: map<string, Product>)
    ensures var storage := Slots(components, products, "storage");
      AnalysisOfIntended(components, products).Raised? <==>
        storage.Some? && !SpecGet(storage.value.specifications, "type", Str("")).Str?
    ensures AnalysisOfIntended(components, products).Ok? ==>
      var a := AnalysisOfIntended(components, products).value;
      var ram, storage := Slots(components, products, "ram"), Slots(components, products, "storage");
      var c := if ram.Some? then SpecGet(ram.value.specifications, "capacity", Int(0)) else Null;
      && (LargeRam in a.strengths <==> ram.Some? && IsNumber(c) && NumberValue(c) >= 32.0)
      && (SmallRam in a.weaknesses <==> ram.Some? && IsNumber(c) && NumberValue(c) < 16.0)
      && (FastDisk in a.strengths <==>
            storage.Some? && SolidState(SpecGet(storage.value.specifications, "type", Str("")).str))
      && (SlowDisk in a.weaknesses <==>
            storage.Some? && !SolidState(SpecGet(storage.value.specifications, "type", Str("")).str))
      && |a.strengths| + |a.weaknesses| <= 4
  {
    var cpu, gpu := Slots(components, products, "cpu"), Slots(components, products, "gpu");
    var ram, storage := Slots(components, products, "ram"), Slots(components, products, "storage");
    if AnalysisOfIntended(components, products).Ok? {
      DiskVerdictTexts(storage);
      AnalysisWithRule(cpu, gpu, ram, StorageVerdict(storage));
    }
  }

  // ---------------------------------------------------------------------------
  // The storage record mix-up
  // ---------------------------------------------------------------------------

  /** As written, a configuration with a storage drive but no RAM fails instead of being analysed. */
  lemma StorageWithoutRamFails(s: Product)
    ensures StorageVerdictAsWritten(Some(s), None) == Raised(AttributeError)
  {
  }

  function Drive(specs: Specs): Product {
    Product("id", "name", Storage, None, 0.0, specs, true, None, None, None, None)
  }

  /** As written, an NVMe drive beside DDR5 memory is reported as a slow HDD; read from the drive it is an SSD. */
  lemma NvmeBesideDdr5()
    ensures StorageVerdictAsWritten(Some(Drive(map["type" := Str("NVMe")])), Some(Drive(map["type" := Str("DDR5")])))
         == Ok(Weakness(SlowDisk))
    ensures StorageVerdict(Some(Drive(map["type" := Str("NVMe")]))) == Ok(Strength(FastDisk))
  {
    var nvme := PyStr.Lower("NVMe");
    assert nvme == "nvme" by {
      assert nvme[0] == 'n' && nvme[1] == 'v' && nvme[2] == 'm' && nvme[3] == 'e';
    }
    assert PyStr.Contains(nvme, "nvme");
    var ddr5 := PyStr.Lower("DDR5");
    assert ddr5 == "ddr5" by {
      assert ddr5[0] == 'd' && ddr5[1] == 'd' && ddr5[2] == 'r' && ddr5[3] == '5';
    }
    assert !PyStr.Contains("ddr5", "nvme");
    assert !PyStr.Contains("ddr5", "ssd") by {
      assert "ddr5"[..3] != "ssd";
      assert "ddr5"[1..][..3] != "ssd";
      assert "ddr5"[1..][1..] == "r5";
    }
  }

  /** Read from the drive, the verdict fails only on a non-string `type`, whatever the RAM. */
  lemma StorageVerdictOnlyFailsOnType(storage: Option<Product>)
    ensures StorageVerdict(storage).Raised? <==>
      storage.Some? && !SpecGet(storage.value.specifications, "type", Str("")).Str?
  {
  }
}
