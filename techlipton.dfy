/**
 * The scoring, image and component-map logic applied to each curated
 * TechLipton preset while the catalog is seeded: a segment-weighted score over
 * the CPU, GPU, RAM and storage of the preset, the image of its case, and the
 * slot-to-product map stored with it.
 */
module Techlipton {
  import opened Wrappers
  import opened Json
  import opened Models
  import PyStr

  // ---------------------------------------------------------------------------
  // Name tables
  // ---------------------------------------------------------------------------

  const CpuTable: seq<(string, int)> := [
    ("AMD Ryzen 5 3600", 40),
    ("AMD Ryzen 5 5600GT", 45),
    ("AMD Ryzen 5 8400F", 50),
    ("AMD Ryzen 5 8500G", 52),
    ("AMD Ryzen 5 7500F", 60),
    ("AMD Ryzen 5 7600", 62),
    ("AMD Ryzen 5 7600X", 65),
    ("AMD Ryzen 5 7500X3D", 68),
    ("AMD Ryzen 5 9600X", 70),
    ("AMD Ryzen 7 8700F", 72),
    ("Intel Core i5-14600KF", 75),
    ("AMD Ryzen 7 7700X", 78),
    ("AMD Ryzen 7 7800X3D", 90),
    ("AMD Ryzen 7 9700X", 85),
    ("AMD Ryzen 9 7900X", 88),
    ("AMD Ryzen 7 9800X3D", 95),
    ("AMD Ryzen 9 9900X", 92),
    ("AMD Ryzen 9 9900X3D", 96),
    ("AMD Ryzen 9 9950X", 98),
    ("AMD Ryzen 9 9950X3D", 100)]

  const GpuTable: seq<(string, int)> := [
    ("ASRock Radeon RX 9060 XT Challenger OC 8GB", 45),
    ("ASRock Radeon RX 9060 XT Challenger OC 16GB", 50),
    ("KFA2 GeForce RTX 5060 Ti 1-Click OC 16GB", 55),
    ("Zotac GeForce RTX 5070 Twin Edge 12GB", 70),
    ("Sapphire Radeon RX 9070 Pulse 16GB", 75),
    ("Gigabyte Radeon RX 9070 XT Gaming OC 16GB", 80),
    ("ASRock Radeon RX 9070 XT Steel Legend Dark 16GB", 80),
    ("INNO3D GeForce RTX 5070 Ti X3 16GB", 85),
    ("ASUS GeForce RTX 5070 Ti Prime OC 16GB", 85),
    ("Zotac GeForce RTX 5080 Solid Core OC 16GB", 92),
    ("Gigabyte GeForce RTX 5090 AORUS Master 32GB", 100)]

  /** Score assigned to a CPU or GPU whose name is not in its table. */
  const UnknownNameScore := 50

  /**
   * `table.get(name)` on a dict literal given as its entries in order: the value of the
   * last entry with that name (a key written twice keeps its later value), none without one.
   */
  function TableGet(table: seq<(string, int)>, name: string): (r: Option<int>)
    ensures r.Some? ==> exists i :: 0 <= i < |table| && table[i] == (name, r.value)
    decreases |table|
  {
    if table == [] then None
    else
      var n := |table| - 1;
      if table[n].0 == name then Some(table[n].1)
      else
        var r := TableGet(table[..n], name);
        assert r.Some? ==> exists i :: 0 <= i < |table| && table[i] == (name, r.value) by {
          if r.Some? {
            var i :| 0 <= i < n && table[..n][i] == (name, r.value);
            assert table[i] == (name, r.value);
          }
        }
        r
  }

  /** The lookup finds the last entry with the name, and nothing exactly when no entry has it. */
  lemma {:induction false} TableGetMeaning(table: seq<(string, int)>, name: string)
    ensures TableGet(table, name).None? <==> forall i :: 0 <= i < |table| ==> table[i].0 != name
    ensures forall i :: 0 <= i < |table| && table[i].0 == name && (forall j :: i < j < |table| ==> table[j].0 != name)
              ==> TableGet(table, name) == Some(table[i].1)
    decreases |table|
  {
    if table != [] {
      var n := |table| - 1;
      TableGetMeaning(table[..n], name);
      assert forall i :: 0 <= i < n ==> table[..n][i] == table[i];
    }
  }

  /** `table.get(name, 50)`: the value of the last entry with that name, 50 for a name not listed. */
  function TableScore(table: seq<(string, int)>, name: string): (s: int)
    requires forall i :: 0 <= i < |table| ==> 0 <= table[i].1 <= 100
    ensures 0 <= s <= 100
  {
    match TableGet(table, name)
    case Some(v) => v
    case None => UnknownNameScore
  }

  /** A listed name scores the value of its (last) entry; a name not listed scores 50. */
  lemma TableScoreMeaning(table: seq<(string, int)>, name: string)
    requires forall i :: 0 <= i < |table| ==> 0 <= table[i].1 <= 100
    ensures (forall i :: 0 <= i < |table| ==> table[i].0 != name) ==> TableScore(table, name) == UnknownNameScore
    ensures forall i :: 0 <= i < |table| && table[i].0 == name && (forall j :: i < j < |table| ==> table[j].0 != name)
              ==> TableScore(table, name) == table[i].1
  {
    TableGetMeaning(table, name);
  }

  lemma TablesInRange()
    ensures forall i :: 0 <= i < |CpuTable| ==> 0 <= CpuTable[i].1 <= 100
    ensures forall i :: 0 <= i < |GpuTable| ==> 0 <= GpuTable[i].1 <= 100
  {
  }

  function CpuScore(name: string): (s: int)
    ensures 0 <= s <= 100
  {
    TablesInRange();
    TableScore(CpuTable, name)
  }

  function GpuScore(name: string): (s: int)
    ensures 0 <= s <= 100
  {
    TablesInRange();
    TableScore(GpuTable, name)
  }

  /** The flagship CPU and GPU carry the top score of their tables. */
  lemma FlagshipsScoreTop()
    ensures CpuScore("AMD Ryzen 9 9950X3D") == 100
    ensures GpuScore("Gigabyte GeForce RTX 5090 AORUS Master 32GB") == 100
    ensures forall i :: 0 <= i < |CpuTable| ==> CpuTable[i].1 <= CpuScore("AMD Ryzen 9 9950X3D")
    ensures forall i :: 0 <= i < |GpuTable| ==> GpuTable[i].1 <= GpuScore("Gigabyte GeForce RTX 5090 AORUS Master 32GB")
  {
    TablesInRange();
  }

  // ---------------------------------------------------------------------------
  // RAM and storage rules
  // ---------------------------------------------------------------------------

  /** `a in v or b in v`, evaluated left to right with the exception of the first test escaping. */
  function EitherIn(a: string, b: string, v: Json): Result<bool> {
    match PyIn(Str(a), v)
    case Raised(e) => Raised(e)
    case Ok(found) => if found then Ok(true) else PyIn(Str(b), v)
  }

  /** `min(100, x)`. */
  function Cap(x: int): int {
    if x < 100 then x else 100
  }

  /** The capacity part of the RAM score. */
  function RamBase(capacity: Json): (r: Result<int>)
    ensures r.Ok? ==> r.value in {50, 75, 100}
  {
    match EitherIn("64 GB", "64GB", capacity)
    case Raised(e) => Raised(e)
    case Ok(big) =>
      if big then Ok(100)
      else match EitherIn("32 GB", "32GB", capacity)
        case Raised(e) => Raised(e)
        case Ok(mid) => Ok(if mid then 75 else 50)
  }

  /** The DDR5 speed bonus applied to a RAM base score. */
  function RamBonus(base: int, ramType: Json, speed: Json): Result<int> {
    if PyEq(ramType, Str("DDR5")) then
      match PyIn(Str("6400"), speed)
      case Raised(e) => Raised(e)
      case Ok(fast) =>
        if fast then Ok(Cap(base + 10))
        else match PyIn(Str("6000"), speed)
          case Raised(e) => Raised(e)
          case Ok(quick) => Ok(if quick then Cap(base + 5) else base)
    else Ok(base)
  }

  function RamScore(specs: Specs): (r: Result<int>)
    ensures r.Ok? ==> 50 <= r.value <= 100
  {
    var capacity := SpecGet(specs, "Pojemność", Str("16 GB"));
    var speed := SpecGet(specs, "Taktowanie", Str("3200 MHz"));
    var ramType := SpecGet(specs, "Typ", Str("DDR4"));
    match RamBase(capacity)
    case Raised(e) => Raised(e)
    case Ok(base) => RamBonus(base, ramType, speed)
  }

  function StorageScore(specs: Specs): (r: Result<int>)
    ensures r.Ok? ==> 70 <= r.value <= 100
  {
    var capacity := SpecGet(specs, "Pojemność", Str("1 TB"));
    var iface := SpecGet(specs, "Interfejs", Str("PCIe 4.0"));
    match EitherIn("2 TB", "2TB", capacity)
    case Raised(e) => Raised(e)
    case Ok(large) =>
      var base := if large then 100 else 70;
      match EitherIn("PCIe 5.0", "Gen5", iface)
      case Raised(e) => Raised(e)
      case Ok(gen5) => Ok(if gen5 then Cap(base + 15) else base)
  }

  /** A value `in` accepts as a container when the needle is a string. */
  predicate Container(v: Json) {
    v.Str? || v.Arr? || v.Obj?
  }

  /**
   * The RAM rule on text-valued specifications: 100, 75 or 50 by capacity; a
   * DDR5 module gains 10 for "6400" or else 5 for "6000", capped at 100.
   */
  lemma RamScoreOfText(specs: Specs, capacity: string, speed: string, ramType: string)
    requires SpecGet(specs, "Pojemność", Str("16 GB")) == Str(capacity)
    requires SpecGet(specs, "Taktowanie", Str("3200 MHz")) == Str(speed)
    requires SpecGet(specs, "Typ", Str("DDR4")) == Str(ramType)
    ensures RamScore(specs).Ok?
    ensures var base :=
              if PyStr.Contains(capacity, "64 GB") || PyStr.Contains(capacity, "64GB") then 100
              else if PyStr.Contains(capacity, "32 GB") || PyStr.Contains(capacity, "32GB") then 75
              else 50;
            RamScore(specs).value ==
              if ramType != "DDR5" then base
              else if PyStr.Contains(speed, "6400") then Cap(base + 10)
              else if PyStr.Contains(speed, "6000") then Cap(base + 5)
              else base
  {
  }

  /** The storage rule on text-valued specifications: 100 for 2 TB else 70, plus 15 for PCIe 5.0, capped. */
  lemma StorageScoreOfText(specs: Specs, capacity: string, iface: string)
    requires SpecGet(specs, "Pojemność", Str("1 TB")) == Str(capacity)
    requires SpecGet(specs, "Interfejs", Str("PCIe 4.0")) == Str(iface)
    ensures StorageScore(specs).Ok?
    ensures var base := if PyStr.Contains(capacity, "2 TB") || PyStr.Contains(capacity, "2TB") then 100 else 70;
            StorageScore(specs).value ==
              if PyStr.Contains(iface, "PCIe 5.0") || PyStr.Contains(iface, "Gen5") then Cap(base + 15) else base
  {
  }

  /** A substring test `a in v` raises exactly when `v` is not a container. */
  lemma StrInRaises(a: string, v: Json)
    ensures PyIn(Str(a), v).Raised? <==> !Container(v)
  {
  }

  /** The capacity part raises exactly when the capacity is not a container. */
  lemma RamBaseRaises(capacity: Json)
    ensures RamBase(capacity).Raised? <==> !Container(capacity)
  {
    StrInRaises("64 GB", capacity);
    StrInRaises("64GB", capacity);
    StrInRaises("32 GB", capacity);
  }

  /** The speed bonus raises exactly when the module is DDR5 and the speed is not a container. */
  lemma RamBonusRaises(base: int, ramType: Json, speed: Json)
    ensures RamBonus(base, ramType, speed).Raised? <==> PyEq(ramType, Str("DDR5")) && !Container(speed)
  {
    StrInRaises("6400", speed);
    StrInRaises("6000", speed);
  }

  /** RAM scoring raises exactly when a value it searches with `in` is not a container. */
  lemma RamScoreRaises(specs: Specs)
    ensures RamScore(specs).Raised? <==>
      (!Container(SpecGet(specs, "Pojemność", Str("16 GB")))
       || (PyEq(SpecGet(specs, "Typ", Str("DDR4")), Str("DDR5"))
           && !Container(SpecGet(specs, "Taktowanie", Str("3200 MHz")))))
  {
    var capacity := SpecGet(specs, "Pojemność", Str("16 GB"));
    RamBaseRaises(capacity);
    if RamBase(capacity).Ok? {
      RamBonusRaises(RamBase(capacity).value, SpecGet(specs, "Typ", Str("DDR4")), SpecGet(specs, "Taktowanie", Str("3200 MHz")));
    }
  }

  /** Storage scoring raises exactly when its capacity or interface is not a container. */
  lemma StorageScoreRaises(specs: Specs)
    ensures StorageScore(specs).Raised? <==>
      (!Container(SpecGet(specs, "Pojemność", Str("1 TB")))
       || !Container(SpecGet(specs, "Interfejs", Str("PCIe 4.0"))))
  {
  }

  // ---------------------------------------------------------------------------
  // Segment weights
  // ---------------------------------------------------------------------------

  /** A weight row, in hundredths. */
  datatype Weights = Weights(cpu: int, gpu: int, ram: int, storage: int)

  /**
   * The weight row of a segment. Every segment has a row of its own, so the
   * gaming row the source falls back on for an unknown segment is never used.
   */
  function SegmentWeights(segment: Segment): (w: Weights)
    ensures w.cpu >= 0 && w.gpu >= 0 && w.ram >= 0 && w.storage >= 0
    ensures w.cpu + w.gpu + w.ram + w.storage == 100
  {
    match segment
    case Gaming => Weights(25, 50, 15, 10)
    case Pro => Weights(40, 30, 20, 10)
    case Business => Weights(50, 10, 25, 15)
    case Home => Weights(30, 35, 20, 15)
  }

  /** The four sub-scores, keyed as in the source's `scores` dict. */
  datatype Scores = Scores(cpu: int, gpu: int, ram: int, storage: int)

  const ZeroScores := Scores(0, 0, 0, 0)

  predicate InRange(sc: Scores) {
    0 <= sc.cpu <= 100 && 0 <= sc.gpu <= 100 && 0 <= sc.ram <= 100 && 0 <= sc.storage <= 100
  }

  /** One iteration of the scoring loop: the product overwrites the sub-score of its type. */
  function ScoreStep(sc: Scores, p: Product): Result<Scores> {
    match p.kind
    case Cpu => Ok(sc.(cpu := CpuScore(p.name)))
    case Gpu => Ok(sc.(gpu := GpuScore(p.name)))
    case Ram => (match RamScore(p.specifications) case Raised(e) => Raised(e) case Ok(v) => Ok(sc.(ram := v)))
    case Storage => (match StorageScore(p.specifications) case Raised(e) => Raised(e) case Ok(v) => Ok(sc.(storage := v)))
    case _ => Ok(sc)
  }

  /** The sub-scores after the loop has run over `products`. */
  function SubScores(products: seq<Product>): Result<Scores>
    decreases |products|
  {
    if products == [] then Ok(ZeroScores)
    else match SubScores(products[..|products| - 1])
      case Raised(e) => Raised(e)
      case Ok(sc) => ScoreStep(sc, products[|products| - 1])
  }

  /** The weighted sum of the sub-scores. */
  function Weighted(sc: Scores, segment: Segment): real {
    var w := SegmentWeights(segment);
    (sc.cpu * w.cpu + sc.gpu * w.gpu + sc.ram * w.ram + sc.storage * w.storage) as real / 100.0
  }

  function PerformanceScore(products: seq<Product>, segment: Segment): Result<real> {
    match SubScores(products)
    case Raised(e) => Raised(e)
    case Ok(sc) => Ok(Weighted(sc, segment))
  }

  method CalculatePerformanceScore(products: seq<Product>, segment: Segment) returns (r: Result<real>)
    ensures r == PerformanceScore(products, segment)
  {
    var scores := ZeroScores;
    for i := 0 to |products|
      invariant SubScores(products[..i]) == Ok(scores)
    {
      var product := products[i];
      assert products[..i + 1][..i] == products[..i];
      match product.kind {
        case Cpu =>
          scores := scores.(cpu := CpuScore(product.name));
        case Gpu =>
          scores := scores.(gpu := GpuScore(product.name));
        case Ram =>
          var ramScore := RamScore(product.specifications);
          if ramScore.Raised? {
            SubScoresRaisedSticks(products, i + 1);
            return Raised(ramScore.error);
          }
          scores := scores.(ram := ramScore.value);
        case Storage =>
          var storageScore := StorageScore(product.specifications);
          if storageScore.Raised? {
            SubScoresRaisedSticks(products, i + 1);
            return Raised(storageScore.error);
          }
          scores := scores.(storage := storageScore.value);
        case _ =>
      }
    }
    assert products[..|products|] == products;
    r := Ok(Weighted(scores, segment));
  }

  // ---------------------------------------------------------------------------
  // Properties of the score
  // ---------------------------------------------------------------------------

  /** The last product of `kind` in `products`. */
  function LastOf(products: seq<Product>, kind: ProductType): (r: Option<Product>)
    ensures r.Some? ==> r.value in products && r.value.kind == kind
    decreases |products|
  {
    if products == [] then None
    else if products[|products| - 1].kind == kind then Some(products[|products| - 1])
    else LastOf(products[..|products| - 1], kind)
  }

  /** A product the loop can score without an exception. */
  predicate Scorable(p: Product) {
    (p.kind == Ram ==> RamScore(p.specifications).Ok?)
    && (p.kind == Storage ==> StorageScore(p.specifications).Ok?)
  }

  /** The loop raises exactly when some RAM or storage product cannot be scored. */
  lemma {:induction false} SubScoresOkIff(products: seq<Product>)
    ensures SubScores(products).Ok? <==> forall i :: 0 <= i < |products| ==> Scorable(products[i])
    decreases |products|
  {
    if products != [] {
      var init, last := products[..|products| - 1], products[|products| - 1];
      SubScoresOkIff(init);
      if SubScores(init).Ok? {
        ScoreStepOk(SubScores(init).value, last);
        if SubScores(products).Ok? {
          forall i | 0 <= i < |products| ensures Scorable(products[i]) {
            if i < |init| {
              assert init[i] == products[i];
            }
          }
        }
      }
    }
  }

  /** One step raises exactly when its product cannot be scored. */
  lemma ScoreStepOk(sc: Scores, p: Product)
    ensures ScoreStep(sc, p).Ok? <==> Scorable(p)
  {
  }

  /** Once a prefix raises, the whole loop raises the same exception. */
  lemma {:induction false} SubScoresRaisedSticks(products: seq<Product>, n: nat)
    requires n <= |products| && SubScores(products[..n]).Raised?
    ensures SubScores(products) == SubScores(products[..n])
    decreases |products| - n
  {
    if n < |products| {
      assert products[..n + 1][..n] == products[..n];
      SubScoresRaisedSticks(products, n + 1);
    } else {
      assert products[..n] == products;
    }
  }

  /**
   * Each sub-score comes from the last product of its type, and a type with no
   * product scores 0.
   */
  lemma SubScoresFromLast(products: seq<Product>)
    requires SubScores(products).Ok?
    ensures var sc := SubScores(products).value;
      && sc.cpu == (match LastOf(products, Cpu) case None => 0 case Some(p) => CpuScore(p.name))
      && sc.gpu == (match LastOf(products, Gpu) case None => 0 case Some(p) => GpuScore(p.name))
      && (LastOf(products, Ram).None? ==> sc.ram == 0)
      && (LastOf(products, Ram).Some? ==> RamScore(LastOf(products, Ram).value.specifications) == Ok(sc.ram))
      && (LastOf(products, Storage).None? ==> sc.storage == 0)
      && (LastOf(products, Storage).Some? ==> StorageScore(LastOf(products, Storage).value.specifications) == Ok(sc.storage))
  {
    CpuFromLast(products);
    GpuFromLast(products);
    RamFromLast(products);
    StorageFromLast(products);
  }

  lemma {:induction false} CpuFromLast(products: seq<Product>)
    requires SubScores(products).Ok?
    ensures SubScores(products).value.cpu == (match LastOf(products, Cpu) case None => 0 case Some(p) => CpuScore(p.name))
    decreases |products|
  {
    if products != [] {
      CpuFromLast(products[..|products| - 1]);
    }
  }

  lemma {:induction false} GpuFromLast(products: seq<Product>)
    requires SubScores(products).Ok?
    ensures SubScores(products).value.gpu == (match LastOf(products, Gpu) case None => 0 case Some(p) => GpuScore(p.name))
    decreases |products|
  {
    if products != [] {
      GpuFromLast(products[..|products| - 1]);
    }
  }

  lemma {:induction false} RamFromLast(products: seq<Product>)
    requires SubScores(products).Ok?
    ensures LastOf(products, Ram).None? ==> SubScores(products).value.ram == 0
    ensures LastOf(products, Ram).Some? ==>
      RamScore(LastOf(products, Ram).value.specifications) == Ok(SubScores(products).value.ram)
    decreases |products|
  {
    if products != [] {
      RamFromLast(products[..|products| - 1]);
    }
  }

  lemma {:induction false} StorageFromLast(products: seq<Product>)
    requires SubScores(products).Ok?
    ensures LastOf(products, Storage).None? ==> SubScores(products).value.storage == 0
    ensures LastOf(products, Storage).Some? ==>
      StorageScore(LastOf(products, Storage).value.specifications) == Ok(SubScores(products).value.storage)
    decreases |products|
  {
    if products != [] {
      StorageFromLast(products[..|products| - 1]);
      StorageStep(SubScores(products[..|products| - 1]).value, products[|products| - 1]);
    }
  }

  /** One step keeps the storage sub-score unless its product is storage, which sets it to that product's score. */
  lemma StorageStep(sc: Scores, p: Product)
    ensures ScoreStep(sc, p).Ok? && p.kind != Storage ==> ScoreStep(sc, p).value.storage == sc.storage
    ensures ScoreStep(sc, p).Ok? && p.kind == Storage ==> StorageScore(p.specifications) == Ok(ScoreStep(sc, p).value.storage)
  {
  }

  lemma {:induction false} SubScoresInRange(products: seq<Product>)
    ensures SubScores(products).Ok? ==> InRange(SubScores(products).value)
    decreases |products|
  {
    if products != [] {
      SubScoresInRange(products[..|products| - 1]);
    }
  }

  /** The score is a weighted mean of sub-scores in 0..100, so it lies in 0..100. */
  lemma ScoreInRange(products: seq<Product>, segment: Segment)
    ensures PerformanceScore(products, segment).Ok? ==>
      0.0 <= PerformanceScore(products, segment).value <= 100.0
  {
    SubScoresInRange(products);
  }

  /** Motherboards, PSUs, cases, coolers, peripherals and laptops never change the score. */
  lemma NonScoringIgnored(products: seq<Product>, p: Product)
    requires p.kind !in {Cpu, Gpu, Ram, Storage}
    ensures SubScores(products + [p]) == SubScores(products)
  {
    assert (products + [p])[..|products|] == products;
  }

  /** A later product of a type replaces the sub-score of an earlier one. */
  lemma LaterProductOverwrites(products: seq<Product>, p: Product, q: Product)
    requires p.kind == q.kind == Cpu
    ensures SubScores(products + [p, q]) == SubScores(products + [q])
  {
    var a, b := products + [p, q], products + [q];
    assert a[..|a| - 1] == products + [p];
    assert (products + [p])[..|products|] == products;
    assert b[..|b| - 1] == products;
  }

  /** A catalog product with just the fields the score reads. */
  function Part(name: string, kind: ProductType, specs: Specs): (p: Product)
    ensures p.name == name && p.kind == kind && p.specifications == specs
  {
    Product(name, name, kind, None, 0.0, specs, true, None, None, None, None)
  }

  function TopCpu(): Product { Part("AMD Ryzen 9 9950X3D", Cpu, map["Gniazdo" := Str("AM5")]) }

  function TopRam(): Product {
    Part("GOODRAM 64GB (2x32GB) 6000MHz CL30 IRDM BLACK V SILVER", Ram,
         map["Pojemność" := Str("64 GB"), "Taktowanie" := Str("6000 MHz"), "Typ" := Str("DDR5")])
  }

  function TopGpu(): Product { Part("Gigabyte GeForce RTX 5090 AORUS Master 32GB", Gpu, map[]) }

  function TopStorage(): Product {
    Part("Lexar 2TB M.2 PCIe Gen5 NVMe NM990", Storage,
         map["Pojemność" := Str("2 TB"), "Interfejs" := Str("PCIe 5.0")])
  }

  function ProBoard(): Product { Part("Gigabyte X870 AORUS ELITE WIFI7", Motherboard, map[]) }

  function ProCase(): Product { Part("Fractal Design Meshify 3 XL Black RGB", Case, map[]) }

  function ProPsu(): Product { Part("ENDORFY Supremo FM6 1000W 80 Plus Gold ATX 3.1", Psu, map[]) }

  function ProCooler(): Product { Part("be quiet! Light Loop 360mm", Cooler, map[]) }

  /** The eight components of the top PRO preset, in the order they are listed. */
  function TopProBuild(): seq<Product> {
    [TopCpu(), ProBoard(), TopRam(), TopGpu(), ProCase(), ProPsu(), TopStorage(), ProCooler()]
  }

  lemma TopRamScoresHundred()
    ensures RamScore(TopRam().specifications) == Ok(100)
  {
    assert PyStr.Contains("64 GB", "64 GB");
    assert RamBase(Str("64 GB")) == Ok(100);
    assert PyStr.Contains("6000 MHz", "6000");
  }

  lemma TopStorageScoresHundred()
    ensures StorageScore(TopStorage().specifications) == Ok(100)
  {
    assert PyStr.Contains("2 TB", "2 TB");
    assert PyStr.Contains("PCIe 5.0", "PCIe 5.0");
  }

  lemma SubScoresSnoc(products: seq<Product>, p: Product)
    ensures SubScores(products + [p]) ==
      match SubScores(products) case Raised(e) => Raised(e) case Ok(sc) => ScoreStep(sc, p)
  {
    assert (products + [p])[..|products|] == products;
  }

  lemma TopCpuStep(q: seq<Product>)
    requires SubScores(q) == Ok(ZeroScores)
    ensures SubScores(q + [TopCpu()]) == Ok(Scores(100, 0, 0, 0))
  {
    FlagshipsScoreTop();
    SubScoresSnoc(q, TopCpu());
  }

  lemma TopRamStep(q: seq<Product>)
    requires SubScores(q) == Ok(Scores(100, 0, 0, 0))
    ensures SubScores(q + [TopRam()]) == Ok(Scores(100, 0, 100, 0))
  {
    TopRamScoresHundred();
    SubScoresSnoc(q, TopRam());
  }

  lemma TopGpuStep(q: seq<Product>)
    requires SubScores(q) == Ok(Scores(100, 0, 100, 0))
    ensures SubScores(q + [TopGpu()]) == Ok(Scores(100, 100, 100, 0))
  {
    FlagshipsScoreTop();
    SubScoresSnoc(q, TopGpu());
  }

  lemma TopStorageStep(q: seq<Product>)
    requires SubScores(q) == Ok(Scores(100, 100, 100, 0))
    ensures SubScores(q + [TopStorage()]) == Ok(Scores(100, 100, 100, 100))
  {
    TopStorageScoresHundred();
    SubScoresSnoc(q, TopStorage());
  }

  /** Sub-scores of 100 everywhere give a score of 100 under every segment's weights. */
  lemma FullSubScoresScoreHundred(products: seq<Product>, segment: Segment)
    requires SubScores(products) == Ok(Scores(100, 100, 100, 100))
    ensures PerformanceScore(products, segment) == Ok(100.0)
  {
  }

  /** Appending eight products one at a time gives the list of the eight. */
  lemma EightSnocs(a: Product, b: Product, c: Product, d: Product, e: Product, f: Product, g: Product, h: Product)
    ensures [] + [a] + [b] + [c] + [d] + [e] + [f] + [g] + [h] == [a, b, c, d, e, f, g, h]
  {
  }

  /** The all-top build scores the full 100 under the PRO weights. */
  lemma TopProBuildScoresHundred()
    ensures PerformanceScore(TopProBuild(), Pro) == Ok(100.0)
  {
    var q1 := [] + [TopCpu()];
    var q2 := q1 + [ProBoard()];
    var q3 := q2 + [TopRam()];
    var q4 := q3 + [TopGpu()];
    var q5 := q4 + [ProCase()];
    var q6 := q5 + [ProPsu()];
    var q7 := q6 + [TopStorage()];
    var q8 := q7 + [ProCooler()];
    TopCpuStep([]);
    NonScoringIgnored(q1, ProBoard());
    TopRamStep(q2);
    TopGpuStep(q3);
    NonScoringIgnored(q4, ProCase());
    NonScoringIgnored(q5, ProPsu());
    TopStorageStep(q6);
    NonScoringIgnored(q7, ProCooler());
    EightSnocs(TopCpu(), ProBoard(), TopRam(), TopGpu(), ProCase(), ProPsu(), TopStorage(), ProCooler());
    FullSubScoresScoreHundred(q8, Pro);
  }

  // ---------------------------------------------------------------------------
  // Case image
  // ---------------------------------------------------------------------------

  const CaseImages: map<string, string> := map[
    "Silver Monkey X Cassette" := "/cases/silver_monkey_cassette.png",
    "Silver Monkey X Coffer" := "/cases/silver_monkey_coffer.png",
    "Deepcool CC560 ARGB" := "/cases/deepcool_cc560.png",
    "Deepcool CH560" := "/cases/deepcool_ch560.png",
    "Silver Monkey X Pyxis" := "/cases/silver_monkey_pyxis.png",
    "Cougar Uniface RGB Black" := "/cases/cougar_uniface.png",
    "be quiet! Light Base 500 LX Black" := "/cases/bequiet_lightbase.png",
    "Fractal Design Meshify 3 XL Black RGB" := "/cases/fractal_meshify.png"]

  const DefaultCaseImage := "/cases/default.png"

  /** The image of the first listed name that is a known case, otherwise the default image. */
  method GetCaseImageUrl(names: seq<string>) returns (url: string)
    ensures (forall i :: 0 <= i < |names| ==> names[i] !in CaseImages) ==> url == DefaultCaseImage
    ensures (exists i :: 0 <= i < |names| && names[i] in CaseImages) ==>
      exists i :: 0 <= i < |names| && names[i] in CaseImages && url == CaseImages[names[i]]
        && forall j :: 0 <= j < i ==> names[j] !in CaseImages
  {
    for i := 0 to |names|
      invariant forall j :: 0 <= j < i ==> names[j] !in CaseImages
    {
      if names[i] in CaseImages {
        return CaseImages[names[i]];
      }
    }
    return DefaultCaseImage;
  }

  // ---------------------------------------------------------------------------
  // Component map
  // ---------------------------------------------------------------------------

  /** The `component_map` key for a product type; peripherals have none. */
  function SlotKey(t: ProductType): Option<string> {
    match t
    case Cpu => Some("cpu")
    case Gpu => Some("gpu")
    case Motherboard => Some("motherboard")
    case Ram => Some("ram")
    case Storage => Some("storage")
    case Psu => Some("psu")
    case Case => Some("case")
    case Cooler => Some("cooler")
    case Laptop => Some("laptop")
    case Peripheral => None
  }

  /** For every type except peripherals the slot key is the type's stored name. */
  lemma SlotKeyIsTypeName(t: ProductType)
    ensures t == Peripheral <==> SlotKey(t).None?
    ensures t != Peripheral ==> SlotKey(t) == Some(TypeName(t))
  {
  }

  /** The products the listed names resolve to, in list order; unknown names are skipped. */
  function Resolved(names: seq<string>, created: map<string, Product>): seq<Product>
    decreases |names|
  {
    if names == [] then []
    else
      var init := Resolved(names[..|names| - 1], created);
      var last := names[|names| - 1];
      if last in created then init + [created[last]] else init
  }

  /** The map built from `products`, later products of a slot replacing earlier ones. */
  function ComponentMapOf(products: seq<Product>): map<string, string>
    decreases |products|
  {
    if products == [] then map[]
    else
      var m := ComponentMapOf(products[..|products| - 1]);
      var p := products[|products| - 1];
      match SlotKey(p.kind)
      case Some(k) => m[k := p.id]
      case None => m
  }

  /** The `if`/`elif` chain that stores a product's id under its slot; a peripheral is not stored. */
  method MapSlot(componentMap: map<string, string>, product: Product) returns (m: map<string, string>)
    ensures SlotKey(product.kind).Some? ==> m == componentMap[SlotKey(product.kind).value := product.id]
    ensures SlotKey(product.kind).None? ==> m == componentMap
  {
    m := componentMap;
    match product.kind {
      case Cpu => m := m["cpu" := product.id];
      case Gpu => m := m["gpu" := product.id];
      case Motherboard => m := m["motherboard" := product.id];
      case Ram => m := m["ram" := product.id];
      case Storage => m := m["storage" := product.id];
      case Psu => m := m["psu" := product.id];
      case Case => m := m["case" := product.id];
      case Cooler => m := m["cooler" := product.id];
      case Laptop => m := m["laptop" := product.id];
      case Peripheral =>
    }
  }

  method BuildComponentMap(names: seq<string>, created: map<string, Product>)
    returns (componentMap: map<string, string>, productsList: seq<Product>)
    ensures productsList == Resolved(names, created)
    ensures componentMap == ComponentMapOf(productsList)
  {
    componentMap, productsList := map[], [];
    for i := 0 to |names|
      invariant productsList == Resolved(names[..i], created)
      invariant componentMap == ComponentMapOf(productsList)
    {
      assert names[..i + 1][..i] == names[..i];
      if names[i] in created {
        var product := created[names[i]];
        productsList := productsList + [product];
        assert productsList[..|productsList| - 1] == Resolved(names[..i], created);
        componentMap := MapSlot(componentMap, product);
      }
    }
    assert names[..|names|] == names;
  }

  /** Resolution keeps the list order: resolving a concatenation concatenates the results. */
  lemma {:induction false} ResolvedConcat(a: seq<string>, b: seq<string>, created: map<string, Product>)
    ensures Resolved(a + b, created) == Resolved(a, created) + Resolved(b, created)
    decreases |b|
  {
    if b != [] {
      var b' := b[..|b| - 1];
      assert (a + b)[..|a + b| - 1] == a + b';
      ResolvedConcat(a, b', created);
    } else {
      assert a + b == a;
    }
  }

  /** A resolved product is exactly the product of some listed, known name. */
  lemma {:induction false} ResolvedMembers(names: seq<string>, created: map<string, Product>, p: Product)
    ensures p in Resolved(names, created) <==>
      exists i :: 0 <= i < |names| && names[i] in created && created[names[i]] == p
    decreases |names|
  {
    if names != [] {
      var init := names[..|names| - 1];
      ResolvedMembers(init, created, p);
      assert forall i :: 0 <= i < |init| ==> init[i] == names[i];
    }
  }

  /**
   * A slot is in the map exactly when some product of that slot was resolved,
   * and it holds the id of the last such product.
   */
  lemma {:induction false} ComponentMapRule(products: seq<Product>, k: string)
    ensures k in ComponentMapOf(products) <==>
      exists i :: 0 <= i < |products| && SlotKey(products[i].kind) == Some(k)
    ensures k in ComponentMapOf(products) ==>
      exists i :: 0 <= i < |products| && SlotKey(products[i].kind) == Some(k)
        && ComponentMapOf(products)[k] == products[i].id
        && forall j :: i < j < |products| ==> SlotKey(products[j].kind) != Some(k)
    decreases |products|
  {
    if products != [] {
      var init := products[..|products| - 1];
      var n := |products| - 1;
      ComponentMapRule(init, k);
      assert forall i :: 0 <= i < |init| ==> init[i] == products[i];
      if SlotKey(products[n].kind) != Some(k) && k in ComponentMapOf(products) {
        var i :| 0 <= i < |init| && SlotKey(init[i].kind) == Some(k)
          && ComponentMapOf(init)[k] == init[i].id
          && forall j :: i < j < |init| ==> SlotKey(init[j].kind) != Some(k);
        assert SlotKey(products[i].kind) == Some(k);
      }
    }
  }

  // ---------------------------------------------------------------------------
  // Preset assembly
  // ---------------------------------------------------------------------------

  /** One curated preset as listed in the seed data; `deviceType` is optional there. */
  datatype PresetData = PresetData(
    name: string,
    description: string,
    deviceType: Option<DeviceType>,
    segment: Segment,
    minBudget: Option<real>,
    maxBudget: Option<real>,
    price: real,
    components: seq<string>)

  /** Builds the preset stored for `data`; `id` stands for the key the database generates. */
  method SeedPreset(id: string, data: PresetData, created: map<string, Product>) returns (r: Result<Preset>)
    ensures var ps := Resolved(data.components, created);
      match PerformanceScore(ps, data.segment)
      case Raised(e) => r == Raised(e)
      case Ok(score) =>
        r.Ok? && r.value.id == id && r.value.name == data.name
        && r.value.description == Some(data.description)
        && r.value.componentMap == ComponentMapOf(ps)
        && r.value.performanceScore == Some(score)
        && r.value.deviceType == data.deviceType.GetOr(Pc)
        && r.value.segment == data.segment && r.value.totalPrice == data.price
        && r.value.minBudget == data.minBudget && r.value.maxBudget == data.maxBudget
        && r.value.reasoning.None? && r.value.priority == 0 && r.value.isActive
        && r.value.imageUrl.Some?
        && ((forall i :: 0 <= i < |data.components| ==> data.components[i] !in CaseImages) ==>
              r.value.imageUrl.value == DefaultCaseImage)
        && ((exists i :: 0 <= i < |data.components| && data.components[i] in CaseImages) ==>
              exists i :: 0 <= i < |data.components| && data.components[i] in CaseImages
                && r.value.imageUrl.value == CaseImages[data.components[i]]
                && forall j :: 0 <= j < i ==> data.components[j] !in CaseImages)
        && (r.value.imageUrl.value == DefaultCaseImage <==>
              forall i :: 0 <= i < |data.components| ==> data.components[i] !in CaseImages)
  {
    var componentMap, productsList := BuildComponentMap(data.components, created);
    var score := CalculatePerformanceScore(productsList, data.segment);
    if score.Raised? {
      return Raised(score.error);
    }
    var imageUrl := GetCaseImageUrl(data.components);
    CaseImagesNotDefault();
    r := Ok(Preset(id, data.name, Some(data.description), data.deviceType.GetOr(Pc), data.segment, data.minBudget, data.maxBudget,
                   componentMap, data.price, Some(score.value), None, true, 0, Some(imageUrl)));
  }

  lemma CaseImagesNotDefault()
    ensures forall n :: n in CaseImages ==> CaseImages[n] != DefaultCaseImage
  {
  }
}
